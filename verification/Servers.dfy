/** server/server.go's and server/ws.go's methods, changing the registry in place. */
module Servers {
  import opened Options
  import opened RegistryModel

  class Server {
    var sessions: Registry

    constructor ()
      ensures sessions == map[]
    {
      sessions := map[];
    }

    method AddBackend(name: string, id: string, conn: Conn)
      modifies this
      ensures sessions == RegistryModel.AddBackend(old(sessions), name, id, conn)
      ensures GetBackend(sessions, name, id) == Some(NewClient(id, conn))
    {
      if name !in sessions {
        sessions := sessions[name := Cluster(map[], map[])];
      }
      var sess := sessions[name];
      sessions := sessions[name := sess.(backends := sess.backends[id := NewClient(id, conn)])];
    }

    method DelBackend(name: string, id: string)
      modifies this
      ensures sessions == RegistryModel.DelBackend(old(sessions), name, id)
      ensures GetBackend(sessions, name, id) == None
    {
      if name !in sessions {
        return;
      }
      var left := sessions[name].backends - {id};
      sessions := sessions[name := sessions[name].(backends := left)];
      if left == map[] {
        sessions := sessions - {name};
        assert sessions == old(sessions) - {name};
      }
    }

    method AddFrontend(name: string, id: string, conn: Conn) returns (ok: bool)
      modifies this
      ensures ok <==> name in old(sessions)
      ensures sessions == RegistryModel.AddFrontend(old(sessions), name, id, conn)
      ensures ok ==> GetFrontend(sessions, name, id) == Some(NewClient(id, conn))
    {
      if name !in sessions {
        return false;
      }
      sessions := sessions[name := sessions[name].(frontends := sessions[name].frontends[id := NewClient(id, conn)])];
      return true;
    }

    method DelFrontend(name: string, id: string)
      modifies this
      ensures sessions == RegistryModel.DelFrontend(old(sessions), name, id)
      ensures GetFrontend(sessions, name, id) == None
    {
      if name !in sessions {
        return;
      }
      sessions := sessions[name := sessions[name].(frontends := sessions[name].frontends - {id})];
    }

    /** The ids of a cluster's backends in any order, behind as many empty strings. */
    method GetBackends(name: string) returns (ids: seq<string>)
      ensures name !in sessions ==> ids == []
      ensures name in sessions ==>
        var n := |sessions[name].backends|;
        && |ids| == 2 * n
        && (forall i :: 0 <= i < n ==> ids[i] == "")
        && (forall i, j :: n <= i < j < 2 * n ==> ids[i] != ids[j])
        && (forall k :: k in ids[n..] <==> k in sessions[name].backends)
    {
      if name !in sessions {
        return [];
      }
      var keys := sessions[name].backends.Keys;
      var found := [];
      var left := keys;
      while left != {}
        invariant left <= keys && |found| + |left| == |keys|
        invariant forall i :: 0 <= i < |found| ==> found[i] in keys - left
        invariant forall i, j :: 0 <= i < j < |found| ==> found[i] != found[j]
        invariant forall k :: k in keys - left ==> k in found
        decreases left
      {
        var k :| k in left;
        found := found + [k];
        left := left - {k};
      }
      ids := seq(|keys|, _ => "") + found;
      assert ids[|keys|..] == found;
    }

    /**
      One connection among others: it registers, its packets are routed one by one, and it
      deregisters when they end. Between its own steps the other connections' handlers change the
      registry: to others[i] before it looks up packet i, to the last of them before it deregisters. A
      frontend without a cluster, or an unknown role, gets no loop, but the deferred deregistration
      runs for it as well.
     */
    method HandleWs(conn: Conn, h: Header, packets: seq<Packet>, others: seq<Registry>)
      returns (rejected: bool, joined: Registry, routed: seq<Routed>)
      requires |others| == |packets| + 1
      modifies this
      ensures rejected <==> h.role == Unknown || (h.role == Frontend && h.name !in old(sessions))
      ensures joined == Register(old(sessions), h, conn)
      ensures rejected ==> routed == [] && joined == old(sessions)
      ensures !rejected ==>
        && Lookup(joined, h) == Some(NewClient(h.id, conn))
        && |routed| == |packets|
        && forall i :: 0 <= i < |packets| ==> routed[i] == Route(others[i], h, packets[i])
      ensures sessions == Deregister(others[|packets|], h)
    {
      rejected, routed := false, [];
      match h.role {
        case Backend => AddBackend(h.name, h.id, conn);
        case Frontend =>
          var ok := AddFrontend(h.name, h.id, conn);
          rejected := !ok;
        case Unknown => rejected := true;
      }
      joined := sessions;
      if !rejected {
        for i := 0 to |packets|
          invariant |routed| == i
          invariant forall j :: 0 <= j < i ==> routed[j] == Route(others[j], h, packets[j])
        {
          sessions := others[i];
          routed := routed + [Route(sessions, h, packets[i])];
        }
      }
      sessions := others[|packets|];
      match h.role {
        case Backend => DelBackend(h.name, h.id);
        case Frontend => DelFrontend(h.name, h.id);
        case Unknown =>
      }
    }
  }
}
