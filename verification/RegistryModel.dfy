/**
  server/server.go and server/ws.go: the registry of a signalling server next to the connections it
  is supposed to describe, over whole runs of joins, packets and leaves.
 */
module RegistryModel {
  import opened Options

  /** A connection's handler, by number; the websocket behind it. */
  type Conn = nat

  datatype Client = Client(id: string, peers: map<string, string>, conn: Conn)

  datatype Cluster = Cluster(backends: map<string, Client>, frontends: map<string, Client>)

  type Registry = map<string, Cluster>

  function NewClient(id: string, conn: Conn): Client {
    Client(id, map[], conn)
  }

  function AddBackend(r: Registry, name: string, id: string, conn: Conn): Registry {
    var c := if name in r then r[name] else Cluster(map[], map[]);
    r[name := c.(backends := c.backends[id := NewClient(id, conn)])]
  }

  /** Forgets the whole cluster, frontends included, with its last backend. */
  function DelBackend(r: Registry, name: string, id: string): Registry {
    if name !in r then r
    else
      var left := r[name].backends - {id};
      if left == map[] then r - {name} else r[name := r[name].(backends := left)]
  }

  /** A frontend is only taken into a cluster that has a backend. */
  function AddFrontend(r: Registry, name: string, id: string, conn: Conn): Registry {
    if name !in r then r
    else r[name := r[name].(frontends := r[name].frontends[id := NewClient(id, conn)])]
  }

  function DelFrontend(r: Registry, name: string, id: string): Registry {
    if name !in r then r else r[name := r[name].(frontends := r[name].frontends - {id})]
  }

  function GetBackend(r: Registry, name: string, id: string): Option<Client> {
    if name in r && id in r[name].backends then Some(r[name].backends[id]) else None
  }

  function GetFrontend(r: Registry, name: string, id: string): Option<Client> {
    if name in r && id in r[name].frontends then Some(r[name].frontends[id]) else None
  }

  // ---------- Connections ----------

  datatype Role = Backend | Frontend | Unknown

  /** The header a connection sent. */
  datatype Header = Header(role: Role, name: string, id: string)

  /**
    A connection between its header and its deferred deregistration. `turn` says in which life of
    its cluster it joined, `admitted` whether it was let in.
   */
  datatype Live = Live(header: Header, turn: nat, admitted: bool)

  /** `turns` counts how often each cluster has got its first backend. */
  datatype State = State(reg: Registry, live: map<Conn, Live>, turns: map<string, nat>)

  /** A packet as the server sees it: who it says it is from, and the client id it is addressed to. */
  datatype Packet = Packet(fromClient: string, fromPeer: string, toClient: string)

  datatype Event = Join(conn: Conn, header: Header) | Leave(conn: Conn) | Sends(conn: Conn, packet: Packet)

  function Empty(): State {
    State(map[], map[], map[])
  }

  function Turn(s: State, name: string): nat {
    if name in s.turns then s.turns[name] else 0
  }

  /** Whether a cluster has a live backend connection. */
  ghost predicate Served(s: State, name: string) {
    exists c :: c in s.live && s.live[c].header.role == Backend && s.live[c].header.name == name
  }

  /** The switch on the header type when a connection arrives. */
  function Register(r: Registry, h: Header, conn: Conn): Registry {
    match h.role
    case Backend => AddBackend(r, h.name, h.id, conn)
    case Frontend => AddFrontend(r, h.name, h.id, conn)
    case Unknown => r
  }

  /** The deferred switch when it ends, for whatever reason, rejection included. */
  function Deregister(r: Registry, h: Header): Registry {
    match h.role
    case Backend => DelBackend(r, h.name, h.id)
    case Frontend => DelFrontend(r, h.name, h.id)
    case Unknown => r
  }

  ghost function Next(s: State, e: Event): State {
    match e
    case Join(conn, h) =>
      if conn in s.live then s
      else
        var turns := if h.role == Backend && !Served(s, h.name) then s.turns[h.name := Turn(s, h.name) + 1] else s.turns;
        var t := if h.name in turns then turns[h.name] else 0;
        var admitted := h.role == Backend || (h.role == Frontend && Served(s, h.name));
        State(Register(s.reg, h, conn), s.live[conn := Live(h, t, admitted)], turns)
    case Leave(conn) =>
      if conn !in s.live then s
      else State(Deregister(s.reg, s.live[conn].header), s.live - {conn}, s.turns)
    case Sends(_, _) => s
  }

  ghost function Run(es: seq<Event>): State {
    if es == [] then Empty() else Next(Run(es[..|es| - 1]), es[|es| - 1])
  }

  // ---------- Agreement ----------

  /** The connection's place in the registry, if the registry is to describe the live connections. */
  predicate Belongs(s: State, c: Conn, h: Header) {
    && c in s.live && s.live[c].header == h && s.live[c].admitted
    && (h.role == Frontend ==> s.live[c].turn == Turn(s, h.name))
  }

  function Lookup(r: Registry, h: Header): Option<Client> {
    match h.role
    case Backend => GetBackend(r, h.name, h.id)
    case Frontend => GetFrontend(r, h.name, h.id)
    case Unknown => None
  }

  /** A cluster is registered exactly while it has a live backend. */
  ghost predicate Clusters(s: State) {
    forall name :: name in s.reg <==> Served(s, name)
  }

  /** The clients of the registered clusters are exactly the connections that belong there. */
  ghost predicate Clients(s: State) {
    forall h: Header, c: Conn :: h.role != Unknown && h.name in s.reg ==>
      (Lookup(s.reg, h) == Some(NewClient(h.id, c)) <==> Belongs(s, c, h))
  }

  /** Nothing else is stored: every entry is a new client under its own id. */
  ghost predicate Plain(s: State) {
    forall h: Header :: Lookup(s.reg, h).Some? ==> Lookup(s.reg, h).value == NewClient(h.id, Lookup(s.reg, h).value.conn)
  }

  /** Admission and turns fit the past. */
  ghost predicate Dated(s: State) {
    forall c :: c in s.live ==>
      && s.live[c].turn <= Turn(s, s.live[c].header.name)
      && (s.live[c].header.role == Backend ==> s.live[c].admitted)
      && (s.live[c].header.role == Unknown ==> !s.live[c].admitted)
  }

  ghost predicate Agrees(s: State) {
    Clusters(s) && Clients(s) && Plain(s) && Dated(s)
  }

  // ---------- What each operation does to every lookup ----------

  lemma AfterAddBackend(r: Registry, name: string, id: string, conn: Conn, h: Header)
    ensures Lookup(AddBackend(r, name, id, conn), h)
         == if h == Header(Backend, name, id) then Some(NewClient(id, conn)) else Lookup(r, h)
    ensures h.name in AddBackend(r, name, id, conn) <==> h.name in r || h.name == name
  {
  }

  lemma AfterAddFrontend(r: Registry, name: string, id: string, conn: Conn, h: Header)
    ensures Lookup(AddFrontend(r, name, id, conn), h)
         == if name in r && h == Header(Frontend, name, id) then Some(NewClient(id, conn)) else Lookup(r, h)
    ensures h.name in AddFrontend(r, name, id, conn) <==> h.name in r
  {
  }

  lemma AfterDelFrontend(r: Registry, name: string, id: string, h: Header)
    ensures Lookup(DelFrontend(r, name, id), h) == if h == Header(Frontend, name, id) then None else Lookup(r, h)
    ensures h.name in DelFrontend(r, name, id) <==> h.name in r
  {
  }

  /** Whether a backend other than `id` is registered in a cluster. */
  predicate Others(r: Registry, name: string, id: string) {
    name in r && r[name].backends - {id} != map[]
  }

  lemma AfterDelBackend(r: Registry, name: string, id: string, h: Header)
    ensures Others(r, name, id) || name !in r ==>
              Lookup(DelBackend(r, name, id), h) == if h == Header(Backend, name, id) then None else Lookup(r, h)
    ensures h.name in DelBackend(r, name, id) <==> h.name in r && (h.name != name || Others(r, name, id))
    ensures h.name != name ==> Lookup(DelBackend(r, name, id), h) == Lookup(r, h)
  {
  }

  // ---------- Joining ----------

  lemma JoinBackendKeeps(s: State, conn: Conn, h: Header)
    requires Agrees(s) && conn !in s.live && h.role == Backend && Lookup(s.reg, h).None?
    ensures Agrees(Next(s, Join(conn, h)))
  {
    hide AddBackend;
    var t := Next(s, Join(conn, h));
    assert t.live[conn].header == h;
    forall name ensures name in t.reg <==> Served(t, name) {
      AfterAddBackend(s.reg, h.name, h.id, conn, Header(Backend, name, ""));
      if name != h.name && Served(s, name) {
        var c :| c in s.live && s.live[c].header.role == Backend && s.live[c].header.name == name;
        assert c in t.live && t.live[c] == s.live[c];
      }
      if name != h.name && Served(t, name) {
        var c :| c in t.live && t.live[c].header.role == Backend && t.live[c].header.name == name;
        assert c in s.live;
      }
    }
    forall g: Header ensures Lookup(t.reg, g) == if g == h then Some(NewClient(h.id, conn)) else Lookup(s.reg, g) {
      AfterAddBackend(s.reg, h.name, h.id, conn, g);
    }
    forall g: Header, c: Conn | g.role != Unknown && g.name in t.reg
      ensures Lookup(t.reg, g) == Some(NewClient(g.id, c)) <==> Belongs(t, c, g)
    {
      AfterAddBackend(s.reg, h.name, h.id, conn, g);
      JoinedBackend(s, conn, h, g, c);
    }
  }

  /** Who belongs where after a backend has joined. */
  lemma JoinedBackend(s: State, conn: Conn, h: Header, g: Header, c: Conn)
    requires Agrees(s) && conn !in s.live && h.role == Backend && Lookup(s.reg, h).None? && g.role != Unknown
    requires g.name in s.reg || g.name == h.name
    ensures var t := Next(s, Join(conn, h));
            Belongs(t, c, g) <==> if g == h then c == conn else Lookup(s.reg, g) == Some(NewClient(g.id, c))
  {
    hide AddBackend, Plain;
    if g.name in s.reg {
      assert Lookup(s.reg, g) == Some(NewClient(g.id, c)) <==> Belongs(s, c, g);
      assert Served(s, g.name);
    } else {
      assert !Served(s, h.name);
    }
  }

  /** A newcomer that is no backend changes nobody's cluster. */
  lemma ServedStays(s: State, conn: Conn, h: Header, name: string)
    requires conn !in s.live && h.role != Backend
    ensures Served(Next(s, Join(conn, h)), name) <==> Served(s, name)
  {
    var t := Next(s, Join(conn, h));
    if Served(s, name) {
      var c :| c in s.live && s.live[c].header.role == Backend && s.live[c].header.name == name;
      assert c in t.live && t.live[c] == s.live[c];
    }
    if Served(t, name) {
      var c :| c in t.live && t.live[c].header.role == Backend && t.live[c].header.name == name;
      assert c in s.live;
    }
  }

  lemma JoinFrontendKeeps(s: State, conn: Conn, h: Header)
    requires Agrees(s) && conn !in s.live && h.role == Frontend && Lookup(s.reg, h).None?
    ensures Agrees(Next(s, Join(conn, h)))
  {
    hide AddFrontend;
    var t := Next(s, Join(conn, h));
    forall name ensures name in t.reg <==> Served(t, name) {
      AfterAddFrontend(s.reg, h.name, h.id, conn, Header(Frontend, name, ""));
      ServedStays(s, conn, h, name);
    }
    forall g: Header
      ensures Lookup(t.reg, g) == if h.name in s.reg && g == h then Some(NewClient(h.id, conn)) else Lookup(s.reg, g)
    {
      AfterAddFrontend(s.reg, h.name, h.id, conn, g);
    }
    assert Dated(t);
    hide Lookup, Dated, Belongs, Served;
    forall g: Header, c: Conn | g.role != Unknown && g.name in t.reg
      ensures Lookup(t.reg, g) == Some(NewClient(g.id, c)) <==> Belongs(t, c, g)
    {
      AfterAddFrontend(s.reg, h.name, h.id, conn, g);
      JoinedFrontend(s, conn, h, g, c);
    }
  }

  /** Who belongs where after a frontend has joined or has been turned away. */
  lemma JoinedFrontend(s: State, conn: Conn, h: Header, g: Header, c: Conn)
    requires Agrees(s) && conn !in s.live && h.role == Frontend && Lookup(s.reg, h).None?
    requires g.role != Unknown && g.name in s.reg
    ensures var t := Next(s, Join(conn, h));
            Belongs(t, c, g) <==> if g == h then c == conn else Lookup(s.reg, g) == Some(NewClient(g.id, c))
  {
    hide AddFrontend, Plain;
    assert Lookup(s.reg, g) == Some(NewClient(g.id, c)) <==> Belongs(s, c, g);
    assert Served(s, g.name);
  }

  lemma JoinUnknownKeeps(s: State, conn: Conn, h: Header)
    requires Agrees(s) && conn !in s.live && h.role == Unknown
    ensures Agrees(Next(s, Join(conn, h)))
  {
    var t := Next(s, Join(conn, h));
    forall name ensures name in t.reg <==> Served(t, name) {
      ServedStays(s, conn, h, name);
    }
    forall g: Header, c: Conn | g.role != Unknown && g.name in t.reg
      ensures Lookup(t.reg, g) == Some(NewClient(g.id, c)) <==> Belongs(t, c, g)
    {
      assert Lookup(s.reg, g) == Some(NewClient(g.id, c)) <==> Belongs(s, c, g);
    }
  }

  /** Joining under a header that is already registered takes over the entry of a connection that is still live. */
  lemma JoinTakesOver(s: State, conn: Conn, h: Header)
    requires Agrees(s) && conn !in s.live && Lookup(s.reg, h).Some?
    ensures !Agrees(Next(s, Join(conn, h)))
  {
    hide AddBackend, AddFrontend, Plain;
    var t := Next(s, Join(conn, h));
    var c := Lookup(s.reg, h).value.conn;
    assert Belongs(s, c, h) by { PlainEntry(s, h); }
    AfterAddBackend(s.reg, h.name, h.id, conn, h);
    AfterAddFrontend(s.reg, h.name, h.id, conn, h);
    assert Served(s, h.name);
    assert Belongs(t, c, h) && h.name in t.reg && Lookup(t.reg, h) == Some(NewClient(h.id, conn));
    assert Clients(t) ==> Lookup(t.reg, h) == Some(NewClient(h.id, c));
  }

  lemma PlainEntry(s: State, h: Header)
    requires Agrees(s) && Lookup(s.reg, h).Some?
    ensures h.name in s.reg && h.role != Unknown && Belongs(s, Lookup(s.reg, h).value.conn, h)
  {
  }

  /** A join keeps the registry in agreement exactly when nothing is registered under its header. */
  lemma JoinAgreesExactlyWhen(s: State, conn: Conn, h: Header)
    requires Agrees(s) && conn !in s.live
    ensures Agrees(Next(s, Join(conn, h))) <==> Lookup(s.reg, h).None?
  {
    hide Agrees, Next;
    if Lookup(s.reg, h).Some? {
      JoinTakesOver(s, conn, h);
    } else {
      match h.role
      case Backend => JoinBackendKeeps(s, conn, h);
      case Frontend => JoinFrontendKeeps(s, conn, h);
      case Unknown => JoinUnknownKeeps(s, conn, h);
    }
  }

  // ---------- Leaving ----------

  /** Belonging survives someone else's leaving. */
  lemma BelongsStays(s: State, conn: Conn, c: Conn, g: Header)
    requires conn in s.live
    ensures Belongs(Next(s, Leave(conn)), c, g) <==> c != conn && Belongs(s, c, g)
  {
    hide Deregister;
  }

  lemma ServedWithout(s: State, conn: Conn, name: string)
    requires conn in s.live && (s.live[conn].header.role != Backend || s.live[conn].header.name != name)
    ensures Served(Next(s, Leave(conn)), name) <==> Served(s, name)
  {
    hide Deregister;
    var t := Next(s, Leave(conn));
    if Served(s, name) {
      var c :| c in s.live && s.live[c].header.role == Backend && s.live[c].header.name == name;
      assert c in t.live;
    }
    if Served(t, name) {
      var c :| c in t.live && t.live[c].header.role == Backend && t.live[c].header.name == name;
      assert c in s.live;
    }
  }

  /** A live backend is registered. */
  lemma BackendIsThere(s: State, c: Conn)
    requires Agrees(s) && c in s.live && s.live[c].header.role == Backend
    ensures var h := s.live[c].header; h.name in s.reg && Lookup(s.reg, h) == Some(NewClient(h.id, c))
  {
    hide Plain, Lookup;
    var h := s.live[c].header;
    assert Served(s, h.name);
    assert Belongs(s, c, h);
  }

  /** The cluster outlives a backend exactly when another backend of it is live. */
  lemma OthersServe(s: State, conn: Conn)
    requires Agrees(s) && conn in s.live && s.live[conn].header.role == Backend
    ensures var h := s.live[conn].header; Others(s.reg, h.name, h.id) <==> Served(Next(s, Leave(conn)), h.name)
  {
    hide Deregister;
    var h, t := s.live[conn].header, Next(s, Leave(conn));
    BackendIsThere(s, conn);
    var left := s.reg[h.name].backends - {h.id};
    if Others(s.reg, h.name, h.id) {
      var id :| id in left;
      var g := Header(Backend, h.name, id);
      PlainEntry(s, g);
      var c := Lookup(s.reg, g).value.conn;
      assert c in t.live && t.live[c].header == g;
    }
    if Served(t, h.name) {
      var c :| c in t.live && t.live[c].header.role == Backend && t.live[c].header.name == h.name;
      BackendIsThere(s, c);
      assert s.live[c].header.id in left;
    }
  }

  lemma LeaveBackendKeeps(s: State, conn: Conn)
    requires Agrees(s) && conn in s.live && s.live[conn].header.role == Backend
    ensures Agrees(Next(s, Leave(conn)))
  {
    hide DelBackend, Lookup, Served, Belongs;
    var h, t := s.live[conn].header, Next(s, Leave(conn));
    BackendIsThere(s, conn);
    OthersServe(s, conn);
    forall name ensures name in t.reg <==> Served(t, name) {
      AfterDelBackend(s.reg, h.name, h.id, Header(Backend, name, ""));
      if name != h.name {
        ServedWithout(s, conn, name);
      }
    }
    assert Dated(t);
    hide Dated, Clusters;
    forall g: Header
      ensures Lookup(t.reg, g).Some? ==> g.name in t.reg
      ensures g.name in t.reg ==> Lookup(t.reg, g) == if g == h then None else Lookup(s.reg, g)
    {
      LookupNeedsCluster(t.reg, g);
      AfterDelBackend(s.reg, h.name, h.id, g);
    }
    forall g: Header, c: Conn | g.role != Unknown && g.name in t.reg
      ensures Lookup(t.reg, g) == Some(NewClient(g.id, c)) <==> Belongs(t, c, g)
    {
      AfterDelBackend(s.reg, h.name, h.id, g);
      assert Lookup(s.reg, g) == Some(NewClient(g.id, c)) <==> Belongs(s, c, g);
      BelongsStays(s, conn, c, g);
      BelongsHeader(s, conn, g);
    }
  }

  lemma LookupNeedsCluster(r: Registry, g: Header)
    ensures Lookup(r, g).Some? ==> g.name in r
  {
  }

  lemma BelongsHeader(s: State, c: Conn, g: Header)
    ensures Belongs(s, c, g) ==> c in s.live && s.live[c].header == g
  {
  }

  lemma LeaveFrontendKeeps(s: State, conn: Conn)
    requires Agrees(s) && conn in s.live && s.live[conn].header.role == Frontend
    requires var o := Lookup(s.reg, s.live[conn].header); o.None? || o.value.conn == conn
    ensures Agrees(Next(s, Leave(conn)))
  {
    hide DelFrontend;
    var h, t := s.live[conn].header, Next(s, Leave(conn));
    forall name ensures name in t.reg <==> Served(t, name) {
      AfterDelFrontend(s.reg, h.name, h.id, Header(Frontend, name, ""));
      ServedWithout(s, conn, name);
    }
    forall g: Header ensures Lookup(t.reg, g) == if g == h then None else Lookup(s.reg, g) {
      AfterDelFrontend(s.reg, h.name, h.id, g);
    }
    forall g: Header, c: Conn | g.role != Unknown && g.name in t.reg
      ensures Lookup(t.reg, g) == Some(NewClient(g.id, c)) <==> Belongs(t, c, g)
    {
      AfterDelFrontend(s.reg, h.name, h.id, g);
      assert Lookup(s.reg, g) == Some(NewClient(g.id, c)) <==> Belongs(s, c, g);
      BelongsStays(s, conn, c, g);
    }
  }

  lemma LeaveUnknownKeeps(s: State, conn: Conn)
    requires Agrees(s) && conn in s.live && s.live[conn].header.role == Unknown
    ensures Agrees(Next(s, Leave(conn)))
  {
    var t := Next(s, Leave(conn));
    forall name ensures name in t.reg <==> Served(t, name) {
      ServedWithout(s, conn, name);
    }
    forall g: Header, c: Conn | g.role != Unknown && g.name in t.reg
      ensures Lookup(t.reg, g) == Some(NewClient(g.id, c)) <==> Belongs(t, c, g)
    {
      assert Lookup(s.reg, g) == Some(NewClient(g.id, c)) <==> Belongs(s, c, g);
      BelongsStays(s, conn, c, g);
    }
  }

  /** A frontend that leaves under someone else's entry takes that entry away. */
  lemma LeaveRobs(s: State, conn: Conn)
    requires Agrees(s) && conn in s.live && s.live[conn].header.role == Frontend
    requires var o := Lookup(s.reg, s.live[conn].header); o.Some? && o.value.conn != conn
    ensures !Agrees(Next(s, Leave(conn)))
  {
    hide DelFrontend, Plain;
    var h, t := s.live[conn].header, Next(s, Leave(conn));
    var c := Lookup(s.reg, h).value.conn;
    PlainEntry(s, h);
    AfterDelFrontend(s.reg, h.name, h.id, h);
    BelongsStays(s, conn, c, h);
    assert Belongs(t, c, h) && h.name in t.reg && Lookup(t.reg, h) == None;
    assert Clients(t) ==> Lookup(t.reg, h) == Some(NewClient(h.id, c));
  }

  /** A leave keeps the agreement exactly when no other connection is registered under its header. */
  lemma LeaveAgreesExactlyWhen(s: State, conn: Conn)
    requires Agrees(s) && conn in s.live
    ensures Agrees(Next(s, Leave(conn))) <==>
              var o := Lookup(s.reg, s.live[conn].header); o.None? || o.value.conn == conn
  {
    var h := s.live[conn].header;
    if h.role == Backend {
      BackendIsThere(s, conn);
    }
    hide Agrees, Next;
    match h.role
    case Backend => LeaveBackendKeeps(s, conn);
    case Unknown => LeaveUnknownKeeps(s, conn);
    case Frontend =>
      var o := Lookup(s.reg, h);
      if o.None? || o.value.conn == conn {
        LeaveFrontendKeeps(s, conn);
      } else {
        LeaveRobs(s, conn);
      }
  }

  // ---------- Runs ----------

  /** No two live connections share role, cluster and id. */
  ghost predicate Unique(s: State) {
    forall c, d :: c in s.live && d in s.live && c != d && s.live[c].header.role != Unknown ==>
      s.live[c].header != s.live[d].header
  }

  lemma UniqueStep(s: State, e: Event)
    requires Agrees(s) && Unique(s) && Unique(Next(s, e))
    ensures Agrees(Next(s, e))
  {
    match e
    case Join(conn, h) =>
      if conn !in s.live {
        JoinAgreesExactlyWhen(s, conn, h);
        if Lookup(s.reg, h).Some? {
          PlainEntry(s, h);
          NotUnique(s, conn, h, Lookup(s.reg, h).value.conn);
        }
      }
    case Leave(conn) =>
      if conn in s.live {
        LeaveAgreesExactlyWhen(s, conn);
        if Lookup(s.reg, s.live[conn].header).Some? {
          PlainEntry(s, s.live[conn].header);
        }
      }
    case Sends(_, _) =>
  }

  lemma NotUnique(s: State, conn: Conn, h: Header, c: Conn)
    requires conn !in s.live && Belongs(s, c, h) && h.role != Unknown
    ensures !Unique(Next(s, Join(conn, h)))
  {
    hide Register;
    var t := Next(s, Join(conn, h));
    assert t.live[c].header == h && t.live[conn].header == h && c != conn;
  }

  /**
    Registry agreement over every run in which live connections stay unique: each cluster's backends
    are exactly its live backend connections, no cluster without one is registered, and its
    frontends are exactly the live ones admitted since it last got its first backend.
   */
  lemma {:induction false} RegistryAgrees(es: seq<Event>)
    requires forall i :: 0 <= i <= |es| ==> Unique(Run(es[..i]))
    ensures Agrees(Run(es))
  {
    hide Next, Unique;
    if es == [] {
      EmptyAgrees();
    } else {
      var most := es[..|es| - 1];
      assert forall i :: 0 <= i <= |most| ==> most[..i] == es[..i];
      hide Agrees;
      RegistryAgrees(most);
      assert es[..|es|] == es && most[..|most|] == most;
      assert Unique(Run(es[..|most|])) && Unique(Run(es[..|es|]));
      UniqueStep(Run(most), es[|es| - 1]);
    }
  }

  lemma EmptyAgrees()
    ensures Agrees(Empty())
  {
  }

  lemma JoinAdmits(s: State, conn: Conn, h: Header)
    requires Agrees(s) && conn !in s.live
    ensures var t := Next(s, Join(conn, h));
            && (t.live[conn].admitted <==> h.role == Backend || (h.role == Frontend && h.name in s.reg))
            && (t.live[conn].admitted <==> Lookup(t.reg, h) == Some(NewClient(h.id, conn)))
  {
    hide Clients, Plain, Dated;
    AfterAddBackend(s.reg, h.name, h.id, conn, h);
    AfterAddFrontend(s.reg, h.name, h.id, conn, h);
    hide AddBackend, AddFrontend;
    if Lookup(s.reg, h).Some? {
      assert h.name in s.reg;
    }
  }

  /** In such a run a connection is let in exactly when it gets its place in the registry: a frontend not without a backend. */
  lemma AdmittedExactlyWhen(es: seq<Event>, i: nat)
    requires i < |es| && (forall k :: 0 <= k <= i ==> Unique(Run(es[..k])))
    requires es[i].Join? && es[i].conn !in Run(es[..i]).live
    ensures var s, t, h := Run(es[..i]), Run(es[..i + 1]), es[i].header;
            && es[i].conn in t.live
            && (t.live[es[i].conn].admitted <==> h.role == Backend || (h.role == Frontend && h.name in s.reg))
            && (t.live[es[i].conn].admitted <==> Lookup(t.reg, h) == Some(NewClient(h.id, es[i].conn)))
  {
    hide Unique, Agrees;
    var front := es[..i];
    assert forall k :: 0 <= k <= |front| ==> front[..k] == es[..k];
    RegistryAgrees(front);
    assert es[..i + 1][..i] == front && es[..i + 1][i] == es[i];
    JoinAdmits(Run(front), es[i].conn, es[i].header);
    hide Register;
  }

  /** Without uniqueness: after two backends have joined under one id, the first to leave takes the cluster with it. */
  lemma DuplicateIdsBreakIt()
    ensures exists es :: var s := Run(es);
              && 2 in s.live && s.live[2].header == Header(Backend, "c", "x") && s.live[2].admitted
              && GetBackend(s.reg, "c", "x") == None
  {
    var h := Header(Backend, "c", "x");
    var es := [Join(1, h), Join(2, h), Leave(1)];
    assert es[..2][..1] == [Join(1, h)] && es[..2][..1][..0] == [];
    var s1 := Next(Empty(), Join(1, h));
    assert Run(es[..2][..1]) == s1;
    var s2 := Next(s1, Join(2, h));
    assert Run(es[..2]) == s2;
    assert s2.reg["c"].backends - {"x"} == map[];
    assert Run(es) == Next(s2, Leave(1));
  }

  // ---------- Routing ----------

  datatype Routed = Forwarded(to: Conn, packet: Packet) | NoTarget

  /** The client a packet goes to: looked up by the id its sender claims, among the opposite role of its cluster. */
  function Target(r: Registry, h: Header, p: Packet): Option<Client> {
    match h.role
    case Backend => GetFrontend(r, h.name, p.fromClient)
    case Frontend => GetBackend(r, h.name, p.fromClient)
    case Unknown => None
  }

  /** One turn of HandleWs's loop; a missing key of Peers reads as the empty string. */
  function Route(r: Registry, h: Header, p: Packet): Routed {
    var t := Target(r, h, p);
    if t.None? then NoTarget
    else
      Forwarded(t.value.conn,
                p.(toClient := if p.fromPeer in t.value.peers then t.value.peers[p.fromPeer] else ""))
  }

  function Opposite(r: Role): Role {
    match r
    case Backend => Frontend
    case Frontend => Backend
    case Unknown => Unknown
  }

  lemma RouteIsolated(s: State, h: Header, p: Packet)
    requires Agrees(s)
    ensures var target := Header(Opposite(h.role), h.name, p.fromClient);
            match Route(s.reg, h, p)
            case Forwarded(c, q) => h.role != Unknown && Belongs(s, c, target) && q == p.(toClient := "")
            case NoTarget => h.role == Unknown || h.name !in s.reg || forall c :: !Belongs(s, c, target)
  {
    var g := Header(Opposite(h.role), h.name, p.fromClient);
    assert h.role != Unknown ==> Target(s.reg, h, p) == Lookup(s.reg, g);
    if h.role != Unknown && Lookup(s.reg, g).Some? {
      PlainEntry(s, g);
    }
    hide Clusters, Dated;
  }

  /** What becomes of the i-th event of a run when it is a packet of an admitted connection. */
  ghost function Outcome(es: seq<Event>, i: nat): Routed
    requires i < |es|
  {
    var s, e := Run(es[..i]), es[i];
    if e.Sends? && e.conn in s.live && s.live[e.conn].admitted then Route(s.reg, s.live[e.conn].header, e.packet)
    else NoTarget
  }

  /** The packet comes from a connection that was let in. */
  ghost predicate Sent(es: seq<Event>, i: nat)
    requires i < |es|
  {
    var s := Run(es[..i]);
    es[i].Sends? && es[i].conn in s.live && s.live[es[i].conn].admitted
  }

  /** The only client a packet can go to: the one with the id it claims to be from, of the opposite role, in its cluster. */
  ghost function TargetOf(es: seq<Event>, i: nat): Header
    requires i < |es| && Sent(es, i)
  {
    var h := Run(es[..i]).live[es[i].conn].header;
    Header(Opposite(h.role), h.name, es[i].packet.fromClient)
  }

  /** Whoever a packet is for, there is a live backend in its sender's cluster. */
  lemma TargetIsServed(s: State, h: Header, c: Conn, d: Conn, p: Packet)
    requires Agrees(s) && c in s.live && s.live[c].header == h && h.role != Unknown
    requires Belongs(s, d, Header(Opposite(h.role), h.name, p.fromClient))
    ensures h.name in s.reg
  {
    hide Clients, Plain, Dated;
    assert Served(s, h.name) by { assert c in s.live && d in s.live; }
  }

  /**
    Routing isolation, for every packet of every run in which live connections stay unique: it is
    forwarded exactly when a live client of the opposite role belongs to the sender's cluster under the
    id that the packet claims to be from, and then to that one alone; the address it arrives with is
    always empty, because no peer is ever recorded.
   */
  lemma RoutingIsolation(es: seq<Event>, i: nat)
    requires i < |es| && (forall k :: 0 <= k <= i ==> Unique(Run(es[..k]))) && Sent(es, i)
    ensures var s := Run(es[..i]);
            match Outcome(es, i)
            case Forwarded(c, q) => Belongs(s, c, TargetOf(es, i)) && q == es[i].packet.(toClient := "")
            case NoTarget => forall c :: !Belongs(s, c, TargetOf(es, i))
  {
    hide Next, Unique, Agrees, Route;
    var front, s := es[..i], Run(es[..i]);
    assert forall k :: 0 <= k <= |front| ==> front[..k] == es[..k];
    RegistryAgrees(front);
    var h := s.live[es[i].conn].header;
    assert h.role != Unknown by { AdmittedIsKnown(s, es[i].conn); }
    RouteIsolated(s, h, es[i].packet);
    if c :| Belongs(s, c, TargetOf(es, i)) {
      TargetIsServed(s, h, es[i].conn, c, es[i].packet);
    }
  }

  lemma AdmittedIsKnown(s: State, c: Conn)
    requires Agrees(s) && c in s.live && s.live[c].admitted
    ensures s.live[c].header.role != Unknown
  {
  }

  /**
    What looking up by sender means: a packet that carries its sender's own id reaches anyone exactly
    when a client of the opposite role in the same cluster has that very id.
   */
  lemma HonestPacketsArriveExactlyWhen(es: seq<Event>, i: nat)
    requires i < |es| && (forall k :: 0 <= k <= i ==> Unique(Run(es[..k]))) && Sent(es, i)
    requires es[i].packet.fromClient == Run(es[..i]).live[es[i].conn].header.id
    ensures var s := Run(es[..i]); var h := s.live[es[i].conn].header;
            Outcome(es, i) == NoTarget <==> forall c :: !Belongs(s, c, Header(Opposite(h.role), h.name, h.id))
  {
    hide Run, Unique, Route, Belongs;
    RoutingIsolation(es, i);
    var s, o := Run(es[..i]), Outcome(es, i);
    var h := s.live[es[i].conn].header;
    assert TargetOf(es, i) == Header(Opposite(h.role), h.name, es[i].packet.fromClient);
    assert o.Forwarded? ==> Belongs(s, o.to, TargetOf(es, i));
  }

  /** The failing input: backend "b" and frontend "f" share a cluster, and f's packet gets through only under the name "b". */
  lemma HonestPacketDropped(p: Packet)
    requires p.fromClient == "f" || p.fromClient == "b"
    ensures var es := [Join(1, Header(Backend, "c", "b")), Join(2, Header(Frontend, "c", "f")), Sends(2, p)];
            && Sent(es, 2)
            && Outcome(es, 2) == if p.fromClient == "f" then NoTarget else Forwarded(1, p.(toClient := ""))
  {
    var b, f := Header(Backend, "c", "b"), Header(Frontend, "c", "f");
    var es := [Join(1, b), Join(2, f), Sends(2, p)];
    assert es[..2][..1] == [Join(1, b)] && es[..2][..1][..0] == [];
    var s1 := Next(Empty(), Join(1, b));
    assert Run(es[..2][..1]) == s1;
    assert s1.live[1].header == b;
    assert Served(s1, "c");
    assert Run(es[..2]) == Next(s1, Join(2, f));
  }
}
