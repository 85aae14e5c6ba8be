/** net/conn/ws-sig.go's objects, each method proved against the function that models it. */
module SignalClient {
  import opened Options
  import Model = SignalModel

  class Session {
    const id: string
    ghost const place: nat          // how many sessions were made before this one
    var closed: bool
    var sdp: seq<Model.Sdp>
    var ice: seq<Model.Cand>
    ghost var given: Model.Streams
    ghost var taken: Model.Streams

    ghost function View(): Model.Session
      reads this
    {
      Model.Session(id, closed, Model.Streams(ice, sdp), given, taken)
    }

    constructor (id: string, ghost place: nat)
      ensures this.id == id && this.place == place && View() == Model.NewSession(id)
    {
      this.id := id;
      this.place := place;
      closed, sdp, ice := false, [], [];
      given, taken := Model.Streams([], []), Model.Streams([], []);
    }

    /** Marks the session closed and closes both queues; a second time panics. */
    method Close() returns (panics: bool)
      modifies this
      ensures panics == old(closed) && View() == old(View()).(closed := true)
    {
      panics := closed;
      closed := true;
    }

    /** Skips nil and a closed session; otherwise queues the candidate, or has to wait for room. */
    method OnIceCandidate(c: Option<Model.Cand>) returns (waits: bool)
      modifies this
      ensures waits <==> c.Some? && !closed && |old(ice)| >= 5
      ensures View() == if c.Some? && !old(closed) && !waits then Model.PutIce(old(View()), c.value) else old(View())
    {
      if c.None? || closed {
        return false;
      }
      if |ice| >= Model.ICE_CAP {
        return true;
      }
      ice := ice + [c.value];
      given := given.(ices := given.ices + [c.value]);
      return false;
    }

    method OnSdp(d: Option<Model.Sdp>) returns (waits: bool)
      modifies this
      ensures waits <==> d.Some? && !closed && |old(sdp)| >= 1
      ensures View() == if d.Some? && !old(closed) && !waits then Model.PutSdp(old(View()), d.value) else old(View())
    {
      if d.None? || closed {
        return false;
      }
      if |sdp| >= Model.SDP_CAP {
        return true;
      }
      sdp := sdp + [d.value];
      given := given.(sdps := given.sdps + [d.value]);
      return false;
    }
  }

  class WsSigClient {
    const notifies: bool
    var sessions: map<string, Session>
    var timers: multiset<string>
    var announced: seq<string>
    ghost var lives: seq<Session>   // every session made, in order
    ghost var view: Model.Client    // the modelled client, between two packets

    ghost predicate Valid()
      reads this, lives
    {
      Filed() && Shown() && view.timers == timers && view.announced == announced && view.notifies == notifies
    }

    ghost predicate Filed()
      reads this
    {
      && sessions.Keys == view.sessions.Keys
      && (forall id :: id in sessions ==> view.sessions[id] < |lives| && lives[view.sessions[id]] == sessions[id])
    }

    ghost predicate Shown()
      reads this, lives
    {
      && |view.lives| == |lives|
      && (forall i :: 0 <= i < |lives| ==> lives[i].place == i && lives[i].View() == view.lives[i])
    }

    constructor (notifies: bool)
      ensures Valid() && view == Model.NewClient(notifies)
    {
      this.notifies := notifies;
      sessions, timers, announced := map[], multiset{}, [];
      lives, view := [], Model.NewClient(notifies);
    }

    method GetSession(id: string) returns (sess: Session)
      requires Valid()
      modifies this
      ensures Valid() && id in sessions && sess == sessions[id]
      ensures view == Model.GetSession(old(view), id)
      ensures if id in old(sessions) then sess == old(sessions[id]) else fresh(sess)
    {
      hide Session.View;
      if id in sessions {
        return sessions[id];
      }
      if notifies {
        announced := announced + [id];
      }
      sess := new Session(id, |lives|);
      sessions := sessions[id := sess];
      lives := lives + [sess];
      view := Model.GetSession(view, id);
    }

    /** Closes the session and schedules its deletion; closing it again before that panics. */
    method CloseSession(id: string) returns (panics: bool)
      requires Valid()
      modifies this, if id in sessions then {sessions[id]} else {}
      ensures panics || Valid()
      ensures Model.DoClose(old(view), id).panicked == (panics || old(view).panicked)
      ensures !panics ==> view == Model.DoClose(old(view), id)
    {
      hide Model.Schedule;
      if id !in sessions {
        return false;
      }
      ghost var k := view.sessions[id];
      assert forall i :: 0 <= i < |lives| && i != k ==> lives[i] != sessions[id];
      panics := sessions[id].Close();
      if !panics {
        timers := Model.Schedule(timers, id);
        view := Model.DoClose(view, id);
      }
    }

    /** The deletion timer's function. */
    method Delete(id: string)
      requires Valid()
      modifies this
      ensures Valid() && view == Model.DoFire(old(view), id)
    {
      hide Session.View, Model.Unschedule;
      sessions := sessions - {id};
      timers := Model.Unschedule(timers, id);
      view := Model.DoFire(view, id);
      assert sessions.Keys == old(sessions.Keys) - {id} && view.sessions.Keys == old(view.sessions.Keys) - {id};
    }

    /** The candidate of the packet in hand goes to the session that was looked up for it. */
    method GiveIce(sess: Session, c: Model.Cand) returns (waits: bool)
      requires Valid() && view.loop.GivingIce? && view.loop.life < |lives|
      requires lives[view.loop.life] == sess && view.loop.ice == c && !view.loop.waits
      modifies this`view, sess
      ensures Valid() && view == Model.OnIce(old(view))
      ensures waits == (view.loop.GivingIce? && view.loop.waits)
    {
      ghost var k := view.loop.life;
      assert sess.View() == view.lives[k];
      assert forall i :: 0 <= i < |lives| && i != k ==> lives[i] != sess;
      waits := sess.OnIceCandidate(Some(c));
      view := Model.OnIce(view);
      assert sess.View() == view.lives[k];
    }

    method GiveSdp(sess: Session, d: Model.Sdp) returns (waits: bool)
      requires Valid() && view.loop.GivingSdp? && view.loop.life < |lives|
      requires lives[view.loop.life] == sess && view.loop.sdp == d && !view.loop.waits
      modifies this`view, sess
      ensures Valid() && view == Model.OnSdp(old(view))
      ensures waits == (view.loop.GivingSdp? && view.loop.waits)
    {
      ghost var k := view.loop.life;
      assert sess.View() == view.lives[k];
      assert forall i :: 0 <= i < |lives| && i != k ==> lives[i] != sess;
      waits := sess.OnSdp(Some(d));
      view := Model.OnSdp(view);
      assert sess.View() == view.lives[k];
    }

    /** Run looks up the session of a packet and finds it open: what is in hand, and for which session. */
    method Lookup(pid: string, ice: Option<Model.Cand>, sdp: Option<Model.Sdp>) returns (sess: Session)
      requires Valid() && view.loop.Reading? && pid != ""
      modifies this
      ensures Valid() && view == Model.Dispatch(old(view), pid, ice, sdp)
      ensures if pid in old(sessions) then sess == old(sessions[pid]) else fresh(sess)
      ensures pid in view.sessions && view.sessions[pid] < |lives| && lives[view.sessions[pid]] == sess
      ensures sess.closed == view.lives[view.sessions[pid]].closed
    {
      hide Model.GetSession, Model.Dispatch;
      Model.DispatchSetsLoop(view, pid, ice, sdp);
      sess := GetSession(pid);
      assert sess.View() == view.lives[view.sessions[pid]];
      SetLoop(Model.Dispatch(old(view), pid, ice, sdp).loop);
    }

    ghost method SetLoop(l: Model.Loop)
      requires Valid()
      modifies this`view
      ensures Valid() && view == old(view).(loop := l)
    {
      hide Session.View;
      view := view.(loop := l);
    }
  }
}
