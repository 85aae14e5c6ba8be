/**
  The one dispatch loop serves all peers: when a full queue of one of them holds up the packets of
  every other, and what ends it.
 */
module SignalDelays {
  import opened Options
  import opened SignalModel
  import opened SignalTheorems

  /** The loop has a candidate or a description in hand for the open session k, whose queue for it is full. */
  predicate Blocked(c: Client, k: nat) {
    && k < |c.lives| && !c.lives[k].closed
    && match c.loop
       case GivingIce(life, _, _, _) => life == k && |c.lives[k].queued.ices| >= ICE_CAP
       case GivingSdp(life, _, _) => life == k && |c.lives[k].queued.sdps| >= SDP_CAP
       case _ => false
  }

  /** That session's consumer takes one. */
  predicate Takes(c: Client, k: nat, e: Event) {
    if c.loop.GivingIce? then e == TakeIce(k) else e == TakeSdp(k)
  }

  predicate Closes(c: Client, k: nat, e: Event)
    requires k < |c.lives|
  {
    e == CloseSession(c.lives[k].id)
  }

  /** The loop is inside a send that blocked. */
  predicate InSend(l: Loop) {
    match l
    case GivingIce(_, _, _, waits) => waits
    case GivingSdp(_, _, waits) => waits
    case _ => false
  }

  /** No packet, for any id, is taken in. */
  predicate HeldUp(c: Client) {
    c.panicked || !c.loop.Reading?
  }

  /** Dispatch is over: the loop has panicked, or it will, inside a send to a session closed under it. */
  predicate Over(c: Client) {
    c.panicked || c.loop.Stopped? || (InSend(c.loop) && c.loop.life < |c.lives| && c.lives[c.loop.life].closed)
  }

  /** What every session has been given so far. */
  function Givens(lives: seq<Session>): seq<Streams> {
    seq(|lives|, i requires 0 <= i < |lives| => lives[i].given)
  }

  /** The rest of the packet in hand. */
  predicate SameHand(a: Loop, b: Loop) {
    match (a, b)
    case (GivingIce(k, ice, more, _), GivingIce(l, jce, nore, _)) => k == l && ice == jce && more == nore
    case (GivingSdp(k, sdp, _), GivingSdp(l, tdp, _)) => k == l && sdp == tdp
    case _ => false
  }

  /**
    Exactly what ends it: that session's consumer takes one, or that session is closed. But a close
    while the loop is inside the send ends dispatch itself; and nothing else does.
   */
  lemma BlockedEndsExactlyWhen(c: Client, e: Event, k: nat)
    requires Inv(c) && !c.panicked && Blocked(c, k)
    ensures var d := Next(c, e); d.panicked || (Blocked(d, k) <==> !Takes(c, k, e) && !Closes(c, k, e))
    ensures var d := Next(c, e); d.panicked || (Over(d) <==> Closes(c, k, e) && InSend(c.loop))
    ensures !Takes(c, k, e) && !Closes(c, k, e) ==>
              && SameHand(c.loop, Next(c, e).loop) && (InSend(c.loop) ==> InSend(Next(c, e).loop))
              && Next(c, e).lives[k].id == c.lives[k].id
  {
    hide Inv, GetSession, DoClose, OnIce, OnSdp, Received, Schedule, Unschedule, Dispatch;
    if Enabled(c, e) {
      match e
      case Packet(_, _, _) =>
      case GiveIce(_) => SendWaits(c, k);
      case GiveSdp(_) => SendWaits(c, k);
      case Ask(pid) => GetAdds(c, pid, k);
      case CloseSession(pid) => CloseOther(c, pid, k);
      case Fire(_) =>
      case TakeIce(j) => TakeMakesRoom(c, j, true);
      case TakeSdp(j) => TakeMakesRoom(c, j, false);
    }
  }

  lemma SendWaits(c: Client, k: nat)
    requires Blocked(c, k)
    ensures var d := if c.loop.GivingIce? then OnIce(c) else OnSdp(c);
            d == c.(loop := d.loop) && SameHand(c.loop, d.loop) && InSend(d.loop)
  {
  }

  lemma TakeMakesRoom(c: Client, j: nat, ice: bool)
    requires Inv(c) && j < |c.lives| && if ice then c.lives[j].queued.ices != [] else c.lives[j].queued.sdps != []
    ensures var s, t := c.lives[j], Received(c.lives[j], ice);
            && t.id == s.id && t.closed == s.closed
            && (if ice then |t.queued.ices| < ICE_CAP && t.queued.sdps == s.queued.sdps
                else |t.queued.sdps| < SDP_CAP && t.queued.ices == s.queued.ices)
  {
    hide Newest, Timed, AnnouncedOnce, LoopOk, Stored;
    assert Conserved(c.lives[j]);
  }

  lemma CloseOther(c: Client, id: string, k: nat)
    requires Inv(c) && k < |c.lives| && !c.lives[k].closed
    ensures var d := DoClose(c, id);
            && |d.lives| == |c.lives| && d.loop == c.loop
            && (if id == c.lives[k].id then d.lives[k].closed else d.lives[k] == c.lives[k])
  {
    hide Newest, Timed, AnnouncedOnce, LoopOk, Queues;
  }

  /** While the loop is held up by a full queue, or dispatch is over, no session is given anything. */
  lemma NothingGiven(c: Client, e: Event, k: nat)
    requires Inv(c) && !c.panicked && (Blocked(c, k) || Over(c))
    ensures Givens(c.lives) <= Givens(Next(c, e).lives)
  {
    hide Newest, Timed, AnnouncedOnce, LoopOk, Stored, Queues;
  }

  lemma OverStays(c: Client, e: Event)
    requires Inv(c) && Over(c)
    ensures Over(Next(c, e))
  {
    hide Newest, Timed, AnnouncedOnce, Stored, Queues, GetSession, Schedule, Unschedule;
    if e.Ask? && InSend(c.loop) { GetAdds(c, e.pid, c.loop.life); }
    if e.Ask? { GetAdds(c, e.pid, 0); }
  }

  /**
    Exactly how dispatch comes to an end, from any state: a session is closed twice before its deletion,
    or the session whose full queue the loop is waiting at is closed. Once there is room, closing it is safe.
   */
  lemma OverBeginsExactlyWhen(c: Client, e: Event)
    requires Inv(c) && !Over(c)
    ensures Over(Next(c, e)) <==>
              && e.CloseSession?
              && (e.pid in c.timers
                  || (InSend(c.loop) && c.loop.life < |c.lives| && Blocked(c, c.loop.life) && c.lives[c.loop.life].id == e.pid))
  {
    if e.CloseSession? {
      CloseBeginsExactlyWhen(c, e.pid);
    } else {
      NothingElseBegins(c, e);
    }
  }

  lemma CloseBeginsExactlyWhen(c: Client, id: string)
    requires Inv(c) && !Over(c)
    ensures Over(Next(c, CloseSession(id))) <==>
              || id in c.timers
              || (InSend(c.loop) && c.loop.life < |c.lives| && Blocked(c, c.loop.life) && c.lives[c.loop.life].id == id)
  {
    hide Newest, AnnouncedOnce, Schedule, Queues;
    assert id in c.timers <==> c.timers[id] > 0;
    if InSend(c.loop) {
      CloseOther(c, id, c.loop.life);
    }
  }

  lemma NothingElseBegins(c: Client, e: Event)
    requires Inv(c) && !Over(c) && !e.CloseSession?
    ensures !Over(Next(c, e))
  {
    hide Newest, Timed, AnnouncedOnce, Stored, Queues, Schedule, Unschedule;
  }

  /** Once dispatch is over, whatever happens, no packet for any id is ever taken in, and no session given anything. */
  lemma {:induction false} OverForEveryone(c: Client, es: seq<Event>, p: string)
    requires Inv(c) && Over(c)
    ensures Over(RunFrom(c, es)) && HeldUp(RunFrom(c, es))
    ensures Arrivals(c, es, p) == [] && Givens(c.lives) <= Givens(RunFrom(c, es).lives)
    decreases |es|
  {
    hide Inv, Next, Givens;
    if es != [] {
      var e, d := es[0], Next(c, es[0]);
      NextKeeps(c, e);
      OverStays(c, e);
      if c.panicked {
        Disabled(c, e);
      } else {
        NothingGiven(c, e, 0);
      }
      OverForEveryone(d, es[1..], p);
    }
  }

  /**
    A full queue holds up every id: as long as its consumer takes nothing, and its session is not closed
    before the loop is inside the send, whatever else happens, no packet for any id is taken in and no
    session is given anything. Closing the session later does not help.
   */
  lemma {:induction false} FullQueueHoldsUpEveryone(c: Client, es: seq<Event>, k: nat, p: string)
    requires Inv(c) && !c.panicked && Blocked(c, k)
    requires forall i :: 0 <= i < |es| ==> !Takes(c, k, es[i]) && (InSend(c.loop) || !Closes(c, k, es[i]))
    ensures HeldUp(RunFrom(c, es)) && Arrivals(c, es, p) == [] && Givens(c.lives) <= Givens(RunFrom(c, es).lives)
    decreases |es|
  {
    hide Inv, Next, Givens;
    if es != [] {
      var e, rest, d := es[0], es[1..], Next(c, es[0]);
      NextKeeps(c, e);
      BlockedEndsExactlyWhen(c, e, k);
      NothingGiven(c, e, k);
      if Over(d) {
        OverForEveryone(d, rest, p);
      } else {
        FullQueueHoldsUpEveryone(d, rest, k, p);
      }
    }
  }

  /**
    The loop stops exactly when it goes on with a send that was blocked on a session closed since; from
    then on, whatever happens, no packet for any id is taken in.
   */
  lemma LoopStopsExactlyWhen(c: Client, e: Event)
    requires Inv(c) && !c.loop.Stopped?
    ensures Next(c, e).loop.Stopped? <==>
              Enabled(c, e) && (e.GiveIce? || e.GiveSdp?) && InSend(c.loop) && c.lives[c.loop.life].closed
    ensures Next(c, e).loop.Stopped? ==> forall es: seq<Event>, p: string :: Arrivals(Next(c, e), es, p) == []
  {
    StopsStep(c, e);
    NextKeeps(c, e);
    hide Inv, Next;
    if Next(c, e).loop.Stopped? {
      forall es: seq<Event>, p: string ensures Arrivals(Next(c, e), es, p) == [] {
        OverForEveryone(Next(c, e), es, p);
      }
    }
  }

  lemma StopsStep(c: Client, e: Event)
    requires Inv(c) && !c.loop.Stopped?
    ensures Next(c, e).loop.Stopped? <==>
              Enabled(c, e) && (e.GiveIce? || e.GiveSdp?) && InSend(c.loop) && c.lives[c.loop.life].closed
  {
    hide Stored, Newest, Timed, AnnouncedOnce, Queues, GetSession;
    if e.Packet? { GetKeeps(c, e.pid); }
    if e.Ask? { GetKeeps(c, e.pid); }
  }

  // ---------- And what lets it go on ----------

  lemma {:induction false} RunFromAppend(c: Client, a: seq<Event>, b: seq<Event>)
    ensures RunFrom(c, a + b) == RunFrom(RunFrom(c, a), b)
    decreases |a|
  {
    hide Next;
    if a == [] {
      assert a + b == b;
    } else {
      assert (a + b)[1..] == a[1..] + b;
      RunFromAppend(Next(c, a[0]), a[1..], b);
    }
  }

  lemma RunFromTwo(c: Client, a: Event, b: Event)
    ensures RunFrom(c, [a, b]) == Next(Next(c, a), b)
  {
    hide Next;
    assert [a, b][1..] == [b] && [b][1..] == [];
    assert RunFrom(Next(c, a), [b]) == RunFrom(Next(Next(c, a), b), []);
  }

  /** A session's consumer, and the loop's sends to that session. */
  predicate Serves(e: Event, k: nat, id: string) {
    e == TakeIce(k) || e == TakeSdp(k) || e == GiveIce(id) || e == GiveSdp(id)
  }

  /** A description in hand goes out, after one is taken if need be, or is skipped for a closed session. */
  lemma SdpGoesOut(c: Client) returns (es: seq<Event>)
    requires Inv(c) && !Over(c) && c.loop.GivingSdp?
    ensures c.loop.life < |c.lives|
    ensures forall i :: 0 <= i < |es| ==> Serves(es[i], c.loop.life, c.lives[c.loop.life].id)
    ensures !HeldUp(RunFrom(c, es))
  {
    hide Newest, Timed, AnnouncedOnce, Stored;
    var k := c.loop.life;
    assert Conserved(c.lives[k]);
    es := [TakeSdp(k), GiveSdp(c.lives[k].id)];
    RunFromTwo(c, es[0], es[1]);
  }

  lemma IceGoesOut(c: Client)
    requires Inv(c) && !Over(c) && c.loop.GivingIce?
    ensures c.loop.life < |c.lives|
    ensures var k := c.loop.life; var d := RunFrom(c, [TakeIce(k), GiveIce(c.lives[k].id)]);
            && !Over(d) && k < |d.lives| && d.lives[k].id == c.lives[k].id
            && (d.loop.Reading? || (d.loop.GivingSdp? && d.loop.life == k))
  {
    hide Newest, Timed, AnnouncedOnce, Stored;
    var k := c.loop.life;
    assert Conserved(c.lives[k]);
    RunFromTwo(c, TakeIce(k), GiveIce(c.lives[k].id));
  }

  /** The consumer of the session in hand is enough: it can bring the loop back to reading packets for everyone. */
  lemma ConsumerLetsGo(c: Client) returns (es: seq<Event>)
    requires Inv(c) && !Over(c)
    ensures c.loop.Reading? || c.loop.life < |c.lives|
    ensures forall i :: 0 <= i < |es| ==> !c.loop.Reading? && Serves(es[i], c.loop.life, c.lives[c.loop.life].id)
    ensures !HeldUp(RunFrom(c, es))
  {
    hide Inv, Next;
    if c.loop.Reading? {
      es := [];
    } else if c.loop.GivingSdp? {
      es := SdpGoesOut(c);
    } else {
      IceGoesOut(c);
      var first := [TakeIce(c.loop.life), GiveIce(c.lives[c.loop.life].id)];
      var d := RunFrom(c, first);
      RunFromTwo(c, first[0], first[1]);
      NextKeeps(c, first[0]);
      NextKeeps(Next(c, first[0]), first[1]);
      if d.loop.Reading? {
        es := first;
      } else {
        var rest := SdpGoesOut(d);
        es := first + rest;
        RunFromAppend(c, first, rest);
      }
    }
  }

  /**
    After every run, dispatch can still go on, for everyone, exactly when no session was closed twice,
    the loop has not stopped, and it is not inside a send to a session that was closed meanwhile.
   */
  lemma DispatchGoesOnExactlyWhen(notifies: bool, before: seq<Event>)
    ensures var c := Run(notifies, before);
            (exists es: seq<Event> :: !HeldUp(RunFrom(c, es))) <==> !Over(c)
  {
    hide Inv, Run, Next, HeldUp, Over;
    var c := Run(notifies, before);
    RunKeeps(notifies, before);
    if Over(c) {
      forall es: seq<Event> ensures HeldUp(RunFrom(c, es)) {
        OverForEveryone(c, es, "");
      }
    } else {
      var es := ConsumerLetsGo(c);
    }
  }

  // ---------- Runs that show it ----------

  lemma RunTo(notifies: bool, es: seq<Event>, e: Event)
    ensures Run(notifies, es + [e]) == Next(Run(notifies, es), e)
  {
    hide Next;
    assert (es + [e])[..|es|] == es;
  }

  /** A session closed twice before its deletion: the second close panics. */
  lemma DoubleClosePanics()
    ensures !Run(false, [] + [Ask("a")] + [CloseSession("a")]).panicked
    ensures Run(false, [] + [Ask("a")] + [CloseSession("a")] + [CloseSession("a")]).panicked
  {
    hide Schedule;
    RunTo(false, [], Ask("a"));
    RunTo(false, [] + [Ask("a")], CloseSession("a"));
    RunTo(false, [] + [Ask("a")] + [CloseSession("a")], CloseSession("a"));
    assert Run(false, []) == NewClient(false);
    hide Run;
  }

  /** Two descriptions for "b" that nobody takes: a packet for "a" has to wait. */
  lemma OtherQueueHoldsUp()
    ensures var first := [] + [Packet("b", None, Some("x"))] + [GiveSdp("b")];
            var c := Run(false, first + [Packet("b", None, Some("y"))] + [GiveSdp("b")]);
            !c.panicked && Blocked(c, 0) && InSend(c.loop) && c.lives[0].id == "b" && !Enabled(c, Packet("a", None, Some("z")))
  {
    var first := [] + [Packet("b", None, Some("x"))] + [GiveSdp("b")];
    RunTo(false, [], Packet("b", None, Some("x")));
    RunTo(false, [] + [Packet("b", None, Some("x"))], GiveSdp("b"));
    assert Run(false, []) == NewClient(false);
    RunTo(false, first, Packet("b", None, Some("y")));
    RunTo(false, first + [Packet("b", None, Some("y"))], GiveSdp("b"));
    hide Run, Next;
    FirstIsQueued(NewClient(false));
    SecondWaits(Run(false, first));
  }

  /** And when "b" is then closed, no packet is ever taken in again, for "a" or anyone. */
  lemma CloseWhileWaitingEndsDispatch(after: seq<Event>, p: string)
    ensures var first := [] + [Packet("b", None, Some("x"))] + [GiveSdp("b")];
            var c := Run(false, first + [Packet("b", None, Some("y"))] + [GiveSdp("b")] + [CloseSession("b")]);
            !c.panicked && Arrivals(c, after, p) == [] && HeldUp(RunFrom(c, after))
  {
    hide Run, Next, Inv;
    var es := [] + [Packet("b", None, Some("x"))] + [GiveSdp("b")] + [Packet("b", None, Some("y"))] + [GiveSdp("b")];
    var c := Run(false, es);
    OtherQueueHoldsUp();
    RunKeeps(false, es);
    RunTo(false, es, CloseSession("b"));
    BlockedEndsExactlyWhen(c, CloseSession("b"), 0);
    ClosesOnce(c, 0);
    NextKeeps(c, CloseSession("b"));
    OverForEveryone(Next(c, CloseSession("b")), after, p);
  }

  lemma ClosesOnce(c: Client, k: nat)
    requires Inv(c) && !c.panicked && k < |c.lives| && !c.lives[k].closed
    ensures !Next(c, CloseSession(c.lives[k].id)).panicked
  {
    hide Newest, Timed, AnnouncedOnce, LoopOk, Queues;
  }

  lemma FirstIsQueued(c: Client)
    requires c == NewClient(false)
    ensures var d := Next(Next(c, Packet("b", None, Some("x"))), GiveSdp("b"));
            !d.panicked && d.loop == Reading && d.sessions == map["b" := 0] && d.lives == [PutSdp(NewSession("b"), "x")]
  {
    var d := Next(c, Packet("b", None, Some("x")));
    assert d.lives == [NewSession("b")] && d.loop == GivingSdp(0, "x", false);
  }

  lemma SecondWaits(c: Client)
    requires !c.panicked && c.loop == Reading && c.sessions == map["b" := 0] && c.lives == [PutSdp(NewSession("b"), "x")]
    ensures var d := Next(Next(c, Packet("b", None, Some("y"))), GiveSdp("b"));
            !d.panicked && Blocked(d, 0) && InSend(d.loop) && d.lives[0].id == "b" && !Enabled(d, Packet("a", None, Some("z")))
  {
    var d := Next(c, Packet("b", None, Some("y")));
    assert d == c.(loop := GivingSdp(0, "y", false));
  }
}
