/** The main results about one channel, for every sequence of events. */
module ChannelTheorems {
  import opened Streams
  import opened ChannelModel
  import opened ChannelProofs

  /** Bytes that one event hands to a reader. */
  function ReadBy(c: Chan, e: Event): seq<byte> {
    if Out(c, e).Data? then Out(c, e).bytes else []
  }

  /** Payload that one event brings in. */
  function Brought(c: Chan, e: Event): seq<byte> {
    if e.Message? && Enabled(c, e) then e.data else []
  }

  /** Bytes handed out over a run, in order. */
  function Reads(s: Sys, es: seq<Event>): seq<byte>
    decreases |es|
  {
    if es == [] then []
    else Reads(s, es[..|es| - 1]) + ReadBy(Run(s, es[..|es| - 1]).ch, es[|es| - 1])
  }

  /** Payload brought in over a run, in order. */
  function Payload(s: Sys, es: seq<Event>): seq<byte>
    decreases |es|
  {
    if es == [] then []
    else Payload(s, es[..|es| - 1]) + Brought(Run(s, es[..|es| - 1]).ch, es[|es| - 1])
  }

  ghost predicate Reachable(s: Sys) {
    exists announces: bool, es: seq<Event> :: s == Run(Start(announces), es)
  }

  lemma ReachableInv(s: Sys)
    requires Reachable(s)
    ensures Inv(s)
  {
    var announces: bool, es: seq<Event> :| s == Run(Start(announces), es);
    StartInv(announces);
    RunKeeps(Start(announces), es);
  }

  // ---------- Lease isolation ----------

  function LastLease(s: Sys): Lease {
    if s.log.leases == [] then Lease([], [], false, 0) else s.log.leases[|s.log.leases| - 1]
  }

  lemma ReadersGrow(s: Sys, e: Event)
    ensures s.ch.readers <= Next(s, e).ch.readers <= s.ch.readers + 1
  {
    hide Observe, Fetch;
  }

  /** Inside a lease the observer's record moves exactly with the events. */
  lemma LeaseStepRead(s: Sys, e: Event)
    requires Inv(s) && s.ch.readers > 0 && Next(s, e).ch.readers == s.ch.readers
    ensures LastLease(Next(s, e)).read == LastLease(s).read + ReadBy(s.ch, e)
  {
    hide Shape, Books, Announced, AllAccepted, Fetch, WakePast, GoodReader, Stored;
  }

  lemma LeaseStepAccept(s: Sys, e: Event)
    requires Inv(s) && s.ch.readers > 0 && Next(s, e).ch.readers == s.ch.readers
    ensures LastLease(Next(s, e)).accepted + Unassigned(Next(s, e).ch.handler)
         == LastLease(s).accepted + Unassigned(s.ch.handler) + Brought(s.ch, e)
  {
    hide Books, Announced, Fetch, AllAccepted, GoodReader, Past, WakePast;
    if Enabled(s.ch, e) && (e.Message? || e.Announce?) {
      assert Unassigned(Next(s, e).ch.handler) == [];
    } else {
      assert Unassigned(Next(s, e).ch.handler) == Unassigned(s.ch.handler);
      assert LastLease(Next(s, e)).accepted == LastLease(s).accepted;
    }
  }

  lemma {:induction false} LeaseRun(s: Sys, es: seq<Event>)
    requires Inv(s) && s.ch.readers > 0 && Run(s, es).ch.readers == s.ch.readers
    ensures Inv(Run(s, es))
    ensures LastLease(Run(s, es)).read == LastLease(s).read + Reads(s, es)
    ensures LastLease(Run(s, es)).accepted + Unassigned(Run(s, es).ch.handler)
         == LastLease(s).accepted + Unassigned(s.ch.handler) + Payload(s, es)
    decreases |es|
  {
    hide Next, Inv, Unassigned, LastLease, ReadBy, Brought;
    if es != [] {
      var es', e := es[..|es| - 1], es[|es| - 1];
      RunReaders(s, es');
      ReadersGrow(Run(s, es'), e);
      LeaseRun(s, es');
      NextKeeps(Run(s, es'), e);
      LeaseStepRead(Run(s, es'), e);
      LeaseStepAccept(Run(s, es'), e);
    }
  }

  lemma {:induction false} RunReaders(s: Sys, es: seq<Event>)
    ensures s.ch.readers <= Run(s, es).ch.readers
    decreases |es|
  {
    if es != [] {
      RunReaders(s, es[..|es| - 1]);
      ReadersGrow(Run(s, es[..|es| - 1]), es[|es| - 1]);
    }
  }

  /**
    Lease isolation, in terms of events alone: take a channel with event e in any reachable state
    and run on without another take. What is read is a prefix of what came in with e and after it,
    behind a message that was already waiting; nothing of an earlier lease appears.
   */
  lemma LeaseIsolation(s: Sys, e: Event, es: seq<Event>)
    requires Reachable(s) && Next(s, e).ch.readers == s.ch.readers + 1
    requires Run(Next(s, e), es).ch.readers == s.ch.readers + 1
    ensures Reads(Next(s, e), es) <= Unassigned(s.ch.handler) + Brought(s.ch, e) + Payload(Next(s, e), es)
  {
    ReachableInv(s);
    NextKeeps(s, e);
    TakeOpens(s, e);
    SegmentPrefix(Next(s, e), es, Unassigned(s.ch.handler) + Brought(s.ch, e));
  }

  lemma SegmentPrefix(t: Sys, es: seq<Event>, waiting: seq<byte>)
    requires Inv(t) && t.ch.readers > 0 && Run(t, es).ch.readers == t.ch.readers
    requires LastLease(t).read == [] && LastLease(t).accepted + Unassigned(t.ch.handler) == waiting
    ensures Reads(t, es) <= waiting + Payload(t, es)
  {
    hide Next, Run, Reads, Payload, Shape, Announced, Held, Unassigned;
    LeaseRun(t, es);
    var u := Run(t, es);
    assert LastLease(u).accepted + Unassigned(u.ch.handler)
        == Reads(t, es) + (Held(u.ch) + Unassigned(u.ch.handler));
  }

  lemma TakeOpens(s: Sys, e: Event)
    requires Inv(s) && Next(s, e).ch.readers == s.ch.readers + 1
    ensures LastLease(Next(s, e)).read == []
    ensures LastLease(Next(s, e)).accepted + Unassigned(Next(s, e).ch.handler)
         == Unassigned(s.ch.handler) + Brought(s.ch, e)
  {
    hide Shape, Books, Announced, AllAccepted, Fetch, Past, WakePast;
  }

  /**
    A Read that still waits when its lease is over and the channel is taken again: whenever it goes
    on, it ends, at EOF exactly when its own queue is empty, and what it returns are the next bytes of its
    own lease and nobody else's.
   */
  lemma PastReadsItsLease(s: Sys, k: nat)
    requires Reachable(s) && Enabled(s.ch, ResumePast(k))
    ensures var o, t := WakePast(s.ch, k).1, Next(s, ResumePast(k));
            && (if s.ch.past[k].queue == [] then o == Eof
                else o.Data? && |o.bytes| == Min(s.ch.past[k].waiting.value, |s.ch.past[k].queue[0]|))
            && k + 1 < |s.log.leases| == |t.log.leases|
            && t.log.leases[k].read == s.log.leases[k].read + (if o.Data? then o.bytes else []) <= s.log.leases[k].accepted
            && (forall j :: 0 <= j < |s.log.leases| && j != k ==> t.log.leases[j] == s.log.leases[j])
            && t.ch == s.ch.(past := t.ch.past)
  {
    hide WakePast, Core, Past, Reachable, Stored;
    ReachableInv(s);
    WakePastTakesFront(s.ch, s.log.leases, k);
    PastCounts(s, k);
    PastNext(s.log.leases[k], s.ch.past[k], WakePast(s.ch, k).0, WakePast(s.ch, k).1);
  }

  lemma PastCounts(s: Sys, k: nat)
    requires Past(s.ch, s.log.leases) && k < |s.ch.past|
    ensures |s.log.leases| == s.ch.readers > k + 1
    ensures s.log.leases[k].read + Stored(s.ch.past[k]) <= s.log.leases[k].accepted
  {
  }

  lemma PastNext(l: Lease, r: Reader, q: Reader, o: Output)
    requires l.read + Stored(r) <= l.accepted && (o.Data? ==> Stored(r) == o.bytes + Stored(q))
    ensures l.read + (if o.Data? then o.bytes else []) <= l.accepted
  {
    hide Stored;
    assert o.Data? ==> (l.read + o.bytes) + Stored(q) == l.read + Stored(r);
  }

  // ---------- Before the data channel is up ----------

  ghost predicate Unheard(s: Sys) {
    && !s.ch.up && s.ch.handler.Ready? && s.log.delivered == []
    && forall k :: 0 <= k < |s.log.leases| ==> var l := s.log.leases[k]; l.accepted == [] && !l.byMessage && l.announced == 0
  }

  lemma UnheardNext(s: Sys, e: Event)
    requires Unheard(s) && !e.Open?
    ensures Unheard(Next(s, e))
  {
    hide Fetch, WakePast;
  }

  lemma {:induction false} UnheardRun(announces: bool, es: seq<Event>)
    requires Open !in es
    ensures Unheard(Run(Start(announces), es))
  {
    hide Next, Unheard;
    if es != [] {
      UnheardRun(announces, es[..|es| - 1]);
      UnheardNext(Run(Start(announces), es[..|es| - 1]), es[|es| - 1]);
    } else {
      UnheardStart(announces);
    }
  }

  lemma UnheardStart(announces: bool)
    ensures Unheard(Start(announces))
  {
  }

  /** Until the data channel is up, whatever else happens, nothing is delivered, read or announced. */
  lemma NothingBeforeOpen(announces: bool, es: seq<Event>)
    requires Open !in es
    ensures var s := Run(Start(announces), es);
            && s.ch.handler.Ready? && s.log.delivered == []
            && forall k :: 0 <= k < |s.log.leases| ==> s.log.leases[k] == Lease([], [], false, 0)
  {
    hide Run, Inv;
    UnheardRun(announces, es);
    StartInv(announces);
    RunKeeps(Start(announces), es);
    var s := Run(Start(announces), es);
    forall k | 0 <= k < |s.log.leases| ensures s.log.leases[k] == Lease([], [], false, 0) {
      ReadIsAccepted(s, k);
    }
  }

  lemma ReadIsAccepted(s: Sys, k: nat)
    requires Inv(s) && k < |s.log.leases|
    ensures s.log.leases[k].read <= s.log.leases[k].accepted
  {
    hide Shape, Announced, Past, AllAccepted, Held;
  }

  // ---------- The end of a lease ----------

  lemma {:induction false} NothingFlat(queue: seq<seq<byte>>)
    requires GoodBatches(queue)
    ensures Flatten(queue) == [] <==> queue == []
  {
    if queue != [] {
      assert Flatten(queue) == queue[0] + Flatten(queue[1..]);
      assert |queue[0]| > 0;
    }
  }

  /**
    A Read that reports the end, at once or after a wait, has delivered the whole lease exactly when
    nothing is queued or being queued. Unless the channel is closing, only a message in progress can
    make the difference.
   */
  lemma EofIsComplete(s: Sys, e: Event)
    requires Reachable(s) && s.ch.readers > 0 && Out(s.ch, e) == Eof
    ensures LastLease(s).read == LastLease(s).accepted <==> s.ch.rd.queue == [] && Tail(s.ch) == []
    ensures (!s.ch.closing || e.Resume?) && Tail(s.ch) == [] ==> LastLease(s).read == LastLease(s).accepted
  {
    ReachableInv(s);
    if e.Read? {
      ReadTakesFront(s.ch, e.n);
    } else {
      WakeTakesFront(s.ch.rd, s.ch.rd.waiting.value);
    }
    NothingFlat(s.ch.rd.queue);
    assert LastLease(s).accepted == LastLease(s).read + Held(s.ch);
    assert |LastLease(s).accepted| == |LastLease(s).read| + |Held(s.ch)|;
  }

  /** A one-byte message arriving on a channel that has been dialled. */
  lemma OneByteArrives() returns (s: Sys)
    ensures Reachable(s)
    ensures s.ch == Chan(false, true, false, Active, 1, NewReader(), [], Pushing([7], 0), false)
    ensures s.log.leases == [Lease([7], [], false, 0)]
  {
    StartReachable(false);
    var t := Then(Then(Start(false), Open), Take);
    assert OpenLease([], false) == [Lease([], [], false, 0)];
    assert t.ch == Chan(false, true, false, Active, 1, NewReader(), [], Ready, false);
    s := Then(t, Message([7]));
    var data: seq<byte> := [7];
    assert [] + data == data;
  }

  /** Once the data channel is closing, a lease can end with queued bytes that no later Read will return. */
  lemma CloseLosesQueuedBytes() returns (s: Sys)
    ensures Reachable(s) && !s.ch.panicked
    ensures Out(s.ch, Read(1)) == Eof && LastLease(s).accepted == [7] && LastLease(s).read == []
  {
    var t := OneByteArrives();
    s := Then(Then(t, Push), RemoteClose);
  }

  lemma StartReachable(announces: bool)
    ensures Reachable(Start(announces))
  {
    assert Run(Start(announces), []) == Start(announces);
  }

  lemma ReachableNext(s: Sys, e: Event)
    requires Reachable(s)
    ensures Reachable(Next(s, e))
  {
    var announces: bool, es: seq<Event> :| s == Run(Start(announces), es);
    assert (es + [e])[..|es|] == es;
    assert Run(Start(announces), es + [e]) == Next(s, e);
  }

  /** The next state of a reachable state. */
  ghost function Then(s: Sys, e: Event): (t: Sys)
    requires Reachable(s)
    ensures t == Next(s, e) && Reachable(t)
  {
    ReachableNext(s, e);
    Next(s, e)
  }

  // ---------- Announcement ----------

  /**
    A lease that a message took on an answering channel is pushed to the accept queue at most once,
    and exactly once before any payload reaches it; no other lease is ever pushed.
   */
  lemma AnnouncedOnce(s: Sys, k: nat)
    requires Reachable(s) && k < |s.log.leases|
    ensures var l := s.log.leases[k];
            && l.announced <= 1
            && (l.announced == 1 ==> s.ch.announces && l.byMessage)
            && (s.ch.announces && l.byMessage && !s.ch.handler.Announcing? ==> l.announced == 1)
            && (s.ch.announces && l.byMessage && l.accepted != [] ==> l.announced == 1)
  {
    ReachableInv(s);
  }

  // ---------- Panics ----------

  /** The callback is inside OnData of a reader that is no longer open. */
  predicate Doomed(c: Chan) {
    c.handler.Pushing? && (c.handler.reader + 1 != c.readers || c.rd.closed)
  }

  /**
    Exactly when a step panics in a reachable state: a batch goes to a closed queue, a channel is
    read that was never taken, or payload reaches a channel that was closed before it was ever taken.
    No read overruns a slice, no queue is closed twice.
   */
  lemma PanicsExactlyWhen(s: Sys, e: Event)
    requires Reachable(s) && !s.ch.panicked
    ensures Step(s.ch, e).panicked <==>
      match e
      case Push => Doomed(s.ch)
      case Read(_) => s.ch.readers == 0
      case Message(data) => s.ch.handler.Ready? && s.ch.up && s.ch.status == Closed && s.ch.readers == 0 && data != []
      case _ => false
  {
    hide Books, Announced, AllAccepted, BufRead, GoodReader, Past, WakePast;
    ReachableInv(s);
    if Enabled(s.ch, e) && IsFetch(e) && s.ch.readers > 0 {
      FetchTakesFront(s.ch, e);
    }
    if Enabled(s.ch, e) && e.ResumePast? {
      WakePastTakesFront(s.ch, s.log.leases, e.k);
    }
  }

  /**
    Exactly when a callback becomes doomed: its own lease is released while it pushes, or it starts
    pushing into a reader that is already closed.
   */
  lemma DoomedExactlyWhen(s: Sys, e: Event)
    requires Reachable(s) && !s.ch.panicked && !Doomed(s.ch)
    ensures Doomed(Step(s.ch, e)) <==>
      match e
      case Release => s.ch.status == Active && s.ch.handler.Pushing?
      case Message(data) => Enabled(s.ch, e) && s.ch.status == Closed && s.ch.rd.closed && data != []
      case Announce => s.ch.handler.Announcing? && s.ch.handler.msg != [] && s.ch.rd.closed
      case _ => false
  {
    hide Books, Announced, AllAccepted, Fetch, GoodReader, Past, WakePast;
    ReachableInv(s);
    if Enabled(s.ch, e) && IsFetch(e) && s.ch.readers > 0 {
      FetchTakesFront(s.ch, e);
    }
    if Enabled(s.ch, e) && e.ResumePast? {
      WakePastTakesFront(s.ch, s.log.leases, e.k);
    }
  }

  /** Nothing but the panic itself ends the doom. */
  lemma DoomStays(s: Sys, e: Event)
    requires Reachable(s) && Doomed(s.ch)
    ensures Doomed(Step(s.ch, e)) && (!s.ch.panicked && e.Push? ==> Step(s.ch, e).panicked)
  {
    hide Books, Announced, AllAccepted, Fetch, GoodReader, Past, WakePast;
    ReachableInv(s);
    if Enabled(s.ch, e) && IsFetch(e) && s.ch.readers > 0 {
      FetchTakesFront(s.ch, e);
    }
    if Enabled(s.ch, e) && e.ResumePast? {
      WakePastTakesFront(s.ch, s.log.leases, e.k);
    }
  }

  /**
    The discipline under which a channel never panics: nobody calls Close, no active lease is
    released while the callback runs, and only a channel that has been taken is read.
   */
  predicate Careful(c: Chan, e: Event) {
    && !e.Close?
    && (e.Release? ==> c.status != Active || c.handler.Ready?)
    && (e.Read? ==> c.readers > 0)
  }

  predicate CarefulRun(s: Sys, es: seq<Event>)
    decreases |es|
  {
    es == [] || (CarefulRun(s, es[..|es| - 1]) && Careful(Run(s, es[..|es| - 1]).ch, es[|es| - 1]))
  }

  /** While the callback runs its lease is active. */
  ghost predicate Sound(c: Chan) {
    && !c.panicked && c.status != Closed
    && (!c.handler.Ready? ==> c.status == Active)
    && (c.handler.Pushing? ==> c.handler.reader + 1 == c.readers)
  }

  lemma CarefulStep(s: Sys, e: Event)
    requires Reachable(s) && Sound(s.ch) && Careful(s.ch, e)
    ensures Sound(Step(s.ch, e))
  {
    hide Books, Announced, AllAccepted, Fetch, GoodReader, Past, WakePast;
    ReachableInv(s);
    if Enabled(s.ch, e) && IsFetch(e) && s.ch.readers > 0 {
      FetchTakesFront(s.ch, e);
    }
    if Enabled(s.ch, e) && e.ResumePast? {
      WakePastTakesFront(s.ch, s.log.leases, e.k);
    }
  }

  /** Panic freedom: a careful run never panics, and never sends to a closed queue. */
  lemma {:induction false} CarefulRunsNeverPanic(announces: bool, es: seq<Event>)
    requires CarefulRun(Start(announces), es)
    ensures Reachable(Run(Start(announces), es))
    ensures Sound(Run(Start(announces), es).ch) && !Doomed(Run(Start(announces), es).ch)
    decreases |es|
  {
    var s := Run(Start(announces), es);
    if es != [] {
      CarefulRunsNeverPanic(announces, es[..|es| - 1]);
      CarefulStep(Run(Start(announces), es[..|es| - 1]), es[|es| - 1]);
    }
    assert Reachable(s);
    ReachableInv(s);
  }

  /** Without the discipline: closing a connection while a long message arrives panics the callback. */
  lemma ReleaseDuringMessagePanics() returns (s: Sys)
    ensures Reachable(s) && s.ch.panicked && s.ch.status == Idle
  {
    var t := OneByteArrives();
    s := Then(Then(t, Release), Push);
  }

  // ---------- Progress ----------

  lemma {:induction false} RunAppend(s: Sys, a: seq<Event>, b: seq<Event>)
    ensures Run(s, a + b) == Run(Run(s, a), b)
    decreases |b|
  {
    if b == [] {
      assert a + b == a;
    } else {
      assert (a + b)[..|a + b| - 1] == a + b[..|b| - 1];
      RunAppend(s, a, b[..|b| - 1]);
    }
  }

  /** Events of a reader that asks for n bytes at a time, and of the callback that feeds it. */
  predicate Draining(es: seq<Event>, n: nat) {
    forall i :: 0 <= i < |es| ==> es[i] == Push || es[i] == Resume || es[i] == Read(n)
  }

  /** A lease that can be read to its end: the channel is not closing and its callback not doomed. */
  ghost predicate Drainable(c: Chan) {
    !c.panicked && !c.closing && c.readers > 0 && !Doomed(c)
  }

  /** What a drain leaves alone. */
  ghost predicate SameLease(c: Chan, d: Chan) {
    d.readers == c.readers && d.status == c.status && d.up == c.up && Unassigned(d.handler) == Unassigned(c.handler)
    && d.handler.Announcing? == c.handler.Announcing?
  }

  /** One turn of the drain: a Read or the end of a wait that returns something, or a Push that finds room. */
  lemma DrainStep(s: Sys, n: nat) returns (e: Event)
    requires Inv(s) && Drainable(s.ch) && n > 0
    requires Held(s.ch) != []
    ensures e == Push || e == Resume || e == Read(n)
    ensures var d := Step(s.ch, e);
            && Drainable(d) && SameLease(s.ch, d)
            && (|Held(d)| < |Held(s.ch)| || (Held(d) == Held(s.ch) && |Tail(d)| < |Tail(s.ch)|))
  {
    hide Books, Announced, AllAccepted, GoodReader;
    if Stored(s.ch.rd) != [] {
      e := FetchShrinks(s.ch, n);
    } else {
      e := Push;
      PushAdvances(s.ch);
    }
    hide Step;
  }

  lemma FetchShrinks(c: Chan, n: nat) returns (e: Event)
    requires Shape(c) && Drainable(c) && n > 0 && Stored(c.rd) != []
    ensures e == Resume || e == Read(n)
    ensures var d := Step(c, e); Drainable(d) && SameLease(c, d) && |Held(d)| < |Held(c)|
  {
    hide ChanRead, Wake, Stored;
    if c.rd.waiting.Some? {
      e := Resume;
      WakeTakesFront(c.rd, c.rd.waiting.value);
    } else {
      e := Read(n);
      ReadTakesFront(c, n);
    }
    assert Step(c, e) == c.(rd := Fetch(c, e).0);
    assert |Held(Step(c, e))| == |Stored(Fetch(c, e).0)| + |Tail(c)|;
  }

  lemma PushAdvances(c: Chan)
    requires Shape(c) && Drainable(c) && Stored(c.rd) == [] && Held(c) != []
    ensures var d := Step(c, Push); Drainable(d) && SameLease(c, d) && Held(d) == Held(c) && |Tail(d)| < |Tail(c)|
  {
    NothingFlat(c.rd.queue);
    PushHolds(c);
    hide Held, Stored, Flatten, GoodBatches;
  }

  /**
    Nothing that was accepted is stuck: with the channel not closing and the callback not doomed,
    Reads of any one positive size, with the waits they end in, and the callback's own Pushes empty
    the lease.
   */
  lemma {:induction false} LeaseDrains(s: Sys, n: nat) returns (es: seq<Event>)
    requires Inv(s) && Drainable(s.ch) && n > 0
    ensures Draining(es, n)
    ensures Inv(Run(s, es)) && Drainable(Run(s, es).ch) && SameLease(s.ch, Run(s, es).ch)
    ensures Held(Run(s, es).ch) == []
    ensures LastLease(Run(s, es)).read == LastLease(s).accepted == LastLease(Run(s, es)).accepted
    decreases |Held(s.ch)|, |Tail(s.ch)|
  {
    if Held(s.ch) == [] {
      es := [];
    } else {
      var e := DrainStep(s, n);
      es := DrainOn(s, e, n);
    }
  }

  lemma {:induction false} DrainOn(s: Sys, e: Event, n: nat) returns (es: seq<Event>)
    requires Inv(s) && Drainable(s.ch) && n > 0 && (e == Push || e == Resume || e == Read(n))
    requires Drainable(Step(s.ch, e)) && SameLease(s.ch, Step(s.ch, e))
    requires var d := Step(s.ch, e);
             |Held(d)| < |Held(s.ch)| || (|Held(d)| == |Held(s.ch)| && |Tail(d)| < |Tail(s.ch)|)
    ensures Draining(es, n)
    ensures Inv(Run(s, es)) && Drainable(Run(s, es).ch) && SameLease(s.ch, Run(s, es).ch)
    ensures Held(Run(s, es).ch) == []
    ensures LastLease(Run(s, es)).read == LastLease(s).accepted == LastLease(Run(s, es)).accepted
    decreases |Held(s.ch)|, |Tail(s.ch)|, 0
  {
    hide Step, Observe, Inv, Held, Tail, Unassigned, Doomed;
    var t := Next(s, e);
    NextKeeps(s, e);
    var rest := LeaseDrains(t, n);
    es := [e] + rest;
    assert Run(s, [e]) == t by { assert [e][..0] == []; }
    RunAppend(s, [e], rest);
    DrainAccepts(s, e);
  }

  lemma DrainAccepts(s: Sys, e: Event)
    requires e.Push? || IsFetch(e)
    ensures LastLease(Next(s, e)).accepted == LastLease(s).accepted
  {
    hide Step, Fetch;
  }

  // ---------- The callback as one step ----------

  lemma RunOne(s: Sys, e: Event, es: seq<Event>)
    ensures Run(s, [e] + es) == Run(Next(s, e), es)
  {
    hide Next;
    assert [e][..0] == [];
    assert Run(s, [e]) == Next(s, e);
    RunAppend(s, [e], es);
  }

  /** OnData's loop as far as it gets is a run of Pushes. */
  lemma {:induction false} PumpIsRun(s: Sys) returns (es: seq<Event>)
    ensures Run(s, es).ch == Pump(s.ch) && forall i :: 0 <= i < |es| ==> es[i] == Push
    decreases if s.ch.panicked || !s.ch.handler.Pushing? then 0 else 1 + |s.ch.handler.rest|
  {
    if CanPush(s.ch) {
      PushShrinks(s.ch);
      assert Step(s.ch, Push) == PushBatch(s.ch);
      hide Step, Observe, PushBatch;
      var rest := PumpIsRun(Next(s, Push));
      RunOne(s, Push, rest);
      es := [Push] + rest;
    } else {
      es := [];
    }
  }

  lemma PushShrinks(c: Chan)
    requires CanPush(c)
    ensures var d := PushBatch(c); d.panicked || !d.handler.Pushing? || |d.handler.rest| < |c.handler.rest|
  {
  }

  /**
    OnMessage as one step, as far as it gets without waiting, is a run of the callback's own events,
    the message, the announcement and pushes; every case, with or without room in the queues, is one.
   */
  lemma DeliverIsRun(s: Sys, data: seq<byte>, room: bool) returns (es: seq<Event>)
    requires Enabled(s.ch, Message(data))
    ensures Run(s, es).ch == Deliver(s.ch, data, room)
    ensures es != [] && es[0] == Message(data) && forall i :: 0 < i < |es| ==> es[i] == Announce || es[i] == Push
  {
    var t := Next(s, Message(data));
    assert t.ch == OnMessage(s.ch, data);
    if !t.ch.handler.Announcing? {
      var rest := PumpIsRun(t);
      RunOne(s, Message(data), rest);
      es := [Message(data)] + rest;
    } else if room {
      var u := Next(t, Announce);
      assert u.ch == EnterOnData(t.ch, data);
      var rest := PumpIsRun(u);
      RunOne(t, Announce, rest);
      RunOne(s, Message(data), [Announce] + rest);
      es := [Message(data)] + ([Announce] + rest);
    } else {
      RunOne(s, Message(data), []);
      es := [Message(data)] + [];
    }
  }

  /** How many batches of a message fit into the queue. */
  function Fitting(queue: seq<seq<byte>>, data: seq<byte>): nat {
    if |queue| >= QUEUE_CAP then 0 else Min(QUEUE_CAP - |queue|, |Chunks(data)|)
  }

  /** Into an open reader, the loop queues the first batches of the cut that fit, and keeps the rest of the message. */
  lemma {:induction false} PumpQueues(c: Chan)
    requires !c.panicked && c.handler.Pushing? && c.handler.rest != []
    requires c.handler.reader + 1 == c.readers && !c.rd.closed
    ensures var rest := c.handler.rest; var k := Fitting(c.rd.queue, rest);
            Pump(c) == c.(rd := c.rd.(queue := c.rd.queue + Chunks(rest)[..k]),
                          handler := if k == |Chunks(rest)| then Ready
                                     else Pushing(rest[Min(k * BATCH, |rest|)..], c.handler.reader))
    decreases |c.handler.rest|
  {
    var rest := c.handler.rest;
    if CanPush(c) {
      var d, m := PushBatch(c), Min(BATCH, |rest|);
      PushOne(c);
      hide PushBatch;
      ChunksStep(rest);
      if m < |rest| {
        PumpQueues(d);
        FittingStep(c, d, rest, m);
      } else {
        assert rest[m..] == [] && Chunks(rest)[..1] == Chunks(rest);
      }
    } else {
      assert rest[0..] == rest && c.rd.queue + [] == c.rd.queue;
      assert Chunks(rest) != [];
    }
  }

  /** With nothing queued, a message of up to 40960 bytes is queued at once; a longer one has to wait for a reader. */
  lemma FitsAtOnceExactlyWhen(c: Chan)
    requires !c.panicked && c.handler.Pushing? && c.handler.rest != [] && c.rd.queue == []
    requires c.handler.reader + 1 == c.readers && !c.rd.closed
    ensures Pump(c).handler.Ready? <==> |c.handler.rest| <= 40960
  {
    hide Pump;
    PumpQueues(c);
    ChunksShape(c.handler.rest);
  }

  lemma ChunksStep(rest: seq<byte>)
    requires rest != []
    ensures var m := Min(BATCH, |rest|); Chunks(rest) == [rest[..m]] + Chunks(rest[m..])
  {
  }

  lemma PushOne(c: Chan)
    requires !c.panicked && c.handler.Pushing? && c.handler.rest != []
    requires c.handler.reader + 1 == c.readers && !c.rd.closed && |c.rd.queue| < QUEUE_CAP
    ensures var rest := c.handler.rest; var m := Min(BATCH, |rest|);
            PushBatch(c) == c.(rd := c.rd.(queue := c.rd.queue + [rest[..m]]),
                               handler := if m == |rest| then Ready else Pushing(rest[m..], c.handler.reader))
  {
  }

  lemma FittingStep(c: Chan, d: Chan, rest: seq<byte>, m: nat)
    requires 0 < m == BATCH < |rest| && |c.rd.queue| < QUEUE_CAP && d.rd.queue == c.rd.queue + [rest[..m]]
    requires Chunks(rest) == [rest[..m]] + Chunks(rest[m..])
    ensures Fitting(c.rd.queue, rest) == 1 + Fitting(d.rd.queue, rest[m..])
    ensures c.rd.queue + Chunks(rest)[..Fitting(c.rd.queue, rest)]
         == d.rd.queue + Chunks(rest[m..])[..Fitting(d.rd.queue, rest[m..])]
    ensures rest[Min(Fitting(c.rd.queue, rest) * BATCH, |rest|)..]
         == rest[m..][Min(Fitting(d.rd.queue, rest[m..]) * BATCH, |rest[m..]|)..]
  {
    hide Chunks;
    var k, more := Fitting(d.rd.queue, rest[m..]), Chunks(rest[m..]);
    assert ([rest[..m]] + more)[..1 + k] == [rest[..m]] + more[..k];
    assert rest[m..][Min(k * BATCH, |rest| - m)..] == rest[m + Min(k * BATCH, |rest| - m)..];
  }
}
