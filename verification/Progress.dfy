/** Nothing that was written is stuck while the channel is not closing, in whichever lease. */
module Progress {
  import opened Streams
  import opened ChannelModel
  import opened ChannelProofs
  import opened ChannelTheorems
  import opened Transport

  /** A lease in use: the data channel is up, not closing, and its callback not doomed. */
  ghost predicate Flowing(l: Link) {
    LinkInv(l) && l.rx.ch.status == Active && l.rx.ch.up && Drainable(l.rx.ch)
  }

  /** The receiver's own events, with Reads of n bytes at a time. */
  predicate Receiving(le: LinkEvent, n: nat) {
    le == Deliver || le == Local(Announce) || le == Local(Push) || le == Local(Resume) || le == Local(Read(n))
  }

  function Locals(es: seq<Event>): seq<LinkEvent> {
    seq(|es|, i requires 0 <= i < |es| => Local(es[i]))
  }

  lemma {:induction false} LocalsRun(l: Link, es: seq<Event>)
    requires forall i :: 0 <= i < |es| ==> !es[i].Message? && !es[i].Ignore?
    ensures LinkRun(l, Locals(es)) == l.(rx := Run(l.rx, es))
    decreases |es|
  {
    hide Next;
    if es != [] {
      LocalsRun(l, es[..|es| - 1]);
      assert Locals(es)[..|es| - 1] == Locals(es[..|es| - 1]);
    }
  }

  /** Within a lease the payload of the earlier ones is settled. */
  lemma {:induction false} RunBase(s: Sys, es: seq<Event>)
    requires Inv(s) && s.ch.readers > 0 && Run(s, es).ch.readers == s.ch.readers
    ensures Base(Run(s, es)) == Base(s)
    decreases |es|
  {
    hide Next, Inv, Base;
    if es != [] {
      var es', e := es[..|es| - 1], es[|es| - 1];
      RunReaders(s, es');
      ReadersGrow(Run(s, es'), e);
      RunBase(s, es');
      RunKeeps(s, es');
      InvCounts(Run(s, es'));
      BaseStays(Run(s, es'), e);
    }
  }

  /** What a stretch of receiver events leaves alone. */
  ghost predicate Continues(l: Link, m: Link) {
    m.rx.ch.readers == l.rx.ch.readers && m.written == l.written && Base(m.rx) == Base(l.rx)
  }

  /** The reader empties what is queued or being queued. */
  lemma DrainFlows(l: Link, n: nat) returns (es: seq<LinkEvent>)
    requires Flowing(l) && n > 0
    ensures forall i :: 0 <= i < |es| ==> Receiving(es[i], n)
    ensures var m := LinkRun(l, es);
            && Flowing(m) && Continues(l, m) && m.flight == l.flight
            && Held(m.rx.ch) == [] && m.rx.ch.handler.Announcing? == l.rx.ch.handler.Announcing?
  {
    hide Inv, Run, LinkRun, Base, Held;
    var drain := LeaseDrains(l.rx, n);
    es := Locals(drain);
    LocalsRun(l, drain);
    LinkRunKeeps(l, es);
    RunBase(l.rx, drain);
  }

  /** With nothing held, the announced message or the next one in flight goes in. */
  lemma NextFlows(l: Link) returns (le: LinkEvent)
    requires Flowing(l) && Held(l.rx.ch) == [] && (l.rx.ch.handler.Announcing? || l.flight != [])
    ensures le == Deliver || le == Local(Announce)
    ensures var m := LinkNext(l, le);
            && Flowing(m) && Continues(l, m) && !m.rx.ch.handler.Announcing?
            && (if l.rx.ch.handler.Announcing? then m.flight == l.flight else |m.flight| < |l.flight|)
  {
    var c := l.rx.ch;
    le := if c.handler.Announcing? then Local(Announce) else Deliver;
    InvCounts(l.rx);
    LinkNextKeeps(l, le);
    if c.handler.Announcing? {
      EntersOpen(c, Announce);
      hide Step, Inv, Observe;
      BaseStays(l.rx, Announce);
    } else {
      ReadyWhenDrained(c);
      EntersOpen(c, Message(l.flight[0]));
      hide Step, Inv, Observe;
      BaseStays(l.rx, Message(l.flight[0]));
    }
  }

  lemma ReadyWhenDrained(c: Chan)
    requires Shape(c) && Drainable(c) && Held(c) == [] && !c.handler.Announcing?
    ensures c.handler.Ready?
  {
  }

  /** A message or an announcement on an active lease enters its open reader. */
  lemma EntersOpen(c: Chan, e: Event)
    requires Shape(c) && Drainable(c) && c.status == Active && c.up && (e.Message? || e.Announce?) && Enabled(c, e)
    ensures var d := Step(c, e);
            Drainable(d) && d.status == Active && d.up && d.readers == c.readers && !d.handler.Announcing?
  {
  }

  lemma NothingLeft(l: Link)
    requires Flowing(l) && Held(l.rx.ch) == [] && !l.rx.ch.handler.Announcing? && l.flight == []
    ensures l.written == Base(l.rx) + LastLease(l.rx).read
  {
    AnyLease(l);
    assert Flatten(l.flight) == [];
  }

  /**
    Progress end to end, in a lease of any number: from any state in which it is in use, the
    receiver's own events, with Reads of any one positive size, bring everything written since the
    earlier leases to the reader, and nothing but that.
   */
  lemma {:induction false} AllCanBeRead(l: Link, n: nat) returns (es: seq<LinkEvent>)
    requires Flowing(l) && n > 0
    ensures forall i :: 0 <= i < |es| ==> Receiving(es[i], n)
    ensures var m := LinkRun(l, es);
            Flowing(m) && Continues(l, m) && l.written == Base(l.rx) + LastLease(m.rx).read
    decreases |l.flight|, if l.rx.ch.handler.Announcing? then 1 else 0
  {
    hide Flowing, LinkRun, LinkNext, Held, Base, LastLease;
    var drain := DrainFlows(l, n);
    var m := LinkRun(l, drain);
    if m.rx.ch.handler.Announcing? || m.flight != [] {
      var le := NextFlows(m);
      var rest := AllCanBeRead(LinkNext(m, le), n);
      es := drain + ([le] + rest);
      LinkRunOne(m, le, rest);
      LinkRunAppend(l, drain, [le] + rest);
    } else {
      NothingLeft(m);
      es := drain;
    }
  }
}
