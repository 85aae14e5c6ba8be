/** What closing does to the order of a lease's bytes: a Read that was already waiting has passed its check. */
module Closing {
  import opened Streams
  import opened Options
  import opened ChannelModel
  import opened ChannelProofs
  import opened ChannelTheorems
  import opened Transport

  /** What the current lease has read and what its buffer still holds. */
  function Ahead(s: Sys): seq<byte> {
    LastLease(s).read + s.ch.rd.buffered
  }

  /** A Read waits on an open, empty queue, and the callback is free to bring it any message that is still to come. */
  predicate Exposed(c: Chan) {
    !c.panicked && c.rd.waiting.Some? && c.rd.queue == [] && !c.rd.closed && c.handler.Ready?
  }

  /** The batch that a waiting Read gets next, when it is already on its way. */
  function First(c: Chan): seq<byte> {
    if c.rd.queue != [] then c.rd.queue[0]
    else if c.handler.Pushing? && c.handler.reader + 1 == c.readers then c.handler.rest[..Min(BATCH, |c.handler.rest|)]
    else if c.handler.Announcing? then c.handler.msg[..Min(BATCH, |c.handler.msg|)]
    else []
  }

  /** A waiting Read that no batch can reach any more, or none but the end. */
  predicate Stuck(c: Chan) {
    c.panicked || (c.rd.queue == [] && (c.rd.closed || Doomed(c)))
  }

  /** Everything the current lease can still be handed once the channel is closing is in order. */
  ghost predicate Calm(s: Sys, written: seq<byte>) {
    && s.ch.closing
    && (Ahead(s) == [] || Base(s) + Ahead(s) <= written)
    && (s.ch.rd.waiting.Some? && !Stuck(s.ch) ==>
          First(s.ch) != [] && Base(s) + LastLease(s).read + First(s.ch) <= written)
  }

  /** A waiting Read's next batch does not change under it. */
  lemma KeepsFirst(c: Chan, e: Event)
    requires Shape(c) && c.readers > 0 && c.rd.waiting.Some? && !IsFetch(e)
    requires Step(c, e).readers == c.readers && !Stuck(Step(c, e))
    requires !Stuck(c) ==> First(c) != []
    ensures !Stuck(c) && First(Step(c, e)) == First(c)
  {
    hide GoodReader;
    if e.Push? && c.handler.Pushing? {
      PushKeepsFirst(c);
    }
  }

  lemma PushKeepsFirst(c: Chan)
    requires Shape(c) && c.readers > 0 && c.handler.Pushing? && !Stuck(PushBatch(c)) && (!Stuck(c) ==> First(c) != [])
    ensures !Stuck(c) && First(PushBatch(c)) == First(c)
  {
  }

  lemma OthersKeepReader(c: Chan, e: Event)
    requires !IsFetch(e) && Step(c, e).readers == c.readers
    ensures Step(c, e).rd.buffered == c.rd.buffered && Step(c, e).rd.waiting == c.rd.waiting
  {
  }

  lemma ClosingStays(c: Chan, e: Event)
    requires c.closing
    ensures Step(c, e).closing
  {
    hide Fetch;
  }

  lemma CalmOther(s: Sys, e: Event, written: seq<byte>)
    requires Inv(s) && Calm(s, written) && !IsFetch(e) && s.ch.readers > 0 && Next(s, e).ch.readers == s.ch.readers
    ensures Calm(Next(s, e), written)
  {
    hide Observe, Base, LastLease, Books, Announced, AllAccepted, GoodReader;
    OthersKeepReader(s.ch, e);
    BaseStays(s, e);
    LeaseStepRead(s, e);
    ClosingStays(s.ch, e);
    assert ReadBy(s.ch, e) == [];
    if s.ch.rd.waiting.Some? && !Stuck(Step(s.ch, e)) {
      KeepsFirst(s.ch, e);
    }
    hide Step, First, Stuck;
  }

  lemma CalmTake(s: Sys, e: Event, written: seq<byte>)
    requires Inv(s) && Calm(s, written) && Next(s, e).ch.readers == s.ch.readers + 1
    ensures Calm(Next(s, e), written)
  {
    TakeOpens(s, e);
    ClosingStays(s.ch, e);
    TakeIsFresh(s.ch, e);
    hide Observe, Base, LastLease, Books, Announced, AllAccepted, GoodReader, Step;
  }

  lemma TakeIsFresh(c: Chan, e: Event)
    requires Step(c, e).readers == c.readers + 1
    ensures Step(c, e).rd == NewReader()
  {
    hide Fetch;
  }

  /** Once the channel is closing, a new Read only hands out what is already in the buffer. */
  lemma ClosingRead(c: Chan, n: nat)
    requires c.closing && c.readers > 0 && c.rd.waiting.None?
    ensures var (q, o) := ChanRead(c, n);
            !o.Crash? && q.waiting.None? && c.rd.buffered == (if o.Data? then o.bytes else []) + q.buffered
  {
    if c.rd.buffered != [] && n > 0 {
      var k := Min(n, |c.rd.buffered|);
      assert c.rd.buffered == c.rd.buffered[..k] + c.rd.buffered[k..];
    }
  }

  /** A wait that is over has handed out, or put into the buffer, the first queued batch. */
  lemma WakeTakesFirst(r: Reader, n: nat)
    requires GoodReader(r) && r.buffered == [] && n > 0
    ensures var (q, o) := Wake(r, n);
            && (o.Data? ==> r.queue != [] && r.queue[0] == o.bytes + q.buffered && q.waiting.None?)
            && (!o.Data? ==> q.buffered == [] && q.queue == r.queue && q.closed == r.closed)
            && !o.Crash?
  {
    if r.queue != [] {
      var b := r.queue[0];
      assert b == b[..Min(n, |b|)] + b[Min(n, |b|)..];
    }
  }

  /** A fetch changes the reader and the record of what was read, and nothing else. */
  lemma FetchStep(s: Sys, e: Event)
    requires Inv(s) && s.ch.readers > 0 && Enabled(s.ch, e) && IsFetch(e)
    ensures var (q, o) := Fetch(s.ch, e); var t := Next(s, e);
            && t.ch == s.ch.(rd := q, panicked := o.Crash?) && Base(t) == Base(s)
            && LastLease(t).read == LastLease(s).read + (if o.Data? then o.bytes else [])
  {
    hide Fetch, Base, LastLease, Inv;
    assert |s.log.leases| == s.ch.readers by { InvCounts(s); }
    BaseStays(s, e);
    LeaseStepRead(s, e);
    hide Observe;
  }

  lemma CalmRead(s: Sys, n: nat, written: seq<byte>)
    requires Inv(s) && Calm(s, written) && s.ch.readers > 0 && Enabled(s.ch, Read(n))
    ensures Calm(Next(s, Read(n)), written)
  {
    hide Next, Inv, Base, LastLease, ChanRead, First, Stuck;
    ClosingRead(s.ch, n);
    FetchStep(s, Read(n));
    var (q, o) := ChanRead(s.ch, n);
    assert Ahead(Next(s, Read(n))) == Ahead(s);
  }

  lemma CalmResume(s: Sys, written: seq<byte>)
    requires Inv(s) && Calm(s, written) && s.ch.readers > 0 && Enabled(s.ch, Resume)
    ensures Calm(Next(s, Resume), written)
  {
    hide Next, Inv, Base, LastLease, Wake;
    InvCounts(s);
    hide GoodBatches;
    FetchStep(s, Resume);
    var n := s.ch.rd.waiting.value;
    WakeTakesFirst(s.ch.rd, n);
    var (q, o) := Wake(s.ch.rd, n);
    var t := Next(s, Resume);
    if o.Data? {
      assert First(s.ch) == s.ch.rd.queue[0] && !Stuck(s.ch);
      hide First, Stuck;
      assert Base(s) + LastLease(s).read + First(s.ch) == Base(s) + Ahead(t);
    } else {
      SameReader(s.ch, t.ch);
      hide First, Stuck;
      assert Ahead(t) == Ahead(s);
    }
  }

  lemma SameReader(c: Chan, d: Chan)
    requires d == c.(rd := d.rd, panicked := d.panicked) && d.panicked == c.panicked
    requires d.rd.queue == c.rd.queue && d.rd.closed == c.rd.closed
    ensures First(d) == First(c) && Stuck(d) == Stuck(c)
  {
  }

  lemma CalmNext(s: Sys, e: Event, written: seq<byte>)
    requires Inv(s) && Calm(s, written)
    ensures Calm(Next(s, e), written)
  {
    ReadersGrow(s, e);
    if !Enabled(s.ch, e) {
      assert Next(s, e) == s;
    }
    if s.ch.readers == 0 && Next(s, e).ch.readers == 0 {
      NeverTaken(s, e);
    }
    hide Next, Calm, Inv;
    if Enabled(s.ch, e) {
      if Next(s, e).ch.readers == s.ch.readers + 1 {
        CalmTake(s, e, written);
      } else if s.ch.readers > 0 {
        if e.Read? {
          CalmRead(s, e.n, written);
        } else if e.Resume? {
          CalmResume(s, written);
        } else {
          CalmOther(s, e, written);
        }
      } else {
        NeverTakenIsCalm(s, e, written);
      }
    }
  }

  lemma NeverTaken(s: Sys, e: Event)
    requires Inv(s) && s.ch.readers == 0 && Next(s, e).ch.readers == 0
    ensures Next(s, e).ch.rd == NewReader() && Next(s, e).log.leases == []
  {
  }

  lemma NeverTakenIsCalm(s: Sys, e: Event, written: seq<byte>)
    requires Inv(s) && Calm(s, written) && s.ch.readers == 0 && Next(s, e).ch.readers == 0
    ensures Calm(Next(s, e), written)
  {
    NeverTaken(s, e);
    ClosingStays(s.ch, e);
    hide Step, Observe;
  }

  lemma CalmLink(l: Link, le: LinkEvent)
    requires LinkInv(l) && Calm(l.rx, l.written)
    ensures Calm(LinkNext(l, le).rx, LinkNext(l, le).written)
  {
    hide Inv, Next, First, Stuck, Base, Ahead, LastLease;
    match le
    case WriterTakes =>
    case Send(data, sent) =>
    case Discard =>
    case Deliver => if l.flight != [] { CalmNext(l.rx, Message(l.flight[0]), l.written); }
    case Local(e) => CalmNext(l.rx, e, l.written);
  }

  lemma {:induction false} CalmRun(l: Link, es: seq<LinkEvent>)
    requires LinkInv(l) && Calm(l.rx, l.written)
    ensures InOrder(LinkRun(l, es)) && Calm(LinkRun(l, es).rx, LinkRun(l, es).written)
    decreases |es|
  {
    hide LinkNext, LinkInv, First, Stuck, Base;
    if es != [] {
      LinkRunKeeps(l, es[..|es| - 1]);
      CalmRun(l, es[..|es| - 1]);
      CalmLink(LinkRun(l, es[..|es| - 1]), es[|es| - 1]);
    }
    CalmIsInOrder(LinkRun(l, es));
  }

  lemma CalmIsInOrder(l: Link)
    requires Calm(l.rx, l.written)
    ensures InOrder(l)
  {
    hide First, Stuck, Base, LastLease;
    assert LastLease(l.rx).read != [] ==> Ahead(l.rx) != [];
  }

  /** A closing channel that has lost nothing and exposes no waiting Read is calm. */
  lemma UnexposedIsCalm(l: Link)
    requires LinkInv(l) && l.rx.ch.closing && !l.lost && !Exposed(l.rx.ch)
    ensures Calm(l.rx, l.written)
  {
    hide Inv, Base, LastLease, First, Held, Unassigned, Flatten, Stuck, Exposed;
    var c, s := l.rx.ch, l.rx;
    HandedOutNext(s);
    if c.readers > 0 {
      AnyLease(l);
      Chained(Base(s), LastLease(s).read, c.rd.buffered, Held(c), Unassigned(c.handler), Flatten(l.flight));
      assert Base(s) + Ahead(s) == Base(s) + LastLease(s).read + c.rd.buffered;
      if c.rd.waiting.Some? && !Stuck(c) {
        Chained(Base(s), LastLease(s).read, First(c), Held(c), Unassigned(c.handler), Flatten(l.flight));
      }
    }
  }

  lemma Chained(base: seq<byte>, read: seq<byte>, x: seq<byte>, held: seq<byte>, waits: seq<byte>, flight: seq<byte>)
    requires x <= held + waits
    ensures base + read + x <= base + read + held + waits + flight
  {
    assert base + read + held + waits + flight == (base + read) + (held + waits) + flight;
  }

  /** What the reader can be handed next is the front of what it holds. */
  lemma HandedOutNext(s: Sys)
    requires Inv(s) && (s.ch.handler.Announcing? ==> s.ch.handler.msg != [])
    ensures s.ch.rd.buffered <= Held(s.ch) + Unassigned(s.ch.handler)
    ensures s.ch.rd.waiting.Some? && !Stuck(s.ch) && !Exposed(s.ch) ==>
              First(s.ch) != [] && First(s.ch) <= Held(s.ch) + Unassigned(s.ch.handler)
    ensures s.ch.readers == 0 ==> Ahead(s) == [] && s.ch.rd.waiting.None?
  {
    FirstIsHeld(s.ch);
    hide Held, First, Stuck;
  }

  lemma FirstIsHeld(c: Chan)
    requires Shape(c) && (c.handler.Announcing? ==> c.handler.msg != [])
    ensures c.rd.buffered <= Held(c)
    ensures c.rd.waiting.Some? && !Stuck(c) && !Exposed(c) ==>
              First(c) != [] && First(c) <= Held(c) + Unassigned(c.handler)
  {
    hide GoodBatches;
    if c.rd.waiting.Some? && !Stuck(c) && !Exposed(c) {
      if c.rd.queue != [] {
        FrontOfQueue(c.rd, Tail(c) + Unassigned(c.handler));
      } else {
        assert Flatten(c.rd.queue) == [];
      }
    }
  }

  lemma FrontOfQueue(r: Reader, more: seq<byte>)
    requires GoodReader(r) && r.buffered == [] && r.queue != []
    ensures r.queue[0] != [] && r.queue[0] <= Stored(r) + more
  {
    assert Flatten(r.queue) == r.queue[0] + Flatten(r.queue[1..]);
  }

  // ---------- The exposed case ----------

  /** While the channel is closing and the callback free, everything in flight can be thrown away. */
  lemma {:induction false} DiscardAll(l: Link) returns (es: seq<LinkEvent>)
    requires l.rx.ch.closing && l.rx.ch.handler.Ready? && !l.rx.ch.panicked
    ensures LinkRun(l, es) == l.(flight := [], lost := l.lost || l.flight != [])
    decreases |l.flight|
  {
    if l.flight == [] {
      es := [];
    } else {
      var m := LinkNext(l, Discard);
      assert m == l.(flight := l.flight[1..], lost := true);
      var rest := DiscardAll(m);
      LinkRunOne(l, Discard, rest);
      es := [Discard] + rest;
    }
  }

  lemma ExposedIsTaken(s: Sys)
    requires Inv(s) && Exposed(s.ch)
    ensures s.ch.readers > 0 && s.ch.status != Idle && Held(s.ch) == [] && Unassigned(s.ch.handler) == []
    ensures s.ch.rd.waiting.value > 0 && |s.log.leases| == s.ch.readers
  {
  }

  /** A one-byte message brought to a waiting Read is what it returns. */
  lemma ByteReaches(s: Sys, y: byte) returns (t: Sys)
    requires Inv(s) && Exposed(s.ch)
    ensures t == Next(Next(Next(Next(s, Open), Message([y])), Push), Resume)
    ensures Base(t) == Base(s) && LastLease(t).read == LastLease(s).read + [y]
  {
    hide Inv, AllAccepted, Wake;
    ExposedIsTaken(s);
    var b: seq<byte> := [y];
    var s1 := Next(s, Open);
    assert s1 == s.(ch := s.ch.(up := true));
    var s2 := Next(s1, Message(b));
    NextKeeps(s, Open);
    NextKeeps(s1, Message(b));
    MessageEnters(s1, b);
    var s3 := Next(s2, Push);
    NextKeeps(s2, Push);
    OneByteQueued(s2, y);
    t := Next(s3, Resume);
    hide Next, Inv, Base, LastLease, Wake;
    FetchStep(s3, Resume);
    WakesWith(s3.ch.rd, b);
  }

  lemma MessageEnters(s: Sys, b: seq<byte>)
    requires Inv(s) && Exposed(s.ch) && s.ch.up && s.ch.readers > 0 && s.ch.status != Idle && b != []
    ensures var t := Next(s, Message(b));
            && t.ch == s.ch.(handler := Pushing(b, s.ch.readers - 1))
            && Base(t) == Base(s) && LastLease(t).read == LastLease(s).read
  {
    hide AllAccepted, Books, Announced;
    BaseStays(s, Message(b));
    LeaseStepRead(s, Message(b));
  }

  lemma WakesWith(r: Reader, b: seq<byte>)
    requires r.queue == [b] && |b| == 1 && r.waiting.Some? && r.waiting.value > 0
    ensures Wake(r, r.waiting.value).1 == Data(b)
  {
    assert b[..1] == b;
  }

  /** Deliver and three local steps, seen from the receiver. */
  lemma BroughtSteps(l: Link, b: seq<byte>)
    requires l.flight == [b] && Enabled(Next(l.rx, Open).ch, Message(b))
    ensures LinkNext(LinkNext(LinkNext(LinkNext(l, Local(Open)), Deliver), Local(Push)), Local(Resume))
         == l.(flight := [], rx := Next(Next(Next(Next(l.rx, Open), Message(b)), Push), Resume))
  {
    hide Next, Enabled;
  }

  lemma ByteIsBrought(l: Link, y: byte) returns (es: seq<LinkEvent>)
    requires Inv(l.rx) && Exposed(l.rx.ch) && l.flight == []
    ensures var m := LinkRun(l, es);
            && m.written == l.written + [y]
            && Base(m.rx) == Base(l.rx) && LastLease(m.rx).read == LastLease(l.rx).read + [y]
  {
    hide Base, LastLease, Inv, LinkNext, LinkRun, Observe;
    var t := ByteReaches(l.rx, y);
    assert Enabled(Next(l.rx, Open).ch, Message([y]));
    hide Next;
    SendOne(l, y);
    BroughtSteps(LinkNext(l, Send([y], 1)), [y]);
    LinkRunFive(l, Send([y], 1), Local(Open), Deliver, Local(Push), Local(Resume));
    es := [Send([y], 1), Local(Open), Deliver, Local(Push), Local(Resume)];
  }

  /** One more byte is sent: behind what an exposed Read has returned there is now something to come. */
  lemma MoreToCome(l: Link) returns (m: Link, sent: seq<byte>)
    requires LinkInv(l) && !l.lost && Exposed(l.rx.ch)
    ensures m == LinkNext(l, Send([0], 1)) && m.rx == l.rx
    ensures m.written == (Base(l.rx) + LastLease(l.rx).read) + sent && |sent| > 0
  {
    hide Inv, Base, LastLease, Flatten, Held, Unassigned;
    ExposedIsTaken(l.rx);
    m := LinkNext(l, Send([0], 1));
    SendOne(l, 0);
    LinkNextKeeps(l, Send([0], 1));
    hide LinkNext;
    AnyLease(m);
    sent := Flatten(m.flight);
    NothingFlat(m.flight);
  }

  /** With a Read left waiting, some run hands it the second message in place of the first. */
  lemma ExposedBreaks(l: Link) returns (es: seq<LinkEvent>)
    requires LinkInv(l) && l.rx.ch.closing && !l.lost && Exposed(l.rx.ch)
    ensures !InOrder(LinkRun(l, es))
  {
    hide LinkNext, LinkRun, Inv, Base, LastLease, Flatten, GoodBatches;
    var l1, sent := MoreToCome(l);
    var y: byte := if sent[0] == 0 then 1 else 0;
    var dump := DiscardAll(l1);
    var l2 := LinkRun(l1, dump);
    var more := ByteIsBrought(l2, y);
    es := [Send([0], 1)] + (dump + more);
    LinkRunAppend(l1, dump, more);
    LinkRunOne(l, Send([0], 1), dump + more);
    WrongByte(Base(l.rx), LastLease(l.rx).read, sent, y);
  }

  lemma WrongByte(base: seq<byte>, read: seq<byte>, sent: seq<byte>, y: byte)
    requires |sent| > 0 && sent[0] != y
    ensures !(base + (read + [y]) <= (base + read) + sent + [y])
  {
    assert (base + (read + [y]))[|base| + |read|] == y;
    assert ((base + read) + sent + [y])[|base| + |read|] == sent[0];
  }

  /**
    Closing keeps fidelity exactly when no Read is left waiting on an empty queue with the callback
    free: then whatever follows, in this lease and every later one, is read in order; with such a Read,
    a message thrown away before the next one is taken makes it return bytes out of order.
   */
  lemma ClosingIsSafeExactlyWhen(l: Link)
    requires LinkInv(l) && l.rx.ch.closing && !l.lost
    ensures (forall es: seq<LinkEvent> :: InOrder(LinkRun(l, es))) <==> !Exposed(l.rx.ch)
  {
    hide LinkRun, LinkInv, InOrder, Exposed;
    if Exposed(l.rx.ch) {
      var es := ExposedBreaks(l);
    } else {
      UnexposedIsCalm(l);
      forall es: seq<LinkEvent> ensures InOrder(LinkRun(l, es)) {
        CalmRun(l, es);
      }
    }
  }

  /** The failing input, from fresh channels: a Read waits, the channel closes, 1 is thrown away and 2 is not. */
  lemma WaitingReadOvertaken()
    ensures var before := [Local(Open), Local(Take), Local(Read(1)), Local(Close), Send([1], 1)];
            var after := [Discard, Send([2], 1), Deliver, Local(Push), Local(Resume)];
            var l := LinkRun(FreshLink(false), before + after);
            l.written == [1, 2] && l.rx.log.leases == [Lease([2], [2], false, 0)] && !InOrder(l)
  {
    hide LinkRun, LinkNext;
    var before := [Local(Open), Local(Take), Local(Read(1)), Local(Close), Send([1], 1)];
    var after := [Discard, Send([2], 1), Deliver, Local(Push), Local(Resume)];
    var l := WaitingRead();
    OvertakenBy(l);
    LinkRunAppend(FreshLink(false), before, after);
    NotInOrder(LinkRun(FreshLink(false), before + after));
  }

  lemma NotInOrder(l: Link)
    requires l.written == [1, 2] && l.rx.log.leases == [Lease([2], [2], false, 0)]
    ensures !InOrder(l)
  {
    assert Base(l.rx) == [];
    assert LastLease(l.rx).read[0] != l.written[0];
  }

  lemma WaitingRead() returns (l: Link)
    ensures l == LinkRun(FreshLink(false), [Local(Open), Local(Take), Local(Read(1)), Local(Close), Send([1], 1)])
    ensures l == Link([1], [], [[1]],
                      Sys(Chan(false, true, true, Closed, 1, Reader([], false, [], Some(1)), [], Ready, false),
                          Log([Lease([], [], false, 0)], [])), false)
  {
    var f := FreshLink(false);
    var l1 := LinkNext(f, Local(Open));
    var l2 := LinkNext(l1, Local(Take));
    assert l2 == f.(rx := Sys(Chan(false, true, false, Active, 1, NewReader(), [], Ready, false),
                              Log([Lease([], [], false, 0)], [])));
    var l3 := LinkNext(l2, Local(Read(1)));
    assert l3 == l2.(rx := l2.rx.(ch := l2.rx.ch.(rd := Reader([], false, [], Some(1)))));
    var l4 := LinkNext(l3, Local(Close));
    SendOne(l4, 1);
    l := LinkNext(l4, Send([1], 1));
    LinkRunFive(f, Local(Open), Local(Take), Local(Read(1)), Local(Close), Send([1], 1));
  }

  lemma OvertakenBy(l: Link)
    requires l == Link([1], [], [[1]],
                       Sys(Chan(false, true, true, Closed, 1, Reader([], false, [], Some(1)), [], Ready, false),
                           Log([Lease([], [], false, 0)], [])), false)
    ensures var m := LinkRun(l, [Discard, Send([2], 1), Deliver, Local(Push), Local(Resume)]);
            m.written == [1, 2] && m.rx.log.leases == [Lease([2], [2], false, 0)]
  {
    hide LinkRun, Sent, Next;
    var l1 := LinkNext(l, Discard);
    assert l1 == l.(flight := [], lost := true);
    SendOne(l1, 2);
    var l2 := LinkNext(l1, Send([2], 1));
    assert l2 == l1.(written := [1, 2], flight := [[2]]);
    var l3 := LinkNext(l2, Deliver);
    var l4 := LinkNext(l3, Local(Push));
    var l5 := LinkNext(l4, Local(Resume));
    assert l5.written == [1, 2] && l5.rx == Next(Next(Next(l.rx, Message([2])), Push), Resume);
    TwoIsRead(l.rx);
    LinkRunFive(l, Discard, Send([2], 1), Deliver, Local(Push), Local(Resume));
  }

  lemma TwoIsRead(s: Sys)
    requires s == Sys(Chan(false, true, true, Closed, 1, Reader([], false, [], Some(1)), [], Ready, false),
                      Log([Lease([], [], false, 0)], []))
    ensures Next(Next(Next(s, Message([2])), Push), Resume).log.leases == [Lease([2], [2], false, 0)]
  {
    hide Wake;
    var b: seq<byte> := [2];
    var s1 := Next(s, Message(b));
    assert [] + b == b;
    assert s1 == Sys(s.ch.(handler := Pushing(b, 0)), Log([Lease(b, [], false, 0)], b));
    OneByteQueued(s1, 2);
    var s2 := Next(s1, Push);
    WakesWith(s2.ch.rd, b);
    assert Out(s2.ch, Resume) == Data(b);
    assert Next(s2, Resume).log == ObserveFetch(s2.log, Data(b));
  }
}
