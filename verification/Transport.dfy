/**
  Both ends of a data channel: Write on one side, messages in flight in order and without loss
  (section 6.6 of RFC 8831), and the leased channel on the other side, over any number of leases.
 */
module Transport {
  import opened Streams
  import opened ChannelModel
  import opened ChannelProofs
  import opened ChannelTheorems

  datatype Link = Link(
    written: seq<byte>,      // every byte handed to the data channel, over all writes
    starts: seq<nat>,        // how much had been written when the writing side took each of its leases
    flight: seq<seq<byte>>,  // messages sent and not yet delivered
    rx: Sys,                 // the receiving channel
    lost: bool)              // the receiver has thrown a message away

  /**
    WriterTakes: the writing side leases its end again. Send: a Write of data whose first `sent`
    batches went out, all of them when it succeeds. Deliver and Discard: the next message reaches
    OnMessage, which takes it or, once the channel is closing, may throw it away. Local: anything
    else at the receiver.
   */
  datatype LinkEvent = WriterTakes | Send(data: seq<byte>, sent: nat) | Deliver | Discard | Local(e: Event)

  function FreshLink(announces: bool): Link {
    Link([], [], [], Start(announces), false)
  }

  /** The messages of a Write that was stopped after `sent` batches. */
  function Sent(data: seq<byte>, sent: nat): seq<seq<byte>> {
    Chunks(data)[..Min(sent, |Chunks(data)|)]
  }

  function LinkNext(l: Link, le: LinkEvent): Link {
    match le
    case WriterTakes => l.(starts := l.starts + [|l.written|])
    case Send(data, sent) => l.(written := l.written + Flatten(Sent(data, sent)), flight := l.flight + Sent(data, sent))
    case Deliver =>
      if l.flight == [] || !Enabled(l.rx.ch, Message(l.flight[0])) then l
      else l.(flight := l.flight[1..], rx := Next(l.rx, Message(l.flight[0])))
    case Discard =>
      if l.flight == [] || !Enabled(l.rx.ch, Ignore(l.flight[0])) then l
      else l.(flight := l.flight[1..], lost := true)
    case Local(e) => if e.Message? || e.Ignore? then l else l.(rx := Next(l.rx, e))
  }

  function LinkRun(l: Link, es: seq<LinkEvent>): Link
    decreases |es|
  {
    if es == [] then l else LinkNext(LinkRun(l, es[..|es| - 1]), es[|es| - 1])
  }

  ghost predicate LinkInv(l: Link) {
    && Inv(l.rx)
    && GoodBatches(l.flight)
    && (l.rx.ch.handler.Announcing? ==> l.rx.ch.handler.msg != [])
    && (!l.lost ==> l.written == l.rx.log.delivered + Flatten(l.flight))
    && (l.lost ==> l.rx.ch.closing)
  }

  lemma LinkHasInv(l: Link)
    requires LinkInv(l)
    ensures Inv(l.rx)
  {
  }

  lemma DeliveredGrows(s: Sys, e: Event)
    ensures Next(s, e).log.delivered == s.log.delivered + Brought(s.ch, e)
    ensures s.ch.closing ==> Next(s, e).ch.closing
    ensures Next(s, e).ch.handler.Announcing? && Next(s, e).ch.handler != s.ch.handler ==>
              e.Message? && Next(s, e).ch.handler.msg == e.data
  {
    hide Fetch;
  }

  lemma SendKeeps(l: Link, data: seq<byte>, sent: nat)
    requires LinkInv(l)
    ensures LinkInv(LinkNext(l, Send(data, sent)))
  {
    hide Inv, Sent, Flatten;
    SentIsGood(data, sent);
    FlattenAppend(l.flight, Sent(data, sent));
  }

  lemma SentIsGood(data: seq<byte>, sent: nat)
    ensures GoodBatches(Sent(data, sent))
  {
    ChunksShape(data);
    hide Chunks;
  }

  lemma ReceiveKeeps(l: Link, e: Event, flight: seq<seq<byte>>)
    requires LinkInv(l) && GoodBatches(flight) && (e.Message? ==> e.data != [])
    requires Flatten(l.flight) == Brought(l.rx.ch, e) + Flatten(flight)
    ensures LinkInv(l.(flight := flight, rx := Next(l.rx, e)))
  {
    hide Next, Inv, Flatten, Brought, GoodBatches;
    NextKeeps(l.rx, e);
    DeliveredGrows(l.rx, e);
    assert (l.rx.log.delivered + Brought(l.rx.ch, e)) + Flatten(flight)
        == l.rx.log.delivered + (Brought(l.rx.ch, e) + Flatten(flight));
  }

  lemma LinkNextKeeps(l: Link, le: LinkEvent)
    requires LinkInv(l)
    ensures LinkInv(LinkNext(l, le))
  {
    hide Next, Inv;
    match le
    case WriterTakes =>
    case Send(data, sent) => SendKeeps(l, data, sent);
    case Deliver =>
      if l.flight != [] && Enabled(l.rx.ch, Message(l.flight[0])) {
        assert Flatten(l.flight) == l.flight[0] + Flatten(l.flight[1..]);
        ReceiveKeeps(l, Message(l.flight[0]), l.flight[1..]);
      }
    case Discard =>
    case Local(e) =>
      if !e.Message? {
        ReceiveKeeps(l, e, l.flight);
      }
  }

  lemma {:induction false} LinkRunKeeps(l: Link, es: seq<LinkEvent>)
    requires LinkInv(l)
    ensures LinkInv(LinkRun(l, es))
    decreases |es|
  {
    hide LinkNext, LinkInv;
    if es != [] {
      LinkRunKeeps(l, es[..|es| - 1]);
      LinkNextKeeps(LinkRun(l, es[..|es| - 1]), es[|es| - 1]);
    }
  }

  lemma FreshLinkInv(announces: bool)
    ensures LinkInv(FreshLink(announces))
  {
    StartInv(announces);
  }

  // ---------- Runs ----------

  lemma {:induction false} LinkRunAppend(l: Link, a: seq<LinkEvent>, b: seq<LinkEvent>)
    ensures LinkRun(l, a + b) == LinkRun(LinkRun(l, a), b)
    decreases |b|
  {
    hide LinkNext;
    if b == [] {
      assert a + b == a;
    } else {
      assert (a + b)[..|a + b| - 1] == a + b[..|b| - 1];
      LinkRunAppend(l, a, b[..|b| - 1]);
    }
  }

  lemma LinkRunOne(l: Link, le: LinkEvent, es: seq<LinkEvent>)
    ensures LinkRun(l, [le] + es) == LinkRun(LinkNext(l, le), es)
  {
    hide LinkNext;
    assert [le][..0] == [];
    assert LinkRun(l, [le]) == LinkNext(l, le);
    LinkRunAppend(l, [le], es);
  }

  lemma LinkRunFive(l: Link, a: LinkEvent, b: LinkEvent, c: LinkEvent, d: LinkEvent, e: LinkEvent)
    ensures LinkRun(l, [a, b, c, d, e]) == LinkNext(LinkNext(LinkNext(LinkNext(LinkNext(l, a), b), c), d), e)
  {
    hide LinkNext;
    assert [a, b, c, d, e] == [a] + [b, c, d, e] && [b, c, d, e] == [b] + [c, d, e];
    assert [c, d, e] == [c] + [d, e] && [d, e] == [d] + [e] && [e] == [e] + [];
    LinkRunOne(l, a, [b, c, d, e]);
    LinkRunOne(LinkNext(l, a), b, [c, d, e]);
    LinkRunOne(LinkNext(LinkNext(l, a), b), c, [d, e]);
    LinkRunOne(LinkNext(LinkNext(LinkNext(l, a), b), c), d, [e]);
    LinkRunOne(LinkNext(LinkNext(LinkNext(LinkNext(l, a), b), c), d), e, []);
  }

  /** A one-byte Write is one message. */
  lemma SendOne(l: Link, y: byte)
    ensures LinkNext(l, Send([y], 1)) == l.(written := l.written + [y], flight := l.flight + [[y]])
  {
    var b: seq<byte> := [y];
    assert b[..1] == b && Chunks(b[1..]) == [];
    assert Chunks(b) == [b] && Chunks(b)[..1] == [b];
    FlattenOne(b);
  }

  /** And one batch. */
  lemma OneByteQueued(s: Sys, y: byte)
    requires s.ch.readers > 0 && s.ch.handler == Pushing([y], s.ch.readers - 1)
    requires !s.ch.panicked && !s.ch.rd.closed && s.ch.rd.queue == []
    ensures var t := Next(s, Push); t.ch == s.ch.(rd := s.ch.rd.(queue := [[y]]), handler := Ready) && t.log == s.log
  {
    assert [y][..1] == [y];
  }

  // ---------- Conservation ----------

  /** The payload of all leases before the current one. */
  function Base(s: Sys): seq<byte> {
    if s.log.leases == [] then [] else AllAccepted(s.log.leases[..|s.log.leases| - 1])
  }

  /** The earlier leases' payload is settled. */
  lemma BaseStays(s: Sys, e: Event)
    requires |s.log.leases| == s.ch.readers > 0 && Next(s, e).ch.readers == s.ch.readers
    ensures Base(Next(s, e)) == Base(s)
  {
    hide Fetch, AllAccepted;
    var ls, ms := s.log.leases, Next(s, e).log.leases;
    assert |ms| == |ls|;
    AllAcceptedSame(ls[..|ls| - 1], ms[..|ms| - 1]);
  }

  lemma InvCounts(s: Sys)
    requires Inv(s)
    ensures |s.log.leases| == s.ch.readers && GoodReader(s.ch.rd)
  {
  }

  /** To the byte, for the current lease of any number: earlier leases, read, held, announced, in flight. */
  lemma AnyLease(l: Link)
    requires LinkInv(l) && l.rx.ch.readers > 0 && !l.lost
    ensures l.written == Base(l.rx) + LastLease(l.rx).read + Held(l.rx.ch) + Unassigned(l.rx.ch.handler) + Flatten(l.flight)
  {
    hide Shape, Announced, Held, Unassigned, Flatten;
    var ls := l.rx.log.leases;
    assert AllAccepted(ls) == Base(l.rx) + ls[|ls| - 1].accepted;
    assert ls[|ls| - 1].accepted == LastLease(l.rx).read + Held(l.rx.ch);
  }

  /**
    End-to-end conservation over every run: what was written is, in order, what each lease accepted,
    then the message at the accept queue, then what is in flight; and each lease has read a prefix of
    its own part.
   */
  lemma StreamConserved(announces: bool, es: seq<LinkEvent>)
    ensures var l := LinkRun(FreshLink(announces), es);
            && (l.rx.ch.readers > 0 && !l.lost ==>
                  l.written == AllAccepted(l.rx.log.leases) + Unassigned(l.rx.ch.handler) + Flatten(l.flight))
            && (l.lost ==> l.rx.ch.closing)
            && (forall k :: 0 <= k < |l.rx.log.leases| ==> l.rx.log.leases[k].read <= l.rx.log.leases[k].accepted)
  {
    hide LinkRun, Held, Shape, Announced, Flatten, AllAccepted, Unassigned;
    FreshLinkInv(announces);
    LinkRunKeeps(FreshLink(announces), es);
  }

  // ---------- Fidelity ----------

  /** What the current lease has read follows, in what was written, right after the earlier leases' payload. */
  ghost predicate InOrder(l: Link) {
    LastLease(l.rx).read == [] || Base(l.rx) + LastLease(l.rx).read <= l.written
  }

  /** Fidelity of every lease, as long as no message was thrown away. */
  lemma StreamFidelity(announces: bool, es: seq<LinkEvent>)
    ensures var l := LinkRun(FreshLink(announces), es);
            !l.lost ==> InOrder(l) && (l.rx.ch.readers > 0 ==> Base(l.rx) + LastLease(l.rx).read <= l.written)
  {
    hide LinkRun, LinkInv, InOrder;
    FreshLinkInv(announces);
    LinkRunKeeps(FreshLink(announces), es);
    if !LinkRun(FreshLink(announces), es).lost {
      OrderHolds(LinkRun(FreshLink(announces), es));
    }
  }

  lemma OrderHolds(l: Link)
    requires LinkInv(l) && !l.lost
    ensures InOrder(l) && (l.rx.ch.readers > 0 ==> Base(l.rx) + LastLease(l.rx).read <= l.written)
  {
    hide Held, Unassigned, Flatten, Base, Shape, Announced, Books;
    if l.rx.ch.readers > 0 {
      AnyLease(l);
    }
  }

  /** All messages are delivered and queued and the channel is not closing. */
  ghost predicate Settled(l: Link) {
    l.rx.ch.readers > 0 && l.flight == [] && l.rx.ch.handler.Ready? && !l.rx.ch.closing
  }

  /** Exactness in every lease: once all is delivered and queued and a Read reports the end, all was read. */
  lemma StreamExact(announces: bool, es: seq<LinkEvent>, e: Event)
    ensures var l := LinkRun(FreshLink(announces), es);
            Settled(l) && Out(l.rx.ch, e) == Eof ==> l.written == Base(l.rx) + LastLease(l.rx).read
  {
    hide LinkRun, LinkInv, Out, Settled;
    var l := LinkRun(FreshLink(announces), es);
    FreshLinkInv(announces);
    LinkRunKeeps(FreshLink(announces), es);
    if Settled(l) && Out(l.rx.ch, e) == Eof {
      ExactAtEof(l, e);
    }
  }

  lemma ExactAtEof(l: Link, e: Event)
    requires LinkInv(l) && Settled(l) && Out(l.rx.ch, e) == Eof
    ensures l.written == Base(l.rx) + LastLease(l.rx).read
  {
    hide Inv, Out, Base, LastLease, Flatten;
    AnyLease(l);
    EofHoldsNothing(l.rx, e);
    assert Flatten([]) == [] by { NothingFlat([]); }
  }

  lemma EofHoldsNothing(s: Sys, e: Event)
    requires Inv(s) && s.ch.readers > 0 && !s.ch.closing && s.ch.handler.Ready? && Out(s.ch, e) == Eof
    ensures Held(s.ch) == [] && Unassigned(s.ch.handler) == []
  {
    if e.Read? {
      ReadTakesFront(s.ch, e.n);
    } else {
      WakeTakesFront(s.ch.rd, s.ch.rd.waiting.value);
    }
  }
}
