/** The port forwarder's framing: a two-byte header, then the payload, on one lease of a channel's many. */
module Proxy {
  import opened Streams
  import opened Options
  import opened ChannelModel
  import opened ChannelProofs
  import opened ChannelTheorems
  import opened Transport

  type uint16 = x: int | 0 <= x < 65536

  /** binary.BigEndian.PutUint16 into a new two-byte slice. */
  function PutUint16(port: uint16): seq<byte> {
    [port / 256, port % 256]
  }

  function Uint16(header: seq<byte>): int
    requires |header| == 2
  {
    (header[0] as int) * 256 + header[1] as int
  }

  lemma HeaderRoundTrip(port: uint16)
    ensures |PutUint16(port)| == 2 && Uint16(PutUint16(port)) == port
    ensures (PutUint16(port)[0] as int) * 256 + PutUint16(port)[1] as int == port
  {
  }

  datatype Serve = Dial(port: uint16) | HeaderError | PortError | ReadError

  /** ServeConn's branches on what its one two-byte Read returned. */
  function ServeConn(o: Output): (r: Serve) {
    if !o.Data? then ReadError
    else if |o.bytes| != 2 then HeaderError
    else if Uint16(o.bytes) == 0 then PortError
    else Dial(Uint16(o.bytes))
  }

  /**
    What ServeConn does, for whatever its Read returned: it dials exactly for two bytes that are not both
    zero, and then the port they spell, high byte first; a Read without data is its error.
   */
  lemma ServeDialsExactlyWhen(o: Output)
    ensures ServeConn(o).Dial? <==> o.Data? && |o.bytes| == 2 && o.bytes != [0, 0]
    ensures ServeConn(o).Dial? ==> ServeConn(o).port == (o.bytes[0] as int) * 256 + o.bytes[1] as int
    ensures ServeConn(o) == ReadError <==> !o.Data?
    ensures ServeConn(o) == HeaderError <==> o.Data? && |o.bytes| != 2
    ensures ServeConn(o) == PortError <==> o == Data([0, 0])
  {
    if o.Data? && |o.bytes| == 2 {
      assert o.bytes == [o.bytes[0], o.bytes[1]];
    }
  }

  /** The sending side: the header slice is filled in place before it is written. */
  method FillHeader(header: array<byte>, remotePort: uint16)
    requires header.Length == 2
    modifies header
    ensures header[..] == PutUint16(remotePort)
    ensures (header[0] as int) * 256 + header[1] as int == remotePort
  {
    header[0] := remotePort / 256;
    header[1] := remotePort % 256;
  }

  /** The receiving side: a two-byte slice and what Read returned for it decide as ServeConn does. */
  method ServeHeader(header: array<byte>, n: nat, failed: bool) returns (r: Serve)
    requires header.Length == 2 && n <= 2
    ensures r == ServeConn(if failed then Eof else Data(header[..n]))
    ensures failed ==> r == ReadError
    ensures !failed && n != 2 ==> r == HeaderError
    ensures !failed && n == 2 ==>
      var port := (header[0] as int) * 256 + header[1] as int; r == if port == 0 then PortError else Dial(port)
  {
    if failed {
      return ReadError;
    }
    if n != 2 {
      return HeaderError;
    }
    var port := (header[0] as int) * 256 + header[1] as int;
    if port == 0 {
      return PortError;
    }
    return Dial(port);
  }

  /** The batch the callback is carrying; messages are cut by Write, so each is one batch. */
  function Passing(h: Handler): seq<seq<byte>> {
    match h
    case Ready => []
    case Announcing(msg, _) => [msg]
    case Pushing(rest, _) => [rest]
  }

  predicate Small(h: Handler) {
    match h
    case Ready => true
    case Announcing(msg, _) => 0 < |msg| <= BATCH
    case Pushing(rest, _) => 0 < |rest| <= BATCH
  }

  /** The batches on their way to the reader, first to arrive first. */
  function Coming(l: Link): seq<seq<byte>> {
    l.rx.ch.rd.queue + Passing(l.rx.ch.handler) + l.flight
  }

  /**
    Before lease number r is taken the header is the next message; in it, as long as nothing has been
    read, the header is the next batch, by itself. The only Read that may wait is one for two bytes.
   */
  ghost predicate HeaderNext(l: Link, header: seq<byte>, r: nat) {
    && LinkInv(l) && Small(l.rx.ch.handler)
    && r <= l.rx.ch.readers <= r + 1
    && (l.rx.ch.readers == r ==> l.rx.ch.panicked || l.lost || NotTaken(l, header))
    && (l.rx.ch.readers == r + 1 ==>
          && Untouched(l.rx)
          && (l.rx.ch.panicked || l.lost || (Coming(l) != [] && Coming(l)[0] == header)))
  }

  predicate NotTaken(l: Link, header: seq<byte>) {
    l.rx.ch.status == Closed
    || (l.rx.ch.status == Idle && l.rx.ch.handler.Ready? && l.flight != [] && l.flight[0] == header)
  }

  predicate Untouched(s: Sys) {
    s.ch.rd.buffered == [] && (s.ch.rd.waiting.Some? ==> s.ch.rd.waiting == Some(2)) && LastLease(s).read == []
  }

  /** Lease r is asked for nothing but two bytes, and gives nothing. */
  predicate GivesNothing(l: Link, le: LinkEvent, r: nat) {
    le.Local? && IsFetch(le.e) && l.rx.ch.readers == r + 1 ==>
      (le.e == Read(2) || le.e == Resume) && !Out(l.rx.ch, le.e).Data?
  }

  // ---------- Steps of the receiver ----------

  /** Without bytes read, a receiver event moves batches forward and changes neither their order nor their cut. */
  lemma ReceiverMoves(s: Sys, e: Event)
    requires Inv(s) && s.ch.readers > 0 && Next(s, e).ch.readers == s.ch.readers && !IsFetch(e) && !e.Message?
    requires Small(s.ch.handler) && Untouched(s)
    ensures var d := Next(s, e).ch;
            && Untouched(Next(s, e)) && Small(d.handler)
            && (d.panicked || d.rd.queue + Passing(d.handler) == s.ch.rd.queue + Passing(s.ch.handler))
  {
    hide Books, Announced, AllAccepted, Fetch;
    LeaseStepRead(s, e);
    if e.Push? && s.ch.handler.Pushing? {
      SmallPush(s.ch);
    }
    hide Observe, LastLease, PushBatch;
  }

  lemma SmallPush(c: Chan)
    requires Shape(c) && c.handler.Pushing? && Small(c.handler)
    ensures var d := PushBatch(c);
            && d == c.(rd := c.rd.(queue := d.rd.queue), handler := d.handler, panicked := d.panicked) && Small(d.handler)
            && (d.panicked || d.rd.queue + Passing(d.handler) == c.rd.queue + Passing(c.handler))
  {
    var rest := c.handler.rest;
    assert rest[..|rest|] == rest;
    assert (c.rd.queue + [rest]) + [] == c.rd.queue + [rest];
  }

  /** A fetch that gives nothing leaves everything but the waiting Read. */
  lemma EmptyHanded(s: Sys, e: Event)
    requires Inv(s) && s.ch.readers > 0 && Untouched(s) && (e == Read(2) || e == Resume) && !Out(s.ch, e).Data?
    ensures var d := Next(s, e).ch;
            d.rd.queue == s.ch.rd.queue && d.handler == s.ch.handler && d.readers == s.ch.readers && Untouched(Next(s, e))
  {
    hide Books, Announced, AllAccepted;
    if Enabled(s.ch, e) {
      if e.Read? {
        ReadTakesFront(s.ch, 2);
      } else {
        WakeTakesFront(s.ch.rd, 2);
      }
    }
    hide ChanRead, Wake;
  }

  lemma ReceiverTakes(s: Sys, data: seq<byte>)
    requires Inv(s) && Enabled(s.ch, Message(data)) && 0 < |data| <= BATCH
    requires s.ch.readers > 0 && Untouched(s) && Next(s, Message(data)).ch.readers == s.ch.readers
    ensures var d := Next(s, Message(data)).ch;
            && Untouched(Next(s, Message(data))) && Small(d.handler)
            && (d.panicked || d.rd.queue + Passing(d.handler) == s.ch.rd.queue + [data])
  {
    hide Books, Announced, AllAccepted;
    LeaseStepRead(s, Message(data));
    hide Observe, LastLease;
  }

  /** The event that takes lease r: it starts with an empty queue and, if that event is a message, with that message. */
  lemma ReceiverOpens(s: Sys, e: Event)
    requires Inv(s) && Next(s, e).ch.readers == s.ch.readers + 1
    requires Small(s.ch.handler) && (e.Message? ==> 0 < |e.data| <= BATCH)
    ensures var d := Next(s, e).ch;
            && Untouched(Next(s, e)) && Small(d.handler) && d.rd.queue == []
            && Passing(d.handler) == (if e.Message? then [e.data] else Passing(s.ch.handler))
  {
    hide Shape, Books, Announced, AllAccepted, Fetch;
    TakeOpens(s, e);
    hide Observe, LastLease;
  }

  /** Before it is taken, an idle or closed channel stays as it is. */
  lemma StaysUntaken(s: Sys, e: Event)
    requires Inv(s) && Next(s, e).ch.readers == s.ch.readers && !e.Message? && Small(s.ch.handler)
    ensures var d := Next(s, e).ch;
            && Small(d.handler) && (s.ch.status == Closed ==> d.status == Closed)
            && (s.ch.status == Idle && s.ch.handler.Ready? ==> d.handler.Ready? && (d.status == Idle || d.status == Closed))
            && (s.ch.panicked ==> d.panicked)
  {
    hide Books, Announced, AllAccepted, Fetch, Observe, GoodReader;
    if e.Push? && s.ch.handler.Pushing? {
      SmallPush(s.ch);
    }
  }

  lemma ClosedTakes(s: Sys, data: seq<byte>)
    requires Enabled(s.ch, Message(data)) && Next(s, Message(data)).ch.readers == s.ch.readers && 0 < |data| <= BATCH
    ensures var d := Next(s, Message(data)).ch; s.ch.status != Idle && Small(d.handler) && d.status == s.ch.status
  {
    hide Observe;
  }

  // ---------- Steps of the link ----------

  lemma HeaderDelivers(l: Link, header: seq<byte>, r: nat)
    requires HeaderNext(l, header, r) && LinkNext(l, Deliver).rx.ch.readers <= r + 1
    ensures HeaderNext(LinkNext(l, Deliver), header, r)
  {
    hide Next, Inv, Untouched;
    LinkNextKeeps(l, Deliver);
    if l.flight != [] && Enabled(l.rx.ch, Message(l.flight[0])) {
      var s, data := l.rx, l.flight[0];
      ReadersGrow(s, Message(data));
      if Next(s, Message(data)).ch.readers == s.ch.readers + 1 {
        ReceiverOpens(s, Message(data));
        OpensIdle(s, Message(data));
      } else {
        ClosedTakes(s, data);
        if s.ch.readers == r + 1 {
          ReceiverTakes(s, data);
          assert Coming(l) == s.ch.rd.queue + [data] + l.flight[1..];
        }
      }
    }
  }

  lemma OpensIdle(s: Sys, e: Event)
    requires Next(s, e).ch.readers == s.ch.readers + 1
    ensures s.ch.status == Idle && !s.ch.panicked
  {
    hide Observe, Fetch;
  }

  lemma HeaderLocal(l: Link, e: Event, header: seq<byte>, r: nat)
    requires HeaderNext(l, header, r) && !e.Message? && !e.Ignore?
    requires GivesNothing(l, Local(e), r) && LinkNext(l, Local(e)).rx.ch.readers <= r + 1
    ensures HeaderNext(LinkNext(l, Local(e)), header, r)
  {
    hide Next, Inv, Untouched, Out, Small;
    var m, s := LinkNext(l, Local(e)), l.rx;
    assert LinkInv(m) by { LinkNextKeeps(l, Local(e)); }
    assert m.rx == Next(s, e) && m == l.(rx := m.rx);
    hide LinkInv, LinkNext;
    assert Inv(s) by { LinkHasInv(l); }
    ReadersGrow(s, e);
    if m.rx.ch.readers == s.ch.readers + 1 {
      ReceiverOpens(s, e);
      OpensIdle(s, e);
      if s.ch.handler.Ready? {
        assert Passing(s.ch.handler) == [];
        assert Coming(m) == l.flight;
      }
    } else if s.ch.readers == r + 1 {
      StaysUntaken(s, e);
      if IsFetch(e) { EmptyHanded(s, e); } else { ReceiverMoves(s, e); }
    } else {
      StaysUntaken(s, e);
    }
  }

  lemma HeaderStays(l: Link, le: LinkEvent, header: seq<byte>, r: nat)
    requires HeaderNext(l, header, r) && GivesNothing(l, le, r) && LinkNext(l, le).rx.ch.readers <= r + 1
    ensures HeaderNext(LinkNext(l, le), header, r)
  {
    hide Next, Inv, Untouched, Out;
    LinkNextKeeps(l, le);
    match le
    case WriterTakes =>
    case Send(data, sent) => assert Coming(LinkNext(l, le)) == Coming(l) + Sent(data, sent);
    case Discard =>
    case Deliver => HeaderDelivers(l, header, r);
    case Local(e) => if !e.Message? && !e.Ignore? { HeaderLocal(l, e, header, r); }
  }

  // ---------- Runs ----------

  /** Until now lease r has been asked for two bytes at a time and has given nothing. */
  predicate NothingRead(l: Link, es: seq<LinkEvent>, r: nat)
    decreases |es|
  {
    es == [] || (NothingRead(l, es[..|es| - 1], r) && GivesNothing(LinkRun(l, es[..|es| - 1]), es[|es| - 1], r))
  }

  /** A channel between leases, the first one included: nothing in flight, nothing in the callback. */
  ghost predicate Rested(l: Link) {
    LinkInv(l) && !l.lost && !l.rx.ch.panicked && l.flight == [] && l.rx.ch.handler.Ready? && l.rx.ch.status == Idle
  }

  /** runForward after Dial: the header goes out as the first write of the lease. */
  function Forwarding(l: Link, port: uint16): Link {
    LinkNext(l, Send(PutUint16(port), 1))
  }

  lemma HeaderIsOneMessage(port: uint16)
    ensures Sent(PutUint16(port), 1) == [PutUint16(port)] && Flatten(Sent(PutUint16(port), 1)) == PutUint16(port)
  {
    var header := PutUint16(port);
    assert header[..2] == header && header[2..] == [];
    assert Chunks(header) == [header] + Chunks([]);
    FlattenOne(header);
  }

  lemma ForwardingStarts(l: Link, port: uint16)
    requires Rested(l)
    ensures HeaderNext(Forwarding(l, port), PutUint16(port), l.rx.ch.readers)
    ensures Forwarding(l, port) == l.(written := l.written + PutUint16(port), flight := [PutUint16(port)])
  {
    hide Inv, Sent, Flatten;
    HeaderIsOneMessage(port);
    LinkNextKeeps(l, Send(PutUint16(port), 1));
  }

  lemma LinkReadersGrow(l: Link, le: LinkEvent)
    ensures l.rx.ch.readers <= LinkNext(l, le).rx.ch.readers
  {
    hide Next;
    match le
    case Deliver => if l.flight != [] { ReadersGrow(l.rx, Message(l.flight[0])); }
    case Local(e) => ReadersGrow(l.rx, e);
    case _ =>
  }

  lemma {:induction false} HeaderWaits(l: Link, es: seq<LinkEvent>, header: seq<byte>, r: nat)
    requires HeaderNext(l, header, r) && NothingRead(l, es, r) && LinkRun(l, es).rx.ch.readers <= r + 1
    ensures HeaderNext(LinkRun(l, es), header, r)
    decreases |es|
  {
    hide LinkNext, HeaderNext, GivesNothing;
    if es != [] {
      var m := LinkRun(l, es[..|es| - 1]);
      LinkReadersGrow(m, es[|es| - 1]);
      HeaderWaits(l, es[..|es| - 1], header, r);
      HeaderStays(m, es[|es| - 1], header, r);
    }
  }

  /** Once the channel is closing, a new Read is given nothing that is not in the buffer. */
  lemma HeaderRead(l: Link, header: seq<byte>, r: nat, e: Event)
    requires HeaderNext(l, header, r) && |header| == 2 && l.rx.ch.readers == r + 1
    requires (e == Read(2) || (e == Resume && !l.lost)) && Out(l.rx.ch, e).Data?
    ensures Out(l.rx.ch, e) == Data(header)
  {
    var c := l.rx.ch;
    assert c.rd.queue != [] && !l.lost;
    assert Coming(l)[0] == c.rd.queue[0];
    assert header[..2] == header;
  }

  /**
    Framing, in every lease: the header is written when the channel rests; whatever else is written,
    delivered and done to the receiver, its first two-byte Read of the lease, if it returns data at
    once or after a wait, returns exactly the header, and ServeConn dials exactly the port that was
    sent, refusing port 0 alone. Only a Read that waits while the header is thrown away may differ.
   */
  lemma FirstReadIsHeader(l: Link, port: uint16, es: seq<LinkEvent>, e: Event)
    requires Rested(l) && NothingRead(Forwarding(l, port), es, l.rx.ch.readers)
    ensures var m := LinkRun(Forwarding(l, port), es);
            m.rx.ch.readers == l.rx.ch.readers + 1 && (e == Read(2) || (e == Resume && !m.lost)) && Out(m.rx.ch, e).Data? ==>
              && Out(m.rx.ch, e) == Data(PutUint16(port))
              && ServeConn(Out(m.rx.ch, e)) == if port == 0 then PortError else Dial(port)
  {
    hide LinkNext, HeaderNext, Out, Rested;
    var m, r := LinkRun(Forwarding(l, port), es), l.rx.ch.readers;
    if m.rx.ch.readers == r + 1 && (e == Read(2) || (e == Resume && !m.lost)) && Out(m.rx.ch, e).Data? {
      ForwardingStarts(l, port);
      HeaderWaits(Forwarding(l, port), es, PutUint16(port), r);
      HeaderRead(m, PutUint16(port), r, e);
      HeaderRoundTrip(port);
    }
  }

  // ---------- The payload ----------

  /** Lease r starts where the stream was when the channel rested. */
  ghost predicate StartsAt(s: Sys, start: seq<byte>, r: nat) {
    && Inv(s) && r <= s.ch.readers
    && (s.ch.readers == r ==>
          s.ch.panicked || s.ch.status == Closed
          || (s.ch.status == Idle && s.ch.handler.Ready? && AllAccepted(s.log.leases) == start))
    && (s.ch.readers == r + 1 ==> Base(s) == start)
  }

  lemma StartKept(s: Sys, e: Event, start: seq<byte>, r: nat)
    requires StartsAt(s, start, r)
    ensures StartsAt(Next(s, e), start, r)
  {
    hide Shape, Books, Announced;
    NextKeeps(s, e);
    ReadersGrow(s, e);
    if s.ch.readers == r {
      if Next(s, e).ch.readers == r + 1 {
        OpensAtEnd(s, e);
      } else {
        UntakenKeeps(s, e);
      }
    } else if s.ch.readers == r + 1 == Next(s, e).ch.readers {
      BaseStays(s, e);
    }
  }

  /** A lease starts where the payload of the earlier ones ends. */
  lemma OpensAtEnd(s: Sys, e: Event)
    requires |s.log.leases| == s.ch.readers && Next(s, e).ch.readers == s.ch.readers + 1
    ensures s.ch.status == Idle && !s.ch.panicked && Base(Next(s, e)) == AllAccepted(s.log.leases)
  {
    hide Fetch, AllAccepted;
    var ms := Next(s, e).log.leases;
    assert ms[..|ms| - 1] == s.log.leases;
  }

  lemma UntakenKeeps(s: Sys, e: Event)
    requires Inv(s) && Next(s, e).ch.readers == s.ch.readers
    ensures s.ch.panicked ==> Next(s, e).ch.panicked
    ensures s.ch.status == Closed ==> Next(s, e).ch.status == Closed
    ensures s.ch.status == Idle && s.ch.handler.Ready? && Next(s, e).ch.status != Closed ==>
              var t := Next(s, e);
              t.ch.status == Idle && t.ch.handler.Ready? && AllAccepted(t.log.leases) == AllAccepted(s.log.leases)
  {
    hide Books, Announced, AllAccepted, Fetch, GoodReader, Past, WakePast;
    if s.ch.status == Idle && s.ch.handler.Ready? && (IsFetch(e) || e.ResumePast?) {
      AllAcceptedSame(s.log.leases, Next(s, e).log.leases);
    }
  }

  lemma {:induction false} StartsRun(l: Link, es: seq<LinkEvent>, start: seq<byte>, r: nat)
    requires StartsAt(l.rx, start, r)
    ensures StartsAt(LinkRun(l, es).rx, start, r)
    decreases |es|
  {
    hide Next, StartsAt;
    if es != [] {
      var m, le := LinkRun(l, es[..|es| - 1]), es[|es| - 1];
      StartsRun(l, es[..|es| - 1], start, r);
      match le
      case Deliver => if m.flight != [] { StartKept(m.rx, Message(m.flight[0]), start, r); }
      case Local(e) => StartKept(m.rx, e, start, r);
      case _ =>
    }
  }

  lemma RestedStarts(l: Link)
    requires Rested(l)
    ensures StartsAt(l.rx, l.written, l.rx.ch.readers)
  {
    hide Shape, Books, Announced;
    assert Flatten(l.flight) == [];
    assert l.written == AllAccepted(l.rx.log.leases);
  }

  /** What has been written stays written. */
  lemma {:induction false} WrittenGrows(l: Link, es: seq<LinkEvent>)
    ensures l.written <= LinkRun(l, es).written
    decreases |es|
  {
    hide Next;
    if es != [] {
      WrittenGrows(l, es[..|es| - 1]);
    }
  }

  /**
    Transparency, in every lease: as long as nothing was thrown away, what the lease has read is a
    prefix of the header followed by the payload, the bytes written after the header, whatever the
    sizes of the writes and reads; and when a Read reports the end of a settled lease it is all of it.
   */
  lemma PayloadIsTransparent(l: Link, port: uint16, es: seq<LinkEvent>, e: Event)
    requires Rested(l) && LinkRun(Forwarding(l, port), es).rx.ch.readers == l.rx.ch.readers + 1
    ensures var m := LinkRun(Forwarding(l, port), es);
            && l.written + PutUint16(port) <= m.written
            && var sent := PutUint16(port) + m.written[|l.written| + 2..];
            && (!m.lost ==> LastLease(m.rx).read <= sent)
            && (Settled(m) && Out(m.rx.ch, e) == Eof ==> LastLease(m.rx).read == sent)
  {
    hide LinkNext, LinkRun, LastLease, Settled, Out, Base, LinkInv;
    var f, m, r := Forwarding(l, port), LinkRun(Forwarding(l, port), es), l.rx.ch.readers;
    ForwardingStarts(l, port);
    RestedStarts(l);
    StartsRun(f, es, l.written, r);
    LinkRunKeeps(f, es);
    WrittenGrows(f, es);
    var sent := PutUint16(port) + m.written[|l.written| + 2..];
    assert m.written == l.written + sent;
    assert Base(m.rx) == l.written;
    if !m.lost {
      OrderHolds(m);
      AfterBase(l.written, LastLease(m.rx).read, sent);
    }
    if Settled(m) && Out(m.rx.ch, e) == Eof {
      ExactAtEof(m, e);
      AfterBase(l.written, LastLease(m.rx).read, sent);
    }
  }

  lemma AfterBase(base: seq<byte>, read: seq<byte>, sent: seq<byte>)
    requires base + read <= base + sent
    ensures read <= sent && (base + read == base + sent ==> read == sent)
  {
    assert (base + read)[|base|..] == read && (base + sent)[|base|..] == sent;
    assert (base + sent)[..|base| + |read|] == base + sent[..|read|];
  }
}
