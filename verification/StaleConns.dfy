/** What connections can still do to a channel that they no longer hold: Release is guarded, Read and Write are not. */
module StaleConns {
  import opened Streams
  import opened Options
  import opened ChannelModel
  import opened ChannelProofs
  import opened ChannelTheorems
  import opened Transport
  import opened LeaseWorld

  // ---------- Reading ----------

  /** The lease that a connection's Read, or its waiting Read, reads from: it need not be its own. */
  function LeaseRead(w: World, we: WorldEvent): nat
    requires (we.ConnRead? || we.ConnResume?) && we.i < |w.conns| && w.conns[we.i].ch < |w.chans|
  {
    if we.ConnRead? then Current(w.chans[w.conns[we.i].ch].ch) else we.k
  }

  predicate HasBytes(r: Reader) {
    r.buffered != [] || r.queue != []
  }

  /** The reader of lease k. */
  function ReaderOf(c: Chan, k: nat): Reader
    requires k < c.readers && |c.past| == c.readers - 1
  {
    if k + 1 == c.readers then c.rd else c.past[k]
  }

  /**
    Whether it will return a byte. A Read: none is waiting, it asks for some, and there is something
    to be had, in the buffer alone once the channel is closing. A waiting Read: its queue is not empty.
   */
  predicate WillReturn(w: World, we: WorldEvent)
    requires (we.ConnRead? || we.ConnResume?) && we.i < |w.conns| && w.conns[we.i].ch < |w.chans|
  {
    var c := w.chans[w.conns[we.i].ch].ch;
    !c.panicked && c.readers > 0 && |c.past| == c.readers - 1
    && if we.ConnRead? then
         c.rd.waiting.None? && we.n > 0 && (if c.closing then c.rd.buffered != [] else HasBytes(c.rd))
       else
         Waits(w, we.i, we.k) && we.k < c.readers && ReaderOf(c, we.k).waiting.Some? && ReaderOf(c, we.k).queue != []
  }

  /** Bytes of lease k of a channel have been read. */
  predicate ReadFrom(w: World, v: World, ch: nat, k: nat) {
    && ch < |w.chans| && ch < |v.chans| && k < |w.chans[ch].log.leases| && k < |v.chans[ch].log.leases|
    && v.chans[ch].log.leases[k].read != w.chans[ch].log.leases[k].read
  }

  lemma StoresBytes(r: Reader)
    requires GoodReader(r)
    ensures Stored(r) != [] <==> HasBytes(r)
  {
    NothingFlat(r.queue);
  }

  /** When a Read returns a byte, in terms of the state. */
  lemma ReadGives(c: Chan, n: nat)
    requires Shape(c) && c.readers > 0 && c.rd.waiting.None?
    ensures var o := ChanRead(c, n).1;
            o.Data? && o.bytes != [] <==> n > 0 && (if c.closing then c.rd.buffered != [] else HasBytes(c.rd))
  {
    hide ChanRead, HasBytes;
    ReadTakesFront(c, n);
    ClosingReads(c, n);
    StoresBytes(c.rd);
    if c.rd.buffered != [] {
      Buffered(c.rd);
    }
    hide Stored, GoodReader;
  }

  lemma Buffered(r: Reader)
    requires r.buffered != []
    ensures HasBytes(r)
  {
  }

  lemma ReadLogs(s: Sys, n: nat, j: nat)
    requires j < |s.log.leases|
    ensures |Next(s, Read(n)).log.leases| == |s.log.leases|
    ensures Next(s, Read(n)).log.leases[j].read != s.log.leases[j].read <==>
              j + 1 == |s.log.leases| && Out(s.ch, Read(n)).Data? && Out(s.ch, Read(n)).bytes != []
  {
    hide Step, Fetch;
  }

  /** A Read reads from the current lease, and from it alone, exactly when it has bytes for it. */
  lemma ReadRecords(s: Sys, n: nat, j: nat)
    requires Inv(s) && j < s.ch.readers
    ensures |Next(s, Read(n)).log.leases| == |s.log.leases| == s.ch.readers && |s.ch.past| == s.ch.readers - 1
    ensures Next(s, Read(n)).log.leases[j].read != s.log.leases[j].read <==>
              && j + 1 == s.ch.readers && !s.ch.panicked && s.ch.rd.waiting.None? && n > 0
              && (if s.ch.closing then s.ch.rd.buffered != [] else HasBytes(s.ch.rd))
  {
    hide Books, Announced, AllAccepted, ChanRead, HasBytes, Next, Stored, GoodReader;
    if Enabled(s.ch, Read(n)) {
      ReadGives(s.ch, n);
    }
    ReadLogs(s, n, j);
  }

  lemma ClosingReads(c: Chan, n: nat)
    requires Shape(c) && c.readers > 0 && c.rd.waiting.None?
    ensures c.closing && ChanRead(c, n).1.Data? ==> c.rd.buffered != []
    ensures ChanRead(c, n).1.Data? && n == 0 ==> ChanRead(c, n).1.bytes == []
  {
    hide GoodReader;
  }

  /** A waiting Read of lease k reads from that lease, and from it alone, exactly when its queue has a batch. */
  lemma ResumeRecords(s: Sys, k: nat, j: nat)
    requires Inv(s) && j < s.ch.readers && k < s.ch.readers
    ensures |s.ch.past| == s.ch.readers - 1 && |Next(s, Resumes(s.ch, k)).log.leases| == |s.log.leases| == s.ch.readers
    ensures Next(s, Resumes(s.ch, k)).log.leases[j].read != s.log.leases[j].read <==>
              j == k && !s.ch.panicked && ReaderOf(s.ch, k).waiting.Some? && ReaderOf(s.ch, k).queue != []
  {
    hide Books, Announced, AllAccepted, Wake;
    var r := ReaderOf(s.ch, k);
    if Enabled(s.ch, Resumes(s.ch, k)) {
      WakeTakesFront(r, r.waiting.value);
      NothingFlat(r.queue);
    }
    hide Step, GoodReader;
  }

  /**
    Exactly when a connection reads a byte of a lease that is not its own: the lease its Read reads
    from, the current one or the one it began to wait in, is another, and there is a byte to return. It
    matters neither whether the connection is released nor whether it is closed.
   */
  lemma ForeignReadExactlyWhen(es: seq<WorldEvent>, i: nat, we: WorldEvent)
    requires i < |WorldRun(es).conns| && (we.ConnRead? || we.ConnResume?) && we.i == i
    ensures var w := WorldRun(es); var v := WorldNext(w, we); var c := w.conns[i];
            && c.ch < |w.chans| && c.lease < w.chans[c.ch].ch.readers
            && ((exists ch: nat, k: nat :: ReadFrom(w, v, ch, k) && (ch != c.ch || k != c.lease))
                <==> LeaseRead(w, we) != c.lease && WillReturn(w, we))
  {
    hide WorldRun, WorldNext, WillReturn, ReadFrom, Inv, Holding, Exclusive;
    var w := WorldRun(es);
    ExclusiveLease(es);
    OneOwnerPerLease(es);
    var c, v := w.conns[i], WorldNext(w, we);
    assert Claims(w, Wrapped(i), c.ch);
    assert Inv(w.chans[c.ch]);
    hide WorldInv, Once, Claims;
    forall ch: nat, k: nat
      ensures ReadFrom(w, v, ch, k) <==> ch == c.ch && k == LeaseRead(w, we) && WillReturn(w, we)
    {
      if ch == c.ch {
        ReadFromExactlyWhen(w, we, k);
      } else {
        ReadsOnlyThere(w, we, ch, k);
      }
    }
    assert LeaseRead(w, we) != c.lease && WillReturn(w, we) ==> ReadFrom(w, v, c.ch, LeaseRead(w, we));
  }

  lemma ReadsOnlyThere(w: World, we: WorldEvent, ch: nat, k: nat)
    requires (we.ConnRead? || we.ConnResume?) && we.i < |w.conns| && ch != w.conns[we.i].ch
    ensures !ReadFrom(w, WorldNext(w, we), ch, k)
  {
    hide Next, Out;
  }

  lemma ReadFromExactlyWhen(w: World, we: WorldEvent, k: nat)
    requires (we.ConnRead? || we.ConnResume?) && we.i < |w.conns| && w.conns[we.i].ch < |w.chans|
    requires Inv(w.chans[w.conns[we.i].ch]) && w.chans[w.conns[we.i].ch].ch.readers > 0
    ensures ReadFrom(w, WorldNext(w, we), w.conns[we.i].ch, k) <==> k == LeaseRead(w, we) && WillReturn(w, we)
  {
    hide Inv, Next, Out, HasBytes;
    var s := w.chans[w.conns[we.i].ch];
    InvCounts(s);
    if we.ConnRead? {
      ReadRecords(s, we.n, if k < s.ch.readers then k else 0);
    } else if we.k < s.ch.readers {
      ResumeRecords(s, we.k, if k < s.ch.readers then k else 0);
    } else {
      NoSuchLease(s, we.k);
    }
  }

  lemma NoSuchLease(s: Sys, k: nat)
    requires Inv(s) && k >= s.ch.readers > 0
    ensures Next(s, Resumes(s.ch, k)) == s && |s.ch.past| == s.ch.readers - 1
  {
    hide Core, GoodReader, Stored;
  }

  /** A connection whose channel was taken again has been released. */
  lemma StaleIsReleased(es: seq<WorldEvent>, i: nat)
    requires i < |WorldRun(es).conns|
    ensures var w := WorldRun(es); var c := w.conns[i];
            c.ch < |w.chans| && (c.lease + 1 != w.chans[c.ch].ch.readers ==> c.isRelease)
  {
    ExclusiveLease(es);
    OneOwnerPerLease(es);
    var w := WorldRun(es);
    hide WorldRun, Channels, Exclusive;
    assert Claims(w, Wrapped(i), w.conns[i].ch);
    assert !w.conns[i].isRelease ==> Holds(w, Wrapped(i), w.conns[i].ch);
  }

  /** Every Read that waits, in whichever lease, is some connection's of that channel, which can go on with it. */
  ghost predicate WaitersKnown(w: World) {
    forall ch: nat, k: nat :: IsWaiting(w, ch, k) ==>
      (ch, k) in w.waiters && w.waiters[(ch, k)] < |w.conns| && w.conns[w.waiters[(ch, k)]].ch == ch
  }

  predicate IsWaiting(w: World, ch: nat, k: nat) {
    && ch < |w.chans| && k < w.chans[ch].ch.readers && |w.chans[ch].ch.past| == w.chans[ch].ch.readers - 1
    && ReaderOf(w.chans[ch].ch, k).waiting.Some?
  }

  /** Only a Read that blocks starts a wait, in the current lease. */
  lemma WaitStarts(s: Sys, e: Event, k: nat)
    requires Inv(s) && Inv(Next(s, e)) && k < Next(s, e).ch.readers
    ensures |s.ch.past| == (if s.ch.readers == 0 then 0 else s.ch.readers - 1)
    ensures |Next(s, e).ch.past| == Next(s, e).ch.readers - 1
    ensures ReaderOf(Next(s, e).ch, k).waiting.Some? ==>
              && k < s.ch.readers
              && (ReaderOf(s.ch, k).waiting.Some? || (e.Read? && Out(s.ch, e).Blocked? && k + 1 == s.ch.readers))
  {
    hide Core, Observe, Fetch, WakePast, GoodReader, Stored;
    if Enabled(s.ch, e) && IsFetch(e) {
      assert Shape(s.ch) by { CoreShape(s); }
      WaitOfFetch(s.ch, e);
    }
    ReadersStep(s.ch, e);
  }

  lemma CoreShape(s: Sys)
    requires Core(s)
    ensures Shape(s.ch)
  {
  }

  lemma WaitOfFetch(c: Chan, e: Event)
    requires Shape(c) && Enabled(c, e) && IsFetch(e)
    ensures Fetch(c, e).0.waiting.Some? ==> c.rd.waiting.Some? || (e.Read? && Fetch(c, e).1.Blocked?)
  {
    if e.Read? && c.readers > 0 {
      ReadTakesFront(c, e.n);
    }
  }

  lemma WaitersMove(w: World, we: WorldEvent)
    ensures var v := WorldNext(w, we);
            if we.ConnRead? && we.i < |w.conns| && w.conns[we.i].ch < |w.chans|
               && Out(w.chans[w.conns[we.i].ch].ch, Read(we.n)).Blocked?
            then v.waiters == w.waiters[(w.conns[we.i].ch, Current(w.chans[w.conns[we.i].ch].ch)) := we.i]
            else v.waiters == w.waiters
  {
    hide Next, Out, Flatten, Sent;
  }

  lemma WaitersNext(w: World, we: WorldEvent)
    requires WorldInv(w) && WorldInv(WorldNext(w, we)) && WaitersKnown(w)
    ensures WaitersKnown(WorldNext(w, we))
  {
    hide Next, Inv, Holding, Exclusive, Out, WorldNext;
    var v := WorldNext(w, we);
    ConnsMove(w, we);
    WaitersMove(w, we);
    forall ch: nat, k: nat | IsWaiting(v, ch, k)
      ensures (ch, k) in v.waiters && v.waiters[(ch, k)] < |v.conns| && v.conns[v.waiters[(ch, k)]].ch == ch
    {
      WaiterKept(w, we, ch, k);
    }
  }

  lemma WaiterKept(w: World, we: WorldEvent, ch: nat, k: nat)
    requires Channels(w) && Channels(WorldNext(w, we)) && WaitersKnown(w) && IsWaiting(WorldNext(w, we), ch, k)
    ensures ch < |w.chans|
    ensures IsWaiting(w, ch, k)
            || (k == Current(w.chans[ch].ch) && we.ConnRead? && we.i < |w.conns| && w.conns[we.i].ch == ch
                && Out(w.chans[ch].ch, Read(we.n)).Blocked?)
  {
    hide Next, Inv, Out, WorldNext, WaitersKnown;
    var v := WorldNext(w, we);
    ConnsMove(w, we);
    assert ch < |w.chans|;
    ChannelMoves(w, we, ch);
    var s := w.chans[ch];
    if v.chans[ch] != s {
      WaitStarts(s, EventOf(s.ch, we), k);
    }
  }

  /** Over every run. */
  lemma {:induction false} EveryWaitIsSomeones(es: seq<WorldEvent>)
    ensures WaitersKnown(WorldRun(es))
  {
    hide WorldNext, WorldInv;
    if es != [] {
      EveryWaitIsSomeones(es[..|es| - 1]);
      ExclusiveLease(es[..|es| - 1]);
      ExclusiveLease(es);
      WaitersNext(WorldRun(es[..|es| - 1]), es[|es| - 1]);
    }
  }

  // ---------- Writing ----------

  /** What went out on a channel while lease k was current. */
  function Stream(sent: seq<Wrote>, ch: nat, k: nat): seq<byte> {
    if sent == [] then []
    else
      var last := sent[|sent| - 1];
      Stream(sent[..|sent| - 1], ch, k) + (if last.ch == ch && last.lease == k then last.data else [])
  }

  lemma StreamSnoc(sent: seq<Wrote>, last: Wrote, ch: nat, k: nat)
    ensures Stream(sent + [last], ch, k)
         == Stream(sent, ch, k) + (if last.ch == ch && last.lease == k then last.data else [])
  {
    assert (sent + [last])[..|sent|] == sent;
  }

  lemma SentIsPrefix(data: seq<byte>, batches: nat)
    ensures Flatten(Sent(data, batches)) == data[..Min(batches * BATCH, |data|)]
  {
    ChunksShape(data);
    ChunksPrefix(data, Min(batches, |Chunks(data)|));
    FlattenChunks(data);
    hide Chunks;
    if batches >= |Chunks(data)| {
      assert batches * BATCH >= |data|;
    }
  }

  /**
    Exactly when a connection's bytes enter the stream of a lease that is not its own: it has not been
    closed, which a release alone does not do, the channel has been taken again, and a byte goes out.
   */
  lemma ForeignWriteExactlyWhen(es: seq<WorldEvent>, i: nat, data: seq<byte>, batches: nat)
    requires i < |WorldRun(es).conns|
    ensures var w := WorldRun(es); var v := WorldNext(w, ConnWrite(i, data, batches)); var c := w.conns[i];
            && c.ch < |w.chans|
            && ((exists ch: nat, k: nat :: Stream(v.sent, ch, k) != Stream(w.sent, ch, k) && (ch != c.ch || k != c.lease))
                <==> !c.closed && c.lease + 1 != w.chans[c.ch].ch.readers && data != [] && batches > 0)
  {
    var w := WorldRun(es);
    OneOwnerPerLease(es);
    hide WorldRun, Sent, Flatten, Stream;
    var c, v := w.conns[i], WorldNext(w, ConnWrite(i, data, batches));
    assert Claims(w, Wrapped(i), c.ch);
    hide Once;
    if !c.closed {
      var last := Wrote(c.ch, w.chans[c.ch].ch.readers - 1, i, Flatten(Sent(data, batches)));
      assert v.sent == w.sent + [last];
      SentIsPrefix(data, batches);
      forall ch: nat, k: nat
        ensures Stream(v.sent, ch, k) != Stream(w.sent, ch, k) <==> last.ch == ch && last.lease == k && last.data != []
      {
        StreamSnoc(w.sent, last, ch, k);
        assert last.data != [] ==> |Stream(w.sent, ch, k) + last.data| > |Stream(w.sent, ch, k)|;
      }
      assert last.data != [] <==> data != [] && batches > 0;
      assert last.data != [] ==> Stream(v.sent, c.ch, last.lease) != Stream(w.sent, c.ch, last.lease);
    }
  }

  // ---------- Runs that show it ----------

  /**
    Unlike Release, Read does not ask whether the connection was released: connection 0, released,
    reads the byte that arrived in the lease of connection 1.
   */
  lemma StaleReadStealsFromLaterLease() returns (es: seq<WorldEvent>)
    ensures var w := WorldRun(es);
            && |w.chans| == 1 && w.conns == [ConnState(0, 0, true, false), ConnState(0, 1, false, false)]
            && Out(w.chans[0].ch, Read(1)) == Data([7])
            && WorldNext(w, ConnRead(0, 1)).chans[0].ch.rd == NewReader()
  {
    hide WorldRun;
    es := LeasedTwice();
    ReadsSeven(WorldRun(es));
  }

  lemma ReadsSeven(w: World)
    requires |w.chans| == 1 && w.chans[0].ch == ServedTwice()
    requires w.conns == [ConnState(0, 0, true, false), ConnState(0, 1, false, false)]
    ensures Out(w.chans[0].ch, Read(1)) == Data([7]) && WorldNext(w, ConnRead(0, 1)).chans[0].ch.rd == NewReader()
  {
    hide Observe;
    var b: seq<byte> := [7];
    assert b[..1] == b;
  }

  /** An answering channel in its first lease, with the byte x queued. */
  function Served(x: byte): Chan {
    Chan(true, true, false, Active, 1, NewReader().(queue := [[x]]), [], Ready, false)
  }

  /** Released with the byte unread, and in its second lease. */
  function ServedTwice(): Chan {
    Served(7).(readers := 2, past := [Served(1).rd.(closed := true)])
  }

  /** What a byte does to an idle answering channel: a lease, its announcement, a batch. */
  lemma ByteServed(s: Sys, x: byte)
    requires s.ch.announces && s.ch.up && s.ch.status == Idle && s.ch.handler.Ready? && !s.ch.panicked
    ensures var a := Next(s, Message([x]));
            && a.ch == TakeConn(s.ch).(handler := Announcing([x], s.ch.readers))
            && Next(Next(a, Announce), Push).ch == TakeConn(s.ch).(rd := NewReader().(queue := [[x]]))
            && Enabled(a.ch, Announce)
  {
    hide Observe;
    var b: seq<byte> := [x];
    assert b[..1] == b && [] + [b] == [b];
  }

  /** A byte arrives at the only channel, which is idle and answers; its lease is accepted. */
  lemma Serves(es: seq<WorldEvent>, x: byte) returns (more: seq<WorldEvent>)
    requires var w := WorldRun(es);
             && |w.chans| == 1 && w.accept == []
             && var c := w.chans[0].ch; c.announces && c.up && c.status == Idle && c.handler.Ready? && !c.panicked
    ensures var w, v := WorldRun(es), WorldRun(more);
            && |v.chans| == 1 && v.accept == [] && v.sent == w.sent
            && v.chans[0].ch == TakeConn(w.chans[0].ch).(rd := NewReader().(queue := [[x]]))
            && v.conns == w.conns + [ConnState(0, w.chans[0].ch.readers, false, false)]
  {
    hide Next;
    var w := WorldRun(es);
    ByteServed(w.chans[0], x);
    more := es;
    WorldRunTo(more, Arrive(0, Message([x])));
    more := more + [Arrive(0, Message([x]))];
    WorldRunTo(more, Announces(0));
    more := more + [Announces(0)];
    WorldRunTo(more, Arrive(0, Push));
    more := more + [Arrive(0, Push)];
    WorldRunTo(more, Accepts);
    more := more + [Accepts];
    hide WorldRun;
  }

  /** An answering channel is opened, a byte arrives, its connection is accepted and released, and a second byte arrives. */
  lemma LeasedTwice() returns (es: seq<WorldEvent>)
    ensures var w := WorldRun(es);
            && |w.chans| == 1 && w.sent == []
            && w.chans[0].ch == ServedTwice()
            && w.conns == [ConnState(0, 0, true, false), ConnState(0, 1, false, false)]
  {
    hide Observe;
    es := [];
    WorldRunTo(es, Create(true));
    es := es + [Create(true)];
    WorldRunTo(es, Arrive(0, Open));
    es := es + [Arrive(0, Open)];
    hide WorldRun;
    es := Serves(es, 1);
    var w := WorldRun(es);
    assert w.chans[0].ch == Served(1) && w.conns == [ConnState(0, 0, false, false)];
    WorldRunTo(es, ConnRelease(0));
    es := es + [ConnRelease(0)];
    w := WorldRun(es);
    assert w.chans[0].ch == Served(1).(rd := Served(1).rd.(closed := true), status := Idle);
    hide WorldNext;
    es := Serves(es, 7);
  }

  /** And writes into it. */
  lemma StaleWriteEntersLaterLease() returns (es: seq<WorldEvent>)
    ensures var w := WorldRun(es); var v := WorldNext(w, ConnWrite(0, [7], 1));
            && w.conns == [ConnState(0, 0, true, false), ConnState(0, 1, false, false)]
            && Stream(w.sent, 0, 1) == [] && Stream(v.sent, 0, 1) == [7]
  {
    hide WorldRun, WorldNext;
    es := LeasedTwice();
    WritesSeven(WorldRun(es));
  }

  lemma WritesSeven(w: World)
    requires |w.chans| == 1 && w.chans[0].ch.readers == 2 && w.sent == []
    requires w.conns == [ConnState(0, 0, true, false), ConnState(0, 1, false, false)]
    ensures Stream(w.sent, 0, 1) == [] && Stream(WorldNext(w, ConnWrite(0, [7], 1)).sent, 0, 1) == [7]
  {
    hide Flatten, Sent;
    var b: seq<byte> := [7];
    SentIsPrefix(b, 1);
    assert b[..1] == b && [] + b == b;
    assert WorldNext(w, ConnWrite(0, b, 1)).sent == w.sent + [Wrote(0, 1, 0, b)];
    StreamSnoc(w.sent, Wrote(0, 1, 0, b), 0, 1);
  }

  lemma ArriveOne(w: World, e: Event)
    requires |w.chans| == 1 && FromNetwork(e)
    ensures var v := WorldNext(w, Arrive(0, e));
            v.chans[0].ch == Step(w.chans[0].ch, e) && |v.chans| == 1 && v.conns == w.conns && v.sent == w.sent
  {
  }

  /** A channel dialled and released. */
  lemma LeasedOnce() returns (es: seq<WorldEvent>)
    ensures var w := WorldRun(es);
            && |w.chans| == 1
            && w.chans[0].ch == Chan(false, true, false, Idle, 1, Reader([], true, [], None), [], Ready, false)
            && w.conns == [ConnState(0, 0, true, false)] && w.sent == []
  {
    hide Observe;
    es := [];
    WorldRunTo(es, Create(false));
    es := es + [Create(false)];
    ArriveOne(WorldRun(es), Open);
    WorldRunTo(es, Arrive(0, Open));
    es := es + [Arrive(0, Open)];
    var w := WorldRun(es);
    assert |w.chans| == 1 && w.chans[0].ch == Chan(false, true, false, Idle, 0, NewReader(), [], Ready, false) && w.conns == [];
    WorldRunTo(es, Dial(0));
    es := es + [Dial(0)];
    WorldRunTo(es, ConnRelease(0));
    es := es + [ConnRelease(0)];
  }

  /** A late message to a dialled and released channel: it runs, held by nobody. */
  lemma LateMessageOrphans() returns (es: seq<WorldEvent>)
    ensures Orphan(WorldRun(es), 0) && WorldRun(es).conns == [ConnState(0, 0, true, false)]
  {
    es := LeasedOnce();
    ExclusiveLease(es);
    WorldRunTo(es, Arrive(0, Message([7])));
    MessageOrphans(WorldRun(es), Arrive(0, Message([7])), 0);
    es := es + [Arrive(0, Message([7]))];
  }
}
