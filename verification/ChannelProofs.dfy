/** What every run of one channel keeps: conservation of payload per lease, and announcements. */
module ChannelProofs {
  import opened Streams
  import opened Options
  import opened ChannelModel

  /** The unqueued rest of the message that is being pushed into the current reader. */
  function Tail(c: Chan): seq<byte> {
    if c.handler.Pushing? && c.handler.reader + 1 == c.readers then c.handler.rest else []
  }

  function Stored(r: Reader): seq<byte> {
    r.buffered + Flatten(r.queue)
  }

  /** Everything accepted for the current lease and not yet read. */
  function Held(c: Chan): seq<byte> {
    Stored(c.rd) + Tail(c)
  }

  /** Payload of a message whose callback is still blocked on the accept queue. */
  function Unassigned(h: Handler): seq<byte> {
    if h.Announcing? then h.msg else []
  }

  function AllAccepted(ls: seq<Lease>): seq<byte> {
    if ls == [] then [] else AllAccepted(ls[..|ls| - 1]) + ls[|ls| - 1].accepted
  }

  ghost predicate GoodHandler(h: Handler, readers: nat) {
    && (h.Pushing? ==> h.rest != [] && h.reader < readers)
    && (h.Announcing? ==> h.lease < readers)
  }

  ghost predicate GoodReader(r: Reader) {
    && GoodBatches(r.queue) && |r.queue| <= QUEUE_CAP && |r.buffered| < BATCH
    && (r.waiting.Some? ==> r.buffered == [] && r.waiting.value > 0)
  }

  ghost predicate Shape(c: Chan) {
    && (c.status == Active ==> c.readers > 0 && !c.rd.closed)
    && (c.status == Idle ==> c.readers == 0 || c.rd.closed)
    && (c.readers == 0 ==> c.rd == NewReader())
    && GoodReader(c.rd)
    && GoodHandler(c.handler, c.readers)
  }

  /** Conservation: for the current lease to the byte, for earlier ones what was left over is lost. */
  ghost predicate Books(ls: seq<Lease>, held: seq<byte>) {
    && (ls != [] ==> ls[|ls| - 1].accepted == ls[|ls| - 1].read + held)
    && (forall k :: 0 <= k < |ls| - 1 ==> ls[k].read <= ls[k].accepted)
  }

  /** The readers of the earlier leases are closed, and what they still store is next in line there. */
  ghost predicate Past(c: Chan, ls: seq<Lease>) {
    && |c.past| == (if c.readers == 0 then 0 else c.readers - 1) && |ls| == c.readers
    && (forall k :: 0 <= k < |c.past| ==> GoodReader(c.past[k]) && c.past[k].closed)
    && (forall k :: 0 <= k < |c.past| ==> ls[k].read + Stored(c.past[k]) <= ls[k].accepted)
  }

  /** The lease whose announcement has not gone through yet. */
  function Waiting(h: Handler): int {
    if h.Announcing? then h.lease else -1
  }

  /** The accept queue gets exactly the leases that a message took, once, and before any payload. */
  ghost predicate Announced(ls: seq<Lease>, announces: bool, waiting: int) {
    forall k :: 0 <= k < |ls| ==>
      && ls[k].announced == (if announces && ls[k].byMessage && k != waiting then 1 else 0)
      && (k == waiting ==> announces && ls[k].byMessage && ls[k].accepted == [])
  }

  ghost predicate Core(s: Sys) {
    && Shape(s.ch)
    && |s.log.leases| == s.ch.readers
    && Books(s.log.leases, Held(s.ch))
    && Announced(s.log.leases, s.ch.announces, Waiting(s.ch.handler))
    && (!s.ch.panicked || s.ch.readers > 0 ==> s.log.delivered == AllAccepted(s.log.leases) + Unassigned(s.ch.handler))
  }

  ghost predicate Inv(s: Sys) {
    Core(s) && Past(s.ch, s.log.leases)
  }

  // ---------- The observer's books ----------

  lemma OpenKeeps(ls: seq<Lease>, held: seq<byte>, byMessage: bool)
    requires Books(ls, held)
    ensures Books(OpenLease(ls, byMessage), [])
    ensures AllAccepted(OpenLease(ls, byMessage)) == AllAccepted(ls)
  {
    assert OpenLease(ls, byMessage)[..|ls|] == ls;
  }

  lemma AcceptKeeps(ls: seq<Lease>, held: seq<byte>, data: seq<byte>)
    requires ls != [] && Books(ls, held)
    ensures |Accept(ls, data)| == |ls|
    ensures Books(Accept(ls, data), held + data)
    ensures AllAccepted(Accept(ls, data)) == AllAccepted(ls) + data
  {
    var ms := Accept(ls, data);
    assert ms[..|ms| - 1] == ls[..|ls| - 1];
    assert AllAccepted(ls) == AllAccepted(ls[..|ls| - 1]) + ls[|ls| - 1].accepted;
  }

  lemma ConsumeKeeps(ls: seq<Lease>, held: seq<byte>, data: seq<byte>, left: seq<byte>)
    requires ls != [] && Books(ls, held) && held == data + left
    ensures |Consume(ls, data)| == |ls|
    ensures Books(Consume(ls, data), left)
    ensures AllAccepted(Consume(ls, data)) == AllAccepted(ls)
  {
    AllAcceptedSame(ls, Consume(ls, data));
  }

  /** Only the accepted bytes of the leases count. */
  lemma {:induction false} AllAcceptedSame(ls: seq<Lease>, ms: seq<Lease>)
    requires |ls| == |ms|
    requires forall k :: 0 <= k < |ls| ==> ls[k].accepted == ms[k].accepted
    ensures AllAccepted(ls) == AllAccepted(ms)
  {
    if ls != [] {
      AllAcceptedSame(ls[..|ls| - 1], ms[..|ms| - 1]);
    }
  }

  // ---------- Steps ----------

  lemma TakeKeeps(s: Sys)
    requires Core(s) && s.ch.status == Idle
    ensures var c := TakeConn(s.ch); Shape(c) && Held(c) == []
  {
  }

  /** EnterOnData hands the payload to the current reader. */
  lemma EnterHolds(c: Chan, data: seq<byte>)
    requires !c.handler.Pushing? && Shape(c) && c.readers > 0
    ensures var d := EnterOnData(c, data);
            Shape(d) && Held(d) == Held(c) + data && !d.handler.Announcing? && d == c.(handler := d.handler)
  {
  }

  /** Moving a batch from the rest of a message to the queue moves no byte. */
  lemma MoveBatch(front: seq<byte>, queue: seq<seq<byte>>, rest: seq<byte>, k: nat)
    requires k <= |rest|
    ensures front + Flatten(queue + [rest[..k]]) + rest[k..] == front + Flatten(queue) + rest
  {
    FlattenSnoc(queue, rest[..k]);
    assert rest == rest[..k] + rest[k..];
  }

  lemma PushHolds(c: Chan)
    requires c.handler.Pushing? && Shape(c)
    ensures Held(PushBatch(c)) == Held(c)
  {
    var rest := c.handler.rest;
    if c.handler.reader + 1 == c.readers && !c.rd.closed && |c.rd.queue| < QUEUE_CAP {
      MoveBatch(c.rd.buffered, c.rd.queue, rest, Min(BATCH, |rest|));
    }
  }

  lemma PushShape(c: Chan)
    requires c.handler.Pushing? && Shape(c)
    ensures var d := PushBatch(c);
            Shape(d) && !d.handler.Announcing? && d.announces == c.announces && d.readers == c.readers
  {
  }

  /** What one Read can be handed: the buffer if there is something in it, otherwise the first batch. */
  function Offered(r: Reader): seq<byte> {
    if r.buffered != [] then r.buffered else if r.queue != [] then r.queue[0] else []
  }

  /**
    The wait of a Read: it hands out the front of what is stored and keeps the rest, as much of the
    first batch as the slice holds, and takes no other batch off the queue; it ends without data exactly
    when the queue is closed and drained, and goes on exactly when that is empty and open.
   */
  lemma WakeTakesFront(r: Reader, n: nat)
    requires GoodReader(r) && r.buffered == [] && n > 0
    ensures var (q, o) := Wake(r, n);
            && GoodReader(q) && q.closed == r.closed
            && (o.Data? ==> Stored(r) == o.bytes + Stored(q) && 0 < |o.bytes| == Min(n, |Offered(r)|))
            && (o.Data? ==> r.queue != [] && q.queue == r.queue[1..] && q.waiting.None?)
            && (!o.Data? ==> q == r.(waiting := if o.Blocked? then Some(n) else None))
            && (o.Eof? <==> Stored(r) == [] && r.closed)
            && (o.Blocked? <==> Stored(r) == [] && !r.closed)
            && !o.Crash? && !o.Silent?
  {
    if r.queue != [] {
      var q := Reader(r.queue[1..], r.closed, [], None);
      hide Receive;
      ReceiveTakesFront(r.queue[0], q, n);
      assert Stored(r) == r.queue[0] + Stored(q);
    }
  }

  /**
    The buffered reader refines a byte queue: it hands out the front of what is stored and keeps the
    rest, as much as the slice holds of the buffer or, with that empty, of the first batch; asked for
    nothing it changes nothing; it reports the end exactly when its queue is closed and drained, and
    waits exactly when that is empty and open.
   */
  lemma BufReadTakesFront(r: Reader, n: nat)
    requires GoodReader(r) && r.waiting.None?
    ensures var (q, o) := BufRead(r, n);
            && GoodReader(q) && q.closed == r.closed
            && (o.Data? ==> Stored(r) == o.bytes + Stored(q) && |o.bytes| == Min(n, |Offered(r)|) && (n > 0 ==> 0 < |o.bytes|))
            && (o.Data? ==> q.queue == (if n == 0 || r.buffered != [] then r.queue else r.queue[1..]) && q.waiting.None?)
            && (n == 0 ==> o == Data([]) && q == r)
            && (!o.Data? ==> q == r.(waiting := if o.Blocked? then Some(n) else None))
            && (o.Eof? <==> n > 0 && Stored(r) == [] && r.closed)
            && (o.Blocked? <==> n > 0 && Stored(r) == [] && !r.closed)
            && !o.Crash? && !o.Silent?
  {
    if n == 0 {
      assert [] + Stored(r) == Stored(r);
    } else if r.buffered != [] {
      BufferTakesFront(r, n);
    } else {
      hide Wake;
      WakeTakesFront(r, n);
    }
  }

  lemma BufferTakesFront(r: Reader, n: nat)
    requires n > 0 && r.buffered != []
    ensures var (q, o) := BufRead(r, n);
            && q == r.(buffered := q.buffered) && |q.buffered| < |r.buffered|
            && o.Data? && Stored(r) == o.bytes + Stored(q) && |o.bytes| == Min(n, |r.buffered|)
  {
    var k := Min(n, |r.buffered|);
    assert r.buffered == r.buffered[..k] + r.buffered[k..];
  }

  lemma ReceiveTakesFront(b: seq<byte>, r: Reader, n: nat)
    requires 0 < |b| <= BATCH && n > 0 && r.buffered == []
    ensures var (q, o) := Receive(b, r, n);
            && q == r.(buffered := q.buffered) && |q.buffered| < BATCH
            && o.Data? && b + Stored(r) == o.bytes + Stored(q) && |o.bytes| == Min(n, |b|)
  {
    var k := Min(n, |b|);
    assert b == b[..k] + b[k..];
  }

  /** Channel.Read is the buffered reader's Read, except that after `close` it ends when the buffer is empty. */
  lemma ReadTakesFront(c: Chan, n: nat)
    requires Shape(c) && c.readers > 0 && c.rd.waiting.None?
    ensures var (q, o) := ChanRead(c, n);
            && GoodReader(q) && q.closed == c.rd.closed
            && (o.Data? ==>
                  Stored(c.rd) == o.bytes + Stored(q) && |o.bytes| == Min(n, |Offered(c.rd)|) && (n > 0 ==> 0 < |o.bytes|))
            && (!o.Data? ==> q == c.rd.(waiting := if o.Blocked? then Some(n) else None))
            && (o.Eof? <==> if c.closing then c.rd.buffered == [] else n > 0 && Stored(c.rd) == [] && c.rd.closed)
            && (o.Blocked? <==> !c.closing && n > 0 && Stored(c.rd) == [] && !c.rd.closed)
            && !o.Crash? && !o.Silent?
  {
    BufReadTakesFront(c.rd, n);
  }

  /** Both kinds of fetch: the front of what is stored, or nothing; never a panic on a taken channel. */
  lemma FetchTakesFront(c: Chan, e: Event)
    requires Shape(c) && c.readers > 0 && Enabled(c, e) && IsFetch(e)
    ensures var (q, o) := Fetch(c, e);
            && GoodReader(q) && q.closed == c.rd.closed
            && (o.Data? ==> Stored(c.rd) == o.bytes + Stored(q))
            && (!o.Data? ==> Stored(q) == Stored(c.rd) && q == c.rd.(waiting := q.waiting))
            && (c.rd.waiting.Some? && !o.Blocked? ==> q.waiting.None?)
            && !o.Crash? && !o.Silent?
  {
    if e.Read? {
      ReadTakesFront(c, e.n);
    } else {
      WakeTakesFront(c.rd, c.rd.waiting.value);
    }
    hide ChanRead, Wake;
  }

  // ---------- Steps ----------

  lemma NextTake(s: Sys)
    requires Core(s)
    ensures Core(Next(s, Take))
  {
    if Enabled(s.ch, Take) && s.ch.status == Idle {
      TakeKeeps(s);
      OpenKeeps(s.log.leases, Held(s.ch), false);
    }
  }

  /** A message on an idle channel takes it first; the other half of the step is that of a taken channel. */
  lemma MessageTakes(s: Sys)
    requires Core(s) && s.ch.status == Idle && !s.ch.panicked
    ensures var c := TakeConn(s.ch);
            && Shape(c) && c.readers > 0 && c.status == Active
            && |OpenLease(s.log.leases, true)| == c.readers
            && Books(OpenLease(s.log.leases, true), Held(c))
            && AllAccepted(OpenLease(s.log.leases, true)) == AllAccepted(s.log.leases)
  {
    TakeKeeps(s);
    OpenKeeps(s.log.leases, Held(s.ch), true);
  }

  lemma NextMessageIdle(s: Sys, data: seq<byte>)
    requires Core(s) && Enabled(s.ch, Message(data)) && s.ch.status == Idle
    ensures Core(Next(s, Message(data)))
  {
    if s.ch.announces {
      MessageAnnounces(s, data);
    } else {
      MessageEntersTaken(s, data);
    }
    hide Inv, Next;
  }

  lemma MessageAnnounces(s: Sys, data: seq<byte>)
    requires Core(s) && Enabled(s.ch, Message(data)) && s.ch.status == Idle && s.ch.announces
    ensures Core(Next(s, Message(data)))
  {
    hide AllAccepted, GoodReader, Stored, Books;
    var c, t := TakeConn(s.ch), Next(s, Message(data));
    MessageTakes(s);
    assert t.ch == c.(handler := Announcing(data, s.ch.readers)) && t.log.leases == OpenLease(s.log.leases, true);
    assert Held(c) == Held(t.ch);
  }

  lemma MessageEntersTaken(s: Sys, data: seq<byte>)
    requires Core(s) && Enabled(s.ch, Message(data)) && s.ch.status == Idle && !s.ch.announces
    ensures Core(Next(s, Message(data)))
  {
    hide AllAccepted, GoodReader, Stored, Books, Held;
    var c, ls, t := TakeConn(s.ch), OpenLease(s.log.leases, true), Next(s, Message(data));
    MessageTakes(s);
    EnterHolds(c, data);
    AcceptKeeps(ls, Held(c), data);
    assert t.ch == EnterOnData(c, data) && t.log.leases == Accept(ls, data);
    hide EnterOnData;
  }

  lemma NextMessage(s: Sys, data: seq<byte>)
    requires Core(s) && Enabled(s.ch, Message(data)) && s.ch.status != Idle
    ensures Core(Next(s, Message(data)))
  {
    hide AllAccepted, GoodReader, Stored;
    if s.log.leases != [] {
      EnterHolds(s.ch, data);
      AcceptKeeps(s.log.leases, Held(s.ch), data);
    }
  }

  lemma AnnouncedStays(ls: seq<Lease>, k: nat, data: seq<byte>, announces: bool, waiting: int)
    requires Announced(ls, announces, waiting)
    ensures Announced(ConsumeAt(ls, k, data), announces, waiting) && |ConsumeAt(ls, k, data)| == |ls|
  {
  }

  lemma MarkKeeps(ls: seq<Lease>, held: seq<byte>, announces: bool, k: nat, msg: seq<byte>)
    requires Books(ls, held) && k < |ls| && Announced(ls, announces, k)
    ensures Books(Mark(ls, k), held) && AllAccepted(Mark(ls, k)) == AllAccepted(ls) && |Mark(ls, k)| == |ls|
    ensures Announced(Accept(Mark(ls, k), msg), announces, -1)
  {
    AllAcceptedSame(ls, Mark(ls, k));
    hide AllAccepted;
  }

  lemma NextAnnounce(s: Sys)
    requires Core(s) && Enabled(s.ch, Announce)
    ensures Core(Next(s, Announce))
  {
    var h := s.ch.handler;
    var ls := Mark(s.log.leases, h.lease);
    MarkKeeps(s.log.leases, Held(s.ch), s.ch.announces, h.lease, h.msg);
    EnterHolds(s.ch, h.msg);
    AcceptKeeps(ls, Held(s.ch), h.msg);
    var t := Next(s, Announce);
    assert t == Sys(EnterOnData(s.ch, h.msg), s.log.(leases := Accept(ls, h.msg)));
    hide AllAccepted, Books, GoodReader, Stored, Held, Next, EnterOnData, Announced, Mark, Accept;
  }

  lemma NextPush(s: Sys)
    requires Core(s) && Enabled(s.ch, Push)
    ensures Core(Next(s, Push))
  {
    PushHolds(s.ch);
    PushShape(s.ch);
  }

  lemma NextFetch(s: Sys, e: Event)
    requires Core(s) && Enabled(s.ch, e) && IsFetch(e) && s.ch.readers > 0
    ensures Core(Next(s, e))
  {
    hide Fetch, Stored, AllAccepted;
    var (q, o) := Fetch(s.ch, e);
    FetchTakesFront(s.ch, e);
    var c := s.ch.(rd := q, panicked := false);
    assert Step(s.ch, e) == c;
    if o.Data? {
      assert Held(s.ch) == o.bytes + Held(c);
      ConsumeKeeps(s.log.leases, Held(s.ch), o.bytes, Held(c));
      AnnouncedStays(s.log.leases, |s.log.leases| - 1, o.bytes, s.ch.announces, Waiting(s.ch.handler));
    } else {
      assert Held(s.ch) == Held(c);
    }
    hide Held, GoodReader, Announced, Books, ConsumeAt;
  }

  lemma NextOther(s: Sys, e: Event)
    requires Core(s) && Enabled(s.ch, e)
    requires e.Open? || e.RemoteClose? || e.Close? || e.Ignore? || e.Release? || (IsFetch(e) && s.ch.readers == 0)
    ensures Core(Next(s, e))
  {
    assert Held(Next(s, e).ch) == Held(s.ch);
  }

  // ---------- Readers of earlier leases ----------

  /** A Read that goes on there takes the front of what is stored there, and nothing else changes. */
  lemma WakePastTakesFront(c: Chan, ls: seq<Lease>, k: nat)
    requires Past(c, ls) && k < |c.past| && c.past[k].waiting.Some?
    ensures var (q, o) := WakePast(c, k);
            && GoodReader(q) && q.closed
            && (o.Data? ==> Stored(c.past[k]) == o.bytes + Stored(q))
            && (o.Data? ==> c.past[k].queue != [] && |o.bytes| == Min(c.past[k].waiting.value, |c.past[k].queue[0]|))
            && (!o.Data? ==> Stored(q) == Stored(c.past[k]))
            && (o.Eof? <==> c.past[k].queue == [])
            && !o.Crash? && !o.Blocked? && !o.Silent?
  {
    WakeTakesFront(c.past[k], c.past[k].waiting.value);
    assert c.past[k].queue != [] ==> |Stored(c.past[k])| >= |c.past[k].queue[0]| > 0;
    hide Wake;
  }

  /** The books of an earlier lease after that. */
  lemma ConsumePast(c: Chan, ls: seq<Lease>, held: seq<byte>, k: nat, q: Reader, data: seq<byte>)
    requires Past(c, ls) && k < |c.past| && GoodReader(q) && q.closed && Stored(c.past[k]) == data + Stored(q)
    requires Books(ls, held)
    ensures Past(c.(past := c.past[k := q]), ConsumeAt(ls, k, data))
    ensures Books(ConsumeAt(ls, k, data), held)
    ensures AllAccepted(ConsumeAt(ls, k, data)) == AllAccepted(ls)
  {
    hide Stored, GoodReader;
    var ms := ConsumeAt(ls, k, data);
    assert ms[k].read + Stored(q) == ls[k].read + Stored(c.past[k]);
    assert ms[k].read <= ms[k].read + Stored(q) <= ms[k].accepted;
    AllAcceptedSame(ls, ms);
  }

  lemma NextPast(s: Sys, k: nat)
    requires Core(s) && Past(s.ch, s.log.leases) && Enabled(s.ch, ResumePast(k))
    ensures Core(Next(s, ResumePast(k))) && Past(Next(s, ResumePast(k)).ch, Next(s, ResumePast(k)).log.leases)
  {
    hide WakePast, Stored, AllAccepted, GoodReader;
    var ls, t := s.log.leases, Next(s, ResumePast(k));
    WakePastTakesFront(s.ch, ls, k);
    var (q, o) := WakePast(s.ch, k);
    var data := if o.Data? then o.bytes else [];
    assert t.ch == s.ch.(past := s.ch.past[k := q]);
    assert t.log == s.log.(leases := ConsumeAt(ls, k, data)) by {
      assert ls[k].read + [] == ls[k].read;
      assert ls[k := ls[k]] == ls;
    }
    assert Stored(s.ch.past[k]) == data + Stored(q);
    ConsumePast(s.ch, ls, Held(s.ch), k, q, data);
    assert Held(t.ch) == Held(s.ch);
    AnnouncedStays(ls, k, data, s.ch.announces, Waiting(s.ch.handler));
    hide Held, Books, Past, Next, Announced, ConsumeAt;
  }

  /** No other event that opens no lease touches them or their leases. */
  lemma PastLeft(s: Sys, e: Event)
    requires |s.log.leases| == s.ch.readers == Next(s, e).ch.readers && !e.ResumePast?
    ensures var t := Next(s, e);
            && t.ch.past == s.ch.past && |t.log.leases| == |s.log.leases|
            && forall k :: 0 <= k < |s.log.leases| - 1 ==>
                 t.log.leases[k].read == s.log.leases[k].read && t.log.leases[k].accepted == s.log.leases[k].accepted
  {
    hide Fetch;
  }

  /** A new lease puts the reader it replaces behind it, closed. */
  lemma PastGrows(s: Sys, e: Event)
    requires |s.log.leases| == s.ch.readers && Next(s, e).ch.readers == s.ch.readers + 1
    ensures var t := Next(s, e);
            && s.ch.status == Idle && t.ch.past == (if s.ch.readers == 0 then [] else s.ch.past + [s.ch.rd])
            && |t.log.leases| == |s.log.leases| + 1
            && forall k :: 0 <= k < |s.log.leases| ==>
                 t.log.leases[k].read == s.log.leases[k].read && t.log.leases[k].accepted == s.log.leases[k].accepted
  {
    hide Fetch;
  }

  ghost predicate SameBooks(ls: seq<Lease>, ms: seq<Lease>, n: int) {
    n <= |ls| && n <= |ms| && forall k :: 0 <= k < n ==> ms[k].read == ls[k].read && ms[k].accepted == ls[k].accepted
  }

  lemma PastSame(c: Chan, ls: seq<Lease>, d: Chan, ms: seq<Lease>)
    requires Past(c, ls) && d.past == c.past && d.readers == c.readers && |ms| == |ls| && SameBooks(ls, ms, |ls| - 1)
    ensures Past(d, ms)
  {
    hide GoodReader, Stored;
  }

  lemma PastAppend(c: Chan, ls: seq<Lease>, d: Chan, ms: seq<Lease>)
    requires Past(c, ls) && c.readers > 0 && c.rd.closed && GoodReader(c.rd) && Books(ls, Held(c))
    requires d.past == c.past + [c.rd] && d.readers == c.readers + 1 && |ms| == |ls| + 1 && SameBooks(ls, ms, |ls|)
    ensures Past(d, ms)
  {
    hide GoodReader, Stored;
    var n := |ls| - 1;
    assert ls[n].accepted == (ls[n].read + Stored(c.rd)) + Tail(c);
    forall k | 0 <= k < |d.past| ensures ms[k].read + Stored(d.past[k]) <= ms[k].accepted && GoodReader(d.past[k]) {
      assert d.past[k] == if k < n then c.past[k] else c.rd;
    }
  }

  lemma PastKeeps(s: Sys, e: Event)
    requires Core(s) && Past(s.ch, s.log.leases) && !e.ResumePast?
    ensures Past(Next(s, e).ch, Next(s, e).log.leases)
  {
    hide Stored, Announced, AllAccepted, Books, GoodReader, Past, Held;
    var t := Next(s, e);
    ReadersStep(s.ch, e);
    assert t.ch.readers == Step(s.ch, e).readers;
    hide Next;
    if t.ch.readers == s.ch.readers {
      PastLeft(s, e);
      PastSame(s.ch, s.log.leases, t.ch, t.log.leases);
    } else {
      PastGrows(s, e);
      if s.ch.readers > 0 {
        PastAppend(s.ch, s.log.leases, t.ch, t.log.leases);
      } else {
        PastEmpty(t.ch, t.log.leases);
      }
    }
  }

  lemma PastEmpty(c: Chan, ls: seq<Lease>)
    requires c.past == [] && c.readers == 1 == |ls|
    ensures Past(c, ls)
  {
  }

  lemma ReadersStep(c: Chan, e: Event)
    ensures c.readers <= Step(c, e).readers <= c.readers + 1
  {
    hide Fetch;
  }


  lemma NextKeeps(s: Sys, e: Event)
    requires Inv(s)
    ensures Inv(Next(s, e))
  {
    hide Next, Core;
    if !Enabled(s.ch, e) {
      Disabled(s, e);
    } else if e.ResumePast? {
      NextPast(s, e.k);
    } else {
      PastKeeps(s, e);
      NextCore(s, e);
    }
  }

  lemma Disabled(s: Sys, e: Event)
    requires !Enabled(s.ch, e)
    ensures Next(s, e) == s
  {
  }

  lemma NextCore(s: Sys, e: Event)
    requires Core(s) && Enabled(s.ch, e) && !e.ResumePast?
    ensures Core(Next(s, e))
  {
    hide Next, Core;
    if e.Take? {
      NextTake(s);
    } else if e.Message? {
      if s.ch.status == Idle { NextMessageIdle(s, e.data); } else { NextMessage(s, e.data); }
    } else if e.Announce? {
      NextAnnounce(s);
    } else if e.Push? {
      NextPush(s);
    } else if IsFetch(e) && s.ch.readers > 0 {
      NextFetch(s, e);
    } else {
      NextOther(s, e);
    }
  }

  lemma {:induction false} RunKeeps(s: Sys, es: seq<Event>)
    requires Inv(s)
    ensures Inv(Run(s, es))
    decreases |es|
  {
    if es != [] {
      RunKeeps(s, es[..|es| - 1]);
      NextKeeps(Run(s, es[..|es| - 1]), es[|es| - 1]);
    }
  }

  lemma StartInv(announces: bool)
    ensures Inv(Start(announces))
  {
  }
}
