/**
  One data channel as a state machine: the lease status, the reader's queue, the buffered reader
  and the OnMessage callback, which can be interrupted wherever it blocks.

  An event that cannot happen in a state (a blocked send or receive, a callback or a Read already under way)
  leaves the state alone, so every sequence of events is a run.
 */
module ChannelModel {
  import opened Streams
  import opened Options

  datatype Status = Idle | Active | Closed

  /**
    Where the OnMessage callback stands. It runs on one goroutine per channel. Announcing: blocked
    on the accept queue, for the lease `lease` it has just taken. Pushing: inside OnData of reader
    number `reader`, with `rest` still to be cut and queued.
   */
  datatype Handler =
    | Ready
    | Announcing(msg: seq<byte>, lease: nat)
    | Pushing(rest: seq<byte>, reader: nat)

  /** One lease's ChannelReader with the bufio.Reader on top of it. */
  datatype Reader = Reader(
    queue: seq<seq<byte>>,  // recvData
    closed: bool,           // recvData has been closed
    buffered: seq<byte>,    // read from the queue and not yet handed out
    waiting: Option<nat>)   // a Read of that size has passed its checks and waits on the queue

  datatype Chan = Chan(
    announces: bool,        // Type is Answer and the accept queue is set
    up: bool,               // `open` has been closed: the data channel is up
    closing: bool,          // `close` has been closed
    status: Status,
    readers: nat,           // readers made so far; c.rd and c.buffer are nil when 0
    rd: Reader,             // the last of them
    past: seq<Reader>,      // the others: a Read may still wait on one of them
    handler: Handler,
    panicked: bool)

  datatype Event =
    | Open
    | RemoteClose
    | Close
    | Take
    | Message(data: seq<byte>)
    | Ignore(data: seq<byte>)
    | Announce
    | Push
    | Read(n: nat)
    | Resume
    | ResumePast(k: nat)    // the wait of a Read of lease k, which is over
    | Release

  datatype Output = Silent | Data(bytes: seq<byte>) | Eof | Blocked | Crash

  /** make(chan []byte, 10) */
  const QUEUE_CAP: nat := 10

  /** make(chan conn.ReadWriterReleaser, 100) */
  const ACCEPT_CAP: nat := 100

  function NewReader(): Reader {
    Reader([], false, [], None)
  }

  function NewChan(announces: bool): Chan {
    Chan(announces, false, false, Idle, 0, NewReader(), [], Ready, false)
  }

  /** TakeConn: only an idle channel is taken; it gets a new reader and a new buffer. */
  function TakeConn(c: Chan): Chan {
    if c.status != Idle then c
    else c.(status := Active, readers := c.readers + 1, rd := NewReader(),
            past := if c.readers == 0 then [] else c.past + [c.rd])
  }

  /** The call c.rd.OnData(data): a nil reader is only dereferenced when there is data. */
  function EnterOnData(c: Chan, data: seq<byte>): Chan {
    if data == [] then c.(handler := Ready)
    else if c.readers == 0 then c.(panicked := true)
    else c.(handler := Pushing(data, c.readers - 1))
  }

  /** OnMessage when its select takes the open branch. */
  function OnMessage(c: Chan, data: seq<byte>): Chan {
    var t := TakeConn(c);
    if c.status == Idle && c.announces then t.(handler := Announcing(data, c.readers))
    else EnterOnData(t, data)
  }

  /** One turn of OnData's loop. A send on a closed queue panics, even one that was blocked. */
  function PushBatch(c: Chan): Chan
    requires c.handler.Pushing?
  {
    var rest := c.handler.rest;
    if c.handler.reader + 1 != c.readers || c.rd.closed then c.(panicked := true)
    else if |c.rd.queue| >= QUEUE_CAP then c
    else
      var k := Min(BATCH, |rest|);
      c.(rd := c.rd.(queue := c.rd.queue + [rest[..k]]),
         handler := if k == |rest| then Ready else Pushing(rest[k..], c.handler.reader))
  }

  /** Whether the callback is inside OnData and can take a turn: to push, or to find the queue closed. */
  predicate CanPush(c: Chan) {
    && !c.panicked && c.handler.Pushing? && c.handler.rest != []
    && (c.handler.reader + 1 != c.readers || c.rd.closed || |c.rd.queue| < QUEUE_CAP)
  }

  /** OnData's loop as far as it gets: to its end, to a full queue, or to a panic. */
  function Pump(c: Chan): Chan
    decreases if c.panicked || !c.handler.Pushing? then 0 else 1 + |c.handler.rest|
  {
    if CanPush(c) then Pump(PushBatch(c)) else c
  }

  /** OnMessage as far as it gets; `room` says whether the accept queue takes the announcement. */
  function Deliver(c: Chan, data: seq<byte>, room: bool): Chan {
    var t := OnMessage(c, data);
    if !t.handler.Announcing? then Pump(t)
    else if room then Pump(EnterOnData(t, data))
    else t
  }

  /**
    bufio.Reader.Read over ChannelReader.Read: hand out buffered bytes first; with none, wait for one
    batch, straight into a caller's slice of at least the buffer size, otherwise into the buffer.
   */
  function BufRead(r: Reader, n: nat): (Reader, Output) {
    if n == 0 then (r, Data([]))
    else if r.buffered != [] then
      var k := Min(n, |r.buffered|);
      (r.(buffered := r.buffered[k..]), Data(r.buffered[..k]))
    else Wake(r, n)
  }

  /** The receive a Read waits in: a batch, the end of a closed queue, or still nothing. */
  function Wake(r: Reader, n: nat): (Reader, Output) {
    if r.queue != [] then Receive(r.queue[0], r.(queue := r.queue[1..], waiting := None), n)
    else if r.closed then (r.(waiting := None), Eof)
    else (r.(waiting := Some(n)), Blocked)
  }

  /** A batch longer than the slice it is received into panics. */
  function Receive(b: seq<byte>, r: Reader, n: nat): (Reader, Output) {
    if |b| > (if n >= BATCH then n else BATCH) then (r, Crash)
    else if n >= BATCH then (r, Data(b))
    else (r.(buffered := b[Min(n, |b|)..]), Data(b[..Min(n, |b|)]))
  }

  /** Channel.Read: after `close`, only what is already buffered is handed out. */
  function ChanRead(c: Chan, n: nat): (Reader, Output) {
    if c.readers == 0 then (c.rd, Crash)
    else if c.closing && c.rd.buffered == [] then (c.rd, Eof)
    else BufRead(c.rd, n)
  }

  /** The two events that may hand out bytes: a Read, and the end of the wait of an earlier one, past its checks. */
  predicate IsFetch(e: Event) {
    e.Read? || e.Resume?
  }

  /** A Read, or the wait of one, of any lease. */
  predicate IsRead(e: Event) {
    IsFetch(e) || e.ResumePast?
  }

  /** How the wait of a Read of lease k goes on. */
  function Resumes(c: Chan, k: nat): Event {
    if k + 1 == c.readers then Resume else ResumePast(k)
  }

  function Fetch(c: Chan, e: Event): (Reader, Output) {
    if e.Read? then ChanRead(c, e.n)
    else Wake(c.rd, if c.rd.waiting.Some? then c.rd.waiting.value else 0)
  }

  /** A Read that was left waiting on the reader of an earlier lease goes on there. */
  function WakePast(c: Chan, k: nat): (Reader, Output)
    requires k < |c.past|
  {
    Wake(c.past[k], if c.past[k].waiting.Some? then c.past[k].waiting.value else 0)
  }

  /** Channel.Release: closing the queue of an active lease; a second close would panic. */
  function ReleaseConn(c: Chan): Chan {
    if c.status != Active then c
    else if c.readers == 0 || c.rd.closed then c.(panicked := true)
    else c.(rd := c.rd.(closed := true), status := Idle)
  }

  predicate Enabled(c: Chan, e: Event) {
    && !c.panicked
    && match e
       case Message(_) => c.handler.Ready? && c.up
       case Ignore(_) => c.handler.Ready? && c.closing
       case Announce => c.handler.Announcing?
       case Push => c.handler.Pushing?
       case Read(_) => c.rd.waiting.None?
       case Resume => c.rd.waiting.Some?
       case ResumePast(k) => k < |c.past| && c.past[k].waiting.Some?
       case _ => true
  }

  function Step(c: Chan, e: Event): Chan {
    if !Enabled(c, e) then c
    else match e
      case Open => c.(up := true)
      case RemoteClose => c.(closing := true)
      case Close => c.(status := Closed, closing := true)
      case Take => TakeConn(c)
      case Message(data) => OnMessage(c, data)
      case Ignore(_) => c
      case Announce => EnterOnData(c, c.handler.msg)
      case Push => PushBatch(c)
      case Read(_) => c.(rd := Fetch(c, e).0, panicked := Fetch(c, e).1.Crash?)
      case Resume => c.(rd := Fetch(c, e).0, panicked := Fetch(c, e).1.Crash?)
      case ResumePast(k) => c.(past := c.past[k := WakePast(c, k).0], panicked := WakePast(c, k).1.Crash?)
      case Release => ReleaseConn(c)
  }

  function Out(c: Chan, e: Event): Output {
    if Enabled(c, e) && IsFetch(e) then Fetch(c, e).1 else Silent
  }

  // ---------- What an observer outside the channel records ----------

  /** One lease as seen from outside: payload delivered to it, bytes read from it, announcements of it. */
  datatype Lease = Lease(accepted: seq<byte>, read: seq<byte>, byMessage: bool, announced: nat)

  datatype Log = Log(leases: seq<Lease>, delivered: seq<byte>)

  function OpenLease(ls: seq<Lease>, byMessage: bool): seq<Lease> {
    ls + [Lease([], [], byMessage, 0)]
  }

  /** Payload goes to the current lease. */
  function Accept(ls: seq<Lease>, data: seq<byte>): seq<Lease> {
    if ls == [] then ls
    else ls[|ls| - 1 := ls[|ls| - 1].(accepted := ls[|ls| - 1].accepted + data)]
  }

  /** Bytes are read from lease k. */
  function ConsumeAt(ls: seq<Lease>, k: int, data: seq<byte>): seq<Lease> {
    if 0 <= k < |ls| then ls[k := ls[k].(read := ls[k].read + data)] else ls
  }

  /** Bytes are read from the current lease. */
  function Consume(ls: seq<Lease>, data: seq<byte>): seq<Lease> {
    ConsumeAt(ls, |ls| - 1, data)
  }

  function Mark(ls: seq<Lease>, k: nat): seq<Lease> {
    if k >= |ls| then ls else ls[k := ls[k].(announced := ls[k].announced + 1)]
  }

  function ObserveMessage(log: Log, c: Chan, data: seq<byte>): Log {
    var ls := if c.status == Idle then OpenLease(log.leases, true) else log.leases;
    Log(if c.status == Idle && c.announces then ls else Accept(ls, data), log.delivered + data)
  }

  function ObserveFetch(log: Log, o: Output): Log {
    if o.Data? then log.(leases := Consume(log.leases, o.bytes)) else log
  }

  function Observe(log: Log, c: Chan, e: Event): Log {
    if !Enabled(c, e) then log
    else match e
      case Take => if c.status == Idle then log.(leases := OpenLease(log.leases, false)) else log
      case Message(data) => ObserveMessage(log, c, data)
      case Announce => log.(leases := Accept(Mark(log.leases, c.handler.lease), c.handler.msg))
      case Read(_) => ObserveFetch(log, Out(c, e))
      case Resume => ObserveFetch(log, Out(c, e))
      case ResumePast(k) =>
        var o := WakePast(c, k).1;
        if o.Data? then log.(leases := ConsumeAt(log.leases, k, o.bytes)) else log
      case _ => log
  }

  datatype Sys = Sys(ch: Chan, log: Log)

  function Start(announces: bool): Sys {
    Sys(NewChan(announces), Log([], []))
  }

  function Next(s: Sys, e: Event): Sys {
    Sys(Step(s.ch, e), Observe(s.log, s.ch, e))
  }

  function Run(s: Sys, es: seq<Event>): Sys
    decreases |es|
  {
    if es == [] then s else Next(Run(s, es[..|es| - 1]), es[|es| - 1])
  }
}
