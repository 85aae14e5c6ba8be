/** net/conn/channel.go's objects, each method proved against the function that models it. */
module Channels {
  import opened Streams
  import opened Options
  import Model = ChannelModel
  import Theorems = ChannelTheorems
  import opened Labels

  /** What a Read returns: a count, io.EOF, not yet (the receive blocks), or a panic. */
  datatype Outcome = Got(n: nat) | AtEof | WouldBlock | Panics

  function AsOutput(o: Outcome, p: seq<byte>): Model.Output {
    match o
    case Got(n) => if n <= |p| then Model.Data(p[..n]) else Model.Crash
    case AtEof => Model.Eof
    case WouldBlock => Model.Blocked
    case Panics => Model.Crash
  }

  class ChannelReader {
    var recvData: seq<seq<byte>>
    var closed: bool

    constructor ()
      ensures recvData == [] && !closed
    {
      recvData := [];
      closed := false;
    }

    /**
      Cuts a message into batches and queues as many as there is room for; `rest` is what it still
      has to queue when it has to wait. A closed queue panics on the first send.
     */
    method OnData(data: seq<byte>) returns (rest: seq<byte>, panics: bool)
      modifies this
      ensures panics <==> closed && data != []
      ensures closed == old(closed)
      ensures panics ==> recvData == old(recvData) && rest == data
      ensures var k := Theorems.Fitting(old(recvData), data);
              !panics ==> recvData == old(recvData) + Chunks(data)[..k] && rest == data[Min(k * BATCH, |data|)..]
    {
      ChunksShape(data);
      ChunksShape([]);
      hide Chunks;
      var i := 0;
      ghost var k := 0;
      assert data[0..] == data;
      while i < |data| && !closed && |recvData| < Model.QUEUE_CAP
        invariant 0 <= i <= |data| && 0 <= k <= |Chunks(data)| && i == Min(k * BATCH, |data|)
        invariant closed == old(closed) && (closed ==> k == 0)
        invariant recvData == old(recvData) + Chunks(data)[..k]
        invariant k <= Theorems.Fitting(old(recvData), data)
        invariant Chunks(data)[k..] == Chunks(data[i..])
      {
        var end := Min(i + BATCH, |data|);
        ChunksFrom(data, i);
        assert Chunks(data)[k] == Chunks(data)[k..][0];
        assert Chunks(data)[k + 1..] == Chunks(data)[k..][1..];
        recvData := recvData + [data[i..end]];
        i := end;
        k := k + 1;
      }
      assert i == |data| ==> data[i..] == [];
      return data[i..], closed && i < |data|;
    }

    /** Receives one batch into p. */
    method Read(p: array<byte>) returns (o: Outcome)
      modifies this, p
      ensures closed == old(closed)
      ensures o.WouldBlock? <==> old(recvData) == [] && !closed
      ensures o.AtEof? <==> old(recvData) == [] && closed
      ensures o.Panics? <==> old(recvData) != [] && |old(recvData)[0]| > p.Length
      ensures old(recvData) != [] ==> recvData == old(recvData)[1..]
      ensures old(recvData) == [] ==> recvData == []
      ensures o.Got? ==> o.n == |old(recvData)[0]| && p[..o.n] == old(recvData)[0] && p[o.n..] == old(p[..])[o.n..]
      ensures !o.Got? ==> p[..] == old(p[..])
    {
      if recvData == [] {
        o := if closed then AtEof else WouldBlock;
        return;
      }
      var data := recvData[0];
      recvData := recvData[1..];
      if |data| > p.Length {
        return Panics;
      }
      forall i | 0 <= i < |data| {
        p[i] := data[i];
      }
      return Got(|data|);
    }

    /** close(recvData): closing it twice panics. */
    method Release() returns (panics: bool)
      modifies this
      ensures panics == old(closed) && closed && recvData == old(recvData)
    {
      panics := closed;
      closed := true;
    }
  }

  /** bufio.Reader with its default buffer, as far as Read uses it. */
  class BufReader {
    const rd: ChannelReader
    const buf: array<byte>
    var r: nat
    var w: nat
    ghost var waiting: Option<nat>  // the Read that is waiting in its receive

    ghost predicate Valid()
      reads this
    {
      buf.Length == BATCH && r <= w <= BATCH
    }

    ghost function View(): Model.Reader
      requires Valid()
      reads this, rd, buf
    {
      Model.Reader(rd.recvData, rd.closed, buf[r..w], waiting)
    }

    constructor (rd: ChannelReader)
      ensures Valid() && this.rd == rd && fresh(buf) && r == w == 0 && waiting.None?
    {
      this.rd := rd;
      buf := new byte[BATCH](_ => 0);
      r, w, waiting := 0, 0, None;
    }

    method Read(p: array<byte>) returns (o: Outcome)
      requires Valid() && p != buf && waiting.None?
      modifies this, rd, buf, p
      ensures Valid()
      ensures o.Got? ==> o.n <= p.Length && p[o.n..] == old(p[..])[o.n..]
      ensures Model.BufRead(old(View()), p.Length) == (View(), AsOutput(o, p[..]))
    {
      if p.Length == 0 {
        return Got(0);
      }
      if r == w {
        o := Receive(p);
        return;
      }
      o := CopyOut(p);
    }

    /** The part of Read that may wait; a Read that waits comes back to it when its queue changes. */
    method Receive(p: array<byte>) returns (o: Outcome)
      requires Valid() && p != buf && r == w
      modifies this, rd, buf, p
      ensures Valid()
      ensures o.Got? ==> o.n <= p.Length && p[o.n..] == old(p[..])[o.n..]
      ensures Model.Wake(old(View()), p.Length) == (View(), AsOutput(o, p[..]))
    {
      waiting := if rd.recvData == [] && !rd.closed then Some(p.Length) else None;
      assert buf[r..w] == [];
      if p.Length >= buf.Length {
        o := rd.Read(p);
        return;
      }
      r, w := 0, 0;
      o := rd.Read(buf);
      if !o.Got? {
        assert buf[r..w] == [];
        return;
      }
      w := o.n;
      assert buf[r..w] == old(rd.recvData)[0];
      o := CopyOut(p);
    }

    /** The final copy of Read: as much of the buffer as fits. */
    method CopyOut(p: array<byte>) returns (o: Outcome)
      requires Valid() && p != buf
      modifies this`r, p
      ensures Valid()
      ensures var b := old(buf[r..w]); var k := Min(p.Length, |b|);
              o == Got(k) && p[..k] == b[..k] && p[k..] == old(p[..])[k..] && buf[r..w] == b[k..]
    {
      ghost var b := buf[r..w];
      var k := Min(p.Length, w - r);
      forall i | 0 <= i < k {
        p[i] := buf[r + i];
      }
      assert forall i :: 0 <= i < k ==> p[i] == b[i];
      r := r + k;
      o := Got(k);
    }
  }

  /** The accept queue that a listener shares with its answering channels. */
  class AcceptQueue {
    var entries: seq<Channel>  // at most ACCEPT_CAP of them

    constructor ()
      ensures entries == []
    {
      entries := [];
    }
  }

  /**
    How far OnMessage gets: it waits for `open` or `close`, gives up on a closing channel, waits at
    the accept queue, or is inside OnData or through it, with `rest` still to be queued.
   */
  datatype Arrival = NotOpen | Ignored | AtAccept | Queued(rest: seq<byte>, panics: bool)

  /** How one turn of Write's loop goes: its select sees `close`, or it sends and that succeeds or fails. */
  datatype Turn = SeesClose | Sends | SendFails

  datatype WriteError = NoError | ErrClosed | ErrSend

  /** How many turns send before one stops the loop. */
  function Successes(turns: seq<Turn>): (k: nat)
    ensures k <= |turns|
    ensures forall i :: 0 <= i < k ==> turns[i] == Sends
    ensures k < |turns| ==> turns[k] != Sends
  {
    if turns == [] || turns[0] != Sends then 0 else 1 + Successes(turns[1..])
  }

  class Channel {
    const answers: bool         // Type is SDPTypeAnswer
    const name: Label
    const accept: AcceptQueue?
    var status: Model.Status
    var up: bool
    var closing: bool
    var rd: ChannelReader?
    var buffer: BufReader?
    ghost var readers: nat
    ghost var past: seq<Model.Reader>  // the readers replaced so far, as they were then

    ghost function Footprint(): set<object>
      reads this
    {
      {this} + (if rd == null then {} else {rd}) + (if buffer == null then {} else {buffer, buffer.buf})
    }

    ghost predicate Valid()
      reads this, buffer
    {
      && (readers == 0 <==> rd == null) && (rd == null <==> buffer == null)
      && (buffer != null ==> buffer.rd == rd && buffer.Valid())
    }

    /** The modelled state, but for where the callback stands. */
    ghost function View(): Model.Chan
      reads this, buffer, Footprint()
      requires Valid()
    {
      Model.Chan(answers && accept != null, up, closing, status, readers,
                 if buffer == null then Model.NewReader() else buffer.View(), past, Model.Ready, false)
    }

    constructor (answers: bool, name: Label, accept: AcceptQueue?)
      ensures Valid() && View() == Model.NewChan(answers && accept != null)
      ensures this.answers == answers && this.name == name && this.accept == accept && fresh(Footprint())
    {
      this.answers := answers;
      this.name := name;
      this.accept := accept;
      status, up, closing := Model.Idle, false, false;
      rd, buffer, readers, past := null, null, 0, [];
    }

    method TakeConn() returns (ok: bool)
      modifies this
      ensures ok <==> old(status) == Model.Idle
      ensures ok ==> status == Model.Active && Valid() && fresh(Footprint() - {this})
      ensures !ok ==> unchanged(this)
      ensures old(Valid()) ==> Valid() && View() == Model.TakeConn(old(View()))
    {
      if status != Model.Idle {
        return false;
      }
      status := Model.Active;
      if Valid() {
        past := if buffer == null then [] else past + [buffer.View()];
      }
      rd := new ChannelReader();
      buffer := new BufReader(rd);
      readers := readers + 1;
      return true;
    }

    method Release() returns (panics: bool)
      requires Valid()
      modifies this, rd
      ensures Valid() && View().(panicked := panics) == Model.ReleaseConn(old(View()))
      ensures old(status) != Model.Active ==> !panics && View() == old(View())
      ensures old(status) == Model.Active && !panics ==>
                status == Model.Idle && rd != null && rd.closed && rd.recvData == old(rd.recvData)
    {
      if status != Model.Active {
        return false;
      }
      if rd == null {
        return true;
      }
      panics := rd.Release();
      if !panics {
        status := Model.Idle;
      }
    }

    method Close()
      requires Valid()
      modifies this
      ensures Valid() && View() == old(View()).(status := Model.Closed, closing := true)
    {
      status := Model.Closed;
      closing := true;
    }

    method Read(data: array<byte>) returns (o: Outcome)
      requires Valid() && data !in Footprint() && View().rd.waiting.None?
      modifies Footprint(), data
      ensures Valid()
      ensures o.Got? ==> o.n <= data.Length && data[o.n..] == old(data[..])[o.n..]
      ensures Model.ChanRead(old(View()), data.Length) == (View().rd, AsOutput(o, data[..]))
      ensures View() == old(View()).(rd := View().rd)
    {
      if buffer == null {
        return Panics;
      }
      if closing && buffer.r == buffer.w {
        return AtEof;
      }
      o := buffer.Read(data);
    }

    /** A Read that waited goes on: it has passed its check, so it does not look at `close` again. */
    method Resume(data: array<byte>) returns (o: Outcome)
      requires Valid() && data !in Footprint() && View().rd.waiting == Some(data.Length) && View().rd.buffered == []
      modifies Footprint(), data
      ensures Valid()
      ensures o.Got? ==> o.n <= data.Length && data[o.n..] == old(data[..])[o.n..]
      ensures Model.Fetch(old(View()), Model.Resume) == (View().rd, AsOutput(o, data[..]))
      ensures View() == old(View()).(rd := View().rd)
    {
      o := buffer.Receive(data);
    }

    /** Where the callback stands after OnMessage has got so far. */
    ghost function Stands(a: Arrival, data: seq<byte>): Model.Handler
      reads this
    {
      if a.AtAccept? && readers > 0 then Model.Announcing(data, readers - 1)
      else if a.Queued? && a.rest != [] && readers > 0 then Model.Pushing(a.rest, readers - 1)
      else Model.Ready
    }

    /** OnMessage as far as it gets. On an open channel that is closing, its select may go either way. */
    method OnMessage(data: seq<byte>, preferClose: bool) returns (a: Arrival)
      requires Valid()
      modifies Footprint(), accept
      ensures Valid()
      ensures a.NotOpen? <==> !old(up) && !old(closing)
      ensures a.Ignored? <==> old(closing) && (preferClose || !old(up))
      ensures a.AtAccept? <==>
                && old(up) && !(old(closing) && preferClose) && old(status) == Model.Idle
                && answers && accept != null && old(|accept.entries|) >= 100
      ensures a.NotOpen? || a.Ignored? ==> View() == old(View())
      ensures a.AtAccept? || a.Queued? ==>
                View().(handler := Stands(a, data), panicked := a.Queued? && a.panics)
                == Model.Deliver(old(View()), data, accept != null && old(|accept.entries|) < Model.ACCEPT_CAP)
      ensures accept != null ==>
                accept.entries == old(accept.entries)
                                  + (if a.Queued? && answers && old(status) == Model.Idle then [this] else [])
    {
      hide Model.Pump, Model.EnterOnData, Model.Deliver;
      DeliverSplits(View(), data, accept != null && |accept.entries| < Model.ACCEPT_CAP);
      if closing && (preferClose || !up) {
        return Ignored;
      }
      if !up {
        return NotOpen;
      }
      var took := TakeConn();
      if took && answers && accept != null {
        if |accept.entries| >= Model.ACCEPT_CAP {
          return AtAccept;
        }
        accept.entries := accept.entries + [this];
      }
      a := PassOn(data);
    }

    /** The call c.rd.OnData(data): a nil reader is only dereferenced when there is data. */
    method PassOn(data: seq<byte>) returns (a: Arrival)
      requires Valid()
      modifies rd
      ensures Valid() && a.Queued?
      ensures View().(handler := Stands(a, data), panicked := a.panics) == Model.Pump(Model.EnterOnData(old(View()), data))
    {
      if rd == null {
        return Queued(data, data != []);
      }
      ghost var entered := Model.EnterOnData(View(), data);
      PumpIsOnData(entered, data);
      hide Model.Pump;
      var rest, panics := rd.OnData(data);
      return Queued(rest, panics);
    }

    /** Write under whatever its turns bring: the batches it sent, the count and the error it returns. */
    method Write(data: seq<byte>, turns: seq<Turn>) returns (sent: seq<seq<byte>>, n: nat, err: WriteError)
      requires |turns| == |Chunks(data)|
      ensures sent == Chunks(data)[..Successes(turns)]
      ensures err == Stop(turns)
      ensures n == Reported(data, turns)
      ensures |sent| == |turns| <==> err == NoError
      ensures err == ErrClosed <==> |sent| < |turns| && turns[|sent|] == SeesClose
      ensures err == ErrSend <==> |sent| < |turns| && turns[|sent|] == SendFails
      ensures n == match err
                   case NoError => |data|
                   case ErrClosed => 0
                   case ErrSend => Min((|sent| + 1) * BATCH, |data|)
    {
      sent, n := [], 0;
      var i := 0;
      ghost var k := 0;
      while i < |data|
        invariant 0 <= i <= |data| && 0 <= k <= |turns| && i == Min(k * BATCH, |data|)
        invariant n == i
        invariant sent == Chunks(data)[..k]
        invariant Chunks(data)[k..] == Chunks(data[i..])
        invariant forall j :: 0 <= j < k ==> turns[j] == Sends
      {
        var size := Min(i + BATCH, |data|);
        var turn := turns[|sent|];
        ChunksFrom(data, i);
        assert Chunks(data)[k] == Chunks(data)[k..][0];
        n := size;
        if turn != Sends {
          SuccessesIs(turns, k);
          return sent, if turn == SeesClose then 0 else n, if turn == SeesClose then ErrClosed else ErrSend;
        }
        sent := sent + [data[i..size]];
        assert Chunks(data)[k + 1..] == Chunks(data)[k..][1..];
        i := size;
        k := k + 1;
      }
      SuccessesIs(turns, k);
      return sent, n, NoError;
    }
  }

  /** A delivery is a take and, unless it waits at the accept queue, a call of OnData. */
  lemma DeliverSplits(c: Model.Chan, data: seq<byte>, room: bool)
    requires c.handler.Ready?
    ensures Model.Deliver(c, data, room) ==
            if c.status == Model.Idle && c.announces && !room
            then Model.TakeConn(c).(handler := Model.Announcing(data, c.readers))
            else Model.Pump(Model.EnterOnData(Model.TakeConn(c), data))
  {
    hide Model.Pump;
  }

  /** OnData's loop in the model: the batches that fit, or a panic at a closed queue. */
  lemma PumpIsOnData(c: Model.Chan, data: seq<byte>)
    requires !c.panicked && c.readers > 0
    requires c.handler == if data == [] then Model.Ready else Model.Pushing(data, c.readers - 1)
    ensures var k := Theorems.Fitting(c.rd.queue, data); var rest := data[Min(k * BATCH, |data|)..];
            Model.Pump(c) == if c.rd.closed && data != [] then c.(panicked := true)
                             else c.(rd := c.rd.(queue := c.rd.queue + Chunks(data)[..k]),
                                     handler := if rest == [] then Model.Ready else Model.Pushing(rest, c.readers - 1))
  {
    if data == [] {
      assert c.rd.queue + [] == c.rd.queue;
    } else if c.rd.closed {
      PumpPanics(c);
    } else {
      hide Model.Pump, Chunks;
      Theorems.PumpQueues(c);
      ChunksShape(data);
    }
  }

  lemma PumpPanics(c: Model.Chan)
    requires !c.panicked && c.handler.Pushing? && c.handler.rest != [] && c.rd.closed
    ensures Model.Pump(c) == c.(panicked := true)
  {
    assert Model.CanPush(c);
    var d := Model.PushBatch(c);
    assert d == c.(panicked := true) && !Model.CanPush(d);
    assert Model.Pump(d) == d;
  }

  /** Why Write stopped. */
  function Stop(turns: seq<Turn>): WriteError {
    var k := Successes(turns);
    if k == |turns| then NoError else if turns[k] == SeesClose then ErrClosed else ErrSend
  }

  /** The count Write returns: it is set before each send and dropped when `close` is seen. */
  function Reported(data: seq<byte>, turns: seq<Turn>): nat {
    match Stop(turns)
    case NoError => |data|
    case ErrClosed => 0
    case ErrSend => Min((Successes(turns) + 1) * BATCH, |data|)
  }

  /**
    Partial writes: whatever stops Write, what went out is a proper prefix of the data made of full
    batches; without an error it is all of the data in ceil(n / BATCH) messages, and that is the count.
    A send that fails is counted as if its batch had gone out; when `close` is seen the count is 0, so
    with an error it is never the count sent, unless `close` is seen on the first turn.
   */
  lemma PartialWrites(data: seq<byte>, turns: seq<Turn>)
    requires |turns| == |Chunks(data)|
    ensures var sent := Chunks(data)[..Successes(turns)];
            && Flatten(sent) == data[..Min(|sent| * BATCH, |data|)]
            && (Stop(turns) == NoError ==>
                  Flatten(sent) == data && |sent| == (|data| + BATCH - 1) / BATCH && Reported(data, turns) == |data|)
            && (Stop(turns) != NoError ==>
                  Flatten(sent) < data && forall i :: 0 <= i < |sent| ==> |sent[i]| == BATCH)
            && (Stop(turns) == NoError <==> |sent| == |turns|)
            && (Stop(turns) == ErrClosed <==> |sent| < |turns| && turns[|sent|] == SeesClose)
            && (Stop(turns) == ErrSend <==> |sent| < |turns| && turns[|sent|] == SendFails)
            && (Stop(turns) == ErrClosed ==> Reported(data, turns) == 0)
            && (Stop(turns) == ErrSend ==>
                  |Flatten(sent)| < Reported(data, turns) <= |Flatten(sent)| + BATCH
                  && (Reported(data, turns) == |Flatten(sent)| + BATCH || Reported(data, turns) == |data|))
            && (Stop(turns) != NoError ==>
                  (Reported(data, turns) == |Flatten(sent)| <==> Stop(turns) == ErrClosed && sent == []))
  {
    var k := Successes(turns);
    ChunksShape(data);
    ChunksPrefix(data, k);
    FlattenChunks(data);
    if k == |turns| {
      assert Chunks(data)[..k] == Chunks(data);
    } else {
      assert k * BATCH < |data|;
    }
  }

  lemma {:induction false} SuccessesIs(turns: seq<Turn>, k: nat)
    requires k <= |turns| && (forall j :: 0 <= j < k ==> turns[j] == Sends) && (k < |turns| ==> turns[k] != Sends)
    ensures Successes(turns) == k
  {
  }
}
