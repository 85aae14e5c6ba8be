/** net/conn.go's release-once wrapper and net/listener.go's Accept. */
module Conns {
  import opened Streams
  import Model = ChannelModel
  import opened Channels

  class Conn {
    const rwr: Channel
    var isRelease: bool
    var closed: bool

    constructor (rwr: Channel)
      ensures this.rwr == rwr && !isRelease && !closed
    {
      this.rwr := rwr;
      isRelease, closed := false, false;
    }

    method IsClose() returns (c: bool)
      ensures c == closed
    {
      c := closed;
    }

    /** Hands the release on once; a connection that was released leaves the channel alone. */
    method Release() returns (panics: bool)
      requires rwr.Valid()
      modifies this`isRelease, rwr, rwr.rd
      ensures rwr.Valid() && isRelease
      ensures if old(isRelease) then !panics && rwr.View() == old(rwr.View())
              else rwr.View().(panicked := panics) == Model.ReleaseConn(old(rwr.View()))
    {
      if isRelease {
        return false;
      }
      isRelease := true;
      panics := rwr.Release();
    }

    /** Releases, then marks the connection closed; a panic in the release leaves it unmarked. */
    method Close() returns (panics: bool)
      requires rwr.Valid()
      modifies this, rwr, rwr.rd
      ensures rwr.Valid() && isRelease
      ensures if old(isRelease) then !panics && rwr.View() == old(rwr.View())
              else rwr.View().(panicked := panics) == Model.ReleaseConn(old(rwr.View()))
      ensures closed == (old(closed) || !panics)
    {
      panics := Release();
      if panics {
        return;
      }
      var c := IsClose();
      if c {
        return;
      }
      closed := true;
    }

    /** A closed connection sends nothing; a released one that is not closed still does. */
    method Write(data: seq<byte>, turns: seq<Turn>) returns (sent: seq<seq<byte>>, n: nat, err: WriteError)
      requires |turns| == |Chunks(data)|
      ensures closed ==> sent == [] && n == 0 && err == ErrClosed
      ensures !closed ==> sent == Chunks(data)[..Successes(turns)] && n == Reported(data, turns) && err == Stop(turns)
      ensures !closed && err == ErrSend ==> n == Min((|sent| + 1) * BATCH, |data|)
    {
      if closed {
        return [], 0, ErrClosed;
      }
      sent, n, err := rwr.Write(data, turns);
    }
  }

  datatype Accepted = NewConn(conn: Conn) | ListenerClosed | Waits

  class Listener {
    const accept: AcceptQueue
    var closed: bool

    constructor (accept: AcceptQueue)
      ensures this.accept == accept && !closed
    {
      this.accept := accept;
      closed := false;
    }

    method Close()
      modifies this
      ensures closed
    {
      closed := true;
    }

    /**
      Wraps the head of the accept queue in a new connection and takes it off. With the listener
      closed as well, the select may go either way: `preferClose` is its choice.
     */
    method Accept(preferClose: bool) returns (r: Accepted)
      modifies accept
      ensures r.NewConn? <==> old(accept.entries) != [] && !(closed && preferClose)
      ensures r.ListenerClosed? <==> closed && (preferClose || old(accept.entries) == [])
      ensures r.NewConn? ==>
        && [r.conn.rwr] + accept.entries == old(accept.entries)
        && fresh(r.conn) && !r.conn.isRelease && !r.conn.closed
      ensures !r.NewConn? ==> accept.entries == old(accept.entries)
    {
      if closed && (preferClose || accept.entries == []) {
        return ListenerClosed;
      }
      if accept.entries == [] {
        return Waits;
      }
      var rwr := accept.entries[0];
      accept.entries := accept.entries[1..];
      var c := new Conn(rwr);
      return NewConn(c);
    }
  }
}
