/** What happens to connections over whole runs: their marks, what they write, and the order they are accepted in. */
module ConnMarks {
  import opened Streams
  import opened ChannelModel
  import opened Transport
  import opened LeaseWorld
  import opened StaleConns

  /** The connection was there and was closed, or released, by event number x. */
  ghost predicate ClosedAt(es: seq<WorldEvent>, x: nat, i: nat) {
    x < |es| && es[x] == ConnClose(i) && i < |WorldRun(es[..x]).conns|
  }

  ghost predicate ReleasedAt(es: seq<WorldEvent>, x: nat, i: nat) {
    x < |es| && (es[x] == ConnClose(i) || es[x] == ConnRelease(i)) && i < |WorldRun(es[..x]).conns|
  }

  /** One event sets a mark of a connection that is there exactly when it is that connection's, and clears none. */
  lemma MarksNext(w: World, we: WorldEvent, i: nat)
    ensures var v := WorldNext(w, we);
            && |w.conns| <= |v.conns|
            && (i < |w.conns| ==> (v.conns[i].closed <==> w.conns[i].closed || we == ConnClose(i)))
            && (i < |w.conns| ==>
                  (v.conns[i].isRelease <==> w.conns[i].isRelease || we == ConnClose(i) || we == ConnRelease(i)))
            && (|w.conns| <= i < |v.conns| ==> !v.conns[i].closed && !v.conns[i].isRelease)
  {
    hide Next, Out, Flatten, Sent;
  }

  /** Over every run: a connection is closed exactly when it was closed, and released exactly when it was released or closed. */
  lemma {:induction false} MarkedExactlyWhen(es: seq<WorldEvent>, i: nat)
    requires i < |WorldRun(es).conns|
    ensures WorldRun(es).conns[i].closed <==> exists x: nat :: ClosedAt(es, x, i)
    ensures WorldRun(es).conns[i].isRelease <==> exists x: nat :: ReleasedAt(es, x, i)
  {
    hide WorldNext;
    if es != [] {
      var most, we := es[..|es| - 1], es[|es| - 1];
      MarksNext(WorldRun(most), we, i);
      assert forall x: nat :: x < |most| ==> most[..x] == es[..x] && most[x] == es[x];
      assert es[..|most|] == most && es[|most|] == we;
      if i < |WorldRun(most).conns| {
        MarkedExactlyWhen(most, i);
        if y: nat :| ClosedAt(most, y, i) { assert ClosedAt(es, y, i); }
        if y: nat :| ReleasedAt(most, y, i) { assert ReleasedAt(es, y, i); }
        if y: nat :| ClosedAt(es, y, i) { assert y == |most| || ClosedAt(most, y, i); }
        if y: nat :| ReleasedAt(es, y, i) { assert y == |most| || ReleasedAt(most, y, i); }
        assert we == ConnClose(i) ==> ClosedAt(es, |most|, i);
        assert we == ConnClose(i) || we == ConnRelease(i) ==> ReleasedAt(es, |most|, i);
      } else {
        forall x: nat | x < |es| ensures i >= |WorldRun(es[..x]).conns| {
          ConnsGrow(es[..x], most[x..]);
          assert es[..x] + most[x..] == most;
        }
      }
    }
  }

  lemma {:induction false} ConnsGrow(es: seq<WorldEvent>, more: seq<WorldEvent>)
    ensures |WorldRun(es).conns| <= |WorldRun(es + more).conns|
    decreases |more|
  {
    hide WorldNext;
    if more == [] {
      assert es + more == es;
    } else {
      var most, we := more[..|more| - 1], more[|more| - 1];
      ConnsGrow(es, most);
      assert es + more == (es + most) + [we];
      WorldRunTo(es + most, we);
      MarksNext(WorldRun(es + most), we, 0);
    }
  }

  /**
    Exactly what a connection's Write does, over every run: nothing once it has been closed; otherwise
    the bytes of the batches that go out enter the stream of its channel's current lease.
   */
  lemma WritesExactlyWhen(es: seq<WorldEvent>, i: nat, data: seq<byte>, batches: nat)
    requires i < |WorldRun(es).conns|
    ensures var w := WorldRun(es); var v := WorldNext(w, ConnWrite(i, data, batches)); var ch := w.conns[i].ch;
            && ch < |w.chans| && w.chans[ch].ch.readers > 0
            && v == if exists x: nat :: ClosedAt(es, x, i) then w
                    else w.(sent := w.sent + [Wrote(ch, w.chans[ch].ch.readers - 1, i, data[..Min(batches * BATCH, |data|)])])
  {
    hide WorldRun, Sent, Flatten, ClosedAt;
    var w := WorldRun(es);
    OneOwnerPerLease(es);
    assert Claims(w, Wrapped(i), w.conns[i].ch);
    MarkedExactlyWhen(es, i);
    SentIsPrefix(data, batches);
    hide Once;
  }

  /** Closing a connection ends its writing for good, whatever happens after. */
  lemma CloseEndsWriting(es: seq<WorldEvent>, i: nat, after: seq<WorldEvent>, data: seq<byte>, batches: nat)
    requires i < |WorldRun(es).conns|
    ensures var w := WorldRun(es + [ConnClose(i)] + after); i < |w.conns| && WorldNext(w, ConnWrite(i, data, batches)) == w
  {
    hide WorldRun, WorldNext;
    var all := es + [ConnClose(i)] + after;
    ConnsGrow(es, [ConnClose(i)] + after);
    assert es + ([ConnClose(i)] + after) == all;
    assert all[..|es|] == es && all[|es|] == ConnClose(i);
    assert ClosedAt(all, |es|, i);
    WritesExactlyWhen(all, i, data, batches);
  }

  // ---------- Accepting ----------

  /** The leases announced in a run, in order. */
  function Announced(es: seq<WorldEvent>): seq<Entry> {
    if es == [] then []
    else
      var most, we := es[..|es| - 1], es[|es| - 1];
      var w := WorldRun(most);
      Announced(most)
      + if we.Announces? && we.ch < |w.chans| && Enabled(w.chans[we.ch].ch, Announce) && |w.accept| < 100
        then [Entry(we.ch, w.chans[we.ch].ch.handler.lease)] else []
  }

  /** The leases of the connections that Accept made in a run, in order. */
  function Accepted(es: seq<WorldEvent>): seq<Entry> {
    if es == [] then []
    else
      var most, we := es[..|es| - 1], es[|es| - 1];
      var w, v := WorldRun(most), WorldRun(es);
      Accepted(most)
      + if we.Accepts? && |v.conns| == |w.conns| + 1 then [Entry(v.conns[|w.conns|].ch, v.conns[|w.conns|].lease)] else []
  }

  lemma AcceptNext(w: World, we: WorldEvent)
    ensures var v := WorldNext(w, we);
            if we.Announces? && we.ch < |w.chans| && Enabled(w.chans[we.ch].ch, Announce) && |w.accept| < 100
            then v.accept == w.accept + [Entry(we.ch, w.chans[we.ch].ch.handler.lease)]
            else if we.Accepts? && |v.conns| == |w.conns| + 1
            then [Entry(v.conns[|w.conns|].ch, v.conns[|w.conns|].lease)] + v.accept == w.accept
            else v.accept == w.accept
    ensures we.Accepts? && w.accept != [] ==> |WorldNext(w, we).conns| == |w.conns| + 1
  {
    hide Next, Out, Flatten, Sent;
  }

  /** Over every run, leases are accepted in the order they were announced, none lost and none twice, at most 100 waiting. */
  lemma {:induction false} AcceptedInOrder(es: seq<WorldEvent>)
    ensures Accepted(es) + WorldRun(es).accept == Announced(es) && |WorldRun(es).accept| <= 100
  {
    hide WorldNext;
    if es != [] {
      var most, we := es[..|es| - 1], es[|es| - 1];
      AcceptedInOrder(most);
      AcceptNext(WorldRun(most), we);
      var w, v := WorldRun(most), WorldRun(es);
      if we.Accepts? && |v.conns| == |w.conns| + 1 {
        assert Accepted(most) + ([w.accept[0]] + v.accept) == (Accepted(most) + [w.accept[0]]) + v.accept;
      }
    }
  }
}
