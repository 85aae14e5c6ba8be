/**
  Leases of the two ends. The writing side tells the other end nothing when it takes or releases its
  channel, so where the receiver's leases start is decided by how its channel is found.
 */
module LeaseAlignment {
  import opened Streams
  import opened ChannelModel
  import opened ChannelProofs
  import opened Transport

  /** Some lease's payload starts at byte p of the stream. */
  ghost predicate CutAt(ls: seq<Lease>, p: nat) {
    exists k :: 0 <= k < |ls| && |AllAccepted(ls[..k])| == p
  }

  /** Of all that was delivered, the receiver starts a lease exactly where the writer did. */
  ghost predicate LinedUp(l: Link) {
    forall p: nat :: p < |l.rx.log.delivered| ==> (CutAt(l.rx.log.leases, p) <==> p in l.starts)
  }

  /** The next message is the first of a lease: the channel is idle, or its lease has had no payload yet. */
  predicate OpensHere(s: Sys) {
    s.ch.status == Idle || (s.log.leases != [] && |Base(s)| == |s.log.delivered|)
  }

  predicate CanDeliver(l: Link) {
    l.flight != [] && Enabled(l.rx.ch, Message(l.flight[0]))
  }

  /** A delivery starts a lease exactly when its message is the first of one of the writer's. */
  predicate OnCue(l: Link, le: LinkEvent) {
    le == Deliver && CanDeliver(l) ==> (OpensHere(l.rx) <==> |l.rx.log.delivered| in l.starts)
  }

  predicate AllOnCue(l: Link, es: seq<LinkEvent>)
    decreases |es|
  {
    es == [] || (AllOnCue(l, es[..|es| - 1]) && OnCue(LinkRun(l, es[..|es| - 1]), es[|es| - 1]))
  }

  // ---------- Cuts ----------

  lemma {:induction false} AcceptedGrows(ls: seq<Lease>, k: nat)
    requires k <= |ls|
    ensures |AllAccepted(ls[..k])| <= |AllAccepted(ls)|
    decreases |ls|
  {
    if k < |ls| {
      assert ls[..|ls| - 1][..k] == ls[..k];
      AcceptedGrows(ls[..|ls| - 1], k);
    } else {
      assert ls[..k] == ls;
    }
  }

  /** Leases with the same payload, the last one aside, start at the same places. */
  lemma SameCuts(ls: seq<Lease>, ms: seq<Lease>, p: nat)
    requires |ls| == |ms| && forall k :: 0 <= k < |ls| - 1 ==> ls[k].accepted == ms[k].accepted
    ensures CutAt(ls, p) <==> CutAt(ms, p)
  {
    hide AllAccepted;
    forall k | 0 <= k < |ls| ensures AllAccepted(ls[..k]) == AllAccepted(ms[..k]) {
      AllAcceptedSame(ls[..k], ms[..k]);
    }
  }

  /** A new lease starts at the end of what is accepted. */
  lemma OpenCuts(ls: seq<Lease>, byMessage: bool, p: nat)
    ensures CutAt(OpenLease(ls, byMessage), p) <==> CutAt(ls, p) || p == |AllAccepted(ls)|
  {
    hide AllAccepted;
    var ms := OpenLease(ls, byMessage);
    assert forall k :: 0 <= k <= |ls| ==> ms[..k] == ls[..k];
    assert ms[..|ls|] == ls;
    if CutAt(ls, p) {
      var k :| 0 <= k < |ls| && |AllAccepted(ls[..k])| == p;
      assert |AllAccepted(ms[..k])| == p;
    }
    if p == |AllAccepted(ls)| {
      assert |AllAccepted(ms[..|ls|])| == p;
    }
  }

  /** No lease starts beyond the end, and one starts at the end exactly when the last has no payload. */
  lemma CutsEnd(ls: seq<Lease>, p: nat)
    requires p >= |AllAccepted(ls)|
    ensures CutAt(ls, p) <==> ls != [] && p == |AllAccepted(ls[..|ls| - 1])|
  {
    if CutAt(ls, p) {
      var k :| 0 <= k < |ls| && |AllAccepted(ls[..k])| == p;
      assert ls[..|ls| - 1][..k] == ls[..k];
      AcceptedGrows(ls[..|ls| - 1], k);
      AcceptedGrows(ls, |ls| - 1);
    }
  }

  // ---------- What every run keeps ----------

  /** The writer takes its leases between messages. */
  ghost predicate BetweenMessages(p: nat, delivered: nat, flight: seq<seq<byte>>) {
    p <= delivered || exists j :: 0 <= j <= |flight| && p == delivered + |Flatten(flight[..j])|
  }

  ghost predicate AlignInv(l: Link) {
    && LinkInv(l)
    && (l.rx.ch.handler.Announcing? ==> CutAt(l.rx.log.leases, |AllAccepted(l.rx.log.leases)|))
    && (!l.lost ==> forall i :: 0 <= i < |l.starts| ==> BetweenMessages(l.starts[i], |l.rx.log.delivered|, l.flight))
  }

  lemma MoreFlight(p: nat, delivered: nat, flight: seq<seq<byte>>, more: seq<seq<byte>>)
    requires BetweenMessages(p, delivered, flight)
    ensures BetweenMessages(p, delivered, flight + more)
  {
    if p > delivered {
      var j :| 0 <= j <= |flight| && p == delivered + |Flatten(flight[..j])|;
      assert (flight + more)[..j] == flight[..j];
    }
  }

  /** Delivering the first message keeps the places, and none lies strictly inside it. */
  lemma LessFlight(p: nat, delivered: nat, flight: seq<seq<byte>>)
    requires flight != [] && BetweenMessages(p, delivered, flight)
    ensures BetweenMessages(p, delivered + |flight[0]|, flight[1..])
    ensures !(delivered < p < delivered + |flight[0]|)
  {
    if p > delivered {
      var j :| 0 <= j <= |flight| && p == delivered + |Flatten(flight[..j])|;
      assert flight[..j] == [flight[0]] + flight[1..][..j - 1];
      FlattenAppend([flight[0]], flight[1..][..j - 1]);
      FlattenOne(flight[0]);
      assert p == delivered + |flight[0]| + |Flatten(flight[1..][..j - 1])|;
    }
  }

  /** At the receiver, no event but a message starts a lease inside what was delivered. */
  lemma LocalCuts(s: Sys, e: Event)
    requires Inv(s) && !e.Message?
    requires s.ch.handler.Announcing? ==> CutAt(s.log.leases, |AllAccepted(s.log.leases)|)
    ensures var t := Next(s, e);
            && t.log.delivered == s.log.delivered
            && (t.ch.handler.Announcing? ==> CutAt(t.log.leases, |AllAccepted(t.log.leases)|))
            && (forall p: nat :: p < |s.log.delivered| ==> (CutAt(t.log.leases, p) <==> CutAt(s.log.leases, p)))
  {
    var t := Next(s, e);
    if Enabled(s.ch, e) && e.Take? && s.ch.status == Idle {
      TakeCuts(s);
    } else {
      OthersSame(s, e);
      forall p: nat ensures CutAt(t.log.leases, p) <==> CutAt(s.log.leases, p) {
        SameCuts(s.log.leases, t.log.leases, p);
      }
    }
  }

  lemma TakeCuts(s: Sys)
    requires Inv(s) && Enabled(s.ch, Take) && s.ch.status == Idle
    requires s.ch.handler.Announcing? ==> CutAt(s.log.leases, |AllAccepted(s.log.leases)|)
    ensures var t := Next(s, Take);
            && (t.ch.handler.Announcing? ==> CutAt(t.log.leases, |AllAccepted(t.log.leases)|))
            && (forall p: nat :: p < |s.log.delivered| ==> (CutAt(t.log.leases, p) <==> CutAt(s.log.leases, p)))
  {
    hide Shape, Announced, CutAt;
    OpenKeeps(s.log.leases, Held(s.ch), false);
    hide AllAccepted;
    forall p: nat
      ensures CutAt(Next(s, Take).log.leases, p) <==> CutAt(s.log.leases, p) || p == |AllAccepted(s.log.leases)|
    {
      OpenCuts(s.log.leases, false, p);
    }
  }

  lemma OthersSame(s: Sys, e: Event)
    requires Inv(s) && !e.Message? && !(Enabled(s.ch, e) && e.Take? && s.ch.status == Idle)
    ensures var ls, t := s.log.leases, Next(s, e);
            && |t.log.leases| == |ls| && t.log.delivered == s.log.delivered
            && (forall k :: 0 <= k < |ls| - 1 ==> t.log.leases[k].accepted == ls[k].accepted)
            && (t.ch.handler.Announcing? ==> s.ch.handler.Announcing? && AllAccepted(t.log.leases) == AllAccepted(ls))
  {
    hide Books, Announced, AllAccepted, Fetch, GoodReader, Past, WakePast;
    var ls, t := s.log.leases, Next(s, e);
    if t.ch.handler.Announcing? {
      AllAcceptedSame(ls, t.log.leases);
    }
  }

  /** A message: leases start as before, and one at its first byte exactly when it opens here. */
  lemma MessageCuts(s: Sys, data: seq<byte>)
    requires Inv(s) && Enabled(s.ch, Message(data))
    ensures var t := Next(s, Message(data));
            && |t.log.delivered| == |s.log.delivered| + |data|
            && (t.ch.handler.Announcing? ==> CutAt(t.log.leases, |AllAccepted(t.log.leases)|))
            && (forall p: nat :: p < |s.log.delivered| ==> (CutAt(t.log.leases, p) <==> CutAt(s.log.leases, p)))
            && (CutAt(t.log.leases, |s.log.delivered|) <==> OpensHere(s))
            && (forall p: nat :: |s.log.delivered| < p ==> !CutAt(t.log.leases, p))
  {
    var ls, ms, d := s.log.leases, Next(s, Message(data)).log.leases, |s.log.delivered|;
    assert s.log.delivered == AllAccepted(ls) + [];
    MessageLeases(s, data);
    var base := if s.ch.status == Idle then OpenLease(ls, true) else ls;
    forall p: nat
      ensures CutAt(ms, p) <==> CutAt(ls, p) || (s.ch.status == Idle && p == d)
      ensures p >= d ==> (CutAt(ls, p) <==> ls != [] && p == |Base(s)|)
    {
      SameCuts(base, ms, p);
      OpenCuts(ls, true, p);
      if p >= d {
        CutsEnd(ls, p);
      }
    }
    if ls != [] {
      AcceptedGrows(ls, |ls| - 1);
    }
  }

  lemma MessageLeases(s: Sys, data: seq<byte>)
    requires Inv(s) && Enabled(s.ch, Message(data))
    ensures var t := Next(s, Message(data));
            var base := if s.ch.status == Idle then OpenLease(s.log.leases, true) else s.log.leases;
            && |t.log.leases| == |base|
            && (forall k :: 0 <= k < |base| - 1 ==> t.log.leases[k].accepted == base[k].accepted)
            && (t.ch.handler.Announcing? ==>
                  s.ch.status == Idle && t.log.leases == base && AllAccepted(base) == AllAccepted(s.log.leases))
  {
    hide Announced, Past, GoodReader;
    if s.ch.status == Idle {
      OpenKeeps(s.log.leases, Held(s.ch), true);
    }
    hide AllAccepted;
  }

  /** One delivery. */
  lemma DeliverCue(l: Link)
    requires AlignInv(l) && CanDeliver(l)
    ensures AlignInv(LinkNext(l, Deliver))
    ensures !l.lost ==> (LinedUp(LinkNext(l, Deliver)) <==> LinedUp(l) && OnCue(l, Deliver))
  {
    hide Inv, Next, CutAt, Base, AllAccepted, BetweenMessages, Flatten;
    LinkNextKeeps(l, Deliver);
    MessageCuts(l.rx, l.flight[0]);
    var m, d := LinkNext(l, Deliver), |l.rx.log.delivered|;
    if !l.lost {
      forall i | 0 <= i < |l.starts|
        ensures BetweenMessages(l.starts[i], d + |l.flight[0]|, l.flight[1..])
        ensures !(d < l.starts[i] < d + |l.flight[0]|)
      {
        LessFlight(l.starts[i], d, l.flight);
      }
      assert |l.flight[0]| > 0;
      assert forall p: nat :: d < p < d + |l.flight[0]| ==> p !in l.starts;
      assert LinedUp(m) <==> LinedUp(l) && (CutAt(m.rx.log.leases, d) <==> d in l.starts);
    }
  }

  /** Every other event leaves the two where they are. */
  lemma OtherCue(l: Link, le: LinkEvent)
    requires AlignInv(l) && !(le == Deliver && CanDeliver(l))
    ensures AlignInv(LinkNext(l, le))
    ensures !LinkNext(l, le).lost ==> (LinedUp(LinkNext(l, le)) <==> LinedUp(l))
  {
    hide Inv, Next, CutAt, AllAccepted, Flatten;
    LinkNextKeeps(l, le);
    match le
    case WriterTakes =>
      if !l.lost {
        assert l.flight[..|l.flight|] == l.flight;
        assert BetweenMessages(|l.written|, |l.rx.log.delivered|, l.flight);
      }
    case Send(data, sent) =>
      hide BetweenMessages, Sent;
      if !l.lost {
        forall i | 0 <= i < |l.starts|
          ensures BetweenMessages(l.starts[i], |l.rx.log.delivered|, l.flight + Sent(data, sent))
        {
          MoreFlight(l.starts[i], |l.rx.log.delivered|, l.flight, Sent(data, sent));
        }
      }
    case Deliver =>
    case Discard =>
    case Local(e) =>
      hide BetweenMessages;
      if !e.Message? && !e.Ignore? {
        LocalCuts(l.rx, e);
      }
  }

  lemma LostStays(l: Link, le: LinkEvent)
    ensures l.lost ==> LinkNext(l, le).lost
  {
    hide Next;
  }

  lemma {:induction false} AlignRun(l: Link, es: seq<LinkEvent>)
    requires AlignInv(l)
    ensures AlignInv(LinkRun(l, es))
    ensures !LinkRun(l, es).lost ==> (LinedUp(LinkRun(l, es)) <==> LinedUp(l) && AllOnCue(l, es))
    decreases |es|
  {
    hide LinkNext, AlignInv, LinedUp, OnCue;
    if es != [] {
      var m, le := LinkRun(l, es[..|es| - 1]), es[|es| - 1];
      AlignRun(l, es[..|es| - 1]);
      LostStays(m, le);
      if le == Deliver && CanDeliver(m) {
        DeliverCue(m);
      } else {
        OtherCue(m, le);
        assert OnCue(m, le) by { NothingToCue(m, le); }
      }
    }
  }

  lemma NothingToCue(l: Link, le: LinkEvent)
    requires !(le == Deliver && CanDeliver(l))
    ensures OnCue(l, le)
  {
  }

  /**
    The two ends' leases line up, in any run that throws nothing away, exactly when every message
    that is the first of a writer's lease finds the receiver idle or in a lease without payload, and
    no other message does. A writer that releases and dials again while the receiver still holds its
    lease therefore adds its bytes to that one.
   */
  lemma LeasesLineUpExactlyWhen(announces: bool, es: seq<LinkEvent>)
    ensures var l := LinkRun(FreshLink(announces), es);
            !l.lost ==> (LinedUp(l) <==> AllOnCue(FreshLink(announces), es))
  {
    hide LinkRun;
    FreshLinkInv(announces);
    AlignRun(FreshLink(announces), es);
  }

  // ---------- What lined up leases hold ----------

  /**
    The payload of lease k is one stretch of the stream, from a start of the writer's to its next, if
    the receiver has gone on to a later lease, and no start of the writer's lies inside it.
   */
  ghost predicate OneWritersLease(l: Link, k: nat)
    requires k < |l.rx.log.leases|
  {
    var ls := l.rx.log.leases;
    var p, a := |AllAccepted(ls[..k])|, ls[k].accepted;
    && p + |a| <= |l.written| && l.written[p..p + |a|] == a
    && p in l.starts && (forall q :: q in l.starts ==> !(p < q < p + |a|))
    && (k + 1 < |ls| && p + |a| < |l.rx.log.delivered| ==> p + |a| in l.starts)
  }

  lemma {:induction false} AcceptedSplits(ls: seq<Lease>, k: nat)
    requires k < |ls|
    ensures AllAccepted(ls[..k]) + ls[k].accepted == AllAccepted(ls[..k + 1]) <= AllAccepted(ls)
    decreases |ls|
  {
    assert ls[..k + 1][..k] == ls[..k];
    assert AllAccepted(ls[..k + 1]) == AllAccepted(ls[..k]) + ls[k].accepted;
    if k + 1 == |ls| {
      assert ls[..k + 1] == ls;
    } else {
      var most := ls[..|ls| - 1];
      assert most[..k] == ls[..k] && most[..k + 1] == ls[..k + 1];
      AcceptedSplits(most, k);
    }
  }

  /** No lease starts inside another. */
  lemma NoCutInside(ls: seq<Lease>, k: nat, q: nat)
    requires k < |ls| && |AllAccepted(ls[..k])| < q < |AllAccepted(ls[..k])| + |ls[k].accepted|
    ensures !CutAt(ls, q)
  {
    AcceptedSplits(ls, k);
    if CutAt(ls, q) {
      var j :| 0 <= j < |ls| && |AllAccepted(ls[..j])| == q;
      if j <= k {
        assert ls[..k][..j] == ls[..j];
        AcceptedGrows(ls[..k], j);
      } else {
        assert ls[..j][..k + 1] == ls[..k + 1];
        AcceptedGrows(ls[..j], k + 1);
      }
    }
  }

  lemma StretchOf(written: seq<byte>, all: seq<byte>, front: seq<byte>, a: seq<byte>)
    requires front + a <= all <= written
    ensures |front| + |a| <= |written| && written[|front|..|front| + |a|] == a
  {
    assert written[..|front + a|] == front + a;
    assert (front + a)[|front|..] == a;
  }

  /** What the leases were given was delivered, and what was delivered was written. */
  lemma DeliveredInOrder(l: Link)
    requires LinkInv(l) && !l.lost && l.rx.log.leases != []
    ensures AllAccepted(l.rx.log.leases) <= l.rx.log.delivered <= l.written
  {
    hide Shape, Books, Announced, Past, Flatten, AllAccepted, GoodBatches;
  }

  lemma LeasesCut(ls: seq<Lease>, k: nat)
    requires k < |ls|
    ensures CutAt(ls, |AllAccepted(ls[..k])|)
    ensures k + 1 < |ls| ==> CutAt(ls, |AllAccepted(ls[..k])| + |ls[k].accepted|)
  {
    AcceptedSplits(ls, k);
    hide AllAccepted;
    assert |AllAccepted(ls[..k + 1])| == |AllAccepted(ls[..k])| + |ls[k].accepted|;
  }

  lemma LinedUpHolds(l: Link, k: nat)
    requires LinkInv(l) && !l.lost && LinedUp(l) && k < |l.rx.log.leases| && l.rx.log.leases[k].accepted != []
    ensures OneWritersLease(l, k)
  {
    hide LinkInv, AllAccepted, CutAt;
    var ls, d := l.rx.log.leases, l.rx.log.delivered;
    DeliveredInOrder(l);
    AcceptedSplits(ls, k);
    LeasesCut(ls, k);
    var front, a := AllAccepted(ls[..k]), ls[k].accepted;
    StretchOf(l.written, AllAccepted(ls), front, a);
    assert |front| + |a| <= |d|;
    forall q | q in l.starts ensures !(|front| < q < |front| + |a|) {
      if |front| < q < |front| + |a| {
        NoCutInside(ls, k, q);
      }
    }
  }

  /** So when the leases line up, each of the receiver's with payload is a piece of one of the writer's. */
  lemma LinedUpLeasesAreWriters(announces: bool, es: seq<LinkEvent>, k: nat)
    requires AllOnCue(FreshLink(announces), es) && k < |LinkRun(FreshLink(announces), es).rx.log.leases|
    ensures var l := LinkRun(FreshLink(announces), es);
            !l.lost && l.rx.log.leases[k].accepted != [] ==> OneWritersLease(l, k)
  {
    hide LinkRun, LinkInv, AllOnCue, LinedUp, OneWritersLease;
    var l := LinkRun(FreshLink(announces), es);
    FreshLinkInv(announces);
    LinkRunKeeps(FreshLink(announces), es);
    if !l.lost && l.rx.log.leases[k].accepted != [] {
      LeasesLineUpExactlyWhen(announces, es);
      LinedUpHolds(l, k);
    }
  }

  // ---------- A run that shows where they do not ----------

  /**
    Two of the writer's leases read as one. The writer answers: each message from the dialling end takes
    its channel anew, once its connection has been released; the dialling end holds on to its lease.
   */
  lemma WriterLeasesMerge()
    ensures var first := [Local(Open), Local(Take), WriterTakes, Send([1], 1), Deliver];
            var second := [Local(Push), WriterTakes, Send([2], 1), Deliver, Local(Push)];
            var l := LinkRun(FreshLink(false), first + second);
            l.starts == [0, 1] && l.rx.log.leases == [Lease([1, 2], [], false, 0)] && !LinedUp(l)
  {
    hide LinkRun, LinkNext;
    var first := [Local(Open), Local(Take), WriterTakes, Send([1], 1), Deliver];
    var second := [Local(Push), WriterTakes, Send([2], 1), Deliver, Local(Push)];
    LinkRunAppend(FreshLink(false), first, second);
    var l := FirstLease();
    SecondLease(l);
    OneCut(LinkRun(FreshLink(false), first + second));
  }

  lemma OneCut(m: Link)
    requires m.starts == [0, 1] && m.rx.log == Log([Lease([1, 2], [], false, 0)], [1, 2])
    ensures !LinedUp(m)
  {
    var ls := m.rx.log.leases;
    assert ls[..0] == [];
    assert m.starts[1] == 1;
    assert !CutAt(ls, 1);
    assert 1 in m.starts && 1 < |m.rx.log.delivered|;
  }

  lemma FirstLease() returns (l: Link)
    ensures l == LinkRun(FreshLink(false), [Local(Open), Local(Take), WriterTakes, Send([1], 1), Deliver])
    ensures l == Link([1], [0], [], Sys(Chan(false, true, false, Active, 1, NewReader(), [], Pushing([1], 0), false),
                                        Log([Lease([1], [], false, 0)], [1])), false)
  {
    hide LinkRun, Sent;
    var b: seq<byte> := [1];
    var f := FreshLink(false);
    var l2 := LinkNext(LinkNext(f, Local(Open)), Local(Take));
    assert l2.rx == Sys(Chan(false, true, false, Active, 1, NewReader(), [], Ready, false), Log([Lease([], [], false, 0)], []));
    var l3 := LinkNext(l2, WriterTakes);
    assert l3 == l2.(starts := [0]);
    SendOne(l3, 1);
    var l4 := LinkNext(l3, Send(b, 1));
    assert [] + b == b;
    assert l4 == l3.(written := b, flight := [b]);
    l := LinkNext(l4, Deliver);
    LinkRunFive(f, Local(Open), Local(Take), WriterTakes, Send(b, 1), Deliver);
  }

  lemma SecondLease(l: Link)
    requires l == Link([1], [0], [], Sys(Chan(false, true, false, Active, 1, NewReader(), [], Pushing([1], 0), false),
                                         Log([Lease([1], [], false, 0)], [1])), false)
    ensures var m := LinkRun(l, [Local(Push), WriterTakes, Send([2], 1), Deliver, Local(Push)]);
            m.starts == [0, 1] && m.rx.log == Log([Lease([1, 2], [], false, 0)], [1, 2])
  {
    hide LinkRun, Sent;
    var b: seq<byte> := [2];
    OneByteQueued(l.rx, 1);
    var l1 := LinkNext(l, Local(Push));
    assert l1.rx == Sys(l.rx.ch.(rd := NewReader().(queue := [[1]]), handler := Ready), l.rx.log);
    var l2 := LinkNext(l1, WriterTakes);
    assert l2 == l1.(starts := [0, 1]);
    SendOne(l2, 2);
    var l3 := LinkNext(l2, Send(b, 1));
    assert l3 == l2.(written := l2.written + b, flight := [b]);
    var l4 := LinkNext(l3, Deliver);
    assert [1] + b == [1, 2];
    assert l4.rx.log.leases == Accept(l.rx.log.leases, b) && l4.rx.log.delivered == [1] + b;
    assert l4.rx.log == Log([Lease([1, 2], [], false, 0)], [1, 2]);
    var l5 := LinkNext(l4, Local(Push));
    LinkRunFive(l, Local(Push), WriterTakes, Send(b, 1), Deliver, Local(Push));
  }
}
