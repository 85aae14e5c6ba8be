/**
  Channels in pairs, with connections at both ends: what a connection's Write sends travels to the other
  end of its channel, and is read there in the leases of other connections.
 */
module Tunnel {
  import opened Streams
  import opened ChannelModel
  import opened ChannelProofs
  import opened ChannelTheorems
  import opened Transport
  import opened LeaseAlignment
  import opened LeaseWorld
  import opened StaleConns

  /** All that has happened in the world, and, by channel, the messages on their way to it and whether one was thrown away. */
  datatype Net = Net(trace: seq<WorldEvent>, flights: seq<seq<seq<byte>>>, lost: seq<bool>)

  function Around(n: Net): World {
    WorldRun(n.trace)
  }

  /** Channels come in pairs: an even one that dials, and the next one, which answers. */
  function Other(ch: nat): nat {
    if ch % 2 == 0 then ch + 1 else ch - 1
  }

  /**
    NewPair: a data channel comes up at both ends. Does: anything a connection, a pool, a listener, a
    callback or a close does. Arrives and Drops: the next message to a channel reaches its callback, which
    takes it or, once closing, may throw it away.
   */
  datatype NetEvent = NewPair | Does(we: WorldEvent) | Arrives(ch: nat) | Drops(ch: nat)

  /** Messages and channels have events of their own. */
  predicate Free(we: WorldEvent) {
    !we.Create? && !(we.Arrive? && (we.e.Message? || we.e.Ignore?))
  }

  /** A Write that sends on channel ch. */
  predicate WritesOn(w: World, we: WorldEvent, ch: nat) {
    we.ConnWrite? && we.i < |w.conns| && w.conns[we.i].ch == ch < |w.chans| && !w.conns[we.i].closed
  }

  predicate CanReach(n: Net, ch: nat, e: Event) {
    ch < |n.flights| && n.flights[ch] != [] && ch < |Around(n).chans| && Enabled(Around(n).chans[ch].ch, e)
  }

  function Head(n: Net, ch: nat): seq<byte> {
    if ch < |n.flights| && n.flights[ch] != [] then n.flights[ch][0] else []
  }

  function Flown(n: Net, we: WorldEvent): seq<seq<seq<byte>>> {
    seq(|n.flights|, c requires 0 <= c < |n.flights| =>
      if WritesOn(Around(n), we, Other(c)) then n.flights[c] + Sent(we.data, we.batches) else n.flights[c])
  }

  function NetNext(n: Net, ne: NetEvent): Net {
    match ne
    case NewPair => Net(n.trace + [Create(false)] + [Create(true)], n.flights + [[], []], n.lost + [false, false])
    case Does(we) => if !Free(we) then n else n.(trace := n.trace + [we], flights := Flown(n, we))
    case Arrives(ch) =>
      if !CanReach(n, ch, Message(Head(n, ch))) then n
      else n.(trace := n.trace + [Arrive(ch, Message(Head(n, ch)))], flights := n.flights[ch := n.flights[ch][1..]])
    case Drops(ch) =>
      if !CanReach(n, ch, Ignore(Head(n, ch))) || ch >= |n.lost| then n
      else n.(flights := n.flights[ch := n.flights[ch][1..]], lost := n.lost[ch := true])
  }

  function NetRun(es: seq<NetEvent>): Net {
    if es == [] then Net([], [], []) else NetNext(NetRun(es[..|es| - 1]), es[|es| - 1])
  }

  // ---------- What was sent, by lease ----------

  /** What went out on a channel in leases lo up to hi. */
  function Between(sent: seq<Wrote>, ch: nat, lo: nat, hi: nat): seq<byte> {
    if sent == [] then []
    else
      var last := sent[|sent| - 1];
      Between(sent[..|sent| - 1], ch, lo, hi) + (if last.ch == ch && lo <= last.lease < hi then last.data else [])
  }

  lemma BetweenSnoc(sent: seq<Wrote>, last: Wrote, ch: nat, lo: nat, hi: nat)
    ensures Between(sent + [last], ch, lo, hi)
         == Between(sent, ch, lo, hi) + (if last.ch == ch && lo <= last.lease < hi then last.data else [])
  {
    assert (sent + [last])[..|sent|] == sent;
  }

  /** Leases of a channel go out one after the other. */
  ghost predicate InTurn(sent: seq<Wrote>) {
    forall x, y :: 0 <= x < y < |sent| && sent[x].ch == sent[y].ch ==> sent[x].lease <= sent[y].lease
  }

  lemma {:induction false} NoneBetween(sent: seq<Wrote>, ch: nat, lo: nat, hi: nat)
    requires forall x :: 0 <= x < |sent| && sent[x].ch == ch ==> !(lo <= sent[x].lease < hi)
    ensures Between(sent, ch, lo, hi) == []
  {
    if sent != [] {
      NoneBetween(sent[..|sent| - 1], ch, lo, hi);
    }
  }

  lemma {:induction false} BetweenSplits(sent: seq<Wrote>, ch: nat, lo: nat, mid: nat, hi: nat)
    requires InTurn(sent) && lo <= mid <= hi
    ensures Between(sent, ch, lo, hi) == Between(sent, ch, lo, mid) + Between(sent, ch, mid, hi)
  {
    if sent != [] {
      var most, last := sent[..|sent| - 1], sent[|sent| - 1];
      BetweenSplits(most, ch, lo, mid, hi);
      if last.ch == ch && lo <= last.lease < mid {
        NoneBetween(most, ch, mid, hi);
        assert Between(most, ch, lo, mid) + last.data + [] == (Between(most, ch, lo, mid) + []) + last.data;
      } else {
        var more := if last.ch == ch && mid <= last.lease < hi then last.data else [];
        assert Between(sent, ch, lo, mid) == Between(most, ch, lo, mid);
        assert (Between(most, ch, lo, mid) + Between(most, ch, mid, hi)) + more
            == Between(most, ch, lo, mid) + (Between(most, ch, mid, hi) + more);
      }
    }
  }

  lemma {:induction false} StreamIsBetween(sent: seq<Wrote>, ch: nat, k: nat)
    ensures Stream(sent, ch, k) == Between(sent, ch, k, k + 1)
  {
    if sent != [] {
      StreamIsBetween(sent[..|sent| - 1], ch, k);
    }
  }

  /** Every byte sent was written by a connection of that channel, in a lease not before its own. */
  ghost predicate SentOk(w: World) {
    && InTurn(w.sent)
    && forall x :: 0 <= x < |w.sent| ==>
         var e := w.sent[x];
         && e.ch < |w.chans| && e.lease < w.chans[e.ch].ch.readers
         && e.writer < |w.conns| && w.conns[e.writer].ch == e.ch
  }

  /** Leases of a channel are only ever added. */
  lemma ReadersStay(w: World, we: WorldEvent, ch: nat)
    requires ch < |w.chans|
    ensures ch < |WorldNext(w, we).chans|
    ensures w.chans[ch].ch.readers <= WorldNext(w, we).chans[ch].ch.readers <= w.chans[ch].ch.readers + 1
  {
    hide WorldNext, Next;
    ConnsMove(w, we);
    ChannelMoves(w, we, ch);
    ReadersGrow(w.chans[ch], EventOf(w.chans[ch].ch, we));
  }

  lemma SentGrows(w: World, we: WorldEvent)
    ensures var v := WorldNext(w, we);
            if we.ConnWrite? && we.i < |w.conns| && WritesOn(w, we, w.conns[we.i].ch) then
              var ch := w.conns[we.i].ch;
              v == w.(sent := w.sent + [Wrote(ch, Current(w.chans[ch].ch), we.i, Flatten(Sent(we.data, we.batches)))])
            else v.sent == w.sent
  {
    hide Next, Out, Flatten, Sent;
  }

  lemma SentNext(w: World, we: WorldEvent)
    requires SentOk(w) && Once(w)
    ensures SentOk(WorldNext(w, we))
  {
    hide WorldNext, Flatten, Sent, Once;
    var v := WorldNext(w, we);
    SentGrows(w, we);
    ConnsMove(w, we);
    forall ch: nat | ch < |w.chans|
      ensures ch < |v.chans| && w.chans[ch].ch.readers <= v.chans[ch].ch.readers
    {
      ReadersStay(w, we, ch);
    }
    if v.sent != w.sent {
      assert w.chans[w.conns[we.i].ch].ch.readers > 0 by { ConnHasLease(w, we.i); }
    }
  }

  lemma ConnHasLease(w: World, i: nat)
    requires Once(w) && i < |w.conns|
    ensures w.conns[i].ch < |w.chans| && w.conns[i].lease < w.chans[w.conns[i].ch].ch.readers
  {
    assert Claims(w, Wrapped(i), w.conns[i].ch);
  }

  lemma {:induction false} SentRun(es: seq<WorldEvent>)
    ensures SentOk(WorldRun(es))
  {
    hide WorldNext, Once;
    if es != [] {
      hide SentOk;
      SentRun(es[..|es| - 1]);
      OneOwnerPerLease(es[..|es| - 1]);
      SentNext(WorldRun(es[..|es| - 1]), es[|es| - 1]);
    }
  }

  // ---------- Each direction of each pair is a link ----------

  /** Where in its stream a channel's leases started. */
  function StartsOf(w: World, ch: nat): seq<nat>
    requires ch < |w.chans|
  {
    seq(w.chans[ch].ch.readers, m requires 0 <= m => |Between(w.sent, ch, 0, m)|)
  }

  function WrittenOn(w: World, ch: nat): seq<byte>
    requires ch < |w.chans|
  {
    Between(w.sent, ch, 0, w.chans[ch].ch.readers)
  }

  ghost predicate NetOk(n: Net) {
    |n.flights| == |n.lost| == |Around(n).chans| && |n.lost| % 2 == 0
  }

  lemma OtherEnd(n: Net, ch: nat)
    requires NetOk(n) && ch < |n.flights|
    ensures Other(ch) < |n.flights| && Other(ch) != ch && Other(Other(ch)) == ch
  {
    hide WorldRun;
  }

  /** The direction towards channel ch: its other end writes, it receives. */
  ghost function LinkTo(n: Net, ch: nat): Link
    requires NetOk(n) && ch < |n.flights|
  {
    OtherEnd(n, ch);
    var w, o := Around(n), Other(ch);
    Link(WrittenOn(w, o), StartsOf(w, o), n.flights[ch], w.chans[ch], n.lost[ch])
  }

  /** Nothing was sent in a lease that has not been taken. */
  lemma NothingLater(w: World, ch: nat, m: nat)
    requires SentOk(w) && ch < |w.chans| && m >= w.chans[ch].ch.readers
    ensures Between(w.sent, ch, 0, m) == WrittenOn(w, ch)
  {
    BetweenSplits(w.sent, ch, 0, w.chans[ch].ch.readers, m);
    NoneBetween(w.sent, ch, w.chans[ch].ch.readers, m);
  }

  /** A Write on the channel adds to its stream, in the current lease. */
  lemma WriteAdds(w: World, we: WorldEvent, ch: nat)
    requires SentOk(w) && Once(w) && WritesOn(w, we, ch)
    ensures var v := WorldNext(w, we);
            && v.chans == w.chans && StartsOf(v, ch) == StartsOf(w, ch)
            && WrittenOn(v, ch) == WrittenOn(w, ch) + Flatten(Sent(we.data, we.batches))
  {
    hide WorldNext, Flatten, Sent, Once;
    var v, r := WorldNext(w, we), w.chans[ch].ch.readers;
    SentGrows(w, we);
    ConnHasLease(w, we.i);
    var last := Wrote(ch, r - 1, we.i, Flatten(Sent(we.data, we.batches)));
    BetweenSnoc(w.sent, last, ch, 0, r);
    forall m | 0 <= m < r ensures Between(v.sent, ch, 0, m) == Between(w.sent, ch, 0, m) {
      BetweenSnoc(w.sent, last, ch, 0, m);
    }
  }

  /** Any other event leaves the stream, and notes where a new lease starts. */
  lemma OthersLeaveStream(w: World, we: WorldEvent, ch: nat)
    requires SentOk(w) && ch < |w.chans| && !WritesOn(w, we, ch)
    ensures var v := WorldNext(w, we);
            && ch < |v.chans| && WrittenOn(v, ch) == WrittenOn(w, ch)
            && StartsOf(v, ch) == StartsOf(w, ch)
                 + (if v.chans[ch].ch.readers > w.chans[ch].ch.readers then [|WrittenOn(w, ch)|] else [])
  {
    hide WorldNext, Flatten, Sent, SentOk;
    var v := WorldNext(w, we);
    SentGrows(w, we);
    ReadersStay(w, we, ch);
    forall m: nat ensures Between(v.sent, ch, 0, m) == Between(w.sent, ch, 0, m) {
      if v.sent != w.sent {
        BetweenSnoc(w.sent, v.sent[|w.sent|], ch, 0, m);
      }
    }
    NothingLater(w, ch, v.chans[ch].ch.readers);
  }

  /** An event at another channel. */
  lemma OtherChannelStays(w: World, e: Event, c: nat, ch: nat)
    requires c < |w.chans| && ch < |w.chans| && c != ch && FromNetwork(e)
    ensures var v := WorldNext(w, Arrive(c, e)); |v.chans| == |w.chans| && v.chans[ch] == w.chans[ch]
    ensures WorldNext(w, Arrive(c, e)).chans[c] == Next(w.chans[c], e)
  {
    hide Next;
  }

  /** What an event is for the direction towards ch. */
  ghost function LinkEvents(n: Net, ne: NetEvent, ch: nat): seq<LinkEvent>
    requires NetOk(n) && ch < |n.flights|
  {
    OtherEnd(n, ch);
    var w, o := Around(n), Other(ch);
    match ne
    case NewPair => []
    case Does(we) =>
      if !Free(we) then []
      else if WritesOn(w, we, o) then [Send(we.data, we.batches)]
      else (if ChanChanges(w, we, ch) then [Local(EventOf(w.chans[ch].ch, we))] else []) + Taking(w, we, o)
    case Arrives(c) =>
      if !CanReach(n, c, Message(Head(n, c))) then []
      else if c == ch then [Deliver]
      else Taking(w, Arrive(c, Message(Head(n, c))), o)
    case Drops(c) => if c == ch && CanReach(n, c, Ignore(Head(n, c))) then [Discard] else []
  }

  predicate ChanChanges(w: World, we: WorldEvent, ch: nat) {
    ch < |w.chans| && ch < |WorldNext(w, we).chans| && WorldNext(w, we).chans[ch] != w.chans[ch]
  }

  function Taking(w: World, we: WorldEvent, o: nat): seq<LinkEvent> {
    if o < |w.chans| && o < |WorldNext(w, we).chans| && WorldNext(w, we).chans[o].ch.readers > w.chans[o].ch.readers
    then [WriterTakes] else []
  }

  lemma LinkRunShort(l: Link, es: seq<LinkEvent>)
    ensures LinkRun(l, []) == l
    ensures |es| == 1 ==> LinkRun(l, es) == LinkNext(l, es[0])
    ensures |es| == 2 ==> LinkRun(l, es) == LinkNext(LinkNext(l, es[0]), es[1])
  {
    hide LinkNext;
    if |es| == 1 {
      assert es == [es[0]] + [];
      LinkRunOne(l, es[0], []);
    }
    if |es| == 2 {
      assert es == [es[0]] + [es[1]] && [es[1]] == [es[1]] + [];
      LinkRunOne(l, es[0], [es[1]]);
      LinkRunOne(LinkNext(l, es[0]), es[1], []);
    }
  }

  /** The world and the flights after an event that adds one world event. */
  lemma NetStays(n: Net, we: WorldEvent, flights: seq<seq<seq<byte>>>)
    requires NetOk(n) && !we.Create? && |flights| == |n.flights|
    ensures var m := n.(trace := n.trace + [we], flights := flights); NetOk(m) && Around(m) == WorldNext(Around(n), we)
  {
    hide WorldNext, WorldRun;
    WorldRunTo(n.trace, we);
    NoNewChannel(Around(n), we);
  }

  lemma NoNewChannel(w: World, we: WorldEvent)
    requires !we.Create?
    ensures |WorldNext(w, we).chans| == |w.chans|
  {
    hide Next, Out, Flatten, Sent;
  }

  // ---------- Steps ----------

  lemma FreeEvent(c: Chan, we: WorldEvent)
    requires Free(we)
    ensures !EventOf(c, we).Message? && !EventOf(c, we).Ignore?
  {
  }

  lemma DoesLink(n: Net, we: WorldEvent, ch: nat)
    requires NetOk(n) && Free(we) && ch < |n.flights|
    ensures var m := NetNext(n, Does(we));
            NetOk(m) && |m.flights| == |n.flights| && LinkTo(m, ch) == LinkRun(LinkTo(n, ch), LinkEvents(n, Does(we), ch))
  {
    hide WorldRun, WorldNext, Next, Sent, Flatten, Once, SentOk, EventOf, Between, Observe, Step;
    var w, m, o := Around(n), NetNext(n, Does(we)), Other(ch);
    OtherEnd(n, ch);
    NetStays(n, we, m.flights);
    SentRun(n.trace);
    var v, les := WorldNext(w, we), LinkEvents(n, Does(we), ch);
    LinkRunShort(LinkTo(n, ch), les);
    if WritesOn(w, we, o) {
      OneOwnerPerLease(n.trace);
      WriteAdds(w, we, o);
    } else {
      OthersLeaveStream(w, we, o);
      ReadersStay(w, we, o);
      ChannelMoves(w, we, ch);
      FreeEvent(w.chans[ch].ch, we);
      hide WrittenOn, StartsOf, Free, WritesOn;
      assert m.flights[ch] == n.flights[ch];
    }
  }

  lemma ArrivesLink(n: Net, c: nat, ch: nat)
    requires NetOk(n) && ch < |n.flights| && CanReach(n, c, Message(Head(n, c)))
    ensures var m := NetNext(n, Arrives(c));
            NetOk(m) && |m.flights| == |n.flights| && LinkTo(m, ch) == LinkRun(LinkTo(n, ch), LinkEvents(n, Arrives(c), ch))
  {
    hide WorldRun, WorldNext, Next, Sent, Flatten, SentOk, Between, Observe, Step, Enabled;
    var w, m, o, msg := Around(n), NetNext(n, Arrives(c)), Other(ch), Head(n, c);
    var we := Arrive(c, Message(msg));
    OtherEnd(n, ch);
    NetStays(n, we, m.flights);
    SentRun(n.trace);
    LinkRunShort(LinkTo(n, ch), LinkEvents(n, Arrives(c), ch));
    OthersLeaveStream(w, we, o);
    hide WrittenOn, StartsOf;
    if c == ch {
      OtherChannelStays(w, Message(msg), c, o);
    } else {
      OtherChannelStays(w, Message(msg), c, ch);
      ReadersStay(w, we, o);
    }
  }

  lemma DropsLink(n: Net, c: nat, ch: nat)
    requires NetOk(n) && ch < |n.flights|
    ensures var m := NetNext(n, Drops(c));
            NetOk(m) && |m.flights| == |n.flights| && LinkTo(m, ch) == LinkRun(LinkTo(n, ch), LinkEvents(n, Drops(c), ch))
  {
    hide WorldRun, Next, Between, Observe, Step, Enabled, WrittenOn, StartsOf;
    OtherEnd(n, ch);
    LinkRunShort(LinkTo(n, ch), LinkEvents(n, Drops(c), ch));
  }

  lemma PairCreated(w: World)
    ensures var v := WorldNext(WorldNext(w, Create(false)), Create(true));
            v.chans == w.chans + [Start(false), Start(true)] && v.sent == w.sent
  {
  }

  lemma PairNet(n: Net)
    requires NetOk(n)
    ensures var m := NetNext(n, NewPair);
            && NetOk(m) && |m.flights| == |n.flights| + 2
            && Around(m).chans == Around(n).chans + [Start(false), Start(true)] && Around(m).sent == Around(n).sent
  {
    hide WorldRun, WorldNext, Start;
    WorldRunTo(n.trace, Create(false));
    WorldRunTo(n.trace + [Create(false)], Create(true));
    PairCreated(Around(n));
  }

  /** A new pair leaves the others as they are, and starts afresh. */
  lemma PairLink(n: Net, ch: nat)
    requires NetOk(n) && ch < |n.flights| + 2
    ensures var m := NetNext(n, NewPair);
            && NetOk(m) && |m.flights| == |n.flights| + 2
            && LinkTo(m, ch) == if ch < |n.flights| then LinkTo(n, ch) else FreshLink(ch % 2 == 1)
  {
    hide WorldRun, Between;
    assert Start(false).ch.readers == 0 && Start(true).ch.readers == 0;
    hide Start;
    PairNet(n);
    var m := NetNext(n, NewPair);
    OtherEnd(m, ch);
    if ch < |n.flights| {
      OtherEnd(n, ch);
      SameLink(n, m, ch);
    } else {
      NewLink(m, ch);
    }
  }

  lemma SameLink(n: Net, m: Net, ch: nat)
    requires NetOk(n) && NetOk(m) && ch < |n.flights| && ch < |m.flights|
    requires Other(ch) < |n.flights| && Other(ch) < |m.flights|
    requires m.flights[ch] == n.flights[ch] && m.lost[ch] == n.lost[ch] && Around(m).sent == Around(n).sent
    requires Around(m).chans[ch] == Around(n).chans[ch] && Around(m).chans[Other(ch)] == Around(n).chans[Other(ch)]
    ensures LinkTo(m, ch) == LinkTo(n, ch)
  {
    hide WorldRun, Between;
  }

  lemma NewLink(m: Net, ch: nat)
    requires NetOk(m) && ch < |m.flights| && Other(ch) < |m.flights| && m.flights[ch] == [] && !m.lost[ch]
    requires Around(m).chans[ch] == Start(ch % 2 == 1) && Around(m).chans[Other(ch)].ch.readers == 0
    ensures LinkTo(m, ch) == FreshLink(ch % 2 == 1)
  {
    hide WorldRun;
    NoneBetween(Around(m).sent, Other(ch), 0, 0);
  }

  // ---------- Runs ----------

  /** A message that arrives starts a lease exactly when it is the first of a lease of the other end. */
  ghost predicate NetOnCue(n: Net, ne: NetEvent, ch: nat) {
    ne == Arrives(ch) && NetOk(n) && ch < |n.flights| ==> OnCue(LinkTo(n, ch), Deliver)
  }

  ghost predicate AllNetOnCue(es: seq<NetEvent>, ch: nat) {
    es == [] || (AllNetOnCue(es[..|es| - 1], ch) && NetOnCue(NetRun(es[..|es| - 1]), es[|es| - 1], ch))
  }

  lemma CueShort(l: Link, es: seq<LinkEvent>)
    requires |es| <= 2
    ensures AllOnCue(l, es) <==>
              && (|es| >= 1 ==> OnCue(l, es[0]))
              && (|es| == 2 ==> OnCue(LinkNext(l, es[0]), es[1]))
  {
    hide LinkNext, OnCue;
    if |es| == 1 {
      assert es[..0] == [] && LinkRun(l, []) == l;
    }
    if |es| == 2 {
      var one := es[..1];
      assert one[..0] == [] && LinkRun(l, []) == l && LinkRun(l, one) == LinkNext(l, es[0]);
      assert AllOnCue(l, one) <==> OnCue(l, es[0]);
    }
  }

  /** Of a direction's events only deliveries have a cue. */
  lemma CueOf(n: Net, ne: NetEvent, ch: nat)
    requires NetOk(n) && ch < |n.flights|
    ensures AllOnCue(LinkTo(n, ch), LinkEvents(n, ne, ch)) <==> NetOnCue(n, ne, ch)
  {
    hide WorldRun, WorldNext, AllOnCue, OpensHere, EventOf, CanDeliver, CanReach, Free, WritesOn;
    OtherEnd(n, ch);
    CueShort(LinkTo(n, ch), LinkEvents(n, ne, ch));
    CannotDeliver(n, ch);
    hide LinkTo, LinkNext;
  }

  lemma CannotDeliver(n: Net, ch: nat)
    requires NetOk(n) && ch < |n.flights|
    ensures CanDeliver(LinkTo(n, ch)) <==> CanReach(n, ch, Message(Head(n, ch)))
  {
    hide WorldRun, Enabled;
  }

  /** One event, for the direction towards ch. */
  lemma LinkSteps(n: Net, ne: NetEvent, ch: nat)
    requires NetOk(n) && ch < |n.flights|
    ensures var m := NetNext(n, ne);
            NetOk(m) && ch < |m.flights| && LinkTo(m, ch) == LinkRun(LinkTo(n, ch), LinkEvents(n, ne, ch))
  {
    hide NetOk, LinkTo, WorldRun, WorldNext, CanReach, LinkRun;
    LinkRunShort(LinkTo(n, ch), []);
    match ne
    case NewPair => PairLink(n, ch);
    case Does(we) => if Free(we) { DoesLink(n, we, ch); }
    case Arrives(c) => if CanReach(n, c, Message(Head(n, c))) { ArrivesLink(n, c, ch); }
    case Drops(c) => DropsLink(n, c, ch);
  }

  lemma NetKeeps(n: Net, ne: NetEvent)
    requires NetOk(n)
    ensures NetOk(NetNext(n, ne)) && |n.flights| <= |NetNext(n, ne).flights|
    ensures |NetNext(n, ne).flights| > |n.flights| ==> ne == NewPair && |NetNext(n, ne).flights| == |n.flights| + 2
    ensures forall ch: nat :: ch < |n.flights| && n.lost[ch] ==> NetNext(n, ne).lost[ch]
  {
    hide WorldRun, Enabled;
    match ne
    case NewPair => PairNet(n);
    case Does(we) => if Free(we) { NetStays(n, we, Flown(n, we)); }
    case Arrives(ch) =>
      if CanReach(n, ch, Message(Head(n, ch))) {
        NetStays(n, Arrive(ch, Message(Head(n, ch))), n.flights[ch := n.flights[ch][1..]]);
      }
    case Drops(ch) =>
  }

  /**
    Every direction of every pair, over every run of the whole net, is a run of a link; and as long as
    nothing is thrown away its leases line up with those of the other end exactly when every message
    arrives on its cue.
   */
  lemma {:induction false} NetLinesUpExactlyWhen(es: seq<NetEvent>, ch: nat)
    ensures var n := NetRun(es);
            && NetOk(n)
            && (ch < |n.flights| ==>
                  AlignInv(LinkTo(n, ch)) && (!n.lost[ch] ==> (LinedUp(LinkTo(n, ch)) <==> AllNetOnCue(es, ch))))
            && (ch >= |n.flights| ==> AllNetOnCue(es, ch))
  {
    if es != [] {
      hide NetNext, AlignInv, LinedUp, LinkTo, NetOk, LinkRun, AllOnCue;
      var n, ne, m := NetRun(es[..|es| - 1]), es[|es| - 1], NetRun(es);
      NetLinesUpExactlyWhen(es[..|es| - 1], ch);
      NetKeeps(n, ne);
      if ch < |n.flights| {
        SameSize(n);
        LinkSteps(n, ne, ch);
        AlignRun(LinkTo(n, ch), LinkEvents(n, ne, ch));
        CueOf(n, ne, ch);
        LinkLost(n, ch);
        LinkLost(m, ch);
      } else if ch < |m.flights| {
        NewLinesUp(n, ch);
        NotYet(n, ne, ch);
      } else {
        NotYet(n, ne, ch);
      }
    } else {
      NetEmpty();
    }
  }

  lemma SameSize(n: Net)
    requires NetOk(n)
    ensures |n.lost| == |n.flights|
  {
    hide WorldRun;
  }

  lemma LinkLost(n: Net, ch: nat)
    requires NetOk(n) && ch < |n.flights|
    ensures |n.lost| == |n.flights| && LinkTo(n, ch).lost == n.lost[ch]
  {
    hide WorldRun;
  }

  lemma NotYet(n: Net, ne: NetEvent, ch: nat)
    requires ch >= |n.flights|
    ensures NetOnCue(n, ne, ch)
  {
  }

  lemma NewLinesUp(n: Net, ch: nat)
    requires NetOk(n) && |n.flights| <= ch < |n.flights| + 2
    ensures var m := NetNext(n, NewPair);
            NetOk(m) && ch < |m.flights| && AlignInv(LinkTo(m, ch)) && LinedUp(LinkTo(m, ch))
  {
    hide WorldRun, NetNext, NetOk, LinkTo;
    PairLink(n, ch);
    FreshLinkInv(ch % 2 == 1);
  }

  lemma NetEmpty()
    ensures NetOk(NetRun([]))
  {
  }

  // ---------- Connection to connection ----------

  /** What was read in a connection's lease. */
  function ReadOf(w: World, j: nat): seq<byte> {
    if j < |w.conns| && w.conns[j].ch < |w.chans| && w.conns[j].lease < |w.chans[w.conns[j].ch].log.leases|
    then w.chans[w.conns[j].ch].log.leases[w.conns[j].lease].read else []
  }

  /** What a connection has written, over its whole life. */
  function WrittenBy(sent: seq<Wrote>, i: nat): seq<byte> {
    if sent == [] then []
    else
      WrittenBy(sent[..|sent| - 1], i) + (if sent[|sent| - 1].writer == i then sent[|sent| - 1].data else [])
  }

  /** No connection has written into a lease of the channel that is not its own. */
  ghost predicate OwnWrites(w: World, ch: nat) {
    forall x :: 0 <= x < |w.sent| && w.sent[x].ch == ch && w.sent[x].writer < |w.conns| ==>
      w.conns[w.sent[x].writer].lease == w.sent[x].lease
  }

  lemma {:induction false} LastStart(starts: seq<nat>, p: nat) returns (m: nat)
    requires p in starts
    ensures m < |starts| && starts[m] == p && p !in starts[m + 1..]
  {
    var n := |starts| - 1;
    if starts[n] == p {
      m := n;
    } else {
      assert p in starts[..n];
      m := LastStart(starts[..n], p);
      assert starts[m + 1..] == starts[..n][m + 1..] + [starts[n]];
    }
  }

  /** A stretch of the stream between a start and the next one lies in that lease. */
  lemma StretchInLease(w: World, ch: nat, m: nat, a: seq<byte>)
    requires SentOk(w) && ch < |w.chans| && m < w.chans[ch].ch.readers
    requires var p := |Between(w.sent, ch, 0, m)|;
             && p + |a| <= |WrittenOn(w, ch)| && WrittenOn(w, ch)[p..p + |a|] == a
             && p !in StartsOf(w, ch)[m + 1..] && (forall q :: q in StartsOf(w, ch) ==> !(p < q < p + |a|))
    ensures a <= Stream(w.sent, ch, m)
  {
    hide Between, Stream;
    var r, p := w.chans[ch].ch.readers, |Between(w.sent, ch, 0, m)|;
    var before, here, later := Between(w.sent, ch, 0, m), Between(w.sent, ch, m, m + 1), Between(w.sent, ch, m + 1, r);
    BetweenSplits(w.sent, ch, 0, m + 1, r);
    BetweenSplits(w.sent, ch, 0, m, m + 1);
    StreamIsBetween(w.sent, ch, m);
    assert WrittenOn(w, ch) == before + here + later;
    if m + 1 < r {
      var q := StartsOf(w, ch)[m + 1];
      assert q == p + |here| && q in StartsOf(w, ch) && q in StartsOf(w, ch)[m + 1..];
    } else {
      BetweenNone(w.sent, ch, r);
    }
    assert |here| >= |a|;
    assert (before + here + later)[p..p + |a|] == here[..|a|];
  }

  lemma BetweenNone(sent: seq<Wrote>, ch: nat, r: nat)
    ensures Between(sent, ch, r, r) == []
  {
    NoneBetween(sent, ch, r, r);
  }

  /** A stream that is not empty has a writer. */
  lemma {:induction false} StreamHasWriter(sent: seq<Wrote>, ch: nat, m: nat) returns (x: nat)
    requires Stream(sent, ch, m) != []
    ensures x < |sent| && sent[x].ch == ch && sent[x].lease == m
  {
    var last := sent[|sent| - 1];
    if last.ch == ch && last.lease == m {
      x := |sent| - 1;
    } else {
      x := StreamHasWriter(sent[..|sent| - 1], ch, m);
    }
  }

  lemma {:induction false} StreamIsWriters(sent: seq<Wrote>, ch: nat, m: nat, i: nat)
    requires forall x :: 0 <= x < |sent| ==> (sent[x].ch == ch && sent[x].lease == m <==> sent[x].writer == i)
    ensures Stream(sent, ch, m) == WrittenBy(sent, i)
  {
    if sent != [] {
      StreamIsWriters(sent[..|sent| - 1], ch, m, i);
    }
  }

  /** A lease's stream is what its one connection has written, if nobody wrote out of turn. */
  lemma LeaseHasWriter(es: seq<WorldEvent>, ch: nat, m: nat) returns (i: nat)
    requires OwnWrites(WorldRun(es), ch) && Stream(WorldRun(es).sent, ch, m) != []
    ensures var w := WorldRun(es);
            i < |w.conns| && w.conns[i].ch == ch && w.conns[i].lease == m && WrittenBy(w.sent, i) == Stream(w.sent, ch, m)
  {
    hide WorldRun, Once;
    var w := WorldRun(es);
    SentRun(es);
    OneOwnerPerLease(es);
    var y := StreamHasWriter(w.sent, ch, m);
    i := w.sent[y].writer;
    forall x | 0 <= x < |w.sent| ensures w.sent[x].ch == ch && w.sent[x].lease == m <==> w.sent[x].writer == i {
      var e := w.sent[x];
      assert e.writer < |w.conns| && w.conns[e.writer].ch == e.ch;
    }
    StreamIsWriters(w.sent, ch, m, i);
  }

  /** What a direction's lease has read is a piece of one lease of the other end. */
  lemma LeaseReadsLease(n: Net, ch: nat, k: nat) returns (m: nat)
    requires NetOk(n) && ch < |n.flights| && LinkInv(LinkTo(n, ch)) && !n.lost[ch] && LinedUp(LinkTo(n, ch))
    requires k < |Around(n).chans[ch].log.leases| && Around(n).chans[ch].log.leases[k].read != []
    ensures Around(n).chans[ch].log.leases[k].read <= Stream(Around(n).sent, Other(ch), m)
  {
    hide WorldRun, LinkInv, LinedUp, Between, Stream, AllAccepted;
    OtherEnd(n, ch);
    var w, o, l := Around(n), Other(ch), LinkTo(n, ch);
    var lease := w.chans[ch].log.leases[k];
    assert lease.read <= lease.accepted by {
      LinkHasInv(l);
      ReadIsAccepted(l.rx, k);
    }
    LinedUpHolds(l, k);
    var p := |AllAccepted(w.chans[ch].log.leases[..k])|;
    m := LastStart(l.starts, p);
    SentRun(n.trace);
    StretchInLease(w, o, m, lease.accepted);
  }

  /** Towards connection j's channel nothing was thrown away and all came on cue, and all was written in its writers' leases. */
  ghost predicate Undisturbed(es: seq<NetEvent>, j: nat) {
    var n := NetRun(es);
    var w := Around(n);
    && j < |w.conns| && w.conns[j].ch < |n.lost| && !n.lost[w.conns[j].ch]
    && AllNetOnCue(es, w.conns[j].ch) && OwnWrites(w, Other(w.conns[j].ch))
  }

  /**
    Connection to connection, over every run of the whole net: if towards its channel nothing was thrown
    away and every message arrived on its cue, and at the other end no connection wrote into a lease that
    was not its own, then what was read in a connection's lease is a prefix of what one connection of the
    other end has written.
   */
  lemma ReadsWhatThePeerWrote(es: seq<NetEvent>, j: nat)
    ensures var w := Around(NetRun(es));
            Undisturbed(es, j) && ReadOf(w, j) != [] ==>
              exists i: nat :: i < |w.conns| && w.conns[i].ch == Other(w.conns[j].ch) && ReadOf(w, j) <= WrittenBy(w.sent, i)
  {
    hide NetRun, WorldRun, AllNetOnCue, OwnWrites, LinedUp, LinkTo, LinkInv, Stream, WrittenBy, Other;
    var n := NetRun(es);
    if Undisturbed(es, j) && ReadOf(Around(n), j) != [] {
      var w, ch, k := Around(n), Around(n).conns[j].ch, Around(n).conns[j].lease;
      NetLinesUpExactlyWhen(es, ch);
      SameSize(n);
      hide NetOk;
      var m := LeaseReadsLease(n, ch, k);
      var i := LeaseHasWriter(n.trace, Other(ch), m);
      assert ReadOf(w, j) <= WrittenBy(w.sent, i);
    }
  }

  // ---------- One byte all the way ----------

  lemma NetThen(es: seq<NetEvent>, ne: NetEvent, ch: nat)
    ensures NetRun(es + [ne]) == NetNext(NetRun(es), ne)
    ensures AllNetOnCue(es + [ne], ch) <==> AllNetOnCue(es, ch) && NetOnCue(NetRun(es), ne, ch)
  {
    hide NetNext, NetOnCue;
    assert (es + [ne])[..|es|] == es;
  }

  /** A net of one pair: its world, what is on its way to the answering end, nothing thrown away. */
  ghost predicate OnePair(es: seq<NetEvent>, w: World, flight: seq<seq<byte>>) {
    && Around(NetRun(es)) == w && NetRun(es).flights == [[], flight] && NetRun(es).lost == [false, false]
    && AllNetOnCue(es, 1)
  }

  lemma ThenDoes(es: seq<NetEvent>, w: World, flight: seq<seq<byte>>, we: WorldEvent) returns (more: seq<NetEvent>)
    requires OnePair(es, w, flight) && Free(we) && !we.ConnWrite?
    ensures OnePair(more, WorldNext(w, we), flight)
  {
    hide WorldRun, WorldNext, AllNetOnCue, NetRun;
    NetThen(es, Does(we), 1);
    WorldRunTo(NetRun(es).trace, we);
    assert Flown(NetRun(es), we) == NetRun(es).flights;
    more := es + [Does(we)];
  }

  lemma ThenWrites(es: seq<NetEvent>, w: World, i: nat) returns (more: seq<NetEvent>)
    requires OnePair(es, w, []) && i < |w.conns| && w.conns[i].ch == 0 < |w.chans| && !w.conns[i].closed
    ensures OnePair(more, WorldNext(w, ConnWrite(i, [7], 1)), [[7]])
    ensures WorldNext(w, ConnWrite(i, [7], 1)) == w.(sent := w.sent + [Wrote(0, Current(w.chans[0].ch), i, [7])])
  {
    hide WorldRun, WorldNext, AllNetOnCue, NetRun, Sent, Flatten;
    var we, n := ConnWrite(i, [7], 1), NetRun(es);
    SevenSent();
    SentGrows(w, we);
    NetThen(es, Does(we), 1);
    WorldRunTo(n.trace, we);
    SevenFlies(n, we);
    more := es + [Does(we)];
  }

  lemma SevenSent()
    ensures Sent([7], 1) == [[7]] && Flatten(Sent([7], 1)) == [7]
  {
    var b: seq<byte> := [7];
    assert b[..1] == b && Chunks(b[1..]) == [];
    assert Chunks(b) == [b] && Chunks(b)[..1] == [b];
    FlattenOne(b);
  }

  lemma SevenFlies(n: Net, we: WorldEvent)
    requires n.flights == [[], []] && WritesOn(Around(n), we, 0) && Sent(we.data, we.batches) == [[7]]
    ensures Flown(n, we) == [[], [[7]]]
  {
    hide WorldRun, Sent;
    var f := Flown(n, we);
    assert Other(0) == 1 && Other(1) == 0 && !WritesOn(Around(n), we, 1);
    assert |f| == 2 && f[0] == n.flights[0] && f[1] == n.flights[1] + [[7]];
    assert f[1] == [[7]];
    assert f == [f[0], f[1]];
  }

  lemma ThenArrives(es: seq<NetEvent>, w: World) returns (more: seq<NetEvent>)
    requires OnePair(es, w, [[7]]) && |w.chans| == 2 && Enabled(w.chans[1].ch, Message([7])) && w.chans[1].ch.status == Idle
    requires w.chans[1].log.delivered == [] && w.chans[0].ch.readers == 1
    ensures OnePair(more, WorldNext(w, Arrive(1, Message([7]))), [])
  {
    hide WorldRun, WorldNext, AllNetOnCue, NetRun, NetOnCue;
    var n := NetRun(es);
    NetThen(es, Arrives(1), 1);
    WorldRunTo(n.trace, Arrive(1, Message([7])));
    FirstIsOnCue(n);
    var rest := n.flights[1][1..];
    assert Head(n, 1) == [7] && rest == [];
    assert n.flights[1 := rest] == [n.flights[0], rest];
    more := es + [Arrives(1)];
  }

  lemma FirstIsOnCue(n: Net)
    requires |Around(n).chans| == 2 && Around(n).chans[0].ch.readers == 1
    requires Around(n).chans[1].ch.status == Idle && Around(n).chans[1].log.delivered == []
    ensures NetOnCue(n, Arrives(1), 1)
  {
    hide WorldRun;
    if NetOk(n) && 1 < |n.flights| {
      var w := Around(n);
      BetweenNone(w.sent, 0, 0);
      var starts := StartsOf(w, 0);
      assert starts[0] == |Between(w.sent, 0, 0, 0)| == 0;
      assert 0 in starts;
      assert Other(1) == 0 && LinkTo(n, 1).starts == starts;
    }
  }

  /** The net has one pair. */
  lemma PairThere() returns (es: seq<NetEvent>, w: World)
    ensures OnePair(es, w, [])
    ensures w == World([Start(false), Start(true)], [], [], map[], [])
  {
    hide NetRun, WorldRun, AllNetOnCue, Start;
    es := [] + [NewPair];
    NetThen([], NewPair, 1);
    EmptyNet();
    WorldRunTo([], Create(false));
    WorldRunTo([] + [Create(false)], Create(true));
    PairCreated(WorldRun([]));
    w := WorldNext(WorldNext(WorldRun([]), Create(false)), Create(true));
    NewPairWorld(WorldRun([]));
    hide WorldNext;
    assert Around(NetRun(es)) == w;
  }

  lemma EmptyNet()
    ensures NetRun([]) == Net([], [], []) && AllNetOnCue([], 1) && NetOnCue(NetRun([]), NewPair, 1)
    ensures WorldRun([]) == World([], [], [], map[], [])
  {
  }

  lemma NewPairWorld(w: World)
    ensures WorldNext(WorldNext(w, Create(false)), Create(true)) == w.(chans := w.chans + [Start(false), Start(true)])
  {
    hide Start;
    assert w.chans + [Start(false)] + [Start(true)] == w.chans + [Start(false), Start(true)];
  }

  /** And both its ends are up. */
  lemma PairUp() returns (es: seq<NetEvent>, w: World)
    ensures OnePair(es, w, [])
    ensures w == World([Up(false), Up(true)], [], [], map[], [])
  {
    hide OnePair;
    es, w := PairThere();
    es := ThenDoes(es, w, [], Arrive(0, Open));
    w := WorldNext(w, Arrive(0, Open));
    es := ThenDoes(es, w, [], Arrive(1, Open));
    w := WorldNext(w, Arrive(1, Open));
  }

  function Up(announces: bool): Sys {
    Sys(NewChan(announces).(up := true), Log([], []))
  }

  /** A byte is written by a connection that has dialled. */
  lemma ByteWritten() returns (es: seq<NetEvent>, w: World)
    ensures OnePair(es, w, [[7]])
    ensures |w.chans| == 2 && w.chans[0].ch.readers == 1 && w.chans[1] == Up(true)
    ensures w.accept == [] && w.conns == [ConnState(0, 0, false, false)] && w.sent == [Wrote(0, 0, 0, [7])]
  {
    hide OnePair;
    es, w := PairUp();
    es := ThenDoes(es, w, [], Dial(0));
    w := WorldNext(w, Dial(0));
    assert |w.chans| == 2 && w.chans[0].ch.readers == 1 && w.chans[1] == Up(true) && w.conns == [ConnState(0, 0, false, false)];
    assert w.accept == [] && w.sent == [];
    hide WorldNext;
    es := ThenWrites(es, w, 0);
    w := WorldNext(w, ConnWrite(0, [7], 1));
  }

  /** What the byte does to the answering end, up to the Read. */
  lemma ByteAnswered(s: Sys)
    requires s == Up(true)
    ensures var a := Next(s, Message([7])); var b := Next(a, Announce); var c := Next(b, Push); var d := Next(c, Read(1));
            && Enabled(s.ch, Message([7])) && Enabled(a.ch, Announce) && a.ch.handler.Announcing? && a.ch.handler.lease == 0
            && !Out(c.ch, Read(1)).Blocked? && d.log.leases == [Lease([7], [7], true, 1)]
  {
    var x: seq<byte> := [7];
    var a := Next(s, Message(x));
    assert a == Sys(Chan(true, true, false, Active, 1, NewReader(), [], Announcing(x, 0), false),
                    Log([Lease([], [], true, 0)], x)) by { assert [] + x == x; }
    var b := Next(a, Announce);
    assert b == Sys(a.ch.(handler := Pushing(x, 0)), Log([Lease(x, [], true, 1)], x)) by { assert [] + x == x; }
    OneByteQueued(b, 7);
    ByteRead(Next(b, Push));
  }

  lemma ByteRead(s: Sys)
    requires s.ch == Chan(true, true, false, Active, 1, NewReader().(queue := [[7]]), [], Ready, false)
    requires s.log.leases == [Lease([7], [], true, 1)]
    ensures !Out(s.ch, Read(1)).Blocked? && Next(s, Read(1)).log.leases == [Lease([7], [7], true, 1)]
  {
    var x: seq<byte> := [7];
    assert x[..1] == x && [] + x == x;
    assert Out(s.ch, Read(1)) == Data(x);
    hide Fetch, Step;
  }

  /** The byte is read in the lease of the connection that was accepted; it is what the first connection wrote. */
  lemma OneByteTunnelled() returns (es: seq<NetEvent>)
    ensures var w := Around(NetRun(es));
            && w.conns == [ConnState(0, 0, false, false), ConnState(1, 0, false, false)]
            && Undisturbed(es, 1) && ReadOf(w, 1) == [7] && WrittenBy(w.sent, 0) == [7]
  {
    hide OnePair, Next, Out, WorldRun, NetRun;
    var w;
    es, w := ByteWritten();
    ByteAnswered(w.chans[1]);
    es := ThenArrives(es, w);
    w := WorldNext(w, Arrive(1, Message([7])));
    es := ThenDoes(es, w, [], Announces(1));
    w := WorldNext(w, Announces(1));
    es := ThenDoes(es, w, [], Arrive(1, Push));
    w := WorldNext(w, Arrive(1, Push));
    es := ThenDoes(es, w, [], Accepts);
    w := WorldNext(w, Accepts);
    es := ThenDoes(es, w, [], ConnRead(1, 1));
    w := WorldNext(w, ConnRead(1, 1));
    hide WorldNext;
    Arrived(es, w);
  }

  lemma Arrived(es: seq<NetEvent>, w: World)
    requires OnePair(es, w, []) && |w.chans| == 2 && w.chans[1].log.leases == [Lease([7], [7], true, 1)]
    requires w.conns == [ConnState(0, 0, false, false), ConnState(1, 0, false, false)] && w.sent == [Wrote(0, 0, 0, [7])]
    ensures Around(NetRun(es)) == w && Undisturbed(es, 1) && ReadOf(w, 1) == [7] && WrittenBy(w.sent, 0) == [7]
  {
    hide WorldRun, NetRun, AllNetOnCue;
    assert w.sent[..0] == [] && WrittenBy([], 0) == [];
    assert Other(1) == 0;
  }
}
