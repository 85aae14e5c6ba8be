/**
  Every holder of every channel at once: dialled and accepted connections, the accept queue, and the
  OnMessage callbacks. Any number of pools and channels; a pool's Get is a Dial of some idle channel.
 */
module LeaseWorld {
  import opened Streams
  import opened ChannelModel
  import opened ChannelProofs
  import opened ChannelTheorems
  import opened Transport

  /** An entry of the accept queue, tagged with the lease it was pushed for. */
  datatype Entry = Entry(ch: nat, lease: nat)

  /** A Conn wrapper, tagged with the lease it was made for. */
  datatype ConnState = ConnState(ch: nat, lease: nat, isRelease: bool, closed: bool)

  /** Bytes that went out on a channel: the connection that wrote them, and the lease that was current. */
  datatype Wrote = Wrote(ch: nat, lease: nat, writer: nat, data: seq<byte>)

  datatype World = World(
    chans: seq<Sys>,
    accept: seq<Entry>,
    conns: seq<ConnState>,
    waiters: map<(nat, nat), nat>,  // by channel and lease, the connection whose Read was the last one to wait there
    sent: seq<Wrote>)

  datatype WorldEvent =
    | Create(announces: bool)
    | Dial(ch: nat)
    | Arrive(ch: nat, e: Event)      // what the network and the callback do
    | Announces(ch: nat)             // the callback's send on the accept queue goes through
    | Accepts                        // Listener.Accept
    | ConnRelease(i: nat)
    | ConnClose(i: nat)
    | ConnRead(i: nat, n: nat)
    | ConnResume(i: nat, k: nat)     // the wait of its Read, begun in lease k of the channel, ends or goes on
    | ConnWrite(i: nat, data: seq<byte>, batches: nat)  // a Write whose first batches went out

  predicate FromNetwork(e: Event) {
    e.Open? || e.RemoteClose? || e.Close? || e.Message? || e.Ignore? || e.Push?
  }

  function At(w: World, ch: nat, e: Event): World
    requires ch < |w.chans|
  {
    w.(chans := w.chans[ch := Next(w.chans[ch], e)])
  }

  /** Conn.Release: the wrapped channel is released the first time only. */
  function DoRelease(w: World, i: nat): World
    requires i < |w.conns|
  {
    var c := w.conns[i];
    if c.isRelease then w
    else
      var v := w.(conns := w.conns[i := c.(isRelease := true)]);
      if c.ch < |w.chans| then At(v, c.ch, Release) else v
  }

  function WorldNext(w: World, we: WorldEvent): World {
    match we
    case Create(announces) => w.(chans := w.chans + [Start(announces)])
    case Dial(ch) =>
      if ch >= |w.chans| || w.chans[ch].ch.status != Idle || !Enabled(w.chans[ch].ch, Take) then w
      else At(w, ch, Take).(conns := w.conns + [ConnState(ch, w.chans[ch].ch.readers, false, false)])
    case Arrive(ch, e) => if ch >= |w.chans| || !FromNetwork(e) then w else At(w, ch, e)
    case Announces(ch) =>
      if ch >= |w.chans| || !Enabled(w.chans[ch].ch, Announce) || |w.accept| >= ACCEPT_CAP then w
      else At(w, ch, Announce).(accept := w.accept + [Entry(ch, w.chans[ch].ch.handler.lease)])
    case Accepts =>
      if w.accept == [] then w
      else w.(accept := w.accept[1..], conns := w.conns + [ConnState(w.accept[0].ch, w.accept[0].lease, false, false)])
    case ConnRelease(i) => if i >= |w.conns| then w else DoRelease(w, i)
    case ConnClose(i) =>
      if i >= |w.conns| then w
      else var v := DoRelease(w, i); v.(conns := v.conns[i := v.conns[i].(closed := true)])
    case ConnRead(i, n) =>
      if i >= |w.conns| || w.conns[i].ch >= |w.chans| then w
      else
        var ch := w.conns[i].ch;
        var blocks := Out(w.chans[ch].ch, Read(n)).Blocked?;
        At(w, ch, Read(n)).(waiters := if blocks then w.waiters[(ch, Current(w.chans[ch].ch)) := i] else w.waiters)
    case ConnResume(i, k) => if !Waits(w, i, k) then w else At(w, w.conns[i].ch, Resumes(w.chans[w.conns[i].ch].ch, k))
    case ConnWrite(i, data, batches) =>
      if i >= |w.conns| || w.conns[i].ch >= |w.chans| || w.conns[i].closed then w
      else
        var ch := w.conns[i].ch;
        w.(sent := w.sent + [Wrote(ch, Current(w.chans[ch].ch), i, Flatten(Sent(data, batches)))])
  }

  /** The number of the current lease. */
  function Current(c: Chan): nat {
    if c.readers > 0 then c.readers - 1 else 0
  }

  /** The Read that waits in lease k of its channel is the connection's. */
  predicate Waits(w: World, i: nat, k: nat) {
    && i < |w.conns| && w.conns[i].ch < |w.chans|
    && (w.conns[i].ch, k) in w.waiters && w.waiters[(w.conns[i].ch, k)] == i
  }

  function WorldRun(es: seq<WorldEvent>): World {
    if es == [] then World([], [], [], map[], []) else WorldNext(WorldRun(es[..|es| - 1]), es[|es| - 1])
  }

  lemma WorldRunTo(es: seq<WorldEvent>, we: WorldEvent)
    ensures WorldRun(es + [we]) == WorldNext(WorldRun(es), we)
  {
    hide WorldNext;
    assert (es + [we])[..|es|] == es;
  }

  /** Channels and connections are never taken away, and a connection stays with its channel. */
  lemma ConnsMove(w: World, we: WorldEvent)
    ensures var v := WorldNext(w, we);
            && |w.conns| <= |v.conns|
            && (forall i :: 0 <= i < |w.conns| ==> v.conns[i].ch == w.conns[i].ch && v.conns[i].lease == w.conns[i].lease)
            && |w.chans| <= |v.chans| <= |w.chans| + 1
            && (|v.chans| == |w.chans| + 1 ==> v.chans[|w.chans|].ch.readers == 0)
  {
    hide Next, Out, Flatten, Sent;
  }

  /** The event at a channel. */
  function EventOf(c: Chan, we: WorldEvent): Event {
    match we
    case Dial(_) => Take
    case Arrive(_, e) => if FromNetwork(e) then e else Release
    case Announces(_) => Announce
    case ConnRead(_, n) => Read(n)
    case ConnResume(_, k) => Resumes(c, k)
    case _ => Release
  }

  lemma ChannelMoves(w: World, we: WorldEvent, ch: nat)
    requires ch < |w.chans| <= |WorldNext(w, we).chans|
    ensures var v := WorldNext(w, we);
            && (v.chans[ch] == w.chans[ch] || v.chans[ch] == Next(w.chans[ch], EventOf(w.chans[ch].ch, we)))
            && (v.chans[ch] != w.chans[ch] && we.ConnRead? ==> we.i < |w.conns| && w.conns[we.i].ch == ch)
  {
    hide Next, Out, Flatten, Sent;
  }

  // ---------- Holders ----------

  /** An unreleased claim on a channel. */
  datatype Holder = Callback | Waiting(j: nat) | Wrapped(i: nat)

  predicate Holds(w: World, h: Holder, ch: nat) {
    match h
    case Callback => ch < |w.chans| && w.chans[ch].ch.handler.Announcing?
    case Waiting(j) => j < |w.accept| && w.accept[j].ch == ch
    case Wrapped(i) => i < |w.conns| && !w.conns[i].isRelease && w.conns[i].ch == ch
  }

  function LeaseOf(w: World, h: Holder, ch: nat): nat
    requires Holds(w, h, ch)
  {
    match h
    case Callback => w.chans[ch].ch.handler.lease
    case Waiting(j) => w.accept[j].lease
    case Wrapped(i) => w.conns[i].lease
  }

  /** A holder's channel is out of the idle state, in the very lease the holder has. */
  ghost predicate Holding(w: World) {
    forall h, ch: nat :: Holds(w, h, ch) ==>
      && ch < |w.chans| && w.chans[ch].ch.status != Idle
      && LeaseOf(w, h, ch) + 1 == w.chans[ch].ch.readers
  }

  ghost predicate Exclusive(w: World) {
    forall h, g, ch: nat :: Holds(w, h, ch) && Holds(w, g, ch) ==> h == g
  }

  ghost predicate Channels(w: World) {
    forall ch :: 0 <= ch < |w.chans| ==> Inv(w.chans[ch])
  }

  ghost predicate WorldInv(w: World) {
    Channels(w) && Holding(w) && Exclusive(w)
  }

  /** What network events do to a channel, as far as its holders are concerned. */
  lemma ArriveEffect(s: Sys, e: Event)
    requires Inv(s) && FromNetwork(e)
    requires s.ch.handler.Announcing? ==> s.ch.status != Idle
    ensures var c := s.ch; var d := Next(s, e).ch;
            && (c.status != Idle ==>
                  && d.status != Idle && d.readers == c.readers
                  && d.handler.Announcing? == c.handler.Announcing?
                  && (c.handler.Announcing? ==> d.handler == c.handler))
            && (c.status == Idle && d.handler.Announcing? ==>
                  d.status != Idle && d.handler.lease == c.readers && d.readers == c.readers + 1)
            && c.readers <= d.readers
  {
    hide Books, Announced, AllAccepted, GoodReader, Observe, Past;
  }

  /** What taking, announcing, reading and releasing do to it. */
  lemma HolderEffect(s: Sys, e: Event)
    requires Inv(s) && (e.Take? || e.Announce? || IsRead(e) || e.Release?)
    ensures var c := s.ch; var d := Next(s, e).ch;
            && d.readers == (if e.Take? && Enabled(c, e) && c.status == Idle then c.readers + 1 else c.readers)
            && (if e.Take? && Enabled(c, e) && c.status == Idle then d.status == Active
                else e.Release? || d.status == c.status)
            && (if e.Announce? && Enabled(c, e) then !d.handler.Announcing? else d.handler == c.handler)
  {
    hide Books, Announced, AllAccepted, GoodReader, Observe, Fetch, Past, WakePast;
  }

  lemma AtKeeps(w: World, ch: nat, e: Event)
    requires Channels(w) && ch < |w.chans|
    ensures Channels(At(w, ch, e))
  {
    hide Next, Inv;
    NextKeeps(w.chans[ch], e);
  }

  lemma ArriveKeeps(w: World, ch: nat, e: Event)
    requires WorldInv(w) && ch < |w.chans| && FromNetwork(e)
    ensures WorldInv(At(w, ch, e))
  {
    hide Next, Inv;
    AtKeeps(w, ch, e);
    var c := w.chans[ch].ch;
    assert Holds(w, Callback, ch) <==> c.handler.Announcing?;
    ArriveEffect(w.chans[ch], e);
    hide Channels;
    var v := At(w, ch, e);
    assert c.status == Idle ==> forall h :: !Holds(w, h, ch);
    forall h, k: nat | Holds(v, h, k)
      ensures (h == Callback && k == ch && c.status == Idle) || (Holds(w, h, k) && LeaseOf(w, h, k) == LeaseOf(v, h, k))
    {
    }
  }

  lemma CreateKeeps(w: World, announces: bool)
    requires WorldInv(w)
    ensures WorldInv(WorldNext(w, Create(announces)))
  {
    StartInv(announces);
    hide Inv;
    var v := WorldNext(w, Create(announces));
    assert forall h, k: nat :: Holds(v, h, k) ==> Holds(w, h, k);
  }

  lemma DialKeeps(w: World, ch: nat)
    requires WorldInv(w) && ch < |w.chans| && w.chans[ch].ch.status == Idle && Enabled(w.chans[ch].ch, Take)
    ensures WorldInv(WorldNext(w, Dial(ch)))
  {
    hide Next, Inv;
    AtKeeps(w, ch, Take);
    HolderEffect(w.chans[ch], Take);
    hide Channels;
    var v := WorldNext(w, Dial(ch));
    assert forall h :: !Holds(w, h, ch);
    assert forall h, k: nat :: Holds(v, h, k) && h != Wrapped(|w.conns|) ==> Holds(w, h, k);
  }

  lemma AnnouncesKeeps(w: World, ch: nat)
    requires WorldInv(w) && ch < |w.chans| && Enabled(w.chans[ch].ch, Announce) && |w.accept| < ACCEPT_CAP
    ensures WorldInv(WorldNext(w, Announces(ch)))
  {
    hide Next, Inv;
    AtKeeps(w, ch, Announce);
    HolderEffect(w.chans[ch], Announce);
    hide Channels;
    var v := WorldNext(w, Announces(ch));
    assert Holds(w, Callback, ch);
    assert forall h, k: nat :: Holds(v, h, k) && h != Waiting(|w.accept|) ==> Holds(w, h, k);
  }

  /** Where a holder was before the head of the accept queue was wrapped. */
  function BeforeAccept(w: World, h: Holder): Holder {
    if h == Wrapped(|w.conns|) then Waiting(0) else if h.Waiting? then Waiting(h.j + 1) else h
  }

  lemma AcceptsKeeps(w: World)
    requires WorldInv(w) && w.accept != []
    ensures WorldInv(WorldNext(w, Accepts))
  {
    hide Inv;
    var v := WorldNext(w, Accepts);
    assert Channels(v);
    hide Channels;
    forall h, k: nat | Holds(v, h, k)
      ensures Holds(w, BeforeAccept(w, h), k) && LeaseOf(w, BeforeAccept(w, h), k) == LeaseOf(v, h, k)
    {
    }
  }

  /** Conn.Release: an unreleased wrapper gives up its claim together with the lease. */
  lemma ReleaseKeeps(w: World, i: nat)
    requires WorldInv(w) && i < |w.conns|
    ensures WorldInv(DoRelease(w, i))
    ensures |DoRelease(w, i).conns| == |w.conns| && DoRelease(w, i).conns[i].isRelease
  {
    hide Next, Inv;
    var c := w.conns[i];
    if !c.isRelease {
      assert Holds(w, Wrapped(i), c.ch);
      AtKeeps(w, c.ch, Release);
      HolderEffect(w.chans[c.ch], Release);
      var v := DoRelease(w, i);
      assert Channels(v);
      hide Channels;
      forall h, k: nat | Holds(v, h, k)
        ensures Holds(w, h, k) && k != c.ch
      {
        assert h != Wrapped(i);
        assert Holds(w, h, k);
      }
    }
  }

  lemma CloseKeeps(w: World, i: nat)
    requires WorldInv(w) && i < |w.conns| && w.conns[i].isRelease
    ensures WorldInv(w.(conns := w.conns[i := w.conns[i].(closed := true)]))
  {
    hide Inv;
    var v := w.(conns := w.conns[i := w.conns[i].(closed := true)]);
    assert forall h, k: nat :: Holds(v, h, k) ==> Holds(w, h, k);
  }

  lemma FetchKeeps(w: World, ch: nat, e: Event)
    requires WorldInv(w) && ch < |w.chans| && IsRead(e)
    ensures WorldInv(At(w, ch, e))
  {
    hide Next, Inv;
    AtKeeps(w, ch, e);
    HolderEffect(w.chans[ch], e);
    hide Channels;
    var v := At(w, ch, e);
    assert forall h, k: nat :: Holds(v, h, k) ==> Holds(w, h, k);
  }

  /** Who waits and what was sent is nobody's claim. */
  lemma SameClaims(w: World, waiters: map<(nat, nat), nat>, sent: seq<Wrote>)
    ensures WorldInv(w) ==> WorldInv(w.(waiters := waiters, sent := sent))
    ensures Once(w) ==> Once(w.(waiters := waiters, sent := sent))
  {
    hide Inv;
    var v := w.(waiters := waiters, sent := sent);
    assert forall h, k: nat :: Holds(v, h, k) <==> Holds(w, h, k);
    assert forall h, k: nat :: Claims(v, h, k) <==> Claims(w, h, k);
  }

  lemma WorldNextKeeps(w: World, we: WorldEvent)
    requires WorldInv(w)
    ensures WorldInv(WorldNext(w, we))
  {
    hide WorldInv, Next, Flatten, Sent;
    if WorldNext(w, we) != w {
      match we
      case Create(announces) => CreateKeeps(w, announces);
      case Dial(ch) => DialKeeps(w, ch);
      case Arrive(ch, e) => ArriveKeeps(w, ch, e);
      case Announces(ch) => AnnouncesKeeps(w, ch);
      case Accepts => AcceptsKeeps(w);
      case ConnRelease(i) => ReleaseKeeps(w, i);
      case ConnClose(i) =>
        ReleaseKeeps(w, i);
        CloseKeeps(DoRelease(w, i), i);
      case ConnRead(i, n) =>
        FetchKeeps(w, w.conns[i].ch, Read(n));
        SameClaims(At(w, w.conns[i].ch, Read(n)), WorldNext(w, we).waiters, w.sent);
      case ConnResume(i, k) => FetchKeeps(w, w.conns[i].ch, Resumes(w.chans[w.conns[i].ch].ch, k));
      case ConnWrite(_, _, _) => SameClaims(w, w.waiters, WorldNext(w, we).sent);
    }
  }

  /** The exclusive lease, over every run: no channel ever has two unreleased holders. */
  lemma {:induction false} ExclusiveLease(es: seq<WorldEvent>)
    ensures WorldInv(WorldRun(es))
    ensures forall h, g, ch: nat :: Holds(WorldRun(es), h, ch) && Holds(WorldRun(es), g, ch) ==> h == g
  {
    hide WorldNext;
    if es != [] {
      ExclusiveLease(es[..|es| - 1]);
      WorldNextKeeps(WorldRun(es[..|es| - 1]), es[|es| - 1]);
    }
  }

  // ---------- One owner per lease, ever ----------

  /** A claim on a channel, given up or not. */
  predicate Claims(w: World, h: Holder, ch: nat) {
    match h
    case Callback => Holds(w, h, ch)
    case Waiting(_) => Holds(w, h, ch)
    case Wrapped(i) => i < |w.conns| && w.conns[i].ch == ch
  }

  function Tag(w: World, h: Holder, ch: nat): nat
    requires Claims(w, h, ch)
  {
    match h
    case Callback => w.chans[ch].ch.handler.lease
    case Waiting(j) => w.accept[j].lease
    case Wrapped(i) => w.conns[i].lease
  }

  /** No lease is claimed twice, not even by connections released long ago. */
  ghost predicate Once(w: World) {
    && (forall h, ch: nat :: Claims(w, h, ch) ==> ch < |w.chans| && Tag(w, h, ch) < w.chans[ch].ch.readers)
    && (forall h, g, ch: nat :: Claims(w, h, ch) && Claims(w, g, ch) && Tag(w, h, ch) == Tag(w, g, ch) ==> h == g)
  }

  /** Where a claim was before the event; a claim on a new lease was nowhere. */
  function Before(w: World, we: WorldEvent, h: Holder): Holder {
    match we
    case Announces(_) => if h == Waiting(|w.accept|) then Callback else h
    case Accepts => BeforeAccept(w, h)
    case _ => h
  }

  /** Claims move, or are new and on a lease that did not exist. */
  ghost predicate Moves(w: World, we: WorldEvent, v: World) {
    && |w.chans| <= |v.chans|
    && (forall ch: nat :: ch < |w.chans| ==> w.chans[ch].ch.readers <= v.chans[ch].ch.readers)
    && (forall h, ch: nat :: Claims(v, h, ch) ==>
          || (ch < |w.chans| && Tag(v, h, ch) == w.chans[ch].ch.readers < v.chans[ch].ch.readers
              && (h == Callback || h == Wrapped(|w.conns|)) && h == NewClaim(w, we))
          || (Claims(w, Before(w, we, h), ch) && Tag(w, Before(w, we, h), ch) == Tag(v, h, ch)))
  }

  function NewClaim(w: World, we: WorldEvent): Holder {
    if we.Dial? then Wrapped(|w.conns|) else Callback
  }

  lemma OnceMoves(w: World, we: WorldEvent, v: World)
    requires Once(w) && Moves(w, we, v)
    requires forall h, g, ch: nat :: Claims(v, h, ch) && Claims(v, g, ch) && Before(w, we, h) == Before(w, we, g) ==> h == g
    ensures Once(v)
  {
  }

  lemma AtMoves(w: World, ch: nat, e: Event, we: WorldEvent)
    requires WorldInv(w) && ch < |w.chans|
    requires IsRead(e) || e.Release? || FromNetwork(e)
    requires !we.Dial? && !we.Announces? && !we.Accepts?
    ensures Moves(w, we, At(w, ch, e))
  {
    hide Next, Inv;
    var c := w.chans[ch].ch;
    assert Holds(w, Callback, ch) <==> c.handler.Announcing?;
    if FromNetwork(e) {
      ArriveEffect(w.chans[ch], e);
    } else {
      HolderEffect(w.chans[ch], e);
    }
    hide Channels, Exclusive;
    var v := At(w, ch, e);
    forall h, k: nat | Claims(v, h, k)
      ensures (k == ch && h == Callback && Tag(v, h, k) == c.readers < v.chans[k].ch.readers)
           || (Claims(w, h, k) && Tag(w, h, k) == Tag(v, h, k))
    {
    }
  }

  lemma DialOnce(w: World, ch: nat)
    requires WorldInv(w) && Once(w) && ch < |w.chans| && w.chans[ch].ch.status == Idle && Enabled(w.chans[ch].ch, Take)
    ensures Once(WorldNext(w, Dial(ch)))
  {
    hide Next, Inv;
    HolderEffect(w.chans[ch], Take);
    hide WorldInv;
    var v := WorldNext(w, Dial(ch));
    forall h, k: nat | Claims(v, h, k)
      ensures (k == ch && h == Wrapped(|w.conns|) && Tag(v, h, k) == w.chans[ch].ch.readers < v.chans[k].ch.readers)
           || (Claims(w, h, k) && Tag(w, h, k) == Tag(v, h, k))
    {
    }
    OnceMoves(w, Dial(ch), v);
  }

  lemma AnnouncesOnce(w: World, ch: nat)
    requires WorldInv(w) && Once(w) && ch < |w.chans| && Enabled(w.chans[ch].ch, Announce) && |w.accept| < ACCEPT_CAP
    ensures Once(WorldNext(w, Announces(ch)))
  {
    hide Next, Inv;
    HolderEffect(w.chans[ch], Announce);
    hide WorldInv;
    var we := Announces(ch);
    var v := WorldNext(w, we);
    assert Claims(w, Callback, ch);
    forall h, k: nat | Claims(v, h, k)
      ensures Claims(w, Before(w, we, h), k) && Tag(w, Before(w, we, h), k) == Tag(v, h, k)
    {
    }
    OnceMoves(w, we, v);
  }

  lemma AcceptsOnce(w: World)
    requires Once(w) && w.accept != []
    ensures Once(WorldNext(w, Accepts))
  {
    var v := WorldNext(w, Accepts);
    forall h, k: nat | Claims(v, h, k)
      ensures Claims(w, BeforeAccept(w, h), k) && Tag(w, BeforeAccept(w, h), k) == Tag(v, h, k)
    {
    }
    OnceMoves(w, Accepts, v);
  }

  lemma CreateOnce(w: World, announces: bool)
    requires Once(w)
    ensures Once(WorldNext(w, Create(announces)))
  {
    OnceMoves(w, Create(announces), WorldNext(w, Create(announces)));
  }

  /** Marking a connection released or closed leaves its claim where it was. */
  lemma MarkOnce(w: World, i: nat, c: ConnState)
    requires Once(w) && i < |w.conns| && c.ch == w.conns[i].ch && c.lease == w.conns[i].lease
    ensures Once(w.(conns := w.conns[i := c]))
  {
    var v := w.(conns := w.conns[i := c]);
    assert forall h, k: nat :: Claims(v, h, k) ==> Claims(w, h, k) && Tag(v, h, k) == Tag(w, h, k);
  }

  lemma ReleaseOnce(w: World, i: nat)
    requires WorldInv(w) && Once(w) && i < |w.conns|
    ensures Once(DoRelease(w, i))
  {
    hide Next;
    var c := w.conns[i];
    if !c.isRelease {
      assert Holds(w, Wrapped(i), c.ch);
      AtMoves(w, c.ch, Release, ConnRelease(i));
      OnceMoves(w, ConnRelease(i), At(w, c.ch, Release));
      MarkOnce(At(w, c.ch, Release), i, c.(isRelease := true));
    }
  }

  lemma FetchOnce(w: World, i: nat, e: Event)
    requires WorldInv(w) && Once(w) && i < |w.conns| && w.conns[i].ch < |w.chans| && IsRead(e)
    ensures Once(At(w, w.conns[i].ch, e))
  {
    hide Next, WorldInv;
    AtMoves(w, w.conns[i].ch, e, ConnResume(i, 0));
    OnceMoves(w, ConnResume(i, 0), At(w, w.conns[i].ch, e));
  }

  lemma OnceNext(w: World, we: WorldEvent)
    requires WorldInv(w) && Once(w)
    ensures Once(WorldNext(w, we))
  {
    hide WorldInv, Next, Once, Flatten, Sent;
    if WorldNext(w, we) != w {
      match we
      case Create(announces) => CreateOnce(w, announces);
      case Dial(ch) => DialOnce(w, ch);
      case Arrive(ch, e) =>
        AtMoves(w, ch, e, we);
        OnceMoves(w, we, At(w, ch, e));
      case Announces(ch) => AnnouncesOnce(w, ch);
      case Accepts => AcceptsOnce(w);
      case ConnRelease(i) => ReleaseOnce(w, i);
      case ConnClose(i) =>
        ReleaseOnce(w, i);
        MarkOnce(DoRelease(w, i), i, DoRelease(w, i).conns[i].(closed := true));
      case ConnRead(i, n) =>
        FetchOnce(w, i, Read(n));
        SameClaims(At(w, w.conns[i].ch, Read(n)), WorldNext(w, we).waiters, w.sent);
      case ConnResume(i, k) => FetchOnce(w, i, Resumes(w.chans[w.conns[i].ch].ch, k));
      case ConnWrite(_, _, _) => SameClaims(w, w.waiters, WorldNext(w, we).sent);
    }
  }

  /** Over every run, each lease goes to at most one connection, counting released ones too. */
  lemma {:induction false} OneOwnerPerLease(es: seq<WorldEvent>)
    ensures Once(WorldRun(es))
    ensures var w := WorldRun(es);
            forall i, j :: 0 <= i < j < |w.conns| && w.conns[i].ch == w.conns[j].ch ==> w.conns[i].lease != w.conns[j].lease
  {
    hide WorldNext, WorldInv;
    var w := WorldRun(es);
    if es != [] {
      OneOwnerPerLease(es[..|es| - 1]);
      ExclusiveLease(es[..|es| - 1]);
      OnceNext(WorldRun(es[..|es| - 1]), es[|es| - 1]);
    }
    forall i, j | 0 <= i < j < |w.conns| && w.conns[i].ch == w.conns[j].ch
      ensures w.conns[i].lease != w.conns[j].lease
    {
      assert Claims(w, Wrapped(i), w.conns[i].ch) && Claims(w, Wrapped(j), w.conns[i].ch);
    }
  }

  // ---------- Releasing ----------

  /**
    Release and Close of a connection touch a channel only when that connection still holds it, and
    then end exactly the lease it was made for. A stale connection ends no one's lease.
   */
  lemma StaleReleaseIsHarmless(es: seq<WorldEvent>, i: nat, we: WorldEvent)
    requires i < |WorldRun(es).conns| && (we == ConnRelease(i) || we == ConnClose(i))
    ensures var w := WorldRun(es); var v := WorldNext(w, we); var c := w.conns[i];
            && v == w.(chans := v.chans, conns := w.conns[i := c.(isRelease := true, closed := c.closed || we.ConnClose?)])
            && if c.isRelease then v.chans == w.chans
               else
                 && c.ch < |w.chans| && c.lease + 1 == w.chans[c.ch].ch.readers
                 && v.chans == w.chans[c.ch := Next(w.chans[c.ch], Release)]
  {
    ExclusiveLease(es);
    var w := WorldRun(es);
    hide Next, WorldRun, Channels, Exclusive;
    if !w.conns[i].isRelease {
      assert Holds(w, Wrapped(i), w.conns[i].ch);
    }
  }

  /** A connection that has not been released reads its own lease, and never crashes doing so. */
  lemma HolderReadsItsLease(es: seq<WorldEvent>, i: nat, e: Event)
    requires i < |WorldRun(es).conns| && !WorldRun(es).conns[i].isRelease && IsFetch(e)
    ensures var w := WorldRun(es); var c := w.conns[i];
            && c.ch < |w.chans| && c.lease + 1 == |w.chans[c.ch].log.leases|
            && Out(w.chans[c.ch].ch, e) != Crash
  {
    ExclusiveLease(es);
    var w := WorldRun(es);
    hide Next, WorldRun, Exclusive, Fetch;
    assert Holds(w, Wrapped(i), w.conns[i].ch);
    var s := w.chans[w.conns[i].ch];
    assert Inv(s);
    if Enabled(s.ch, e) {
      FetchTakesFront(s.ch, e);
    }
  }

  // ---------- Leases that nobody holds ----------

  predicate Running(c: Chan) {
    c.status == Active && !c.panicked && !Doomed(c)
  }

  /** A lease that is running without a holder: no one can ever release it. */
  ghost predicate Orphan(w: World, ch: nat) {
    ch < |w.chans| && Running(w.chans[ch].ch) && forall h :: !Holds(w, h, ch)
  }

  /** A message that reaches an idle channel which does not announce its leases, such as a dialling one. */
  predicate TakesUnannounced(w: World, we: WorldEvent, ch: nat) {
    && we.Arrive? && we.ch == ch && ch < |w.chans| && we.e.Message?
    && Enabled(w.chans[ch].ch, we.e) && w.chans[ch].ch.status == Idle && !w.chans[ch].ch.announces
  }

  /** A lease that no connection has starts with such a message, and with nothing else. */
  lemma TakenByMessage(s: Sys, e: Event)
    requires Inv(s) && FromNetwork(e) && !s.ch.panicked && s.ch.status != Active && !Doomed(s.ch)
    requires s.ch.handler.Announcing? ==> s.ch.status != Idle
    ensures var d := Next(s, e).ch;
            Running(d) && !d.handler.Announcing?
            <==> e.Message? && Enabled(s.ch, e) && s.ch.status == Idle && !s.ch.announces
  {
    hide Books, Announced, AllAccepted, GoodReader, Observe, Past;
  }

  /** What keeps running: anything but Close and Release. */
  lemma RunsOn(s: Sys, e: Event)
    requires Inv(s) && Running(s.ch) && !e.Close? && !e.Release?
    ensures Running(Next(s, e).ch)
  {
    hide Books, Announced, AllAccepted, GoodReader, Observe, Fetch, Past, WakePast;
    if Enabled(s.ch, e) && IsFetch(e) { FetchTakesFront(s.ch, e); }
    if Enabled(s.ch, e) && e.ResumePast? { WakePastTakesFront(s.ch, s.log.leases, e.k); }
  }

  lemma StaysStopped(s: Sys, e: Event)
    requires Inv(s) && !Running(s.ch)
    requires s.ch.panicked || s.ch.status == Active || Doomed(s.ch) || !(e.Take? || FromNetwork(e))
    ensures !Running(Next(s, e).ch)
  {
    hide Books, Announced, AllAccepted, GoodReader, Observe, Fetch, Past, WakePast;
    if Enabled(s.ch, e) && IsFetch(e) && s.ch.readers > 0 { FetchTakesFront(s.ch, e); }
    if Enabled(s.ch, e) && e.ResumePast? { WakePastTakesFront(s.ch, s.log.leases, e.k); }
  }

  lemma ReleaseStops(s: Sys)
    requires Inv(s)
    ensures !Running(Next(s, Release).ch)
  {
  }

  lemma MessageOrphans(w: World, we: WorldEvent, ch: nat)
    requires WorldInv(w) && TakesUnannounced(w, we, ch)
    ensures Orphan(WorldNext(w, we), ch)
  {
    hide Next, Inv, Flatten, Sent;
    assert Holds(w, Callback, ch) <==> w.chans[ch].ch.handler.Announcing?;
    TakenByMessage(w.chans[ch], we.e);
    var v := WorldNext(w, we);
    forall h ensures !Holds(v, h, ch) {
      assert !Holds(w, h, ch);
    }
  }

  predicate ReadsOrWrites(we: WorldEvent) {
    we.ConnRead? || we.ConnResume? || we.ConnWrite?
  }

  /** Reading and writing change no claim and stop nothing. */
  lemma TrafficKeeps(w: World, we: WorldEvent, ch: nat)
    requires WorldInv(w) && ch < |w.chans| && ReadsOrWrites(we)
    ensures var v := WorldNext(w, we);
            && |v.chans| == |w.chans|
            && (forall h :: Holds(v, h, ch) <==> Holds(w, h, ch))
            && (Running(w.chans[ch].ch) <==> Running(v.chans[ch].ch))
  {
    hide Next, Inv, Exclusive, Running, Holding, Out, Flatten, Sent;
    var s := w.chans[ch];
    var e := if we.ConnRead? then Read(we.n) else if we.ConnResume? then Resumes(s.ch, we.k) else Resume;
    HolderEffect(s, e);
    if Running(s.ch) {
      RunsOn(s, e);
    } else {
      StaysStopped(s, e);
    }
  }

  /** An orphan stays one until the channel itself is closed, and every dial of it fails. */
  lemma OrphanStays(w: World, we: WorldEvent, ch: nat)
    requires WorldInv(w) && Orphan(w, ch) && we != Arrive(ch, Close)
    ensures Orphan(WorldNext(w, we), ch) && (we == Dial(ch) ==> WorldNext(w, we) == w)
  {
    hide WorldNext, WorldInv, Running;
    if ReadsOrWrites(we) {
      TrafficKeeps(w, we, ch);
    } else {
      OrphanKept(w, we, ch);
    }
  }

  lemma OrphanKept(w: World, we: WorldEvent, ch: nat)
    requires WorldInv(w) && Orphan(w, ch) && we != Arrive(ch, Close) && !ReadsOrWrites(we)
    ensures Orphan(WorldNext(w, we), ch) && (we == Dial(ch) ==> WorldNext(w, we) == w)
  {
    hide Next, Inv, Exclusive, Running, Out, Flatten, Sent;
    var v := WorldNext(w, we);
    assert !Holds(w, Callback, ch) && w.chans[ch].ch.status != Idle by {
      assert Running(w.chans[ch].ch);
      OrphanActive(w, ch);
    }
    if we.Arrive? && we.ch == ch && FromNetwork(we.e) {
      ArriveEffect(w.chans[ch], we.e);
      RunsOn(w.chans[ch], we.e);
    }
    if (we.ConnRelease? || we.ConnClose?) && we.i < |w.conns| {
      assert !Holds(w, Wrapped(we.i), ch);
    }
    if we.Accepts? && w.accept != [] {
      assert !Holds(w, Waiting(0), ch);
    }
    forall h ensures !Holds(v, h, ch) {
      assert !Holds(w, Before(w, we, h), ch);
    }
  }

  lemma OrphanActive(w: World, ch: nat)
    requires Orphan(w, ch)
    ensures w.chans[ch].ch.status == Active
  {
  }

  /**
    The leak: once a message has taken an idle dialling channel, whatever happens short of closing
    the channel itself, it stays active, held by no connection, and can never be dialled again.
   */
  lemma {:induction false} OrphanForever(before: seq<WorldEvent>, after: seq<WorldEvent>, ch: nat)
    requires Orphan(WorldRun(before), ch) && Arrive(ch, Close) !in after
    ensures Orphan(WorldRun(before + after), ch)
    decreases |after|
  {
    hide WorldNext, WorldInv, Orphan;
    if after == [] {
      assert before + after == before;
    } else {
      var most, last := after[..|after| - 1], after[|after| - 1];
      OrphanForever(before, most, ch);
      ExclusiveLease(before + most);
      assert (before + after)[..|before + after| - 1] == before + most;
      assert (before + after)[|before + after| - 1] == last;
      OrphanStays(WorldRun(before + most), last, ch);
    }
  }

  /** A channel that stood still is orphaned by such a message and by nothing else. */
  lemma StoppedOrphans(w: World, we: WorldEvent, ch: nat)
    requires WorldInv(w) && ch < |w.chans| && !Running(w.chans[ch].ch) && !ReadsOrWrites(we)
    ensures Orphan(WorldNext(w, we), ch) ==> TakesUnannounced(w, we, ch)
  {
    hide Next, Inv, Exclusive, Running, Doomed, Out, Flatten, Sent;
    var s := w.chans[ch];
    var v := WorldNext(w, we);
    assert Holds(w, Callback, ch) <==> s.ch.handler.Announcing?;
    assert Orphan(v, ch) ==> !Holds(v, Callback, ch);
    if we.Arrive? && we.ch == ch && FromNetwork(we.e) {
      if s.ch.panicked || s.ch.status == Active || Doomed(s.ch) {
        StaysStopped(s, we.e);
      } else {
        TakenByMessage(s, we.e);
      }
    } else if we == Dial(ch) && v != w {
      assert Holds(v, Wrapped(|w.conns|), ch);
    } else {
      StaysStopped(s, Announce);
      StaysStopped(s, Release);
    }
  }

  /** A channel that is held is not orphaned: its holder moves on, or ends the lease. */
  lemma HeldIsNotOrphaned(w: World, we: WorldEvent, h: Holder, ch: nat)
    requires WorldInv(w) && Holds(w, h, ch) && !ReadsOrWrites(we)
    ensures !Orphan(WorldNext(w, we), ch)
  {
    hide Next, Inv, Exclusive, Running, Out, Flatten, Sent;
    var v := WorldNext(w, we);
    var s := w.chans[ch];
    assert Holds(w, Callback, ch) <==> s.ch.handler.Announcing?;
    if we.Arrive? && FromNetwork(we.e) && we.ch == ch {
      ArriveEffect(s, we.e);
      assert Holds(v, h, ch);
    } else if (we.ConnRelease? || we.ConnClose?) && h == Wrapped(we.i) {
      ReleaseStops(s);
    } else if we == Announces(ch) && h == Callback && v != w {
      assert Holds(v, Waiting(|w.accept|), ch);
    } else if we.Accepts? && h.Waiting? {
      assert Holds(v, if h.j == 0 then Wrapped(|w.conns|) else Waiting(h.j - 1), ch);
    } else {
      HolderEffect(s, Take);
      HolderEffect(s, Announce);
      HolderEffect(s, Release);
      assert Holds(v, h, ch);
    }
  }

  /** Exactly when a lease without a holder comes about. */
  lemma OrphanExactlyWhen(w: World, we: WorldEvent, ch: nat)
    requires WorldInv(w) && ch < |w.chans| && !Orphan(w, ch)
    ensures Orphan(WorldNext(w, we), ch) <==> TakesUnannounced(w, we, ch)
  {
    hide WorldNext, WorldInv;
    if TakesUnannounced(w, we, ch) {
      MessageOrphans(w, we, ch);
    } else if ReadsOrWrites(we) {
      TrafficKeeps(w, we, ch);
    } else if !Running(w.chans[ch].ch) {
      StoppedOrphans(w, we, ch);
    } else {
      var h :| Holds(w, h, ch);
      HeldIsNotOrphaned(w, we, h, ch);
    }
  }
}
