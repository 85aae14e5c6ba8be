/** A dialling pool inside the world of holders, over whole runs of both: every Get is a Dial of a channel that was idle. */
module PoolWorld {
  import opened Decimal
  import opened Labels
  import opened PoolModel
  import Model = ChannelModel
  import opened LeaseWorld

  /** The pool, all that has happened in the world, and where in the world the pool's channels are. */
  datatype Joint = Joint(pool: PoolSys, trace: seq<WorldEvent>, at: seq<nat>)

  function Around(j: Joint): World {
    WorldRun(j.trace)
  }

  /**
    Gets: PeersClient.Dial. Happens: anything else, at any channel: messages, releases, accepts, other
    pools and answering channels. Files: the pool's loop receives one of its channels from `release`.
   */
  datatype JointEvent =
    | Gets(channelType: string, query: Query, creates: bool)
    | Happens(we: WorldEvent)
    | Files(c: nat)

  /** What TakeConn would take, as the world has it. */
  function Freed(s: PoolSys, w: World, at: seq<nat>): PoolSys {
    s.(free := set c | 0 <= c < |at| && at[c] < |w.chans| && Takeable(w, at[c]))
  }

  function JointNext(j: Joint, je: JointEvent, p: Platform): Joint {
    match je
    case Gets(channelType, q, creates) =>
      var (s, a) := DoGet(j.pool, channelType, q, creates);
      if !a.Taken? then j.(pool := s)
      else if a.c < |j.at| then j.(pool := s, trace := j.trace + [Dial(j.at[a.c])])
      else
        var ch := |Around(j).chans|;
        Joint(s, j.trace + [Create(false)] + [Dial(ch)], j.at + [ch])
    case Happens(we) =>
      if we.Dial? && we.ch in j.at then j  // nobody else dials the pool's channels
      else j.(pool := Freed(j.pool, WorldRun(j.trace + [we]), j.at), trace := j.trace + [we])
    case Files(c) => j.(pool := PoolNext(j.pool, Released(c), p))
  }

  function JointRun(es: seq<JointEvent>, p: Platform): Joint {
    if es == [] then Joint(EmptyPool(), [], []) else JointNext(JointRun(es[..|es| - 1], p), es[|es| - 1], p)
  }

  /** Each channel of the pool is one of the world that does not announce, and what the pool can take is what is idle there. */
  ghost predicate Matches(s: PoolSys, w: World, at: seq<nat>) {
    && |s.labels| == |at|
    && (forall c :: 0 <= c < |at| ==> at[c] < |w.chans| && !w.chans[at[c]].ch.announces)
    && (forall c, d :: 0 <= c < d < |at| ==> at[c] != at[d])
    && (forall c: nat :: c in s.free <==> c < |at| && Takeable(w, at[c]))
  }

  predicate Takeable(w: World, c: nat)
    requires c < |w.chans|
  {
    w.chans[c].ch.status == Model.Idle && !w.chans[c].ch.panicked
  }

  /** What taking and wrapping channel c does: one new connection, its only holder, and no other channel touched. */
  ghost predicate Wraps(w: World, v: World, c: nat) {
    && c < |v.chans| && v.chans[c].ch.status == Model.Active
    && |v.conns| == |w.conns| + 1 && v.conns[..|w.conns|] == w.conns && v.accept == w.accept
    && Holds(v, Wrapped(|w.conns|), c) && (forall h :: Holds(v, h, c) ==> h == Wrapped(|w.conns|))
    && (forall k: nat :: k < |w.chans| && k != c ==> k < |v.chans| && v.chans[k] == w.chans[k])
  }

  lemma DialWraps(w: World, c: nat)
    requires WorldInv(w) && c < |w.chans| && Takeable(w, c)
    ensures var v := WorldNext(w, Dial(c));
            && WorldInv(v) && Wraps(w, v, c) && |v.chans| == |w.chans|
            && (forall k: nat :: k < |w.chans| ==> (Takeable(v, k) <==> Takeable(w, k) && k != c))
  {
    hide Model.Next, Channels, Holding;
    DialTakes(w.chans[c]);
    var v := WorldNext(w, Dial(c));
    assert v == w.(chans := w.chans[c := Model.Next(w.chans[c], Model.Take)], conns := v.conns);
    DialKeeps(w, c);
    hide WorldNext;
    assert Holds(v, Wrapped(|w.conns|), c);
  }

  lemma DialTakes(s: Model.Sys)
    requires s.ch.status == Model.Idle && !s.ch.panicked
    ensures Model.Enabled(s.ch, Model.Take) && Model.Next(s, Model.Take).ch.status == Model.Active
  {
  }

  /** What a Get is for the world: nothing, or the wrapping of a channel that nobody held. */
  ghost predicate GetDials(j: Joint, k: Joint, a: Answer) {
    var w, v := Around(j), Around(k);
    if a.Taken? then
      && a.c < |k.at| && Wraps(w, v, k.at[a.c])
      && (a.c < |j.at| ==> k.at == j.at && forall h :: !Holds(w, h, k.at[a.c]))
    else v == w
  }

  /** What an answer of Get says about the pool's channels. */
  lemma GetCounts(s: PoolSys, channelType: string, q: Query, creates: bool)
    ensures var (t, a) := DoGet(s, channelType, q, creates);
            if !a.Taken? then t.labels == s.labels && t.free == s.free
            else if a.c < |s.labels| then a.c in s.free && t.labels == s.labels && t.free == s.free - {a.c}
            else a.c == |s.labels| && |t.labels| == |s.labels| + 1 && t.free == s.free
  {
    hide Print;
  }

  /** A channel announces, or does not, for as long as it lives. */
  ghost predicate SameKinds(w: World, v: World) {
    |w.chans| <= |v.chans| && forall k: nat :: k < |w.chans| ==> v.chans[k].ch.announces == w.chans[k].ch.announces
  }

  lemma KindsStay(w: World, we: WorldEvent)
    ensures SameKinds(w, WorldNext(w, we))
  {
    hide WorldNext, Model.Next;
    ConnsMove(w, we);
    forall k: nat | k < |w.chans| ensures WorldNext(w, we).chans[k].ch.announces == w.chans[k].ch.announces {
      ChannelMoves(w, we, k);
      KindStays(w.chans[k], EventOf(w.chans[k].ch, we));
    }
  }

  lemma KindStays(s: Model.Sys, e: Model.Event)
    ensures Model.Next(s, e).ch.announces == s.ch.announces
  {
    hide Model.Fetch, Model.WakePast, Model.Observe;
  }

  lemma MatchesTaken(s: PoolSys, t: PoolSys, w: World, v: World, at: seq<nat>, c: nat)
    requires Matches(s, w, at) && c < |at| && t.labels == s.labels && t.free == s.free - {c} && |v.chans| == |w.chans|
    requires forall k: nat :: k < |w.chans| ==> (Takeable(v, k) <==> Takeable(w, k) && k != at[c])
    requires SameKinds(w, v)
    ensures Matches(t, v, at)
  {
  }

  lemma MatchesMade(s: PoolSys, t: PoolSys, w: World, v: World, at: seq<nat>)
    requires Matches(s, w, at) && |t.labels| == |s.labels| + 1 && t.free == s.free && |v.chans| == |w.chans| + 1
    requires forall k: nat :: k < |w.chans| ==> (Takeable(v, k) <==> Takeable(w, k))
    requires !Takeable(v, |w.chans|) && !v.chans[|w.chans|].ch.announces && SameKinds(w, v)
    ensures Matches(t, v, at + [|w.chans|])
  {
  }

  /** A channel of the pool that was idle is dialled. */
  lemma ReuseDials(w: World, ch: nat, trace: seq<WorldEvent>)
    requires w == WorldRun(trace) && ch < |w.chans| && Takeable(w, ch)
    ensures var v := WorldRun(trace + [Dial(ch)]);
            && Wraps(w, v, ch) && (forall h :: !Holds(w, h, ch)) && |v.chans| == |w.chans|
            && (forall k: nat :: k < |w.chans| ==> (Takeable(v, k) <==> Takeable(w, k) && k != ch))
            && SameKinds(w, v)
  {
    hide WorldRun, WorldInv, Wraps, WorldNext;
    KindsStay(w, Dial(ch));
    ExclusiveLease(trace);
    DialWraps(w, ch);
    IdleIsFree(w, ch);
    WorldRunTo(trace, Dial(ch));
  }

  /** A channel is made and dialled. */
  lemma MakeDials(w: World, trace: seq<WorldEvent>)
    requires w == WorldRun(trace)
    ensures var ch := |w.chans|; var v := WorldRun(trace + [Create(false)] + [Dial(ch)]);
            && Wraps(w, v, ch) && |v.chans| == |w.chans| + 1 && !Takeable(v, ch)
            && (forall k: nat :: k < |w.chans| ==> (Takeable(v, k) <==> Takeable(w, k)))
            && SameKinds(w, v) && !v.chans[ch].ch.announces
  {
    hide WorldRun, WorldInv, Wraps, WorldNext;
    var ch := |w.chans|;
    WorldRunTo(trace, Create(false));
    WorldRunTo(trace + [Create(false)], Dial(ch));
    ExclusiveLease(trace + [Create(false)]);
    var u := WorldNext(w, Create(false));
    CreateAdds(w);
    KindsStay(w, Create(false));
    KindsStay(u, Dial(ch));
    DialWraps(u, ch);
    WrapsAfterCreate(w, u, WorldNext(u, Dial(ch)), ch);
    assert forall c: nat :: c < |w.chans| ==> u.chans[c] == w.chans[c];
  }

  /**
    PeersClient.Dial, in any joint state: what the pool hands out is a channel that nobody held, and
    wrapping it makes the one connection that holds it and touches no other channel; a Get that fails
    leaves the world as it was.
   */
  lemma GetIsDial(j: Joint, channelType: string, q: Query, creates: bool, p: Platform)
    requires Matches(j.pool, Around(j), j.at)
    ensures var k := JointNext(j, Gets(channelType, q, creates), p);
            Matches(k.pool, Around(k), k.at) && GetDials(j, k, DoGet(j.pool, channelType, q, creates).1)
  {
    hide DoGet, Wraps, Takeable, WorldRun, Holds;
    var (t, a) := DoGet(j.pool, channelType, q, creates);
    GetCounts(j.pool, channelType, q, creates);
    var w, k := Around(j), JointNext(j, Gets(channelType, q, creates), p);
    if a.Taken? {
      if a.c < |j.at| {
        ReuseDials(w, j.at[a.c], j.trace);
        MatchesTaken(j.pool, t, w, Around(k), j.at, a.c);
      } else {
        MakeDials(w, j.trace);
        MatchesMade(j.pool, t, w, Around(k), j.at);
      }
    }
  }

  /** The world moves on, and the pool's view of what is idle with it. */
  lemma HappensMatches(j: Joint, we: WorldEvent)
    requires Matches(j.pool, Around(j), j.at)
    ensures var w := WorldRun(j.trace + [we]); Matches(Freed(j.pool, w, j.at), w, j.at)
  {
    hide WorldNext;
    ConnsMove(Around(j), we);
    KindsStay(Around(j), we);
    WorldRunTo(j.trace, we);
    hide WorldRun;
  }

  lemma JointMatches(j: Joint, je: JointEvent, p: Platform)
    requires Matches(j.pool, Around(j), j.at)
    ensures var k := JointNext(j, je, p); Matches(k.pool, Around(k), k.at)
  {
    hide Print, DoGet, WorldRun;
    match je
    case Gets(channelType, q, creates) => GetIsDial(j, channelType, q, creates, p);
    case Happens(we) => HappensMatches(j, we);
    case Files(c) =>
  }

  /** Below 2^64 attempts the pool's own books hold as well. */
  lemma JointDialling(j: Joint, je: JointEvent, p: Platform)
    requires Dialling(j.pool) && Matches(j.pool, Around(j), j.at) && JointNext(j, je, p).pool.attempts < U64
    ensures Dialling(JointNext(j, je, p).pool)
  {
    hide Print, Distinct, WorldRun, Keyed;
    match je
    case Gets(channelType, q, creates) =>
      DiallingNext(j.pool, Get(channelType, q, creates), p);
    case Happens(we) =>
    case Files(c) =>
      DiallingNext(j.pool, Released(c), p);
  }

  lemma JointAttempts(j: Joint, je: JointEvent, p: Platform)
    ensures j.pool.attempts <= JointNext(j, je, p).pool.attempts
  {
    hide WorldRun;
    match je
    case Gets(channelType, q, creates) => AttemptsGrow(j.pool, Get(channelType, q, creates), p);
    case Happens(we) =>
    case Files(c) =>
  }

  /**
    One joint run of the pool and the world, whatever else happens there: the pool's channels stay
    matched with the world's, no channel has two holders, and below 2^64 attempts every entry is under
    its own label, labels are distinct, and idle and active entries are disjoint.
   */
  lemma {:induction false} PoolInWorld(es: seq<JointEvent>, p: Platform)
    ensures var j := JointRun(es, p);
            && Matches(j.pool, Around(j), j.at) && WorldInv(Around(j))
            && (j.pool.attempts < U64 ==> Dialling(j.pool))
  {
    hide Dialling, JointNext, WorldInv, Matches, Around;
    if es == [] {
      JointEmpty();
    } else {
      var j := JointRun(es[..|es| - 1], p);
      PoolInWorld(es[..|es| - 1], p);
      JointMatches(j, es[|es| - 1], p);
      JointAttempts(j, es[|es| - 1], p);
      if JointRun(es, p).pool.attempts < U64 {
        JointDialling(j, es[|es| - 1], p);
      }
    }
    JointIsExclusive(JointRun(es, p));
  }

  // ---------- The pool by itself ----------

  function FreeOrNot(target: set<nat>, n: nat): seq<PoolEvent> {
    seq(n, c requires 0 <= c => SetFree(c, c in target))
  }

  /** What a joint event is for the pool: a Get, a filing, or the news of which of its channels are idle. */
  function PoolEvents(j: Joint, je: JointEvent): seq<PoolEvent> {
    match je
    case Gets(channelType, q, creates) => [Get(channelType, q, creates)]
    case Happens(we) =>
      if we.Dial? && we.ch in j.at then [] else FreeOrNot(Freed(j.pool, WorldRun(j.trace + [we]), j.at).free, |j.at|)
    case Files(c) => [Released(c)]
  }

  function PoolTrace(es: seq<JointEvent>, p: Platform): seq<PoolEvent> {
    if es == [] then []
    else PoolTrace(es[..|es| - 1], p) + PoolEvents(JointRun(es[..|es| - 1], p), es[|es| - 1])
  }

  lemma PoolRunTo(es: seq<PoolEvent>, e: PoolEvent, p: Platform)
    ensures PoolRun(es + [e], p) == PoolNext(PoolRun(es, p), e, p)
  {
    hide PoolNext;
    assert (es + [e])[..|es|] == es;
  }

  function FreeUpTo(free: set<nat>, target: set<nat>, n: nat): set<nat> {
    (set c | c in target && c < n) + (set c | c in free && c >= n)
  }

  lemma FreeOne(free: set<nat>, target: set<nat>, n: nat)
    ensures FreeUpTo(free, target, n + 1)
         == if n in target then FreeUpTo(free, target, n) + {n} else FreeUpTo(free, target, n) - {n}
    ensures FreeUpTo(free, target, 0) == free
  {
  }

  lemma {:induction false} FreeRun(es: seq<PoolEvent>, target: set<nat>, n: nat, p: Platform)
    requires n <= |PoolRun(es, p).labels|
    ensures var s := PoolRun(es, p);
            PoolRun(es + FreeOrNot(target, n), p) == s.(free := FreeUpTo(s.free, target, n))
  {
    hide PoolRun, FreeUpTo, Print, DoGet;
    FreeOne(PoolRun(es, p).free, target, if n == 0 then 0 else n - 1);
    if n == 0 {
      assert es + FreeOrNot(target, 0) == es;
    } else {
      FreeRun(es, target, n - 1, p);
      var front, last := es + FreeOrNot(target, n - 1), SetFree(n - 1, n - 1 in target);
      assert es + FreeOrNot(target, n) == front + [last];
      PoolRunTo(front, last, p);
    }
  }

  lemma StepByItself(j: Joint, je: JointEvent, before: seq<PoolEvent>, p: Platform)
    requires Matches(j.pool, Around(j), j.at) && PoolRun(before, p) == j.pool
    ensures PoolRun(before + PoolEvents(j, je), p) == JointNext(j, je, p).pool
  {
    hide Matches, DoGet, Freed, WorldRun, PoolRun, FreeUpTo, Print;
    match je
    case Gets(channelType, q, creates) => PoolRunTo(before, Get(channelType, q, creates), p);
    case Files(c) => PoolRunTo(before, Released(c), p);
    case Happens(we) =>
      if we.Dial? && we.ch in j.at {
        assert before + [] == before;
      } else {
        HappensFrees(j, WorldRun(j.trace + [we]));
        FreeRun(before, Freed(j.pool, WorldRun(j.trace + [we]), j.at).free, |j.at|, p);
      }
  }

  /** The pool of a joint run is the pool run by itself through its own events, so all that holds of its runs holds here. */
  lemma {:induction false} PoolRunsByItself(es: seq<JointEvent>, p: Platform)
    ensures JointRun(es, p).pool == PoolRun(PoolTrace(es, p), p)
  {
    hide Matches, JointNext, PoolNext, PoolEvents, WorldInv, Dialling, Around;
    if es != [] {
      PoolRunsByItself(es[..|es| - 1], p);
      PoolInWorld(es[..|es| - 1], p);
      StepByItself(JointRun(es[..|es| - 1], p), es[|es| - 1], PoolTrace(es[..|es| - 1], p), p);
    }
  }

  lemma HappensFrees(j: Joint, w: World)
    requires Matches(j.pool, Around(j), j.at)
    ensures |j.at| == |j.pool.labels|
    ensures var f := Freed(j.pool, w, j.at).free;
            Freed(j.pool, w, j.at) == j.pool.(free := FreeUpTo(j.pool.free, f, |j.at|))
  {
    hide WorldRun, Takeable;
    var f := Freed(j.pool, w, j.at).free;
    assert (set c | c in f && c < |j.at|) == f;
    assert (set c | c in j.pool.free && c >= |j.at|) == {};
  }

  lemma JointIsExclusive(j: Joint)
    ensures WorldInv(Around(j))
  {
    ExclusiveLease(j.trace);
  }

  lemma JointEmpty()
    ensures Dialling(EmptyPool()) && Matches(EmptyPool(), Around(Joint(EmptyPool(), [], [])), [])
  {
    EmptyDialling();
  }

  lemma IdleIsFree(w: World, c: nat)
    requires WorldInv(w) && c < |w.chans| && Takeable(w, c)
    ensures forall h :: !Holds(w, h, c)
  {
  }

  lemma CreateAdds(w: World)
    ensures var u := WorldNext(w, Create(false));
            && |u.chans| == |w.chans| + 1 && u.chans[..|w.chans|] == w.chans && Takeable(u, |w.chans|)
            && !u.chans[|w.chans|].ch.announces
            && u.conns == w.conns && u.accept == w.accept
  {
  }

  lemma WrapsAfterCreate(w: World, u: World, v: World, c: nat)
    requires Wraps(u, v, c) && |u.chans| == |w.chans| + 1 && u.chans[..|w.chans|] == w.chans && c == |w.chans|
    requires u.conns == w.conns && u.accept == w.accept
    ensures Wraps(w, v, c)
  {
    assert forall k: nat :: k < |w.chans| ==> u.chans[k] == w.chans[k];
  }
}
