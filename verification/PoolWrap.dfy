/** The dialling pool's label counter beyond 2^64 attempts: which labels meet, and what is then replaced. */
module PoolWrap {
  import opened Decimal
  import opened Labels
  import opened PoolModel

  /** For each channel of a run, the number of the attempt that made it. */
  function Made(es: seq<PoolEvent>, p: Platform): seq<nat> {
    if es == [] then []
    else
      var most := es[..|es| - 1];
      Made(most, p) + (if |PoolRun(es, p).labels| > |PoolRun(most, p).labels| then [PoolRun(es, p).attempts] else [])
  }

  /** The counter and every label are their attempt's number, as far as 64 bits go; entries are under their own label. */
  ghost predicate Numbered(s: PoolSys, made: seq<nat>) {
    && s.pool.idx == s.attempts % U64
    && |made| == |s.labels|
    && (forall i :: 0 <= i < |made| ==> 0 < made[i] <= s.attempts && s.labels[i].index == made[i] % U64)
    && (forall i, j :: 0 <= i < j < |made| ==> made[i] < made[j])
    && Keyed(s.labels, s.pool.idles) && Keyed(s.labels, s.pool.actives)
  }

  lemma BumpCounts(n: nat)
    ensures Bump(n % U64) == (n + 1) % U64
  {
  }

  lemma MakeNumbers(s: PoolSys, made: seq<nat>, channelType: string, key: string, creates: bool)
    requires Numbered(s, made)
    ensures var (t, a) := Make(s, channelType, key, creates);
            Numbered(t, if creates then made + [t.attempts] else made) && t.attempts == s.attempts + 1
            && |t.labels| == |s.labels| + (if creates then 1 else 0)
  {
    hide Print;
    BumpCounts(s.attempts);
    var (t, a) := Make(s, channelType, key, creates);
    if creates {
      assert Keyed(t.labels, t.pool.idles);
      assert Keyed(t.labels, t.pool.actives);
    }
    hide Keyed, Bump;
  }

  lemma ReuseNumbers(s: PoolSys, made: seq<nat>, key: string)
    requires Numbered(s, made) && IsFree(s, key)
    ensures Numbered(Reuse(s, key).0, made) && Reuse(s, key).0.labels == s.labels
  {
    hide Print;
  }

  lemma GetNumbers(s: PoolSys, made: seq<nat>, channelType: string, q: Query, creates: bool)
    requires Numbered(s, made)
    ensures var t := DoGet(s, channelType, q, creates).0;
            Numbered(t, if |t.labels| > |s.labels| then made + [t.attempts] else made)
  {
    hide Make, Reuse, Numbered;
    var key := match q case ByLabel(k) => k case AnyIdle(k) => k;
    if IsFree(s, key) {
      ReuseNumbers(s, made, key);
    }
    MakeNumbers(s, made, channelType, key, creates);
    MakeNumbers(s, made, channelType, "", creates);
  }

  lemma NumberedNext(s: PoolSys, made: seq<nat>, e: PoolEvent, p: Platform)
    requires Numbered(s, made) && DialEvent(e)
    ensures var t := PoolNext(s, e, p); Numbered(t, if |t.labels| > |s.labels| then made + [t.attempts] else made)
  {
    hide DoGet, Numbered;
    match e
    case Get(channelType, q, creates) => GetNumbers(s, made, channelType, q, creates);
    case Released(c) => if c < |s.labels| { DemoteNumbers(s, made, c); }
    case SetFree(c, yes) => FreeNumbers(s, made, PoolNext(s, e, p).free);
    case Opened(_) =>
  }

  lemma DemoteNumbers(s: PoolSys, made: seq<nat>, c: nat)
    requires Numbered(s, made) && c < |s.labels|
    ensures Numbered(s.(pool := Demote(s.pool, Name(s, c), c)), made)
  {
    hide Print;
  }

  lemma FreeNumbers(s: PoolSys, made: seq<nat>, free: set<nat>)
    requires Numbered(s, made)
    ensures Numbered(s.(free := free), made)
  {
  }

  /** Over every run of the dialling pool, without a bound on its attempts. */
  lemma {:induction false} NumberedRun(es: seq<PoolEvent>, p: Platform)
    requires forall i :: 0 <= i < |es| ==> DialEvent(es[i])
    ensures Numbered(PoolRun(es, p), Made(es, p))
  {
    hide Numbered, PoolNext;
    if es == [] {
      EmptyNumbered();
    } else {
      NumberedRun(es[..|es| - 1], p);
      var made := Made(es[..|es| - 1], p);
      NumberedNext(PoolRun(es[..|es| - 1], p), made, es[|es| - 1], p);
      assert made + [] == made;
    }
  }

  lemma EmptyNumbered()
    ensures Numbered(EmptyPool(), [])
  {
  }

  lemma PrintsAlike(l: Label, m: Label)
    ensures Print(l) == Print(m) <==> TypeName(l.channelType) == TypeName(m.channelType) && l.index == m.index
  {
    if Print(l) == Print(m) {
      SplitPrinted(l);
      SplitPrinted(m);
      DecInjective(l.index, m.index);
    }
  }

  /** Two attempts' types print alike and the counter came round, a whole number of times, between them. */
  ghost predicate Meet(l: Label, i: nat, m: Label, j: nat) {
    TypeName(l.channelType) == TypeName(m.channelType) && (j - i) % U64 == 0
  }

  lemma Congruent(i: nat, j: nat)
    ensures i % U64 == j % U64 <==> (j - i) % U64 == 0
  {
    var a, b := i / U64, j / U64;
    assert j - i == (b - a) * U64 + (j % U64 - i % U64);
    if i % U64 == j % U64 {
      Multiple(b - a, 0);
    } else if j % U64 > i % U64 {
      Multiple(b - a, j % U64 - i % U64);
    } else {
      Multiple(b - a - 1, U64 + j % U64 - i % U64);
    }
  }

  lemma Multiple(k: int, r: int)
    requires 0 <= r < U64
    ensures (k * U64 + r) % U64 == r
  {
  }

  /** In every run, two channels have one label exactly when their attempts meet. */
  lemma LabelsMeetExactlyWhen(es: seq<PoolEvent>, p: Platform, i: nat, j: nat)
    requires forall n :: 0 <= n < |es| ==> DialEvent(es[n])
    requires i < |PoolRun(es, p).labels| && j < |PoolRun(es, p).labels|
    ensures var s, made := PoolRun(es, p), Made(es, p);
            |made| == |s.labels| && (Name(s, i) == Name(s, j) <==> Meet(s.labels[i], made[i], s.labels[j], made[j]))
  {
    hide Print, PoolRun, Made;
    NumberedRun(es, p);
    var s, made := PoolRun(es, p), Made(es, p);
    PrintsAlike(s.labels[i], s.labels[j]);
    Congruent(made[i], made[j]);
  }

  /**
    What Get does to the entry k of an active channel c, from the state before: it is replaced by an
    idle channel of the same label that is taken, or by one that is made when the types print alike and
    the counter has come round since c was made.
   */
  predicate Replaces(s: PoolSys, made: seq<nat>, channelType: string, q: Query, creates: bool, k: string)
    requires k in s.pool.actives && s.pool.actives[k] < |s.labels| == |made|
  {
    var c := s.pool.actives[k];
    || (IsFree(s, Tried(q)) && Tried(q) == k && s.pool.idles[k] != c)
    || (Creates(s, q) && creates && TypeName(channelType) == TypeName(s.labels[c].channelType)
        && (s.attempts + 1 - made[c]) % U64 == 0)
  }

  /** What Get files: an idle channel under its own label, or a new one under the next. */
  lemma GetFiles(s: PoolSys, channelType: string, q: Query, creates: bool, k: string)
    requires k in s.pool.actives && Keyed(s.labels, s.pool.idles) && s.pool.actives[k] < |s.labels|
    ensures var t := DoGet(s, channelType, q, creates).0;
            && k in t.pool.actives
            && (t.pool.actives[k] != s.pool.actives[k] <==>
                  || (IsFree(s, Tried(q)) && Tried(q) == k && s.pool.idles[k] != s.pool.actives[k])
                  || (Creates(s, q) && creates && Print(Label(channelType, Bump(s.pool.idx))) == k))
  {
    hide Print, Bump;
    assert q.AnyIdle? && !IsFree(s, q.last) && (exists x :: x in s.pool.idles && IsFree(s, x)) ==> !Creates(s, q);
  }

  /** The next label is that of channel c exactly when the types print alike and the counter has come round. */
  lemma NextLabelIs(s: PoolSys, made: seq<nat>, channelType: string, c: nat)
    requires Numbered(s, made) && c < |s.labels|
    ensures Print(Label(channelType, Bump(s.pool.idx))) == Name(s, c) <==>
              TypeName(channelType) == TypeName(s.labels[c].channelType) && (s.attempts + 1 - made[c]) % U64 == 0
  {
    hide Print, TypeName, Keyed, Bump;
    BumpCounts(s.attempts);
    PrintsAlike(Label(channelType, Bump(s.pool.idx)), s.labels[c]);
    Congruent(made[c], s.attempts + 1);
  }

  /** Over every run: exactly when a Get changes the entry of an active channel, checked before the call. */
  lemma ReplacedExactlyWhen(es: seq<PoolEvent>, p: Platform, channelType: string, q: Query, creates: bool, k: string)
    requires forall n :: 0 <= n < |es| ==> DialEvent(es[n])
    requires k in PoolRun(es, p).pool.actives
    ensures var s, made := PoolRun(es, p), Made(es, p); var t := DoGet(s, channelType, q, creates).0;
            && s.pool.actives[k] < |s.labels| == |made| && k in t.pool.actives
            && (t.pool.actives[k] != s.pool.actives[k] <==> Replaces(s, made, channelType, q, creates, k))
  {
    hide PoolRun, Made, DoGet, Print, TypeName, Bump, Creates, IsFree;
    NumberedRun(es, p);
    var s, made := PoolRun(es, p), Made(es, p);
    GetFiles(s, channelType, q, creates, k);
    NextLabelIs(s, made, channelType, s.pool.actives[k]);
  }

  // ---------- The run that shows it ----------

  function Gets(n: nat, channelType: string): seq<PoolEvent> {
    seq(n, _ => Get(channelType, AnyIdle(""), true))
  }

  /** n channels of one type, all active, made by n attempts. */
  ghost predicate AllActive(s: PoolSys, n: nat, channelType: string) {
    && s.pool.idles == map[] && |s.labels| == s.attempts == n
    && (forall i :: 0 <= i < n ==> Name(s, i) in s.pool.actives && s.labels[i].channelType == channelType)
  }

  lemma OneMoreGet(s: PoolSys, n: nat, channelType: string)
    requires AllActive(s, n, channelType)
    ensures var (t, a) := DoGet(s, channelType, AnyIdle(""), true); AllActive(t, n + 1, channelType) && a == Taken(n)
  {
    hide Print;
    var t := DoGet(s, channelType, AnyIdle(""), true).0;
    assert t == Make(s, channelType, "", true).0;
    assert t.pool.actives.Keys == s.pool.actives.Keys + {Name(t, n)};
    assert forall i :: 0 <= i < n ==> Name(t, i) == Name(s, i);
  }

  lemma OneMore(n: nat, channelType: string, p: Platform)
    ensures var s := PoolRun(Gets(n, channelType), p);
            && PoolRun(Gets(n + 1, channelType), p) == DoGet(s, channelType, AnyIdle(""), true).0
            && Gets(n + 1, channelType)[..n] == Gets(n, channelType)
  {
    hide DoGet;
    var es := Gets(n + 1, channelType);
    assert es[..n] == Gets(n, channelType) && es[n] == Get(channelType, AnyIdle(""), true);
  }

  /** Get after Get, with nothing released: every one makes a channel. */
  lemma {:induction false} ManyGets(n: nat, channelType: string, p: Platform)
    ensures AllActive(PoolRun(Gets(n, channelType), p), n, channelType)
    ensures |Made(Gets(n, channelType), p)| == n && forall i :: 0 <= i < n ==> Made(Gets(n, channelType), p)[i] == i + 1
  {
    if n > 0 {
      hide PoolRun, DoGet;
      ManyGets(n - 1, channelType, p);
      OneMore(n - 1, channelType, p);
      OneMoreGet(PoolRun(Gets(n - 1, channelType), p), n - 1, channelType);
    }
  }

  /** Attempt 2^64 + 1 has the label of attempt 1, whose channel is active: the entry is replaced. */
  lemma WrapReplaces(channelType: string, p: Platform)
    ensures var s, t := PoolRun(Gets(U64, channelType), p), PoolRun(Gets(U64 + 1, channelType), p);
            var k := Print(Label(channelType, 1));
            && k in s.pool.actives && s.pool.actives[k] == 0
            && k in t.pool.actives && t.pool.actives[k] == U64
  {
    hide PoolRun, Made, Print, Bump;
    FirstIsActive(channelType, p);
    ManyGets(U64, channelType, p);
    OneMore(U64, channelType, p);
    var es := Gets(U64, channelType);
    var s, k := PoolRun(es, p), Print(Label(channelType, 1));
    assert s.labels[0].channelType == channelType;
    assert Creates(s, AnyIdle(""));
    ReplacedExactlyWhen(es, p, channelType, AnyIdle(""), true, k);
    OneMoreGet(s, U64, channelType);
    LastIsFiled(s, channelType, k);
    hide DoGet;
    assert (U64 + 1 - 1) % U64 == 0;
  }

  lemma FirstIsActive(channelType: string, p: Platform)
    ensures var s := PoolRun(Gets(U64, channelType), p); var k := Print(Label(channelType, 1));
            k in s.pool.actives && s.pool.actives[k] == 0
  {
    hide PoolRun, Made, Print;
    var es := Gets(U64, channelType);
    ManyGets(U64, channelType, p);
    NumberedRun(es, p);
    var s, made := PoolRun(es, p), Made(es, p);
    assert made[0] == 1 && s.labels[0] == Label(channelType, 1);
    var k := Name(s, 0);
    var c := s.pool.actives[k];
    assert Name(s, c) == k;
    LabelsMeetExactlyWhen(es, p, 0, c);
    assert (c + 1 - 1) % U64 == 0 && c < U64;
  }

  /** An entry that changes goes to the channel that Get hands out. */
  lemma LastIsFiled(s: PoolSys, channelType: string, k: string)
    requires k in s.pool.actives
    ensures var (t, a) := DoGet(s, channelType, AnyIdle(""), true);
            k in t.pool.actives && (t.pool.actives[k] == s.pool.actives[k] || (a.Taken? && t.pool.actives[k] == a.c))
  {
    hide Print;
  }
}
