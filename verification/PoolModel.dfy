/** net/conn/channel-pool.go: the two maps and the label counter of a pool, on either end, over whole runs. */
module PoolModel {
  import opened Decimal
  import opened Labels

  datatype Pool<C> = Pool(idles: map<string, C>, actives: map<string, C>, idx: uint64)

  /** The deferred step of a successful Get: drop `key` from the idle map, file the channel as active. */
  function Promote<C>(p: Pool<C>, key: string, name: string, c: C): Pool<C> {
    p.(idles := p.idles - {key}, actives := p.actives[name := c])
  }

  /** The loop's step for a channel received from `release`. */
  function Demote<C>(p: Pool<C>, name: string, c: C): Pool<C> {
    p.(actives := p.actives - {name}, idles := p.idles[name := c])
  }

  /** atomic.AddUint64 */
  function Bump(i: uint64): uint64 {
    if i + 1 == U64 then 0 else i + 1
  }

  /** Which idle entry Get tries: the one under a given label, or all of them, in map order, ending at `last`. */
  datatype Query = ByLabel(key: string) | AnyIdle(last: string)

  /**
    A pool with its channels, numbered in the order they were made. `free` are those TakeConn would
    take. `attempts` counts the data channels Get has asked for.
   */
  datatype PoolSys = PoolSys(pool: Pool<nat>, labels: seq<Label>, free: set<nat>, attempts: nat)

  datatype PoolEvent =
    | Get(channelType: string, query: Query, creates: bool)
    | Opened(name: string)       // the remote end has opened a data channel
    | Released(c: nat)           // the loop receives a channel from `release`
    | SetFree(c: nat, yes: bool) // a lease of channel c ends, or a message or Close takes it

  function EmptyPool(): PoolSys {
    PoolSys(Pool(map[], map[], 0), [], {}, 0)
  }

  function Name(s: PoolSys, c: nat): string
    requires c < |s.labels|
  {
    Print(s.labels[c])
  }

  datatype Answer = Taken(c: nat) | NotFound | CreateFailed | NoSuchOrder

  predicate IsFree(s: PoolSys, key: string) {
    key in s.pool.idles && s.pool.idles[key] in s.free && s.pool.idles[key] < |s.labels|
  }

  function Reuse(s: PoolSys, key: string): (PoolSys, Answer)
    requires IsFree(s, key)
  {
    var c := s.pool.idles[key];
    (s.(pool := Promote(s.pool, key, Name(s, c), c), free := s.free - {c}), Taken(c))
  }

  /** Creating a channel; `key` is left over from the search and is dropped from the idle map as well. */
  function Make(s: PoolSys, channelType: string, key: string, creates: bool): (PoolSys, Answer) {
    var idx := Bump(s.pool.idx);
    var t := s.(pool := s.pool.(idx := idx), attempts := s.attempts + 1);
    if !creates then (t, CreateFailed)
    else
      var l := Label(channelType, idx);
      (t.(pool := Promote(t.pool, key, Print(l), |s.labels|), labels := s.labels + [l]), Taken(|s.labels|))
  }

  /** Get: an order of iteration that cannot happen leaves the pool alone. */
  function DoGet(s: PoolSys, channelType: string, q: Query, creates: bool): (PoolSys, Answer) {
    match q
    case ByLabel(key) =>
      if key !in s.pool.idles then (s, NotFound)
      else if IsFree(s, key) then Reuse(s, key)
      else Make(s, channelType, key, creates)
    case AnyIdle(last) =>
      if IsFree(s, last) then Reuse(s, last)
      else if exists k :: k in s.pool.idles && IsFree(s, k) then (s, NoSuchOrder)
      else if s.pool.idles == map[] then Make(s, channelType, "", creates)
      else if last in s.pool.idles then Make(s, channelType, last, creates)
      else (s, NoSuchOrder)
  }

  function OnChannelOpen(s: PoolSys, name: string, p: Platform): PoolSys {
    var l := Parse(name, p);
    if !l.Ok? || name in s.pool.actives || name in s.pool.idles then s
    else
      s.(pool := s.pool.(idles := s.pool.idles[name := |s.labels|]), labels := s.labels + [l.value],
         free := s.free + {|s.labels|})
  }

  function PoolNext(s: PoolSys, e: PoolEvent, p: Platform): PoolSys {
    match e
    case Get(channelType, q, creates) => DoGet(s, channelType, q, creates).0
    case Opened(name) => OnChannelOpen(s, name, p)
    case Released(c) => if c >= |s.labels| then s else s.(pool := Demote(s.pool, Name(s, c), c))
    case SetFree(c, yes) => if c >= |s.labels| then s else s.(free := if yes then s.free + {c} else s.free - {c})
  }

  function PoolRun(es: seq<PoolEvent>, p: Platform): PoolSys {
    if es == [] then EmptyPool() else PoolNext(PoolRun(es[..|es| - 1], p), es[|es| - 1], p)
  }

  // ---------- What both ends keep ----------

  /** Every entry is filed under its own label. */
  ghost predicate Keyed(labels: seq<Label>, m: map<string, nat>) {
    forall k :: k in m ==> m[k] < |labels| && Print(labels[m[k]]) == k
  }

  ghost predicate Distinct(labels: seq<Label>) {
    forall i, j :: 0 <= i < j < |labels| ==> Print(labels[i]) != Print(labels[j])
  }

  ghost predicate Filed(s: PoolSys) {
    && Keyed(s.labels, s.pool.idles) && Keyed(s.labels, s.pool.actives)
    && s.pool.idles.Keys !! s.pool.actives.Keys
    && Distinct(s.labels)
    && (forall c :: c in s.free ==> c < |s.labels|)
  }

  lemma DemoteKeeps(s: PoolSys, c: nat)
    requires Filed(s) && c < |s.labels|
    ensures Filed(s.(pool := Demote(s.pool, Name(s, c), c)))
  {
  }

  lemma ReuseKeeps(s: PoolSys, key: string)
    requires Filed(s) && IsFree(s, key)
    ensures var (t, a) := Reuse(s, key);
            Filed(t) && t.labels == s.labels && a == Taken(s.pool.idles[key]) && Name(s, a.c) == key
  {
  }

  // ---------- The dialling pool ----------

  /** While the counter has not wrapped, labels carry ever larger indexes. */
  ghost predicate Counted(s: PoolSys) {
    && s.pool.idx == s.attempts < U64
    && (forall i :: 0 <= i < |s.labels| ==> s.labels[i].index <= s.attempts)
    && (forall i, j :: 0 <= i < j < |s.labels| ==> s.labels[i].index < s.labels[j].index)
  }

  ghost predicate Dialling(s: PoolSys) {
    Filed(s) && Counted(s)
  }

  lemma FreshLabel(s: PoolSys, l: Label)
    requires Dialling(s) && l.index > s.attempts
    ensures Distinct(s.labels + [l])
    ensures Print(l) !in s.pool.idles && Print(l) !in s.pool.actives
  {
    forall i | 0 <= i < |s.labels|
      ensures Print(s.labels[i]) != Print(l)
    {
      if Print(s.labels[i]) == Print(l) {
        PrintInjective(s.labels[i], l);
      }
    }
  }

  /** A new channel filed as active under its fresh label, whatever key is dropped. */
  lemma PromoteNew(s: PoolSys, key: string, l: Label)
    requires Filed(s) && Distinct(s.labels + [l]) && Print(l) !in s.pool.idles && Print(l) !in s.pool.actives
    ensures Filed(s.(pool := Promote(s.pool, key, Print(l), |s.labels|), labels := s.labels + [l]))
  {
    hide Print, Distinct;
    var t := s.(pool := Promote(s.pool, key, Print(l), |s.labels|), labels := s.labels + [l]);
    assert Keyed(t.labels, t.pool.idles);
    assert Keyed(t.labels, t.pool.actives);
  }

  lemma MakeCounts(s: PoolSys, channelType: string, key: string, creates: bool)
    requires Counted(s) && s.attempts + 1 < U64
    ensures Counted(Make(s, channelType, key, creates).0)
  {
    hide Print;
  }

  lemma MakeKeeps(s: PoolSys, channelType: string, key: string, creates: bool)
    requires Dialling(s) && s.attempts + 1 < U64
    ensures Dialling(Make(s, channelType, key, creates).0)
  {
    hide Print, Distinct, Keyed;
    var l := Label(channelType, Bump(s.pool.idx));
    MakeCounts(s, channelType, key, creates);
    if creates {
      FreshLabel(s, l);
      PromoteNew(s.(pool := s.pool.(idx := l.index), attempts := s.attempts + 1), key, l);
    }
  }

  /** The entry Get tries last. */
  function Tried(q: Query): string {
    match q
    case ByLabel(key) => key
    case AnyIdle(last) => last
  }

  /** The search finds nothing it can take and goes on to make a channel. */
  predicate Creates(s: PoolSys, q: Query) {
    match q
    case ByLabel(key) => key in s.pool.idles && !IsFree(s, key)
    case AnyIdle(last) =>
      && (forall k :: k in s.pool.idles ==> !IsFree(s, k))
      && (last in s.pool.idles || s.pool.idles == map[])
  }

  /** Exactly which answer a Get gives, from the state before. */
  ghost predicate Answers(s: PoolSys, q: Query, creates: bool, a: Answer) {
    if IsFree(s, Tried(q)) then a == Taken(s.pool.idles[Tried(q)])
    else if Creates(s, q) then a == if creates then Taken(|s.labels|) else CreateFailed
    else a == if q.ByLabel? then NotFound else NoSuchOrder
  }

  /** Exactly what it does to the maps: what it takes or makes is moved or filed, and the entry it tried last is dropped. */
  ghost predicate Moves(s: PoolSys, t: PoolSys, q: Query, channelType: string, a: Answer) {
    && t.labels == (if a == Taken(|s.labels|) then s.labels + [Label(channelType, Bump(s.pool.idx))] else s.labels)
    && t.pool.idx == (if a == Taken(|s.labels|) || a == CreateFailed then Bump(s.pool.idx) else s.pool.idx)
    && (!a.Taken? ==> t.pool.idles == s.pool.idles && t.pool.actives == s.pool.actives && t.free == s.free)
    && (a.Taken? && a.c < |t.labels| ==>
          && t.pool.idles == s.pool.idles - {Tried(q)} && t.pool.actives == s.pool.actives[Name(t, a.c) := a.c]
          && t.free == s.free - {a.c})
  }

  /**
    What a Get promises: success files the channel as active under its own label, out of the idle
    map and no longer takeable; failure leaves both maps as they were; a channel is made only when
    the search found none to take, and then any entry dropped is one that could not be taken.
   */
  ghost predicate GoodGet(s: PoolSys, t: PoolSys, a: Answer) {
    && Dialling(t)
    && (a.Taken? ==> GoodTake(t, a.c))
    && (a.Taken? && a.c < |s.labels| ==> a.c in s.free && t.labels == s.labels)
    && (a.Taken? && a.c >= |s.labels| ==> forall k :: k in s.pool.idles && k !in t.pool.idles ==> !IsFree(s, k))
    && (!a.Taken? ==> t.pool.idles == s.pool.idles && t.pool.actives == s.pool.actives)
  }

  ghost predicate GoodTake(t: PoolSys, c: nat) {
    && c < |t.labels| && c !in t.free && c !in t.pool.idles.Values
    && Name(t, c) in t.pool.actives && t.pool.actives[Name(t, c)] == c
  }

  lemma ReuseIsGood(s: PoolSys, key: string)
    requires Dialling(s) && IsFree(s, key)
    ensures GoodGet(s, Reuse(s, key).0, Reuse(s, key).1)
  {
    hide Print, Distinct;
    ReuseKeeps(s, key);
  }

  lemma MakeIsGood(s: PoolSys, channelType: string, key: string, creates: bool)
    requires Dialling(s) && s.attempts + 1 < U64 && !IsFree(s, key)
    ensures GoodGet(s, Make(s, channelType, key, creates).0, Make(s, channelType, key, creates).1)
  {
    hide Print, Distinct, Counted;
    MakeKeeps(s, channelType, key, creates);
  }

  /** Get in every state of a dialling pool, with every outcome of the search and of the creation. */
  lemma GetKeeps(s: PoolSys, channelType: string, q: Query, creates: bool)
    requires Dialling(s) && s.attempts + 1 < U64
    ensures GoodGet(s, DoGet(s, channelType, q, creates).0, DoGet(s, channelType, q, creates).1)
  {
    hide Make, Reuse, Filed, Counted;
    var key := match q case ByLabel(k) => k case AnyIdle(k) => k;
    if IsFree(s, key) {
      ReuseIsGood(s, key);
    } else {
      MakeIsGood(s, channelType, key, creates);
    }
    if !IsFree(s, "") {
      MakeIsGood(s, channelType, "", creates);
    }
  }

  /** In every state, with every outcome of the search and of the creation: which answer, and what moves. */
  lemma GetExactly(s: PoolSys, channelType: string, q: Query, creates: bool)
    requires forall c :: c in s.free ==> c < |s.labels|
    ensures var (t, a) := DoGet(s, channelType, q, creates);
            Answers(s, q, creates, a) && Moves(s, t, q, channelType, a) && (a.Taken? ==> a.c < |t.labels|)
  {
    hide Print, Bump;
    assert q.AnyIdle? && s.pool.idles == map[] ==> s.pool.idles - {q.last} == s.pool.idles - {""} == map[];
    assert q.AnyIdle? && !IsFree(s, q.last) && (exists x :: x in s.pool.idles && IsFree(s, x)) ==> !Creates(s, q);
  }

  predicate DialEvent(e: PoolEvent) {
    !e.Opened?
  }

  lemma AttemptsGrow(s: PoolSys, e: PoolEvent, p: Platform)
    ensures s.attempts <= PoolNext(s, e, p).attempts <= s.attempts + 1
  {
  }

  /**
    The dialling pool over every run of fewer than 2^64 creations: labels all distinct, every entry
    under its own label, idle and active disjoint.
   */
  lemma {:induction false} DiallingRun(es: seq<PoolEvent>, p: Platform)
    requires forall i :: 0 <= i < |es| ==> DialEvent(es[i])
    requires PoolRun(es, p).attempts < U64
    ensures Dialling(PoolRun(es, p))
  {
    hide Dialling, DoGet;
    if es == [] {
      EmptyDialling();
    } else {
      var s, e := PoolRun(es[..|es| - 1], p), es[|es| - 1];
      AttemptsGrow(s, e, p);
      DiallingRun(es[..|es| - 1], p);
      DiallingNext(s, e, p);
    }
  }

  lemma EmptyDialling()
    ensures Dialling(EmptyPool())
  {
  }

  lemma DiallingNext(s: PoolSys, e: PoolEvent, p: Platform)
    requires Dialling(s) && DialEvent(e) && PoolNext(s, e, p).attempts < U64
    ensures Dialling(PoolNext(s, e, p))
  {
    hide Print, Distinct;
    match e
    case Get(channelType, q, creates) => GetAdvances(s, channelType, q, creates);
    case Released(c) => if c < |s.labels| { DemoteKeeps(s, c); }
    case SetFree(_, _) =>
    case Opened(_) =>
  }

  /** A Get that would use up the last index is the only one left out. */
  lemma GetAdvances(s: PoolSys, channelType: string, q: Query, creates: bool)
    requires Dialling(s) && DoGet(s, channelType, q, creates).0.attempts < U64
    ensures Dialling(DoGet(s, channelType, q, creates).0)
  {
    hide Filed, Counted, Print;
    if s.attempts + 1 < U64 {
      GetKeeps(s, channelType, q, creates);
    } else {
      var key := match q case ByLabel(k) => k case AnyIdle(k) => k;
      assert s.attempts + 1 >= U64;
      if IsFree(s, key) {
        ReuseIsGood(s, key);
      }
    }
  }

  // ---------- The answering pool ----------

  /** Labels that parse, among those the remote end has opened. */
  function OpenedNames(es: seq<PoolEvent>, p: Platform): set<string> {
    set i | 0 <= i < |es| && es[i].Opened? && Parse(es[i].name, p).Ok? :: es[i].name
  }

  /** What the remote end may open: labels in the form its own pool prints, or ones that do not parse. */
  predicate AnswerEvent(e: PoolEvent, p: Platform) {
    !e.Get? && (e.Opened? && Parse(e.name, p).Ok? ==> CanonicalLabel(e.name))
  }

  ghost predicate Answering(s: PoolSys, names: set<string>) {
    && Filed(s)
    && s.pool.idles.Keys + s.pool.actives.Keys == names
    && (forall c :: 0 <= c < |s.labels| ==> Print(s.labels[c]) in names)
  }

  /** The channel filed under a label, idle or active. */
  function Entry(s: PoolSys, k: string): nat
    requires k in s.pool.idles || k in s.pool.actives
  {
    if k in s.pool.idles then s.pool.idles[k] else s.pool.actives[k]
  }

  /** A new channel filed as idle under its own label, which no channel had. */
  lemma AddIdle(s: PoolSys, names: set<string>, l: Label)
    requires Answering(s, names) && Print(l) !in names
    ensures var t := s.(pool := s.pool.(idles := s.pool.idles[Print(l) := |s.labels|]), labels := s.labels + [l],
                        free := s.free + {|s.labels|});
            Answering(t, names + {Print(l)})
  {
    hide Print;
    var t := s.(pool := s.pool.(idles := s.pool.idles[Print(l) := |s.labels|]), labels := s.labels + [l],
                free := s.free + {|s.labels|});
    assert t.pool.idles.Keys == s.pool.idles.Keys + {Print(l)};
    assert Distinct(t.labels) by {
      forall i | 0 <= i < |s.labels| ensures Print(s.labels[i]) != Print(l) {
        assert Print(s.labels[i]) in names;
      }
    }
    hide Distinct;
    assert Keyed(t.labels, t.pool.idles) && Keyed(t.labels, t.pool.actives);
    hide Keyed;
  }

  lemma OpenKeeps(s: PoolSys, names: set<string>, name: string, p: Platform)
    requires Answering(s, names) && Parse(name, p).Ok? && CanonicalLabel(name)
    ensures Answering(OnChannelOpen(s, name, p), names + {name})
  {
    PrintOfParsed(name, p);
    hide Print, Parse, CanonicalLabel, Filed;
    assert name in names <==> name in s.pool.idles || name in s.pool.actives;
    if name in names {
      assert names + {name} == names;
    } else {
      AddIdle(s, names, Parse(name, p).value);
    }
  }

  lemma MoveIdle(s: PoolSys, names: set<string>, c: nat)
    requires Answering(s, names) && c < |s.labels|
    ensures Answering(s.(pool := Demote(s.pool, Name(s, c), c)), names)
  {
    hide Print, Distinct;
    DemoteKeeps(s, c);
    hide Filed;
    var t := s.(pool := Demote(s.pool, Name(s, c), c));
    assert t.pool.idles.Keys == s.pool.idles.Keys + {Name(s, c)};
    assert t.pool.actives.Keys == s.pool.actives.Keys - {Name(s, c)};
  }

  lemma AnsweringNext(s: PoolSys, names: set<string>, e: PoolEvent, p: Platform)
    requires Answering(s, names) && AnswerEvent(e, p)
    ensures Answering(PoolNext(s, e, p), names + OpenedNames([e], p))
  {
    hide Print, Parse, CanonicalLabel, Distinct;
    if e.Opened? && Parse(e.name, p).Ok? {
      assert [e][0] == e;
      assert OpenedNames([e], p) == {e.name};
      OpenKeeps(s, names, e.name, p);
    } else {
      assert OpenedNames([e], p) == {};
      assert names + {} == names;
      if e.Released? && e.c < |s.labels| {
        MoveIdle(s, names, e.c);
      }
    }
  }

  /**
    The answering pool over every run of opens, repeats included, and release moves: the idle and
    the active labels together are exactly the labels opened, each held once, under its own label.
   */
  lemma {:induction false} AnsweringRun(es: seq<PoolEvent>, p: Platform)
    requires forall i :: 0 <= i < |es| ==> AnswerEvent(es[i], p)
    ensures Answering(PoolRun(es, p), OpenedNames(es, p))
  {
    hide PoolNext, AnswerEvent, Answering, OpenedNames;
    if es == [] {
      EmptyAnswering(p);
    } else {
      var most, last := es[..|es| - 1], es[|es| - 1];
      AnsweringRun(most, p);
      AnsweringNext(PoolRun(most, p), OpenedNames(most, p), last, p);
      OpenedSplits(most, last, p);
      assert most + [last] == es;
    }
  }

  lemma EmptyAnswering(p: Platform)
    ensures Answering(EmptyPool(), OpenedNames([], p))
  {
    assert OpenedNames([], p) == {};
  }

  lemma OpenedSplits(es: seq<PoolEvent>, e: PoolEvent, p: Platform)
    ensures OpenedNames(es + [e], p) == OpenedNames(es, p) + OpenedNames([e], p)
  {
    hide Parse;
    var all := es + [e];
    forall n | n in OpenedNames(all, p)
      ensures n in OpenedNames(es, p) + OpenedNames([e], p)
    {
      var i :| 0 <= i < |all| && all[i].Opened? && Parse(all[i].name, p).Ok? && all[i].name == n;
      if i < |es| {
        assert es[i] == all[i];
      } else {
        assert [e][0] == all[i];
      }
    }
    forall n | n in OpenedNames(es, p) ensures n in OpenedNames(all, p) {
      var i :| 0 <= i < |es| && es[i].Opened? && Parse(es[i].name, p).Ok? && es[i].name == n;
      assert all[i] == es[i];
    }
    forall n | n in OpenedNames([e], p) ensures n in OpenedNames(all, p) {
      assert all[|es|] == e;
    }
  }

  /** No entry is ever replaced: a label keeps the channel it was first opened with. */
  lemma EntryStays(s: PoolSys, names: set<string>, e: PoolEvent, p: Platform, k: string)
    requires Answering(s, names) && AnswerEvent(e, p) && k in names
    ensures var t := PoolNext(s, e, p); (k in t.pool.idles || k in t.pool.actives) && Entry(t, k) == Entry(s, k)
  {
    hide Print, Parse, CanonicalLabel;
    if e.Released? && e.c < |s.labels| && Name(s, e.c) == k {
      assert Name(s, Entry(s, k)) == k;
    }
  }

  /** A label that parses is filed under the channel's own label exactly when it is canonical. */
  lemma FiledUnderOwnLabelExactlyWhen(s: PoolSys, name: string, p: Platform)
    requires Filed(s) && Parse(name, p).Ok? && name !in s.pool.idles && name !in s.pool.actives
    ensures var t := OnChannelOpen(s, name, p);
            && name in t.pool.idles && (Name(t, t.pool.idles[name]) == name <==> CanonicalLabel(name))
            && t.labels == s.labels + [Parse(name, p).value] && t.free == s.free + {|s.labels|}
            && t.pool == s.pool.(idles := s.pool.idles[name := |s.labels|])
  {
    PrintOfParsed(name, p);
  }

  // ---------- The two ends together ----------

  lemma PrintedIsCanonical(l: Label)
    ensures CanonicalLabel(Print(l))
  {
    SplitPrinted(l);
    DecIsCanonical(l.index);
  }

  /** Names under which the dialling pool has created its channels. */
  function Dialled(s: PoolSys): set<string> {
    set c | 0 <= c < |s.labels| :: Print(s.labels[c])
  }

  /**
    The ends agree: after any run of the dialling pool that stays below the answering platform's
    index bound, every label it made is routed to the pool, parses there, and after any run of opens
    of such labels the answering pool holds exactly the ones opened, each under the dialled name.
   */
  lemma PoolsAgree(dial: seq<PoolEvent>, answer: seq<PoolEvent>, p: Platform)
    requires forall i :: 0 <= i < |dial| ==> DialEvent(dial[i])
    requires PoolRun(dial, p).attempts < IntLimit(p)
    requires forall i :: 0 <= i < |answer| ==>
               !answer[i].Get? && (answer[i].Opened? ==> answer[i].name in Dialled(PoolRun(dial, p)))
    ensures forall n :: n in Dialled(PoolRun(dial, p)) ==> Dispatch(n) == ToPool && Parse(n, p).Ok?
    ensures Answering(PoolRun(answer, p), OpenedNames(answer, p))
    ensures forall i :: 0 <= i < |answer| && answer[i].Opened? ==> answer[i].name in OpenedNames(answer, p)
  {
    hide PoolNext, Answering, Parse, Dispatch, CanonicalLabel;
    var s := PoolRun(dial, p);
    DiallingRun(dial, p);
    forall n | n in Dialled(s)
      ensures Dispatch(n) == ToPool && Parse(n, p).Ok? && CanonicalLabel(n)
    {
      var c :| 0 <= c < |s.labels| && Print(s.labels[c]) == n;
      PrintedGoesToPool(s.labels[c]);
      PrintedParses(s.labels[c], p);
      PrintedIsCanonical(s.labels[c]);
    }
    AnsweringRun(answer, p);
  }

  lemma PrintedParses(l: Label, p: Platform)
    requires l.index < IntLimit(p)
    ensures Parse(Print(l), p) == Ok(Label(TypeName(l.channelType), l.index))
  {
    SplitPrinted(l);
    AtoiOfDec(l.index, p);
  }
}
