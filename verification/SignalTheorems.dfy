/** The main results about the signalling client, for every interleaving of packets, consumers, closes and timers. */
module SignalTheorems {
  import opened Options
  import opened SignalModel

  // ---------- Delayed deletion ----------

  /**
    In every reachable state a timer is pending for an id, once, exactly when the session stored
    there is closed. So a timer that fires removes a closed session and leaves every open one stored.
   */
  lemma DeletionIsSafe(notifies: bool, es: seq<Event>, id: string)
    ensures var c := Run(notifies, es);
            && (id in c.timers <==> id in c.sessions && c.sessions[id] < |c.lives| && c.lives[c.sessions[id]].closed)
            && c.timers[id] <= 1
            && (forall k :: 0 <= k < |c.lives| && !c.lives[k].closed ==>
                  var d := Next(c, Fire(id));
                  !d.lives[k].closed && d.lives[k].id in d.sessions && d.sessions[d.lives[k].id] == k)
  {
    RunKeeps(notifies, es);
    var c := Run(notifies, es);
    NextKeeps(c, Fire(id));
    hide Run, Newest, AnnouncedOnce, Queues, LoopOk;
  }

  /** Closing a session a second time panics exactly while its deletion is still pending. */
  lemma ClosePanicsExactlyWhen(notifies: bool, es: seq<Event>, id: string)
    ensures var c := Run(notifies, es);
            !c.panicked ==> (Next(c, CloseSession(id)).panicked <==> id in c.timers)
  {
    RunKeeps(notifies, es);
    hide Run, Newest, AnnouncedOnce, Queues, LoopOk;
  }

  /** A closed session stays closed and is never given anything again. */
  lemma ClosedReceivesNothing(c: Client, e: Event, k: nat)
    requires Inv(c) && k < |c.lives| && c.lives[k].closed
    ensures var d := Next(c, e);
            k < |d.lives| && d.lives[k].closed && d.lives[k].id == c.lives[k].id && d.lives[k].given == c.lives[k].given
  {
    hide Stored, Newest, Timed, AnnouncedOnce, Queues, GetSession;
    if e.Packet? { GetKeepsLives(c, e.pid, k); }
    if e.Ask? { GetKeepsLives(c, e.pid, k); }
  }

  lemma GetKeepsLives(c: Client, id: string, k: nat)
    requires k < |c.lives|
    ensures var d := GetSession(c, id); k < |d.lives| && d.lives[k] == c.lives[k] && d.notifies == c.notifies
  {
  }

  /** Each session lifetime is announced exactly once and in order; consumers lose and reorder nothing. */
  lemma AnnouncedAndConserved(notifies: bool, es: seq<Event>, k: nat)
    requires k < |Run(notifies, es).lives|
    ensures var c := Run(notifies, es);
            && (notifies ==> |c.announced| == |c.lives| && c.announced[k] == c.lives[k].id)
            && c.lives[k].given.ices == c.lives[k].taken.ices + c.lives[k].queued.ices
            && c.lives[k].given.sdps == c.lives[k].taken.sdps + c.lives[k].queued.sdps
            && |c.lives[k].queued.ices| <= 5 && |c.lives[k].queued.sdps| <= 1
  {
    RunKeeps(notifies, es);
    NotifiesStays(notifies, es);
  }

  lemma {:induction false} NotifiesStays(notifies: bool, es: seq<Event>)
    ensures Run(notifies, es).notifies == notifies
  {
    hide Next;
    if es != [] {
      NotifiesStays(notifies, es[..|es| - 1]);
      NotifiesNext(Run(notifies, es[..|es| - 1]), es[|es| - 1]);
    }
  }

  lemma NotifiesNext(c: Client, e: Event)
    ensures Next(c, e).notifies == c.notifies
  {
    hide PutIce, PutSdp, Received;
  }

  // ---------- One id by itself ----------

  datatype Mode = Absent | Open | Closing

  /** The rest of the packet in hand. */
  datatype Pending = Nothing | IceThen(ice: Cand, more: Option<Sdp>) | SdpLast(sdp: Sdp)

  /** What the client is for one peer id: no map, no timers, no other peers. */
  datatype Single = Single(mode: Mode, pending: Pending, lives: seq<Streams>)

  function InHand(ice: Option<Cand>, sdp: Option<Sdp>): Pending {
    if ice.Some? then IceThen(ice.value, sdp) else if sdp.Some? then SdpLast(sdp.value) else Nothing
  }

  function Opens(r: Single): Single {
    if r.mode == Absent then Single(Open, Nothing, r.lives + [Streams([], [])]) else r
  }

  function AddIce(lives: seq<Streams>, ice: Cand): seq<Streams> {
    if lives == [] then lives
    else lives[|lives| - 1 := lives[|lives| - 1].(ices := lives[|lives| - 1].ices + [ice])]
  }

  function AddSdp(lives: seq<Streams>, sdp: Sdp): seq<Streams> {
    if lives == [] then lives
    else lives[|lives| - 1 := lives[|lives| - 1].(sdps := lives[|lives| - 1].sdps + [sdp])]
  }

  function SingleNext(r: Single, e: Event): Single {
    match e
    case Packet(pid, ice, sdp) =>
      if pid == "" then r
      else var o := Opens(r); if o.mode == Open then o.(pending := InHand(ice, sdp)) else o
    case Ask(_) => Opens(r)
    case GiveIce(_) =>
      if r.pending.IceThen? then r.(pending := InHand(None, r.pending.more), lives := AddIce(r.lives, r.pending.ice)) else r
    case GiveSdp(_) =>
      if r.pending.SdpLast? then r.(pending := Nothing, lives := AddSdp(r.lives, r.pending.sdp)) else r
    case CloseSession(_) => if r.mode == Open then r.(mode := Closing, pending := Nothing) else r
    case Fire(_) => if r.mode == Closing then r.(mode := Absent) else r
    case TakeIce(_) => r
    case TakeSdp(_) => r
  }

  predicate Concerns(e: Event, p: string) {
    match e
    case TakeIce(_) => false
    case TakeSdp(_) => false
    case _ => e.pid == p
  }

  /** The send that an event stands for goes through, rather than blocking on a full queue. */
  predicate Completes(c: Client, e: Event) {
    match e
    case GiveIce(_) => !(c.loop.GivingIce? && c.loop.life < |c.lives| && !c.lives[c.loop.life].closed
                         && |c.lives[c.loop.life].queued.ices| >= ICE_CAP)
    case GiveSdp(_) => !(c.loop.GivingSdp? && c.loop.life < |c.lives| && !c.lives[c.loop.life].closed
                         && |c.lives[c.loop.life].queued.sdps| >= SDP_CAP)
    case _ => true
  }

  /** The events of a run that happen and concern one id, in order. */
  function Heard(notifies: bool, es: seq<Event>, p: string): seq<Event> {
    if es == [] then []
    else
      var c, e := Run(notifies, es[..|es| - 1]), es[|es| - 1];
      Heard(notifies, es[..|es| - 1], p) + (if Enabled(c, e) && Completes(c, e) && Concerns(e, p) then [e] else [])
  }

  function SingleRun(es: seq<Event>): Single {
    if es == [] then Single(Absent, Nothing, []) else SingleNext(SingleRun(es[..|es| - 1]), es[|es| - 1])
  }

  // ---------- The client seen from one id ----------

  function GivenTo(lives: seq<Session>, p: string): seq<Streams> {
    if lives == [] then []
    else
      var s := lives[|lives| - 1];
      GivenTo(lives[..|lives| - 1], p) + (if s.id == p then [s.given] else [])
  }

  function ModeOf(sessions: map<string, nat>, lives: seq<Session>, p: string): Mode {
    if p !in sessions || sessions[p] >= |lives| then Absent
    else if lives[sessions[p]].closed then Closing
    else Open
  }

  predicate OpenFor(lives: seq<Session>, k: nat, p: string) {
    k < |lives| && lives[k].id == p && !lives[k].closed
  }

  function PendingOf(l: Loop, lives: seq<Session>, p: string): Pending {
    match l
    case GivingIce(k, ice, more, _) => if OpenFor(lives, k, p) then IceThen(ice, more) else Nothing
    case GivingSdp(k, sdp, _) => if OpenFor(lives, k, p) then SdpLast(sdp) else Nothing
    case _ => Nothing
  }

  function ViewOf(c: Client, p: string): Single {
    Single(ModeOf(c.sessions, c.lives, p), PendingOf(c.loop, c.lives, p), GivenTo(c.lives, p))
  }

  /** A session replaced by one with the same id and closedness changes neither mode nor pending. */
  lemma ReplaceUnseen(sessions: map<string, nat>, lives: seq<Session>, l: Loop, k: nat, s: Session, p: string)
    requires k < |lives| && s.id == lives[k].id && s.closed == lives[k].closed
    ensures ModeOf(sessions, lives[k := s], p) == ModeOf(sessions, lives, p)
    ensures PendingOf(l, lives[k := s], p) == PendingOf(l, lives, p)
  {
  }

  lemma PendingAfterIce(lives: seq<Session>, k: nat, more: Option<Sdp>, p: string)
    ensures PendingOf(AfterIce(k, more), lives, p) == if OpenFor(lives, k, p) then InHand(None, more) else Nothing
  {
  }

  lemma GivenAppend(lives: seq<Session>, s: Session, p: string)
    ensures GivenTo(lives + [s], p) == GivenTo(lives, p) + (if s.id == p then [s.given] else [])
  {
    assert (lives + [s])[..|lives|] == lives;
  }

  /** Replacing a session changes what was given to its own id only, and there only the newest entry. */
  lemma {:induction false} GivenReplace(lives: seq<Session>, k: nat, s: Session, p: string)
    requires k < |lives| && s.id == lives[k].id
    requires s.id != p || s.given == lives[k].given
    ensures GivenTo(lives[k := s], p) == GivenTo(lives, p)
  {
    var n := |lives| - 1;
    if k == n {
      assert lives[k := s][..n] == lives[..n];
    } else {
      assert lives[k := s][..n] == lives[..n][k := s];
      GivenReplace(lives[..n], k, s, p);
    }
  }

  lemma {:induction false} GivenNewest(lives: seq<Session>, k: nat, s: Session, p: string)
    requires k < |lives| && s.id == lives[k].id == p
    requires forall j :: k < j < |lives| ==> lives[j].id != p
    ensures var g := GivenTo(lives, p);
            g != [] && g[|g| - 1] == lives[k].given && GivenTo(lives[k := s], p) == g[..|g| - 1] + [s.given]
  {
    var n := |lives| - 1;
    if k == n {
      assert lives[k := s][..n] == lives[..n];
      assert GivenTo(lives, p) == GivenTo(lives[..n], p) + [lives[k].given];
    } else {
      assert lives[k := s][..n] == lives[..n][k := s];
      GivenNewest(lives[..n], k, s, p);
      assert GivenTo(lives, p) == GivenTo(lives[..n], p) + [];
      assert GivenTo(lives[k := s], p) == GivenTo(lives[..n][k := s], p) + [];
    }
  }

  // ---------- Steps ----------

  /** What one step does to the view from one id. */
  ghost predicate Seen(c: Client, d: Client, e: Event, p: string) {
    ViewOf(d, p) == if Completes(c, e) && Concerns(e, p) then SingleNext(ViewOf(c, p), e) else ViewOf(c, p)
  }

  lemma AppendUnseen(sessions: map<string, nat>, lives: seq<Session>, l: Loop, s: Session, p: string)
    requires forall id :: id in sessions ==> sessions[id] < |lives|
    requires l.GivingIce? || l.GivingSdp? ==> l.life < |lives|
    requires s.id !in sessions && !s.closed
    ensures ModeOf(sessions[s.id := |lives|], lives + [s], p) == if p == s.id then Open else ModeOf(sessions, lives, p)
    ensures PendingOf(l, lives + [s], p) == PendingOf(l, lives, p)
  {
  }

  /** An id with no session stored has no open session, so nothing is in hand for it. */
  lemma AbsentHasNothing(c: Client, p: string)
    requires Stored(c) && p !in c.sessions
    ensures PendingOf(c.loop, c.lives, p) == Nothing
  {
  }

  lemma SeenGet(c: Client, id: string, p: string)
    requires Inv(c)
    ensures ViewOf(GetSession(c, id), p) == if id == p then Opens(ViewOf(c, p)) else ViewOf(c, p)
    ensures GetSession(c, id).loop == c.loop
  {
    hide Timed, AnnouncedOnce, Queues, Newest;
    if id !in c.sessions {
      GivenAppend(c.lives, NewSession(id), p);
      AppendUnseen(c.sessions, c.lives, c.loop, NewSession(id), p);
      AbsentHasNothing(c, id);
      hide GivenTo, ModeOf, PendingOf;
      assert ModeOf(c.sessions, c.lives, id) == Absent by { NotStored(c, id); }
    } else {
      StoredMode(c, id);
    }
  }

  lemma NotStored(c: Client, p: string)
    requires p !in c.sessions
    ensures ModeOf(c.sessions, c.lives, p) == Absent
  {
  }

  lemma StoredMode(c: Client, p: string)
    requires Stored(c) && p in c.sessions
    ensures ModeOf(c.sessions, c.lives, p) == if c.lives[c.sessions[p]].closed then Closing else Open
  {
  }

  lemma SeenPacket(c: Client, pid: string, ice: Option<Cand>, sdp: Option<Sdp>, p: string)
    requires Inv(c) && c.loop.Reading?
    ensures Seen(c, Dispatch(c, pid, ice, sdp), Packet(pid, ice, sdp), p)
  {
    hide Inv, GetSession, GivenTo, ModeOf, AfterIce;
    if pid != "" {
      var d := GetSession(c, pid);
      SeenGet(c, pid, p);
      GetKeeps(c, pid);
      Found(d, pid);
      PendingAfterIce(d.lives, d.sessions[pid], sdp, p);
    }
  }

  lemma Found(c: Client, p: string)
    requires Inv(c) && p in c.sessions
    ensures var k := c.sessions[p];
            && k < |c.lives| && c.lives[k].id == p
            && ModeOf(c.sessions, c.lives, p) == if c.lives[k].closed then Closing else Open
  {
    hide Newest, Timed, AnnouncedOnce, Queues, LoopOk;
  }

  /** The open session in hand is the newest of its id. */
  lemma TargetIsNewest(c: Client, k: nat)
    requires Inv(c) && k < |c.lives| && !c.lives[k].closed
    ensures forall j :: k < j < |c.lives| ==> c.lives[j].id != c.lives[k].id
  {
    hide Timed, AnnouncedOnce, Queues, LoopOk;
    assert c.sessions[c.lives[k].id] == k;
  }

  lemma SeenOnIce(c: Client, pid: string, p: string)
    requires Inv(c) && Enabled(c, GiveIce(pid))
    ensures Seen(c, OnIce(c), GiveIce(pid), p)
  {
    hide Inv, GivenTo, ModeOf, AfterIce;
    var k, s := c.loop.life, c.lives[c.loop.life];
    var put := PutIce(s, c.loop.ice);
    PendingAfterIce(c.lives, k, c.loop.more, p);
    if !s.closed && |s.queued.ices| < ICE_CAP {
      TargetIsNewest(c, k);
      ReplaceUnseen(c.sessions, c.lives, AfterIce(k, c.loop.more), k, put, p);
      if p == pid {
        GivenNewest(c.lives, k, put, p);
      } else {
        GivenReplace(c.lives, k, put, p);
      }
    }
  }

  lemma SeenOnSdp(c: Client, pid: string, p: string)
    requires Inv(c) && Enabled(c, GiveSdp(pid))
    ensures Seen(c, OnSdp(c), GiveSdp(pid), p)
  {
    hide Inv, GivenTo, ModeOf;
    var k, s := c.loop.life, c.lives[c.loop.life];
    var put := PutSdp(s, c.loop.sdp);
    if !s.closed && |s.queued.sdps| < SDP_CAP {
      TargetIsNewest(c, k);
      ReplaceUnseen(c.sessions, c.lives, Reading, k, put, p);
      if p == pid {
        GivenNewest(c.lives, k, put, p);
      } else {
        GivenReplace(c.lives, k, put, p);
      }
    }
  }

  /** Closing the stored session of an id, as seen from any id. */
  lemma CloseSeen(c: Client, id: string, p: string)
    requires Stored(c) && id in c.sessions && !c.lives[c.sessions[id]].closed
    ensures var lives := c.lives[c.sessions[id] := c.lives[c.sessions[id]].(closed := true)];
            && ModeOf(c.sessions, lives, p) == (if p == id then Closing else ModeOf(c.sessions, c.lives, p))
            && PendingOf(c.loop, lives, p) == (if p == id then Nothing else PendingOf(c.loop, c.lives, p))
  {
  }

  lemma SeenClose(c: Client, id: string, p: string)
    requires Inv(c)
    ensures Seen(c, DoClose(c, id), CloseSession(id), p)
  {
    hide Timed, AnnouncedOnce, Queues, Newest, LoopOk;
    if id in c.sessions {
      var k := c.sessions[id];
      GivenReplace(c.lives, k, c.lives[k].(closed := true), p);
      StoredMode(c, id);
      if !c.lives[k].closed {
        CloseSeen(c, id, p);
      }
    } else {
      NotStored(c, id);
    }
    hide GivenTo, ModeOf, PendingOf;
  }

  lemma SeenFire(c: Client, id: string, p: string)
    requires Inv(c) && id in c.timers
    ensures Seen(c, DoFire(c, id), Fire(id), p)
  {
    hide GivenTo, AnnouncedOnce, Queues, Newest;
  }

  lemma SeenTake(c: Client, k: nat, ice: bool, p: string)
    requires Inv(c) && k < |c.lives| && if ice then c.lives[k].queued.ices != [] else c.lives[k].queued.sdps != []
    ensures ViewOf(c.(lives := c.lives[k := Received(c.lives[k], ice)]), p) == ViewOf(c, p)
  {
    hide Inv, GivenTo, ModeOf, PendingOf;
    GivenReplace(c.lives, k, Received(c.lives[k], ice), p);
    ReplaceUnseen(c.sessions, c.lives, c.loop, k, Received(c.lives[k], ice), p);
  }

  lemma SeenNext(c: Client, e: Event, p: string)
    requires Inv(c) && Enabled(c, e)
    ensures Seen(c, Next(c, e), e, p)
  {
    hide Inv, ViewOf, SingleNext;
    match e
    case Packet(pid, ice, sdp) => SeenPacket(c, pid, ice, sdp, p);
    case GiveIce(pid) => SeenOnIce(c, pid, p);
    case GiveSdp(pid) => SeenOnSdp(c, pid, p);
    case Ask(pid) => SeenAsk(c, pid, p);
    case CloseSession(pid) => SeenClose(c, pid, p);
    case Fire(pid) => SeenFire(c, pid, p);
    case TakeIce(k) => SeenTake(c, k, true, p);
    case TakeSdp(k) => SeenTake(c, k, false, p);
  }

  lemma SeenAsk(c: Client, id: string, p: string)
    requires Inv(c)
    ensures Seen(c, GetSession(c, id), Ask(id), p)
  {
    SeenGet(c, id, p);
    hide GetSession, ViewOf, Inv;
  }

  /**
    Demultiplexing refines the one-peer client: for every run and every id, the sessions made for
    that id and everything given to each of them are those of a client that hears only the events of
    that id. This is about content: what other ids are sent changes none of it. When the loop takes a
    packet in does depend on the other ids' queues; SignalDelays says how.
   */
  lemma {:induction false} DemultiplexingRefines(notifies: bool, es: seq<Event>, p: string)
    ensures ViewOf(Run(notifies, es), p) == SingleRun(Heard(notifies, es, p))
  {
    if es == [] {
      assert ViewOf(Run(notifies, es), p) == Single(Absent, Nothing, []);
    } else {
      hide Inv, Next, ViewOf, SingleNext, Completes, Enabled, Concerns;
      var most, e := es[..|es| - 1], es[|es| - 1];
      var c := Run(notifies, most);
      RunKeeps(notifies, most);
      DemultiplexingRefines(notifies, most, p);
      SingleTo(Heard(notifies, most, p), e);
      if Enabled(c, e) {
        SeenNext(c, e, p);
      } else {
        Disabled(c, e);
      }
    }
  }

  lemma SingleTo(es: seq<Event>, e: Event)
    ensures SingleRun(es + [e]) == SingleNext(SingleRun(es), e)
    ensures SingleRun(es + []) == SingleRun(es)
  {
    hide SingleNext;
    assert (es + [e])[..|es|] == es;
    assert es + [] == es;
  }

  lemma Disabled(c: Client, e: Event)
    requires !Enabled(c, e)
    ensures Next(c, e) == c
  {
  }

  // ---------- One lifetime is a filter ----------

  function RunFrom(c: Client, es: seq<Event>): Client
    decreases |es|
  {
    if es == [] then c else RunFrom(Next(c, es[0]), es[1..])
  }

  function Arrived(c: Client, e: Event, p: string): seq<Event> {
    if e.Packet? && e.pid == p && Enabled(c, e) then [e] else []
  }

  /** The packets addressed to p that the loop takes in from state c on. */
  function Arrivals(c: Client, es: seq<Event>, p: string): seq<Event>
    decreases |es|
  {
    if es == [] then [] else Arrived(c, es[0], p) + Arrivals(Next(c, es[0]), es[1..], p)
  }

  function OptSeq<T>(o: Option<T>): seq<T> {
    if o.Some? then [o.value] else []
  }

  /** The filter: the candidates, or the descriptions, that packets carry, in order. */
  function IcesOf(es: seq<Event>): seq<Cand> {
    if es == [] then [] else (if es[0].Packet? then OptSeq(es[0].ice) else []) + IcesOf(es[1..])
  }

  function SdpsOf(es: seq<Event>): seq<Sdp> {
    if es == [] then [] else (if es[0].Packet? then OptSeq(es[0].sdp) else []) + SdpsOf(es[1..])
  }

  /** What the current lifetime has been given, then what is in hand for it; nothing when there is none. */
  function DueIces(r: Single): seq<Cand> {
    if r.mode != Open || r.lives == [] then []
    else r.lives[|r.lives| - 1].ices + (if r.pending.IceThen? then [r.pending.ice] else [])
  }

  function DueSdps(r: Single): seq<Sdp> {
    if r.mode != Open || r.lives == [] then []
    else
      r.lives[|r.lives| - 1].sdps
      + match r.pending
        case IceThen(_, more) => OptSeq(more)
        case SdpLast(sdp) => [sdp]
        case Nothing => []
  }

  /** What one event adds to what is due. */
  lemma DueStep(r: Single, e: Event)
    requires r.mode != Closing && !e.CloseSession? && !e.TakeIce? && !e.TakeSdp? && e.pid != ""
    requires r.mode == Open ==> r.lives != []
    requires e.Packet? ==> r.pending == Nothing
    ensures var q := SingleNext(r, e);
            && q.mode != Closing && (q.mode == Open ==> q.lives != [])
            && DueIces(q) == DueIces(r) + (if e.Packet? then OptSeq(e.ice) else [])
            && DueSdps(q) == DueSdps(r) + (if e.Packet? then OptSeq(e.sdp) else [])
  {
  }

  lemma OpenHasLife(c: Client, p: string)
    requires Inv(c) && ModeOf(c.sessions, c.lives, p) == Open
    ensures GivenTo(c.lives, p) != []
  {
    var k := c.sessions[p];
    TargetIsNewest(c, k);
    GivenNewest(c.lives, k, c.lives[k], p);
  }

  lemma DueNext(c: Client, e: Event, p: string)
    requires Inv(c) && p != "" && ModeOf(c.sessions, c.lives, p) != Closing && e != CloseSession(p)
    ensures var r, q := ViewOf(c, p), ViewOf(Next(c, e), p);
            && q.mode != Closing
            && DueIces(q) == DueIces(r) + IcesOf(Arrived(c, e, p))
            && DueSdps(q) == DueSdps(r) + SdpsOf(Arrived(c, e, p))
  {
    hide Inv, Next, GivenTo, SingleNext, DueIces, DueSdps;
    if !Enabled(c, e) {
      Disabled(c, e);
    } else {
      SeenNext(c, e, p);
      if Completes(c, e) && Concerns(e, p) {
        if ViewOf(c, p).mode == Open {
          OpenHasLife(c, p);
        }
        DueStep(ViewOf(c, p), e);
      }
    }
  }

  lemma {:induction false} IcesAppend(a: seq<Event>, b: seq<Event>)
    ensures IcesOf(a + b) == IcesOf(a) + IcesOf(b)
  {
    if a == [] {
      assert a + b == b;
    } else {
      assert (a + b)[1..] == a[1..] + b;
      IcesAppend(a[1..], b);
    }
  }

  lemma NothingArrives()
    ensures IcesOf([]) == [] && SdpsOf([]) == []
  {
  }

  lemma {:induction false} SdpsAppend(a: seq<Event>, b: seq<Event>)
    ensures SdpsOf(a + b) == SdpsOf(a) + SdpsOf(b)
  {
    if a == [] {
      assert a + b == b;
    } else {
      assert (a + b)[1..] == a[1..] + b;
      SdpsAppend(a[1..], b);
    }
  }

  /**
    Demultiplexing is filtering: from any reachable state on, as long as the session of p is not
    closed, what its lifetime has been given followed by what is in hand for it grows by exactly the
    candidates and descriptions of the packets addressed to p, in arrival order. From a state without
    a session, it is exactly that filter.
   */
  lemma {:induction false} LifetimeIsFilter(c: Client, es: seq<Event>, p: string)
    requires Inv(c) && p != "" && ModeOf(c.sessions, c.lives, p) != Closing && CloseSession(p) !in es
    ensures var d := RunFrom(c, es);
            && ModeOf(d.sessions, d.lives, p) != Closing
            && DueIces(ViewOf(d, p)) == DueIces(ViewOf(c, p)) + IcesOf(Arrivals(c, es, p))
            && DueSdps(ViewOf(d, p)) == DueSdps(ViewOf(c, p)) + SdpsOf(Arrivals(c, es, p))
    decreases |es|
  {
    hide Inv, Next, GivenTo, DueIces, DueSdps, PendingOf, Arrived, IcesOf, SdpsOf;
    if es != [] {
      var e, rest := es[0], es[1..];
      NextKeeps(c, e);
      DueNext(c, e, p);
      LifetimeIsFilter(Next(c, e), rest, p);
      IcesAppend(Arrived(c, e, p), Arrivals(Next(c, e), rest, p));
      SdpsAppend(Arrived(c, e, p), Arrivals(Next(c, e), rest, p));
    } else {
      NothingArrives();
    }
  }

  /**
    What a packet puts into the loop's hand: nothing when it names no peer, carries nothing, or its session
    is closed; otherwise first its candidate and then its description, for the session of its id.
   */
  lemma TakesInHand(c: Client, pid: string, ice: Option<Cand>, sdp: Option<Sdp>)
    requires Inv(c) && Enabled(c, Packet(pid, ice, sdp))
    ensures var d := Next(c, Packet(pid, ice, sdp));
            if pid == "" || (pid in c.sessions && c.lives[c.sessions[pid]].closed) then d == c
            else
              && pid in d.sessions && d.lives[d.sessions[pid]].id == pid && !d.lives[d.sessions[pid]].closed
              && d.loop == if ice.Some? then GivingIce(d.sessions[pid], ice.value, sdp, false)
                           else if sdp.Some? then GivingSdp(d.sessions[pid], sdp.value, false)
                           else Reading
  {
    hide Newest, Timed, AnnouncedOnce, Queues, LoopOk;
  }

  /** A session is only ever given what packets carried to a non-empty id; one asked for under "" gets nothing. */
  lemma {:induction false} EmptyIdGetsNothing(notifies: bool, es: seq<Event>, k: nat)
    requires k < |Run(notifies, es).lives| && Run(notifies, es).lives[k].id == ""
    ensures Run(notifies, es).lives[k].given == Streams([], [])
  {
    if es != [] {
      hide Stored, Newest, Timed, AnnouncedOnce, Queues;
      var c, e := Run(notifies, es[..|es| - 1]), es[|es| - 1];
      RunKeeps(notifies, es[..|es| - 1]);
      GivenGrows(c, e, k);
      if k < |c.lives| {
        EmptyIdGetsNothing(notifies, es[..|es| - 1], k);
      }
    }
  }

  lemma GivenGrows(c: Client, e: Event, k: nat)
    requires LoopOk(c) && k < |Next(c, e).lives| && Next(c, e).lives[k].id == ""
    ensures if k < |c.lives| then c.lives[k].id == "" && Next(c, e).lives[k].given == c.lives[k].given
            else Next(c, e).lives[k].given == Streams([], [])
  {
    hide GetSession;
    if e.Packet? { GetAdds(c, e.pid, k); }
    if e.Ask? { GetAdds(c, e.pid, k); }
  }

  lemma GetAdds(c: Client, id: string, k: nat)
    ensures var d := GetSession(c, id);
            && d.loop == c.loop
            && (k < |c.lives| ==> k < |d.lives| && d.lives[k] == c.lives[k])
            && (|c.lives| <= k < |d.lives| ==> d.lives[k] == NewSession(id))
  {
  }
}
