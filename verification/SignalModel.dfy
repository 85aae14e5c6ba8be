/**
  net/conn/ws-sig.go as a state machine: the session map, the queues of every session ever made, the
  deletion timers, and the dispatch loop, which can block on a full queue.
 */
module SignalModel {
  import opened Options

  type Cand = string
  type Sdp = string

  /** The two streams of a session, as handed over so far. */
  datatype Streams = Streams(ices: seq<Cand>, sdps: seq<Sdp>)

  datatype Session = Session(
    id: string,
    closed: bool,
    queued: Streams,  // in the channels `ice` and `sdp`
    given: Streams,   // everything ever sent on them
    taken: Streams)   // everything ever received from them

  /**
    Where Run stands: reading the socket, about to give a packet's candidate or description to the
    session it looked up (a number in `lives`), or ended by a panic. `waits`: blocked in that send.
   */
  datatype Loop =
    | Reading
    | GivingIce(life: nat, ice: Cand, more: Option<Sdp>, waits: bool)
    | GivingSdp(life: nat, sdp: Sdp, waits: bool)
    | Stopped

  datatype Client = Client(
    notifies: bool,              // OnSession is set
    sessions: map<string, nat>,  // id -> the session's place in `lives`
    lives: seq<Session>,         // every session made, in order
    timers: multiset<string>,    // deletions waiting for their time
    announced: seq<string>,      // calls of OnSession
    loop: Loop,
    panicked: bool)              // a session was closed twice

  datatype Event =
    | Packet(pid: string, ice: Option<Cand>, sdp: Option<Sdp>)
    | GiveIce(pid: string)
    | GiveSdp(pid: string)
    | Ask(pid: string)           // RemoteSdp, RemoteIceCandidates
    | CloseSession(pid: string)
    | Fire(pid: string)          // a deletion timer
    | TakeIce(life: nat)
    | TakeSdp(life: nat)

  const ICE_CAP: nat := 5
  const SDP_CAP: nat := 1

  function NewSession(id: string): Session {
    Session(id, false, Streams([], []), Streams([], []), Streams([], []))
  }

  function NewClient(notifies: bool): Client {
    Client(notifies, map[], [], multiset{}, [], Reading, false)
  }

  /** GetSession: the session under an id, made and announced if there is none. */
  function GetSession(c: Client, id: string): Client {
    if id in c.sessions then c
    else c.(sessions := c.sessions[id := |c.lives|], lives := c.lives + [NewSession(id)],
            announced := if c.notifies then c.announced + [id] else c.announced)
  }

  /** One packet up to the first send it leads to. */
  function Dispatch(c: Client, pid: string, ice: Option<Cand>, sdp: Option<Sdp>): Client {
    if pid == "" then c
    else
      var d := GetSession(c, pid);
      var k := d.sessions[pid];
      if k >= |d.lives| || d.lives[k].closed then d
      else if ice.Some? then d.(loop := GivingIce(k, ice.value, sdp, false))
      else d.(loop := AfterIce(k, sdp))
  }

  function AfterIce(k: nat, sdp: Option<Sdp>): Loop {
    if sdp.Some? then GivingSdp(k, sdp.value, false) else Reading
  }

  function PutIce(s: Session, ice: Cand): Session {
    s.(queued := s.queued.(ices := s.queued.ices + [ice]), given := s.given.(ices := s.given.ices + [ice]))
  }

  function PutSdp(s: Session, sdp: Sdp): Session {
    s.(queued := s.queued.(sdps := s.queued.sdps + [sdp]), given := s.given.(sdps := s.given.sdps + [sdp]))
  }

  /** OnIceCandidate: a closed session is skipped, but a send it was blocked in panics; a full queue blocks. */
  function OnIce(c: Client): Client
    requires c.loop.GivingIce? && c.loop.life < |c.lives|
  {
    var k, s := c.loop.life, c.lives[c.loop.life];
    if s.closed then c.(loop := if c.loop.waits then Stopped else AfterIce(k, c.loop.more))
    else if |s.queued.ices| >= ICE_CAP then c.(loop := GivingIce(k, c.loop.ice, c.loop.more, true))
    else c.(lives := c.lives[k := PutIce(s, c.loop.ice)], loop := AfterIce(k, c.loop.more))
  }

  function OnSdp(c: Client): Client
    requires c.loop.GivingSdp? && c.loop.life < |c.lives|
  {
    var k, s := c.loop.life, c.lives[c.loop.life];
    if s.closed then c.(loop := if c.loop.waits then Stopped else Reading)
    else if |s.queued.sdps| >= SDP_CAP then c.(loop := GivingSdp(k, c.loop.sdp, true))
    else c.(lives := c.lives[k := PutSdp(s, c.loop.sdp)], loop := Reading)
  }

  function Schedule(timers: multiset<string>, id: string): multiset<string> {
    timers + multiset{id}
  }

  function Unschedule(timers: multiset<string>, id: string): multiset<string> {
    timers - multiset{id}
  }

  /** CloseSession: closing the queues of a closed session panics; otherwise a deletion is scheduled. */
  function DoClose(c: Client, id: string): Client {
    if id !in c.sessions || c.sessions[id] >= |c.lives| then c
    else
      var k := c.sessions[id];
      if c.lives[k].closed then c.(panicked := true)
      else c.(lives := c.lives[k := c.lives[k].(closed := true)], timers := Schedule(c.timers, id))
  }

  /** The timer's function: it deletes whatever is stored under the id by then. */
  function DoFire(c: Client, id: string): Client {
    c.(sessions := c.sessions - {id}, timers := Unschedule(c.timers, id))
  }

  /**
    A send the loop was blocked in has found room: the receive that made it also completed the send, so
    the session cannot be closed in between.
   */
  predicate HandsOver(c: Client, id: string) {
    match c.loop
    case GivingIce(k, _, _, waits) =>
      waits && k < |c.lives| && c.lives[k].id == id && !c.lives[k].closed && |c.lives[k].queued.ices| < ICE_CAP
    case GivingSdp(k, _, waits) =>
      waits && k < |c.lives| && c.lives[k].id == id && !c.lives[k].closed && |c.lives[k].queued.sdps| < SDP_CAP
    case _ => false
  }

  predicate Enabled(c: Client, e: Event) {
    && !c.panicked
    && match e
       case Packet(_, _, _) => c.loop.Reading?
       case GiveIce(pid) => c.loop.GivingIce? && c.loop.life < |c.lives| && c.lives[c.loop.life].id == pid
       case GiveSdp(pid) => c.loop.GivingSdp? && c.loop.life < |c.lives| && c.lives[c.loop.life].id == pid
       case CloseSession(pid) => !HandsOver(c, pid)
       case Fire(pid) => pid in c.timers
       case TakeIce(k) => k < |c.lives| && c.lives[k].queued.ices != []
       case TakeSdp(k) => k < |c.lives| && c.lives[k].queued.sdps != []
       case _ => true
  }

  function Received(s: Session, ice: bool): Session
    requires if ice then s.queued.ices != [] else s.queued.sdps != []
  {
    if ice then
      s.(queued := s.queued.(ices := s.queued.ices[1..]), taken := s.taken.(ices := s.taken.ices + [s.queued.ices[0]]))
    else
      s.(queued := s.queued.(sdps := s.queued.sdps[1..]), taken := s.taken.(sdps := s.taken.sdps + [s.queued.sdps[0]]))
  }

  function Next(c: Client, e: Event): Client {
    if !Enabled(c, e) then c
    else match e
      case Packet(pid, ice, sdp) => Dispatch(c, pid, ice, sdp)
      case GiveIce(_) => OnIce(c)
      case GiveSdp(_) => OnSdp(c)
      case Ask(pid) => GetSession(c, pid)
      case CloseSession(pid) => DoClose(c, pid)
      case Fire(pid) => DoFire(c, pid)
      case TakeIce(k) => c.(lives := c.lives[k := Received(c.lives[k], true)])
      case TakeSdp(k) => c.(lives := c.lives[k := Received(c.lives[k], false)])
  }

  function Run(notifies: bool, es: seq<Event>): Client {
    if es == [] then NewClient(notifies) else Next(Run(notifies, es[..|es| - 1]), es[|es| - 1])
  }

  // ---------- What every run keeps ----------

  ghost predicate Stored(c: Client) {
    && (forall id :: id in c.sessions ==> c.sessions[id] < |c.lives| && c.lives[c.sessions[id]].id == id)
    && (forall k :: 0 <= k < |c.lives| && !c.lives[k].closed ==> c.lives[k].id in c.sessions && c.sessions[c.lives[k].id] == k)
  }

  /** A stored session is the newest of its id. */
  ghost predicate Newest(c: Client) {
    forall id, k :: id in c.sessions && c.sessions[id] < k < |c.lives| ==> c.lives[k].id != id
  }

  /** A deletion is pending for an id, once, exactly when the session stored there is closed. */
  ghost predicate Timed(c: Client) {
    forall id :: c.timers[id] ==
      if id in c.sessions && c.sessions[id] < |c.lives| && c.lives[c.sessions[id]].closed then 1 else 0
  }

  /** Each session was announced once, when it was made. */
  ghost predicate AnnouncedOnce(c: Client) {
    if c.notifies
    then |c.announced| == |c.lives| && forall k :: 0 <= k < |c.lives| ==> c.announced[k] == c.lives[k].id
    else c.announced == []
  }

  ghost predicate Conserved(s: Session) {
    && s.given.ices == s.taken.ices + s.queued.ices && |s.queued.ices| <= ICE_CAP
    && s.given.sdps == s.taken.sdps + s.queued.sdps && |s.queued.sdps| <= SDP_CAP
  }

  ghost predicate Queues(c: Client) {
    forall k :: 0 <= k < |c.lives| ==> Conserved(c.lives[k])
  }

  ghost predicate LoopOk(c: Client) {
    c.loop.GivingIce? || c.loop.GivingSdp? ==> c.loop.life < |c.lives| && c.lives[c.loop.life].id != ""
  }

  ghost predicate Inv(c: Client) {
    Stored(c) && Newest(c) && Timed(c) && AnnouncedOnce(c) && Queues(c) && LoopOk(c)
  }

  lemma GetStored(c: Client, id: string)
    requires Stored(c)
    ensures Stored(GetSession(c, id))
  {
  }

  lemma GetNewest(c: Client, id: string)
    requires Stored(c) && Newest(c)
    ensures Newest(GetSession(c, id))
  {
  }

  lemma GetTimed(c: Client, id: string)
    requires Stored(c) && Timed(c)
    ensures Timed(GetSession(c, id))
  {
  }

  lemma GetAnnouncedOnce(c: Client, id: string)
    requires Stored(c) && AnnouncedOnce(c) && Queues(c)
    ensures AnnouncedOnce(GetSession(c, id)) && Queues(GetSession(c, id))
  {
  }

  lemma GetKeeps(c: Client, id: string)
    requires Inv(c)
    ensures Inv(GetSession(c, id)) && id in GetSession(c, id).sessions
    ensures GetSession(c, id).loop == c.loop && |c.lives| <= |GetSession(c, id).lives|
  {
    GetStored(c, id);
    GetNewest(c, id);
    GetTimed(c, id);
    GetAnnouncedOnce(c, id);
    hide Stored, Newest, Timed, AnnouncedOnce, Queues;
  }

  lemma DispatchKeeps(c: Client, pid: string, ice: Option<Cand>, sdp: Option<Sdp>)
    requires Inv(c)
    ensures Inv(Dispatch(c, pid, ice, sdp))
  {
    if pid != "" {
      GetKeeps(c, pid);
      hide Timed, AnnouncedOnce, Queues, Newest, GetSession;
      var d := GetSession(c, pid);
      var e := Dispatch(c, pid, ice, sdp);
      assert e == d.(loop := e.loop);
      SameButLoop(d, e);
    }
  }

  /** Looking a session up and putting the packet in hand are independent. */
  lemma DispatchSetsLoop(c: Client, pid: string, ice: Option<Cand>, sdp: Option<Sdp>)
    requires pid != ""
    ensures Dispatch(c, pid, ice, sdp) == GetSession(c, pid).(loop := Dispatch(c, pid, ice, sdp).loop)
  {
  }

  lemma SameButLoop(c: Client, d: Client)
    requires Inv(c) && d == c.(loop := d.loop) && LoopOk(d)
    ensures Inv(d)
  {
  }

  lemma ReplaceStored(c: Client, k: nat, s: Session, l: Loop)
    requires Stored(c)
    requires k < |c.lives| && s.id == c.lives[k].id && s.closed == c.lives[k].closed && Conserved(s)
    ensures Stored(c.(lives := c.lives[k := s], loop := l))
  {
  }

  lemma ReplaceNewest(c: Client, k: nat, s: Session, l: Loop)
    requires Stored(c) && Newest(c)
    requires k < |c.lives| && s.id == c.lives[k].id && s.closed == c.lives[k].closed && Conserved(s)
    ensures Newest(c.(lives := c.lives[k := s], loop := l))
  {
  }

  lemma ReplaceTimed(c: Client, k: nat, s: Session, l: Loop)
    requires Stored(c) && Timed(c)
    requires k < |c.lives| && s.id == c.lives[k].id && s.closed == c.lives[k].closed && Conserved(s)
    ensures Timed(c.(lives := c.lives[k := s], loop := l))
  {
  }

  lemma ReplaceAnnouncedOnce(c: Client, k: nat, s: Session, l: Loop)
    requires Stored(c) && AnnouncedOnce(c) && Queues(c)
    requires k < |c.lives| && s.id == c.lives[k].id && s.closed == c.lives[k].closed && Conserved(s)
    ensures AnnouncedOnce(c.(lives := c.lives[k := s], loop := l)) && Queues(c.(lives := c.lives[k := s], loop := l))
  {
  }

  /** Replacing one session by a version with the same id and closedness. */
  lemma ReplaceKeeps(c: Client, k: nat, s: Session, l: Loop)
    requires Inv(c) && k < |c.lives| && s.id == c.lives[k].id && s.closed == c.lives[k].closed && Conserved(s)
    requires LoopOk(c.(loop := l))
    ensures Inv(c.(lives := c.lives[k := s], loop := l))
  {
    ReplaceStored(c, k, s, l);
    ReplaceNewest(c, k, s, l);
    ReplaceTimed(c, k, s, l);
    ReplaceAnnouncedOnce(c, k, s, l);
    hide Stored, Newest, Timed, AnnouncedOnce, Queues;
  }

  lemma CloseStored(c: Client, id: string)
    requires Stored(c)
    ensures Stored(DoClose(c, id))
  {
  }

  lemma CloseNewest(c: Client, id: string)
    requires Stored(c) && Newest(c)
    ensures Newest(DoClose(c, id))
  {
  }

  lemma CloseTimed(c: Client, id: string)
    requires Stored(c) && Timed(c)
    ensures Timed(DoClose(c, id))
  {
  }

  lemma CloseAnnouncedOnce(c: Client, id: string)
    requires Stored(c) && AnnouncedOnce(c) && Queues(c)
    ensures AnnouncedOnce(DoClose(c, id)) && Queues(DoClose(c, id))
  {
  }

  lemma CloseKeeps(c: Client, id: string)
    requires Inv(c)
    ensures Inv(DoClose(c, id))
  {
    CloseStored(c, id);
    CloseNewest(c, id);
    CloseTimed(c, id);
    CloseAnnouncedOnce(c, id);
    hide Stored, Newest, Timed, AnnouncedOnce, Queues;
  }

  lemma FireKeeps(c: Client, id: string)
    requires Inv(c) && id in c.timers
    ensures Inv(DoFire(c, id))
  {
  }

  lemma PutConserves(s: Session, ice: Cand, sdp: Sdp)
    requires Conserved(s)
    ensures |s.queued.ices| < ICE_CAP ==> Conserved(PutIce(s, ice))
    ensures |s.queued.sdps| < SDP_CAP ==> Conserved(PutSdp(s, sdp))
  {
  }

  lemma ReceiveConserves(s: Session, ice: bool)
    requires Conserved(s) && if ice then s.queued.ices != [] else s.queued.sdps != []
    ensures Conserved(Received(s, ice))
  {
  }

  lemma NextKeeps(c: Client, e: Event)
    requires Inv(c)
    ensures Inv(Next(c, e))
  {
    if Enabled(c, e) {
      hide Stored, Newest, Timed, AnnouncedOnce, Conserved;
      match e
      case Packet(pid, ice, sdp) => DispatchKeeps(c, pid, ice, sdp);
      case Ask(pid) => GetKeeps(c, pid);
      case CloseSession(pid) => CloseKeeps(c, pid);
      case Fire(pid) => FireKeeps(c, pid);
      case TakeIce(k) =>
        ReceiveConserves(c.lives[k], true);
        ReplaceKeeps(c, k, Received(c.lives[k], true), c.loop);
      case TakeSdp(k) =>
        ReceiveConserves(c.lives[k], false);
        ReplaceKeeps(c, k, Received(c.lives[k], false), c.loop);
      case GiveIce(_) => GiveKeeps(c);
      case GiveSdp(_) => GiveKeeps(c);
    }
  }

  lemma GiveKeeps(c: Client)
    requires Inv(c) && (c.loop.GivingIce? || c.loop.GivingSdp?)
    ensures c.loop.GivingIce? ==> Inv(OnIce(c))
    ensures c.loop.GivingSdp? ==> Inv(OnSdp(c))
  {
    hide Stored, Newest, Timed, AnnouncedOnce, Conserved;
    var k, s := c.loop.life, c.lives[c.loop.life];
    var d := if c.loop.GivingIce? then OnIce(c) else OnSdp(c);
    if c.loop.GivingIce? {
      PutConserves(s, c.loop.ice, "");
    } else {
      PutConserves(s, "", c.loop.sdp);
    }
    if d.lives == c.lives {
      SameButLoop(c, d);
    } else {
      ReplaceKeeps(c, k, d.lives[k], d.loop);
    }
  }

  lemma {:induction false} RunKeeps(notifies: bool, es: seq<Event>)
    ensures Inv(Run(notifies, es))
  {
    hide Next;
    if es != [] {
      hide Inv;
      RunKeeps(notifies, es[..|es| - 1]);
      NextKeeps(Run(notifies, es[..|es| - 1]), es[|es| - 1]);
    }
  }
}
