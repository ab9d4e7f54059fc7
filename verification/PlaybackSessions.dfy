/** The concurrency limit and watch-time accounting of playback
    (src/playback/playback-policy.service.ts:28-50,
    src/playback/playback.service.ts:21-76, 107-128, src/auth/auth.service.ts:135-164).
    Starting, resuming and heartbeats are several steps, between which other calls can
    come; the other calls are one step each. What a capability must satisfy besides its
    session row is the subject of `PlaybackProtocol` and here a parameter of the call. */
module PlaybackSessions {
  import opened Sets
  import opened Text

  type Id = nat

  datatype Status = Active | Closed | Expired | Revoked

  /** A trusted device is named by its user and what it calls itself, which are
      unique together and never change. */
  datatype Name = Name(uid: Id, did: Id)

  datatype Device = Device(active: bool, fp: Id)

  /** Rows are only ever added, so a session's id is its index. */
  datatype Session = Session(uid: Id, episode: Id, device: Name, status: Status, expiresAt: int,
                             lastPosition: nat, watched: nat)

  datatype Key = Key(uid: Id, episode: Id)

  /** A user's history of an episode; it points at the latest session. */
  datatype History = History(session: nat, lastPosition: nat, watched: nat, ended: bool)

  /** A call between its steps: a heartbeat that has read a position, a start that was
      permitted, one that found no session of the pair, a resume that found its session,
      and a start or resume about to rotate one. */
  datatype Pending =
    | Beat(sid: nat, read: nat)
    | Permitted(uid: Id, episode: Id, device: Name)
    | Creating(uid: Id, episode: Id, device: Name)
    | Resuming(uid: Id, sid: nat, position: nat)
    | Rotating(uid: Id, sid: nat, answer: Option<nat>)

  datatype State = State(
    now: int,
    max: nat,                         // MAX_CONCURRENT_PLAYBACK_SESSIONS
    devices: map<Name, Device>,
    sessions: seq<Session>,
    history: map<Key, History>,
    pending: map<Id, Pending>)

  /** What the policy reads about the account, the episode and the caller's device. */
  datatype Ask = Ask(uid: Id, accountActive: bool, published: bool, mediaReady: bool, premium: bool,
                     subscribed: bool, granted: bool, did: Id, fp: Id)

  datatype Refusal =
    | AccountInactive | NotPublished | MediaUnavailable | NoEntitlement
    | DeviceUntrusted | FingerprintMismatch | LimitReached

  datatype Event =
    | Tick(seconds: nat)
    | RegisterDevice(name: Name, fp: Id)
    | RevokeDevice(name: Name)
    | StartAuthorize(thread: Id, ask: Ask, episode: Id)
    | StartFind(thread: Id)
    | ResumeFind(thread: Id, uid: Id, sid: nat)
    | ResumeAuthorize(thread: Id, ask: Ask)
    | Write(thread: Id, ttl: int)
    | Crash(thread: Id)
    | HeartbeatRead(thread: Id, uid: Id, sid: nat, capable: bool)
    | HeartbeatWrite(thread: Id, position: nat)
    | Stop(uid: Id, sid: nat, capable: bool)
    | QueryStatus(uid: Id, sid: nat)
    | Revoke(sid: nat)

  datatype Reply = NotFound | Refused(why: Refusal) | Mismatch | Unauthorized | Playing(sid: nat, position: nat) | Reading | Done

  datatype Result = Result(state: State, reply: Reply)

  // ---------------------------------------------------------------------
  // The policy

  /** Active and unexpired. */
  predicate Running(s: State, i: nat) { i < |s.sessions| && s.sessions[i].status == Active && s.sessions[i].expiresAt > s.now }

  predicate Same(r: Session, uid: Id, episode: Id, device: Name) { r.uid == uid && r.episode == episode && r.device == device }

  /** The user's running sessions. */
  function RunningOf(s: State, uid: Id): set<nat> { set i: nat | i < |s.sessions| && Running(s, i) && s.sessions[i].uid == uid }

  /** Those the limit counts: another episode or another device. */
  function Counted(s: State, uid: Id, episode: Id, device: Name): set<nat> {
    set i: nat | i < |s.sessions| && Running(s, i) && s.sessions[i].uid == uid && !Same(s.sessions[i], uid, episode, device)
  }

  /** Why playback is refused, in the order of the checks; `existing` skips the count. */
  function Authorize(s: State, ask: Ask, episode: Id, existing: bool): Option<Refusal> {
    var name := Name(ask.uid, ask.did);
    if !ask.accountActive then Some(AccountInactive)
    else if !ask.published then Some(NotPublished)
    else if !ask.mediaReady then Some(MediaUnavailable)
    else if ask.premium && !ask.subscribed && !ask.granted then Some(NoEntitlement)
    else if name !in s.devices || !s.devices[name].active then Some(DeviceUntrusted)
    else if s.devices[name].fp != ask.fp then Some(FingerprintMismatch)
    else if !existing && |Counted(s, ask.uid, episode, name)| >= s.max then Some(LimitReached)
    else None
  }

  /** The newest of the first `n` sessions that is running for this episode and device. */
  function Existing(s: State, uid: Id, episode: Id, device: Name, n: nat): Option<nat>
    requires n <= |s.sessions|
  {
    if n == 0 then None
    else if Running(s, n - 1) && Same(s.sessions[n - 1], uid, episode, device) then Some(n - 1)
    else Existing(s, uid, episode, device, n - 1)
  }

  // ---------------------------------------------------------------------
  // Calls

  function Put(s: State, i: nat, r: Session): State
    requires i < |s.sessions|
  {
    s.(sessions := s.sessions[i := r])
  }

  function Enter(s: State, thread: Id, p: Pending): State { s.(pending := s.pending[thread := p]) }

  function Leave(s: State, thread: Id): State { s.(pending := s.pending - {thread}) }

  /** A start is permitted, by a count that leaves its own pair out. */
  function DoStartAuthorize(s: State, thread: Id, ask: Ask, episode: Id): Result {
    var why := Authorize(s, ask, episode, false);
    if thread in s.pending then Result(s, Done)
    else if why.Some? then Result(s, Refused(why.value))
    else Result(Enter(s, thread, Permitted(ask.uid, episode, Name(ask.uid, ask.did))), Reading)
  }

  function DoStartFind(s: State, thread: Id): Result {
    if thread in s.pending && s.pending[thread].Permitted? then
      var p := s.pending[thread];
      var found := Existing(s, p.uid, p.episode, p.device, |s.sessions|);
      Result(Enter(s, thread, if found.Some? then Rotating(p.uid, found.value, None) else Creating(p.uid, p.episode, p.device)), Reading)
    else Result(s, Done)
  }

  function DoResumeFind(s: State, thread: Id, uid: Id, sid: nat): Result {
    if thread in s.pending then Result(s, Done)
    else if !Running(s, sid) || s.sessions[sid].uid != uid then Result(s, NotFound)
    else Result(Enter(s, thread, Resuming(uid, sid, s.sessions[sid].lastPosition)), Reading)
  }

  /** A resume is permitted without a count; `ask` is what the policy reads now. */
  function DoResumeAuthorize(s: State, thread: Id, ask: Ask): Result {
    if thread in s.pending && s.pending[thread].Resuming? && s.pending[thread].sid < |s.sessions| then
      var p := s.pending[thread];
      var why := Authorize(s, ask.(uid := p.uid), s.sessions[p.sid].episode, true);
      if why.Some? then Result(Leave(s, thread), Refused(why.value))
      else if Name(p.uid, ask.did) != s.sessions[p.sid].device then Result(Leave(s, thread), Mismatch)
      else Result(Enter(s, thread, Rotating(p.uid, p.sid, Some(p.position))), Reading)
    else Result(s, Done)
  }

  /** Creates the session, or moves the expiry of the one found, whatever became of it. */
  function DoWrite(s: State, thread: Id, ttl: int): Result {
    if thread !in s.pending then Result(s, Done)
    else
      match s.pending[thread]
      case Creating(uid, episode, device) => DoCreate(Leave(s, thread), uid, episode, device, ttl)
      case Rotating(_, sid, position) =>
        var rotated := DoRotate(Leave(s, thread), sid, ttl);
        if rotated.reply.Playing? && position.Some? then rotated.(reply := Playing(sid, position.value)) else rotated
      case _ => Result(s, Done)
  }

  /** A start with nothing in between its steps. */
  function StartCall(s: State, ask: Ask, episode: Id, ttl: int): Result {
    var permitted := DoStartAuthorize(s, 0, ask, episode);
    if permitted.reply != Reading then permitted else DoWrite(DoStartFind(permitted.state, 0).state, 0, ttl)
  }

  function ResumeCall(s: State, ask: Ask, sid: nat, ttl: int): Result {
    var found := DoResumeFind(s, 0, ask.uid, sid);
    if found.reply != Reading then found
    else
      var permitted := DoResumeAuthorize(found.state, 0, ask);
      if permitted.reply != Reading then permitted else DoWrite(permitted.state, 0, ttl)
  }

  function DoStart(s: State, ask: Ask, episode: Id, ttl: int): Result {
    var name, why := Name(ask.uid, ask.did), Authorize(s, ask, episode, false);
    if why.Some? then Result(s, Refused(why.value))
    else
      var found := Existing(s, ask.uid, episode, name, |s.sessions|);
      if found.Some? then DoRotate(s, found.value, ttl) else DoCreate(s, ask.uid, episode, name, ttl)
  }

  function DoRotate(s: State, i: nat, ttl: int): Result {
    if i < |s.sessions| then Result(Put(s, i, s.sessions[i].(expiresAt := s.now + ttl)), Playing(i, s.sessions[i].lastPosition))
    else Result(s, NotFound)
  }

  /** Creates the session and points the history at it, keeping what was watched. */
  function DoCreate(s: State, uid: Id, episode: Id, device: Name, ttl: int): Result {
    var sid, key := |s.sessions|, Key(uid, episode);
    var h := if key in s.history then s.history[key].(session := sid, ended := false) else History(sid, 0, 0, false);
    Result(s.(sessions := s.sessions + [Session(uid, episode, device, Active, s.now + ttl, 0, 0)], history := s.history[key := h]),
           Playing(sid, 0))
  }

  function DoResume(s: State, ask: Ask, sid: nat, ttl: int): Result {
    if !Running(s, sid) || s.sessions[sid].uid != ask.uid then Result(s, NotFound)
    else
      var why := Authorize(s, ask, s.sessions[sid].episode, true);
      if why.Some? then Result(s, Refused(why.value))
      else if Name(ask.uid, ask.did) != s.sessions[sid].device then Result(s, Mismatch)
      else DoRotate(s, sid, ttl)
  }

  lemma {:induction false} ExistingSame(s: State, t: State, uid: Id, episode: Id, device: Name, n: nat)
    requires n <= |s.sessions| && t.sessions == s.sessions && t.now == s.now
    ensures Existing(t, uid, episode, device, n) == Existing(s, uid, episode, device, n)
  {
    if n > 0 {
      ExistingSame(s, t, uid, episode, device, n - 1);
    }
  }

  /** Without anything in between, a start refuses, rotates the newest session of the
      pair or creates one. */
  lemma StartCallCases(s: State, ask: Ask, episode: Id, ttl: int)
    requires s.pending == map[]
    ensures StartCall(s, ask, episode, ttl) == DoStart(s, ask, episode, ttl)
  {
    hide Existing, Authorize, Running;
    var name := Name(ask.uid, ask.did);
    var p := Permitted(ask.uid, episode, name);
    if Authorize(s, ask, episode, false).None? {
      ExistingSame(s, Enter(s, 0, p), ask.uid, episode, name, |s.sessions|);
      var found := DoStartFind(Enter(s, 0, p), 0).state;
      assert found.pending - {0} == map[];
      assert Leave(found, 0) == s;
    }
  }

  lemma ResumeCallCases(s: State, ask: Ask, sid: nat, ttl: int)
    requires s.pending == map[]
    ensures ResumeCall(s, ask, sid, ttl) == DoResume(s, ask, sid, ttl)
  {
    if Running(s, sid) && s.sessions[sid].uid == ask.uid {
      var found := DoResumeFind(s, 0, ask.uid, sid).state;
      assert Authorize(found, ask, s.sessions[sid].episode, true) == Authorize(s, ask, s.sessions[sid].episode, true);
      hide Authorize;
      assert Leave(found, 0) == s by {
        assert found.pending - {0} == map[];
      }
      var permitted := DoResumeAuthorize(found, 0, ask);
      if permitted.reply == Reading {
        assert permitted.state.pending - {0} == map[];
        assert Leave(permitted.state, 0) == s;
      }
    }
  }

  /** At most a minute for each heartbeat, and nothing for going back. */
  function Delta(last: nat, position: nat): nat { if position <= last then 0 else if position - last > 60 then 60 else position - last }

  /** The user's running session whose capability passed. */
  predicate Accepts(s: State, uid: Id, sid: nat, capable: bool) { capable && Running(s, sid) && s.sessions[sid].uid == uid }

  function DoHeartbeatRead(s: State, thread: Id, uid: Id, sid: nat, capable: bool): Result {
    if thread in s.pending then Result(s, Done)
    else if !Accepts(s, uid, sid, capable) then Result(s, Unauthorized)
    else Result(s.(pending := s.pending[thread := Beat(sid, s.sessions[sid].lastPosition)]), Reading)
  }

  /** The transaction counts from the position that was read and looks at nothing again. */
  function DoHeartbeatWrite(s: State, thread: Id, position: nat): Result {
    if thread !in s.pending || !s.pending[thread].Beat? || s.pending[thread].sid >= |s.sessions| then Result(s, Done)
    else
      var sid, delta := s.pending[thread].sid, Delta(s.pending[thread].read, position);
      var r := s.sessions[sid];
      Result(Put(s, sid, r.(lastPosition := position, watched := r.watched + delta)).(
               pending := s.pending - {thread},
               history := map k | k in s.history ::
                 if s.history[k].session == sid
                 then s.history[k].(lastPosition := position, watched := s.history[k].watched + delta) else s.history[k]), Done)
  }

  /** A heartbeat with nothing in between. */
  function HeartbeatCall(s: State, uid: Id, sid: nat, capable: bool, position: nat): Result {
    var read := DoHeartbeatRead(s, 0, uid, sid, capable);
    if read.reply != Reading then read else DoHeartbeatWrite(read.state, 0, position)
  }

  function Ended(h: map<Key, History>, sid: nat): map<Key, History> {
    map k | k in h :: if h[k].session == sid then h[k].(ended := true) else h[k]
  }

  function DoStop(s: State, uid: Id, sid: nat, capable: bool): Result {
    if !Accepts(s, uid, sid, capable) then Result(s, Unauthorized)
    else Result(Put(s, sid, s.sessions[sid].(status := Closed)).(history := Ended(s.history, sid)), Done)
  }

  /** Asking for the status of an overdue session expires it. */
  function DoQueryStatus(s: State, uid: Id, sid: nat): Result {
    if sid >= |s.sessions| || s.sessions[sid].uid != uid then Result(s, NotFound)
    else if s.sessions[sid].status == Active && s.sessions[sid].expiresAt <= s.now
    then Result(Put(s, sid, s.sessions[sid].(status := Expired)).(history := Ended(s.history, sid)), Done)
    else Result(s, Done)
  }

  function Step(s: State, e: Event): Result {
    match e
    case Tick(seconds) => Result(s.(now := s.now + seconds), Done)
    case RegisterDevice(name, fp) => Result(s.(devices := s.devices[name := Device(true, fp)]), Done)
    case RevokeDevice(name) =>
      if name !in s.devices || !s.devices[name].active then Result(s, Unauthorized)
      else Result(s.(devices := s.devices[name := s.devices[name].(active := false)],
                     sessions := seq(|s.sessions|, i requires 0 <= i < |s.sessions| =>
                       if s.sessions[i].device == name && s.sessions[i].status == Active
                       then s.sessions[i].(status := Revoked) else s.sessions[i])), Done)
    case StartAuthorize(thread, ask, episode) => DoStartAuthorize(s, thread, ask, episode)
    case StartFind(thread) => DoStartFind(s, thread)
    case ResumeFind(thread, uid, sid) => DoResumeFind(s, thread, uid, sid)
    case ResumeAuthorize(thread, ask) => DoResumeAuthorize(s, thread, ask)
    case Write(thread, ttl) => DoWrite(s, thread, ttl)
    case Crash(thread) => Result(Leave(s, thread), Done)
    case HeartbeatRead(thread, uid, sid, capable) => DoHeartbeatRead(s, thread, uid, sid, capable)
    case HeartbeatWrite(thread, position) => DoHeartbeatWrite(s, thread, position)
    case Stop(uid, sid, capable) => DoStop(s, uid, sid, capable)
    case QueryStatus(uid, sid) => DoQueryStatus(s, uid, sid)
    case Revoke(sid) => if sid < |s.sessions| then Result(Put(s, sid, s.sessions[sid].(status := Revoked)), Done) else Result(s, NotFound)
  }

  function Initial(now: int, max: nat): State { State(now, max, map[], [], map[], map[]) }

  function Run(s: State, events: seq<Event>): State
    decreases |events|
  {
    if events == [] then s else Run(Step(s, events[0]).state, events[1..])
  }

  // ---------------------------------------------------------------------
  // The limit

  /** No user runs more sessions than the limit, nor two for one episode and device. */
  ghost predicate Limited(s: State) { forall uid :: |RunningOf(s, uid)| <= s.max }

  ghost predicate Single(s: State) {
    forall i: nat, j: nat ::
      Running(s, i) && Running(s, j) && Same(s.sessions[i], s.sessions[j].uid, s.sessions[j].episode, s.sessions[j].device) ==> i == j
  }

  lemma {:induction false} ExistingMeans(s: State, uid: Id, episode: Id, device: Name, n: nat)
    requires n <= |s.sessions|
    ensures var found := Existing(s, uid, episode, device, n);
      if found.Some? then found.value < n && Running(s, found.value) && Same(s.sessions[found.value], uid, episode, device)
      else forall i: nat :: i < n && Running(s, i) ==> !Same(s.sessions[i], uid, episode, device)
  {
    if n > 0 {
      ExistingMeans(s, uid, episode, device, n - 1);
    }
  }

  /** Without a session of the pair, every running session is counted. */
  lemma AllCounted(s: State, uid: Id, episode: Id, device: Name)
    requires Existing(s, uid, episode, device, |s.sessions|).None?
    ensures Counted(s, uid, episode, device) == RunningOf(s, uid)
  {
    ExistingMeans(s, uid, episode, device, |s.sessions|);
  }

  lemma CreateRuns(s: State, uid: Id, episode: Id, device: Name, ttl: int, i: nat)
    ensures var t := DoCreate(s, uid, episode, device, ttl).state;
      && |t.sessions| == |s.sessions| + 1 && t.max == s.max
      && (i < |s.sessions| ==> t.sessions[i] == s.sessions[i] && (Running(t, i) <==> Running(s, i)))
      && Same(t.sessions[|s.sessions|], uid, episode, device) && t.pending == s.pending
  {
  }

  lemma CreateCounts(s: State, uid: Id, episode: Id, device: Name, ttl: int, u: Id)
    requires Limited(s) && Existing(s, uid, episode, device, |s.sessions|).None? && |Counted(s, uid, episode, device)| < s.max
    ensures |RunningOf(DoCreate(s, uid, episode, device, ttl).state, u)| <= s.max
  {
    hide DoCreate, Running, Counted;
    var t := DoCreate(s, uid, episode, device, ttl).state;
    AllCounted(s, uid, episode, device);
    var added: set<nat> := if u == uid then {|s.sessions|} else {};
    forall i | i in RunningOf(t, u) ensures i in RunningOf(s, u) + added {
      CreateRuns(s, uid, episode, device, ttl, i);
    }
    Smaller(RunningOf(t, u), RunningOf(s, u) + added);
  }

  lemma CreateKeeps(s: State, uid: Id, episode: Id, device: Name, ttl: int)
    requires Limited(s) && Single(s) && Existing(s, uid, episode, device, |s.sessions|).None?
    requires |Counted(s, uid, episode, device)| < s.max
    ensures var t := DoCreate(s, uid, episode, device, ttl).state; Limited(t) && Single(t)
  {
    hide DoCreate, RunningOf, Counted;
    var t := DoCreate(s, uid, episode, device, ttl).state;
    ExistingMeans(s, uid, episode, device, |s.sessions|);
    forall u ensures |RunningOf(t, u)| <= t.max {
      CreateCounts(s, uid, episode, device, ttl, u);
      CreateRuns(s, uid, episode, device, ttl, 0);
    }
    forall i: nat, j: nat | Running(t, i) && Running(t, j)
                         && Same(t.sessions[i], t.sessions[j].uid, t.sessions[j].episode, t.sessions[j].device)
      ensures i == j
    {
      CreateRuns(s, uid, episode, device, ttl, i);
      CreateRuns(s, uid, episode, device, ttl, j);
    }
  }

  /** The user of a start or resume under way. */
  function Starter(p: Pending): Option<Id> {
    match p case Beat(_, _) => None case Permitted(uid, _, _) => Some(uid) case Creating(uid, _, _) => Some(uid)
            case Resuming(uid, _, _) => Some(uid) case Rotating(uid, _, _) => Some(uid)
  }

  predicate Starting(s: State, uid: Id) { exists t :: t in s.pending && Starter(s.pending[t]) == Some(uid) }

  /** A start or resume begins while another of the user is under way. */
  predicate Overlaps(s: State, e: Event) {
    (e.StartAuthorize? && Starting(s, e.ask.uid)) || (e.ResumeFind? && Starting(s, e.uid))
  }

  predicate Apart(s: State, events: seq<Event>)
    decreases |events|
  {
    events != [] ==> !Overlaps(s, events[0]) && Apart(Step(s, events[0]).state, events[1..])
  }

  /** For the user, nothing runs in `t` that did not run in `s`. */
  ghost predicate Fewer(s: State, t: State, uid: Id) {
    && t.max == s.max && |s.sessions| <= |t.sessions|
    && (forall i: nat :: i < |s.sessions| ==>
          t.sessions[i].uid == s.sessions[i].uid && t.sessions[i].episode == s.sessions[i].episode && t.sessions[i].device == s.sessions[i].device)
    && (forall i: nat :: Running(t, i) && t.sessions[i].uid == uid ==> Running(s, i))
  }

  /** What a start or resume under way may rely on when it writes. */
  ghost predicate Ready(s: State, p: Pending) {
    match p
    case Beat(_, _) => true
    case Permitted(uid, episode, device) => |Counted(s, uid, episode, device)| < s.max
    case Creating(uid, episode, device) =>
      |Counted(s, uid, episode, device)| < s.max && forall i: nat :: Running(s, i) ==> !Same(s.sessions[i], uid, episode, device)
    case Resuming(uid, sid, _) => CanRotate(s, uid, sid)
    case Rotating(uid, sid, _) => CanRotate(s, uid, sid)
  }

  ghost predicate CanRotate(s: State, uid: Id, sid: nat) {
    && sid < |s.sessions| && s.sessions[sid].uid == uid && |RunningOf(s, uid) + {sid}| <= s.max
    && forall i: nat :: Running(s, i) && Same(s.sessions[i], uid, s.sessions[sid].episode, s.sessions[sid].device) ==> i == sid
  }

  /** No two starts or resumes of a user are under way. */
  ghost predicate Solo(s: State) {
    forall t, u :: t in s.pending && u in s.pending && Starter(s.pending[t]).Some? && Starter(s.pending[t]) == Starter(s.pending[u]) ==> t == u
  }

  ghost predicate AllReady(s: State) { forall t :: t in s.pending ==> Ready(s, s.pending[t]) }

  ghost predicate Orderly(s: State) { Limited(s) && Single(s) && Solo(s) && AllReady(s) }

  lemma FewerRun(s: State, t: State, uid: Id)
    requires Fewer(s, t, uid)
    ensures RunningOf(t, uid) <= RunningOf(s, uid) && |RunningOf(t, uid)| <= |RunningOf(s, uid)|
  {
    Smaller(RunningOf(t, uid), RunningOf(s, uid));
  }

  lemma FewerReady(s: State, t: State, p: Pending)
    requires Ready(s, p) && (Starter(p).Some? ==> Fewer(s, t, Starter(p).value))
    ensures Ready(t, p)
  {
    match p
    case Beat(_, _) =>
    case Permitted(uid, episode, device) => Smaller(Counted(t, uid, episode, device), Counted(s, uid, episode, device));
    case Creating(uid, episode, device) => Smaller(Counted(t, uid, episode, device), Counted(s, uid, episode, device));
    case Resuming(uid, sid, _) => FewerRotates(s, t, uid, sid);
    case Rotating(uid, sid, _) => FewerRotates(s, t, uid, sid);
  }

  lemma FewerRotates(s: State, t: State, uid: Id, sid: nat)
    requires CanRotate(s, uid, sid) && Fewer(s, t, uid)
    ensures CanRotate(t, uid, sid)
  {
    FewerRun(s, t, uid);
    hide RunningOf;
    Smaller(RunningOf(t, uid) + {sid}, RunningOf(s, uid) + {sid});
  }

  /** Every step but a write leaves each user at most what was running. */
  lemma OthersShrink(s: State, e: Event, uid: Id)
    requires !e.Write?
    ensures var t := Step(s, e).state; Fewer(s, t, uid) && |t.sessions| == |s.sessions|
  {
    hide Authorize, Existing;
  }

  lemma FewerKeeps(s: State, t: State)
    requires Limited(s) && Single(s) && |t.sessions| == |s.sessions| && forall uid :: Fewer(s, t, uid)
    ensures Limited(t) && Single(t)
  {
    forall uid ensures |RunningOf(t, uid)| <= t.max {
      assert Fewer(s, t, uid);
      FewerRun(s, t, uid);
    }
    forall i: nat, j: nat | Running(t, i) && Running(t, j)
                         && Same(t.sessions[i], t.sessions[j].uid, t.sessions[j].episode, t.sessions[j].device)
      ensures i == j
    {
      assert Fewer(s, t, t.sessions[i].uid) && Fewer(s, t, t.sessions[j].uid);
    }
  }

  /** A thread's call goes on for the same user, begins for a user with none, or ends. */
  ghost predicate Moves(s: State, t: State, thread: Id) {
    && (forall u :: u != thread ==> (u in t.pending <==> u in s.pending) && (u in t.pending ==> t.pending[u] == s.pending[u]))
    && (thread in t.pending && Starter(t.pending[thread]).Some? ==>
          || (thread in s.pending && Starter(s.pending[thread]) == Starter(t.pending[thread]))
          || (thread !in s.pending && !Starting(s, Starter(t.pending[thread]).value)))
  }

  lemma MovesSolo(s: State, t: State, thread: Id)
    requires Solo(s) && Moves(s, t, thread)
    ensures Solo(t)
  {
  }

  lemma StepSolo(s: State, e: Event)
    requires Solo(s) && !Overlaps(s, e)
    ensures Solo(Step(s, e).state)
  {
    hide Authorize, Existing, Running, Solo, Moves;
    var t := Step(s, e).state;
    if e.StartAuthorize? || e.StartFind? || e.ResumeFind? || e.ResumeAuthorize? || e.Write? || e.Crash? || e.HeartbeatRead? || e.HeartbeatWrite? {
      StepMoves(s, e, e.thread);
      MovesSolo(s, t, e.thread);
    } else {
      SamePendingSolo(s, t);
    }
  }

  lemma SamePendingSolo(s: State, t: State)
    requires Solo(s) && t.pending == s.pending
    ensures Solo(t)
  {
  }

  lemma StepMoves(s: State, e: Event, thread: Id)
    requires !Overlaps(s, e)
    requires e.StartAuthorize? || e.StartFind? || e.ResumeFind? || e.ResumeAuthorize? || e.Write? || e.Crash? || e.HeartbeatRead? || e.HeartbeatWrite?
    requires thread == e.thread
    ensures Moves(s, Step(s, e).state, thread)
  {
    hide Authorize, Existing, Running;
  }

  /** A call that goes on or begins is ready for its next step. */
  lemma NextReady(s: State, e: Event, u: Id)
    requires Orderly(s) && !e.Write? && u in Step(s, e).state.pending
    requires u !in s.pending || s.pending[u] != Step(s, e).state.pending[u]
    ensures Ready(Step(s, e).state, Step(s, e).state.pending[u])
  {
    hide Limited, Single, Solo, AllReady, Ready, Counted, Existing, Running, RunningOf, CanRotate;
    match e
    case StartAuthorize(thread, ask, episode) => PermittedReady(s, thread, ask, episode);
    case StartFind(thread) => FoundReady(s, thread);
    case ResumeFind(thread, uid, sid) => ResumingReady(s, thread, uid, sid);
    case ResumeAuthorize(thread, ask) => RotatingReady(s, thread, ask);
    case HeartbeatRead(thread, _, sid, _) => BeatReady(Step(s, e).state, thread);
    case _ =>
  }

  lemma BeatReady(s: State, t: Id)
    requires t in s.pending && s.pending[t].Beat?
    ensures Ready(s, s.pending[t])
  {
  }

  lemma SameReady(s: State, thread: Id, p: Pending, q: Pending)
    ensures Ready(Enter(s, thread, p), q) <==> Ready(s, q)
  {
    var t := Enter(s, thread, p);
    match q
    case Beat(_, _) =>
    case Permitted(uid, episode, device) => SameCounts(s, t, uid, episode, device);
    case Creating(uid, episode, device) => SameCounts(s, t, uid, episode, device);
    case Resuming(uid, sid, _) => SameRotates(s, t, uid, sid);
    case Rotating(uid, sid, _) => SameRotates(s, t, uid, sid);
  }

  lemma SameCounts(s: State, t: State, uid: Id, episode: Id, device: Name)
    requires t.sessions == s.sessions && t.now == s.now
    ensures Counted(t, uid, episode, device) == Counted(s, uid, episode, device)
  {
  }

  lemma SameRotates(s: State, t: State, uid: Id, sid: nat)
    requires t.sessions == s.sessions && t.now == s.now && t.max == s.max
    ensures CanRotate(t, uid, sid) <==> CanRotate(s, uid, sid)
  {
    assert RunningOf(t, uid) == RunningOf(s, uid);
  }

  lemma PermittedReady(s: State, thread: Id, ask: Ask, episode: Id)
    requires Authorize(s, ask, episode, false).None?
    ensures var p := Permitted(ask.uid, episode, Name(ask.uid, ask.did)); Ready(Enter(s, thread, p), p)
  {
    var p := Permitted(ask.uid, episode, Name(ask.uid, ask.did));
    hide Counted;
    SameReady(s, thread, p, p);
  }

  lemma RunningCanRotate(s: State, uid: Id, sid: nat)
    requires Limited(s) && Single(s) && Running(s, sid) && s.sessions[sid].uid == uid
    ensures CanRotate(s, uid, sid)
  {
    assert RunningOf(s, uid) + {sid} == RunningOf(s, uid);
  }

  lemma FoundReady(s: State, thread: Id)
    requires Orderly(s) && thread in s.pending && s.pending[thread].Permitted?
    ensures var t := DoStartFind(s, thread).state; Ready(t, t.pending[thread])
  {
    var p := s.pending[thread];
    var t := DoStartFind(s, thread).state;
    ExistingMeans(s, p.uid, p.episode, p.device, |s.sessions|);
    SameReady(s, thread, t.pending[thread], t.pending[thread]);
    assert Ready(s, p);
    hide Counted, CanRotate, AllReady, Solo, RunningOf;
    var found := Existing(s, p.uid, p.episode, p.device, |s.sessions|);
    if found.Some? {
      RunningCanRotate(s, p.uid, found.value);
    }
  }

  lemma ResumingReady(s: State, thread: Id, uid: Id, sid: nat)
    requires Orderly(s) && Running(s, sid) && s.sessions[sid].uid == uid
    ensures var p := Resuming(uid, sid, s.sessions[sid].lastPosition); Ready(Enter(s, thread, p), p)
  {
    var p := Resuming(uid, sid, s.sessions[sid].lastPosition);
    RunningCanRotate(s, uid, sid);
    hide CanRotate;
    SameReady(s, thread, p, p);
  }

  lemma RotatingReady(s: State, thread: Id, ask: Ask)
    requires Orderly(s) && thread in s.pending && s.pending[thread].Resuming?
    ensures var p := s.pending[thread];
      var q := Rotating(p.uid, p.sid, Some(p.position));
      Ready(Enter(s, thread, q), q)
  {
    var p := s.pending[thread];
    var q := Rotating(p.uid, p.sid, Some(p.position));
    assert Ready(s, p);
    hide CanRotate;
    SameReady(s, thread, q, q);
  }

  lemma OthersReady(s: State, e: Event)
    requires Orderly(s) && !e.Write?
    ensures AllReady(Step(s, e).state)
  {
    hide Step, Ready, Limited, Single, Solo, Fewer;
    var t := Step(s, e).state;
    forall u | u in t.pending ensures Ready(t, t.pending[u]) {
      if u in s.pending && s.pending[u] == t.pending[u] {
        if Starter(s.pending[u]).Some? {
          OthersShrink(s, e, Starter(s.pending[u]).value);
        }
        FewerReady(s, t, s.pending[u]);
      } else {
        NextReady(s, e, u);
      }
    }
  }

  lemma RotateRuns(s: State, uid: Id, sid: nat, ttl: int)
    requires Limited(s) && Single(s) && CanRotate(s, uid, sid)
    ensures var t := DoRotate(s, sid, ttl).state; Limited(t) && Single(t)
  {
    var t := DoRotate(s, sid, ttl).state;
    forall u ensures |RunningOf(t, u)| <= t.max {
      if u == uid {
        Smaller(RunningOf(t, u), RunningOf(s, u) + {sid});
      } else {
        Smaller(RunningOf(t, u), RunningOf(s, u));
      }
    }
  }

  lemma WriteOthers(s: State, thread: Id, ttl: int, uid: Id)
    requires thread in s.pending && Starter(s.pending[thread]) != Some(uid)
    requires s.pending[thread].Rotating? ==> s.pending[thread].sid < |s.sessions| && s.sessions[s.pending[thread].sid].uid == s.pending[thread].uid
    ensures Fewer(s, DoWrite(s, thread, ttl).state, uid)
  {
  }

  lemma LeaveFrames(s: State, thread: Id)
    requires Limited(s) && Single(s)
    ensures Limited(Leave(s, thread)) && Single(Leave(s, thread))
    ensures forall uid, sid :: CanRotate(s, uid, sid) ==> CanRotate(Leave(s, thread), uid, sid)
    ensures forall uid, episode, device :: Counted(Leave(s, thread), uid, episode, device) == Counted(s, uid, episode, device)
    ensures forall i: nat :: Running(Leave(s, thread), i) == Running(s, i)
  {
    var t := Leave(s, thread);
    assert forall uid :: RunningOf(t, uid) == RunningOf(s, uid);
  }

  lemma WriteRuns(s: State, thread: Id, ttl: int)
    requires Orderly(s)
    ensures var t := DoWrite(s, thread, ttl).state; Limited(t) && Single(t)
  {
    if thread in s.pending {
      assert Ready(s, s.pending[thread]);
      LeaveFrames(s, thread);
      var left := Leave(s, thread);
      hide Limited, Single, Solo, AllReady, CanRotate, Counted, DoCreate, DoRotate, Running;
      match s.pending[thread]
      case Creating(uid, episode, device) =>
        NoneExisting(left, uid, episode, device);
        CreateKeeps(left, uid, episode, device, ttl);
      case Rotating(uid, sid, _) => RotateRuns(left, uid, sid, ttl);
      case _ =>
    }
  }

  lemma NoneExisting(s: State, uid: Id, episode: Id, device: Name)
    requires forall i: nat :: Running(s, i) ==> !Same(s.sessions[i], uid, episode, device)
    ensures Existing(s, uid, episode, device, |s.sessions|).None?
  {
    ExistingMeans(s, uid, episode, device, |s.sessions|);
  }

  lemma WritePending(s: State, thread: Id, ttl: int)
    ensures var t := DoWrite(s, thread, ttl).state;
      t.pending == s.pending || (t.pending == s.pending - {thread} && thread in s.pending && Starter(s.pending[thread]).Some?)
  {
  }

  lemma WriteReady(s: State, thread: Id, ttl: int)
    requires Orderly(s)
    ensures AllReady(DoWrite(s, thread, ttl).state)
  {
    var t := DoWrite(s, thread, ttl).state;
    WritePending(s, thread, ttl);
    if t.pending != s.pending {
      var p := s.pending[thread];
      assert Ready(s, p);
      forall u | u in t.pending ensures Ready(t, t.pending[u]) {
        assert Ready(s, s.pending[u]);
        if Starter(s.pending[u]).Some? {
          hide DoWrite, Ready, Limited, Single;
          assert Starter(s.pending[u]) != Starter(p);
          RotatedIsOwn(s, thread);
          WriteOthers(s, thread, ttl, Starter(s.pending[u]).value);
        }
        hide DoWrite, Limited, Single, Fewer;
        FewerReady(s, t, s.pending[u]);
      }
    } else {
      WriteIdle(s, thread, ttl);
    }
  }

  lemma RotatedIsOwn(s: State, thread: Id)
    requires thread in s.pending && Ready(s, s.pending[thread])
    ensures s.pending[thread].Rotating? ==>
      s.pending[thread].sid < |s.sessions| && s.sessions[s.pending[thread].sid].uid == s.pending[thread].uid
  {
  }

  lemma WriteIdle(s: State, thread: Id, ttl: int)
    requires DoWrite(s, thread, ttl).state.pending == s.pending
    ensures DoWrite(s, thread, ttl).state == s
  {
    if thread in s.pending {
      assert thread !in s.pending - {thread};
    }
  }

  /** Every step keeps every user within the limit and one running session for each
      pair, as long as no start or resume overlaps another of its user. */
  lemma StepKeeps(s: State, e: Event)
    requires Orderly(s) && !Overlaps(s, e)
    ensures Orderly(Step(s, e).state)
  {
    StepSolo(s, e);
    hide Limited, Single, Solo, AllReady, Overlaps, DoWrite, Fewer;
    if e.Write? {
      WriteRuns(s, e.thread, e.ttl);
      WriteReady(s, e.thread, e.ttl);
    } else {
      OthersReady(s, e);
      hide Step;
      forall uid ensures Fewer(s, Step(s, e).state, uid) && |Step(s, e).state.sessions| == |s.sessions| {
        OthersShrink(s, e, uid);
      }
      OthersShrink(s, e, 0);
      FewerKeeps(s, Step(s, e).state);
    }
  }

  lemma {:induction false} RunOrderly(s: State, events: seq<Event>)
    requires Orderly(s) && Apart(s, events)
    ensures Orderly(Run(s, events))
    decreases |events|
  {
    hide Orderly, Step, Overlaps;
    if events != [] {
      StepKeeps(s, events[0]);
      RunOrderly(Step(s, events[0]).state, events[1..]);
    }
  }

  lemma StepMax(s: State, e: Event)
    ensures Step(s, e).state.max == s.max
  {
    hide Authorize, Existing;
  }

  lemma {:induction false} RunMax(s: State, events: seq<Event>)
    ensures Run(s, events).max == s.max
    decreases |events|
  {
    hide Step;
    if events != [] {
      StepMax(s, events[0]);
      RunMax(Step(s, events[0]).state, events[1..]);
    }
  }

  /** In every state reached without such overlaps no user has more running sessions
      than the limit and none has two for one episode and device, although a resume is
      not counted and a start does not count the pair it is for. */
  lemma LimitHolds(now: int, max: nat, events: seq<Event>, uid: Id)
    requires Apart(Initial(now, max), events)
    ensures var s := Run(Initial(now, max), events); |RunningOf(s, uid)| <= max && Single(s)
  {
    var s := Initial(now, max);
    forall u ensures |RunningOf(s, u)| <= max {
      assert RunningOf(s, u) == {};
    }
    RunOrderly(s, events);
    RunMax(s, events);
  }

  /** Two starts of one user, both permitted before either has its session. */
  function TwoStarts(ask: Ask, one: Id, other: Id, ttl: int): seq<Event> {
    [StartAuthorize(1, ask, one), StartAuthorize(2, ask, other), StartFind(1), StartFind(2), Write(1, ttl), Write(2, ttl)]
  }

  lemma SixSteps(s: State, a: Event, b: Event, c: Event, d: Event, e: Event, f: Event)
    ensures Run(s, [a, b, c, d, e, f]) == Step(Step(Step(Step(Step(Step(s, a).state, b).state, c).state, d).state, e).state, f).state
  {
    hide Step;
    var t := Step(Step(s, a).state, b).state;
    assert [a, b, c, d, e, f][1..] == [b, c, d, e, f] && [b, c, d, e, f][1..] == [c, d, e, f];
    assert Run(s, [a, b, c, d, e, f]) == Run(Step(s, a).state, [b, c, d, e, f]) == Run(t, [c, d, e, f]);
    FourSteps(t, c, d, e, f);
  }

  lemma TwoStartsCreate(s: State, ask: Ask, one: Id, other: Id, ttl: int)
    requires 1 !in s.pending && 2 !in s.pending
    requires Authorize(s, ask, one, false).None? && Authorize(s, ask, other, false).None?
    requires forall i: nat :: Running(s, i) && s.sessions[i].uid == ask.uid && s.sessions[i].device == Name(ask.uid, ask.did) ==>
      s.sessions[i].episode != one && s.sessions[i].episode != other
    ensures var t, name := Run(s, TwoStarts(ask, one, other, ttl)), Name(ask.uid, ask.did);
      && t.now == s.now && t.max == s.max
      && t.sessions == s.sessions + [Session(ask.uid, one, name, Active, s.now + ttl, 0, 0), Session(ask.uid, other, name, Active, s.now + ttl, 0, 0)]
  {
    var name := Name(ask.uid, ask.did);
    NoneExisting(s, ask.uid, one, name);
    NoneExisting(s, ask.uid, other, name);
    hide Authorize, Existing, Running, Run, Step, Enter, TwoStarts;
    SixSteps(s, StartAuthorize(1, ask, one), StartAuthorize(2, ask, other), StartFind(1), StartFind(2), Write(1, ttl), Write(2, ttl));
    TwoPermitted(s, ask, one, other);
    var b := Enter(Enter(s, 1, Permitted(ask.uid, one, name)), 2, Permitted(ask.uid, other, name));
    TwoEntered(s, Permitted(ask.uid, one, name), Permitted(ask.uid, other, name));
    TwoFound(b, s, ask.uid, one, other, name);
    var d := Enter(Enter(b, 1, Creating(ask.uid, one, name)), 2, Creating(ask.uid, other, name));
    TwoEntered(b, Creating(ask.uid, one, name), Creating(ask.uid, other, name));
    TwoWritten(d, ask.uid, one, other, name, ttl);
    TwoStartsAre(ask, one, other, ttl);
  }

  lemma TwoStartsAre(ask: Ask, one: Id, other: Id, ttl: int)
    ensures TwoStarts(ask, one, other, ttl)
         == [StartAuthorize(1, ask, one), StartAuthorize(2, ask, other), StartFind(1), StartFind(2), Write(1, ttl), Write(2, ttl)]
  {
  }

  lemma TwoEntered(s: State, p: Pending, q: Pending)
    ensures var t := Enter(Enter(s, 1, p), 2, q);
      && t.sessions == s.sessions && t.now == s.now && t.max == s.max
      && 1 in t.pending && t.pending[1] == p && 2 in t.pending && t.pending[2] == q
  {
  }

  lemma TwoPermitted(s: State, ask: Ask, one: Id, other: Id)
    requires 1 !in s.pending && 2 !in s.pending
    requires Authorize(s, ask, one, false).None? && Authorize(s, ask, other, false).None?
    ensures var a, name := Step(s, StartAuthorize(1, ask, one)).state, Name(ask.uid, ask.did);
      Step(a, StartAuthorize(2, ask, other)).state == Enter(Enter(s, 1, Permitted(ask.uid, one, name)), 2, Permitted(ask.uid, other, name))
  {
    AuthorizeEntered(s, 1, Permitted(ask.uid, one, Name(ask.uid, ask.did)), ask, other);
    hide Authorize;
  }

  lemma TwoFound(b: State, s: State, uid: Id, one: Id, other: Id, name: Name)
    requires 1 in b.pending && b.pending[1] == Permitted(uid, one, name) && 2 in b.pending && b.pending[2] == Permitted(uid, other, name)
    requires b.sessions == s.sessions && b.now == s.now
    requires Existing(s, uid, one, name, |s.sessions|).None? && Existing(s, uid, other, name, |s.sessions|).None?
    ensures var c := Step(b, StartFind(1)).state;
      Step(c, StartFind(2)).state == Enter(Enter(b, 1, Creating(uid, one, name)), 2, Creating(uid, other, name))
  {
    var c := Enter(b, 1, Creating(uid, one, name));
    ExistingSame(s, b, uid, one, name, |s.sessions|);
    ExistingSame(s, c, uid, other, name, |s.sessions|);
    hide Existing;
    assert c.pending[2] == Permitted(uid, other, name);
  }

  lemma TwoWritten(d: State, uid: Id, one: Id, other: Id, name: Name, ttl: int)
    requires 1 in d.pending && d.pending[1] == Creating(uid, one, name) && 2 in d.pending && d.pending[2] == Creating(uid, other, name)
    ensures var t := Step(Step(d, Write(1, ttl)).state, Write(2, ttl)).state;
      && t.now == d.now && t.max == d.max
      && t.sessions == d.sessions + [Session(uid, one, name, Active, d.now + ttl, 0, 0), Session(uid, other, name, Active, d.now + ttl, 0, 0)]
  {
    var e := Step(d, Write(1, ttl)).state;
    assert e.pending[2] == Creating(uid, other, name);
  }

  lemma AuthorizeEntered(s: State, thread: Id, p: Pending, ask: Ask, episode: Id)
    ensures Authorize(Enter(s, thread, p), ask, episode, false) == Authorize(s, ask, episode, false)
  {
    var name := Name(ask.uid, ask.did);
    assert Counted(Enter(s, thread, p), ask.uid, episode, name) == Counted(s, ask.uid, episode, name);
  }

  /** One below the limit, two overlapping starts of other episodes exceed it. */
  lemma TwoPassTheCount(s: State, ask: Ask, one: Id, other: Id, ttl: int)
    requires 1 !in s.pending && 2 !in s.pending && ttl > 0 && one != other
    requires Authorize(s, ask, one, false).None? && Authorize(s, ask, other, false).None? && |RunningOf(s, ask.uid)| == s.max - 1
    requires forall i: nat :: Running(s, i) && s.sessions[i].uid == ask.uid ==> s.sessions[i].episode != one && s.sessions[i].episode != other
    ensures |RunningOf(Run(s, TwoStarts(ask, one, other, ttl)), ask.uid)| == s.max + 1
  {
    hide Authorize, Run, RunningOf;
    TwoStartsCreate(s, ask, one, other, ttl);
    TwoMoreRun(s, Run(s, TwoStarts(ask, one, other, ttl)), ask.uid);
  }

  lemma TwoMoreRun(s: State, t: State, uid: Id)
    requires t.now == s.now && |t.sessions| == |s.sessions| + 2 && t.sessions[..|s.sessions|] == s.sessions
    requires forall i: nat :: |s.sessions| <= i < |t.sessions| ==> Running(t, i) && t.sessions[i].uid == uid
    ensures |RunningOf(t, uid)| == |RunningOf(s, uid)| + 2
  {
    var n := |s.sessions|;
    forall i: nat ensures i in RunningOf(t, uid) <==> i in RunningOf(s, uid) || i == n || i == n + 1 {
      RunsAlike(s, t, i);
    }
    NotYet(s, uid, n);
    hide RunningOf;
    AddTwo(RunningOf(s, uid), RunningOf(t, uid), n);
  }

  lemma RunsAlike(s: State, t: State, i: nat)
    requires t.now == s.now && |t.sessions| >= |s.sessions| && t.sessions[..|s.sessions|] == s.sessions
    ensures i < |s.sessions| ==> t.sessions[i] == s.sessions[i] && (Running(t, i) <==> Running(s, i))
  {
    if i < |s.sessions| {
      assert t.sessions[i] == t.sessions[..|s.sessions|][i];
    }
  }

  lemma NotYet(s: State, uid: Id, n: nat)
    requires n >= |s.sessions|
    ensures n !in RunningOf(s, uid) && n + 1 !in RunningOf(s, uid)
  {
  }

  lemma AddTwo(before: set<nat>, after: set<nat>, n: nat)
    requires n !in before && n + 1 !in before && forall i: nat :: i in after <==> i in before || i == n || i == n + 1
    ensures |after| == |before| + 2
  {
    assert after == before + {n} + {n + 1};
  }

  const ANYONE := Ask(0, true, true, true, false, false, false, 0, 0)

  /** Two overlapping starts of one episode on one device, from the beginning. */
  function Twins(): seq<Event> { [RegisterDevice(Name(0, 0), 0)] + TwoStarts(ANYONE, 0, 0, 1) }

  lemma TwinsBothRun(now: int, max: nat)
    requires max > 0
    ensures !Single(Run(Initial(now, max), Twins()))
  {
    var s := Step(Initial(now, max), RegisterDevice(Name(0, 0), 0)).state;
    assert Counted(s, 0, 0, Name(0, 0)) == {};
    TwoStartsCreate(s, ANYONE, 0, 0, 1);
    hide Step;
    assert Twins()[1..] == TwoStarts(ANYONE, 0, 0, 1);
    var t := Run(Initial(now, max), Twins());
    assert t == Run(s, TwoStarts(ANYONE, 0, 0, 1));
    hide Run;
    assert Running(t, 0) && Running(t, 1) && t.sessions[0] == t.sessions[1];
  }

  /** With a limit of nothing, nothing starts. */
  ghost predicate Idle(s: State) {
    s.sessions == [] && forall t :: t in s.pending ==> !s.pending[t].Permitted? && !s.pending[t].Creating?
  }

  lemma IdleStep(s: State, e: Event)
    requires Idle(s) && s.max == 0
    ensures Idle(Step(s, e).state) && Step(s, e).state.max == 0
  {
  }

  lemma {:induction false} IdleRun(s: State, events: seq<Event>)
    requires Idle(s) && s.max == 0
    ensures Limited(Run(s, events)) && Single(Run(s, events))
    decreases |events|
  {
    if events != [] {
      IdleStep(s, events[0]);
      IdleRun(Step(s, events[0]).state, events[1..]);
    } else {
      forall uid ensures RunningOf(s, uid) == {} {
      }
    }
  }

  /** Every run keeps the limit and the pairs if and only if no start or resume is let
      overlap another of its user, or nothing may run at all. */
  lemma LimitNeedsTurns(now: int, max: nat, overlaps: bool)
    ensures (forall events :: overlaps || Apart(Initial(now, max), events) ==>
               Limited(Run(Initial(now, max), events)) && Single(Run(Initial(now, max), events)))
      <==> !overlaps || max == 0
  {
    hide Run, Apart, Single, Twins;
    if !overlaps || max == 0 {
      forall events | overlaps || Apart(Initial(now, max), events)
        ensures Limited(Run(Initial(now, max), events)) && Single(Run(Initial(now, max), events))
      {
        if max == 0 {
          IdleRun(Initial(now, max), events);
        } else {
          RunMax(Initial(now, max), events);
          forall uid ensures |RunningOf(Run(Initial(now, max), events), uid)| <= max {
            LimitHolds(now, max, events, uid);
          }
          LimitHolds(now, max, events, 0);
        }
      }
    } else {
      TwinsBothRun(now, max);
    }
  }

  // ---------------------------------------------------------------------
  // Watch time of a session

  /** A heartbeat of the session is written. */
  predicate Beats(s: State, e: Event, sid: nat) {
    e.HeartbeatWrite? && e.thread in s.pending && s.pending[e.thread].Beat? && s.pending[e.thread].sid == sid < |s.sessions|
  }

  /** The heartbeats of `sid` written along a run. */
  function BeatsIn(s: State, events: seq<Event>, sid: nat): nat
    decreases |events|
  {
    if events == [] then 0
    else (if Beats(s, events[0], sid) then 1 else 0) + BeatsIn(Step(s, events[0]).state, events[1..], sid)
  }

  /** Each heartbeat moves the position forward, by no more than a minute. */
  predicate Smooth(s: State, events: seq<Event>, sid: nat)
    decreases |events|
  {
    events != [] ==>
      && (Beats(s, events[0], sid) ==>
            s.sessions[sid].lastPosition <= events[0].position <= s.sessions[sid].lastPosition + 60)
      && Smooth(Step(s, events[0]).state, events[1..], sid)
  }

  /** Only its own heartbeats move a session's position and watched time. */
  lemma WatchStep(s: State, e: Event, sid: nat)
    ensures var t := Step(s, e).state;
      && |s.sessions| <= |t.sessions| <= |s.sessions| + 1
      && (sid < |s.sessions| ==>
            if Beats(s, e, sid) then
              && t.sessions[sid].lastPosition == e.position
              && t.sessions[sid].watched == s.sessions[sid].watched + Delta(s.pending[e.thread].read, e.position)
            else t.sessions[sid].lastPosition == s.sessions[sid].lastPosition && t.sessions[sid].watched == s.sessions[sid].watched)
      && (|s.sessions| <= sid < |t.sessions| ==> t.sessions[sid].lastPosition == 0 && t.sessions[sid].watched == 0)
  {
    hide Authorize, Existing;
  }

  /** Over any run watched time never falls and grows by at most a minute a heartbeat. */
  lemma {:induction false} WatchedWithin(s: State, events: seq<Event>, sid: nat)
    requires sid < |s.sessions|
    ensures var t := Run(s, events);
      && |s.sessions| <= |t.sessions|
      && s.sessions[sid].watched <= t.sessions[sid].watched <= s.sessions[sid].watched + 60 * BeatsIn(s, events, sid)
    decreases |events|
  {
    hide Step, Beats;
    if events != [] {
      WatchStep(s, events[0], sid);
      WatchedWithin(Step(s, events[0]).state, events[1..], sid);
    }
  }

  /** Each heartbeat read the position it moves on from, or moves on a full minute. */
  predicate Fresh(s: State, events: seq<Event>, sid: nat)
    decreases |events|
  {
    events != [] ==>
      && (Beats(s, events[0], sid) ==>
            s.pending[events[0].thread].read == s.sessions[sid].lastPosition || events[0].position == s.sessions[sid].lastPosition + 60)
      && Fresh(Step(s, events[0]).state, events[1..], sid)
  }

  /** What the heartbeats under way have read lies behind the session's position. */
  ghost predicate Behind(s: State, sid: nat) {
    forall t :: t in s.pending && s.pending[t].Beat? && s.pending[t].sid == sid ==> sid < |s.sessions| && s.pending[t].read <= s.sessions[sid].lastPosition
  }

  function Excess(s: State, sid: nat): int {
    if sid < |s.sessions| then s.sessions[sid].watched - s.sessions[sid].lastPosition else 0
  }

  lemma StepStaysBehind(s: State, e: Event, sid: nat)
    requires Behind(s, sid) && (Beats(s, e, sid) ==> s.sessions[sid].lastPosition <= e.position)
    ensures Behind(Step(s, e).state, sid)
  {
    WatchStep(s, e, sid);
    hide Authorize, Existing;
  }

  lemma {:induction false} SmoothExceeds(s: State, events: seq<Event>, sid: nat)
    requires Behind(s, sid) && Smooth(s, events, sid)
    ensures Excess(Run(s, events), sid) >= Excess(s, sid)
    ensures Excess(Run(s, events), sid) == Excess(s, sid) <==> Fresh(s, events, sid)
    decreases |events|
  {
    if events != [] {
      StepStaysBehind(s, events[0], sid);
      WatchStep(s, events[0], sid);
      hide Step;
      SmoothExceeds(Step(s, events[0]).state, events[1..], sid);
    }
  }

  /** A session whose positions only rise, by at most a minute each, has watched at
      least up to its final position, and exactly so if and only if no heartbeat
      overlapped one that moved the position, save where it moves on a full minute. */
  lemma SmoothWatch(now: int, max: nat, events: seq<Event>, sid: nat)
    requires Smooth(Initial(now, max), events, sid) && sid < |Run(Initial(now, max), events).sessions|
    ensures var t := Run(Initial(now, max), events);
      && t.sessions[sid].watched >= t.sessions[sid].lastPosition
      && (t.sessions[sid].watched == t.sessions[sid].lastPosition <==> Fresh(Initial(now, max), events, sid))
  {
    SmoothExceeds(Initial(now, max), events, sid);
  }

  /** Two heartbeats that overlap count one stretch twice. */
  lemma OverlapCountsTwice(s: State, uid: Id, sid: nat, position: nat)
    requires Accepts(s, uid, sid, true) && s.sessions[sid].lastPosition <= position <= s.sessions[sid].lastPosition + 60
    requires 1 !in s.pending && 2 !in s.pending
    ensures var t := Run(s, [HeartbeatRead(1, uid, sid, true), HeartbeatRead(2, uid, sid, true), HeartbeatWrite(1, position), HeartbeatWrite(2, position)]);
      && sid < |t.sessions| && t.sessions[sid].lastPosition == position
      && t.sessions[sid].watched == s.sessions[sid].watched + 2 * (position - s.sessions[sid].lastPosition)
  {
    var a := Step(s, HeartbeatRead(1, uid, sid, true)).state;
    var b := Step(a, HeartbeatRead(2, uid, sid, true)).state;
    assert b.pending[1] == b.pending[2] == Beat(sid, s.sessions[sid].lastPosition);
    var c := Step(b, HeartbeatWrite(1, position)).state;
    var d := Step(c, HeartbeatWrite(2, position)).state;
    FourSteps(s, HeartbeatRead(1, uid, sid, true), HeartbeatRead(2, uid, sid, true), HeartbeatWrite(1, position), HeartbeatWrite(2, position));
  }

  lemma FourSteps(s: State, a: Event, b: Event, c: Event, d: Event)
    ensures Run(s, [a, b, c, d]) == Step(Step(Step(Step(s, a).state, b).state, c).state, d).state
  {
    hide Step;
    assert [a, b, c, d][1..] == [b, c, d] && [b, c, d][1..] == [c, d] && [c, d][1..] == [d] && [d][1..] == [];
    var t := Step(Step(s, a).state, b).state;
    assert Run(t, [c, d]) == Run(Step(t, c).state, [d]);
    assert Run(s, [a, b, c, d]) == Run(Step(s, a).state, [b, c, d]) == Run(t, [c, d]);
  }

  // ---------------------------------------------------------------------
  // Watch time of the history

  function Share(r: Session, k: Key): nat { if r.uid == k.uid && r.episode == k.episode then r.watched else 0 }

  /** What the user's sessions of the episode watched in all. */
  function Sum(sessions: seq<Session>, k: Key): nat {
    if sessions == [] then 0 else Sum(sessions[..|sessions| - 1], k) + Share(sessions[|sessions| - 1], k)
  }

  function Recorded(s: State, k: Key): nat { if k in s.history then s.history[k].watched else 0 }

  /** What a heartbeat of a session the history no longer points at adds to that
      session alone. */
  function StrayBy(s: State, e: Event, k: Key): nat {
    if e.HeartbeatWrite? && e.thread in s.pending && s.pending[e.thread].Beat? && s.pending[e.thread].sid < |s.sessions| then
      var sid := s.pending[e.thread].sid;
      if s.sessions[sid].uid == k.uid && s.sessions[sid].episode == k.episode && !(k in s.history && s.history[k].session == sid)
      then Delta(s.pending[e.thread].read, e.position) else 0
    else 0
  }

  function Stray(s: State, events: seq<Event>, k: Key): nat
    decreases |events|
  {
    if events == [] then 0 else StrayBy(s, events[0], k) + Stray(Step(s, events[0]).state, events[1..], k)
  }

  /** A history points at a session of its own user and episode. */
  ghost predicate Pointed(s: State) {
    forall k :: k in s.history ==>
      && s.history[k].session < |s.sessions|
      && var r := s.sessions[s.history[k].session]; r.uid == k.uid && r.episode == k.episode
  }

  lemma {:induction false} SumOfUpdate(sessions: seq<Session>, i: nat, r: Session, k: Key)
    requires i < |sessions|
    ensures Sum(sessions[i := r], k) == Sum(sessions, k) - Share(sessions[i], k) + Share(r, k)
  {
    var n := |sessions| - 1;
    if i < n {
      SumOfUpdate(sessions[..n], i, r, k);
      assert sessions[i := r][..n] == sessions[..n][i := r];
    } else {
      assert sessions[i := r][..n] == sessions[..n];
    }
  }

  lemma {:induction false} SumSame(a: seq<Session>, b: seq<Session>, k: Key)
    requires |a| == |b| && forall i :: 0 <= i < |a| ==> Share(a[i], k) == Share(b[i], k)
    ensures Sum(a, k) == Sum(b, k)
  {
    if a != [] {
      SumSame(a[..|a| - 1], b[..|b| - 1], k);
    }
  }

  lemma HeartbeatConserves(s: State, e: Event, k: Key)
    requires Pointed(s) && e.HeartbeatWrite?
    ensures var t := Step(s, e).state;
      && Pointed(t)
      && Recorded(t, k) + StrayBy(s, e, k) - Recorded(s, k) == Sum(t.sessions, k) - Sum(s.sessions, k)
  {
    hide Sum;
    if e.thread in s.pending && s.pending[e.thread].Beat? && s.pending[e.thread].sid < |s.sessions| {
      var sid := s.pending[e.thread].sid;
      var r, delta := s.sessions[sid], Delta(s.pending[e.thread].read, e.position);
      SumOfUpdate(s.sessions, sid, r.(lastPosition := e.position, watched := r.watched + delta), k);
    }
  }

  lemma CreateConserves(s: State, uid: Id, episode: Id, device: Name, ttl: int, k: Key)
    requires Pointed(s)
    ensures var t := DoCreate(s, uid, episode, device, ttl).state;
      Pointed(t) && Recorded(t, k) == Recorded(s, k) && Sum(t.sessions, k) == Sum(s.sessions, k)
  {
    var r := Session(uid, episode, device, Active, s.now + ttl, 0, 0);
    assert (s.sessions + [r])[..|s.sessions|] == s.sessions;
  }

  /** A step that changes no uid, episode or watched time and no history total. */
  ghost predicate Neutral(s: State, t: State) {
    && |t.sessions| == |s.sessions|
    && (forall i :: 0 <= i < |s.sessions| ==>
          t.sessions[i].uid == s.sessions[i].uid && t.sessions[i].episode == s.sessions[i].episode && t.sessions[i].watched == s.sessions[i].watched)
    && t.history.Keys == s.history.Keys
    && (forall k :: k in s.history ==> t.history[k].session == s.history[k].session && t.history[k].watched == s.history[k].watched)
  }

  lemma NeutralConserves(s: State, t: State, k: Key)
    requires Pointed(s) && Neutral(s, t)
    ensures Pointed(t) && Recorded(t, k) == Recorded(s, k) && Sum(t.sessions, k) == Sum(s.sessions, k)
  {
    SumSame(s.sessions, t.sessions, k);
  }

  lemma OthersNeutral(s: State, e: Event)
    requires !e.Write? && !e.HeartbeatWrite?
    ensures Neutral(s, Step(s, e).state)
  {
    hide Authorize;
  }

  lemma StepConserves(s: State, e: Event, k: Key)
    requires Pointed(s)
    ensures var t := Step(s, e).state;
      && Pointed(t)
      && Recorded(t, k) + StrayBy(s, e, k) - Recorded(s, k) == Sum(t.sessions, k) - Sum(s.sessions, k)
  {
    hide Pointed, Sum, Recorded, Neutral, Authorize, Existing, DoWrite, DoHeartbeatWrite;
    if e.HeartbeatWrite? {
      HeartbeatConserves(s, e, k);
    } else if e.Write? {
      WriteConserves(s, e.thread, e.ttl, k);
    } else {
      OthersNeutral(s, e);
      NeutralConserves(s, Step(s, e).state, k);
    }
  }

  lemma WriteConserves(s: State, thread: Id, ttl: int, k: Key)
    requires Pointed(s)
    ensures var t := DoWrite(s, thread, ttl).state;
      Pointed(t) && Recorded(t, k) == Recorded(s, k) && Sum(t.sessions, k) == Sum(s.sessions, k)
  {
    hide Sum, Recorded, DoCreate, DoRotate;
    if thread in s.pending {
      var left := Leave(s, thread);
      assert Recorded(left, k) == Recorded(s, k) by {
        LeaveRecords(s, thread, k);
      }
      match s.pending[thread]
      case Creating(uid, episode, device) => CreateConserves(left, uid, episode, device, ttl, k);
      case Rotating(_, sid, _) =>
        RotateNeutral(left, sid, ttl);
        NeutralConserves(left, DoRotate(left, sid, ttl).state, k);
      case _ =>
    }
  }

  lemma LeaveRecords(s: State, thread: Id, k: Key)
    ensures Recorded(Leave(s, thread), k) == Recorded(s, k)
  {
  }

  lemma RotateNeutral(s: State, i: nat, ttl: int)
    ensures Neutral(s, DoRotate(s, i, ttl).state)
  {
  }

  lemma {:induction false} RunConserves(s: State, events: seq<Event>, k: Key)
    requires Pointed(s)
    ensures var t := Run(s, events); Recorded(t, k) + Stray(s, events, k) - Recorded(s, k) == Sum(t.sessions, k) - Sum(s.sessions, k)
    decreases |events|
  {
    hide Step, Pointed;
    if events != [] {
      StepConserves(s, events[0], k);
      RunConserves(Step(s, events[0]).state, events[1..], k);
    }
  }

  /** Over any run the history's total falls short of what the sessions watched by
      exactly what sessions it no longer pointed at added. So it never exceeds the
      sum, and equals it if and only if no such heartbeat added anything. */
  lemma WatchTimeConserved(now: int, max: nat, events: seq<Event>, k: Key)
    ensures var t := Run(Initial(now, max), events);
      && Recorded(t, k) + Stray(Initial(now, max), events, k) == Sum(t.sessions, k)
      && Recorded(t, k) <= Sum(t.sessions, k)
      && (Recorded(t, k) == Sum(t.sessions, k) <==> Stray(Initial(now, max), events, k) == 0)
  {
    RunConserves(Initial(now, max), events, k);
  }
}
