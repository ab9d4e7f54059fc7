/** Playback capabilities over two stores that are not updated together: the
    session rows in the database and the capability entries in Redis. Every
    await point is a step, and steps of different requests interleave freely
    (src/playback/playback.service.ts:82-129, src/auth/auth.service.ts:135-164). */
module PlaybackProtocol {
  type Id = nat

  datatype Status = Active | Closed | Expired | Revoked

  /** A signed capability. Signing is unforgeable and hashing is injective, so the
      row's capability hash is named by the capability's own jti. */
  datatype Capability = Capability(sid: Id, uid: Id, did: Id, fp: Id)

  datatype Session = Session(uid: Id, device: Id, jti: Id, status: Status, expiresAt: int)

  /** A trusted device of `uid` that calls itself `did`. */
  datatype Device = Device(uid: Id, did: Id, active: bool, fp: Id)

  /** A presented capability with the device that presents it. */
  datatype Request = Request(sid: Id, uid: Id, did: Id, fp: Id, jti: Id)

  /** Where a request stands between two awaits. */
  datatype Pc =
    | Verified(req: Request)                      // signature and claims checked
    | Cached(req: Request, entry: Capability)     // cache entry read
    | Authorized(req: Request, entry: Capability) // policy passed
    | Accepted(req: Request, entry: Capability)   // deciding read succeeded
    | Served(req: Request)                        // cache entry written back
    | Unlinking(sid: Id)                          // row closed; its jti is read next
    | RotateSeen(sid: Id, fp: Id)                 // row seen active and unexpired, device authorized
    | RotateRead(sid: Id, was: Id, fp: Id)        // old jti read
    | RotateSigned(sid: Id, was: Id, minted: Id)   // new capability signed
    | RotateStored(sid: Id, was: Id, minted: Id)   // row points at the new capability
    | Caching(sid: Id, jti: Id)                   // new capability's entry still unwritten
    | ExpireSeen(sid: Id)                         // row seen active and overdue
    | RevokeSeen(sid: Id, overdue: bool)          // row about to be expired or revoked by id
    | RevokeRead(sid: Id, jti: Id, overdue: bool) // its jti read
    | Dropping(jti: Id)                           // cache entry about to be deleted

  datatype State = State(
    now: int,
    devices: map<Id, Device>,
    sessions: map<Id, Session>,
    cache: map<Id, Capability>,
    issued: map<Id, Capability>,   // every capability ever signed, by jti
    held: set<Id>,                 // every jti ever written to a row
    threads: map<Id, Pc>)

  datatype Step =
    | Tick(seconds: nat)
    | RegisterDevice(device: Id, uid: Id, did: Id, fp: Id)
    | RevokeDevice(device: Id)
    | Start(thread: Id, sid: Id, device: Id, jti: Id, ttl: int)
    | Verify(thread: Id, req: Request)
    | SeeActive(thread: Id, sid: Id, fp: Id)   // `fp` is what the authorization read of the device
    | SeeOverdue(thread: Id, sid: Id)
    | Do(thread: Id, action: Action)
    | Cleanup
    | Evict(jti: Id)

  /** What a request under way does next. */
  datatype Action =
    | ReadCache
    | CheckFingerprint(policyAllows: bool, scopeMatches: bool)
    | Decide(mediaActive: bool)
    | WriteBack
    | Stop
    | ReadOld
    | Sign(jti: Id)
    | StoreNew(ttl: int)
    | DropOld
    | CacheNew
    | MarkExpired
    | ReadToRevoke
    | StoreRevoked
    | Drop

  function At(s: State, thread: Id, pc: Pc): State { s.(threads := s.threads[thread := pc]) }

  function Gone(s: State, thread: Id): State { s.(threads := s.threads - {thread}) }

  function Put(s: State, sid: Id, row: Session): State { s.(sessions := s.sessions[sid := row]) }

  /** The row and device test of the deciding read (playback.service.ts:91). */
  predicate Decides(s: State, req: Request) {
    && req.sid in s.sessions
    && var row := s.sessions[req.sid];
    && row.uid == req.uid && row.jti == req.jti && row.status == Active && row.expiresAt > s.now
    && row.device in s.devices
    && var d := s.devices[row.device];
    && d.active && d.did == req.did && d.fp == req.fp
  }

  /** A step that is not enabled changes nothing. */
  function Next(s: State, step: Step): State {
    match step
    case Tick(seconds) => s.(now := s.now + seconds)
    case RegisterDevice(device, uid, did, fp) =>
      if device in s.devices && (s.devices[device].uid != uid || s.devices[device].did != did) then s
      else s.(devices := s.devices[device := Device(uid, did, true, fp)])
    case RevokeDevice(device) => NextRevokeDevice(s, device)
    case Start(thread, sid, device, jti, ttl) => NextStart(s, thread, sid, device, jti, ttl)
    case Cleanup =>
      s.(sessions := map id | id in s.sessions ::
        var r := s.sessions[id]; if r.status == Active && r.expiresAt < s.now then r.(status := Expired) else r)
    case Evict(jti) => s.(cache := s.cache - {jti})
    case Verify(thread, req) =>
      if thread in s.threads || req.jti !in s.issued then s
      else
        var c := s.issued[req.jti];
        if c.sid == req.sid && c.uid == req.uid && c.did == req.did then At(s, thread, Verified(req)) else s
    case SeeActive(thread, sid, fp) =>
      if thread !in s.threads && sid in s.sessions && s.sessions[sid].status == Active && s.sessions[sid].expiresAt > s.now
      then At(s, thread, RotateSeen(sid, fp)) else s
    case SeeOverdue(thread, sid) =>
      if thread !in s.threads && sid in s.sessions && s.sessions[sid].status == Active && s.sessions[sid].expiresAt <= s.now
      then At(s, thread, ExpireSeen(sid)) else s
    case Do(thread, action) => if thread in s.threads then Act(s, thread, s.threads[thread], action) else s
  }

  function NextRevokeDevice(s: State, device: Id): State {
    if device !in s.devices || !s.devices[device].active then s
    else s.(
      devices := s.devices[device := s.devices[device].(active := false)],
      sessions := map id | id in s.sessions ::
        var r := s.sessions[id]; if r.device == device && r.status == Active then r.(status := Revoked) else r)
  }

  /** A start with no session to reuse: policy, signature and row creation. */
  function NextStart(s: State, thread: Id, sid: Id, device: Id, jti: Id, ttl: int): State {
    if thread in s.threads || sid in s.sessions || jti in s.issued || device !in s.devices || !s.devices[device].active then s
    else
      var d := s.devices[device];
      At(s.(sessions := s.sessions[sid := Session(d.uid, device, jti, Active, s.now + ttl)],
            issued := s.issued[jti := Capability(sid, d.uid, d.did, d.fp)],
            held := s.held + {jti}),
         thread, Caching(sid, jti))
  }

  function Act(s: State, t: Id, pc: Pc, action: Action): State {
    match action
    case ReadCache => DoReadCache(s, t, pc)
    case CheckFingerprint(policyAllows, scopeMatches) => DoCheck(s, t, pc, policyAllows, scopeMatches)
    case Decide(mediaActive) => DoDecide(s, t, pc, mediaActive)
    case WriteBack => DoWriteBack(s, t, pc)
    case Stop => DoStop(s, t, pc)
    case ReadOld => DoReadOld(s, t, pc)
    case Sign(jti) => DoSign(s, t, pc, jti)
    case StoreNew(ttl) => DoStoreNew(s, t, pc, ttl)
    case DropOld => DoDropOld(s, t, pc)
    case CacheNew => DoCacheNew(s, t, pc)
    case MarkExpired => DoMarkExpired(s, t, pc)
    case ReadToRevoke => DoReadToRevoke(s, t, pc)
    case StoreRevoked => DoStoreRevoked(s, t, pc)
    case Drop => DoDrop(s, t, pc)
  }

  // validateCapability, lines 85-95

  function DoReadCache(s: State, t: Id, pc: Pc): State {
    if !pc.Verified? then s
    else
      var req := pc.req;
      if req.jti in s.cache && s.cache[req.jti].sid == req.sid && s.cache[req.jti].uid == req.uid
      then At(s, t, Cached(req, s.cache[req.jti])) else Gone(s, t)
  }

  function DoCheck(s: State, t: Id, pc: Pc, policyAllows: bool, scopeMatches: bool): State {
    if !pc.Cached? || pc.req.jti !in s.issued then s
    else if s.issued[pc.req.jti].fp != pc.req.fp || pc.entry.fp != pc.req.fp then At(s, t, RevokeSeen(pc.req.sid, false))
    else if !policyAllows then Gone(s, t)
    else if !scopeMatches then At(s, t, RevokeSeen(pc.req.sid, false))
    else At(s, t, Authorized(pc.req, pc.entry))
  }

  function DoDecide(s: State, t: Id, pc: Pc, mediaActive: bool): State {
    if !pc.Authorized? then s
    else if Decides(s, pc.req) && mediaActive then At(s, t, Accepted(pc.req, pc.entry)) else Gone(s, t)
  }

  function DoWriteBack(s: State, t: Id, pc: Pc): State {
    if !pc.Accepted? then s
    else At(s.(cache := s.cache[pc.req.jti := pc.entry]), t, Served(pc.req))
  }

  // stop, lines 58-66

  function DoStop(s: State, t: Id, pc: Pc): State {
    if !pc.Served? then s
    else
      var id := pc.req.sid;
      if id in s.sessions && s.sessions[id].uid == pc.req.uid && s.sessions[id].status == Active
      then At(Put(s, id, s.sessions[id].(status := Closed)), t, Unlinking(id))
      else At(s, t, Unlinking(id))
  }

  // rotate, lines 107-116

  function DoReadOld(s: State, t: Id, pc: Pc): State {
    if !pc.RotateSeen? then s
    else if pc.sid in s.sessions then At(s, t, RotateRead(pc.sid, s.sessions[pc.sid].jti, pc.fp)) else Gone(s, t)
  }

  function DoSign(s: State, t: Id, pc: Pc, jti: Id): State {
    if !pc.RotateRead? || jti in s.issued || pc.sid !in s.sessions || s.sessions[pc.sid].device !in s.devices then s
    else
      var d := s.devices[s.sessions[pc.sid].device];
      At(s.(issued := s.issued[jti := Capability(pc.sid, d.uid, d.did, pc.fp)]), t, RotateSigned(pc.sid, pc.was, jti))
  }

  function DoStoreNew(s: State, t: Id, pc: Pc, ttl: int): State {
    if !pc.RotateSigned? then s
    else if pc.sid !in s.sessions then Gone(s, t)
    else
      var row := s.sessions[pc.sid].(jti := pc.minted, expiresAt := s.now + ttl);
      At(Put(s, pc.sid, row).(held := s.held + {pc.minted}), t, RotateStored(pc.sid, pc.was, pc.minted))
  }

  function DoDropOld(s: State, t: Id, pc: Pc): State {
    if !pc.RotateStored? then s
    else At(s.(cache := s.cache - {pc.was}), t, Caching(pc.sid, pc.minted))
  }

  function DoCacheNew(s: State, t: Id, pc: Pc): State {
    if !pc.Caching? || pc.jti !in s.issued then s
    else Gone(s.(cache := s.cache[pc.jti := s.issued[pc.jti]]), t)
  }

  // expire and the two revocations, lines 127-129

  function DoMarkExpired(s: State, t: Id, pc: Pc): State {
    if !pc.ExpireSeen? then s
    else
      var id := pc.sid;
      if id in s.sessions && s.sessions[id].status == Active && s.sessions[id].expiresAt <= s.now
      then At(Put(s, id, s.sessions[id].(status := Expired)), t, RevokeSeen(id, true))
      else At(s, t, RevokeSeen(id, true))
  }

  function DoReadToRevoke(s: State, t: Id, pc: Pc): State {
    if pc.RevokeSeen? then
      if pc.sid in s.sessions then At(s, t, RevokeRead(pc.sid, s.sessions[pc.sid].jti, pc.overdue)) else Gone(s, t)
    else if pc.Unlinking? then
      if pc.sid in s.sessions then At(s, t, Dropping(s.sessions[pc.sid].jti)) else Gone(s, t)
    else s
  }

  function DoStoreRevoked(s: State, t: Id, pc: Pc): State {
    if !pc.RevokeRead? then s
    else if pc.sid !in s.sessions then Gone(s, t)
    else
      var row := s.sessions[pc.sid].(status := if pc.overdue then Expired else Revoked);
      At(Put(s, pc.sid, row), t, Dropping(pc.jti))
  }

  function DoDrop(s: State, t: Id, pc: Pc): State {
    if !pc.Dropping? then s else Gone(s.(cache := s.cache - {pc.jti}), t)
  }

  function Initial(now: int): State { State(now, map[], map[], map[], map[], {}, map[]) }

  function Run(s: State, steps: seq<Step>): State
    decreases |steps|
  {
    if steps == [] then s else Run(Next(s, steps[0]), steps[1..])
  }

  // ---------------------------------------------------------------------
  // Invariant

  ghost predicate Inv(s: State) {
    && (forall id :: id in s.sessions ==> s.sessions[id].jti in s.held)
    && (forall a, b :: a in s.sessions && b in s.sessions && s.sessions[a].jti == s.sessions[b].jti ==> a == b)
    && (forall j :: j in s.held ==> j in s.issued)
    && (forall t :: t in s.threads && s.threads[t].RotateSigned? ==>
          s.threads[t].minted in s.issued && s.threads[t].minted !in s.held)
    && (forall t, u ::
          (t in s.threads && u in s.threads && s.threads[t].RotateSigned? && s.threads[u].RotateSigned?
           && s.threads[t].minted == s.threads[u].minted) ==> t == u)
    && (forall id :: id in s.sessions && s.sessions[id].status == Active ==>
          s.sessions[id].device in s.devices && s.devices[s.sessions[id].device].active)
  }

  /** `j` is the current capability of the active, unexpired session `id`. */
  ghost predicate Backs(s: State, id: Id, j: Id) {
    id in s.sessions && s.sessions[id].jti == j && s.sessions[id].status == Active && s.sessions[id].expiresAt > s.now
  }

  ghost predicate Current(s: State, j: Id) { exists id :: Backs(s, id, j) }

  /** The capability was some session's once and is not current: superseded,
      expired, closed or revoked. */
  ghost predicate Dead(s: State, j: Id) { j in s.held && !Current(s, j) }

  /** `s'` has the same rows as `s`, none more alive, and no new pending rotation. */
  ghost predicate Lowers(s: State, s': State) {
    && s'.now >= s.now && s'.held == s.held && s'.issued == s.issued && s'.sessions.Keys == s.sessions.Keys
    && (forall id :: id in s.sessions ==>
          var r, r' := s.sessions[id], s'.sessions[id];
          r'.jti == r.jti && r'.expiresAt == r.expiresAt && (r'.status == Active ==> r.status == Active))
    && (forall id :: id in s'.sessions && s'.sessions[id].status == Active ==>
          s'.sessions[id].device in s'.devices && s'.devices[s'.sessions[id].device].active)
    && (forall t :: t in s'.threads && s'.threads[t].RotateSigned? ==> t in s.threads && s.threads[t] == s'.threads[t])
  }

  /** The step touches no row; it may move its own thread, to no pending rotation. */
  ghost predicate Quiet(s: State, s': State, t: Id) {
    && s'.now == s.now && s'.sessions == s.sessions && s'.devices == s.devices && s'.held == s.held && s'.issued == s.issued
    && (s'.threads == s.threads || s'.threads == s.threads - {t}
        || (t in s'.threads && !s'.threads[t].RotateSigned? && s'.threads == s.threads[t := s'.threads[t]]))
  }

  lemma QuietLowers(s: State, s': State, t: Id)
    requires Inv(s) && Quiet(s, s', t)
    ensures Lowers(s, s')
  {
  }

  ghost predicate Local(a: Action) {
    a.ReadCache? || a.CheckFingerprint? || a.Decide? || a.WriteBack? || a.ReadOld?
    || a.DropOld? || a.CacheNew? || a.ReadToRevoke? || a.Drop?
  }

  lemma CheckIsQuiet(s: State, t: Id, pc: Pc, allows: bool, matches: bool, media: bool)
    requires t in s.threads
    ensures Quiet(s, DoCheck(s, t, pc, allows, matches), t)
    ensures Quiet(s, DoDecide(s, t, pc, media), t)
  {
    hide Decides;
  }

  lemma CacheIsQuiet(s: State, t: Id, pc: Pc)
    requires t in s.threads
    ensures Quiet(s, DoReadCache(s, t, pc), t) && Quiet(s, DoWriteBack(s, t, pc), t)
    ensures Quiet(s, DoDropOld(s, t, pc), t) && Quiet(s, DoCacheNew(s, t, pc), t) && Quiet(s, DoDrop(s, t, pc), t)
  {
  }

  lemma ReadIsQuiet(s: State, t: Id, pc: Pc)
    requires t in s.threads
    ensures Quiet(s, DoReadOld(s, t, pc), t) && Quiet(s, DoReadToRevoke(s, t, pc), t)
  {
  }

  lemma LocalIsQuiet(s: State, t: Id, a: Action)
    requires Local(a)
    ensures Quiet(s, Next(s, Do(t, a)), t)
  {
    hide Quiet, DoCheck, DoDecide, DoReadCache, DoWriteBack, DoDropOld, DoCacheNew, DoDrop, DoReadOld, DoReadToRevoke;
    if t in s.threads {
      var pc := s.threads[t];
      CacheIsQuiet(s, t, pc);
      ReadIsQuiet(s, t, pc);
      match a
      case CheckFingerprint(allows, matches) => CheckIsQuiet(s, t, pc, allows, matches, true);
      case Decide(media) => CheckIsQuiet(s, t, pc, true, true, media);
      case _ =>
    } else {
      QuietSelf(s, t);
    }
  }

  lemma QuietSelf(s: State, t: Id)
    ensures Quiet(s, s, t)
  {
  }

  lemma EntryIsQuiet(s: State, step: Step)
    requires step.Verify? || step.SeeActive? || step.SeeOverdue?
    ensures Quiet(s, Next(s, step), step.thread)
  {
  }

  /** The step only moves its own thread and takes row `id` out of service, or
      leaves the rows alone. */
  ghost predicate Retires(s: State, s': State, t: Id, id: Id) {
    && Quiet(s, s'.(sessions := s.sessions), t)
    && (s'.sessions == s.sessions
        || (id in s.sessions && id in s'.sessions && s'.sessions[id].status != Active
            && s'.sessions == s.sessions[id := s.sessions[id].(status := s'.sessions[id].status)]))
  }

  lemma RetiresLowers(s: State, s': State, t: Id, id: Id)
    requires Inv(s) && Retires(s, s', t, id)
    ensures Lowers(s, s')
  {
    QuietLowers(s, s'.(sessions := s.sessions), t);
  }

  /** The session a closing action works on. */
  ghost function Target(pc: Pc): Id {
    match pc
    case Served(req) => req.sid
    case ExpireSeen(sid) => sid
    case RevokeRead(sid, _, _) => sid
    case _ => 0
  }

  lemma StopRetires(s: State, t: Id, pc: Pc)
    requires t in s.threads
    ensures Retires(s, DoStop(s, t, pc), t, Target(pc))
  {
  }

  lemma MarkRetires(s: State, t: Id, pc: Pc)
    requires t in s.threads
    ensures Retires(s, DoMarkExpired(s, t, pc), t, Target(pc))
  {
  }

  lemma RevokeRetires(s: State, t: Id, pc: Pc)
    requires t in s.threads
    ensures Retires(s, DoStoreRevoked(s, t, pc), t, Target(pc))
  {
  }

  lemma ClosingRetires(s: State, t: Id, a: Action)
    requires t in s.threads && (a.Stop? || a.MarkExpired? || a.StoreRevoked?)
    ensures Retires(s, Next(s, Do(t, a)), t, Target(s.threads[t]))
  {
    hide Retires, DoStop, DoMarkExpired, DoStoreRevoked;
    StopRetires(s, t, s.threads[t]);
    MarkRetires(s, t, s.threads[t]);
    RevokeRetires(s, t, s.threads[t]);
  }

  lemma AbsentLowers(s: State, t: Id, a: Action)
    requires Inv(s) && t !in s.threads
    ensures Lowers(s, Next(s, Do(t, a)))
  {
  }

  lemma RevokeDeviceLowers(s: State, step: Step)
    requires Inv(s) && step.RevokeDevice?
    ensures Lowers(s, Next(s, step))
  {
  }

  lemma CleanupLowers(s: State, step: Step)
    requires Inv(s) && step.Cleanup?
    ensures Lowers(s, Next(s, step))
  {
  }

  lemma ClockLowers(s: State, step: Step)
    requires Inv(s) && (step.Tick? || step.RegisterDevice? || step.Evict?)
    ensures Lowers(s, Next(s, step))
  {
  }

  lemma NextLowers(s: State, step: Step)
    requires Inv(s) && !step.Start? && !(step.Do? && (step.action.Sign? || step.action.StoreNew?))
    ensures Lowers(s, Next(s, step))
  {
    hide Next, Quiet, Inv, Lowers, Retires;
    match step
    case Do(t, a) =>
      if Local(a) {
        LocalIsQuiet(s, t, a);
        QuietLowers(s, Next(s, step), t);
      } else if t in s.threads {
        ClosingRetires(s, t, a);
        RetiresLowers(s, Next(s, step), t, Target(s.threads[t]));
      } else {
        AbsentLowers(s, t, a);
      }
    case RevokeDevice(_) => RevokeDeviceLowers(s, step);
    case Cleanup => CleanupLowers(s, step);
    case Verify(t, _) =>
      EntryIsQuiet(s, step);
      QuietLowers(s, Next(s, step), t);
    case SeeActive(t, _, _) =>
      EntryIsQuiet(s, step);
      QuietLowers(s, Next(s, step), t);
    case SeeOverdue(t, _) =>
      EntryIsQuiet(s, step);
      QuietLowers(s, Next(s, step), t);
    case _ => ClockLowers(s, step);
  }

  lemma LowersKeeps(s: State, s': State)
    requires Inv(s) && Lowers(s, s')
    ensures Inv(s')
    ensures forall id, j :: Backs(s', id, j) ==> Backs(s, id, j)
  {
  }

  lemma StartKeeps(s: State, step: Step)
    requires Inv(s) && step.Start?
    ensures Inv(Next(s, step)) && s.held <= Next(s, step).held
    ensures forall id, j :: j in s.held && Backs(Next(s, step), id, j) ==> Backs(s, id, j)
  {
  }

  lemma SignKeeps(s: State, step: Step)
    requires Inv(s) && step.Do? && step.action.Sign?
    ensures Inv(Next(s, step)) && s.held <= Next(s, step).held
    ensures forall id, j :: j in s.held && Backs(Next(s, step), id, j) ==> Backs(s, id, j)
  {
  }

  lemma StoreKeeps(s: State, step: Step)
    requires Inv(s) && step.Do? && step.action.StoreNew?
    ensures Inv(Next(s, step)) && s.held <= Next(s, step).held
    ensures forall id, j :: j in s.held && Backs(Next(s, step), id, j) ==> Backs(s, id, j)
  {
  }

  /** Every step keeps the invariant, and none makes a capability that some row
      has held current again. */
  lemma StepKeeps(s: State, step: Step)
    requires Inv(s)
    ensures Inv(Next(s, step)) && s.held <= Next(s, step).held
    ensures forall id, j :: j in s.held && Backs(Next(s, step), id, j) ==> Backs(s, id, j)
  {
    if step.Start? {
      StartKeeps(s, step);
    } else if step.Do? && step.action.Sign? {
      SignKeeps(s, step);
    } else if step.Do? && step.action.StoreNew? {
      StoreKeeps(s, step);
    } else {
      NextLowers(s, step);
      LowersKeeps(s, Next(s, step));
    }
  }

  // ---------------------------------------------------------------------
  // Capabilities over whole runs

  lemma {:induction false} InvRun(s: State, steps: seq<Step>)
    requires Inv(s)
    ensures Inv(Run(s, steps)) && s.held <= Run(s, steps).held
    decreases |steps|
  {
    if steps != [] {
      StepKeeps(s, steps[0]);
      InvRun(Next(s, steps[0]), steps[1..]);
    }
  }

  /** Once superseded, expired, closed or revoked, a capability stays so under
      every interleaving. */
  lemma {:induction false} DeadForever(s: State, steps: seq<Step>, j: Id)
    requires Inv(s) && Dead(s, j)
    ensures Dead(Run(s, steps), j)
    decreases |steps|
  {
    if steps != [] {
      StepKeeps(s, steps[0]);
      DeadForever(Next(s, steps[0]), steps[1..], j);
    }
  }

  /** The deciding read accepts exactly the requests that present the current
      capability of an active, unexpired session from its own trusted device. */
  lemma DecideAcceptsOnlyCurrent(s: State, thread: Id, mediaActive: bool)
    requires Inv(s) && thread in s.threads && s.threads[thread].Authorized?
    ensures var req, s' := s.threads[thread].req, Next(s, Do(thread, Decide(mediaActive)));
      (thread in s'.threads && s'.threads[thread].Accepted?) <==>
        && mediaActive && Backs(s, req.sid, req.jti)
        && var row := s.sessions[req.sid];
        && row.uid == req.uid && s.devices[row.device].did == req.did && s.devices[row.device].fp == req.fp
  {
  }

  /** Safety over runs from the empty system: a capability that was dead after
      `before` is refused by every deciding read after any `later` steps, however
      the cache stands and whatever requests were already under way. */
  lemma DeadIsNeverAccepted(now: int, before: seq<Step>, later: seq<Step>, thread: Id, mediaActive: bool)
    ensures var s := Run(Initial(now), before);
      var u := Run(s, later);
      (thread in u.threads && u.threads[thread].Authorized? && Dead(s, u.threads[thread].req.jti)) ==>
        thread !in Next(u, Do(thread, Decide(mediaActive))).threads
  {
    InvRun(Initial(now), before);
    var s := Run(Initial(now), before);
    InvRun(s, later);
    var u := Run(s, later);
    if thread in u.threads && u.threads[thread].Authorized? && Dead(s, u.threads[thread].req.jti) {
      DeadForever(s, later, u.threads[thread].req.jti);
      DecideAcceptsOnlyCurrent(u, thread, mediaActive);
    }
  }

  /** What kills a capability: time reaching its row's expiry, ... */
  lemma ExpiryKills(s: State, id: Id, seconds: nat)
    requires Inv(s) && id in s.sessions && s.now + seconds >= s.sessions[id].expiresAt
    ensures Dead(Next(s, Tick(seconds)), s.sessions[id].jti)
  {
  }

  /** ... a rotation storing its successor, ... */
  lemma RotationKills(s: State, thread: Id, ttl: int)
    requires Inv(s) && thread in s.threads && s.threads[thread].RotateSigned? && s.threads[thread].sid in s.sessions
    ensures Dead(Next(s, Do(thread, StoreNew(ttl))), s.sessions[s.threads[thread].sid].jti)
  {
    var sid, s' := s.threads[thread].sid, Next(s, Do(thread, StoreNew(ttl)));
    StepKeeps(s, Do(thread, StoreNew(ttl)));
    forall id ensures !Backs(s', id, s.sessions[sid].jti) {
      if id != sid && id in s'.sessions {
        assert s'.sessions[id].jti == s.sessions[id].jti;
      }
    }
  }

  /** ... a stop, ... */
  lemma StopKills(s: State, thread: Id)
    requires Inv(s) && thread in s.threads && s.threads[thread].Served?
    requires var req := s.threads[thread].req; req.sid in s.sessions && s.sessions[req.sid].uid == req.uid
    ensures Dead(Next(s, Do(thread, Stop)), s.sessions[s.threads[thread].req.sid].jti)
  {
    var req, s' := s.threads[thread].req, Next(s, Do(thread, Stop));
    forall id ensures !Backs(s', id, s.sessions[req.sid].jti) {
      if id in s'.sessions {
        assert s'.sessions[id].jti == s.sessions[id].jti;
      }
    }
  }

  /** ... and revoking the device, which is not undone by registering it again. */
  lemma RevokeDeviceKills(s: State, device: Id, id: Id, later: seq<Step>)
    requires Inv(s) && device in s.devices && s.devices[device].active
    requires id in s.sessions && s.sessions[id].device == device
    ensures Dead(Run(Next(s, RevokeDevice(device)), later), s.sessions[id].jti)
  {
    var s' := Next(s, RevokeDevice(device));
    StepKeeps(s, RevokeDevice(device));
    forall k ensures !Backs(s', k, s.sessions[id].jti) {
      if k in s'.sessions {
        assert s'.sessions[k].jti == s.sessions[k].jti;
      }
    }
    DeadForever(s', later, s.sessions[id].jti);
  }

  // ---------------------------------------------------------------------
  // Calls that are not interrupted

  function Rotation(t: Id, jti: Id, ttl: int): seq<Step> {
    [Do(t, ReadOld), Do(t, Sign(jti)), Do(t, StoreNew(ttl)), Do(t, DropOld), Do(t, CacheNew)]
  }

  /** The states a rotation of `sid` passes through when nothing intervenes. */
  function Signed(s: State, t: Id, sid: Id, fp: Id, jti: Id): State
    requires sid in s.sessions && s.sessions[sid].device in s.devices
  {
    var d := s.devices[s.sessions[sid].device];
    At(s.(issued := s.issued[jti := Capability(sid, d.uid, d.did, fp)]), t, RotateSigned(sid, s.sessions[sid].jti, jti))
  }

  function Rotated(s: State, t: Id, sid: Id, fp: Id, jti: Id, ttl: int): State
    requires sid in s.sessions && s.sessions[sid].device in s.devices
  {
    var row := s.sessions[sid].(jti := jti, expiresAt := s.now + ttl);
    At(Put(Signed(s, t, sid, fp, jti), sid, row).(held := s.held + {jti}), t, RotateStored(sid, s.sessions[sid].jti, jti))
  }

  lemma FirstHalf(s: State, t: Id, sid: Id, fp: Id, jti: Id, ttl: int)
    requires t in s.threads && s.threads[t] == RotateSeen(sid, fp) && sid in s.sessions && jti !in s.issued
    requires s.sessions[sid].device in s.devices
    ensures Next(s, Do(t, ReadOld)) == At(s, t, RotateRead(sid, s.sessions[sid].jti, fp))
    ensures Next(At(s, t, RotateRead(sid, s.sessions[sid].jti, fp)), Do(t, Sign(jti))) == Signed(s, t, sid, fp, jti)
    ensures Next(Signed(s, t, sid, fp, jti), Do(t, StoreNew(ttl))) == Rotated(s, t, sid, fp, jti, ttl)
  {
  }

  lemma SecondHalf(s: State, t: Id, sid: Id, was: Id, jti: Id)
    requires t in s.threads && s.threads[t] == RotateStored(sid, was, jti) && jti in s.issued
    ensures Next(Next(s, Do(t, DropOld)), Do(t, CacheNew))
         == s.(cache := (s.cache - {was})[jti := s.issued[jti]], threads := s.threads - {t})
  {
    assert Next(s, Do(t, DropOld)) == At(s.(cache := s.cache - {was}), t, Caching(sid, jti));
    assert s.threads[t := Caching(sid, jti)] - {t} == s.threads - {t};
  }

  /** A rotation left alone replaces the capability in both stores and nothing else. */
  lemma RotationAlone(s: State, t: Id, sid: Id, fp: Id, jti: Id, ttl: int)
    requires t in s.threads && s.threads[t] == RotateSeen(sid, fp) && sid in s.sessions && jti !in s.issued
    requires s.sessions[sid].device in s.devices
    ensures var row, d := s.sessions[sid], s.devices[s.sessions[sid].device];
      var minted := Capability(sid, d.uid, d.did, fp);
      Run(s, Rotation(t, jti, ttl)) == s.(
        sessions := s.sessions[sid := row.(jti := jti, expiresAt := s.now + ttl)],
        cache := (s.cache - {row.jti})[jti := minted],
        issued := s.issued[jti := minted],
        held := s.held + {jti},
        threads := s.threads - {t})
  {
    hide Next;
    var was := s.sessions[sid].jti;
    FirstHalf(s, t, sid, fp, jti, ttl);
    var s3 := Rotated(s, t, sid, fp, jti, ttl);
    SecondHalf(s3, t, sid, was, jti);
    var s4 := Next(s3, Do(t, DropOld));
    RunFive(s, At(s, t, RotateRead(sid, was, fp)), Signed(s, t, sid, fp, jti), s3, s4, Next(s4, Do(t, CacheNew)), Rotation(t, jti, ttl));
    assert s3.threads - {t} == s.threads - {t};
  }

  lemma RunFive(s0: State, s1: State, s2: State, s3: State, s4: State, s5: State, steps: seq<Step>)
    requires |steps| == 5 && Next(s0, steps[0]) == s1 && Next(s1, steps[1]) == s2 && Next(s2, steps[2]) == s3
    requires Next(s3, steps[3]) == s4 && Next(s4, steps[4]) == s5
    ensures Run(s0, steps) == s5
  {
    hide Next;
    assert steps[1..][1..] == steps[2..] && steps[2..][1..] == steps[3..] && steps[3..][1..] == steps[4..];
    assert Run(s4, steps[4..]) == Run(s5, steps[4..][1..]);
    assert Run(s3, steps[3..]) == Run(s4, steps[4..]);
    assert Run(s2, steps[2..]) == Run(s3, steps[3..]);
    assert Run(s1, steps[1..]) == Run(s2, steps[2..]);
  }

  /** What the whole of `validateCapability` answers when nothing intervenes. */
  datatype Outcome = Refused | Revoking | Allowed

  function Verdict(s: State, req: Request, policyAllows: bool, scopeMatches: bool, mediaActive: bool): Outcome
    requires req.jti in s.issued
  {
    var cached := req.jti in s.cache && s.cache[req.jti].sid == req.sid && s.cache[req.jti].uid == req.uid;
    if !cached then Refused
    else if s.issued[req.jti].fp != req.fp || s.cache[req.jti].fp != req.fp then Revoking
    else if !policyAllows then Refused
    else if !scopeMatches then Revoking
    else if Decides(s, req) && mediaActive then Allowed
    else Refused
  }

  function Validation(t: Id, policyAllows: bool, scopeMatches: bool, mediaActive: bool): seq<Step> {
    [Do(t, ReadCache), Do(t, CheckFingerprint(policyAllows, scopeMatches)), Do(t, Decide(mediaActive)), Do(t, WriteBack)]
  }

  lemma CacheIsRead(s: State, t: Id, req: Request)
    requires t in s.threads && s.threads[t] == Verified(req)
    ensures Next(s, Do(t, ReadCache)) ==
      if req.jti in s.cache && s.cache[req.jti].sid == req.sid && s.cache[req.jti].uid == req.uid
      then At(s, t, Cached(req, s.cache[req.jti])) else Gone(s, t)
  {
  }

  lemma FingerprintIsChecked(s: State, t: Id, req: Request, entry: Capability, policyAllows: bool, scopeMatches: bool)
    requires req.jti in s.issued
    ensures Next(At(s, t, Cached(req, entry)), Do(t, CheckFingerprint(policyAllows, scopeMatches))) ==
      if s.issued[req.jti].fp != req.fp || entry.fp != req.fp then At(s, t, RevokeSeen(req.sid, false))
      else if !policyAllows then Gone(s, t)
      else if !scopeMatches then At(s, t, RevokeSeen(req.sid, false))
      else At(s, t, Authorized(req, entry))
  {
    var c := At(s, t, Cached(req, entry));
    assert c.threads[t := RevokeSeen(req.sid, false)] == s.threads[t := RevokeSeen(req.sid, false)];
    assert c.threads[t := Authorized(req, entry)] == s.threads[t := Authorized(req, entry)];
    assert c.threads - {t} == s.threads - {t};
  }

  lemma RowDecides(s: State, t: Id, req: Request, entry: Capability, mediaActive: bool)
    ensures Next(At(s, t, Authorized(req, entry)), Do(t, Decide(mediaActive))) ==
      if Decides(s, req) && mediaActive then At(s, t, Accepted(req, entry)) else Gone(s, t)
  {
    var c := At(s, t, Authorized(req, entry));
    assert Decides(c, req) == Decides(s, req);
    hide Decides;
    assert c.threads[t := Accepted(req, entry)] == s.threads[t := Accepted(req, entry)];
    assert c.threads - {t} == s.threads - {t};
  }

  lemma EntryIsWritten(s: State, t: Id, req: Request, entry: Capability)
    ensures Next(At(s, t, Accepted(req, entry)), Do(t, WriteBack)) ==
      s.(cache := s.cache[req.jti := entry], threads := s.threads[t := Served(req)])
  {
    assert s.threads[t := Accepted(req, entry)][t := Served(req)] == s.threads[t := Served(req)];
  }

  /** A thread that is gone, or about to revoke, does nothing more of a validation. */
  lemma NothingMore(s: State, t: Id, action: Action)
    requires t !in s.threads || (s.threads[t].RevokeSeen? && (action.CheckFingerprint? || action.Decide? || action.WriteBack?))
    ensures Next(s, Do(t, action)) == s
  {
  }

  /** A validation left alone ends in exactly one of three ways; only a success
      writes, and it writes the capability back to the cache. */
  lemma ValidationAlone(s: State, t: Id, req: Request, policyAllows: bool, scopeMatches: bool, mediaActive: bool)
    requires t in s.threads && s.threads[t] == Verified(req) && req.jti in s.issued
    ensures var u := Run(s, Validation(t, policyAllows, scopeMatches, mediaActive));
      match Verdict(s, req, policyAllows, scopeMatches, mediaActive)
      case Refused => u == s.(threads := s.threads - {t})
      case Revoking => u == s.(threads := s.threads[t := RevokeSeen(req.sid, false)])
      case Allowed => u == s.(cache := s.cache[req.jti := s.cache[req.jti]], threads := s.threads[t := Served(req)])
  {
    hide Decides, Next, Run;
    var steps := Validation(t, policyAllows, scopeMatches, mediaActive);
    var s1 := Next(s, steps[0]);
    var s2 := Next(s1, steps[1]);
    var s3 := Next(s2, steps[2]);
    var s4 := Next(s3, steps[3]);
    RunFour(s, s1, s2, s3, s4, steps);
    CacheIsRead(s, t, req);
    if req.jti in s.cache && s.cache[req.jti].sid == req.sid && s.cache[req.jti].uid == req.uid {
      FingerprintIsChecked(s, t, req, s.cache[req.jti], policyAllows, scopeMatches);
      RowDecides(s, t, req, s.cache[req.jti], mediaActive);
      EntryIsWritten(s, t, req, s.cache[req.jti]);
    }
    if t !in s1.threads {
      NothingMore(s1, t, steps[1].action);
    }
    if t !in s2.threads || s2.threads[t].RevokeSeen? {
      NothingMore(s2, t, steps[2].action);
    }
    if t !in s3.threads || s3.threads[t].RevokeSeen? {
      NothingMore(s3, t, steps[3].action);
    }
  }

  lemma RunFour(s0: State, s1: State, s2: State, s3: State, s4: State, steps: seq<Step>)
    requires |steps| == 4 && Next(s0, steps[0]) == s1 && Next(s1, steps[1]) == s2 && Next(s2, steps[2]) == s3
    requires Next(s3, steps[3]) == s4
    ensures Run(s0, steps) == s4
  {
    hide Next;
    assert steps[1..][1..] == steps[2..] && steps[2..][1..] == steps[3..];
    assert Run(s3, steps[3..]) == Run(s4, steps[3..][1..]);
    assert Run(s2, steps[2..]) == Run(s3, steps[3..]);
    assert Run(s1, steps[1..]) == Run(s2, steps[2..]);
  }

  /** A stop left alone closes the row and removes its cache entry. */
  lemma StopAlone(s: State, t: Id, sid: Id)
    requires t in s.threads && sid in s.sessions && s.threads[t].Served?
    requires s.threads[t].req.sid == sid && s.threads[t].req.uid == s.sessions[sid].uid
    ensures var row := s.sessions[sid];
      Run(s, [Do(t, Stop), Do(t, ReadToRevoke), Do(t, Drop)]) == s.(
        sessions := s.sessions[sid := if row.status == Active then row.(status := Closed) else row],
        cache := s.cache - {row.jti}, threads := s.threads - {t})
  {
    var row := s.sessions[sid];
    var closed := Put(s, sid, if row.status == Active then row.(status := Closed) else row);
    assert Next(s, Do(t, Stop)) == At(closed, t, Unlinking(sid));
    DropAlone(closed, t, sid, row.jti, [Do(t, Stop), Do(t, ReadToRevoke), Do(t, Drop)], s);
  }

  lemma UnlinkReads(s: State, t: Id, sid: Id)
    requires sid in s.sessions
    ensures Next(At(s, t, Unlinking(sid)), Do(t, ReadToRevoke)) == At(s, t, Dropping(s.sessions[sid].jti))
  {
    var jti := s.sessions[sid].jti;
    assert s.threads[t := Unlinking(sid)][t := Dropping(jti)] == s.threads[t := Dropping(jti)];
  }

  lemma DropAlone(c: State, t: Id, sid: Id, jti: Id, steps: seq<Step>, s: State)
    requires sid in c.sessions && c.sessions[sid].jti == jti && |steps| == 3
    requires Next(s, steps[0]) == At(c, t, Unlinking(sid)) && steps[1..] == [Do(t, ReadToRevoke), Do(t, Drop)]
    ensures Run(s, steps) == c.(cache := c.cache - {jti}, threads := c.threads - {t})
  {
    hide Next, Run;
    var s1, s2 := At(c, t, Unlinking(sid)), At(c, t, Dropping(jti));
    assert steps[1] == steps[1..][0] && steps[2] == steps[1..][1];
    UnlinkReads(c, t, sid);
    RevokeDrops(s2, t, jti);
    assert s2.threads - {t} == c.threads - {t};
    RunThree(s, s1, s2, Next(s2, Do(t, Drop)), steps);
  }

  lemma RevokeReads(s: State, t: Id, sid: Id, overdue: bool)
    requires t in s.threads && sid in s.sessions && s.threads[t] == RevokeSeen(sid, overdue)
    ensures Next(s, Do(t, ReadToRevoke)) == At(s, t, RevokeRead(sid, s.sessions[sid].jti, overdue))
  {
  }

  lemma RevokeStores(s: State, t: Id, sid: Id, jti: Id, overdue: bool)
    requires t in s.threads && sid in s.sessions && s.threads[t] == RevokeRead(sid, jti, overdue)
    ensures Next(s, Do(t, StoreRevoked))
         == At(Put(s, sid, s.sessions[sid].(status := if overdue then Expired else Revoked)), t, Dropping(jti))
  {
  }

  lemma RevokeDrops(s: State, t: Id, jti: Id)
    requires t in s.threads && s.threads[t] == Dropping(jti)
    ensures Next(s, Do(t, Drop)) == s.(cache := s.cache - {jti}, threads := s.threads - {t})
  {
  }

  /** A revocation left alone marks the row and removes its cache entry. */
  lemma RevocationAlone(s: State, t: Id, sid: Id, overdue: bool)
    requires t in s.threads && sid in s.sessions && s.threads[t] == RevokeSeen(sid, overdue)
    ensures var row := s.sessions[sid];
      Run(s, [Do(t, ReadToRevoke), Do(t, StoreRevoked), Do(t, Drop)]) == s.(
        sessions := s.sessions[sid := row.(status := if overdue then Expired else Revoked)],
        cache := s.cache - {row.jti}, threads := s.threads - {t})
  {
    hide Next, Run;
    var row := s.sessions[sid];
    var s1 := At(s, t, RevokeRead(sid, row.jti, overdue));
    var s2 := At(Put(s1, sid, row.(status := if overdue then Expired else Revoked)), t, Dropping(row.jti));
    RevokeReads(s, t, sid, overdue);
    RevokeStores(s1, t, sid, row.jti, overdue);
    RevokeDrops(s2, t, row.jti);
    assert s2.threads - {t} == s.threads - {t};
    RunThree(s, s1, s2, Next(s2, Do(t, Drop)), [Do(t, ReadToRevoke), Do(t, StoreRevoked), Do(t, Drop)]);
  }

  lemma OverdueIsMarked(s: State, t: Id, sid: Id)
    requires t in s.threads && s.threads[t] == ExpireSeen(sid) && sid in s.sessions
    ensures var row := s.sessions[sid];
      Next(s, Do(t, MarkExpired)) ==
        if row.status == Active && row.expiresAt <= s.now
        then At(Put(s, sid, row.(status := Expired)), t, RevokeSeen(sid, true)) else At(s, t, RevokeSeen(sid, true))
  {
  }

  /** An expiry left alone marks the row expired and removes its cache entry. */
  lemma ExpiryAlone(s: State, t: Id, sid: Id)
    requires t in s.threads && s.threads[t] == ExpireSeen(sid) && sid in s.sessions
    ensures Run(s, [Do(t, MarkExpired), Do(t, ReadToRevoke), Do(t, StoreRevoked), Do(t, Drop)]) == s.(
      sessions := s.sessions[sid := s.sessions[sid].(status := Expired)],
      cache := s.cache - {s.sessions[sid].jti}, threads := s.threads - {t})
  {
    hide Next;
    var steps := [Do(t, MarkExpired), Do(t, ReadToRevoke), Do(t, StoreRevoked), Do(t, Drop)];
    var s1 := Next(s, steps[0]);
    OverdueIsMarked(s, t, sid);
    RevocationAlone(s1, t, sid, true);
    assert steps[1..] == [Do(t, ReadToRevoke), Do(t, StoreRevoked), Do(t, Drop)];
    assert Run(s, steps) == Run(s1, steps[1..]);
    hide Run;
    assert s1.threads - {t} == s.threads - {t};
    assert s1.sessions[sid := s1.sessions[sid].(status := Expired)] == s.sessions[sid := s.sessions[sid].(status := Expired)];
  }

  /** Without a row there is nothing to revoke. */
  lemma RevocationAbsent(s: State, t: Id, sid: Id, overdue: bool)
    requires t in s.threads && sid !in s.sessions && s.threads[t] == RevokeSeen(sid, overdue)
    ensures Run(s, [Do(t, ReadToRevoke), Do(t, StoreRevoked), Do(t, Drop)]) == s.(threads := s.threads - {t})
  {
    var gone := Gone(s, t);
    assert Next(s, Do(t, ReadToRevoke)) == gone;
    NothingMore(gone, t, StoreRevoked);
    NothingMore(gone, t, Drop);
    hide Next, Run;
    RunThree(s, gone, gone, gone, [Do(t, ReadToRevoke), Do(t, StoreRevoked), Do(t, Drop)]);
  }

  lemma RunThree(s0: State, s1: State, s2: State, s3: State, steps: seq<Step>)
    requires |steps| == 3 && Next(s0, steps[0]) == s1 && Next(s1, steps[1]) == s2 && Next(s2, steps[2]) == s3
    ensures Run(s0, steps) == s3
  {
    hide Next;
    assert steps[1..][1..] == steps[2..];
    assert Run(s2, steps[2..]) == Run(s3, steps[2..][1..]);
    assert Run(s1, steps[1..]) == Run(s2, steps[2..]);
  }

  /** The cache alone would not do: a validation that was accepted before a
      rotation puts the superseded capability back into the cache after it. */
  lemma StaleEntryReappears(s: State, t: Id, u: Id, sid: Id, fp: Id, jti: Id, ttl: int)
    requires Inv(s) && t in s.threads && u in s.threads && t != u
    requires s.threads[t].Accepted? && s.threads[t].req.sid == sid && s.threads[u] == RotateSeen(sid, fp)
    requires Backs(s, sid, s.threads[t].req.jti) && jti !in s.issued
    ensures var was := s.threads[t].req.jti;
      var after := Next(Run(s, Rotation(u, jti, ttl)), Do(t, WriteBack));
      was in after.cache && Dead(after, was)
  {
    var was := s.threads[t].req.jti;
    RotationAlone(s, u, sid, fp, jti, ttl);
    var r := Run(s, Rotation(u, jti, ttl));
    assert r.threads[t] == s.threads[t] && was in r.issued;
    var after := Next(r, Do(t, WriteBack));
    assert after.sessions == r.sessions && after.held == r.held;
    forall id ensures !Backs(after, id, was) {
      if id in after.sessions && id != sid {
        assert after.sessions[id] == s.sessions[id];
      }
    }
  }
}
