/** Refresh-token rotation, revocation and cleanup
    (src/auth/auth.service.ts:76-113, 129-133, 166-185; src/users/users.service.ts:59-83;
    src/common/auth/jwt.strategy.ts:33-58; scripts/maintenance-cleanup.ts:17-19).
    A refresh is two steps, its read and its transaction; they interleave freely
    with everything else. Tokens are random and stored hashed, so a token is named
    by the session it was issued for. */
module RefreshSessions {
  import opened Text

  type Id = nat

  datatype User = User(active: bool, deleted: bool)

  datatype Session = Session(uid: Id, revoked: bool, expiresAt: int, replacedBy: Option<Id>)

  /** A refresh between its read and its write. */
  datatype Pending = Consume(sid: Id) | Replay(uid: Id)

  /** A committed refresh. */
  datatype Rotation = Rotation(consumed: Id, minted: Id)

  datatype State = State(
    now: int,
    users: map<Id, User>,
    sessions: map<Id, Session>,
    pending: map<Id, Pending>,
    next: Id,                 // ids are drawn in order; `randomUUID` never repeats
    log: seq<Rotation>)

  datatype Event =
    | Tick(seconds: nat)
    | Register(uid: Id)
    | Issue(uid: Id, ttl: int)
    | RefreshRead(thread: Id, token: Id)
    | RefreshWrite(thread: Id, ttl: int)
    | Logout(token: Id)
    | LogoutAll(uid: Id)
    | RevokeSession(uid: Id, sid: Id)
    | ChangePassword(uid: Id, sid: Id, matches: bool)
    | SetStatus(actor: Id, uid: Id, active: bool)
    | RemoveUser(actor: Id, uid: Id)
    | Validate(uid: Id, sid: Id)
    | RegisterDevice(uid: Id, sid: Id)
    | Cleanup

  /** What the caller sees; `Revoked` names the sessions an update changed. */
  datatype Reply = Silent | Denied | Granted | Reading | Minted(sid: Id) | Revoked(ids: set<Id>)

  datatype Result = Result(state: State, reply: Reply)

  // ---------------------------------------------------------------------
  // Steps

  /** The unrevoked sessions of `uid`, except `keep`. */
  function Live(s: State, uid: Id, keep: Option<Id>): set<Id> {
    set id | id in s.sessions && s.sessions[id].uid == uid && !s.sessions[id].revoked && Some(id) != keep
  }

  function RevokeIn(s: State, ids: set<Id>): State {
    s.(sessions := map id | id in s.sessions ::
         if id in ids then s.sessions[id].(revoked := true) else s.sessions[id])
  }

  function Add(s: State, uid: Id, ttl: int): State {
    s.(sessions := s.sessions[s.next := Session(uid, false, s.now + ttl, None)], next := s.next + 1)
  }

  predicate UserActive(s: State, uid: Id) { uid in s.users && s.users[uid].active && !s.users[uid].deleted }

  /** The session test of `JwtStrategy.validate`. */
  predicate Accepts(s: State, uid: Id, sid: Id) {
    && sid in s.sessions && s.sessions[sid].uid == uid && !s.sessions[sid].revoked && s.sessions[sid].expiresAt > s.now
    && UserActive(s, uid)
  }

  function Read(s: State, thread: Id, token: Id): Result {
    if thread in s.pending then Result(s, Silent)
    else if token !in s.sessions || !UserActive(s, s.sessions[token].uid) || s.sessions[token].expiresAt <= s.now
    then Result(s, Denied)
    else if s.sessions[token].revoked
    then Result(s.(pending := s.pending[thread := Replay(s.sessions[token].uid)]), Reading)
    else Result(s.(pending := s.pending[thread := Consume(token)]), Reading)
  }

  /** Creates the replacement, then revokes the consumed session and links it. */
  function Linked(s: State, sid: Id, ttl: int): State
    requires sid in s.sessions
  {
    var added := Add(s, s.sessions[sid].uid, ttl);
    var used := s.sessions[sid].(revoked := true, replacedBy := Some(s.next));
    added.(sessions := added.sessions[sid := used], log := s.log + [Rotation(sid, s.next)])
  }

  /** The write that follows the read: the replay's mass revocation, or the
      transaction that links the replacement to a session still unrevoked. */
  function Write(s: State, thread: Id, ttl: int): Result {
    if thread !in s.pending then Result(s, Silent)
    else
      var rest := s.(pending := s.pending - {thread});
      match s.pending[thread]
      case Replay(uid) => Result(RevokeIn(rest, Live(rest, uid, None)), Denied)
      case Consume(sid) =>
        if sid !in s.sessions || s.sessions[sid].revoked then Result(rest, Denied)
        else Result(Linked(rest, sid, ttl), Minted(s.next))
  }

  predicate Stale(s: State, id: Id) { id in s.sessions && s.sessions[id].revoked && s.sessions[id].expiresAt < s.now }

  /** Deletes the expired revoked sessions; the foreign key clears links to them. */
  function Clean(s: State): State {
    s.(sessions := map id | id in s.sessions && !Stale(s, id) ::
         var r := s.sessions[id];
         if r.replacedBy.Some? && Stale(s, r.replacedBy.value) then r.(replacedBy := None) else r)
  }

  function Step(s: State, e: Event): Result {
    match e
    case Tick(seconds) => Result(s.(now := s.now + seconds), Silent)
    case Register(uid) => if uid in s.users then Result(s, Denied) else Result(s.(users := s.users[uid := User(true, false)]), Granted)
    case Issue(uid, ttl) => if uid in s.users then Result(Add(s, uid, ttl), Minted(s.next)) else Result(s, Denied)
    case RefreshRead(thread, token) => Read(s, thread, token)
    case RefreshWrite(thread, ttl) => Write(s, thread, ttl)
    case Logout(token) =>
      var ids := if token in s.sessions && !s.sessions[token].revoked then {token} else {};
      Result(RevokeIn(s, ids), Revoked(ids))
    case LogoutAll(uid) => Result(RevokeIn(s, Live(s, uid, None)), Revoked(Live(s, uid, None)))
    case RevokeSession(uid, sid) =>
      var ids := if sid in Live(s, uid, None) then {sid} else {};
      Result(RevokeIn(s, ids), Revoked(ids))
    case ChangePassword(uid, sid, matches) =>
      if uid !in s.users || s.users[uid].deleted || !matches then Result(s, Denied)
      else Result(RevokeIn(s, Live(s, uid, Some(sid))), Revoked(Live(s, uid, Some(sid))))
    case SetStatus(actor, uid, active) =>
      if actor == uid && !active then Result(s, Denied)
      else if uid !in s.users || s.users[uid].deleted then Result(s, Denied)
      else
        var t := s.(users := s.users[uid := s.users[uid].(active := active)]);
        if active then Result(t, Granted) else Result(RevokeIn(t, Live(s, uid, None)), Revoked(Live(s, uid, None)))
    case RemoveUser(actor, uid) =>
      var live := Live(s, uid, None);
      if actor == uid then Result(s, Denied)
      else if uid in s.users && !s.users[uid].deleted
      then Result(RevokeIn(s.(users := s.users[uid := User(false, true)]), live), Revoked(live))
      else Result(RevokeIn(s, live), Denied)
    case Validate(uid, sid) => Result(s, if Accepts(s, uid, sid) then Granted else Denied)
    case RegisterDevice(uid, sid) => Result(s, if sid in Live(s, uid, None) then Granted else Denied)
    case Cleanup => Result(Clean(s), Silent)
  }

  function Initial(now: int): State { State(now, map[], map[], map[], 0, []) }

  function Run(s: State, events: seq<Event>): State
    decreases |events|
  {
    if events == [] then s else Run(Step(s, events[0]).state, events[1..])
  }

  // ---------------------------------------------------------------------
  // Rotation chains

  /** Links lead from a revoked session to a later one of the same user, and no
      two sessions have the same replacement. */
  ghost predicate Chained(s: State) {
    && (forall id :: id in s.sessions ==> id < s.next)
    && (forall id :: id in s.sessions && s.sessions[id].replacedBy.Some? ==>
          var to := s.sessions[id].replacedBy.value;
          s.sessions[id].revoked && id < to && to in s.sessions && s.sessions[to].uid == s.sessions[id].uid)
    && (forall a, b ::
          (a in s.sessions && b in s.sessions && s.sessions[a].replacedBy.Some?
           && s.sessions[a].replacedBy == s.sessions[b].replacedBy) ==> a == b)
  }

  /** Revoked, or revoked and since deleted. */
  ghost predicate Used(s: State, id: Id) { id < s.next && (id !in s.sessions || s.sessions[id].revoked) }

  /** No session was consumed twice, and a consumed one stays used. */
  ghost predicate Logged(s: State) {
    && (forall i :: 0 <= i < |s.log| ==> Used(s, s.log[i].consumed) && s.log[i].consumed < s.log[i].minted < s.next)
    && (forall i, j :: 0 <= i < j < |s.log| ==> s.log[i].consumed != s.log[j].consumed && s.log[i].minted < s.log[j].minted)
  }

  ghost predicate Inv(s: State) { Chained(s) && Logged(s) }

  ghost predicate StillUsed(s: State, t: State) { forall id :: Used(s, id) ==> Used(t, id) }

  lemma RevokeKeeps(s: State, ids: set<Id>)
    requires Inv(s)
    ensures Inv(RevokeIn(s, ids)) && StillUsed(s, RevokeIn(s, ids))
  {
  }

  lemma CleanKeeps(s: State)
    requires Inv(s)
    ensures Inv(Clean(s)) && StillUsed(s, Clean(s))
  {
  }

  lemma AddKeeps(s: State, uid: Id, ttl: int)
    requires Inv(s)
    ensures Inv(Add(s, uid, ttl)) && StillUsed(s, Add(s, uid, ttl))
  {
  }

  lemma LinkFrames(s: State, sid: Id, ttl: int)
    requires Chained(s) && sid in s.sessions && !s.sessions[sid].revoked
    ensures var t := Linked(s, sid, ttl);
      && t.next == s.next + 1 && t.sessions[s.next].replacedBy == None && t.sessions[s.next].uid == s.sessions[sid].uid
      && t.sessions[sid] == s.sessions[sid].(revoked := true, replacedBy := Some(s.next))
      && (forall id :: id in t.sessions <==> id == s.next || id in s.sessions)
      && (forall id :: id in s.sessions && id != sid ==> t.sessions[id] == s.sessions[id])
  {
  }

  lemma LinkChains(s: State, sid: Id, ttl: int)
    requires Chained(s) && sid in s.sessions && !s.sessions[sid].revoked
    ensures Chained(Linked(s, sid, ttl)) && StillUsed(s, Linked(s, sid, ttl))
  {
    hide Linked;
    LinkFrames(s, sid, ttl);
  }

  lemma LinkLogs(s: State, sid: Id, ttl: int)
    requires Inv(s) && sid in s.sessions && !s.sessions[sid].revoked
    ensures Logged(Linked(s, sid, ttl)) && s.log <= Linked(s, sid, ttl).log
  {
    hide Chained;
    assert sid < s.next by {
      ChainedIds(s, sid);
    }
    var t := Linked(s, sid, ttl);
    assert forall i :: 0 <= i < |s.log| ==> t.log[i] == s.log[i] && s.log[i].consumed != sid;
  }

  lemma ChainedIds(s: State, id: Id)
    requires Chained(s) && id in s.sessions
    ensures id < s.next
  {
  }

  lemma LinkKeeps(s: State, sid: Id, ttl: int)
    requires Inv(s) && sid in s.sessions && !s.sessions[sid].revoked
    ensures Inv(Linked(s, sid, ttl)) && StillUsed(s, Linked(s, sid, ttl)) && s.log <= Linked(s, sid, ttl).log
  {
    hide Chained, Logged, StillUsed, Linked;
    LinkChains(s, sid, ttl);
    LinkLogs(s, sid, ttl);
  }

  /** Everything but the sessions, their ids and the log is beside the point. */
  lemma Framed(s: State, t: State)
    requires Inv(s) && t.sessions == s.sessions && t.next == s.next && t.log == s.log
    ensures Inv(t) && StillUsed(s, t)
  {
  }

  lemma WriteKeeps(s: State, thread: Id, ttl: int)
    requires Inv(s)
    ensures var t := Write(s, thread, ttl).state; Inv(t) && StillUsed(s, t) && s.log <= t.log
  {
    hide Inv, StillUsed, RevokeIn, Linked, Live;
    var rest := s.(pending := s.pending - {thread});
    Framed(s, rest);
    SelfKeeps(s);
    if thread in s.pending {
      match s.pending[thread]
      case Replay(uid) =>
        RevokeKeeps(rest, Live(rest, uid, None));
        RevokeFrames(rest, Live(rest, uid, None));
        UsedThrough(s, rest, RevokeIn(rest, Live(rest, uid, None)));
      case Consume(sid) =>
        if sid in s.sessions && !s.sessions[sid].revoked {
          LinkKeeps(rest, sid, ttl);
          UsedThrough(s, rest, Linked(rest, sid, ttl));
        }
    }
  }

  lemma RevokeFrames(s: State, ids: set<Id>)
    ensures RevokeIn(s, ids).log == s.log
  {
  }

  lemma SelfKeeps(s: State)
    ensures StillUsed(s, s)
  {
  }

  lemma UsedThrough(s: State, t: State, u: State)
    requires StillUsed(s, t) && StillUsed(t, u)
    ensures StillUsed(s, u)
  {
  }

  /** Every step keeps the chains and the log, and none undoes a revocation. */
  lemma StepKeeps(s: State, e: Event)
    requires Inv(s)
    ensures var t := Step(s, e).state; Inv(t) && StillUsed(s, t) && s.log <= t.log
  {
    hide Inv, StillUsed, RevokeIn, Write, Clean, Live, Add, Accepts;
    SelfKeeps(s);
    match e
    case Tick(seconds) => Framed(s, s.(now := s.now + seconds));
    case Issue(uid, ttl) =>
      AddKeeps(s, uid, ttl);
      AddFrames(s, uid, ttl);
    case RefreshRead(thread, token) => Framed(s, Read(s, thread, token).state);
    case RefreshWrite(thread, ttl) => WriteKeeps(s, thread, ttl);
    case Cleanup =>
      CleanKeeps(s);
      CleanFrames(s);
    case Register(uid) => Framed(s, Step(s, e).state);
    case Validate(_, _) =>
    case RegisterDevice(_, _) =>
    case _ => RevokingKeeps(s, e);
  }

  lemma AddFrames(s: State, uid: Id, ttl: int)
    ensures Add(s, uid, ttl).log == s.log
  {
  }

  lemma CleanFrames(s: State)
    ensures Clean(s).log == s.log
  {
  }

  lemma RevokingKeeps(s: State, e: Event)
    requires Inv(s)
    requires e.Logout? || e.LogoutAll? || e.RevokeSession? || e.ChangePassword? || e.SetStatus? || e.RemoveUser?
    ensures var t := Step(s, e).state; Inv(t) && StillUsed(s, t) && s.log <= t.log
  {
    hide Inv, StillUsed, RevokeIn, Live;
    SelfKeeps(s);
    match e
    case Logout(token) => RevokeAll(s, s.users, if token in s.sessions && !s.sessions[token].revoked then {token} else {});
    case LogoutAll(uid) => RevokeAll(s, s.users, Live(s, uid, None));
    case RevokeSession(uid, sid) => RevokeAll(s, s.users, if sid in Live(s, uid, None) then {sid} else {});
    case ChangePassword(uid, sid, _) => RevokeAll(s, s.users, Live(s, uid, Some(sid)));
    case SetStatus(actor, uid, active) =>
      Framed(s, Step(s, SetStatus(actor, uid, true)).state);
      if uid in s.users {
        var u := s.users[uid].(active := active);
        Framed(s, s.(users := s.users[uid := u]));
        RevokeAll(s, s.users[uid := u], Live(s, uid, None));
      }
    case RemoveUser(_, uid) =>
      RevokeAll(s, s.users, Live(s, uid, None));
      RevokeAll(s, s.users[uid := User(false, true)], Live(s, uid, None));
  }

  lemma RevokeAll(s: State, users: map<Id, User>, ids: set<Id>)
    requires Inv(s)
    ensures var t := RevokeIn(s.(users := users), ids); Inv(t) && StillUsed(s, t) && s.log <= t.log
    ensures s.(users := s.users) == s
  {
    hide Inv, StillUsed, RevokeIn;
    var base := s.(users := users);
    Framed(s, base);
    RevokeKeeps(base, ids);
    UsedThrough(s, base, RevokeIn(base, ids));
    RevokeFrames(base, ids);
  }

  lemma {:induction false} RunKeeps(s: State, events: seq<Event>)
    requires Inv(s)
    ensures var t := Run(s, events); Inv(t) && StillUsed(s, t) && s.log <= t.log
    decreases |events|
  {
    if events != [] {
      StepKeeps(s, events[0]);
      RunKeeps(Step(s, events[0]).state, events[1..]);
    }
  }

  /** Revocation is never undone, and a session revoked, or revoked and deleted,
      before any `later` steps is consumed by no refresh among them, even one
      that had already read it. */
  lemma RevokedForever(s: State, later: seq<Event>, id: Id)
    requires Inv(s) && Used(s, id)
    ensures var t := Run(s, later);
      && (id !in t.sessions || t.sessions[id].revoked)
      && forall i :: |s.log| <= i < |t.log| ==> t.log[i].consumed != id
    decreases |later|
  {
    RunKeeps(s, later);
    if later != [] {
      var u := Step(s, later[0]).state;
      StepKeeps(s, later[0]);
      LogGrowth(s, later[0]);
      RevokedForever(u, later[1..], id);
      RunKeeps(u, later[1..]);
    }
  }

  /** Sessions of a suspended user stay dead whatever follows, reactivation and
      refreshes that had already read them included. */
  lemma SuspensionIsFinal(s: State, actor: Id, uid: Id, id: Id, later: seq<Event>)
    requires Inv(s) && actor != uid && uid in s.users && !s.users[uid].deleted && id in s.sessions && s.sessions[id].uid == uid
    ensures var t := Step(s, SetStatus(actor, uid, false)).state;
      var u := Run(t, later);
      && !Accepts(u, uid, id)
      && (forall i :: |t.log| <= i < |u.log| ==> u.log[i].consumed != id)
  {
    var t := Step(s, SetStatus(actor, uid, false)).state;
    StepKeeps(s, SetStatus(actor, uid, false));
    assert Used(t, id) by {
      ChainedIds(s, id);
    }
    RevokedForever(t, later, id);
  }

  /** A step logs at most one refresh, of a session present and unrevoked. */
  lemma LogGrowth(s: State, e: Event)
    ensures var t := Step(s, e).state;
      t.log == s.log
      || exists c :: c in s.sessions && !s.sessions[c].revoked && t.log == s.log + [Rotation(c, s.next)]
  {
    hide Live, Clean;
    CleanFrames(s);
    if e.RefreshWrite? && e.thread in s.pending && s.pending[e.thread].Consume? {
      var c := s.pending[e.thread].sid;
      if c in s.sessions && !s.sessions[c].revoked {
        assert Step(s, e).state.log == s.log + [Rotation(c, s.next)];
      }
    }
  }

  /** In every reachable state each session was consumed by at most one refresh. */
  lemma ConsumedOnce(now: int, events: seq<Event>, i: nat, j: nat)
    requires var log := Run(Initial(now), events).log; i < |log| && j < |log| && log[i].consumed == log[j].consumed
    ensures i == j
  {
    RunKeeps(Initial(now), events);
  }

  // ---------------------------------------------------------------------
  // Chains are linear

  /** The session `n` replacements after `id`. */
  function Follow(s: State, id: Id, n: nat): Option<Id> {
    if id !in s.sessions then None
    else if n == 0 then Some(id)
    else
      var before := Follow(s, id, n - 1);
      if before.None? || before.value !in s.sessions then None else s.sessions[before.value].replacedBy
  }

  lemma {:induction false} FollowAdvances(s: State, a: Id, n: nat)
    requires Chained(s) && Follow(s, a, n).Some?
    ensures var b := Follow(s, a, n).value;
      b in s.sessions && a in s.sessions && s.sessions[b].uid == s.sessions[a].uid && a <= b && (n > 0 ==> a < b && s.sessions[a].revoked)
  {
    if n > 0 {
      FollowAdvances(s, a, n - 1);
    }
  }

  /** Two sessions whose chains meet lie on one chain: there is no branching in
      either direction. */
  lemma {:induction false} ChainIsLinear(s: State, a: Id, m: nat, b: Id, n: nat)
    requires Chained(s) && m >= n && Follow(s, a, m).Some? && Follow(s, a, m) == Follow(s, b, n)
    ensures Follow(s, a, m - n) == Some(b)
  {
    if n > 0 {
      var p, q := Follow(s, a, m - 1).value, Follow(s, b, n - 1).value;
      FollowAdvances(s, a, m - 1);
      FollowAdvances(s, b, n - 1);
      assert s.sessions[p].replacedBy == s.sessions[q].replacedBy;
      ChainIsLinear(s, a, m - 1, b, n - 1);
    } else {
      assert b in s.sessions;
    }
  }

  // ---------------------------------------------------------------------
  // Families, by the log of refreshes that cleanup leaves alone

  /** The session a refresh of `id` minted. */
  function Heir(log: seq<Rotation>, id: Id): Option<Id> {
    if log == [] then None
    else if log[|log| - 1].consumed == id then Some(log[|log| - 1].minted)
    else Heir(log[..|log| - 1], id)
  }

  /** The session `n` refreshes after `id`. */
  function Descend(log: seq<Rotation>, id: Id, n: nat): Option<Id> {
    if n == 0 then Some(id)
    else
      var before := Descend(log, id, n - 1);
      if before.None? then None else Heir(log, before.value)
  }

  lemma {:induction false} HeirIsLogged(log: seq<Rotation>, id: Id)
    requires Heir(log, id).Some?
    ensures exists i :: 0 <= i < |log| && log[i].consumed == id && log[i].minted == Heir(log, id).value
  {
    var n := |log| - 1;
    if log[n].consumed != id {
      HeirIsLogged(log[..n], id);
      var i :| 0 <= i < n && log[..n][i].consumed == id && log[..n][i].minted == Heir(log, id).value;
      assert log[i] == log[..n][i];
    }
  }

  lemma {:induction false} DescendPrefix(log: seq<Rotation>, id: Id, m: nat, n: nat)
    requires m <= n && Descend(log, id, n).Some?
    ensures Descend(log, id, m).Some?
  {
    if m < n {
      DescendPrefix(log, id, m, n - 1);
    }
  }

  predicate Unrevoked(s: State, id: Id) { id in s.sessions && !s.sessions[id].revoked }

  lemma HeirsRootIsUsed(s: State, id: Id)
    requires Inv(s) && Heir(s.log, id).Some?
    ensures !Unrevoked(s, id)
  {
    hide Chained;
    HeirIsLogged(s.log, id);
  }

  /** In every reachable state at most one session of a family is unrevoked, however
      many of its sessions the cleanup has deleted. */
  lemma OneLivePerFamily(now: int, events: seq<Event>, root: Id, m: nat, n: nat)
    requires var log := Run(Initial(now), events).log; Descend(log, root, m).Some? && Descend(log, root, n).Some?
    ensures var s := Run(Initial(now), events);
      var a, b := Descend(s.log, root, m).value, Descend(s.log, root, n).value;
      Unrevoked(s, a) && Unrevoked(s, b) ==> a == b
  {
    hide Run, Inv, Heir, Unrevoked;
    var s := Run(Initial(now), events);
    InitialHolds(now);
    RunKeeps(Initial(now), events);
    if m < n {
      DescendPrefix(s.log, root, m + 1, n);
      HeirsRootIsUsed(s, Descend(s.log, root, m).value);
    } else if n < m {
      DescendPrefix(s.log, root, n + 1, m);
      HeirsRootIsUsed(s, Descend(s.log, root, n).value);
    }
  }

  lemma InitialHolds(now: int)
    ensures Inv(Initial(now)) && Traced(Initial(now))
  {
  }

  /** The links still in the table are those of the log. */
  ghost predicate Traced(s: State) {
    forall id :: id in s.sessions && s.sessions[id].replacedBy.Some? ==> Heir(s.log, id) == s.sessions[id].replacedBy
  }

  /** `t` has the log of `s` and no link that `s` has not. */
  ghost predicate FewerLinks(s: State, t: State) {
    && t.log == s.log
    && (forall id :: id in t.sessions && t.sessions[id].replacedBy.Some? ==>
          id in s.sessions && s.sessions[id].replacedBy == t.sessions[id].replacedBy)
  }

  lemma FewerTraced(s: State, t: State)
    requires Traced(s) && FewerLinks(s, t)
    ensures Traced(t)
  {
  }

  lemma PartsLink(s: State, users: map<Id, User>, ids: set<Id>, uid: Id, ttl: int)
    ensures FewerLinks(s, RevokeIn(s.(users := users), ids)) && FewerLinks(s, Add(s, uid, ttl)) && FewerLinks(s, Clean(s))
    ensures s.(users := s.users) == s
  {
  }

  lemma LinkedTraces(s: State, sid: Id, ttl: int)
    requires Chained(s) && Traced(s) && Unrevoked(s, sid)
    ensures Traced(Linked(s, sid, ttl))
  {
    var t := Linked(s, sid, ttl);
    assert t.log[..|s.log|] == s.log;
    forall id | id in t.sessions && t.sessions[id].replacedBy.Some? ensures Heir(t.log, id) == t.sessions[id].replacedBy {
      if id != sid {
        assert id in s.sessions && s.sessions[id] == t.sessions[id];
      }
    }
  }

  lemma WriteTraces(s: State, thread: Id, ttl: int)
    requires Chained(s) && Traced(s)
    ensures Traced(Write(s, thread, ttl).state)
  {
    hide Linked, RevokeIn, Live, Heir;
    var rest := s.(pending := s.pending - {thread});
    FewerTraced(s, rest);
    if thread in s.pending {
      match s.pending[thread]
      case Replay(uid) =>
        PartsLink(rest, rest.users, Live(rest, uid, None), 0, 0);
        FewerTraced(rest, RevokeIn(rest, Live(rest, uid, None)));
      case Consume(sid) =>
        if Unrevoked(s, sid) {
          LinkedTraces(rest, sid, ttl);
        }
    }
  }

  lemma StepTraces(s: State, e: Event)
    requires Inv(s) && Traced(s)
    ensures Traced(Step(s, e).state)
  {
    hide Write, RevokeIn, Add, Clean, Live, Traced, Heir, Logged, Chained;
    match e
    case RefreshWrite(thread, ttl) => WriteTraces(s, thread, ttl);
    case _ =>
      StepLinks(s, e);
      FewerTraced(s, Step(s, e).state);
  }

  lemma StepLinks(s: State, e: Event)
    requires !e.RefreshWrite?
    ensures FewerLinks(s, Step(s, e).state)
  {
    hide Live;
  }

  lemma {:induction false} RunTraces(s: State, events: seq<Event>)
    requires Inv(s) && Traced(s)
    ensures Traced(Run(s, events))
    decreases |events|
  {
    hide Step, Inv, Traced;
    if events != [] {
      StepKeeps(s, events[0]);
      StepTraces(s, events[0]);
      RunTraces(Step(s, events[0]).state, events[1..]);
    }
  }

  /** As far as the links of the table still lead, they lead along the family. */
  lemma {:induction false} FollowDescends(s: State, id: Id, n: nat)
    requires Traced(s) && Follow(s, id, n).Some?
    ensures Descend(s.log, id, n) == Follow(s, id, n)
  {
    hide Heir;
    if n > 0 {
      FollowDescends(s, id, n - 1);
    }
  }

  /** In every reachable state the links of the table are part of the log's families. */
  lemma LinksAreLogged(now: int, events: seq<Event>, id: Id, n: nat)
    requires Follow(Run(Initial(now), events), id, n).Some?
    ensures var s := Run(Initial(now), events); Descend(s.log, id, n) == Follow(s, id, n)
  {
    hide Run, Inv, Traced, Follow, Descend;
    InitialHolds(now);
    RunTraces(Initial(now), events);
    FollowDescends(Run(Initial(now), events), id, n);
  }

  // ---------------------------------------------------------------------
  // Cleanup is invisible

  /** `t` is `s` after some cleaning: what is missing is revoked and expired, and
      only replacement links may differ in what is left. */
  ghost predicate Thinned(s: State, t: State) {
    && t.now == s.now && t.users == s.users && t.pending == s.pending && t.next == s.next && t.log == s.log
    && (forall id :: id in t.sessions ==>
          id in s.sessions && t.sessions[id].(replacedBy := None) == s.sessions[id].(replacedBy := None))
    && (forall id :: id in s.sessions && id !in t.sessions ==> s.sessions[id].revoked && s.sessions[id].expiresAt <= s.now)
  }

  lemma CleanThins(s: State, t: State)
    requires Thinned(s, t)
    ensures Thinned(s, Clean(t))
  {
  }

  lemma LiveAgree(s: State, t: State, uid: Id, keep: Option<Id>)
    requires Thinned(s, t)
    ensures Live(s, uid, keep) == Live(t, uid, keep)
  {
  }

  lemma RevokeAgree(s: State, t: State, ids: set<Id>)
    requires Thinned(s, t)
    ensures Thinned(RevokeIn(s, ids), RevokeIn(t, ids))
  {
  }

  lemma LinkAgree(s: State, t: State, sid: Id, ttl: int)
    requires Thinned(s, t) && sid in s.sessions && sid in t.sessions
    requires forall id :: id in s.sessions ==> id < s.next
    ensures Thinned(Linked(s, sid, ttl), Linked(t, sid, ttl))
  {
  }

  lemma UsersAgree(s: State, t: State, users: map<Id, User>)
    requires Thinned(s, t)
    ensures Thinned(s.(users := users), t.(users := users))
    ensures s.(users := s.users) == s
  {
  }

  lemma AddAgree(s: State, t: State, uid: Id, ttl: int)
    requires Thinned(s, t) && Chained(s)
    ensures Thinned(Add(s, uid, ttl), Add(t, uid, ttl))
  {
  }

  lemma ReadAgree(s: State, t: State, thread: Id, token: Id)
    requires Thinned(s, t)
    ensures Read(s, thread, token).reply == Read(t, thread, token).reply
    ensures Thinned(Read(s, thread, token).state, Read(t, thread, token).state)
  {
  }

  lemma WriteAgree(s: State, t: State, thread: Id, ttl: int)
    requires Thinned(s, t) && Chained(s)
    ensures Write(s, thread, ttl).reply == Write(t, thread, ttl).reply
    ensures Thinned(Write(s, thread, ttl).state, Write(t, thread, ttl).state)
  {
    hide Linked, RevokeIn, Live;
    if thread in s.pending {
      var s', t' := s.(pending := s.pending - {thread}), t.(pending := t.pending - {thread});
      match s.pending[thread]
      case Replay(uid) =>
        LiveAgree(s', t', uid, None);
        RevokeAgree(s', t', Live(s', uid, None));
      case Consume(sid) =>
        if sid in s.sessions && !s.sessions[sid].revoked {
          LinkAgree(s', t', sid, ttl);
        }
    }
  }

  lemma RevocationAgrees(s: State, t: State, e: Event)
    requires Thinned(s, t)
    requires e.Logout? || e.LogoutAll? || e.RevokeSession? || e.ChangePassword? || e.SetStatus? || e.RemoveUser?
    ensures Step(s, e).reply == Step(t, e).reply && Thinned(Step(s, e).state, Step(t, e).state)
  {
    hide RevokeIn, Live, Thinned;
    TablesAgree(s, t);
    match e
    case Logout(token) =>
      LogoutAgrees(s, t, token);
      RevokeAgree(s, t, if token in s.sessions && !s.sessions[token].revoked then {token} else {});
    case LogoutAll(uid) =>
      LiveAgree(s, t, uid, None);
      RevokeAgree(s, t, Live(s, uid, None));
    case RevokeSession(uid, sid) =>
      LiveAgree(s, t, uid, None);
      RevokeAgree(s, t, if sid in Live(s, uid, None) then {sid} else {});
    case ChangePassword(uid, sid, _) =>
      LiveAgree(s, t, uid, Some(sid));
      RevokeAgree(s, t, Live(s, uid, Some(sid)));
    case SetStatus(_, uid, active) =>
      LiveAgree(s, t, uid, None);
      if uid in s.users {
        var users := s.users[uid := s.users[uid].(active := active)];
        UsersAgree(s, t, users);
        RevokeAgree(s.(users := users), t.(users := users), Live(s, uid, None));
      }
    case RemoveUser(_, uid) =>
      LiveAgree(s, t, uid, None);
      RevokeAgree(s, t, Live(s, uid, None));
      var users := s.users[uid := User(false, true)];
      UsersAgree(s, t, users);
      RevokeAgree(s.(users := users), t.(users := users), Live(s, uid, None));
  }

  lemma TablesAgree(s: State, t: State)
    requires Thinned(s, t)
    ensures t.now == s.now && t.users == s.users && t.pending == s.pending && t.next == s.next && t.log == s.log
  {
  }

  lemma LogoutAgrees(s: State, t: State, token: Id)
    requires Thinned(s, t)
    ensures (token in s.sessions && !s.sessions[token].revoked) == (token in t.sessions && !t.sessions[token].revoked)
  {
  }

  lemma QueriesAgree(s: State, t: State, e: Event)
    requires Thinned(s, t) && (e.Tick? || e.Register? || e.Validate? || e.RegisterDevice?)
    ensures Step(s, e).reply == Step(t, e).reply && Thinned(Step(s, e).state, Step(t, e).state)
  {
  }

  /** The two systems answer every request alike and stay alike: expiry is tested
      before replay, and what was deleted is both revoked and expired. */
  lemma StepAgree(s: State, t: State, e: Event)
    requires Thinned(s, t) && Inv(s) && !e.Cleanup?
    ensures Step(s, e).reply == Step(t, e).reply && Thinned(Step(s, e).state, Step(t, e).state)
  {
    hide Thinned, Chained, Read, Write, Add, RevokeIn, Live;
    TablesAgree(s, t);
    match e
    case Issue(uid, ttl) => AddAgree(s, t, uid, ttl);
    case RefreshRead(thread, token) => ReadAgree(s, t, thread, token);
    case RefreshWrite(thread, ttl) => WriteAgree(s, t, thread, ttl);
    case Tick(_) => QueriesAgree(s, t, e);
    case Register(_) => QueriesAgree(s, t, e);
    case Validate(_, _) => QueriesAgree(s, t, e);
    case RegisterDevice(_, _) => QueriesAgree(s, t, e);
    case _ => RevocationAgrees(s, t, e);
  }

  function WithoutCleanup(events: seq<Event>): seq<Event>
    decreases |events|
  {
    if events == [] then []
    else (if events[0].Cleanup? then [] else [events[0]]) + WithoutCleanup(events[1..])
  }

  /** The replies to everything but the cleanup job. */
  function Replies(s: State, events: seq<Event>): seq<Reply>
    decreases |events|
  {
    if events == [] then []
    else (if events[0].Cleanup? then [] else [Step(s, events[0]).reply]) + Replies(Step(s, events[0]).state, events[1..])
  }

  /** For every history of requests with the cleanup job run at any points, the
      callers see exactly what they would have seen had it never run, and the
      sessions that survive it are the same. */
  lemma CleanupIsInvisible(now: int, events: seq<Event>)
    ensures Replies(Initial(now), events) == Replies(Initial(now), WithoutCleanup(events))
    ensures Thinned(Run(Initial(now), WithoutCleanup(events)), Run(Initial(now), events))
  {
    ThinnedRun(Initial(now), Initial(now), events);
  }

  lemma {:induction false} ThinnedRun(s: State, t: State, events: seq<Event>)
    requires Thinned(s, t) && Inv(s)
    ensures Replies(t, events) == Replies(s, WithoutCleanup(events))
    ensures Thinned(Run(s, WithoutCleanup(events)), Run(t, events))
    decreases |events|
  {
    hide Step, Inv, Thinned;
    if events != [] {
      var e, rest := events[0], events[1..];
      if e.Cleanup? {
        CleanThins(s, t);
        CleanStep(t);
        ThinnedRun(s, Step(t, e).state, rest);
        assert WithoutCleanup(events) == WithoutCleanup(rest);
        assert Replies(t, events) == Replies(Step(t, e).state, rest);
      } else {
        StepAgree(s, t, e);
        StepKeeps(s, e);
        ThinnedRun(Step(s, e).state, Step(t, e).state, rest);
        var w := WithoutCleanup(events);
        assert w == [e] + WithoutCleanup(rest) && w[1..] == WithoutCleanup(rest);
      }
    }
  }

  lemma CleanStep(s: State)
    ensures Step(s, Cleanup).state == Clean(s)
  {
  }
}
