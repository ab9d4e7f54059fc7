/** The session calls on the user and session tables, each uninterrupted
    (src/auth/auth.service.ts:76-113, 129-133, 166-185; src/users/users.service.ts:59-83;
    src/common/auth/jwt.strategy.ts:33-58; scripts/maintenance-cleanup.ts:17-19). */
module AuthService {
  import opened Text
  import opened RefreshSessions

  /** A refresh is its read followed at once by its write. */
  ghost function RefreshCall(s: State, token: Id, ttl: int): Result {
    var read := Read(s, 0, token);
    if read.reply != Reading then read else Write(read.state, 0, ttl)
  }

  lemma RefreshCallCases(s: State, token: Id, ttl: int)
    requires s.pending == map[]
    ensures RefreshCall(s, token, ttl) ==
      if token !in s.sessions || !UserActive(s, s.sessions[token].uid) || s.sessions[token].expiresAt <= s.now then Result(s, Denied)
      else if s.sessions[token].revoked then Result(RevokeIn(s, Live(s, s.sessions[token].uid, None)), Denied)
      else Result(Linked(s, token, ttl), Minted(s.next))
  {
    hide RevokeIn, Live, Linked;
    if token in s.sessions && UserActive(s, s.sessions[token].uid) && s.sessions[token].expiresAt > s.now {
      var read := Read(s, 0, token).state;
      assert read.pending - {0} == map[];
      assert read.(pending := map[]) == s;
    }
  }

  class AuthService {
    var now: int
    var users: map<Id, User>
    var sessions: map<Id, Session>
    var next: Id
    ghost var log: seq<Rotation>

    constructor (time: int)
      ensures View() == Initial(time)
    {
      now, users, sessions, next, log := time, map[], map[], 0, [];
    }

    ghost function View(): State
      reads this
    {
      State(now, users, sessions, map[], next, log)
    }

    /** `updateMany` over a user's unrevoked sessions, except one. */
    method RevokeMany(uid: Id, keep: Option<Id>) returns (ids: set<Id>)
      modifies this`sessions
      ensures ids == Live(old(View()), uid, keep) && View() == RevokeIn(old(View()), ids)
    {
      ids := set id | id in sessions && sessions[id].uid == uid && !sessions[id].revoked && Some(id) != keep;
      sessions := map id | id in sessions :: if id in ids then sessions[id].(revoked := true) else sessions[id];
    }

    /** Revokes one session if it is there and unrevoked. */
    method RevokeOne(id: Id) returns (ids: set<Id>)
      modifies this`sessions
      ensures ids == (if id in old(sessions) && !old(sessions)[id].revoked then {id} else {})
      ensures View() == RevokeIn(old(View()), ids)
    {
      ids := {};
      if id in sessions && !sessions[id].revoked {
        ids := {id};
        sessions := sessions[id := sessions[id].(revoked := true)];
      }
      assert sessions == RevokeIn(old(View()), ids).sessions;
    }

    method IssueTokenPair(uid: Id, ttl: int) returns (reply: Reply)
      modifies this`sessions, this`next
      ensures Result(View(), reply) == Step(old(View()), Issue(uid, ttl))
    {
      if uid !in users {
        return Denied;
      }
      var sid := next;
      sessions, next := sessions[sid := Session(uid, false, now + ttl, None)], next + 1;
      return Minted(sid);
    }

    method Refresh(token: Id, ttl: int) returns (reply: Reply)
      modifies this
      ensures Result(View(), reply) == RefreshCall(old(View()), token, ttl)
    {
      hide RefreshCall, RevokeIn, Live;
      RefreshCallCases(View(), token, ttl);
      if token !in sessions {
        return Denied;
      }
      var session := sessions[token];
      if session.uid !in users || users[session.uid].deleted || !users[session.uid].active || session.expiresAt <= now {
        return Denied;
      }
      if session.revoked {
        var ids := RevokeMany(session.uid, None);
        return Denied;
      }
      var replacement := next;
      sessions, next := sessions[replacement := Session(session.uid, false, now + ttl, None)], next + 1;
      sessions := sessions[token := session.(revoked := true, replacedBy := Some(replacement))];
      log := log + [Rotation(token, replacement)];
      return Minted(replacement);
    }

    method Logout(token: Id) returns (reply: Reply)
      modifies this`sessions
      ensures Result(View(), reply) == Step(old(View()), Event.Logout(token))
    {
      var ids := RevokeOne(token);
      return Revoked(ids);
    }

    method LogoutAll(uid: Id) returns (reply: Reply)
      modifies this`sessions
      ensures Result(View(), reply) == Step(old(View()), Event.LogoutAll(uid))
    {
      var ids := RevokeMany(uid, None);
      return Revoked(ids);
    }

    method RevokeSession(uid: Id, sid: Id) returns (reply: Reply)
      modifies this`sessions
      ensures Result(View(), reply) == Step(old(View()), Event.RevokeSession(uid, sid))
    {
      if sid in sessions && sessions[sid].uid == uid {
        var ids := RevokeOne(sid);
        return Revoked(ids);
      }
      assert RevokeIn(View(), {}).sessions == sessions;
      return Revoked({});
    }

    method ChangePassword(uid: Id, sid: Id, matches: bool) returns (reply: Reply)
      modifies this`sessions
      ensures Result(View(), reply) == Step(old(View()), Event.ChangePassword(uid, sid, matches))
    {
      if uid !in users || users[uid].deleted || !matches {
        return Denied;
      }
      var ids := RevokeMany(uid, Some(sid));
      return Revoked(ids);
    }

    /** Suspending a user revokes all their sessions with the status change. */
    method UpdateStatus(actor: Id, uid: Id, active: bool) returns (reply: Reply)
      modifies this
      ensures Result(View(), reply) == Step(old(View()), SetStatus(actor, uid, active))
    {
      if actor == uid && !active {
        return Denied;
      }
      if uid !in users || users[uid].deleted {
        return Denied;
      }
      users := users[uid := users[uid].(active := active)];
      if active {
        return Granted;
      }
      var ids := RevokeMany(uid, None);
      return Revoked(ids);
    }

    /** The sessions are revoked whether or not there was a user to delete. */
    method RemoveUser(actor: Id, uid: Id) returns (reply: Reply)
      modifies this
      ensures Result(View(), reply) == Step(old(View()), Event.RemoveUser(actor, uid))
    {
      if actor == uid {
        return Denied;
      }
      var found := uid in users && !users[uid].deleted;
      if found {
        users := users[uid := User(false, true)];
      }
      var ids := RevokeMany(uid, None);
      return if found then Revoked(ids) else Denied;
    }

    /** The session test of every authenticated request. */
    method Validate(uid: Id, sid: Id) returns (accepted: bool)
      ensures accepted <==> Accepts(View(), uid, sid)
    {
      if sid !in sessions {
        return false;
      }
      var session := sessions[sid];
      return session.uid == uid && !session.revoked && session.expiresAt > now && uid in users && !users[uid].deleted && users[uid].active;
    }

    /** The maintenance job; deleting a session clears the links to it. */
    method Cleanup()
      modifies this`sessions
      ensures View() == Step(old(View()), Event.Cleanup).state
    {
      var stale := set id | id in sessions && sessions[id].revoked && sessions[id].expiresAt < now;
      assert forall id :: id in stale <==> Stale(View(), id);
      sessions := map id | id in sessions && id !in stale ::
        var r := sessions[id]; if r.replacedBy.Some? && r.replacedBy.value in stale then r.(replacedBy := None) else r;
    }
  }
}
