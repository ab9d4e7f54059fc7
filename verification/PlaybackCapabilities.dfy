/** Capability calls on the two stores, each uninterrupted and tied to its steps
    (src/playback/playback.service.ts:58-69, 82-98, 107-116, 128-129;
    src/playback/playback-token.service.ts:54-56; src/auth/auth.service.ts:155-164). */
module PlaybackCapabilities {
  import opened PlaybackProtocol

  /** The capability entries in Redis. */
  class CapabilityStore {
    var entries: map<Id, Capability>

    constructor ()
      ensures entries == map[]
    {
      entries := map[];
    }

    method Cache(jti: Id, c: Capability)
      modifies this
      ensures entries == old(entries)[jti := c]
    {
      entries := entries[jti := c];
    }

    method Revoke(jti: Id)
      modifies this
      ensures entries == old(entries) - {jti}
    {
      entries := entries - {jti};
    }
  }

  class PlaybackCapabilities {
    const store: CapabilityStore
    var now: int
    var devices: map<Id, Device>
    var sessions: map<Id, Session>
    var issued: map<Id, Capability>
    ghost var held: set<Id>

    constructor (time: int)
      ensures View() == Initial(time) && fresh(store)
    {
      store := new CapabilityStore();
      now, devices, sessions, issued, held := time, map[], map[], map[], {};
    }

    /** The system with no request under way. */
    ghost function View(): State
      reads this, store
    {
      State(now, devices, sessions, store.entries, issued, held, map[])
    }

    /** The system with one request under way. */
    ghost function With(pc: Pc): State
      reads this, store
    {
      At(View(), 0, pc)
    }

    method RevokeBySession(sid: Id, overdue: bool)
      modifies this`sessions, store
      ensures View() == Run(old(With(RevokeSeen(sid, overdue))), [Do(0, ReadToRevoke), Do(0, StoreRevoked), Do(0, Drop)])
    {
      assert map[0 := RevokeSeen(sid, overdue)] - {0} == map[];
      if sid !in sessions {
        RevocationAbsent(With(RevokeSeen(sid, overdue)), 0, sid, overdue);
        return;
      }
      RevocationAlone(With(RevokeSeen(sid, overdue)), 0, sid, overdue);
      hide Run, Next;
      var row := sessions[sid];
      sessions := sessions[sid := row.(status := if overdue then Expired else Revoked)];
      store.Revoke(row.jti);
    }

    /** Expires an overdue session found by its status query. */
    method Expire(sid: Id)
      requires sid in sessions
      modifies this`sessions, store
      ensures View() == Run(old(With(ExpireSeen(sid))), [Do(0, MarkExpired), Do(0, ReadToRevoke), Do(0, StoreRevoked), Do(0, Drop)])
    {
      ExpiryAlone(With(ExpireSeen(sid)), 0, sid);
      hide Run, Next;
      assert map[0 := ExpireSeen(sid)] - {0} == map[];
      var row := sessions[sid];
      if row.status == Active && row.expiresAt <= now {
        sessions := sessions[sid := row.(status := Expired)];
      }
      sessions := sessions[sid := sessions[sid].(status := Expired)];
      store.Revoke(row.jti);
    }

    /** The whole of `validateCapability` for a capability whose signature and claims
        were checked. A mismatch of fingerprint or scope revokes the session. */
    method ValidateCapability(req: Request, policyAllows: bool, scopeMatches: bool, mediaActive: bool) returns (outcome: Outcome)
      requires req.jti in issued
      modifies this`sessions, store
      ensures outcome == old(Verdict(View(), req, policyAllows, scopeMatches, mediaActive))
      ensures var u := Run(old(With(Verified(req))), Validation(0, policyAllows, scopeMatches, mediaActive));
        match outcome
        case Refused => View() == u
        case Revoking => View() == Run(u, [Do(0, ReadToRevoke), Do(0, StoreRevoked), Do(0, Drop)])
        case Allowed => View() == u.(threads := map[]) && 0 in u.threads && u.threads[0] == Served(req)
    {
      ValidationAlone(With(Verified(req)), 0, req, policyAllows, scopeMatches, mediaActive);
      hide Run, Next, Validation;
      assert map[0 := Verified(req)] - {0} == map[];
      assert map[0 := Verified(req)][0 := RevokeSeen(req.sid, false)] == map[0 := RevokeSeen(req.sid, false)];
      if req.jti !in store.entries || store.entries[req.jti].sid != req.sid || store.entries[req.jti].uid != req.uid {
        return Refused;
      }
      if issued[req.jti].fp != req.fp || store.entries[req.jti].fp != req.fp {
        RevokeBySession(req.sid, false);
        return Revoking;
      }
      if !policyAllows {
        return Refused;
      }
      if !scopeMatches {
        RevokeBySession(req.sid, false);
        return Revoking;
      }
      if req.sid !in sessions {
        return Refused;
      }
      var row := sessions[req.sid];
      if row.uid != req.uid || row.jti != req.jti || row.status != Active || row.expiresAt <= now || row.device !in devices {
        return Refused;
      }
      var d := devices[row.device];
      if !d.active || d.did != req.did || d.fp != req.fp || !mediaActive {
        return Refused;
      }
      store.Cache(req.jti, store.entries[req.jti]);
      return Allowed;
    }

    /** Signs for the fingerprint that was authorized, stores the new capability in the
        row, then replaces the cache entry. */
    method Rotate(sid: Id, fp: Id, jti: Id, ttl: int)
      requires sid in sessions && sessions[sid].device in devices && jti !in issued
      modifies this, store
      ensures View() == Run(old(With(RotateSeen(sid, fp))), Rotation(0, jti, ttl))
    {
      RotationAlone(With(RotateSeen(sid, fp)), 0, sid, fp, jti, ttl);
      hide Run, Next, Rotation;
      assert map[0 := RotateSeen(sid, fp)] - {0} == map[];
      var row := sessions[sid];
      var d := devices[row.device];
      var minted := Capability(sid, d.uid, d.did, fp);
      issued := issued[jti := minted];
      sessions := sessions[sid := row.(jti := jti, expiresAt := now + ttl)];
      held := held + {jti};
      store.Revoke(row.jti);
      store.Cache(jti, minted);
    }

    /** Closes the session of a request just validated and drops its capability. */
    method Stop(req: Request)
      requires req.sid in sessions && sessions[req.sid].uid == req.uid
      modifies this`sessions, store
      ensures View() == Run(old(With(Served(req))), [Do(0, PlaybackProtocol.Stop), Do(0, ReadToRevoke), Do(0, Drop)])
    {
      StopAlone(With(Served(req)), 0, req.sid);
      hide Run, Next;
      assert map[0 := Served(req)] - {0} == map[];
      var row := sessions[req.sid];
      if row.status == Active {
        sessions := sessions[req.sid := row.(status := Closed)];
      }
      assert sessions[req.sid].jti == row.jti;
      store.Revoke(row.jti);
    }

    /** Revoking a device closes its sessions in the same transaction; the cache stays. */
    method RevokeDevice(device: Id) returns (ok: bool)
      modifies this`devices, this`sessions
      ensures View() == Next(old(View()), PlaybackProtocol.RevokeDevice(device))
      ensures ok <==> device in old(devices) && old(devices)[device].active
    {
      if device !in devices || !devices[device].active {
        return false;
      }
      devices := devices[device := devices[device].(active := false)];
      sessions := map id | id in sessions ::
        if sessions[id].device == device && sessions[id].status == Active then sessions[id].(status := Revoked) else sessions[id];
      return true;
    }
  }
}
