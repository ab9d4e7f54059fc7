/** The playback calls on the service's tables
    (src/playback/playback-policy.service.ts:28-50, src/playback/playback.service.ts:21-76, 107-127). */
module PlaybackService {
  import opened Text
  import opened PlaybackSessions

  /** The counted sessions among the first `n`. */
  ghost function CountedBelow(s: State, uid: Id, episode: Id, device: Name, n: nat): set<nat> {
    set i: nat | i < n && i in Counted(s, uid, episode, device)
  }

  lemma CountedGrows(s: State, uid: Id, episode: Id, device: Name, n: nat)
    ensures var before, after := CountedBelow(s, uid, episode, device, n), CountedBelow(s, uid, episode, device, n + 1);
      |after| == |before| + (if n in Counted(s, uid, episode, device) then 1 else 0)
  {
    hide Counted;
    var before, after := CountedBelow(s, uid, episode, device, n), CountedBelow(s, uid, episode, device, n + 1);
    assert after == before + if n in Counted(s, uid, episode, device) then {n} else {};
    assert n !in before;
  }

  class PlaybackService {
    var now: int
    const max: nat
    var devices: map<Name, Device>
    var sessions: seq<Session>
    var history: map<Key, History>

    constructor (time: int, limit: nat)
      ensures View() == Initial(time, limit)
    {
      now, max, devices, sessions, history := time, limit, map[], [], map[];
    }

    function View(): State
      reads this
    {
      State(now, max, devices, sessions, history, map[])
    }

    method CountSessions(uid: Id, episode: Id, device: Name) returns (count: nat)
      ensures count == |Counted(View(), uid, episode, device)|
    {
      count := 0;
      for i := 0 to |sessions|
        invariant count == |CountedBelow(View(), uid, episode, device, i)|
      {
        CountedGrows(View(), uid, episode, device, i);
        var r := sessions[i];
        if r.uid == uid && r.status == Active && r.expiresAt > now && !(r.episode == episode && r.device == device) {
          count := count + 1;
        }
      }
      assert CountedBelow(View(), uid, episode, device, |sessions|) == Counted(View(), uid, episode, device);
    }

    method FindExisting(uid: Id, episode: Id, device: Name) returns (found: Option<nat>)
      ensures found == Existing(View(), uid, episode, device, |sessions|)
    {
      var n := |sessions|;
      while n > 0
        invariant 0 <= n <= |sessions|
        invariant Existing(View(), uid, episode, device, |sessions|) == Existing(View(), uid, episode, device, n)
      {
        var r := sessions[n - 1];
        if r.uid == uid && r.episode == episode && r.device == device && r.status == Active && r.expiresAt > now {
          return Some(n - 1);
        }
        n := n - 1;
      }
      return None;
    }

    method Authorize(ask: Ask, episode: Id, allowExisting: bool) returns (why: Option<Refusal>)
      ensures why == PlaybackSessions.Authorize(View(), ask, episode, allowExisting)
    {
      if !ask.accountActive {
        return Some(AccountInactive);
      }
      if !ask.published {
        return Some(NotPublished);
      }
      if !ask.mediaReady {
        return Some(MediaUnavailable);
      }
      if ask.premium && !ask.subscribed && !ask.granted {
        return Some(NoEntitlement);
      }
      var name := Name(ask.uid, ask.did);
      if name !in devices || !devices[name].active {
        return Some(DeviceUntrusted);
      }
      if devices[name].fp != ask.fp {
        return Some(FingerprintMismatch);
      }
      if !allowExisting {
        var active := CountSessions(ask.uid, episode, name);
        if active >= max {
          return Some(LimitReached);
        }
      }
      return None;
    }

    method Rotate(sid: nat, ttl: int) returns (reply: Reply)
      modifies this`sessions
      ensures Result(View(), reply) == DoRotate(old(View()), sid, ttl)
    {
      if sid >= |sessions| {
        return NotFound;
      }
      var row := sessions[sid];
      sessions := sessions[sid := row.(expiresAt := now + ttl)];
      return Playing(sid, row.lastPosition);
    }

    method Start(ask: Ask, episode: Id, ttl: int) returns (reply: Reply)
      modifies this`sessions, this`history
      ensures Result(View(), reply) == StartCall(old(View()), ask, episode, ttl)
    {
      StartCallCases(View(), ask, episode, ttl);
      hide StartCall;
      var why := Authorize(ask, episode, false);
      if why.Some? {
        return Refused(why.value);
      }
      var device := Name(ask.uid, ask.did);
      var found := FindExisting(ask.uid, episode, device);
      if found.Some? {
        reply := Rotate(found.value, ttl);
        return;
      }
      var sid, key := |sessions|, Key(ask.uid, episode);
      sessions := sessions + [Session(ask.uid, episode, device, Active, now + ttl, 0, 0)];
      if key in history {
        history := history[key := history[key].(session := sid, ended := false)];
      } else {
        history := history[key := History(sid, 0, 0, false)];
      }
      return Playing(sid, 0);
    }

    method Resume(ask: Ask, sid: nat, ttl: int) returns (reply: Reply)
      modifies this`sessions
      ensures Result(View(), reply) == ResumeCall(old(View()), ask, sid, ttl)
    {
      ResumeCallCases(View(), ask, sid, ttl);
      hide ResumeCall;
      if sid >= |sessions| || sessions[sid].uid != ask.uid || sessions[sid].status != Active || sessions[sid].expiresAt <= now {
        return NotFound;
      }
      var why := Authorize(ask, sessions[sid].episode, true);
      if why.Some? {
        return Refused(why.value);
      }
      if Name(ask.uid, ask.did) != sessions[sid].device {
        return Mismatch;
      }
      reply := Rotate(sid, ttl);
    }

    method Heartbeat(uid: Id, sid: nat, capable: bool, position: nat) returns (reply: Reply)
      modifies this`sessions, this`history
      ensures Result(View(), reply) == HeartbeatCall(old(View()), uid, sid, capable, position)
    {
      if !capable || sid >= |sessions| || sessions[sid].uid != uid || sessions[sid].status != Active || sessions[sid].expiresAt <= now {
        return Unauthorized;
      }
      assert map[0 := Beat(sid, sessions[sid].lastPosition)] - {0} == map[];
      var row := sessions[sid];
      var delta: int := position - row.lastPosition;
      if delta < 0 {
        delta := 0;
      }
      if delta > 60 {
        delta := 60;
      }
      sessions := sessions[sid := row.(lastPosition := position, watched := row.watched + delta)];
      history := map k | k in history ::
        if history[k].session == sid
        then history[k].(lastPosition := position, watched := history[k].watched + delta) else history[k];
      return Reply.Done;
    }

    method Stop(uid: Id, sid: nat, capable: bool) returns (reply: Reply)
      modifies this`sessions, this`history
      ensures Result(View(), reply) == Step(old(View()), Event.Stop(uid, sid, capable))
    {
      if !capable || sid >= |sessions| || sessions[sid].uid != uid || sessions[sid].status != Active || sessions[sid].expiresAt <= now {
        return Unauthorized;
      }
      sessions := sessions[sid := sessions[sid].(status := Closed)];
      history := map k | k in history :: if history[k].session == sid then history[k].(ended := true) else history[k];
      return Reply.Done;
    }

    method QueryStatus(uid: Id, sid: nat) returns (reply: Reply)
      modifies this`sessions, this`history
      ensures Result(View(), reply) == Step(old(View()), Event.QueryStatus(uid, sid))
    {
      if sid >= |sessions| || sessions[sid].uid != uid {
        return NotFound;
      }
      if sessions[sid].status == Active && sessions[sid].expiresAt <= now {
        sessions := sessions[sid := sessions[sid].(status := Expired)];
        history := map k | k in history :: if history[k].session == sid then history[k].(ended := true) else history[k];
      }
      return Reply.Done;
    }
  }
}
