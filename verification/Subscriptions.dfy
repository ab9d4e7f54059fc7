/** Stacked subscription windows (src/subscriptions/subscriptions.service.ts:13-30).
    Time is in milliseconds and never goes back. */
module Subscriptions {
  import opened Text

  type Id = nat

  const DAY: nat := 86_400_000

  type pos = n: nat | n > 0 witness 1

  datatype Subscription = Subscription(uid: Id, active: bool, startsAt: int, endsAt: int)

  /** Rows are only ever added, so a subscription's id is its index. */
  datatype State = State(now: int, subs: seq<Subscription>)

  datatype Event =
    | Tick(elapsed: nat)
    | Subscribe(uid: Id, days: pos, planActive: bool, userExists: bool)
    | Extend(id: nat, days: pos)
    | Cancel(id: nat)

  // ---------------------------------------------------------------------
  // Calls

  predicate ActiveOf(r: Subscription, uid: Id) { r.uid == uid && r.active }

  function Max(a: int, b: int): int { if a < b then b else a }

  /** Where the user's next window starts: the latest end of the active ones, or now. */
  function Horizon(subs: seq<Subscription>, uid: Id, now: int): int {
    if subs == [] then now
    else
      var rest, r := Horizon(subs[..|subs| - 1], uid, now), subs[|subs| - 1];
      if ActiveOf(r, uid) then Max(rest, r.endsAt) else rest
  }

  function Extended(r: Subscription, days: pos, now: int): Subscription {
    r.(endsAt := Max(r.endsAt, now) + days * DAY, active := true)
  }

  /** An unknown plan, user or subscription changes nothing. */
  function Step(s: State, e: Event): State {
    match e
    case Tick(elapsed) => s.(now := s.now + elapsed)
    case Subscribe(uid, days, planActive, userExists) =>
      if !planActive || !userExists then s
      else
        var startsAt := Horizon(s.subs, uid, s.now);
        s.(subs := s.subs + [Subscription(uid, true, startsAt, startsAt + days * DAY)])
    case Extend(id, days) =>
      if id < |s.subs| then s.(subs := s.subs[id := Extended(s.subs[id], days, s.now)]) else s
    case Cancel(id) =>
      if id < |s.subs| then s.(subs := s.subs[id := s.subs[id].(active := false)]) else s
  }

  /** The test of `validate`, at time `t`. */
  predicate Covers(r: Subscription, uid: Id, t: int) { ActiveOf(r, uid) && r.startsAt <= t < r.endsAt }

  predicate Entitled(s: State, uid: Id, t: int) { exists i :: 0 <= i < |s.subs| && Covers(s.subs[i], uid, t) }

  // ---------------------------------------------------------------------
  // Windows of one user do not overlap

  lemma {:induction false} HorizonBounds(subs: seq<Subscription>, uid: Id, now: int)
    ensures var h := Horizon(subs, uid, now);
      && h >= now
      && (forall i :: 0 <= i < |subs| && ActiveOf(subs[i], uid) ==> subs[i].endsAt <= h)
      && (h == now || exists i :: 0 <= i < |subs| && ActiveOf(subs[i], uid) && subs[i].endsAt == h)
  {
    if subs != [] {
      var front := subs[..|subs| - 1];
      HorizonBounds(front, uid, now);
      var h := Horizon(front, uid, now);
      if h != now {
        var i :| 0 <= i < |front| && ActiveOf(front[i], uid) && front[i].endsAt == h;
        assert subs[i] == front[i];
      }
    }
  }

  predicate Apart(a: Subscription, b: Subscription) { a.endsAt <= b.startsAt || b.endsAt <= a.startsAt }

  ghost predicate Disjoint(subs: seq<Subscription>) {
    && (forall i :: 0 <= i < |subs| ==> subs[i].startsAt < subs[i].endsAt)
    && (forall i, j :: 0 <= i < j < |subs| && subs[i].active && ActiveOf(subs[j], subs[i].uid) ==> Apart(subs[i], subs[j]))
  }

  /** Active, and no other active window of its user ends later. */
  ghost predicate LatestEnding(subs: seq<Subscription>, id: nat) {
    && id < |subs| && subs[id].active
    && (forall j :: 0 <= j < |subs| && ActiveOf(subs[j], subs[id].uid) ==> subs[j].endsAt <= subs[id].endsAt)
  }

  /** Another active window of the user begins before the extension would end and ends
      after the extended window begins. */
  ghost predicate Meets(subs: seq<Subscription>, id: nat, days: pos, now: int)
    requires id < |subs|
  {
    var until := (if subs[id].endsAt < now then now else subs[id].endsAt) + days * DAY;
    exists j :: 0 <= j < |subs| && j != id && ActiveOf(subs[j], subs[id].uid) && subs[j].startsAt < until && subs[id].startsAt < subs[j].endsAt
  }

  lemma SubscribeKeepsDisjoint(s: State, uid: Id, days: pos)
    requires Disjoint(s.subs)
    ensures Disjoint(Step(s, Subscribe(uid, days, true, true)).subs)
  {
    HorizonBounds(s.subs, uid, s.now);
  }

  lemma CancelKeepsDisjoint(s: State, id: nat)
    requires Disjoint(s.subs)
    ensures Disjoint(Step(s, Cancel(id)).subs)
  {
  }

  /** An extension keeps the windows apart if and only if no other active window of its
      user lies in its way. */
  lemma ExtendKeepsDisjoint(s: State, id: nat, days: pos)
    requires Disjoint(s.subs) && id < |s.subs|
    ensures Disjoint(Step(s, Extend(id, days)).subs) <==> !Meets(s.subs, id, days, s.now)
  {
    var t := Step(s, Extend(id, days)).subs;
    assert t[id].startsAt < t[id].endsAt;
    if Meets(s.subs, id, days, s.now) {
      var until := (if s.subs[id].endsAt < s.now then s.now else s.subs[id].endsAt) + days * DAY;
      var j :| 0 <= j < |s.subs| && j != id && ActiveOf(s.subs[j], s.subs[id].uid) && s.subs[j].startsAt < until && s.subs[id].startsAt < s.subs[j].endsAt;
      assert t[j] == s.subs[j] && !Apart(t[j], t[id]) && !Apart(t[id], t[j]);
    }
  }

  /** Extending the latest-ending active window never meets another. */
  lemma LatestMeetsNone(subs: seq<Subscription>, id: nat, days: pos, now: int)
    requires Disjoint(subs) && LatestEnding(subs, id)
    ensures !Meets(subs, id, days, now)
  {
    forall j | 0 <= j < |subs| && j != id && ActiveOf(subs[j], subs[id].uid) ensures subs[j].endsAt <= subs[id].startsAt {
      assert Apart(subs[if j < id then j else id], subs[if j < id then id else j]);
    }
  }

  /** Every step is a subscription, a cancellation, time passing, or the extension of
      the latest-ending active window. */
  ghost predicate Orderly(s: State, events: seq<Event>)
    decreases |events|
  {
    events != [] ==>
      && (events[0].Extend? ==> LatestEnding(s.subs, events[0].id))
      && Orderly(Step(s, events[0]), events[1..])
  }

  function Run(s: State, events: seq<Event>): State
    decreases |events|
  {
    if events == [] then s else Run(Step(s, events[0]), events[1..])
  }

  lemma OrderlyStep(s: State, e: Event)
    requires Disjoint(s.subs) && (e.Extend? ==> LatestEnding(s.subs, e.id))
    ensures Disjoint(Step(s, e).subs)
  {
    hide Disjoint, Meets, LatestEnding;
    match e
    case Tick(_) =>
    case Subscribe(uid, days, _, _) => SubscribeKeepsDisjoint(s, uid, days);
    case Extend(id, days) =>
      if id < |s.subs| {
        LatestMeetsNone(s.subs, id, days, s.now);
        ExtendKeepsDisjoint(s, id, days);
      }
    case Cancel(id) => CancelKeepsDisjoint(s, id);
  }

  /** A user's active windows stay pairwise disjoint through every orderly run. */
  lemma {:induction false} OrderlyRun(s: State, events: seq<Event>)
    requires Disjoint(s.subs) && Orderly(s, events)
    ensures Disjoint(Run(s, events).subs)
    decreases |events|
  {
    hide Disjoint, Step;
    if events != [] {
      OrderlyStep(s, events[0]);
      OrderlyRun(Step(s, events[0]), events[1..]);
    }
  }

  lemma HorizonOfOne(r: Subscription, now: int)
    requires r.active
    ensures Horizon([r], r.uid, now) == Max(now, r.endsAt) && Horizon([], r.uid, now) == now
  {
    assert [r][..0] == [];
  }

  lemma SecondPurchase(now: int)
    ensures var two := Step(Step(State(now, []), Subscribe(0, 10, true, true)), Subscribe(0, 10, true, true));
      two == State(now, [Subscription(0, true, now, now + 10 * DAY), Subscription(0, true, now + 10 * DAY, now + 10 * DAY + 10 * DAY)])
  {
    hide Horizon;
    var r := Subscription(0, true, now, now + 10 * DAY);
    HorizonOfOne(r, now);
    assert [] + [r] == [r];
    assert Step(State(now, []), Subscribe(0, 10, true, true)) == State(now, [r]);
  }

  /** Extending any other one may break it: two purchases, then the first extended. */
  lemma ArbitraryExtendOverlaps(now: int)
    ensures var two := Step(Step(State(now, []), Subscribe(0, 10, true, true)), Subscribe(0, 10, true, true));
      Disjoint(two.subs) && !Disjoint(Step(two, Extend(0, 5)).subs)
  {
    SecondPurchase(now);
    hide Horizon;
    var two := Step(Step(State(now, []), Subscribe(0, 10, true, true)), Subscribe(0, 10, true, true));
    hide Step;
    ExtendKeepsDisjoint(two, 0, 5);
    assert two.subs[1].startsAt < two.subs[0].endsAt + 5 * DAY;
  }

  // ---------------------------------------------------------------------
  // A prepaid meter

  /** Time bought and not yet used: purchases and extensions add, time takes away. */
  function Metered(s: State, e: Event, uid: Id, balance: nat): nat {
    match e
    case Tick(elapsed) => if elapsed < balance then balance - elapsed else 0
    case Subscribe(u, days, planActive, userExists) => if u == uid && planActive && userExists then balance + days * DAY else balance
    case Extend(id, days) => if id < |s.subs| && s.subs[id].uid == uid then balance + days * DAY else balance
    case Cancel(_) => balance
  }

  function Balance(s: State, events: seq<Event>, uid: Id, balance: nat): nat
    decreases |events|
  {
    if events == [] then balance else Balance(Step(s, events[0]), events[1..], uid, Metered(s, events[0], uid, balance))
  }

  /** The user is entitled from now on for exactly as long as the meter says. */
  ghost predicate Gapless(s: State, uid: Id, balance: nat) {
    Horizon(s.subs, uid, s.now) == s.now + balance && forall t :: s.now <= t < s.now + balance ==> Entitled(s, uid, t)
  }

  lemma HorizonTicks(subs: seq<Subscription>, uid: Id, now: int, elapsed: nat)
    ensures Horizon(subs, uid, now + elapsed) == Max(Horizon(subs, uid, now), now + elapsed)
  {
    HorizonBounds(subs, uid, now);
    HorizonBounds(subs, uid, now + elapsed);
  }

  /** Adding or replacing a row of this user keeps the others' entitlement. */
  lemma StillEntitled(s: State, t: State, uid: Id, at: int)
    requires Entitled(s, uid, at)
    requires forall i :: 0 <= i < |s.subs| ==> i < |t.subs| && (Covers(s.subs[i], uid, at) ==> Covers(t.subs[i], uid, at))
    ensures Entitled(t, uid, at)
  {
    var i :| 0 <= i < |s.subs| && Covers(s.subs[i], uid, at);
    assert Covers(t.subs[i], uid, at);
  }

  lemma SubscribeMeters(s: State, uid: Id, balance: nat, buyer: Id, days: pos)
    requires Gapless(s, uid, balance)
    ensures var e := Subscribe(buyer, days, true, true); Gapless(Step(s, e), uid, Metered(s, e, uid, balance))
  {
    var e := Subscribe(buyer, days, true, true);
    var t, after := Step(s, e), Metered(s, e, uid, balance);
    assert t.subs[..|s.subs|] == s.subs;
    forall at | s.now <= at < s.now + after ensures Entitled(t, uid, at) {
      if at < s.now + balance {
        StillEntitled(s, t, uid, at);
      } else {
        assert Covers(t.subs[|s.subs|], uid, at);
      }
    }
  }

  lemma HorizonOfUpdate(subs: seq<Subscription>, id: nat, r: Subscription, uid: Id, now: int)
    requires id < |subs| && r.uid == subs[id].uid && r.active
    requires forall j :: 0 <= j < |subs| && ActiveOf(subs[j], r.uid) ==> subs[j].endsAt <= r.endsAt
    ensures Horizon(subs[id := r], uid, now) == if uid == r.uid then Max(now, r.endsAt) else Horizon(subs, uid, now)
  {
    HorizonBounds(subs, uid, now);
    var after := subs[id := r];
    HorizonBounds(after, uid, now);
    assert after[id] == r;
    if uid != r.uid {
      if i :| 0 <= i < |subs| && ActiveOf(subs[i], uid) && subs[i].endsAt == Horizon(subs, uid, now) {
        assert after[i] == subs[i];
      }
      if i :| 0 <= i < |after| && ActiveOf(after[i], uid) && after[i].endsAt == Horizon(after, uid, now) {
        assert after[i] == subs[i];
      }
    }
  }

  lemma ExtendMeters(s: State, uid: Id, balance: nat, id: nat, days: pos)
    requires Gapless(s, uid, balance) && Disjoint(s.subs) && LatestEnding(s.subs, id)
    ensures Gapless(Step(s, Extend(id, days)), uid, Metered(s, Extend(id, days), uid, balance))
  {
    var r, t := Extended(s.subs[id], days, s.now), Step(s, Extend(id, days));
    HorizonBounds(s.subs, uid, s.now);
    HorizonOfUpdate(s.subs, id, r, uid, s.now);
    forall at | s.now <= at < s.now + Metered(s, Extend(id, days), uid, balance) ensures Entitled(t, uid, at) {
      if at < s.now + balance {
        StillEntitled(s, t, uid, at);
      } else {
        assert Covers(t.subs[id], uid, at);
      }
    }
  }

  lemma TickMeters(s: State, uid: Id, balance: nat, elapsed: nat)
    requires Gapless(s, uid, balance)
    ensures Gapless(Step(s, Tick(elapsed)), uid, Metered(s, Tick(elapsed), uid, balance))
  {
    HorizonTicks(s.subs, uid, s.now, elapsed);
    var t := Step(s, Tick(elapsed));
    forall at | t.now <= at < t.now + Metered(s, Tick(elapsed), uid, balance) ensures Entitled(t, uid, at) {
      StillEntitled(s, t, uid, at);
    }
  }

  lemma {:induction false} MeterRun(s: State, events: seq<Event>, uid: Id, balance: nat)
    requires Gapless(s, uid, balance) && Disjoint(s.subs) && Orderly(s, events) && forall e :: e in events ==> !e.Cancel?
    ensures Gapless(Run(s, events), uid, Balance(s, events, uid, balance))
    decreases |events|
  {
    hide Gapless, Disjoint, LatestEnding;
    if events != [] {
      var e := events[0];
      assert e in events;
      OrderlyStep(s, e);
      match e {
        case Tick(elapsed) => TickMeters(s, uid, balance, elapsed);
        case Subscribe(u, days, planActive, userExists) =>
          if planActive && userExists {
            SubscribeMeters(s, uid, balance, u, days);
          }
        case Extend(id, days) => ExtendMeters(s, uid, balance, id, days);
        case _ =>
      }
      MeterRun(Step(s, e), events[1..], uid, Metered(s, e, uid, balance));
    }
  }

  /** Without cancellations the service is a prepaid meter: after any orderly run the
      user is entitled at a time from now on exactly while the balance lasts, under
      one window only. No purchased day is lost, counted twice or followed by a gap. */
  lemma PrepaidMeter(now: int, events: seq<Event>, uid: Id, t: int)
    requires Orderly(State(now, []), events) && forall e :: e in events ==> !e.Cancel?
    requires t >= Run(State(now, []), events).now
    ensures var s := Run(State(now, []), events);
      && (Entitled(s, uid, t) <==> t < s.now + Balance(State(now, []), events, uid, 0))
      && (forall i, j :: 0 <= i < |s.subs| && 0 <= j < |s.subs| && Covers(s.subs[i], uid, t) && Covers(s.subs[j], uid, t) ==> i == j)
  {
    var start := State(now, []);
    MeterRun(start, events, uid, 0);
    OrderlyRun(start, events);
    var s := Run(start, events);
    HorizonBounds(s.subs, uid, s.now);
    forall i, j | 0 <= i < |s.subs| && 0 <= j < |s.subs| && Covers(s.subs[i], uid, t) && Covers(s.subs[j], uid, t) ensures i == j {
      assert i < j ==> Apart(s.subs[i], s.subs[j]);
      assert j < i ==> Apart(s.subs[j], s.subs[i]);
    }
  }

  // ---------------------------------------------------------------------
  // The service

  class SubscriptionsService {
    var now: int
    var subs: seq<Subscription>

    constructor (time: int)
      ensures View() == State(time, [])
    {
      now, subs := time, [];
    }

    function View(): State
      reads this
    {
      State(now, subs)
    }

    /** The active unexpired subscription that ends last. */
    method FindCurrent(uid: Id) returns (current: Option<nat>)
      ensures current.Some? ==> current.value < |subs| && subs[current.value].endsAt > now
      ensures Horizon(subs, uid, now) == if current.Some? then subs[current.value].endsAt else now
    {
      current := None;
      for i := 0 to |subs|
        invariant current.Some? ==> current.value < i && subs[current.value].endsAt > now
        invariant Horizon(subs[..i], uid, now) == if current.Some? then subs[current.value].endsAt else now
      {
        assert subs[..i + 1][..i] == subs[..i];
        var r := subs[i];
        if r.uid == uid && r.active && r.endsAt > now && (current.None? || r.endsAt > subs[current.value].endsAt) {
          current := Some(i);
        }
      }
      assert subs[..|subs|] == subs;
    }

    method Subscribe(uid: Id, days: pos, planActive: bool, userExists: bool) returns (ok: bool)
      modifies this`subs
      ensures View() == Step(old(View()), Event.Subscribe(uid, days, planActive, userExists)) && (ok <==> planActive && userExists)
    {
      if !planActive {
        return false;
      }
      if !userExists {
        return false;
      }
      var current := FindCurrent(uid);
      var startsAt := if current.Some? && subs[current.value].endsAt > now then subs[current.value].endsAt else now;
      subs := subs + [Subscription(uid, true, startsAt, startsAt + days * DAY)];
      return true;
    }

    method Extend(id: nat, days: pos) returns (ok: bool)
      modifies this`subs
      ensures View() == Step(old(View()), Event.Extend(id, days)) && (ok <==> id < |subs|)
    {
      if id >= |subs| {
        return false;
      }
      var latest := if subs[id].endsAt > now then subs[id].endsAt else now;
      subs := subs[id := subs[id].(endsAt := latest + days * DAY, active := true)];
      return true;
    }

    method Cancel(id: nat) returns (ok: bool)
      modifies this`subs
      ensures View() == Step(old(View()), Event.Cancel(id)) && (ok <==> id < |subs|)
    {
      if id >= |subs| {
        return false;
      }
      subs := subs[id := subs[id].(active := false)];
      return true;
    }

    method Validate(uid: Id) returns (active: bool)
      ensures active <==> Entitled(View(), uid, now)
    {
      for i := 0 to |subs|
        invariant forall j :: 0 <= j < i ==> !Covers(subs[j], uid, now)
      {
        var r := subs[i];
        if r.uid == uid && r.active && r.startsAt <= now && r.endsAt > now {
          return true;
        }
      }
      return false;
    }
  }
}
