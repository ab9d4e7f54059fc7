/** The fixed-window rate limiter (src/common/security/redis-rate-limit.guard.ts:13-27,
    src/common/redis/redis.service.ts:40-46). Time is in seconds and never goes back. */
module RateLimit {
  import opened Sets
  import opened Text

  /** A counter in Redis; it is gone once `expiresAt` is reached. */
  datatype Counter = Counter(count: pos, expiresAt: int)

  type pos = n: nat | n > 0 witness 1

  /** The live counter of a key. */
  function Live(c: Option<Counter>, now: int): Option<Counter> {
    if c.Some? && c.value.expiresAt > now then c else None
  }

  /** `INCR`, and `EXPIRE` for a counter just created. */
  function Incremented(c: Option<Counter>, ttl: nat, now: int): Counter {
    var live := Live(c, now);
    if live.None? then Counter(1, now + ttl) else Counter(live.value.count + 1, live.value.expiresAt)
  }

  type Counters = map<string, Counter>

  function Of(counters: Counters, key: string): Option<Counter> { if key in counters then Some(counters[key]) else None }

  /** A request: its key, the options of its handler, its time, and whether Redis can be reached. */
  datatype Request = Request(key: string, limit: nat, window: nat, at: int, reachable: bool)

  /** The counters after a request. */
  function Served(counters: Counters, r: Request): Counters {
    if r.reachable then counters[r.key := Incremented(Of(counters, r.key), r.window, r.at)] else counters
  }

  /** Up to the limit, or uncounted when Redis cannot be reached. */
  predicate Admits(counters: Counters, r: Request) {
    r.reachable ==> Incremented(Of(counters, r.key), r.window, r.at).count <= r.limit
  }

  class RateLimiter {
    var counters: Counters

    constructor ()
      ensures counters == map[]
    {
      counters := map[];
    }

    method IncrementWithExpiry(key: string, ttl: nat, now: int) returns (count: pos)
      modifies this
      ensures counters == old(counters)[key := Incremented(old(Of(counters, key)), ttl, now)]
      ensures count == counters[key].count
    {
      if key in counters && counters[key].expiresAt <= now {
        counters := counters - {key};
      }
      count := if key in counters then counters[key].count + 1 else 1;
      if count == 1 {
        counters := counters[key := Counter(1, now + ttl)];
        assert counters == old(counters)[key := Counter(1, now + ttl)];
      } else {
        counters := counters[key := counters[key].(count := count)];
      }
    }

    method CanActivate(r: Request) returns (admitted: bool)
      modifies this
      ensures counters == Served(old(counters), r) && (admitted <==> Admits(old(counters), r))
    {
      var count: nat := 0;
      if r.reachable {
        count := IncrementWithExpiry(r.key, r.window, r.at);
      }
      return count <= r.limit;
    }
  }

  // ---------------------------------------------------------------------
  // What one key's requests see

  /** The counter after each of the requests, by their times. */
  function Counted(times: seq<int>, ttl: nat): (cs: seq<Counter>)
    ensures |cs| == |times|
  {
    if times == [] then []
    else
      var before := Counted(times[..|times| - 1], ttl);
      before + [Incremented(if before == [] then None else Some(before[|before| - 1]), ttl, times[|times| - 1])]
  }

  predicate Ordered(times: seq<int>) { forall i, j :: 0 <= i <= j < |times| ==> times[i] <= times[j] }

  lemma {:induction false} CountersPrefix(times: seq<int>, ttl: nat, n: nat)
    requires n <= |times|
    ensures Counted(times[..n], ttl) == Counted(times, ttl)[..n]
    decreases |times|
  {
    if n < |times| {
      CountersPrefix(times[..|times| - 1], ttl, n);
      assert times[..|times| - 1][..n] == times[..n];
    } else {
      assert times[..n] == times;
    }
  }

  /** Each request falls in the window of its counter, and consecutive requests share
      a window or open a later one. */
  lemma NextCounter(times: seq<int>, ttl: nat, i: nat)
    requires i < |times| && ttl > 0
    ensures var cs := Counted(times, ttl);
      if i > 0 && cs[i - 1].expiresAt > times[i] then cs[i] == Counter(cs[i - 1].count + 1, cs[i - 1].expiresAt)
      else cs[i] == Counter(1, times[i] + ttl)
  {
    CountersPrefix(times, ttl, i + 1);
    CountersPrefix(times, ttl, i);
    assert times[..i + 1][..i] == times[..i];
    assert Counted(times, ttl)[..i + 1][i] == Counted(times, ttl)[i];
    assert i > 0 ==> Counted(times, ttl)[..i][i - 1] == Counted(times, ttl)[i - 1];
  }

  lemma {:induction false} InWindow(times: seq<int>, ttl: nat, i: nat)
    requires i < |times| && ttl > 0 && Ordered(times)
    ensures var c := Counted(times, ttl)[i]; c.expiresAt - ttl <= times[i] < c.expiresAt && c.count > 0
  {
    NextCounter(times, ttl, i);
    if i > 0 {
      InWindow(times, ttl, i - 1);
    }
  }

  /** Two requests share a window, in which they count up, or the later one's window
      begins when the earlier one's has ended. */
  lemma {:induction false} SameOrLater(times: seq<int>, ttl: nat, i: nat, j: nat)
    requires i < j < |times| && ttl > 0 && Ordered(times)
    ensures var cs := Counted(times, ttl);
      (cs[j].expiresAt == cs[i].expiresAt && cs[j].count == cs[i].count + (j - i)) || cs[j].expiresAt >= cs[i].expiresAt + ttl
    decreases j
  {
    NextCounter(times, ttl, j);
    if i < j - 1 {
      SameOrLater(times, ttl, i, j - 1);
    }
  }

  // ---------------------------------------------------------------------
  // How many are admitted

  /** The admitted requests of one window. */
  ghost function InCounterWindow(times: seq<int>, ttl: nat, limit: nat, expiresAt: int): set<nat> {
    set i: nat | i < |times| && Counted(times, ttl)[i].expiresAt == expiresAt && Counted(times, ttl)[i].count <= limit
  }

  /** The admitted requests from `from` to `to`, both included. */
  ghost function Between(times: seq<int>, ttl: nat, limit: nat, from: int, to: int): set<nat> {
    set i: nat | i < |times| && from <= times[i] <= to && Counted(times, ttl)[i].count <= limit
  }

  /** Distinct indices with distinct counts from 1 to `n`. */
  lemma {:induction false} Injects(ids: set<nat>, cs: seq<Counter>, n: nat)
    requires forall i :: i in ids ==> i < |cs| && 1 <= cs[i].count <= n
    requires forall i, j :: i in ids && j in ids && cs[i].count == cs[j].count ==> i == j
    ensures |ids| <= n
  {
    if i :| i in ids && cs[i].count == n {
      Injects(ids - {i}, cs, n - 1);
      assert |ids - {i}| == |ids| - 1;
    } else if n > 0 {
      Injects(ids, cs, n - 1);
    } else {
      assert forall i :: i !in ids;
      assert ids == {};
    }
  }

  /** At most `limit` requests are admitted in each counter window. */
  lemma WindowBound(times: seq<int>, ttl: nat, limit: nat, expiresAt: int)
    requires ttl > 0 && Ordered(times)
    ensures |InCounterWindow(times, ttl, limit, expiresAt)| <= limit
  {
    hide Counted;
    var ids, cs := InCounterWindow(times, ttl, limit, expiresAt), Counted(times, ttl);
    forall i | i in ids ensures cs[i].count > 0 {
      InWindow(times, ttl, i);
    }
    forall i, j | i in ids && j in ids && cs[i].count == cs[j].count ensures i == j {
      if i < j {
        SameOrLater(times, ttl, i, j);
      } else if j < i {
        SameOrLater(times, ttl, j, i);
      }
    }
    Injects(ids, cs, limit);
  }

  /** At most twice `limit` requests are admitted in any interval as long as the
      window, for every sequence of requests. */
  lemma IntervalBound(times: seq<int>, ttl: nat, limit: nat, from: int)
    requires ttl > 0 && Ordered(times)
    ensures |Between(times, ttl, limit, from, from + ttl)| <= 2 * limit
  {
    hide Counted;
    var ids, cs := Between(times, ttl, limit, from, from + ttl), Counted(times, ttl);
    if ids != {} {
      var first := Least(ids);
      var a := InCounterWindow(times, ttl, limit, cs[first].expiresAt);
      WindowBound(times, ttl, limit, cs[first].expiresAt);
      var rest := ids - a;
      if rest == {} {
        assert forall i :: i in ids ==> i in a || i in rest;
        Smaller(ids, a);
      } else {
        var second := Least(rest);
        var b := InCounterWindow(times, ttl, limit, cs[second].expiresAt);
        WindowBound(times, ttl, limit, cs[second].expiresAt);
        InWindow(times, ttl, first);
        SameOrLater(times, ttl, first, second);
        forall i | i in rest ensures i in b {
          if i > second {
            InWindow(times, ttl, i);
            SameOrLater(times, ttl, second, i);
          }
        }
        forall i | i in ids ensures i in a + b {
          assert i in a || i in rest;
        }
        Smaller(ids, a + b);
        assert |a + b| <= |a| + |b|;
      }
    }
  }

  lemma Least(ids: set<nat>) returns (m: nat)
    requires ids != {}
    ensures m in ids && forall i :: i in ids ==> m <= i
    decreases ids
  {
    m :| m in ids;
    assert forall i :: i in ids ==> i == m || i in ids - {m};
    if ids - {m} != {} {
      var n := Least(ids - {m});
      if n < m {
        m := n;
      }
    }
  }

  /** `limit` requests at one instant and `limit` more a window later. */
  function Bursts(ttl: nat, limit: nat): seq<int> { seq(2 * limit, i => if i < limit then 0 else ttl) }

  lemma {:induction false} BurstCounter(ttl: nat, limit: nat, i: nat)
    requires ttl > 0 && i < 2 * limit
    ensures Counted(Bursts(ttl, limit), ttl)[i] == if i < limit then Counter(i + 1, ttl) else Counter(i - limit + 1, 2 * ttl)
  {
    NextCounter(Bursts(ttl, limit), ttl, i);
    if i > 0 {
      BurstCounter(ttl, limit, i - 1);
    }
  }

  /** The factor two cannot be improved: the bursts are all admitted. */
  lemma BoundIsReached(ttl: nat, limit: nat)
    requires ttl > 0
    ensures Ordered(Bursts(ttl, limit)) && |Between(Bursts(ttl, limit), ttl, limit, 0, ttl)| == 2 * limit
  {
    hide Counted;
    forall i: nat | i < 2 * limit ensures i in Between(Bursts(ttl, limit), ttl, limit, 0, ttl) {
      BurstCounter(ttl, limit, i);
    }
    FirstIndices(Between(Bursts(ttl, limit), ttl, limit, 0, ttl), 2 * limit);
  }

  lemma {:induction false} FirstIndices(ids: set<nat>, n: nat)
    requires forall i: nat :: i in ids <==> i < n
    ensures |ids| == n
  {
    if n > 0 {
      FirstIndices(ids - {n - 1}, n - 1);
      assert ids == ids - {n - 1} + {n - 1};
    } else {
      assert ids == {};
    }
  }

  // ---------------------------------------------------------------------
  // Whole runs, over many keys and with outages

  function After(requests: seq<Request>): Counters {
    if requests == [] then map[] else Served(After(requests[..|requests| - 1]), requests[|requests| - 1])
  }

  /** The times of the counted requests of one key. */
  function TimesOf(requests: seq<Request>, key: string): seq<int> {
    if requests == [] then []
    else
      var r := requests[|requests| - 1];
      TimesOf(requests[..|requests| - 1], key) + if r.key == key && r.reachable then [r.at] else []
  }

  predicate Within(r: Request, key: string, from: int, to: int) { r.key == key && from <= r.at <= to }

  /** The requests of the key let through from `from` to `to`. */
  function Passed(requests: seq<Request>, key: string, from: int, to: int): nat {
    if requests == [] then 0
    else
      var front, r := requests[..|requests| - 1], requests[|requests| - 1];
      Passed(front, key, from, to) + if Within(r, key, from, to) && Admits(After(front), r) then 1 else 0
  }

  /** Those that came while Redis could not be reached. */
  function Unreached(requests: seq<Request>, key: string, from: int, to: int): nat {
    if requests == [] then 0
    else
      var r := requests[|requests| - 1];
      Unreached(requests[..|requests| - 1], key, from, to) + if Within(r, key, from, to) && !r.reachable then 1 else 0
  }

  /** Time does not go back, and a key belongs to one handler. */
  ghost predicate Orderly(requests: seq<Request>, key: string, limit: nat, window: nat) {
    && (forall i, j :: 0 <= i <= j < |requests| ==> requests[i].at <= requests[j].at)
    && (forall i :: 0 <= i < |requests| && requests[i].key == key ==> requests[i].limit == limit && requests[i].window == window)
  }

  /** The counter of a key is that of its own requests, whatever came for other keys. */
  lemma {:induction false} CounterOfKey(requests: seq<Request>, key: string, limit: nat, window: nat)
    requires Orderly(requests, key, limit, window)
    ensures var cs := Counted(TimesOf(requests, key), window);
      Of(After(requests), key) == if cs == [] then None else Some(cs[|cs| - 1])
  {
    if requests != [] {
      var front, r := requests[..|requests| - 1], requests[|requests| - 1];
      CounterOfKey(front, key, limit, window);
      if r.key == key && r.reachable {
        var times := TimesOf(front, key);
        assert (times + [r.at])[..|times|] == times;
      } else {
        assert TimesOf(requests, key) == TimesOf(front, key);
      }
    }
  }

  lemma {:induction false} TimesAreOrdered(requests: seq<Request>, key: string)
    requires forall i, j :: 0 <= i <= j < |requests| ==> requests[i].at <= requests[j].at
    ensures Ordered(TimesOf(requests, key))
    ensures forall t :: t in TimesOf(requests, key) ==> requests != [] && t <= requests[|requests| - 1].at
  {
    if requests != [] {
      TimesAreOrdered(requests[..|requests| - 1], key);
      var times := TimesOf(requests[..|requests| - 1], key);
      forall i | 0 <= i < |times| ensures times[i] <= requests[|requests| - 1].at {
        assert times[i] in times;
      }
    }
  }

  lemma BetweenGrows(times: seq<int>, t: int, ttl: nat, limit: nat, from: int, to: int)
    ensures var all, n := times + [t], |times|;
      |Between(all, ttl, limit, from, to)| == |Between(times, ttl, limit, from, to)|
        + if from <= t <= to && Counted(all, ttl)[n].count <= limit then 1 else 0
  {
    var all, n := times + [t], |times|;
    CountersPrefix(all, ttl, n);
    assert all[..n] == times;
    hide Counted;
    var more: set<nat> := if from <= t <= to && Counted(all, ttl)[n].count <= limit then {n} else {};
    assert forall i: nat :: i < n ==> Counted(all, ttl)[i] == Counted(all, ttl)[..n][i];
    assert Between(all, ttl, limit, from, to) == Between(times, ttl, limit, from, to) + more;
  }

  lemma {:induction false} PassedIsBetween(requests: seq<Request>, key: string, limit: nat, window: nat, from: int, to: int)
    requires Orderly(requests, key, limit, window)
    ensures Passed(requests, key, from, to)
         == |Between(TimesOf(requests, key), window, limit, from, to)| + Unreached(requests, key, from, to)
  {
    if requests != [] {
      var front, r := requests[..|requests| - 1], requests[|requests| - 1];
      PassedIsBetween(front, key, limit, window, from, to);
      if r.key == key && r.reachable {
        var times := TimesOf(front, key);
        CounterOfKey(front, key, limit, window);
        LastCounted(times, r.at, window);
        hide Between, Counted, After, Incremented;
        BetweenGrows(times, r.at, window, limit, from, to);
      } else {
        hide Between;
        assert TimesOf(requests, key) == TimesOf(front, key);
      }
    } else {
      assert Between([], window, limit, from, to) == {};
    }
  }

  lemma LastCounted(times: seq<int>, t: int, ttl: nat)
    ensures var cs := Counted(times, ttl);
      Counted(times + [t], ttl)[|times|] == Incremented(if cs == [] then None else Some(cs[|cs| - 1]), ttl, t)
  {
    assert (times + [t])[..|times|] == times;
  }

  /** For every run over any keys: in any interval as long as its window a key lets at
      most twice its limit through, besides what came during outages. */
  lemma RunBound(requests: seq<Request>, key: string, limit: nat, window: nat, from: int)
    requires Orderly(requests, key, limit, window) && window > 0
    ensures Passed(requests, key, from, from + window) <= 2 * limit + Unreached(requests, key, from, from + window)
  {
    TimesAreOrdered(requests, key);
    PassedIsBetween(requests, key, limit, window, from, from + window);
    IntervalBound(TimesOf(requests, key), window, limit, from);
  }
}
