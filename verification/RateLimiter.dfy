/** The sliding-window limiter in front of Jito bundle submission (`src/rate_limiter.rs`). */
module RateLimiting {
  import opened Words

  /** One second, in the nanoseconds of an `Instant`. */
  const SECOND: int := 1_000_000_000

  /** The timestamps `retain` keeps: those strictly after `cutoff`. */
  function Retain(ts: seq<int>, cutoff: int): (r: seq<int>)
    ensures |r| <= |ts|
  {
    if ts == [] then []
    else Retain(ts[..|ts| - 1], cutoff) + if ts[|ts| - 1] > cutoff then [ts[|ts| - 1]] else []
  }

  /** One probe at `now` of a limiter that keeps `stamps`: what it keeps then, and whether it grants. */
  function Asked(max: nat, stamps: seq<int>, now: int): (seq<int>, bool) {
    var kept := Retain(stamps, now - SECOND);
    (if |kept| < max then kept + [now] else kept, |kept| < max)
  }

  class RateLimiter {
    const maxPerSecond: u32
    var timestamps: seq<int>
    /** When the limiter has been asked so far. */
    ghost var requests: seq<int>

    /** The stored timestamps are what the run of all requests left, and no more are kept than the
        limit, so the `as u32` cast of their number is exact. */
    ghost predicate Valid()
      reads this
    {
      timestamps == RunOf(maxPerSecond, requests).timestamps && |timestamps| <= maxPerSecond
    }

    constructor (maxPerSecond: u32)
      ensures Valid() && this.maxPerSecond == maxPerSecond && requests == []
    {
      this.maxPerSecond := maxPerSecond;
      timestamps := [];
      requests := [];
    }

    method TryAcquire(now: int) returns (granted: bool)
      requires Valid()
      modifies this`timestamps, this`requests
      ensures Valid() && requests == old(requests) + [now]
      ensures granted == Granted(maxPerSecond, requests)[|old(requests)|]
      ensures (timestamps, granted) == Asked(maxPerSecond, old(timestamps), now)
    {
      granted := Probe(now);
      RunAppend(maxPerSecond, requests, now);
      requests := requests + [now];
    }

    /** Prune, then grant when there is room. */
    method Probe(now: int) returns (granted: bool)
      requires |timestamps| <= maxPerSecond
      modifies this`timestamps
      ensures (timestamps, granted) == Asked(maxPerSecond, old(timestamps), now) && |timestamps| <= maxPerSecond
    {
      var oneSecAgo := now - SECOND;
      timestamps := Retain(timestamps, oneSecAgo);
      if AsU32(|timestamps|) < maxPerSecond {
        timestamps := timestamps + [now];
        granted := true;
      } else {
        granted := false;
      }
    }
  }

  // ── Whole runs ────────────────────────────────────────────────────────────

  /** What a limiter holds and what it answered after a run of requests at `times`. */
  datatype Run = Run(timestamps: seq<int>, granted: seq<bool>)

  /** A fresh limiter asked at each of `times` in turn. */
  function RunOf(max: nat, times: seq<int>): (r: Run)
    ensures |r.granted| == |times|
  {
    if times == [] then Run([], [])
    else
      var before := RunOf(max, times[..|times| - 1]);
      var now := times[|times| - 1];
      var kept := Retain(before.timestamps, now - SECOND);
      var ok := |kept| < max;
      Run(kept + if ok then [now] else [], before.granted + [ok])
  }

  function Granted(max: nat, times: seq<int>): (g: seq<bool>)
    ensures |g| == |times|
  {
    RunOf(max, times).granted
  }

  /** One request more: the step of `try_acquire`. */
  lemma RunAppend(max: nat, times: seq<int>, now: int)
    ensures (RunOf(max, times + [now]).timestamps, Granted(max, times + [now])[|times|])
            == Asked(max, RunOf(max, times).timestamps, now)
  {
    assert (times + [now])[..|times|] == times;
    var kept := Retain(RunOf(max, times).timestamps, now - SECOND);
    assert kept + [] == kept;
    StepTimestamps(max, times + [now]);
  }

  lemma StepTimestamps(max: nat, times: seq<int>)
    requires times != []
    ensures var n := |times| - 1;
            var kept := Retain(RunOf(max, times[..n]).timestamps, times[n] - SECOND);
            && RunOf(max, times).timestamps == kept + (if |kept| < max then [times[n]] else [])
            && (Granted(max, times)[n] <==> |kept| < max)
  {
  }

  ghost predicate Nondecreasing(times: seq<int>) {
    forall i, j :: 0 <= i < j < |times| ==> times[i] <= times[j]
  }

  /** How many of the requests at `times` that `policy` granted lie in (lo, hi]. */
  function Count(times: seq<int>, policy: seq<bool>, lo: int, hi: int): nat
    requires |times| == |policy|
  {
    if times == [] then 0
    else
      var n := |times| - 1;
      Count(times[..n], policy[..n], lo, hi) + if policy[n] && lo < times[n] <= hi then 1 else 0
  }

  /** Grants in the one-second window (t - 1s, t]. */
  function InWindow(times: seq<int>, policy: seq<bool>, t: int): nat
    requires |times| == |policy|
  {
    Count(times, policy, t - SECOND, t)
  }

  /** A policy that never grants more than `max` in any one-second window. */
  ghost predicate Admissible(max: nat, times: seq<int>, policy: seq<bool>) {
    && |policy| == |times|
    && forall t :: InWindow(times, policy, t) <= max
  }

  lemma PrefixNondecreasing(times: seq<int>, n: nat)
    requires Nondecreasing(times) && n <= |times|
    ensures Nondecreasing(times[..n])
  {
  }

  lemma GrantedPrefix(max: nat, times: seq<int>, n: nat)
    requires n <= |times|
    ensures Granted(max, times[..n]) == Granted(max, times)[..n]
  {
    if n < |times| {
      GrantedPrefix(max, times[..|times| - 1], n);
      assert times[..|times| - 1][..n] == times[..n];
    } else {
      assert times[..n] == times;
    }
  }

  lemma {:induction false} RetainAppend(ts: seq<int>, t: int, cutoff: int)
    ensures Retain(ts + [t], cutoff) == Retain(ts, cutoff) + if t > cutoff then [t] else []
  {
    assert (ts + [t])[..|ts|] == ts;
  }

  lemma {:induction false} RetainRetain(ts: seq<int>, a: int, b: int)
    requires a <= b
    ensures Retain(Retain(ts, a), b) == Retain(ts, b)
  {
    if ts != [] {
      var n := |ts| - 1;
      RetainRetain(ts[..n], a, b);
      RetainAppend(Retain(ts[..n], a), ts[n], b);
      assert Retain(ts[..n], a) + [] == Retain(ts[..n], a);
      assert Retain(ts[..n], b) + [] == Retain(ts[..n], b);
    }
  }

  lemma {:induction false} CountMonotone(times: seq<int>, policy: seq<bool>, lo: int, hi: int, lo': int, hi': int)
    requires |times| == |policy|
    requires forall i :: 0 <= i < |times| && lo < times[i] <= hi ==> lo' < times[i] <= hi'
    ensures Count(times, policy, lo, hi) <= Count(times, policy, lo', hi')
  {
    if times != [] {
      var n := |times| - 1;
      CountMonotone(times[..n], policy[..n], lo, hi, lo', hi');
    }
  }

  /** The stored timestamps are the recent grants: from any cutoff not older than one second
      before the last request, they count the same. */
  lemma {:induction false} StoredIsRecent(max: nat, times: seq<int>, cutoff: int, hi: int)
    requires Nondecreasing(times)
    requires times != [] ==> times[|times| - 1] - SECOND <= cutoff && times[|times| - 1] <= hi
    ensures |Retain(RunOf(max, times).timestamps, cutoff)| == Count(times, Granted(max, times), cutoff, hi)
  {
    if times != [] {
      var n := |times| - 1;
      PrefixNondecreasing(times, n);
      StoredIsRecent(max, times[..n], cutoff, hi);
      StoredStep(max, times, cutoff);
      CountStep(times, Granted(max, times), cutoff, hi);
      GrantedPrefix(max, times, n);
    }
  }

  lemma StoredStep(max: nat, times: seq<int>, cutoff: int)
    requires times != [] && times[|times| - 1] - SECOND <= cutoff
    ensures |Retain(RunOf(max, times).timestamps, cutoff)|
            == |Retain(RunOf(max, times[..|times| - 1]).timestamps, cutoff)|
               + if Granted(max, times)[|times| - 1] && cutoff < times[|times| - 1] then 1 else 0
  {
    StepTimestamps(max, times);
    RetainStep(RunOf(max, times[..|times| - 1]).timestamps, RunOf(max, times).timestamps, times[|times| - 1], cutoff, max);
  }

  /** What pruning one second before `now` and then recording a grant leaves after `cutoff`. */
  lemma RetainStep(stored: seq<int>, stored': seq<int>, now: int, cutoff: int, max: nat)
    requires now - SECOND <= cutoff
    requires var kept := Retain(stored, now - SECOND);
             stored' == kept + if |kept| < max then [now] else []
    ensures |Retain(stored', cutoff)|
            == |Retain(stored, cutoff)| + if |Retain(stored, now - SECOND)| < max && cutoff < now then 1 else 0
  {
    var kept := Retain(stored, now - SECOND);
    RetainRetain(stored, now - SECOND, cutoff);
    RetainAppend(kept, now, cutoff);
    assert kept + [] == kept;
  }

  lemma CountStep(times: seq<int>, policy: seq<bool>, lo: int, hi: int)
    requires |times| == |policy| && times != []
    ensures var n := |times| - 1;
            Count(times, policy, lo, hi)
            == Count(times[..n], policy[..n], lo, hi) + if policy[n] && lo < times[n] <= hi then 1 else 0
  {
  }

  lemma LastGrant(max: nat, times: seq<int>)
    requires Nondecreasing(times) && times != []
    ensures var n := |times| - 1;
            Granted(max, times)[n] <==> InWindow(times[..n], Granted(max, times[..n]), times[n]) < max
  {
    var n := |times| - 1;
    PrefixNondecreasing(times, n);
    StoredIsRecent(max, times[..n], times[n] - SECOND, times[n]);
    StepTimestamps(max, times);
  }

  /** A request is granted exactly when the window ending now, over the earlier requests, is not full. */
  lemma GrantIffRoom(max: nat, times: seq<int>, i: nat)
    requires Nondecreasing(times) && i < |times|
    ensures Granted(max, times)[i] <==>
            InWindow(times[..i], Granted(max, times)[..i], times[i]) < max
  {
    GrantedPrefix(max, times, i);
    GrantedPrefix(max, times, i + 1);
    PrefixNondecreasing(times, i + 1);
    assert times[..i + 1][..i] == times[..i];
    LastGrant(max, times[..i + 1]);
  }

  /** Safety: in every run, every window (t - 1s, t] holds at most `max` grants. */
  lemma {:induction false} WindowSafety(max: nat, times: seq<int>, t: int)
    requires Nondecreasing(times)
    ensures InWindow(times, Granted(max, times), t) <= max
  {
    if times != [] {
      var n := |times| - 1;
      var g := Granted(max, times);
      PrefixNondecreasing(times, n);
      GrantedPrefix(max, times, n);
      WindowSafety(max, times[..n], t);
      if g[n] && t - SECOND < times[n] <= t {
        GrantIffRoom(max, times, n);
        CountMonotone(times[..n], g[..n], t - SECOND, t, times[n] - SECOND, times[n]);
      }
    }
  }

  /** Exactness: a refusal happens exactly when the window ending now already holds `max` grants. */
  lemma RefusalExact(max: nat, times: seq<int>, i: nat)
    requires Nondecreasing(times) && i < |times|
    ensures !Granted(max, times)[i] <==>
            InWindow(times[..i], Granted(max, times)[..i], times[i]) == max
  {
    GrantIffRoom(max, times, i);
    GrantedPrefix(max, times, i);
    PrefixNondecreasing(times, i);
    WindowSafety(max, times[..i], times[i]);
  }

  // ── Greedy optimality ─────────────────────────────────────────────────────

  /** The times at which `policy` granted, in order. */
  function GrantTimes(times: seq<int>, policy: seq<bool>): (r: seq<int>)
    requires |times| == |policy|
    ensures |r| <= |times|
  {
    if times == [] then []
    else
      var n := |times| - 1;
      GrantTimes(times[..n], policy[..n]) + if policy[n] then [times[n]] else []
  }

  /** The first request later than `cutoff`. */
  lemma SplitAt(times: seq<int>, cutoff: int) returns (m: nat)
    requires Nondecreasing(times)
    ensures m <= |times|
    ensures forall i :: 0 <= i < m ==> times[i] <= cutoff
    ensures forall i :: m <= i < |times| ==> times[i] > cutoff
  {
    m := 0;
    while m < |times| && times[m] <= cutoff
      invariant m <= |times|
      invariant forall i :: 0 <= i < m ==> times[i] <= cutoff
    {
      m := m + 1;
    }
  }

  /** Grants up to a prefix plus grants in the window after it are all grants. */
  lemma {:induction false} CountSplit(times: seq<int>, policy: seq<bool>, m: nat, lo: int, hi: int)
    requires |times| == |policy| && m <= |times|
    requires forall i :: 0 <= i < m ==> times[i] <= lo
    requires forall i :: m <= i < |times| ==> lo < times[i] <= hi
    ensures |GrantTimes(times, policy)| == |GrantTimes(times[..m], policy[..m])| + Count(times, policy, lo, hi)
    decreases |times|
  {
    var n := |times|;
    if m == n {
      assert times[..m] == times && policy[..m] == policy;
      CountMonotone(times, policy, lo, hi, 0, 0);
      CountEmpty(times, policy, 0);
    } else {
      CountSplit(times[..n - 1], policy[..n - 1], m, lo, hi);
      assert times[..n - 1][..m] == times[..m] && policy[..n - 1][..m] == policy[..m];
    }
  }

  lemma {:induction false} CountEmpty(times: seq<int>, policy: seq<bool>, t: int)
    requires |times| == |policy|
    ensures Count(times, policy, t, t) == 0
  {
    if times != [] {
      CountEmpty(times[..|times| - 1], policy[..|times| - 1], t);
    }
  }

  lemma {:induction false} AdmissiblePrefix(max: nat, times: seq<int>, policy: seq<bool>, n: nat)
    requires Admissible(max, times, policy) && n <= |times|
    ensures Admissible(max, times[..n], policy[..n])
    decreases |times| - n
  {
    if n == |times| {
      assert times[..n] == times && policy[..n] == policy;
    } else {
      AdmissiblePrefix(max, times, policy, n + 1);
      assert times[..n + 1][..n] == times[..n] && policy[..n + 1][..n] == policy[..n];
      forall t
        ensures InWindow(times[..n], policy[..n], t) <= max
      {
        assert InWindow(times[..n + 1], policy[..n + 1], t) <= max;
      }
    }
  }

  /** The refused case: the full window makes up for the grant the other policy gains, provided the
      limiter was not behind when that window opened, at request `m`. */
  lemma RefusalKeepsUp(max: nat, times: seq<int>, policy: seq<bool>, m: nat)
    requires Nondecreasing(times) && Admissible(max, times, policy)
    requires times != [] && !Granted(max, times)[|times| - 1]
    requires m < |times|
    requires forall i :: 0 <= i < m ==> times[i] <= times[|times| - 1] - SECOND
    requires forall i :: m <= i < |times| ==> times[i] > times[|times| - 1] - SECOND
    requires |GrantTimes(times[..m], policy[..m])| <= |GrantTimes(times[..m], Granted(max, times)[..m])|
    ensures |GrantTimes(times, policy)| <= |GrantTimes(times, Granted(max, times))|
  {
    var n := |times| - 1;
    var g := Granted(max, times);
    var lo, hi := times[n] - SECOND, times[n];
    RefusalExact(max, times, n);
    assert InWindow(times, g, hi) == max by { CountStep(times, g, lo, hi); }
    assert InWindow(times, policy, hi) <= max;
    CountSplit(times, g, m, lo, hi);
    CountSplit(times, policy, m, lo, hi);
  }

  /** On every run the greedy limiter has granted at least as often as any admissible policy. */
  lemma {:induction false} GreedyGrantsMost(max: nat, times: seq<int>, policy: seq<bool>)
    requires Nondecreasing(times) && Admissible(max, times, policy)
    ensures |GrantTimes(times, policy)| <= |GrantTimes(times, Granted(max, times))|
    decreases |times|
  {
    if times != [] {
      var n := |times| - 1;
      var g := Granted(max, times);
      if g[n] {
        GreedyMostPrefix(max, times, policy, n);
      } else {
        var m := SplitAt(times, times[n] - SECOND);
        GreedyMostPrefix(max, times, policy, m);
        RefusalKeepsUp(max, times, policy, m);
      }
    }
  }

  lemma {:induction false} GreedyMostPrefix(max: nat, times: seq<int>, policy: seq<bool>, m: nat)
    requires Nondecreasing(times) && Admissible(max, times, policy) && m < |times|
    ensures |GrantTimes(times[..m], policy[..m])| <= |GrantTimes(times[..m], Granted(max, times)[..m])|
    decreases |times|, 0
  {
    PrefixNondecreasing(times, m);
    GrantedPrefix(max, times, m);
    AdmissiblePrefix(max, times, policy, m);
    GreedyGrantsMost(max, times[..m], policy[..m]);
  }

  lemma {:induction false} GrantTimesPrefix(times: seq<int>, policy: seq<bool>, n: nat)
    requires |times| == |policy| && n <= |times|
    ensures GrantTimes(times[..n], policy[..n]) <= GrantTimes(times, policy)
    decreases |times| - n
  {
    if n == |times| {
      assert times[..n] == times && policy[..n] == policy;
    } else {
      GrantTimesPrefix(times, policy, n + 1);
      assert times[..n + 1][..n] == times[..n] && policy[..n + 1][..n] == policy[..n];
    }
  }

  /** The request that received the i-th grant. */
  lemma {:induction false} GrantIndex(times: seq<int>, policy: seq<bool>, i: nat) returns (k: nat)
    requires |times| == |policy| && i < |GrantTimes(times, policy)|
    ensures k < |times| && times[k] == GrantTimes(times, policy)[i]
    ensures |GrantTimes(times[..k + 1], policy[..k + 1])| == i + 1
  {
    var n := |times| - 1;
    if i < |GrantTimes(times[..n], policy[..n])| {
      k := GrantIndex(times[..n], policy[..n], i);
      assert times[..n][..k + 1] == times[..k + 1] && policy[..n][..k + 1] == policy[..k + 1];
    } else {
      k := n;
      assert times[..k + 1] == times && policy[..k + 1] == policy;
    }
  }

  /** Optimality: the i-th grant of the limiter comes no later than the i-th grant of any policy
      that respects the same window bound, and such a policy never has more grants. */
  lemma GreedyOptimal(max: nat, times: seq<int>, policy: seq<bool>, i: nat)
    requires Nondecreasing(times) && Admissible(max, times, policy)
    requires i < |GrantTimes(times, policy)|
    ensures i < |GrantTimes(times, Granted(max, times))|
    ensures GrantTimes(times, Granted(max, times))[i] <= GrantTimes(times, policy)[i]
  {
    var g := Granted(max, times);
    var k := GrantIndex(times, policy, i);
    PrefixNondecreasing(times, k + 1);
    AdmissiblePrefix(max, times, policy, k + 1);
    GreedyGrantsMost(max, times[..k + 1], policy[..k + 1]);
    GrantedPrefix(max, times, k + 1);
    GrantTimesPrefix(times, g, k + 1);
    GrantTimesBounded(times[..k + 1], g[..k + 1], times[k], i);
  }

  lemma {:induction false} GrantTimesBounded(times: seq<int>, policy: seq<bool>, hi: int, i: nat)
    requires |times| == |policy| && i < |GrantTimes(times, policy)|
    requires forall j :: 0 <= j < |times| ==> times[j] <= hi
    ensures GrantTimes(times, policy)[i] <= hi
  {
    var n := |times| - 1;
    if i < |GrantTimes(times[..n], policy[..n])| {
      GrantTimesBounded(times[..n], policy[..n], hi, i);
    }
  }

  /** The limiter itself is one of the policies it is compared with. */
  lemma GreedyAdmissible(max: nat, times: seq<int>)
    requires Nondecreasing(times)
    ensures Admissible(max, times, Granted(max, times))
  {
    forall t
      ensures InWindow(times, Granted(max, times), t) <= max
    {
      WindowSafety(max, times, t);
    }
  }

  // ── REST first, gRPC second ───────────────────────────────────────────────

  datatype Slot = Rest | Grpc | NoSlot

  /** The worker's choice: the REST limiter, else the gRPC limiter when there is one. */
  method AcquireSlot(rest: RateLimiter, grpc: RateLimiter?, restNow: int, grpcNow: int) returns (slot: Slot)
    requires rest.Valid() && (grpc != null ==> grpc.Valid() && grpc != rest)
    modifies rest, grpc
    ensures rest.Valid() && (grpc != null ==> grpc.Valid())
    ensures (rest.timestamps, slot == Rest) == Asked(rest.maxPerSecond, old(rest.timestamps), restNow)
    ensures grpc != null && slot == Rest ==> grpc.timestamps == old(grpc.timestamps)
    ensures grpc != null && slot != Rest ==>
              (grpc.timestamps, slot == Grpc) == Asked(grpc.maxPerSecond, old(grpc.timestamps), grpcNow)
    ensures grpc == null ==> slot != Grpc
  {
    var ok := rest.TryAcquire(restNow);
    if ok {
      return Rest;
    }
    if grpc != null {
      ok := grpc.TryAcquire(grpcNow);
      if ok {
        return Grpc;
      }
    }
    slot := NoSlot;
  }

  /** One locked probe of a limiter by some worker. */
  datatype Probe = Probe(onGrpc: bool, at: int)

  function TimesOf(probes: seq<Probe>, onGrpc: bool): seq<int> {
    if probes == [] then []
    else
      var n := |probes| - 1;
      TimesOf(probes[..n], onGrpc) + if probes[n].onGrpc == onGrpc then [probes[n].at] else []
  }

  lemma {:induction false} TimesNondecreasing(probes: seq<Probe>, onGrpc: bool)
    requires forall i, j :: 0 <= i < j < |probes| ==> probes[i].at <= probes[j].at
    ensures Nondecreasing(TimesOf(probes, onGrpc))
    ensures forall i :: 0 <= i < |TimesOf(probes, onGrpc)| ==> TimesOf(probes, onGrpc)[i] <= probes[|probes| - 1].at
  {
    if probes != [] {
      TimesNondecreasing(probes[..|probes| - 1], onGrpc);
    }
  }

  /** Whatever way the workers' probes of the two limiters interleave, together they acquire at most
      the sum of the two limits in any one-second window. */
  lemma CombinedBound(restMax: nat, grpcMax: nat, probes: seq<Probe>, t: int)
    requires forall i, j :: 0 <= i < j < |probes| ==> probes[i].at <= probes[j].at
    ensures var r, g := TimesOf(probes, false), TimesOf(probes, true);
            InWindow(r, Granted(restMax, r), t) + InWindow(g, Granted(grpcMax, g), t) <= restMax + grpcMax
  {
    TimesNondecreasing(probes, false);
    TimesNondecreasing(probes, true);
    WindowSafety(restMax, TimesOf(probes, false), t);
    WindowSafety(grpcMax, TimesOf(probes, true), t);
  }
}
