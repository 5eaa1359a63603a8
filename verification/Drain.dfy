/**
 Queue-drain arithmetic: how many requests start by a time, and when does one more start?

 The limiter answers in closed form (`StartsWithin`, `WaitForPosition`).  `GreedyStart` is the
 independent definition that gives the answer its meaning: requests take the earliest free
 server, one after the other.
 */
module Drain {
  import opened Common

  const MIN_SERVICE_TIME_S := 0.001
  const DRAIN_BISECT_STEPS: nat := 96

  // ---------------------------------------------------------------- counting

  /** Dispatches one server free at `freeAt` begins at or before `horizon`. */
  function Starts(freeAt: real, service: real, horizon: real): nat
    requires service > 0.0
  {
    if freeAt > horizon then 0
    else
      QuotientNonnegative(horizon - freeAt, service);
      ((horizon - freeAt) / service).Floor + 1
  }

  function TotalStarts(available: seq<real>, service: real, horizon: real): nat
    requires service > 0.0
  {
    if available == [] then 0
    else TotalStarts(available[..|available| - 1], service, horizon)
         + Starts(available[|available| - 1], service, horizon)
  }

  lemma QuotientNonnegative(x: real, y: real)
    requires x >= 0.0 && y > 0.0
    ensures x / y >= 0.0
  {}

  /** `n` starts fit exactly when the n-th begins in time and the next does not. */
  lemma StartsExact(freeAt: real, service: real, horizon: real, n: nat)
    requires service > 0.0 && freeAt <= horizon
    ensures n + 1 == Starts(freeAt, service, horizon)
       <==> freeAt + n as real * service <= horizon < freeAt + (n + 1) as real * service
  {
    var q := (horizon - freeAt) / service;
    var lo, hi := n as real, (n + 1) as real;
    FloorBetween(q, n);
    ScaleQuotient(horizon - freeAt, service, q, lo);
    ScaleQuotient(horizon - freeAt, service, q, hi);
  }

  lemma FloorBetween(q: real, n: nat)
    ensures q.Floor == n <==> n as real <= q < (n + 1) as real
  {}

  /** Comparing with a quotient is comparing with the dividend. */
  lemma ScaleQuotient(x: real, y: real, q: real, m: real)
    requires y > 0.0 && q == x / y
    ensures m * y <= x <==> m <= q
  {
    assert q * y == x;
    if m <= q {
      MulMonotone(m, q, y);
    } else {
      MulStrict(q, m, y);
    }
  }

  lemma MulMonotone(a: real, b: real, c: real)
    requires a <= b && c > 0.0
    ensures a * c <= b * c
  {}

  lemma MulStrict(a: real, b: real, c: real)
    requires a < b && c > 0.0
    ensures a * c < b * c
  {}

  /** A server that has just served one request offers exactly one start fewer. */
  lemma StartsAfterService(freeAt: real, service: real, horizon: real)
    requires service > 0.0
    ensures Starts(freeAt + service, service, horizon)
         == if freeAt <= horizon then Starts(freeAt, service, horizon) - 1 else 0
  {
    if freeAt + service <= horizon {
      var n: nat := Starts(freeAt, service, horizon) - 1;
      StartsExact(freeAt, service, horizon, n);
      if n == 0 {
        assert false;
      }
      assert (n - 1) as real * service == n as real * service - service;
      assert (n + 1) as real * service == n as real * service + service;
      StartsExact(freeAt + service, service, horizon, n - 1);
    } else if freeAt <= horizon {
      StartsExact(freeAt, service, horizon, 0);
    }
  }

  lemma {:induction false} TotalStartsUpdate(a: seq<real>, j: nat, v: real, service: real, horizon: real)
    requires service > 0.0 && j < |a|
    ensures TotalStarts(a[j := v], service, horizon)
         == TotalStarts(a, service, horizon) - Starts(a[j], service, horizon) + Starts(v, service, horizon)
  {
    var n := |a| - 1;
    if j == n {
      assert a[j := v][..n] == a[..n];
    } else {
      assert a[j := v][..n] == a[..n][j := v];
      TotalStartsUpdate(a[..n], j, v, service, horizon);
    }
  }

  lemma {:induction false} TotalStartsConcat(a: seq<real>, b: seq<real>, service: real, horizon: real)
    requires service > 0.0
    ensures TotalStarts(a + b, service, horizon)
         == TotalStarts(a, service, horizon) + TotalStarts(b, service, horizon)
  {
    if b == [] {
      assert a + b == a;
    } else {
      var n := |b| - 1;
      assert (a + b)[..|a| + n] == a + b[..n];
      TotalStartsConcat(a, b[..n], service, horizon);
    }
  }

  /** Taking one server out removes exactly its own starts. */
  lemma TotalStartsRemove(a: seq<real>, j: nat, service: real, horizon: real)
    requires service > 0.0 && j < |a|
    ensures TotalStarts(a, service, horizon)
         == TotalStarts(Without(a, j), service, horizon) + Starts(a[j], service, horizon)
  {
    assert a == (a[..j] + [a[j]]) + a[j + 1..];
    TotalStartsConcat(a[..j] + [a[j]], a[j + 1..], service, horizon);
    TotalStartsConcat(a[..j], a[j + 1..], service, horizon);
  }

  /** Nothing starts by `horizon` exactly when every server is free only later. */
  lemma {:induction false} TotalStartsZero(a: seq<real>, service: real, horizon: real)
    requires service > 0.0
    ensures TotalStarts(a, service, horizon) == 0 <==> forall i :: 0 <= i < |a| ==> a[i] > horizon
  {
    if a != [] {
      TotalStartsZero(a[..|a| - 1], service, horizon);
    }
  }

  // ------------------------------------------------- the earliest free server

  /** Index of the first smallest element. */
  function Earliest(a: seq<real>): (j: nat)
    requires a != []
    ensures j < |a|
    ensures forall i :: 0 <= i < |a| ==> a[j] <= a[i]
    ensures forall i :: 0 <= i < j ==> a[j] < a[i]
  {
    if |a| == 1 then 0
    else
      var j := Earliest(a[..|a| - 1]);
      if a[|a| - 1] < a[j] then |a| - 1 else j
  }

  function Without(a: seq<real>, j: nat): seq<real>
    requires j < |a|
  {
    a[..j] + a[j + 1..]
  }

  /** Start of job `k` (counting from 0) when every job takes the earliest free server. */
  ghost function GreedyStart(available: seq<real>, service: real, k: nat): real
    requires available != []
    decreases k
  {
    var j := Earliest(available);
    if k == 0 then available[j]
    else GreedyStart(available[j := available[j] + service], service, k - 1)
  }

  /** The closed-form count inverts the greedy schedule, at every horizon. */
  lemma {:induction false} GreedyStartInTime(available: seq<real>, service: real, k: nat, horizon: real)
    requires available != [] && service > 0.0
    ensures GreedyStart(available, service, k) <= horizon
       <==> TotalStarts(available, service, horizon) >= k + 1
    decreases k
  {
    var j := Earliest(available);
    TotalStartsZero(available, service, horizon);
    if k > 0 {
      var next := available[j := available[j] + service];
      GreedyStartInTime(next, service, k - 1, horizon);
      TotalStartsUpdate(available, j, available[j] + service, service, horizon);
      StartsAfterService(available[j], service, horizon);
      TotalStartsZero(next, service, horizon);
    }
  }

  // --------------------------------------------------- the closed-form methods

  /** The source's floating-point quotient, truncated: close to the floor, never trusted. */
  method RoundedQuotient() returns (periods: nat) {
    periods := *;
  }

  /** However far off the rounded quotient is, the two correction loops reach the exact count. */
  method ServerStarts(freeAt: real, service: real, horizon: real) returns (starts: nat)
    requires service > 0.0 && freeAt <= horizon
    ensures starts == Starts(freeAt, service, horizon)
  {
    var periods: nat := RoundedQuotient();
    while periods > 0 && freeAt + periods as real * service > horizon
      decreases periods
    {
      periods := periods - 1;
    }
    ghost var exact: nat := Starts(freeAt, service, horizon) - 1;
    StartsExact(freeAt, service, horizon, exact);
    NotPast(freeAt, service, horizon, periods);
    while freeAt + (periods + 1) as real * service <= horizon
      invariant freeAt + periods as real * service <= horizon
      invariant periods <= exact
      decreases exact - periods
    {
      periods := periods + 1;
      NotPast(freeAt, service, horizon, periods);
    }
    StartsExact(freeAt, service, horizon, periods);
    return periods + 1;
  }

  /** The starts of every server that is free in time. */
  method StartsWithin(available: seq<real>, service: real, horizon: real) returns (total: nat)
    requires service > 0.0
    ensures total == TotalStarts(available, service, horizon)
  {
    total := 0;
    for i := 0 to |available|
      invariant total == TotalStarts(available[..i], service, horizon)
    {
      assert available[..i + 1][..i] == available[..i];
      if available[i] > horizon {
        continue;
      }
      var starts := ServerStarts(available[i], service, horizon);
      total := total + starts;
    }
    assert available[..|available|] == available;
  }

  lemma NotPast(freeAt: real, service: real, horizon: real, n: nat)
    requires service > 0.0 && freeAt <= horizon && freeAt + n as real * service <= horizon
    ensures n < Starts(freeAt, service, horizon)
  {
    var exact: nat := Starts(freeAt, service, horizon) - 1;
    StartsExact(freeAt, service, horizon, exact);
    if n > exact {
      MulMonotone((exact + 1) as real, n as real, service);
    }
  }

  datatype Wait = Never | At(t: real)

  /** `x` doubled `n` times. */
  ghost function Doubled(x: real, n: nat): real {
    if n == 0 then x else 2.0 * Doubled(x, n - 1)
  }

  lemma {:induction false} DoubledHalf(x: real, n: nat)
    ensures Doubled(x / 2.0, n + 1) == Doubled(x, n)
  {
    if n > 0 {
      DoubledHalf(x, n - 1);
    }
  }

  lemma {:induction false} DoubledMonotone(x: real, y: real, n: nat)
    requires x <= y
    ensures Doubled(x, n) <= Doubled(y, n)
  {
    if n > 0 {
      DoubledMonotone(x, y, n - 1);
    }
  }

  lemma {:induction false} DoubledZero(n: nat)
    ensures Doubled(0.0, n) == 0.0
  {
    if n > 0 {
      DoubledZero(n - 1);
    }
  }

  ghost predicate Brackets(available: seq<real>, service: real, ahead: nat, low: real, high: real)
    requires available != [] && service > 0.0
  {
    low < GreedyStart(available, service, ahead) <= high
  }

  /** `wait` exceeds `start` by at most `(ahead + 1) * service / 2^96`. */
  ghost predicate Overshoot(start: real, wait: real, ahead: nat, service: real) {
    Doubled(wait - start, DRAIN_BISECT_STEPS) <= (ahead + 1) as real * service
  }

  lemma NotByThen(available: seq<real>, service: real, ahead: nat, low: real)
    requires available != [] && service > 0.0 && TotalStarts(available, service, low) < ahead + 1
    ensures low < GreedyStart(available, service, ahead)
  {
    GreedyStartInTime(available, service, ahead, low);
  }

  lemma ByThen(available: seq<real>, service: real, ahead: nat, high: real)
    requires available != [] && service > 0.0 && TotalStarts(available, service, high) >= ahead + 1
    ensures GreedyStart(available, service, ahead) <= high
  {
    GreedyStartInTime(available, service, ahead, high);
  }

  lemma FirstBracket(available: seq<real>, service: real, ahead: nat, low: real, high: real)
    requires available != [] && service > 0.0 && low == available[Earliest(available)]
    requires TotalStarts(available, service, low) < ahead + 1 <= TotalStarts(available, service, high)
    ensures Brackets(available, service, ahead, low, high)
  {
    NotByThen(available, service, ahead, low);
    ByThen(available, service, ahead, high);
  }

  /** Halving the bracket keeps the half that the count says. */
  lemma Halve(available: seq<real>, service: real, ahead: nat, low: real, high: real, mid: real)
    requires available != [] && service > 0.0 && Brackets(available, service, ahead, low, high) && mid == (low + high) / 2.0
    ensures low < mid < high
    ensures if TotalStarts(available, service, mid) >= ahead + 1 then Brackets(available, service, ahead, low, mid)
            else Brackets(available, service, ahead, mid, high)
  {
    GreedyStartInTime(available, service, ahead, mid);
  }

  lemma HalveWidth(low: real, high: real, mid: real, step: nat)
    requires mid == (low + high) / 2.0
    ensures Doubled(high - mid, step + 1) == Doubled(high - low, step) == Doubled(mid - low, step + 1)
  {
    assert high - mid == (high - low) / 2.0 && mid - low == (high - low) / 2.0;
    DoubledHalf(high - low, step);
  }

  lemma Bracketed(available: seq<real>, service: real, ahead: nat, low: real, high: real)
    requires available != [] && service > 0.0 && Brackets(available, service, ahead, low, high)
    requires Doubled(high - low, DRAIN_BISECT_STEPS) == (ahead + 1) as real * service
    ensures TotalStarts(available, service, high) >= ahead + 1
    ensures Overshoot(GreedyStart(available, service, ahead), high, ahead, service)
  {
    GreedyStartInTime(available, service, ahead, high);
    DoubledMonotone(high - GreedyStart(available, service, ahead), high - low, DRAIN_BISECT_STEPS);
  }

  lemma StartsAtOnce(available: seq<real>, service: real, ahead: nat, low: real)
    requires available != [] && service > 0.0 && low == available[Earliest(available)]
    requires TotalStarts(available, service, low) >= ahead + 1
    ensures GreedyStart(available, service, ahead) == low
    ensures Overshoot(low, low, ahead, service)
  {
    GreedyStartInTime(available, service, ahead, low);
    NoStartBeforeEarliest(available, service, ahead);
    DoubledZero(DRAIN_BISECT_STEPS);
    assert (ahead + 1) as real * service >= 0.0;
  }

  /** The bisection returns a time by which position `ahead + 1` really has started, at most
      `(ahead + 1) * service / 2^96` after the moment it does. */
  method WaitForPosition(available: seq<real>, service: real, ahead: nat) returns (wait: Wait)
    requires service > 0.0
    ensures available == [] <==> wait == Never
    ensures wait.At? ==>
              && TotalStarts(available, service, wait.t) >= ahead + 1
              && GreedyStart(available, service, ahead) <= wait.t
              && Overshoot(GreedyStart(available, service, ahead), wait.t, ahead, service)
  {
    if available == [] {
      return Never;
    }
    var target := ahead + 1;
    var low := available[Earliest(available)];
    var startsNow := StartsWithin(available, service, low);
    if startsNow >= target {
      StartsAtOnce(available, service, ahead, low);
      return At(low);
    }
    var span := target as real * service;
    var high := low + span;
    EarliestServerReaches(available, service, target, span, high);
    FirstBracket(available, service, ahead, low, high);
    high := Bisect(available, service, ahead, low, high, span);
    return At(high);
  }

  /** Ninety-six halvings of a bracket. */
  method Bisect(available: seq<real>, service: real, ahead: nat, lower: real, upper: real,
      ghost span: real) returns (high: real)
    requires available != [] && service > 0.0 && Brackets(available, service, ahead, lower, upper)
    requires upper - lower == span && span == (ahead + 1) as real * service
    ensures TotalStarts(available, service, high) >= ahead + 1
    ensures GreedyStart(available, service, ahead) <= high
    ensures Overshoot(GreedyStart(available, service, ahead), high, ahead, service)
  {
    var low := lower;
    high := upper;
    var step := 0;
    while step < DRAIN_BISECT_STEPS
      invariant step <= DRAIN_BISECT_STEPS
      invariant Doubled(high - low, step) == span
      invariant Brackets(available, service, ahead, low, high)
    {
      var mid := (low + high) / 2.0;
      Halve(available, service, ahead, low, high, mid);
      HalveWidth(low, high, mid, step);
      if mid <= low || mid >= high {
        break;
      }
      var starts := StartsWithin(available, service, mid);
      if starts >= ahead + 1 {
        high := mid;
      } else {
        low := mid;
      }
      step := step + 1;
    }
    Bracketed(available, service, ahead, low, high);
  }

  lemma NoStartBeforeEarliest(available: seq<real>, service: real, k: nat)
    requires available != [] && service > 0.0
    ensures GreedyStart(available, service, k) >= available[Earliest(available)]
  {
    var start := GreedyStart(available, service, k);
    GreedyStartInTime(available, service, k, start);
    TotalStartsZero(available, service, start);
  }

  lemma EarliestServerAlone(available: seq<real>, service: real, target: nat)
    requires available != [] && service > 0.0 && target > 0
    ensures var low := available[Earliest(available)];
            TotalStarts(available, service, low + target as real * service) >= target
  {
    var j := Earliest(available);
    var h := available[j] + target as real * service;
    MulMonotone(1.0, target as real, service);
    NotPast(available[j], service, h, target);
    TotalStartsRemove(available, j, service, h);
  }

  lemma EarliestServerReaches(available: seq<real>, service: real, target: nat, span: real, high: real)
    requires available != [] && service > 0.0 && target > 0
    requires span == target as real * service && high == available[Earliest(available)] + span
    ensures TotalStarts(available, service, high) >= target
  {
    EarliestServerAlone(available, service, target);
  }

  function AdmissibleAhead(available: seq<real>, service: real, horizon: real): int {
    if available == [] || service <= 0.0 then -1
    else TotalStarts(available, service, horizon) - 1
  }

  /** The integer bound is exact: it admits precisely the positions that start in time. */
  lemma AdmissibleAheadExact(available: seq<real>, service: real, horizon: real, ahead: nat)
    requires available != [] && service > 0.0
    ensures ahead <= AdmissibleAhead(available, service, horizon)
       <==> GreedyStart(available, service, ahead) <= horizon
  {
    GreedyStartInTime(available, service, ahead, horizon);
  }
}
