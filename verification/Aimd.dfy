/**
 The live concurrency ceiling of one bearer: multiplicative decrease on upstream
 pushback, additive increase after clean successes, operator retunes in between.
 */
module Aimd {
  import opened Common

  datatype Knobs = Knobs(
    aimdMin: int, decrease: real, backoff: real, rampAfter: int, rampFast: int, stormThreshold: int)

  datatype Ceiling = Ceiling(
    hardMax: int, cap: int, lastThrottle: real, successes: nat, retryUntil: real, shrinks: seq<real>)

  const STORM_THRESHOLD_MAX: nat := 100

  /** Truncation towards zero. */
  function Trunc(x: real): int {
    if x >= 0.0 then x.Floor else -(-x).Floor
  }

  function InitialCap(hardMax: int, k: Knobs, initial: int): int {
    MinI(hardMax, MaxI(k.aimdMin, initial))
  }

  function Initial(hardMax: int, k: Knobs, initial: int): Ceiling {
    Ceiling(hardMax, InitialCap(hardMax, k, initial), 0.0, 0, 0.0, [])
  }

  function Floor(c: Ceiling, k: Knobs): int {
    MinI(c.hardMax, k.aimdMin)
  }

  function Bounded(s: seq<real>, ts: real): seq<real> {
    var s' := s + [ts];
    if |s'| > STORM_THRESHOLD_MAX then s'[|s'| - STORM_THRESHOLD_MAX..] else s'
  }

  /** The multiplicative decrease, truncated to a whole number of slots. */
  function Scaled(cap: int, factor: real): int {
    Trunc(cap as real * factor)
  }

  function Shrink(c: Ceiling, k: Knobs, now: real): Ceiling {
    var scaled := Scaled(c.cap, k.decrease);
    c.(cap := MaxI(Floor(c, k), MinI(scaled, c.cap - 1)),
       lastThrottle := now, successes := 0, shrinks := Bounded(c.shrinks, now))
  }

  function CountAfter(s: seq<real>, cutoff: real): nat {
    if s == [] then 0
    else CountAfter(s[..|s| - 1], cutoff) + (if s[|s| - 1] > cutoff then 1 else 0)
  }

  function RecentShrinks(c: Ceiling, k: Knobs, now: real): nat {
    CountAfter(c.shrinks, now - 2.0 * k.backoff)
  }

  function EffectiveRampAfter(c: Ceiling, k: Knobs, now: real): int {
    var recent := RecentShrinks(c, k, now);
    if recent == 0 || recent >= k.stormThreshold then k.rampAfter else MinI(k.rampFast, k.rampAfter)
  }

  /** The lane rests at its floor, undisturbed for twice the cooldown. */
  predicate Dwelling(c: Ceiling, k: Knobs, now: real) {
    && c.lastThrottle > 0.0
    && now - c.lastThrottle >= k.backoff
    && now >= c.retryUntil
    && c.cap < c.hardMax
    && c.cap <= Floor(c, k)
    && now - c.lastThrottle >= 2.0 * k.backoff
  }

  predicate MayGrow(c: Ceiling, k: Knobs, now: real) {
    if Dwelling(c, k, now) then c.successes >= 1
    else
      && c.successes >= EffectiveRampAfter(c, k, now)
      && now - c.lastThrottle >= k.backoff
      && now >= c.retryUntil
      && c.cap < c.hardMax
  }

  function Grow(c: Ceiling, k: Knobs, now: real): Ceiling {
    var c' := c.(successes := c.successes + 1);
    if MayGrow(c', k, now) then c'.(cap := c.cap + 1, successes := 0) else c'
  }

  function Retune(c: Ceiling, k: Knobs, hardMax: int, liveFloor: Option<int>): Ceiling {
    if hardMax == c.hardMax && liveFloor.None? then c
    else
      var cap := if hardMax < c.hardMax then MinI(c.cap, hardMax) else c.cap;
      c.(hardMax := hardMax,
         cap := if liveFloor.Some? then MaxI(cap, MinI(hardMax, MaxI(k.aimdMin, liveFloor.value))) else cap)
  }

  function NoteRetryAfter(c: Ceiling, now: real, seconds: real): Ceiling {
    if seconds <= 0.0 then c
    else c.(retryUntil := MaxR(c.retryUntil, now + seconds), lastThrottle := MaxR(c.lastThrottle, now))
  }

  // --------------------------------------------------------------------- runs

  datatype Event =
    | Pushback(now: real)
    | Success(now: real)
    | RetryAfter(now: real, seconds: real)
    | RetuneMax(hardMax: int, liveFloor: Option<int>)
    | Tune(knobs: Knobs)

  datatype Lane = Lane(c: Ceiling, k: Knobs)

  function Step(l: Lane, e: Event): Lane {
    match e
    case Pushback(now) => l.(c := Shrink(l.c, l.k, now))
    case Success(now) => l.(c := Grow(l.c, l.k, now))
    case RetryAfter(now, seconds) => l.(c := NoteRetryAfter(l.c, now, seconds))
    case RetuneMax(hardMax, liveFloor) => l.(c := Retune(l.c, l.k, hardMax, liveFloor))
    case Tune(knobs) => l.(k := knobs)
  }

  ghost function Run(l: Lane, es: seq<Event>): Lane {
    if es == [] then l else Step(Run(l, es[..|es| - 1]), es[|es| - 1])
  }

  /** Ceilings and floors are at least one, as the configuration clamps them. */
  ghost predicate Sane(e: Event) {
    match e
    case RetuneMax(hardMax, _) => hardMax >= 1
    case Tune(k) => k.aimdMin >= 1
    case _ => true
  }

  ghost predicate InRange(l: Lane) {
    1 <= l.c.cap <= l.c.hardMax && l.k.aimdMin >= 1
  }

  /** Main result: over every run the live cap stays between one and the hard ceiling. */
  lemma {:induction false} CapInRange(hardMax: int, k: Knobs, initial: int, es: seq<Event>)
    requires hardMax >= 1 && k.aimdMin >= 1
    requires forall i :: 0 <= i < |es| ==> Sane(es[i])
    ensures InRange(Run(Lane(Initial(hardMax, k, initial), k), es))
  {
    if es != [] {
      CapInRange(hardMax, k, initial, es[..|es| - 1]);
      assert Sane(es[|es| - 1]);
    }
  }

  /** A lane starts at the initial ceiling it is given, cut to the hard one and raised to the minimum. */
  lemma StartsAsGiven(hardMax: int, k: Knobs, initial: int)
    ensures var cap := Initial(hardMax, k, initial).cap;
            && (k.aimdMin <= initial <= hardMax ==> cap == initial)
            && (initial < k.aimdMin ==> cap == MinI(hardMax, k.aimdMin)) && (initial > hardMax ==> cap == hardMax)
  {}

  /** Pushback lowers a cap above the floor, leaves a cap at the floor, and raises one that
      is below it: it raises the cap if and only if the cap was below the floor. */
  lemma ShrinkDirection(c: Ceiling, k: Knobs, now: real)
    ensures var c' := Shrink(c, k, now);
            && (c'.cap > c.cap <==> c.cap < Floor(c, k))
            && (c'.cap < c.cap <==> c.cap > Floor(c, k))
            && c'.cap >= Floor(c, k) && Floor(c', k) == Floor(c, k)
  {}

  lemma TruncIs(x: real)
    ensures x >= 0.0 ==> Trunc(x) as real <= x < (Trunc(x) + 1) as real
    ensures x < 0.0 ==> Trunc(x) <= 0
  {}

  /** The size of a pushback: above the floor the new cap is the largest whole number below the old one
      that is no more than the scaled one; the floor is taken only where that number would be no
      higher. */
  lemma PushbackSize(c: Ceiling, k: Knobs, now: real, scaled: real, cap: int)
    requires Floor(c, k) >= 0 && scaled == c.cap as real * k.decrease && cap == Shrink(c, k, now).cap
    ensures cap > Floor(c, k) ==> cap < c.cap && cap as real <= scaled && (cap + 1 == c.cap || scaled < (cap + 1) as real)
    ensures cap <= Floor(c, k) ==> cap == Floor(c, k) && (c.cap <= cap + 1 || scaled < (cap + 1) as real)
  {
    TruncIs(scaled);
  }

  /** The moment is remembered, last of the latest hundred, and the successes start over. */
  lemma PushbackRecorded(c: Ceiling, k: Knobs, now: real)
    ensures var c' := Shrink(c, k, now); var n := |c'.shrinks|;
            && c'.successes == 0 && c'.lastThrottle == now
            && n == MinI(100, |c.shrinks| + 1) && c'.shrinks[n - 1] == now
            && c'.shrinks[..n - 1] == c.shrinks[|c.shrinks| + 1 - n..]
  {}

  ghost function Pushbacks(l: Lane, times: seq<real>): Lane {
    if times == [] then l else Step(Pushbacks(l, times[..|times| - 1]), Pushback(times[|times| - 1]))
  }

  /** From at or above the floor, `cap - floor` pushbacks reach it, and more change nothing. */
  lemma {:induction false} PushbacksReachFloor(l: Lane, times: seq<real>)
    requires l.c.cap >= Floor(l.c, l.k)
    ensures var l' := Pushbacks(l, times);
            && l'.k == l.k && l'.c.hardMax == l.c.hardMax
            && Floor(l.c, l.k) <= l'.c.cap <= MaxI(Floor(l.c, l.k), l.c.cap - |times|)
  {
    if times != [] {
      PushbacksReachFloor(l, times[..|times| - 1]);
      ShrinkDirection(Pushbacks(l, times[..|times| - 1]).c, l.k, times[|times| - 1]);
    }
  }

  /** A number scaled down `n` times. */
  ghost function Decayed(x: real, factor: real, n: nat): real {
    if n == 0 then x else factor * Decayed(x, factor, n - 1)
  }

  lemma Scales(x: real, factor: real, bound: real, y: real)
    requires 0.0 <= factor && x <= bound && y <= x * factor
    ensures y <= factor * bound
  {}

  lemma HighestOf(cap: real, floor: real, x: real)
    requires cap <= floor || cap <= x
    ensures cap <= MaxR(floor, x)
  {}

  /** One pushback scales the cap at least. */
  lemma ScalesDown(c: Ceiling, k: Knobs, now: real, floor: int, bound: real, cap: int)
    requires 0.0 <= k.decrease && floor == Floor(c, k) && floor >= 0 && c.cap as real <= bound
    requires cap == Shrink(c, k, now).cap
    ensures cap as real <= MaxR(floor as real, k.decrease * bound)
  {
    var scaled := c.cap as real * k.decrease;
    PushbackSize(c, k, now, scaled, cap);
    if cap > floor {
      Scales(c.cap as real, k.decrease, bound, cap as real);
    }
    HighestOf(cap as real, floor as real, k.decrease * bound);
  }

  lemma Contract(factor: real, floor: real, x: real, y: real)
    requires 0.0 <= factor <= 1.0 && floor >= 0.0 && y == factor * x
    ensures factor * MaxR(floor, x) <= MaxR(floor, y)
  {
    assert factor * floor <= floor;
  }

  lemma ScaledOnce(c: Ceiling, k: Knobs, now: real, floor: int, x: real, y: real, c': Ceiling)
    requires 0.0 <= k.decrease <= 1.0 && floor == Floor(c, k) && floor >= 0 && c' == Shrink(c, k, now)
    requires c.cap as real <= MaxR(floor as real, x) && y == k.decrease * x
    ensures c'.cap as real <= MaxR(floor as real, y) && Floor(c', k) == floor
  {
    ScalesDown(c, k, now, floor, MaxR(floor as real, x), c'.cap);
    Contract(k.decrease, floor as real, x, y);
  }

  lemma DecayedNext(cap: real, factor: real, n: nat)
    ensures Decayed(cap, factor, n + 1) == factor * Decayed(cap, factor, n)
  {}

  /** Each ceiling is what a pushback leaves of the one before. */
  ghost predicate PushedBack(cs: seq<Ceiling>, k: Knobs, times: seq<real>) {
    |cs| == |times| + 1 && forall i :: 0 <= i < |times| ==> AfterPushback(cs[i], k, times[i], cs[i + 1])
  }

  ghost predicate AfterPushback(c: Ceiling, k: Knobs, now: real, c': Ceiling) {
    c' == Shrink(c, k, now)
  }

  /** Main result: the decrease is multiplicative: after `n` pushbacks the cap is within what scaling it
      down `n` times leaves, or at the floor. */
  lemma {:induction false} MultiplicativeDecrease(cs: seq<Ceiling>, k: Knobs, times: seq<real>, floor: int, n: nat,
      y: real)
    requires 0.0 <= k.decrease <= 1.0 && PushedBack(cs, k, times) && n <= |times|
    requires floor == Floor(cs[0], k) && 0 <= floor <= cs[0].cap && y == Decayed(cs[0].cap as real, k.decrease, n)
    ensures cs[n].cap as real <= MaxR(floor as real, y) && Floor(cs[n], k) == floor
  {
    if n > 0 {
      var m := n - 1;
      var x := Decayed(cs[0].cap as real, k.decrease, m);
      MultiplicativeDecrease(cs, k, times, floor, m, x);
      DecayedNext(cs[0].cap as real, k.decrease, m);
      assert AfterPushback(cs[m], k, times[m], cs[m + 1]);
      ScaledOnce(cs[m], k, times[m], floor, x, y, cs[n]);
    }
  }

  /** Which events keep the cap at or above the floor: all of them, except raising the hard
      ceiling without a live floor, or raising the configured minimum, past the live cap. */
  lemma FloorKept(l: Lane, e: Event)
    requires l.c.cap >= Floor(l.c, l.k)
    ensures Step(l, e).c.cap >= Floor(Step(l, e).c, Step(l, e).k)
       <==> !(e.RetuneMax? && e.liveFloor.None? && l.c.cap < MinI(e.hardMax, l.k.aimdMin))
            && !(e.Tune? && l.c.cap < MinI(l.c.hardMax, e.knobs.aimdMin))
  {}

  /** "A shrink never raises the cap" is false: lowering the hard ceiling below the minimum
      and restoring it leaves the live cap under the floor, and the next pushback raises it. */
  lemma ShrinkCanRaise()
    ensures var k := Knobs(8, 0.7, 30.0, 10, 5, 3);
            var l := Run(Lane(Initial(8, k, 8), k), [RetuneMax(2, None), RetuneMax(8, None)]);
            InRange(l) && l.c.cap == 2 && Step(l, Pushback(100.0)).c.cap == 8
  {
    var k := Knobs(8, 0.7, 30.0, 10, 5, 3);
    var l0 := Lane(Initial(8, k, 8), k);
    var es := [RetuneMax(2, None), RetuneMax(8, None)];
    assert es[..1] == [RetuneMax(2, None)] && es[..1][..0] == [];
    assert Run(l0, es[..1]).c.cap == 2;
    ShrinkDirection(Run(l0, es).c, k, 100.0);
    assert Trunc(2.0 * 0.7) == 1;
  }

  // ------------------------------------------------------- the floor-dwell ramp

  function Time(e: Event): Option<real> {
    match e
    case Pushback(now) => Some(now)
    case Success(now) => Some(now)
    case RetryAfter(now, _) => Some(now)
    case _ => None
  }

  /** Clock readings never decrease along the run, start at or after `from` and end by `until`. */
  ghost predicate Monotone(es: seq<Event>, from: real, until: real) {
    if es == [] then from <= until
    else
      var t := Time(es[|es| - 1]);
      if t.None? then Monotone(es[..|es| - 1], from, until)
      else t.value <= until && Monotone(es[..|es| - 1], from, t.value)
  }

  /** Every recorded shrink happened no later than the last throttle. */
  ghost predicate Dated(c: Ceiling, clock: real) {
    && c.lastThrottle <= clock
    && forall i :: 0 <= i < |c.shrinks| ==> c.shrinks[i] <= c.lastThrottle
  }

  lemma {:induction false} RunDated(l: Lane, es: seq<Event>, from: real, until: real)
    requires Dated(l.c, from) && Monotone(es, from, until)
    ensures Dated(Run(l, es).c, until)
    decreases |es|
  {
    if es != [] {
      var e := es[|es| - 1];
      var until' := if Time(e).Some? then Time(e).value else until;
      RunDated(l, es[..|es| - 1], from, until');
    }
  }

  lemma {:induction false} NoneAfter(s: seq<real>, cutoff: real)
    requires forall i :: 0 <= i < |s| ==> s[i] <= cutoff
    ensures CountAfter(s, cutoff) == 0
  {
    if s != [] {
      NoneAfter(s[..|s| - 1], cutoff);
    }
  }

  /** Main result: over every run with a monotone clock, the dwell ramp is open only once
      every recorded shrink has left the storm window, and then the very next success
      widens the lane by exactly one. */
  lemma DwellRamp(hardMax: int, k: Knobs, initial: int, es: seq<Event>, now: real)
    requires Monotone(es, 0.0, now)
    ensures var l := Run(Lane(Initial(hardMax, k, initial), k), es);
            Dwelling(l.c, l.k, now) ==>
              && RecentShrinks(l.c, l.k, now) == 0
              && Grow(l.c, l.k, now).cap == l.c.cap + 1 <= l.c.hardMax
              && Grow(l.c, l.k, now).successes == 0
  {
    var l := Run(Lane(Initial(hardMax, k, initial), k), es);
    RunDated(Lane(Initial(hardMax, k, initial), k), es, 0.0, now);
    if Dwelling(l.c, l.k, now) {
      NoneAfter(l.c.shrinks, now - 2.0 * l.k.backoff);
    }
  }

  /** Main result: nor does it take more: a throttled lane that rests at its floor for twice the cooldown,
      past its retry window and below the hard ceiling, is widened by its next success. */
  lemma DwellOpens(c: Ceiling, k: Knobs, now: real)
    requires c.lastThrottle > 0.0 && now - c.lastThrottle >= 2.0 * k.backoff && k.backoff >= 0.0
    requires now >= c.retryUntil && c.cap < c.hardMax && c.cap <= MinI(c.hardMax, k.aimdMin)
    ensures Grow(c, k, now) == c.(cap := c.cap + 1, successes := 0)
  {}

  /** A lane that was never throttled earns no dwell slot, however long it rests. */
  lemma {:induction false} ColdStartNeverDwells(hardMax: int, k: Knobs, initial: int, es: seq<Event>, now: real)
    requires forall i :: 0 <= i < |es| ==> !es[i].Pushback? && !es[i].RetryAfter?
    ensures var l := Run(Lane(Initial(hardMax, k, initial), k), es);
            l.c.lastThrottle == 0.0 && !Dwelling(l.c, l.k, now)
  {
    if es != [] {
      ColdStartNeverDwells(hardMax, k, initial, es[..|es| - 1], now);
      assert !es[|es| - 1].Pushback?;
    }
  }

  // -------------------------------------------------------------- additive increase

  /** The lane's successes at these times, nothing else happening. */
  ghost function Successes(c: Ceiling, k: Knobs, times: seq<real>): Ceiling {
    if times == [] then c else Grow(Successes(c, k, times[..|times| - 1]), k, times[|times| - 1])
  }

  /** How many recorded shrinks the storm window still holds. */
  ghost function Recent(c: Ceiling, k: Knobs, now: real): set<nat> {
    set i | 0 <= i < |c.shrinks| && c.shrinks[i] > now - 2.0 * k.backoff
  }

  lemma {:induction false} RecentCount(s: seq<real>, cutoff: real)
    ensures CountAfter(s, cutoff) == |set i | 0 <= i < |s| && s[i] > cutoff|
  {
    if s != [] {
      var init := s[..|s| - 1];
      RecentCount(init, cutoff);
      var before := set i | 0 <= i < |init| && init[i] > cutoff;
      assert (set i | 0 <= i < |s| && s[i] > cutoff) == before + (if s[|s| - 1] > cutoff then {|s| - 1} else {});
    }
  }

  /** Successes that count: the cooldown is over, no retry window is open, and the number of recent
      shrinks selects the ramp `r`, the fast one between one and the storm threshold. */
  ghost predicate Counts(c: Ceiling, k: Knobs, now: real, r: int) {
    && now - c.lastThrottle >= k.backoff && now >= c.retryUntil
    && r == if 1 <= |Recent(c, k, now)| < k.stormThreshold then MinI(k.rampFast, k.rampAfter) else k.rampAfter
  }

  lemma RampIs(c: Ceiling, k: Knobs, now: real, r: int)
    requires Counts(c, k, now, r)
    ensures EffectiveRampAfter(c, k, now) == r
  {
    RecentCount(c.shrinks, now - 2.0 * k.backoff);
    assert Recent(c, k, now) == set i | 0 <= i < |c.shrinks| && c.shrinks[i] > now - 2.0 * k.backoff;
  }

  lemma DivStep(n: nat, r: int)
    requires r >= 1
    ensures (n + 1) / r == (if n % r + 1 == r then n / r + 1 else n / r)
    ensures (n + 1) % r == (if n % r + 1 == r then 0 else n % r + 1)
  {
    var q, m := n / r, n % r;
    assert n == q * r + m;
    if m + 1 == r {
      assert n + 1 == (q + 1) * r;
      DivUnique(n + 1, r, q + 1, 0);
    } else {
      DivUnique(n + 1, r, q, m + 1);
    }
  }

  lemma DivUnique(x: nat, r: int, q: int, m: int)
    requires r >= 1 && 0 <= m < r && x == q * r + m
    ensures x / r == q && x % r == m
  {
    var d := x / r - q;
    assert d * r == m - x % r;
    AtLeastOnce(d, r);
  }

  lemma AtLeastOnce(d: int, r: int)
    requires r >= 1
    ensures d >= 1 ==> d * r >= r
    ensures d <= -1 ==> d * r <= -r
  {
    if d >= 1 {
      assert d * r == r + (d - 1) * r;
    } else if d <= -1 {
      assert d * r == -r + (d + 1) * r;
    }
  }

  /** One counted success above the floor. */
  lemma CountedSuccess(c: Ceiling, k: Knobs, now: real, r: int)
    requires Counts(c, k, now, r) && c.cap > Floor(c, k)
    ensures Grow(c, k, now)
         == if c.successes + 1 >= r && c.cap < c.hardMax then c.(cap := c.cap + 1, successes := 0)
            else c.(successes := c.successes + 1)
  {
    var c' := c.(successes := c.successes + 1);
    assert Recent(c', k, now) == Recent(c, k, now);
    RampIs(c', k, now, r);
  }

  lemma SameCounts(c: Ceiling, c1: Ceiling, k: Knobs, now: real, r: int)
    requires Counts(c, k, now, r) && c1 == c.(cap := c1.cap, successes := c1.successes)
    ensures Counts(c1, k, now, r)
  {
    assert Recent(c1, k, now) == Recent(c, k, now);
  }

  /** The closed form moves on by one success. */
  lemma CloserForm(c: Ceiling, n: nat, r: int, c1: Ceiling, c2: Ceiling)
    requires r >= 1 && c.cap <= c.hardMax && c1.hardMax == c.hardMax
    requires c1.cap == MinI(c.hardMax, c.cap + n / r) && (c1.cap < c.hardMax ==> c1.successes == n % r)
    requires c2 == if c1.successes + 1 >= r && c1.cap < c1.hardMax then c1.(cap := c1.cap + 1, successes := 0)
                   else c1.(successes := c1.successes + 1)
    ensures c2.cap == MinI(c.hardMax, c.cap + (n + 1) / r) && (c2.cap < c.hardMax ==> c2.successes == (n + 1) % r)
  {
    DivStep(n, r);
  }

  lemma SuccessAfter(c: Ceiling, k: Knobs, n: nat, now: real, r: int, c1: Ceiling, c2: Ceiling)
    requires r >= 1 && Floor(c, k) < c.cap <= c.hardMax && Counts(c, k, now, r)
    requires c1 == c.(cap := c1.cap, successes := c1.successes) && c1.cap >= c.cap
    requires c1.cap == MinI(c.hardMax, c.cap + n / r) && (c1.cap < c.hardMax ==> c1.successes == n % r)
    requires c2 == Grow(c1, k, now)
    ensures c2 == c.(cap := c2.cap, successes := c2.successes)
    ensures c2.cap == MinI(c.hardMax, c.cap + (n + 1) / r) && (c2.cap < c.hardMax ==> c2.successes == (n + 1) % r)
  {
    SameCounts(c, c1, k, now, r);
    CountedSuccess(c1, k, now, r);
    CloserForm(c, n, r, c1, c2);
  }

  lemma SuccessesSnoc(c: Ceiling, k: Knobs, times: seq<real>, i: nat)
    requires i < |times|
    ensures Successes(c, k, times[..i + 1]) == Grow(Successes(c, k, times[..i]), k, times[i])
  {
    assert times[..i + 1][..i] == times[..i];
  }

  lemma GrownOnly(c: Ceiling, r: int, n: nat)
    requires r >= 1 && c.cap <= c.hardMax
    ensures MinI(c.hardMax, c.cap + n / r) >= c.cap
  {}

  /** Main result: the increase is additive: above the floor every `r`th counted success widens the lane
      by exactly one, up to the hard ceiling. */
  lemma AdditiveIncrease(c: Ceiling, k: Knobs, times: seq<real>, r: int)
    requires r >= 1 && Floor(c, k) < c.cap <= c.hardMax && c.successes == 0
    requires forall i :: 0 <= i < |times| ==> Counts(c, k, times[i], r)
    ensures var c' := Successes(c, k, times);
            && c'.cap == MinI(c.hardMax, c.cap + |times| / r)
            && (c'.cap < c.hardMax ==> c'.successes == |times| % r)
            && c' == c.(cap := c'.cap, successes := c'.successes)
  {
    var c1 := c;
    for i := 0 to |times|
      invariant c1 == Successes(c, k, times[..i]) && c1 == c.(cap := c1.cap, successes := c1.successes)
      invariant c1.cap == MinI(c.hardMax, c.cap + i / r) && (c1.cap < c.hardMax ==> c1.successes == i % r)
    {
      SuccessesSnoc(c, k, times, i);
      var c2 := Grow(c1, k, times[i]);
      GrownOnly(c, r, i);
      SuccessAfter(c, k, i, times[i], r, c1, c2);
      c1 := c2;
    }
    assert times[..|times|] == times;
  }

  /** A success widens the lane by one or not at all, and never during the cooldown of a pushback, in an
      open retry window, or at the hard ceiling. */
  lemma GrowthIsEarned(c: Ceiling, k: Knobs, now: real)
    ensures var c' := Grow(c, k, now);
            && (c'.cap == c.cap || (c'.cap == c.cap + 1 && c'.successes == 0))
            && (c'.cap == c.cap ==> c'.successes == c.successes + 1)
            && (now - c.lastThrottle < k.backoff || now < c.retryUntil || c.cap >= c.hardMax ==> c'.cap == c.cap)
  {}

  /** Main result: what the upstream asked for is honoured over every run: from a retry-after of
      `seconds` on, no success before its end widens the lane, whatever else happens. */
  lemma {:induction false} RetryAfterHonoured(l: Lane, now: real, seconds: real, es: seq<Event>, later: real)
    requires seconds > 0.0 && later < now + seconds
    ensures var l' := Run(Step(l, RetryAfter(now, seconds)), es);
            && l'.c.retryUntil >= now + seconds
            && Step(l', Success(later)).c.cap == l'.c.cap
  {
    if es != [] {
      RetryAfterHonoured(l, now, seconds, es[..|es| - 1], later);
    }
  }

  /** A retune moves the live cap only as far as the new hard ceiling and the live floor asked for make
      it. */
  lemma RetuneEffect(c: Ceiling, k: Knobs, hardMax: int, liveFloor: Option<int>)
    requires c.cap <= c.hardMax
    ensures var c' := Retune(c, k, hardMax, liveFloor); var kept := MinI(c.cap, hardMax);
            && c'.hardMax == hardMax && c' == c.(hardMax := hardMax, cap := c'.cap)
            && (liveFloor.None? ==> c'.cap == kept)
            && (liveFloor.Some? ==> kept <= c'.cap <= MaxI(kept, hardMax)
                                    && (c'.cap == kept || c'.cap == MinI(hardMax, MaxI(k.aimdMin, liveFloor.value)))
                                    && (c'.cap >= liveFloor.value || c'.cap >= hardMax))
  {}
}
