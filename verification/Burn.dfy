/**
 The measured weekly burn.  The meter moves in steps, so the estimate looks back at least to
 the start of the previous plateau, and one step never reads as a burst.
 */
module Burn {
  import opened Common
  import Pacing

  /** One reading of the meter: when, how much of the window is used, when the window resets. */
  datatype Sample = Sample(at: real, util: real, reset: real)

  function SameEpoch(samples: seq<Sample>, reset: real): (r: seq<Sample>)
    ensures forall s :: s in r <==> s in samples && s.reset == reset
    ensures |r| <= |samples|
  {
    if samples == [] then []
    else
      var rest := SameEpoch(samples[..|samples| - 1], reset);
      if samples[|samples| - 1].reset == reset then rest + [samples[|samples| - 1]] else rest
  }

  /** First index of the plateau that index `i` lies on. */
  function PlateauStart(s: seq<Sample>, i: nat): (k: nat)
    requires i < |s|
    ensures k <= i && (k > 0 ==> s[k - 1].util != s[i].util)
    ensures forall m :: k <= m <= i ==> s[m].util == s[i].util
  {
    if i > 0 && s[i - 1].util == s[i].util then PlateauStart(s, i - 1) else i
  }

  /** Last index not after `cutoff`, or the first one. */
  function StartIndex(s: seq<Sample>, n: nat, cutoff: real): (k: nat)
    requires 0 < |s| && n <= |s|
    ensures k < |s| && (k == 0 || (k < n && s[k].at <= cutoff))
    ensures forall m :: k < m < n ==> s[m].at > cutoff
  {
    if n == 0 then 0
    else if s[n - 1].at <= cutoff then n - 1 else StartIndex(s, n - 1, cutoff)
  }

  function Lookback(s: seq<Sample>, now: real, windowS: real): real
    requires s != []
  {
    var i := PlateauStart(s, |s| - 1);
    if i == 0 then windowS else MaxR(windowS, now - s[PlateauStart(s, i - 1)].at)
  }

  /** The sample the burn is measured from. */
  function Base(s: seq<Sample>, now: real, windowS: real): (k: nat)
    requires s != []
    ensures k < |s|
  {
    StartIndex(s, |s|, now - Lookback(s, now, windowS))
  }

  function Measured(s: seq<Sample>, now: real, k: nat): Option<real>
    requires k < |s| && s[|s| - 1].at <= now
  {
    var last := s[|s| - 1];
    if last.at - s[k].at < Pacing.BURN_MIN_SPAN_S then None
    else if last.util - s[k].util <= 0.0 then Some(0.0)
    else Some((last.util - s[k].util) / ((now - s[k].at) / 3600.0))
  }

  /** Readings are not from the future. */
  predicate Past(samples: seq<Sample>, now: real) {
    forall i :: 0 <= i < |samples| ==> samples[i].at <= now
  }

  function PerHour(samples: seq<Sample>, now: real, windowS: real): Option<real>
    requires Past(samples, now)
  {
    if samples == [] then None
    else
      var reset := samples[|samples| - 1].reset;
      var same := SameEpoch(samples, reset);
      if |same| < 2 || reset <= now then None
      else
        assert same[|same| - 1] in samples;
        Measured(same, now, Base(same, now, windowS))
  }

  /** Walk back to the first sample of a plateau. */
  method WalkBack(s: seq<Sample>, from: nat) returns (i: nat)
    requires from < |s|
    ensures i == PlateauStart(s, from)
  {
    i := from;
    while i > 0 && s[i - 1].util == s[from].util
      invariant i <= from && s[i].util == s[from].util
      invariant PlateauStart(s, from) == PlateauStart(s, i)
    {
      i := i - 1;
    }
  }

  /** The last sample a whole lookback old, else the first. */
  method FindBase(s: seq<Sample>, cutoff: real) returns (start: nat)
    requires s != []
    ensures start == StartIndex(s, |s|, cutoff)
  {
    start := 0;
    for k := 0 to |s|
      invariant start == StartIndex(s, k, cutoff)
    {
      if s[k].at <= cutoff {
        start := k;
      }
    }
  }

  /** The longer of the window and the time back to the start of the previous plateau. */
  method FindLookback(s: seq<Sample>, now: real, windowS: real) returns (lookback: real)
    requires s != []
    ensures lookback == Lookback(s, now, windowS)
  {
    var i := WalkBack(s, |s| - 1);
    lookback := windowS;
    if i > 0 {
      var j := WalkBack(s, i - 1);
      lookback := MaxR(windowS, now - s[j].at);
    }
  }

  method MeasureFromBase(same: seq<Sample>, now: real, windowS: real) returns (r: Option<real>)
    requires same != [] && same[|same| - 1].at <= now
    ensures r == Measured(same, now, Base(same, now, windowS))
  {
    var lookback := FindLookback(same, now, windowS);
    var start := FindBase(same, now - lookback);
    return Measured(same, now, start);
  }

  method BurnPerH(samples: seq<Sample>, now: real, windowS: real) returns (r: Option<real>)
    requires Past(samples, now)
    ensures r == PerHour(samples, now, windowS)
  {
    if samples == [] {
      return None;
    }
    var reset := samples[|samples| - 1].reset;
    var same := SameEpoch(samples, reset);
    if |same| < 2 || reset <= now {
      return None;
    }
    assert same[|same| - 1] in samples;
    r := MeasureFromBase(same, now, windowS);
  }

  predicate Ordered(s: seq<Sample>) {
    forall i, j :: 0 <= i < j < |s| ==> s[i].at < s[j].at
  }

  /** The step the meter made last: from the start of the previous plateau to that of the
      current one. */
  predicate Stepped(s: seq<Sample>, j: nat, i: nat) {
    s != [] && i == PlateauStart(s, |s| - 1) && i > 0 && j == PlateauStart(s, i - 1)
  }

  /** Main result: the burn is measured from no later than the start of the previous plateau. */
  lemma SpansAWholeGap(s: seq<Sample>, now: real, windowS: real, j: nat, i: nat)
    requires Ordered(s) && Past(s, now) && Stepped(s, j, i)
    ensures Base(s, now, windowS) <= j && s[Base(s, now, windowS)].at <= s[j].at
  {
    var k := Base(s, now, windowS);
    assert Lookback(s, now, windowS) >= now - s[j].at;
    assert k > 0 ==> s[k].at <= s[j].at;
  }

  /** The burn is measured from the very start of the previous plateau if and only if that is the
      longer lookback or the epoch has seen no other step. */
  lemma MeasuredFromPlateau(s: seq<Sample>, now: real, windowS: real, j: nat, i: nat)
    requires Ordered(s) && Past(s, now) && Stepped(s, j, i)
    ensures Base(s, now, windowS) == j <==> windowS <= now - s[j].at || j == 0
  {
    SpansAWholeGap(s, now, windowS, j, i);
    if j > 0 && windowS <= now - s[j].at {
      assert Lookback(s, now, windowS) == now - s[j].at;
    }
  }

  /** Burning at this rate over a gap of `g` seconds uses at most `q`. */
  predicate BurnsAtMost(burn: Option<real>, q: real, g: real) {
    burn.Some? ==> burn.value * (g / 3600.0) <= MaxR(0.0, q)
  }

  lemma RateOverGap(q: real, span: real, gap: real)
    requires q > 0.0 && 0.0 < gap <= span
    ensures q / (span / 3600.0) * (gap / 3600.0) <= q
  {
    var hours := span / 3600.0;
    var rate := q / hours;
    assert rate * hours == q;
    assert rate * (gap / 3600.0) <= rate * hours;
  }

  lemma MeasuredAtMost(s: seq<Sample>, now: real, k: nat, q: real, g: real)
    requires k < |s| && s[|s| - 1].at <= now && s[|s| - 1].util - s[k].util == q && 0.0 < g <= now - s[k].at
    ensures BurnsAtMost(Measured(s, now, k), q, g)
  {
    if q > 0.0 {
      RateOverGap(q, now - s[k].at, g);
    }
  }

  /** From the previous plateau's value, the burn over the gap is at most the step. */
  lemma OneStepMeasured(s: seq<Sample>, now: real, windowS: real, j: nat, i: nat)
    requires Ordered(s) && Past(s, now) && Stepped(s, j, i) && Base(s, now, windowS) == j
    ensures BurnsAtMost(Measured(s, now, j), s[i].util - s[j].util, s[i].at - s[j].at)
  {
    InOrder(s, i, |s| - 1);
    MeasuredAtMost(s, now, j, s[i].util - s[j].util, s[i].at - s[j].at);
  }

  lemma OneStepFromBase(s: seq<Sample>, now: real, windowS: real, j: nat, i: nat)
    requires Ordered(s) && Past(s, now) && Stepped(s, j, i) && (windowS <= now - s[j].at || j == 0)
    ensures BurnsAtMost(Measured(s, now, Base(s, now, windowS)), s[i].util - s[j].util, s[i].at - s[j].at)
  {
    MeasuredFromPlateau(s, now, windowS, j, i);
    OneStepMeasured(s, now, windowS, j, i);
  }

  lemma {:induction false} EpochOrdered(samples: seq<Sample>, reset: real)
    requires Ordered(samples)
    ensures Ordered(SameEpoch(samples, reset))
  {
    if samples != [] {
      var front, last := samples[..|samples| - 1], samples[|samples| - 1];
      EpochOrdered(front, reset);
      forall e | e in SameEpoch(front, reset) ensures e.at < last.at {
        assert e in front;
      }
    }
  }

  /** The current epoch of time-ordered samples is itself time-ordered, and past. */
  lemma CurrentEpoch(samples: seq<Sample>, now: real, same: seq<Sample>)
    requires samples != [] && Ordered(samples) && Past(samples, now)
    requires same == SameEpoch(samples, samples[|samples| - 1].reset)
    ensures Ordered(same) && Past(same, now)
  {
    EpochOrdered(samples, samples[|samples| - 1].reset);
    forall i | 0 <= i < |same| ensures same[i].at <= now {
      assert same[i] in samples;
    }
  }

  /** Main result: the reported burn over the gap `g` before the last step is never more than the
      step `q` itself, whenever the previous plateau began at least a window ago or the epoch saw no other step. */
  lemma OneStepIsAveraged(samples: seq<Sample>, now: real, windowS: real, same: seq<Sample>, j: nat, i: nat)
    requires samples != [] && Ordered(samples) && Past(samples, now)
    requires same == SameEpoch(samples, samples[|samples| - 1].reset) && Stepped(same, j, i)
    requires windowS <= now - same[j].at || j == 0
    ensures BurnsAtMost(PerHour(samples, now, windowS), same[i].util - same[j].util, same[i].at - same[j].at)
  {
    CurrentEpoch(samples, now, same);
    OneStepFromBase(same, now, windowS, j, i);
  }

  // ------------------------------------------------------------- any number of steps

  predicate StepsAt(s: seq<Sample>, m: nat) {
    0 < m < |s| && s[m].util != s[m - 1].util
  }

  /** Steps of at most `q`, at least `g` apart. */
  ghost predicate Paced(s: seq<Sample>, q: real, g: real) {
    && (forall m: nat {:trigger StepsAt(s, m)} :: StepsAt(s, m) ==> s[m].util - s[m - 1].util <= q)
    && (forall m: nat, n: nat {:trigger StepsAt(s, m), StepsAt(s, n)} :: StepsAt(s, m) && StepsAt(s, n) && m < n ==> s[n].at - s[m].at >= g)
  }

  ghost function Times(n: nat, x: real): real {
    if n == 0 then 0.0 else Times(n - 1, x) + x
  }

  lemma {:induction false} TimesIsProduct(n: nat, x: real)
    ensures Times(n, x) == n as real * x
  {
    if n > 0 {
      TimesIsProduct(n - 1, x);
      assert n as real * x == (n - 1) as real * x + x;
    }
  }

  /** Steps after `k`, up to and including `e`. */
  ghost function Steps(s: seq<Sample>, k: nat, e: nat): nat
    requires k <= e < |s|
    decreases e
  {
    if e == k then 0 else Steps(s, k, e - 1) + (if StepsAt(s, e) then 1 else 0)
  }

  /** So many steps climb at most so far. */
  lemma {:induction false} Climb(s: seq<Sample>, k: nat, e: nat, q: real, g: real)
    requires Paced(s, q, g) && k <= e < |s|
    ensures s[e].util - s[k].util <= Times(Steps(s, k, e), q)
    decreases e
  {
    if e > k {
      Climb(s, k, e - 1, q, g);
      assert StepsAt(s, e) || s[e].util == s[e - 1].util;
    }
  }

  /** The last step after `k`, if there is one. */
  ghost function LastStep(s: seq<Sample>, k: nat, e: nat): (m: nat)
    requires k <= e < |s|
    ensures Steps(s, k, e) > 0 ==> k < m <= e && StepsAt(s, m)
    decreases e
  {
    if e == k || StepsAt(s, e) then e else LastStep(s, k, e - 1)
  }

  lemma OneGap(s: seq<Sample>, q: real, g: real, m: nat, e: nat)
    requires Paced(s, q, g) && StepsAt(s, m) && StepsAt(s, e) && m < e
    ensures s[e].at - s[m].at >= g
  {}

  lemma InOrder(s: seq<Sample>, k: nat, e: nat)
    requires Ordered(s) && k <= e < |s|
    ensures s[k].at <= s[e].at
  {}

  /** So many steps take at least so long. */
  lemma {:induction false} Span(s: seq<Sample>, k: nat, e: nat, q: real, g: real)
    requires Ordered(s) && Paced(s, q, g) && k <= e < |s| && Steps(s, k, e) > 0
    ensures s[LastStep(s, k, e)].at - s[k].at >= Times(Steps(s, k, e) - 1, g)
    decreases e
  {
    if !StepsAt(s, e) {
      Span(s, k, e - 1, q, g);
    } else if Steps(s, k, e - 1) > 0 {
      Span(s, k, e - 1, q, g);
      OneGap(s, q, g, LastStep(s, k, e - 1), e);
    } else {
      InOrder(s, k, e);
    }
  }

  /** `n` steps within a span that holds `n - 1` gaps, and at least one, read as at most twice
      the pace. */
  lemma TwicePace(du: real, n: nat, q: real, g: real, span: real)
    requires q >= 0.0 && g > 0.0 && n > 0 && du <= Times(n, q) && span >= Times(n - 1, g) && span >= g
    ensures du / (span / 3600.0) <= 2.0 * (q / (g / 3600.0))
  {
    var rate := q / (g / 3600.0);
    assert rate * g == 3600.0 * q;
    assert du / (span / 3600.0) * span == 3600.0 * du;
    TimesIsProduct(n, q);
    TimesIsProduct(n - 1, g);
    PaceSpan(n, q, g, span, rate);
    assert 3600.0 * du <= 2.0 * rate * span;
  }

  lemma PaceSpan(n: nat, q: real, g: real, span: real, rate: real)
    requires q >= 0.0 && g > 0.0 && n > 0 && rate * g == 3600.0 * q && span >= (n - 1) as real * g && span >= g
    ensures 3600.0 * (n as real * q) <= 2.0 * rate * span
  {
    assert rate >= 0.0;
    assert rate * span >= rate * ((n - 1) as real * g);
    assert rate * span >= rate * g;
    assert rate * ((n - 1) as real * g) == (n - 1) as real * (rate * g);
  }

  lemma StepsTwicePace(s: seq<Sample>, k: nat, last: nat, q: real, g: real, now: real)
    requires Ordered(s) && Paced(s, q, g) && q >= 0.0 && g > 0.0 && k <= last < |s|
    requires s[last].at <= now && now - s[k].at >= g && s[last].util > s[k].util
    ensures (s[last].util - s[k].util) / ((now - s[k].at) / 3600.0) <= 2.0 * (q / (g / 3600.0))
  {
    var n := Steps(s, k, last);
    Climb(s, k, last, q, g);
    assert Times(0, q) == 0.0;
    Span(s, k, last, q, g);
    InOrder(s, LastStep(s, k, last), last);
    TwicePace(s[last].util - s[k].util, n, q, g, now - s[k].at);
  }

  lemma PacedMeasured(s: seq<Sample>, k: nat, q: real, g: real, now: real)
    requires Ordered(s) && Paced(s, q, g) && q >= 0.0 && g > 0.0 && k < |s|
    requires s[|s| - 1].at <= now && now - s[k].at >= g
    ensures var r := Measured(s, now, k); r.Some? ==> r.value <= 2.0 * (q / (g / 3600.0))
  {
    if s[|s| - 1].util > s[k].util {
      StepsTwicePace(s, k, |s| - 1, q, g, now);
    } else {
      assert q / (g / 3600.0) >= 0.0;
    }
  }

  lemma PacedFromBase(s: seq<Sample>, now: real, windowS: real, j: nat, i: nat, q: real, g: real)
    requires Ordered(s) && Past(s, now) && Stepped(s, j, i)
    requires Paced(s, q, g) && q >= 0.0 && g > 0.0 && (j == 0 ==> s[i].at - s[j].at >= g)
    ensures var r := Measured(s, now, Base(s, now, windowS)); r.Some? ==> r.value <= 2.0 * (q / (g / 3600.0))
  {
    if j > 0 {
      assert StepsAt(s, j) && StepsAt(s, i);
      OneGap(s, q, g, j, i);
    }
    SpansAWholeGap(s, now, windowS, j, i);
    PacedMeasured(s, Base(s, now, windowS), q, g, now);
  }

  /** Main result: however many steps the lookback spans, a meter whose steps are at most `q` and
      at least `g` apart is never reported as burning more than twice `q / g`. */
  lemma NeverTwiceThePace(samples: seq<Sample>, now: real, windowS: real, same: seq<Sample>, j: nat, i: nat, q: real, g: real)
    requires samples != [] && Ordered(samples) && Past(samples, now)
    requires same == SameEpoch(samples, samples[|samples| - 1].reset) && Stepped(same, j, i)
    requires Paced(same, q, g) && q >= 0.0 && g > 0.0 && (j == 0 ==> same[i].at - same[j].at >= g)
    ensures var r := PerHour(samples, now, windowS); r.Some? ==> r.value <= 2.0 * (q / (g / 3600.0))
  {
    CurrentEpoch(samples, now, same);
    PacedFromBase(same, now, windowS, j, i, q, g);
  }

  /** Three readings: a step of `q` after `e` seconds and another `g` seconds later. */
  function TwoSteps(q: real, g: real, e: real): seq<Sample> {
    var reset := e + g + 1.0;
    [Sample(0.0, 0.0, reset), Sample(e, q, reset), Sample(e + g, 2.0 * q, reset)]
  }

  lemma TwoStepsEpoch(q: real, g: real, e: real, s: seq<Sample>)
    requires q > 0.0 && g > 0.0 && e > 0.0 && s == TwoSteps(q, g, e)
    ensures SameEpoch(s, s[2].reset) == s
  {
    var r := s[2].reset;
    assert s[..2] == [s[0], s[1]] && s[..2][..1] == [s[0]] && s[..2][..1][..0] == [];
    assert SameEpoch(s[..2][..1], r) == [s[0]];
    assert SameEpoch(s[..2], r) == [s[0], s[1]];
  }

  lemma TwoStepsPaced(q: real, g: real, e: real, s: seq<Sample>)
    requires q > 0.0 && g > 0.0 && e > 0.0 && s == TwoSteps(q, g, e)
    ensures Ordered(s) && Past(s, e + g) && Stepped(s, 1, 2) && Paced(s, q, g)
  {
    assert PlateauStart(s, 2) == 2 && PlateauStart(s, 1) == 1;
  }

  lemma TwoStepsBase(q: real, g: real, e: real, s: seq<Sample>)
    requires q > 0.0 && g > 0.0 && e > 0.0 && s == TwoSteps(q, g, e)
    ensures Base(s, e + g, e + g) == 0
  {
    assert PlateauStart(s, 2) == 2 && PlateauStart(s, 1) == 1;
    assert Lookback(s, e + g, e + g) == e + g;
  }

  /** No factor below two would do: with a window of `e + g` the burn reported for two such steps is
      two of them in `e + g` seconds, however small `e` is. */
  lemma TwiceIsTight(q: real, g: real, e: real)
    requires q > 0.0 && g > 0.0 && e > 0.0 && e + g >= Pacing.BURN_MIN_SPAN_S
    ensures var s := TwoSteps(q, g, e);
            && Ordered(s) && Past(s, e + g) && SameEpoch(s, s[2].reset) == s && Stepped(s, 1, 2) && Paced(s, q, g)
            && PerHour(s, e + g, e + g) == Some(2.0 * q / ((e + g) / 3600.0))
  {
    var s := TwoSteps(q, g, e);
    TwoStepsEpoch(q, g, e, s);
    TwoStepsPaced(q, g, e, s);
    TwoStepsBase(q, g, e, s);
  }

  /** A meter that never rises burns nothing. */
  lemma FallingBurnsNothing(samples: seq<Sample>, now: real, windowS: real)
    requires Past(samples, now)
    requires forall a, b :: a in samples && b in samples && a.at < b.at ==> b.util <= a.util
    ensures PerHour(samples, now, windowS).None? || PerHour(samples, now, windowS) == Some(0.0)
  {
    if samples != [] {
      var same := SameEpoch(samples, samples[|samples| - 1].reset);
      if |same| >= 2 {
        var k := Base(same, now, windowS);
        assert same[k] in samples && same[|same| - 1] in samples;
      }
    }
  }
}
