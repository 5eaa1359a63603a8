/**
 Weekly pacing: the allowance line of the seven-day window, the wait until it catches an
 account up, and the burn measured over the meter's plateaus.
 */
module Pacing {
  import opened Common

  const WEEK_S := 604800.0
  const BURN_MIN_SPAN_S := 60.0

  function Elapsed(now: real, reset: real): real {
    MinR(1.0, MaxR(0.0, 1.0 - (reset - now) / WEEK_S))
  }

  /** The line's height, while the window is open. */
  function Allowed(now: real, reset: real, burst: real): Option<real> {
    if reset <= now then None else Some(Elapsed(now, reset) + burst * (1.0 - Elapsed(now, reset)))
  }

  /** Nearest multiple of one millionth, ties to even. */
  function Rounded(x: real): real {
    var scaled := x * 1000000.0;
    var below := scaled.Floor;
    var part := scaled - below as real;
    var n := if part < 0.5 || (part == 0.5 && below % 2 == 0) then below else below + 1;
    n as real / 1000000.0
  }

  datatype Standing = Unknown | Ahead | OnSchedule

  /** One account as the pacing decision sees it; `waitS` is set by the remaining law. */
  datatype Account = Account(name: string, util: Option<real>, reset: Option<real>, standing: Standing, waitS: Option<real>)

  function Line(name: string, util: Option<real>, reset: Option<real>, now: real, burst: real): Account {
    var standing :=
      if util.None? || reset.None? || Allowed(now, reset.value, burst).None? then Unknown
      else if Rounded(util.value - Allowed(now, reset.value, burst).value) > 0.0 then Ahead
      else OnSchedule;
    Account(name, util, reset, standing, None)
  }

  /** How far the burn is over its allowance. */
  function Excess(burn: real, cap: real, margin: real): real {
    burn - cap * (1.0 + margin)
  }

  function LeftPerHour(util: real, reset: real, now: real): real
    requires now < reset
  {
    MaxR(0.0, 1.0 - util) / ((reset - now) / 3600.0)
  }

  /** The remaining law: measured burn against what is left, per hour. */
  function Remaining(name: string, util: Option<real>, reset: Option<real>, now: real, burn: Option<real>,
                     windowS: real, margin: real): Account
  {
    var standing :=
      if util.None? || reset.None? || reset.value <= now || burn.None? then Unknown
      else
        var cap := LeftPerHour(util.value, reset.value, now);
        if Rounded(Excess(burn.value, cap, margin)) > 0.0 then Ahead else OnSchedule;
    Account(name, util, reset, standing, Some(windowS))
  }

  function CatchupWait(util: real, reset: real, now: real, burst: real): real {
    var solved := if burst < 1.0 then (util - burst) / (1.0 - burst) else 1.0;
    var e := MinR(1.0, MaxR(0.0, solved));
    MaxR(1.0, reset - WEEK_S * (1.0 - e) - now)
  }

  /** Rounding never turns an account that is not above the line into one that is. */
  lemma RoundedSign(x: real)
    ensures Rounded(x) > 0.0 <==> x > 0.0000005
  {
    var scaled := x * 1000000.0;
    var below := scaled.Floor;
    var n := (Rounded(x) * 1000000.0).Floor;
    assert Rounded(x) * 1000000.0 == n as real;
    assert Rounded(x) > 0.0 <==> n >= 1;
  }

  lemma LineMonotone(e: real, f: real, burst: real)
    requires 0.0 <= burst < 1.0
    ensures e < f <==> e + burst * (1.0 - e) < f + burst * (1.0 - f)
  {
    var d, k := f - e, 1.0 - burst;
    assert f + burst * (1.0 - f) - (e + burst * (1.0 - e)) == d * k;
    if d > 0.0 {
      assert d * k > 0.0;
    } else {
      assert (-d) * k >= 0.0;
    }
  }

  lemma LineAt(util: real, burst: real, e: real)
    requires 0.0 <= burst < 1.0 && e == (util - burst) / (1.0 - burst)
    ensures e + burst * (1.0 - e) == util
  {
    assert e * (1.0 - burst) == util - burst;
  }

  lemma ElapsedAt(t: real, reset: real, e: real)
    requires 0.0 <= e <= 1.0 && t < reset
    ensures t >= reset - WEEK_S * (1.0 - e) ==> Elapsed(t, reset) >= e
    ensures t < reset - WEEK_S * (1.0 - e) && e > 0.0 ==> Elapsed(t, reset) < e
  {
    assert (reset - t) / WEEK_S * WEEK_S == reset - t;
  }

  /** Main result: from the advertised catch-up on, an account whose usage stays put is not
      ahead, for as long as one cares to look. */
  lemma CaughtUp(name: string, util: real, reset: real, now: real, burst: real, t: real)
    requires 0.0 <= burst < 1.0 && t >= now + CatchupWait(util, reset, now, burst)
    ensures !Line(name, Some(util), Some(reset), t, burst).standing.Ahead?
  {
    var solved := (util - burst) / (1.0 - burst);
    var e := MinR(1.0, MaxR(0.0, solved));
    if t < reset {
      ElapsedAt(t, reset, e);
      LineMonotone(e, Elapsed(t, reset), burst);
      LineAt(util, burst, solved);
      assert solved <= 1.0;
      LineMonotone(solved, e, burst);
      RoundedSign(util - Allowed(t, reset, burst).value);
    }
  }

  /** Main result: and not before.  An account above the line now stays above it at every
      instant before the catch-up, unless that is within the one-second minimum. */
  lemma NotSooner(util: real, reset: real, now: real, burst: real, t: real)
    requires 0.0 <= burst < 1.0 && now < reset && util > Allowed(now, reset, burst).value
    requires CatchupWait(util, reset, now, burst) > 1.0 && now <= t < now + CatchupWait(util, reset, now, burst)
    ensures t < reset && util > Allowed(t, reset, burst).value
  {
    var solved := (util - burst) / (1.0 - burst);
    var e := MinR(1.0, MaxR(0.0, solved));
    LineAt(util, burst, solved);
    LineMonotone(solved, Elapsed(now, reset), burst);
    assert solved > Elapsed(now, reset) >= 0.0;
    assert t < reset - WEEK_S * (1.0 - e);
    ElapsedAt(t, reset, e);
    LineMonotone(Elapsed(t, reset), e, burst);
    LineMonotone(Elapsed(t, reset), solved, burst);
  }

  /** The share of the week that has passed, and the height of the line there, straight from the clock. */
  ghost function LineHeight(now: real, reset: real, burst: real): real {
    var left := MinR(1.0, MaxR(0.0, (reset - now) / 604800.0));
    (1.0 - left) + burst * left
  }

  /** An account is ahead exactly if its window is open and its usage exceeds the line by more than half a
      millionth; nothing is said of one whose window is over or that reports too little. */
  lemma AheadIff(name: string, util: Option<real>, reset: Option<real>, now: real, burst: real)
    ensures var s := Line(name, util, reset, now, burst).standing;
            && (s.Unknown? <==> util.None? || reset.None? || reset.value <= now)
            && (s.Ahead? <==> util.Some? && reset.Some? && now < reset.value
                              && util.value > LineHeight(now, reset.value, burst) + 0.0000005)
  {
    if util.Some? && reset.Some? && now < reset.value {
      RoundedSign(util.value - Allowed(now, reset.value, burst).value);
    }
  }

  lemma OverHours(burn: real, cap: real, factor: real, hours: real, eps: real, left: real)
    requires hours > 0.0 && cap * hours == left
    ensures burn - cap * factor > eps <==> burn * hours > left * factor + eps * hours
  {
    var over := burn - cap * factor;
    Scaled(burn, cap, factor, hours, left);
    if over > eps {
      assert over * hours > eps * hours;
    } else {
      assert over * hours <= eps * hours;
    }
  }

  lemma Scaled(burn: real, cap: real, factor: real, hours: real, left: real)
    requires cap * hours == left
    ensures (burn - cap * factor) * hours == burn * hours - left * factor
  {
    assert cap * factor * hours == cap * hours * factor;
  }

  lemma LeftOverHours(util: real, reset: real, now: real, hours: real)
    requires now < reset && hours == (reset - now) / 3600.0
    ensures hours > 0.0 && LeftPerHour(util, reset, now) * hours == MaxR(0.0, 1.0 - util)
  {}

  lemma ExcessIs(burn: real, cap: real, margin: real, factor: real)
    requires factor == 1.0 + margin
    ensures Excess(burn, cap, margin) == burn - cap * factor
  {}

  lemma RemainingStanding(name: string, util: real, reset: real, now: real, burn: real, windowS: real, margin: real,
      over: real)
    requires now < reset && over == Excess(burn, LeftPerHour(util, reset, now), margin)
    ensures Remaining(name, Some(util), Some(reset), now, Some(burn), windowS, margin).standing
         == if over > 0.0000005 then Ahead else OnSchedule
  {
    RoundedSign(over);
  }

  /** Main result: under the remaining law an account is ahead exactly if burning on at the measured rate for
      the hours until the reset would use more than what is left, margin included. */
  lemma RemainingProjects(name: string, util: real, reset: real, now: real, burn: real, windowS: real, margin: real,
      hours: real, left: real, factor: real)
    requires now < reset && hours == (reset - now) / 3600.0 && left == MaxR(0.0, 1.0 - util) && factor == 1.0 + margin
    ensures var a := Remaining(name, Some(util), Some(reset), now, Some(burn), windowS, margin);
            && a.standing == (if burn * hours > left * factor + 0.0000005 * hours then Ahead else OnSchedule)
            && a.waitS == Some(windowS)
  {
    var cap := LeftPerHour(util, reset, now);
    LeftOverHours(util, reset, now, hours);
    ExcessIs(burn, cap, margin, factor);
    RemainingStanding(name, util, reset, now, burn, windowS, margin, Excess(burn, cap, margin));
    OverHours(burn, cap, factor, hours, 0.0000005, left);
  }

  /** Without all its figures, or once its window is over, nothing is said of it. */
  lemma RemainingUnknown(name: string, util: Option<real>, reset: Option<real>, now: real, burn: Option<real>,
                         windowS: real, margin: real)
    ensures Remaining(name, util, reset, now, burn, windowS, margin).standing.Unknown?
       <==> util.None? || reset.None? || burn.None? || reset.value <= now
  {}

  // -------------------------------------------------------------------- decision

  datatype Verdict = Route(among: Option<seq<string>>) | Defer(retryS: int)

  function AheadOnes(states: seq<Account>): (r: seq<Account>)
    ensures |r| <= |states|
    ensures r == [] <==> forall i :: 0 <= i < |states| ==> !states[i].standing.Ahead?
    ensures |r| == |states| <==> forall i :: 0 <= i < |states| ==> states[i].standing.Ahead?
    ensures |r| == |states| ==> r == states
  {
    if states == [] then []
    else (if states[0].standing.Ahead? then [states[0]] else []) + AheadOnes(states[1..])
  }

  function Others(states: seq<Account>): (r: seq<string>)
    ensures r == [] <==> forall i :: 0 <= i < |states| ==> states[i].standing.Ahead?
    ensures forall i :: 0 <= i < |states| && !states[i].standing.Ahead? ==> states[i].name in r
    ensures forall l :: l in r ==> exists i :: 0 <= i < |states| && states[i].name == l && !states[i].standing.Ahead?
  {
    if states == [] then []
    else
      var rest := Others(states[1..]);
      assert forall l :: l in rest ==> exists i :: 1 <= i < |states| && states[i].name == l && !states[i].standing.Ahead? by {
        forall l | l in rest ensures exists i :: 1 <= i < |states| && states[i].name == l && !states[i].standing.Ahead? {
          var i :| 0 <= i < |states[1..]| && states[1..][i].name == l && !states[1..][i].standing.Ahead?;
          assert states[i + 1].name == l;
        }
      }
      (if states[0].standing.Ahead? then [] else [states[0].name]) + rest
  }

  /** What one account contributes to the retry, if anything. */
  function WaitOf(s: Account, now: real, resets: map<string, real>, utils: map<string, real>,
      burst: real): Option<real> {
    if s.waitS.Some? then s.waitS
    else
      var util := if s.name in utils then Some(utils[s.name]) else s.util;
      var reset := if s.name in resets then Some(resets[s.name]) else s.reset;
      if util.None? || reset.None? then None else Some(CatchupWait(util.value, reset.value, now, burst))
  }

  function Least(states: seq<Account>, now: real, resets: map<string, real>, utils: map<string, real>,
      burst: real): Option<real> {
    if states == [] then None
    else
      var rest := Least(states[..|states| - 1], now, resets, utils, burst);
      var w := WaitOf(states[|states| - 1], now, resets, utils, burst);
      if w.None? then rest else if rest.None? then w else Some(MinR(rest.value, w.value))
  }

  /** The least wait is one of the accounts' and no longer than any; there is none only if nobody has one. */
  lemma {:induction false} LeastIsSoonest(states: seq<Account>, now: real, resets: map<string, real>,
      utils: map<string, real>, burst: real)
    ensures var least := Least(states, now, resets, utils, burst);
            && (least.None? <==> forall i :: 0 <= i < |states| ==> WaitOf(states[i], now, resets, utils, burst).None?)
            && (least.Some? ==>
                  && (exists i :: 0 <= i < |states| && WaitOf(states[i], now, resets, utils, burst) == least)
                  && forall i :: 0 <= i < |states| && WaitOf(states[i], now, resets, utils, burst).Some? ==>
                       least.value <= WaitOf(states[i], now, resets, utils, burst).value)
  {
    if states != [] {
      var n := |states| - 1;
      var front := states[..n];
      LeastIsSoonest(front, now, resets, utils, burst);
      forall i | 0 <= i < n ensures states[i] == front[i] {}
      var least, rest := Least(states, now, resets, utils, burst), Least(front, now, resets, utils, burst);
      if least.Some? && WaitOf(states[n], now, resets, utils, burst) != least {
        assert rest == least;
        var i :| 0 <= i < n && WaitOf(front[i], now, resets, utils, burst) == rest;
        assert WaitOf(states[i], now, resets, utils, burst) == least;
      }
    }
  }

  /** The account with the figures reported since, where there are any. */
  function Refreshed(s: Account, resets: map<string, real>, utils: map<string, real>): Account {
    s.(util := if s.name in utils then Some(utils[s.name]) else s.util,
       reset := if s.name in resets then Some(resets[s.name]) else s.reset)
  }

  function AllRefreshed(states: seq<Account>, resets: map<string, real>, utils: map<string, real>): (r: seq<Account>)
    ensures |r| == |states|
  {
    seq(|states|, i requires 0 <= i < |states| => Refreshed(states[i], resets, utils))
  }

  /** Fresh figures count: the least wait is that of the accounts with the figures reported since. */
  lemma {:induction false} FreshFiguresCount(states: seq<Account>, now: real, resets: map<string, real>,
      utils: map<string, real>, burst: real)
    ensures Least(states, now, resets, utils, burst) == Least(AllRefreshed(states, resets, utils), now, map[], map[], burst)
  {
    if states != [] {
      var n := |states| - 1;
      var news := AllRefreshed(states, resets, utils);
      FreshFiguresCount(states[..n], now, resets, utils, burst);
      assert news[..n] == AllRefreshed(states[..n], resets, utils);
      assert news[n] == Refreshed(states[n], resets, utils);
    }
  }

  function Truncated(x: real): int {
    if x >= 0.0 then x.Floor else -((-x).Floor)
  }

  function Retry(least: Option<real>, cap: real): int {
    MaxI(1, MinI(Truncated(cap), Ceil(if least.None? then cap else least.value)))
  }

  /** The soonest catch-up among the accounts ahead, rounded up and capped. */
  method CatchupRetry(ahead: seq<Account>, now: real, cap: real, resets: map<string, real>,
      utils: map<string, real>, burst: real)
    returns (retry: int)
    ensures retry == Retry(Least(ahead, now, resets, utils, burst), cap)
  {
    var least: Option<real> := None;
    for i := 0 to |ahead|
      invariant least == Least(ahead[..i], now, resets, utils, burst)
    {
      assert ahead[..i + 1][..i] == ahead[..i];
      var w := WaitOf(ahead[i], now, resets, utils, burst);
      if w.Some? {
        least := if least.None? then w else Some(MinR(least.value, w.value));
      }
    }
    assert ahead[..|ahead|] == ahead;
    var wait := if least.None? then cap else least.value;
    return MaxI(1, MinI(Truncated(cap), Ceil(wait)));
  }

  /** Main result: the advertised retry is the least whole number of seconds, one at least, by which the
      soonest account has caught up, unless the cap is less. */
  lemma RetryIsSoonest(ahead: seq<Account>, now: real, cap: real, resets: map<string, real>, utils: map<string, real>,
      burst: real, retry: int)
    requires retry == Retry(Least(ahead, now, resets, utils, burst), cap)
    ensures 1 <= retry && retry as real <= MaxR(1.0, cap)
    ensures retry as real + 1.0 <= cap ==>
              exists i :: 0 <= i < |ahead| && var w := WaitOf(ahead[i], now, resets, utils, burst); w.Some? && w.value <= retry as real
    ensures retry > 1 ==> forall i :: 0 <= i < |ahead| ==>
              var w := WaitOf(ahead[i], now, resets, utils, burst); w.Some? ==> (retry - 1) as real < w.value
    ensures (forall i :: 0 <= i < |ahead| ==> WaitOf(ahead[i], now, resets, utils, burst).None?) ==>
              cap < retry as real + 1.0
  {
    LeastIsSoonest(ahead, now, resets, utils, burst);
  }

  function Decide(states: seq<Account>, enforce: bool, priority: bool, now: real, cap: real,
                  resets: map<string, real>, utils: map<string, real>, burst: real): Verdict
  {
    var ahead := AheadOnes(states);
    if !enforce || ahead == [] then Route(None)
    else if |ahead| < |states| then Route(Some(Others(states)))
    else if priority then Route(None)
    else Defer(Retry(Least(ahead, now, resets, utils, burst), cap))
  }

  /** A decision filters exactly when some accounts are ahead and some are not, down to those that are not,
      never to nobody, and defers only ordinary traffic with everybody ahead. */
  lemma DecideIsSafe(states: seq<Account>, enforce: bool, priority: bool, now: real, cap: real,
                     resets: map<string, real>, utils: map<string, real>, burst: real)
    ensures var v := Decide(states, enforce, priority, now, cap, resets, utils, burst);
            && (v.Route? && v.among.Some? ==> v.among.value != [] && v.among.value == Others(states))
            && (v.Route? && v.among.Some? <==>
                  && enforce
                  && (exists i :: 0 <= i < |states| && states[i].standing.Ahead?)
                  && (exists i :: 0 <= i < |states| && !states[i].standing.Ahead?))
            && (v.Defer? <==> enforce && !priority && states != [] && forall i :: 0 <= i < |states| ==> states[i].standing.Ahead?)
            && (v.Defer? ==> v.retryS >= 1)
  {
    assert |AheadOnes(states)| == |states| ==> (AheadOnes(states) == [] <==> states == []);
  }

  /** The accounts of a pool under the line law, as they stand at an instant. */
  function Lines(pool: seq<(string, Option<real>, Option<real>)>, t: real, burst: real): (r: seq<Account>)
    ensures |r| == |pool|
    ensures forall i :: 0 <= i < |pool| ==> r[i] == Line(pool[i].0, pool[i].1, pool[i].2, t, burst)
  {
    seq(|pool|, i requires 0 <= i < |pool| => Line(pool[i].0, pool[i].1, pool[i].2, t, burst))
  }

  lemma {:induction false} LeastReached(states: seq<Account>, now: real, burst: real)
    requires states != []
    requires forall i :: 0 <= i < |states| ==> WaitOf(states[i], now, map[], map[], burst).Some?
    ensures Least(states, now, map[], map[], burst).Some?
    ensures exists i :: 0 <= i < |states| && WaitOf(states[i], now, map[], map[], burst) == Least(states, now, map[], map[], burst)
  {
    var n := |states| - 1;
    var front := states[..n];
    assert WaitOf(states[n], now, map[], map[], burst).Some?;
    if n > 0 {
      LeastReached(front, now, burst);
      var i :| 0 <= i < |front| && WaitOf(front[i], now, map[], map[], burst) == Least(front, now, map[], map[], burst);
      assert states[i] == front[i];
    }
  }

  /** Somebody who is ahead has the least wait, and that is what an uncapped deferral rounds up. */
  lemma DeferredFor(states: seq<Account>, priority: bool, now: real, cap: real, burst: real) returns (i: nat)
    requires Decide(states, true, priority, now, cap, map[], map[], burst).Defer?
    requires forall i :: 0 <= i < |states| && states[i].standing.Ahead? ==> WaitOf(states[i], now, map[], map[], burst).Some?
    ensures i < |states| && states[i].standing.Ahead?
    ensures WaitOf(states[i], now, map[], map[], burst) == Least(states, now, map[], map[], burst)
    ensures Decide(states, true, priority, now, cap, map[], map[], burst).retryS
         == Retry(Least(states, now, map[], map[], burst), cap)
  {
    DecideIsSafe(states, true, priority, now, cap, map[], map[], burst);
    assert AheadOnes(states) == states;
    LeastReached(states, now, burst);
    i :| 0 <= i < |states| && WaitOf(states[i], now, map[], map[], burst) == Least(states, now, map[], map[], burst);
  }

  lemma UncappedRetry(least: real, cap: real)
    requires Ceil(least) <= Truncated(cap)
    ensures Retry(Some(least), cap) as real >= least
  {
  }

  lemma RoutedBeside(states: seq<Account>, i: nat, priority: bool, t: real, cap: real, burst: real)
    requires i < |states| && !states[i].standing.Ahead?
    ensures Decide(states, true, priority, t, cap, map[], map[], burst).Route?
  {
    DecideIsSafe(states, true, priority, t, cap, map[], map[], burst);
  }

  /** An account ahead under the line law says what it used and when it resets, and waits for the
      catch-up those give. */
  lemma LineWait(name: string, util: Option<real>, reset: Option<real>, now: real, burst: real)
    requires Line(name, util, reset, now, burst).standing.Ahead?
    ensures util.Some? && reset.Some?
    ensures WaitOf(Line(name, util, reset, now, burst), now, map[], map[], burst)
         == Some(CatchupWait(util.value, reset.value, now, burst))
  {
  }

  /** Main result: a deferral under the line law keeps its word.  Whoever waits the advertised
      seconds, uncapped, and asks again with the same usage is routed, then and ever after. */
  lemma DeferralIsHonest(pool: seq<(string, Option<real>, Option<real>)>, priority: bool, now: real, cap: real,
      burst: real, t: real)
    requires 0.0 <= burst < 1.0
    requires Decide(Lines(pool, now, burst), true, priority, now, cap, map[], map[], burst).Defer?
    requires var least := Least(Lines(pool, now, burst), now, map[], map[], burst);
             least.Some? && Ceil(least.value) <= Truncated(cap)
    requires t >= now + Decide(Lines(pool, now, burst), true, priority, now, cap, map[], map[], burst).retryS as real
    ensures Decide(Lines(pool, t, burst), true, priority, t, cap, map[], map[], burst).Route?
  {
    var states := Lines(pool, now, burst);
    forall i | 0 <= i < |states| && states[i].standing.Ahead? ensures WaitOf(states[i], now, map[], map[], burst).Some? {
      LineWait(pool[i].0, pool[i].1, pool[i].2, now, burst);
    }
    var i := DeferredFor(states, priority, now, cap, burst);
    LineWait(pool[i].0, pool[i].1, pool[i].2, now, burst);
    UncappedRetry(Least(states, now, map[], map[], burst).value, cap);
    CaughtUp(pool[i].0, pool[i].1.value, pool[i].2.value, now, burst, t);
    RoutedBeside(Lines(pool, t, burst), i, priority, t, cap, burst);
  }
}
