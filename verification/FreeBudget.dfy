/**
 Fixed-window request budgets, one window for each declared model.
 */
module FreeBudgets {
  import opened Common

  const RETRY_MIN_S := 1
  const RETRY_MAX_S := 86400
  const UNDECLARED_RETRY_S := 60.0

  datatype Spec = Spec(budget: int, windowS: int)

  /** When the window opened and how many admissions it has counted. */
  datatype Window = Window(started: real, used: int)

  datatype Reason = Ok | Disabled | Undeclared | InvalidConfig | BudgetExhausted

  datatype Decision = Decision(allow: bool, reason: Reason, retryAfterS: int, used: int)

  datatype Config = Config(specs: map<string, Spec>, required: bool, invalid: bool, pressurePct: real)

  function Truncated(x: real): int {
    if x >= 0.0 then x.Floor else -((-x).Floor)
  }

  function ClampRetry(seconds: real): int {
    MaxI(RETRY_MIN_S, MinI(RETRY_MAX_S, Truncated(seconds + 0.999)))
  }

  function Current(w: Option<Window>, now: real, windowS: int): Window {
    if w.None? || now < w.value.started || now - w.value.started >= windowS as real then Window(now, 0) else w.value
  }

  function Deny(reason: Reason, seconds: real, used: int): Decision {
    Decision(false, reason, ClampRetry(seconds), used)
  }

  /** One consult of a declared model: the decision and its window afterwards. */
  function Consult(w: Option<Window>, spec: Spec, now: real, count: bool): (Decision, Window) {
    var c := Current(w, now, spec.windowS);
    if c.used >= spec.budget then
      (Deny(BudgetExhausted, c.started + spec.windowS as real - now, c.used), c)
    else
      var c' := if count then c.(used := c.used + 1) else c;
      (Decision(true, Ok, 0, c'.used), c')
  }

  function Get<K, V>(m: map<K, V>, k: K): Option<V> {
    if k in m then Some(m[k]) else None
  }

  function Admission(c: Config, windows: map<string, Window>, model: string, now: real,
      count: bool): (Decision, map<string, Window>) {
    if c.invalid then (Deny(InvalidConfig, UNDECLARED_RETRY_S, 0), windows)
    else if c.specs == map[] then (Decision(true, Disabled, 0, 0), windows)
    else if model !in c.specs then
      (if c.required then Deny(Undeclared, UNDECLARED_RETRY_S, 0) else Decision(true, Undeclared, 0, 0), windows)
    else
      var (d, w) := Consult(Get(windows, model), c.specs[model], now, count);
      (d, windows[model := w])
  }

  datatype Verdict = Blocked | Headroom | NoEvidence

  function BlocksOne(c: Config, windows: map<string, Window>, model: string, now: real): Verdict {
    if model !in c.specs then if c.required then Blocked else NoEvidence
    else
      var w := Current(Get(windows, model), now, c.specs[model].windowS);
      if w.used >= c.specs[model].budget then Blocked
      else if c.specs[model].budget > 0 && w.used as real / c.specs[model].budget as real * 100.0 >= c.pressurePct then Blocked
      else Headroom
  }

  class FreeBudget {
    var config: Config
    var windows: map<string, Window>

    constructor (config: Config)
      ensures this.config == config && windows == map[]
    {
      this.config, windows := config, map[];
    }

    method Admit(model: string, now: real, count: bool) returns (d: Decision)
      modifies this`windows
      ensures (d, windows) == Admission(config, old(windows), model, now, count)
    {
      if config.invalid {
        return Deny(InvalidConfig, UNDECLARED_RETRY_S, 0);
      }
      if config.specs == map[] {
        return Decision(true, Disabled, 0, 0);
      }
      if model !in config.specs {
        if config.required {
          return Deny(Undeclared, UNDECLARED_RETRY_S, 0);
        }
        return Decision(true, Undeclared, 0, 0);
      }
      var spec := config.specs[model];
      var w := Current(Get(windows, model), now, spec.windowS);
      windows := windows[model := w];
      if w.used >= spec.budget {
        return Deny(BudgetExhausted, w.started + spec.windowS as real - now, w.used);
      }
      if count {
        w := w.(used := w.used + 1);
        windows := windows[model := w];
        assert windows == old(windows)[model := w];
      }
      return Decision(true, Ok, 0, w.used);
    }

    /** Known to be budget, known to have headroom, or no evidence either way.  Without a model
        the most exhausted declared one decides.  Headroom is a promise about the next claim. */
    method BudgetBlocks(model: string, now: real) returns (v: Verdict)
      ensures config.invalid ==> v == Blocked
      ensures !config.invalid && config.specs == map[] ==> v == NoEvidence
      ensures !config.invalid && config.specs != map[] && model != "" ==> v == BlocksOne(config, windows, model, now)
      ensures !config.invalid && config.specs != map[] && model == "" ==>
        v == if exists m :: m in config.specs && m != "" && BlocksOne(config, windows, m, now).Blocked? then Blocked else Headroom
      ensures v.Headroom? && model != "" ==> model in config.specs && Admission(config, windows, model, now, true).0.allow
      ensures v.Headroom? && model == "" ==>
        forall m :: m in config.specs && m != "" ==> Admission(config, windows, m, now, true).0.allow
    {
      if config.invalid {
        return Blocked;
      }
      if config.specs == map[] {
        return NoEvidence;
      }
      if model != "" {
        return BlocksOne(config, windows, model, now);
      }
      return if exists m :: m in config.specs && m != "" && BlocksOne(config, windows, m, now).Blocked? then Blocked else Headroom;
    }
  }

  // ---------------------------------------------------------- one window over a run

  /** A consult of one declared model: when, and whether it claims a unit. */
  datatype Call = Call(now: real, count: bool)

  ghost function Run(calls: seq<Call>, spec: Spec): Option<Window> {
    if calls == [] then None
    else
      var last := calls[|calls| - 1];
      Some(Consult(Run(calls[..|calls| - 1], spec), spec, last.now, last.count).1)
  }

  /** The last call of a run claimed a unit. */
  ghost predicate Admits(calls: seq<Call>, spec: Spec)
    requires calls != []
  {
    var last := calls[|calls| - 1];
    last.count && Consult(Run(calls[..|calls| - 1], spec), spec, last.now, true).0.allow
  }

  /** Units claimed at or after `from` and before `until`. */
  ghost function Claims(calls: seq<Call>, spec: Spec, from: real, until: real): nat {
    if calls == [] then 0
    else
      var last := calls[|calls| - 1];
      Claims(calls[..|calls| - 1], spec, from, until)
      + (if from <= last.now < until && Admits(calls, spec) then 1 else 0)
  }

  ghost predicate Monotone(calls: seq<Call>) {
    forall i, j :: 0 <= i <= j < |calls| ==> calls[i].now <= calls[j].now
  }

  ghost predicate Earlier(calls: seq<Call>, t: real) {
    forall i :: 0 <= i < |calls| ==> calls[i].now <= t
  }

  /** Nothing was claimed from a point that no call has reached. */
  lemma {:induction false} NoClaims(calls: seq<Call>, spec: Spec, from: real, until: real)
    requires forall i :: 0 <= i < |calls| ==> calls[i].now < from || calls[i].now >= until
    ensures Claims(calls, spec, from, until) == 0
  {
    if calls != [] {
      NoClaims(calls[..|calls| - 1], spec, from, until);
    }
  }

  ghost predicate WindowOk(w: Option<Window>, calls: seq<Call>, spec: Spec) {
    (w.None? <==> calls == [])
    && (w.Some? ==>
          var until := w.value.started + spec.windowS as real;
          && calls[|calls| - 1].now < until && w.value.started <= calls[|calls| - 1].now
          && w.value.used == Claims(calls, spec, w.value.started, until)
          && 0 <= w.value.used <= spec.budget)
  }

  /** The window in force counts exactly the units claimed since it opened, and never more than
      the budget. */
  lemma {:induction false} WindowCounts(calls: seq<Call>, spec: Spec)
    requires Monotone(calls) && spec.budget >= 0 && spec.windowS > 0
    ensures WindowOk(Run(calls, spec), calls, spec)
  {
    if calls != [] {
      var rest, last := calls[..|calls| - 1], calls[|calls| - 1];
      WindowCounts(rest, spec);
      var w := Run(rest, spec);
      var c := Current(w, last.now, spec.windowS);
      if w.None? || last.now - w.value.started >= spec.windowS as real {
        forall i | 0 <= i < |rest| ensures rest[i].now < last.now {
          assert rest[i].now <= rest[|rest| - 1].now;
        }
        NoClaims(rest, spec, last.now, last.now + spec.windowS as real);
      }
      assert c.used == Claims(rest, spec, c.started, c.started + spec.windowS as real);
    }
  }

  /** Whatever was claimed less than a window before the current one opened is at most one
      budget more than it has counted. */
  lemma {:induction false} RecentClaims(calls: seq<Call>, spec: Spec, from: real, until: real)
    requires Monotone(calls) && spec.budget >= 0 && spec.windowS > 0 && calls != []
    requires from > Run(calls, spec).value.started - spec.windowS as real
    ensures Claims(calls, spec, from, until) <= spec.budget + Run(calls, spec).value.used
  {
    var rest, last := calls[..|calls| - 1], calls[|calls| - 1];
    var w := Run(rest, spec);
    WindowCounts(rest, spec);
    if w.Some? {
      if last.now - w.value.started >= spec.windowS as real {
        AtMostWindow(rest, spec, from, until);
      } else {
        assert Current(w, last.now, spec.windowS) == w.value by {
          assert rest[|rest| - 1].now <= last.now;
        }
        RecentClaims(rest, spec, from, until);
      }
    }
  }

  /** From the current window's opening on, only what it has counted was claimed. */
  lemma {:induction false} FromWindow(calls: seq<Call>, spec: Spec, from: real, until: real, lo: real, hi: real)
    requires lo <= from && forall i :: 0 <= i < |calls| ==> calls[i].now < hi
    ensures Claims(calls, spec, from, until) <= Claims(calls, spec, lo, hi)
  {
    if calls != [] {
      FromWindow(calls[..|calls| - 1], spec, from, until, lo, hi);
    }
  }

  lemma AtMostWindow(calls: seq<Call>, spec: Spec, from: real, until: real)
    requires Monotone(calls) && spec.budget >= 0 && spec.windowS > 0 && calls != []
    requires from >= Run(calls, spec).value.started
    ensures Claims(calls, spec, from, until) <= Run(calls, spec).value.used
  {
    WindowCounts(calls, spec);
    var w := Run(calls, spec).value;
    forall i | 0 <= i < |calls| ensures calls[i].now < w.started + spec.windowS as real {
      assert calls[i].now <= calls[|calls| - 1].now;
    }
    FromWindow(calls, spec, from, until, w.started, w.started + spec.windowS as real);
  }

  /** Main result: on a clock that does not go back, no interval as long as a window sees more
      than twice the budget. */
  lemma {:induction false} TwiceTheBudget(calls: seq<Call>, spec: Spec, from: real)
    requires Monotone(calls) && spec.budget >= 0 && spec.windowS > 0
    ensures Claims(calls, spec, from, from + spec.windowS as real) <= 2 * spec.budget
  {
    if calls != [] {
      var rest, last := calls[..|calls| - 1], calls[|calls| - 1];
      if last.now >= from + spec.windowS as real {
        TwiceTheBudget(rest, spec, from);
      } else {
        WindowCounts(calls, spec);
        RecentClaims(calls, spec, from, from + spec.windowS as real);
      }
    }
  }

  // ------------------------------------------------------------------- refusals

  /** Seconds until the window of a refused call closes. */
  function Rest(w: Option<Window>, spec: Spec, now: real): real {
    Current(w, now, spec.windowS).started + spec.windowS as real - now
  }

  /** Main result: a caller refused for budget who waits its Retry-After and one millisecond
      more, and asks again at any later time, meets a fresh window. */
  lemma RefusalIsHonest(w: Option<Window>, spec: Spec, now: real, count: bool, t: real)
    requires 0 < spec.windowS <= RETRY_MAX_S && !Consult(w, spec, now, count).0.allow
    requires t >= now + Consult(w, spec, now, count).0.retryAfterS as real + 0.001
    ensures var (d, w') := Consult(w, spec, now, count); Current(Some(w'), t, spec.windowS) == Window(t, 0)
  {
    var x := Rest(w, spec, now);
    assert 0.0 < x <= spec.windowS as real;
    assert (x + 0.999).Floor as real > x + 0.999 - 1.0;
  }

  /** At most a second, a whole number of seconds, or at least a millisecond past one. */
  predicate Whole(x: real) {
    x <= 1.0 || x == x.Floor as real || x >= x.Floor as real + 0.001
  }

  /** Without the extra millisecond the promise holds if and only if the rest of the window is at
      most a second, a whole number of seconds, or at least a millisecond past one. */
  lemma RefusalExact(w: Option<Window>, spec: Spec, now: real, count: bool)
    requires 0 < spec.windowS <= RETRY_MAX_S && !Consult(w, spec, now, count).0.allow
    ensures var (d, w') := Consult(w, spec, now, count);
            var t, x := now + d.retryAfterS as real, Rest(w, spec, now);
            Current(Some(w'), t, spec.windowS) == Window(t, 0) <==> Whole(x)
  {
    var x := Rest(w, spec, now);
    var n := x.Floor;
    assert 0.0 < x <= spec.windowS as real;
    if x >= n as real + 0.001 {
      assert (x + 0.999).Floor == n + 1;
    } else {
      assert (x + 0.999).Floor == n;
    }
  }

  /** A refusal that comes back too early: half a millisecond past a whole second. */
  lemma RefusalCanBeShort()
    ensures var w, spec := Some(Window(0.0, 1)), Spec(1, 10);
            var (d, w') := Consult(w, spec, 4.9995, true);
            d == Decision(false, BudgetExhausted, 5, 1) && Current(Some(w'), 4.9995 + 5.0, spec.windowS) == w'
  {
    assert (5.0005 + 0.999).Floor == 5;
  }

  /** A model without a declared budget is refused exactly under a broken configuration or one that requires
      declarations, for a minute, and no window is touched. */
  lemma UndeclaredDecision(c: Config, windows: map<string, Window>, model: string, now: real, count: bool)
    requires model !in c.specs || c.invalid
    ensures var (d, windows') := Admission(c, windows, model, now, count);
            && (!d.allow <==> c.invalid || (c.required && c.specs != map[]))
            && (!d.allow ==> d.retryAfterS == 60) && windows' == windows
  {
    assert (60.0 + 0.999).Floor == 60;
  }

  /** What the model's open window has counted; nothing, if it has none or its time is over. */
  ghost function UsedNow(windows: map<string, Window>, model: string, now: real, windowS: int): int {
    if model in windows && windows[model].started <= now < windows[model].started + windowS as real then windows[model].used
    else 0
  }

  lemma PressureIff(used: int, budget: int, pct: real)
    requires budget > 0
    ensures used as real / budget as real * 100.0 >= pct <==> 100.0 * used as real >= pct * budget as real
  {
    var share, b := used as real / budget as real, budget as real;
    assert share * b == used as real;
    if share * 100.0 >= pct {
      assert (share * 100.0) * b >= pct * b;
    } else {
      assert (share * 100.0) * b < pct * b;
    }
  }

  /** Main result: the pushback verdict agrees with admission.  Headroom is never reported where an
      admission would be refused, at full pressure the two coincide, and below it a model is blocked
      from the stated share of its budget on. */
  lemma VerdictAgrees(c: Config, windows: map<string, Window>, model: string, now: real)
    requires !c.invalid && c.specs != map[]
    requires model in c.specs ==> c.specs[model].budget > 0 && (model in windows ==> windows[model].used >= 0)
    ensures var v, d := BlocksOne(c, windows, model, now), Admission(c, windows, model, now, true).0;
            && (!d.allow ==> v.Blocked?)
            && (c.pressurePct == 100.0 ==> (v.Blocked? <==> !d.allow))
            && (v.NoEvidence? <==> model !in c.specs && !c.required)
            && (model in c.specs ==>
                  var budget, used := c.specs[model].budget, UsedNow(windows, model, now, c.specs[model].windowS);
                  v.Blocked? <==> used >= budget || 100.0 * used as real >= c.pressurePct * budget as real)
  {
    if model in c.specs {
      var used := Current(Get(windows, model), now, c.specs[model].windowS).used;
      var budget := c.specs[model].budget;
      if used < budget {
        assert used as real / budget as real * budget as real == used as real;
      }
      PressureIff(used, budget, c.pressurePct);
    }
  }
}
