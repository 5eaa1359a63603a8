/**
 The drain estimate of a lane, proved to agree with the simulated dispatcher.
 */
module DrainPrediction {
  import opened Common
  import opened Drain
  import opened DrainSimulation
  import opened Ordering

  /** A wait budget as it arrives: absent, not a finite number, or seconds. */
  datatype Budget = Unset | NotFinite | Seconds(s: real)

  function Horizon(budget: Budget): (h: real)
    ensures h >= 0.0
  {
    if budget.Seconds? && budget.s > 0.0 then budget.s else 0.0
  }

  function Clamped(residuals: seq<real>, service: real): (r: seq<real>)
    requires service > 0.0
    ensures |r| == |residuals| && Within(r, 0.0, service)
  {
    seq(|residuals|, i requires 0 <= i < |residuals| => MinR(MaxR(0.0, residuals[i]), service))
  }

  /** Modelled completion times of the `busy` holders, earliest first; a holder without
      evidence of its own is priced at one full service. */
  function Holders(residuals: seq<real>, busy: nat, service: real): (held: seq<real>)
    requires service > 0.0
    ensures |held| == busy
  {
    var sorted := Sorted(Clamped(residuals, service));
    if busy <= |sorted| then sorted[..busy] else sorted + Repeat(service, busy - |sorted|)
  }

  lemma HoldersOrdered(residuals: seq<real>, busy: nat, service: real)
    requires service > 0.0
    ensures Ascending(Holders(residuals, busy, service))
    ensures NotBefore(Holders(residuals, busy, service), 0.0)
  {
    SortedAscending(Clamped(residuals, service));
    SortedWithin(Clamped(residuals, service), 0.0, service);
  }

  /** When no slot is missing from the books, the holders are exactly the residuals,
      clamped to one service, plus one full service for each holder without a lease. */
  lemma HoldersAreResiduals(residuals: seq<real>, busy: nat, service: real)
    requires service > 0.0 && |residuals| <= busy
    ensures multiset(Holders(residuals, busy, service))
         == multiset(Clamped(residuals, service)) + multiset(Repeat(service, busy - |residuals|))
  {
    SortedMultiset(Clamped(residuals, service));
    var sorted := Sorted(Clamped(residuals, service));
    assert sorted[..|sorted|] == sorted;
  }

  /** Main result: sorting and padding the residuals changes nothing.  When no slot is missing from
      the books, the predicted start is that of a dispatcher whose holders are the leases in the
      order of the books, clamped to one service, and one full service for each holder without one. */
  lemma PredictionIsOfTheBooks(residuals: seq<real>, slots: nat, busy: nat, service: real, k: nat)
    requires service > 0.0 && |residuals| <= busy
    ensures SimStart(Holders(residuals, busy, service), slots, 0.0, service, k)
         == SimStart(Clamped(residuals, service) + Repeat(service, busy - |residuals|), slots, 0.0, service, k)
  {
    HoldersAreResiduals(residuals, busy, service);
    SimStartPermutation(Holders(residuals, busy, service),
                        Clamped(residuals, service) + Repeat(service, busy - |residuals|), slots, 0.0, service, k);
  }

  /** The list of free times the predictor works on. */
  function Available(residuals: seq<real>, slots: nat, busy: nat, service: real): (a: seq<real>)
    requires service > 0.0
    ensures |a| == slots
  {
    var held := Holders(residuals, busy, service);
    if busy > slots then held[busy - slots..]
    else Repeat(0.0, slots - busy) + held
  }

  lemma FirstIsEarliest(held: seq<real>)
    requires Ascending(held) && held != []
    ensures Earliest(held) == 0 && Without(held, 0) == held[1..]
  {
    assert held[0] <= held[Earliest(held)];
  }

  lemma OneServerLess(held: seq<real>, slots: nat, now: real)
    requires Ascending(held) && |held| > slots
    ensures Servers(held, slots, now) == Servers(held[1..], slots, now)
  {
    FirstIsEarliest(held);
  }

  lemma AllServersBusy(held: seq<real>, now: real)
    ensures Servers(held, |held|, now) == held
  {
    assert held + Repeat(now, 0) == held;
  }

  lemma DropOne(held: seq<real>, slots: nat, now: real, k: nat, servers: seq<real>)
    requires Ascending(held) && k + slots < |held| && servers == Servers(held[k..], slots, now)
    ensures servers == Servers(held[k + 1..], slots, now)
  {
    OneServerLess(held[k..], slots, now);
    assert held[k..][1..] == held[k + 1..];
  }

  lemma ServersOfAscending(held: seq<real>, slots: nat, now: real)
    requires Ascending(held) && |held| >= slots
    ensures Servers(held, slots, now) == held[|held| - slots..]
  {
    var k, servers := 0, Servers(held, slots, now);
    assert held[0..] == held;
    while k < |held| - slots
      invariant k <= |held| - slots && servers == Servers(held[k..], slots, now)
    {
      DropOne(held, slots, now, k, servers);
      k := k + 1;
    }
    AllServersBusy(held[k..], now);
  }

  lemma TotalStartsSwap(a: seq<real>, b: seq<real>, service: real, horizon: real)
    requires service > 0.0
    ensures TotalStarts(a + b, service, horizon) == TotalStarts(b + a, service, horizon)
  {
    TotalStartsConcat(a, b, service, horizon);
    TotalStartsConcat(b, a, service, horizon);
  }

  lemma IdleServers(held: seq<real>, slots: nat)
    requires |held| <= slots
    ensures Servers(held, slots, 0.0) == held + Repeat(0.0, slots - |held|)
  {
  }

  /** The predictor's list is the simulated servers' one, up to the place of the idle slots. */
  lemma AvailableIsServers(residuals: seq<real>, slots: nat, busy: nat, service: real, available: seq<real>,
      servers: seq<real>)
    requires service > 0.0 && available == Available(residuals, slots, busy, service)
    requires servers == Servers(Holders(residuals, busy, service), slots, 0.0)
    ensures busy > slots ==> available == servers
    ensures busy <= slots ==>
      var held, idle := Holders(residuals, busy, service), Repeat(0.0, slots - busy);
      available == idle + held && servers == held + idle
  {
    var held := Holders(residuals, busy, service);
    HoldersOrdered(residuals, busy, service);
    if busy > slots {
      ServersOfAscending(held, slots, 0.0);
    } else {
      IdleServers(held, slots);
    }
  }

  lemma SwappedMatch(a: seq<real>, b: seq<real>, service: real, horizon: real, available: seq<real>, servers: seq<real>)
    requires service > 0.0 && available == a + b && servers == b + a
    ensures TotalStarts(available, service, horizon) == TotalStarts(servers, service, horizon)
  {
    TotalStartsSwap(a, b, service, horizon);
  }

  /** The predictor's list counts starts exactly as the simulated servers do. */
  lemma AvailableMatchesServers(residuals: seq<real>, slots: nat, busy: nat, service: real, horizon: real,
                                available: seq<real>, servers: seq<real>)
    requires service > 0.0 && available == Available(residuals, slots, busy, service)
    requires servers == Servers(Holders(residuals, busy, service), slots, 0.0)
    ensures TotalStarts(available, service, horizon) == TotalStarts(servers, service, horizon)
  {
    AvailableIsServers(residuals, slots, busy, service, available, servers);
    if busy <= slots {
      SwappedMatch(Repeat(0.0, slots - busy), Holders(residuals, busy, service), service, horizon, available, servers);
    }
  }

  /** Main result: the closed form decides what the simulated dispatcher would do. */
  lemma AdmissionIsSimulation(
    residuals: seq<real>, slots: nat, busy: nat, service: real, ahead: nat, horizon: real)
    requires service > 0.0
    ensures slots > 0 && ahead <= AdmissibleAhead(Available(residuals, slots, busy, service), service, horizon)
       <==> InTime(SimStart(Holders(residuals, busy, service), slots, 0.0, service, ahead), horizon)
  {
    var held := Holders(residuals, busy, service);
    HoldersOrdered(residuals, busy, service);
    if slots == 0 {
      NoSlotsNeverStarts(held, 0.0, service, ahead);
    } else {
      AvailableMatchesServers(residuals, slots, busy, service, horizon,
                              Available(residuals, slots, busy, service), Servers(held, slots, 0.0));
      SimStartInTime(held, slots, 0.0, service, ahead, horizon);
    }
  }

  lemma GreedyStartIsSimulated(residuals: seq<real>, slots: nat, busy: nat, service: real, ahead: nat)
    requires service > 0.0 && slots > 0
    ensures SimStart(Holders(residuals, busy, service), slots, 0.0, service, ahead)
         == At(GreedyStart(Available(residuals, slots, busy, service), service, ahead))
  {
    var held := Holders(residuals, busy, service);
    var available := Available(residuals, slots, busy, service);
    HoldersOrdered(residuals, busy, service);
    SimulationIsGreedy(held, slots, 0.0, service, ahead);
    var t, g := SimStart(held, slots, 0.0, service, ahead).t, GreedyStart(available, service, ahead);
    AdmissionIsSimulation(residuals, slots, busy, service, ahead, t);
    AdmissibleAheadExact(available, service, t, ahead);
    AdmissionIsSimulation(residuals, slots, busy, service, ahead, g);
    AdmissibleAheadExact(available, service, g, ahead);
  }

  datatype Estimate = Estimate(
    slots: nat, busy: nat, queued: nat, ahead: nat, service: real, evidenced: bool,
    horizon: real, enforced: bool, wait: real, maxDepth: nat, admits: bool, rejects: bool, retryAfter: int)

  /** The start of the `ahead + 1`-th queued request in the simulated dispatcher. */
  ghost function PredictedStart(e: Estimate, residuals: seq<real>, ahead: nat): Wait
    requires e.service > 0.0
  {
    SimStart(Holders(residuals, e.busy, e.service), e.slots, 0.0, e.service, ahead)
  }

  /** The verdicts agree with the simulated dispatcher. */
  ghost predicate VerdictFaithful(e: Estimate, residuals: seq<real>) {
    && e.service > 0.0
    && (e.enforced <==> e.horizon > 0.0)
    && (e.admits <==> !e.enforced || InTime(PredictedStart(e, residuals, e.ahead), e.horizon))
    && (e.rejects <==> e.enforced && e.evidenced && !e.admits)
  }

  /** The published depth is the largest one whose request still starts in time. */
  ghost predicate DepthFaithful(e: Estimate, residuals: seq<real>) {
    && e.service > 0.0
    && (e.enforced ==>
          forall a: nat :: InTime(PredictedStart(e, residuals, a), e.horizon) ==> a <= e.maxDepth)
    && (e.maxDepth > 0 ==> e.enforced && InTime(PredictedStart(e, residuals, e.maxDepth), e.horizon))
  }

  /** The published wait reaches the simulated start, overshooting by at most
      `(ahead + 1) * service / 2^96`. */
  ghost predicate WaitFaithful(e: Estimate, residuals: seq<real>) {
    && e.service > 0.0
    && var start := PredictedStart(e, residuals, e.ahead);
    && (start.At? <==> e.slots > 0)
    && (start.At? ==> start.t <= e.wait && Overshoot(start.t, e.wait, e.ahead, e.service))
    && (start.Never? ==> e.wait == e.horizon + e.service)
  }

  /** The hint stays inside its bounds and is the least whole number of seconds that is no shorter than
      the wait, unless the bounds are. */
  ghost predicate RetryFaithful(e: Estimate, retryFloor: int, retryMax: int) {
    && (retryFloor <= retryMax ==> retryFloor <= e.retryAfter <= retryMax)
    && (e.retryAfter < retryMax ==> e.wait <= e.retryAfter as real)
    && (retryFloor < e.retryAfter ==> (e.retryAfter - 1) as real < e.wait)
  }

  lemma VerdictAndDepth(e: Estimate, residuals: seq<real>)
    requires e.service > 0.0 && (e.enforced <==> e.horizon > 0.0)
    requires var admissible :=
               if e.enforced then AdmissibleAhead(Available(residuals, e.slots, e.busy, e.service), e.service, e.horizon) else -1;
             && e.maxDepth == MaxI(0, admissible)
             && e.admits == (!e.enforced || (e.slots > 0 && e.ahead <= admissible))
    requires e.rejects == (e.enforced && e.evidenced && !e.admits)
    ensures VerdictFaithful(e, residuals) && DepthFaithful(e, residuals)
  {
    forall a: nat | e.enforced
      ensures (e.slots > 0 && a <= AdmissibleAhead(Available(residuals, e.slots, e.busy, e.service), e.service, e.horizon))
         <==> InTime(PredictedStart(e, residuals, a), e.horizon)
    {
      AdmissionIsSimulation(residuals, e.slots, e.busy, e.service, a, e.horizon);
    }
    assert e.slots == 0 ==> Available(residuals, e.slots, e.busy, e.service) == [];
  }

  lemma WaitIsSimulated(e: Estimate, residuals: seq<real>, position: Wait)
    requires e.service > 0.0
    requires var available := Available(residuals, e.slots, e.busy, e.service);
             && (available == [] <==> position == Never)
             && (position.At? ==>
                  && GreedyStart(available, e.service, e.ahead) <= position.t
                  && Overshoot(GreedyStart(available, e.service, e.ahead), position.t, e.ahead, e.service))
    requires e.wait == if position.At? then position.t else e.horizon + e.service
    ensures WaitFaithful(e, residuals)
  {
    if e.slots > 0 {
      GreedyStartIsSimulated(residuals, e.slots, e.busy, e.service, e.ahead);
    } else {
      NoSlotsNeverStarts(Holders(residuals, e.busy, e.service), 0.0, e.service, e.ahead);
    }
  }

  method ComputeDrain(
    slots: int, busy: int, queued: int, ahead: Option<int>, serviceTime: real, residuals: seq<real>,
    evidenced: bool, maxWait: Budget, retryFloor: int, retryMax: int)
    returns (e: Estimate)
    ensures VerdictFaithful(e, residuals) && DepthFaithful(e, residuals)
    ensures WaitFaithful(e, residuals) && RetryFaithful(e, retryFloor, retryMax)
    ensures e.slots == MaxI(0, slots) && e.busy == MaxI(0, busy) && e.queued == MaxI(0, queued)
    ensures e.ahead == if ahead.None? then e.queued else MaxI(0, ahead.value)
    ensures e.service == MaxR(MIN_SERVICE_TIME_S, serviceTime) && e.evidenced == evidenced
    ensures e.horizon == Horizon(maxWait)
    ensures maxWait.Seconds? && maxWait.s > 0.0 ==> e.enforced && e.horizon == maxWait.s
    ensures !(maxWait.Seconds? && maxWait.s > 0.0) ==> !e.enforced && e.admits && !e.rejects
  {
    var slots' := MaxI(0, slots);
    var busy' := MaxI(0, busy);
    var queued' := MaxI(0, queued);
    var ahead' := if ahead.None? then queued' else MaxI(0, ahead.value);
    var service := MaxR(MIN_SERVICE_TIME_S, serviceTime);
    var horizon := Horizon(maxWait);
    var enforced := horizon > 0.0;
    var available := Available(residuals, slots', busy', service);

    var position := WaitForPosition(available, service, ahead');
    var admissible := if enforced then AdmissibleAhead(available, service, horizon) else -1;
    var admits := !enforced || (slots' > 0 && ahead' <= admissible);
    var rejects := enforced && evidenced && !admits;
    var maxDepth := MaxI(0, admissible);
    var wait := if position.At? then position.t else horizon + service;
    var retryAfter := MinI(retryMax, MaxI(retryFloor, Ceil(wait)));

    e := Estimate(slots', busy', queued', ahead', service, evidenced, horizon, enforced, wait, maxDepth,
                  admits, rejects, retryAfter);
    VerdictAndDepth(e, residuals);
    WaitIsSimulated(e, residuals, position);
  }
}
