/**
 Whole-run results about the limiter: slots come back exactly once, occupancy stays inside
 its bound, no dispatchable waiter is stranded, and no client is bypassed for long.
 */
module LimiterTheorems {
  import opened Common
  import opened Rotations
  import opened LimiterState
  import opened LimiterInvariants
  import Aimd

  // --------------------------------------------------------- slots come back once

  /** Waiters whose slot has come back. */
  ghost function Returned(w: map<Ticket, Waiter>): set<Ticket> {
    set t | t in w && w[t].fut.Granted? && w[t].caller == Gone
  }

  ghost function TicketsOf(granted: seq<Grant>): set<Ticket> {
    set i | 0 <= i < |granted| :: granted[i].ticket
  }

  lemma {:induction false} DistinctTickets(granted: seq<Grant>)
    requires forall i, j :: 0 <= i < j < |granted| ==> granted[i].ticket != granted[j].ticket
    ensures |TicketsOf(granted)| == |granted|
  {
    if granted != [] {
      var init := granted[..|granted| - 1];
      DistinctTickets(init);
      assert TicketsOf(granted) == TicketsOf(init) + {granted[|granted| - 1].ticket};
    }
  }

  /** The record and the waiters agree on who was dispatched. */
  lemma RecordedTickets(s: State)
    requires Recorded(s)
    ensures TicketsOf(s.granted) == Held(s.waiters) + Returned(s.waiters)
  {
    forall t ensures t in TicketsOf(s.granted) <==> t in Held(s.waiters) + Returned(s.waiters) {
      if t in Held(s.waiters) + Returned(s.waiters) {
        var i :| 0 <= i < |s.granted| && s.granted[i].ticket == t;
      }
    }
  }

  ghost function Leases(w: map<Ticket, Waiter>, ts: set<Ticket>): set<nat> {
    set t | t in ts && SlotOf(w, t).Some? :: SlotOf(w, t).value.lease
  }

  /** Waiters hold as many leases as they are. */
  lemma {:induction false} LeasesSize(w: map<Ticket, Waiter>, ts: set<Ticket>)
    requires forall t :: t in ts ==> SlotOf(w, t).Some?
    requires forall t, u :: t in ts && u in ts && t != u ==> SlotOf(w, t).value.lease != SlotOf(w, u).value.lease
    ensures |Leases(w, ts)| == |ts|
  {
    if t :| t in ts {
      LeasesSize(w, ts - {t});
      var l := SlotOf(w, t).value.lease;
      assert Leases(w, ts) == Leases(w, ts - {t}) + {l};
      assert l !in Leases(w, ts - {t});
    } else {
      assert Leases(w, ts) == {};
    }
  }

  lemma LeasesAreHolds(s: State)
    requires Leased(s)
    ensures Leases(s.waiters, Held(s.waiters)) == s.holds.Keys
    ensures Leases(s.waiters, HeldPriority(s.waiters)) == set l | l in s.holds && s.holds[l].lane
  {
    forall l | l in s.holds
      ensures l in Leases(s.waiters, Held(s.waiters))
      ensures s.holds[l].lane <==> l in Leases(s.waiters, HeldPriority(s.waiters))
    {
      var t :| Owns(s.waiters, t, l);
      assert Backed(s.holds, SlotOf(s.waiters, t));
      if l in Leases(s.waiters, HeldPriority(s.waiters)) {
        var u :| u in HeldPriority(s.waiters) && SlotOf(s.waiters, u).value.lease == l;
        assert u == t;
      }
    }
    forall l | l in Leases(s.waiters, Held(s.waiters)) ensures l in s.holds {
      var t :| t in Held(s.waiters) && SlotOf(s.waiters, t).value.lease == l;
      assert Backed(s.holds, SlotOf(s.waiters, t));
    }
    forall l | l in Leases(s.waiters, HeldPriority(s.waiters)) ensures l in s.holds && s.holds[l].lane {
      var t :| t in HeldPriority(s.waiters) && SlotOf(s.waiters, t).value.lease == l;
      assert t in Held(s.waiters) && Backed(s.holds, SlotOf(s.waiters, t));
    }
  }

  lemma CountersAreHolds(s: State)
    requires Books(s)
    ensures s.inflight == |s.holds|
    ensures s.prioInflight == |set l | l in s.holds && s.holds[l].lane|
  {
    LeasesAreHolds(s);
    forall t | t in Held(s.waiters) ensures SlotOf(s.waiters, t).Some? {}
    LeasesSize(s.waiters, Held(s.waiters));
    LeasesSize(s.waiters, HeldPriority(s.waiters));
  }

  /** Main result: over every run the counters are exactly the leases outstanding, in all and in the
      priority pool. */
  lemma InflightIsHolds(aimd: Aimd.Lane, reserve: nat, es: seq<Event>, s: State)
    requires Aimd.InRange(aimd) && s == Run(Init(aimd, reserve), es)
    ensures s.inflight == |s.holds|
    ensures s.prioInflight == |set l | l in s.holds && s.holds[l].lane|
  {
    ReachableInv(aimd, reserve, es);
    CountersAreHolds(s);
  }

  /** Conservation: every dispatch so far is either in flight or has come back. */
  lemma SlotConservation(s: State)
    requires Inv(s)
    ensures |s.granted| == s.inflight + |Returned(s.waiters)|
  {
    DistinctTickets(s.granted);
    RecordedTickets(s);
  }

  lemma CriticalReturned(s: State, e: Event, t: Ticket)
    requires t in Returned(s.waiters)
    ensures t in Returned(Critical(s, e).s.waiters)
  {
    match e
    case Cleanup(u, env) => if IsWaiter(s, u, Cancelling) { CleanupReturned(s, u, env, t); }
    case Release(u, env) =>
    case _ =>
  }

  lemma CleanupReturned(s: State, u: Ticket, env: Env, t: Ticket)
    requires t in Returned(s.waiters) && IsWaiter(s, u, Cancelling)
    ensures t in Returned(CleanupSection(s, u, env).s.waiters)
  {
  }

  /** A slot that came back stays back, whatever happens next: it is returned once. */
  lemma ReturnedForGood(s: State, e: Event, t: Ticket)
    requires Inv(s) && t in Returned(s.waiters)
    ensures t in Returned(Step(s, e).waiters)
  {
    CriticalInv(s, e);
    CriticalReturned(s, e, t);
    var section := Critical(s, e);
    if section.dispatch.Some? {
      DispatchOnlyGrants(section.s, section.dispatch.value, Step(s, e));
      DispatchKeepsReturned(section.s, Step(s, e), section.dispatch.value.clock);
    }
  }

  /** What a dispatch may do to a waiter: grant it a slot under a lease that did not exist before. */
  ghost predicate MayBeGranted(w: Waiter, w': Waiter, leases: nat) {
    && w'.client == w.client && w'.caller == w.caller
    && (w'.fut == w.fut || (w.fut.Pending? && w'.fut.Granted? && w'.fut.lease > leases))
  }

  /** From `s` to `s'` pending waiters were granted slots, and nothing else happened to anybody:
      whoever held a slot still holds it since the same moment, and nothing was sampled. */
  ghost predicate OnlyGrants(s: State, s': State, clock: real) {
    && s'.waiters.Keys == s.waiters.Keys && s.nextLease <= s'.nextLease
    && (forall t :: t in s.waiters ==> MayBeGranted(s.waiters[t], s'.waiters[t], s.nextLease))
    && (forall l :: l in s.holds ==> l in s'.holds && s'.holds[l] == s.holds[l])
    && (forall l :: l in s'.holds && l !in s.holds ==> l > s.nextLease && s'.holds[l].started == clock)
    && s'.samples == s.samples && s'.prioSamples == s.prioSamples && s'.projects == s.projects
    && s'.aimd == s.aimd && s'.reserve == s.reserve
  }

  lemma OnlyGrantsTrans(s: State, s1: State, s2: State, clock: real)
    requires OnlyGrants(s, s1, clock) && OnlyGrants(s1, s2, clock)
    ensures OnlyGrants(s, s2, clock)
  {
    forall t | t in s.waiters ensures MayBeGranted(s.waiters[t], s2.waiters[t], s.nextLease) {
      assert MayBeGranted(s.waiters[t], s1.waiters[t], s.nextLease);
      assert MayBeGranted(s1.waiters[t], s2.waiters[t], s1.nextLease);
    }
  }

  lemma LeasesSoFar(s: State)
    requires Leased(s)
    ensures forall l :: l in s.holds ==> l <= s.nextLease
  {
    forall l | l in s.holds ensures l <= s.nextLease {
      var t :| Owns(s.waiters, t, l);
    }
  }

  lemma GrantOnly(s: State, turn: Turn, lane: bool, clock: real)
    requires turn.ticket in s.waiters && s.waiters[turn.ticket].fut.Pending?
    requires s.waiters[turn.ticket].client == turn.client && s.nextLease + 1 !in s.holds
    ensures OnlyGrants(s, GrantSlot(s, turn, lane, clock), clock)
  {
    var s' := GrantSlot(s, turn, lane, clock);
    forall t | t in s.waiters ensures MayBeGranted(s.waiters[t], s'.waiters[t], s.nextLease) {}
  }

  /** One turn of a loop grants one pending waiter of its own client a new lease. */
  lemma TurnOnlyGrants(s: State, lane: bool, env: Env, p: Popped)
    requires Inv(s) && p == NextTurn(s, lane, env.share) && p.next.Some?
    ensures OnlyGrants(s, GrantSlot(WithLane(s, lane, p.rest), p.next.value, lane, env.clock), env.clock)
  {
    PreferredOk(s, env.share);
    PoppedLive(if lane then s.prio else PreferUnderShare(s, env.share), s.waiters);
    LeasesSoFar(s);
    GrantOnly(WithLane(s, lane, p.rest), p.next.value, lane, env.clock);
  }

  ghost function Loop(s: State, lane: bool, env: Env): State {
    if lane then DispatchPriority(s, env) else DispatchMain(s, env)
  }

  ghost predicate HasRoom(s: State, lane: bool) {
    if lane then s.prioInflight < s.reserve else Busy(s) < Cap(s)
  }

  ghost function Room(s: State, lane: bool): int {
    if lane then s.reserve - s.prioInflight else Cap(s) - Busy(s)
  }

  lemma {:induction false} LoopOnlyGrants(s: State, lane: bool, env: Env, s': State)
    requires Inv(s) && s' == Loop(s, lane, env)
    ensures OnlyGrants(s, s', env.clock)
    decreases Room(s, lane)
  {
    if HasRoom(s, lane) {
      var p := NextTurn(s, lane, env.share);
      TurnOk(s, lane, env, p);
      if p.next.Some? {
        var s1 := GrantSlot(WithLane(s, lane, p.rest), p.next.value, lane, env.clock);
        TurnOnlyGrants(s, lane, env, p);
        LoopOnlyGrants(s1, lane, env, s');
        OnlyGrantsTrans(s, s1, s', env.clock);
      }
    }
  }

  /** A dispatch grants slots to pending waiters and touches nobody else. */
  lemma DispatchOnlyGrants(s: State, env: Env, s': State)
    requires Inv(s) && s' == TryDispatch(s, env)
    ensures OnlyGrants(s, s', env.clock)
  {
    var s1 := if s.reserve == 0 && s.prio.order != [] then Migrate(s) else s;
    CloseLane(s);
    LaneClosed(s, s1, env.clock);
    LoopsOnlyGrant(s1, env, DispatchPriority(s1, env), s');
    OnlyGrantsTrans(s, s1, s', env.clock);
  }

  lemma LaneClosed(s: State, s1: State, clock: real)
    requires s1 == s || s1 == Migrate(s)
    ensures OnlyGrants(s, s1, clock)
  {}

  lemma LoopsOnlyGrant(s1: State, env: Env, s2: State, s3: State)
    requires Inv(s1) && s2 == DispatchPriority(s1, env) && s3 == DispatchMain(s2, env)
    ensures OnlyGrants(s1, s3, env.clock)
  {
    PriorityDone(s1, env, s2);
    LoopOnlyGrants(s1, true, env, s2);
    LoopOnlyGrants(s2, false, env, s3);
    OnlyGrantsTrans(s1, s2, s3, env.clock);
  }

  /** So the returned slots are the same ones afterwards. */
  lemma DispatchKeepsReturned(s: State, s': State, clock: real)
    requires OnlyGrants(s, s', clock) && WaitersOk(s)
    ensures Returned(s'.waiters) == Returned(s.waiters)
  {
    forall t | t in s.waiters ensures t in Returned(s'.waiters) <==> t in Returned(s.waiters) {
      assert MayBeGranted(s.waiters[t], s'.waiters[t], s.nextLease);
    }
  }

  // ------------------------------------------------------------------- occupancy

  ghost function Overshoot(s: State): int {
    MaxI(0, Busy(s) - Cap(s))
  }

  lemma CriticalBusy(s: State, e: Event)
    ensures Busy(Critical(s, e).s) <= Busy(s) + MaxI(0, s.reserve - Critical(s, e).s.reserve)
  {}

  lemma GrantsFillPool(s: State, s': State)
    requires DispatchedBy(s, s')
    ensures Busy(s') <= MaxI(Busy(s), Cap(s)) && Cap(s') == Cap(s) && s'.reserve == s.reserve
  {
  }

  /** What a step's dispatch, if it has one, did to its critical section's state. */
  lemma StepDispatched(s: State, e: Event)
    requires Inv(s)
    ensures Critical(s, e).dispatch.Some? ==> DispatchedBy(Critical(s, e).s, Step(s, e))
    ensures Critical(s, e).dispatch.None? ==> Step(s, e) == Critical(s, e).s
  {
    CriticalInv(s, e);
    if Critical(s, e).dispatch.Some? {
      TryDispatchOk(Critical(s, e).s, Critical(s, e).dispatch.value);
    }
  }

  lemma SectionBusy(s: State, section: Section, s': State)
    requires Busy(section.s) <= Busy(s) + MaxI(0, s.reserve - section.s.reserve)
    requires section.dispatch.Some? ==> DispatchedBy(section.s, s')
    requires section.dispatch.None? ==> s' == section.s
    ensures Busy(s') <= MaxI(Busy(s), Cap(s')) + MaxI(0, s.reserve - s'.reserve)
  {
    if section.dispatch.Some? {
      GrantsFillPool(section.s, s');
    }
  }

  /** One step, whatever it is, fills the main pool up to its ceiling and no further; only
      lowering the reserve can push occupancy over, and never by more than it was lowered. */
  lemma StepBusy(s: State, e: Event)
    requires Inv(s)
    ensures var s' := Step(s, e);
            Busy(s') <= MaxI(Busy(s), Cap(s')) + MaxI(0, s.reserve - s'.reserve)
  {
    CriticalBusy(s, e);
    StepDispatched(s, e);
    SectionBusy(s, Critical(s, e), Step(s, e));
  }

  /** The step lowered neither the ceiling nor the reserve. */
  ghost predicate NotLowered(s: State, e: Event) {
    Cap(Step(s, e)) >= Cap(s) && Step(s, e).reserve >= s.reserve
  }

  ghost predicate NeverLowered(s: State, es: seq<Event>) {
    es != [] ==> NeverLowered(s, es[..|es| - 1]) && NotLowered(Run(s, es[..|es| - 1]), es[|es| - 1])
  }

  lemma {:induction false} RunInv(s: State, es: seq<Event>)
    requires Inv(s)
    ensures Inv(Run(s, es))
  {
    if es != [] {
      RunInv(s, es[..|es| - 1]);
      StepInv(Run(s, es[..|es| - 1]), es[|es| - 1]);
    }
  }

  /** Main result: while neither knob is lowered the overshoot never grows; so a run that
      starts inside the bound keeps total concurrency within ceiling plus reserve. */
  lemma {:induction false} OccupancyBound(s: State, es: seq<Event>)
    requires Inv(s) && NeverLowered(s, es)
    ensures Overshoot(Run(s, es)) <= Overshoot(s)
    ensures Run(s, es).inflight <= Cap(Run(s, es)) + Run(s, es).reserve + Overshoot(s)
  {
    if es != [] {
      OccupancyBound(s, es[..|es| - 1]);
      RunInv(s, es[..|es| - 1]);
      StepBusy(Run(s, es[..|es| - 1]), es[|es| - 1]);
    }
  }

  ghost predicate Arrivals(es: seq<Event>) {
    forall i :: 0 <= i < |es| ==> es[i].Arrive?
  }

  lemma {:induction false} FreshTicket(used: set<Ticket>) returns (t: Ticket)
    ensures forall u :: u in used ==> u < t
  {
    if used == {} {
      t := 0;
    } else {
      var u :| u in used;
      var r := FreshTicket(used - {u});
      t := if r <= u then u + 1 else r;
      assert forall v :: v in used ==> v == u || v in used - {u};
    }
  }

  /** A priority arrival takes a free reserve slot even while the main pool is over its ceiling. */
  lemma ReserveParked(s: State, t: Ticket, p: State)
    requires Inv(s) && t !in s.waiters && s.reserve > 0 && p == Park(s, t, "", true, None)
    ensures Inv(p) && t in Live(p.prio, p.waiters) && p == s.(waiters := p.waiters, prio := p.prio)
  {
    ParkInv(s, t, "", true, None);
    EnqueueQueues(s.prio, "", t);
  }

  /** A full main pool and a live priority waiter: the reserve alone is used. */
  lemma ReserveGrant(p: State, t: Ticket, env: Env)
    requires Inv(p) && t in Live(p.prio, p.waiters) && p.prioInflight < p.reserve && Busy(p) >= Cap(p)
    ensures var s' := TryDispatch(p, env);
            && Inv(s') && s'.prioInflight > p.prioInflight && Busy(s') == Busy(p)
            && Cap(s') == Cap(p) && s'.reserve == p.reserve
  {
    TryDispatchOk(p, env);
  }

  lemma ReserveArrival(s: State, t: Ticket, env: Env)
    requires Inv(s) && t !in s.waiters && s.prioInflight < s.reserve && Busy(s) >= Cap(s)
    ensures var s' := Step(s, Arrive(t, "", true, None, env));
            && Inv(s') && s'.prioInflight > s.prioInflight && Busy(s') == Busy(s)
            && Cap(s') == Cap(s) && s'.reserve == s.reserve
  {
    var p := Park(s, t, "", true, None);
    ReserveParked(s, t, p);
    ReserveGrant(p, t, env);
  }

  lemma ReserveStep(s: State, env: Env) returns (e: Event, s': State)
    requires Inv(s) && s.prioInflight < s.reserve && Busy(s) >= Cap(s)
    ensures e.Arrive? && s' == Step(s, e) && Inv(s') && s'.prioInflight > s.prioInflight
    ensures Busy(s') == Busy(s) && Cap(s') == Cap(s) && s'.reserve == s.reserve
  {
    var t := FreshTicket(s.waiters.Keys);
    assert t !in s.waiters;
    e := Arrive(t, "", true, None, env);
    s' := Step(s, e);
    ReserveArrival(s, t, env);
  }

  /** The reserve is used up, and nothing else has changed. */
  predicate ReserveFilled(s: State, s': State) {
    s'.prioInflight >= s'.reserve && s'.reserve == s.reserve && Busy(s') == Busy(s) && Cap(s') == Cap(s)
  }

  lemma ReserveRun(s: State, es: seq<Event>, s': State, env: Env) returns (es': seq<Event>, next: State)
    requires Arrivals(es) && s' == Run(s, es) && Inv(s') && s'.prioInflight < s'.reserve && Busy(s') >= Cap(s')
    ensures Arrivals(es') && next == Run(s, es') && Inv(next) && next.prioInflight > s'.prioInflight
    ensures Busy(next) == Busy(s') && Cap(next) == Cap(s') && next.reserve == s'.reserve
  {
    var e;
    e, next := ReserveStep(s', env);
    es' := es + [e];
    RunSnoc(s, es, e);
  }

  /** Arrivals alone can fill the whole reserve. */
  lemma FillReserve(s: State, env: Env) returns (es: seq<Event>)
    requires Inv(s) && Busy(s) >= Cap(s)
    ensures Arrivals(es) && ReserveFilled(s, Run(s, es))
  {
    es := [];
    var s' := s;
    while s'.prioInflight < s'.reserve
      invariant Arrivals(es) && s' == Run(s, es) && Inv(s')
      invariant Busy(s') == Busy(s) && Cap(s') == Cap(s) && s'.reserve == s.reserve
      decreases s'.reserve - s'.prioInflight
    {
      es, s' := ReserveRun(s, es, s', env);
    }
  }

  lemma {:induction false} RunCons(s: State, e: Event, es: seq<Event>)
    ensures Run(s, [e] + es) == Run(Step(s, e), es)
  {
    var all := [e] + es;
    var n := |es|;
    assert all[|all| - 1] == if es == [] then e else es[n - 1];
    if es == [] {
      assert all[..0] == [];
      assert Run(s, all[..0]) == s;
    } else {
      assert all[..n] == [e] + es[..n - 1];
      RunCons(s, e, es[..n - 1]);
    }
  }

  lemma {:induction false} ArrivalsLowerNothing(s: State, es: seq<Event>)
    requires Inv(s) && Arrivals(es)
    ensures NeverLowered(s, es) && Cap(Run(s, es)) == Cap(s) && Run(s, es).reserve == s.reserve
  {
    if es != [] {
      ArrivalsLowerNothing(s, es[..|es| - 1]);
      RunInv(s, es[..|es| - 1]);
      var s1 := Run(s, es[..|es| - 1]);
      assert es[|es| - 1].Arrive?;
      var Arrive(t, c, wants, project, env) := es[|es| - 1];
      if t !in s1.waiters {
        ParkInv(s1, t, c, wants, project);
        TryDispatchOk(Park(s1, t, c, wants, project), env);
      }
    }
  }

  /** "Concurrency is bounded by ceiling plus reserve in every regime" is false: it holds
      under all further arrivals if and only if the main pool is not over its ceiling.
      After a shrink below the occupancy, priority arrivals still fill the reserve. */
  lemma ReserveBoundIff(s: State, env: Env)
    requires Inv(s)
    ensures (forall es :: Arrivals(es) ==> Run(s, es).inflight <= Cap(s) + s.reserve)
       <==> Busy(s) <= Cap(s)
  {
    if Busy(s) <= Cap(s) {
      forall es | Arrivals(es) ensures Run(s, es).inflight <= Cap(s) + s.reserve {
        ArrivalsLowerNothing(s, es);
        OccupancyBound(s, es);
      }
    } else {
      var es := FillReserve(s, env);
      assert Run(s, es).inflight == Busy(s) + s.reserve;
    }
  }

  lemma RunSnoc(s: State, es: seq<Event>, e: Event)
    ensures Run(s, es + [e]) == Step(Run(s, es), e)
  {
    assert (es + [e])[..|es|] == es;
  }

  /** An ordinary arrival that finds room is served at once, and takes nothing from the reserve. */
  lemma OrdinaryArrival(s: State, t: Ticket, env: Env)
    requires Inv(s) && WorkConserving(s) && t !in s.waiters && Busy(s) < Cap(s) && s.prioInflight < s.reserve
    ensures var s' := Step(s, Arrive(t, "", false, None, env));
            && Inv(s') && WorkConserving(s') && s'.aimd == s.aimd && s'.reserve == s.reserve
            && s'.prioInflight == s.prioInflight && Busy(s') == Busy(s) + 1
  {
    var p := Park(s, t, "", false, None);
    ParkInv(s, t, "", false, None);
    TryDispatchOk(p, env);
    ParkedAlone(s, t, p);
  }

  lemma ParkedAlone(s: State, t: Ticket, p: State)
    requires Inv(s) && t !in s.waiters && p == Park(s, t, "", false, None) && s.reserve > 0
    requires Live(s.main, s.waiters) == {} && Live(s.prio, s.waiters) == {}
    ensures Live(p.prio, p.waiters) == {} && MainDemand(p) == 1 && PriorityGrants(p) == 0
  {
    EnqueueQueues(s.main, "", t);
    NotParked(s.prio, s.waiters, t);
    assert Live(p.main, p.waiters) == {t};
    assert Live(p.prio, p.waiters) == {};
  }

  /** A pushback on a full pool, and a priority arrival after it. */
  lemma OneTooMany(s: State, env: Env) returns (e: Event)
    requires Inv(s) && Cap(s) > Aimd.Floor(s.aimd.c, s.aimd.k)
    requires Busy(s) == Cap(s) && s.prioInflight + 1 == s.reserve
    ensures e.Arrive?
    ensures var s' := Step(Step(s, Shrink(0.0)), e);
            s'.inflight == Cap(s) + s.reserve && Cap(s') < Cap(s) && s'.reserve == s.reserve
  {
    var s1 := Step(s, Shrink(0.0));
    StepInv(s, Shrink(0.0));
    Lowered(s);
    var t := FreshTicket(s1.waiters.Keys);
    assert t !in s1.waiters;
    ReserveArrival(s1, t, env);
    e := Arrive(t, "", true, None, env);
  }

  lemma PoolOfTwo() returns (aimd: Aimd.Lane, s: State)
    ensures Aimd.InRange(aimd)
    ensures s == Init(aimd, 1)
    ensures && Inv(s) && WorkConserving(s) && Cap(s) > Aimd.Floor(s.aimd.c, s.aimd.k)
            && Busy(s) + 2 == Cap(s) && s.prioInflight + 1 == s.reserve && Cap(s) == 2 && s.reserve == 1
  {
    var k := Aimd.Knobs(1, 0.5, 30.0, 10, 5, 3);
    aimd := Aimd.Lane(Aimd.Initial(2, k, 2), k);
    s := Init(aimd, 1);
    ReachableInv(aimd, 1, []);
    assert Run(s, []) == s;
    InitConserves(aimd, 1);
  }

  predicate ArrivalsAndShrinks(es: seq<Event>) {
    forall i :: 0 <= i < |es| ==> es[i].Arrive? || es[i].Shrink?
  }

  lemma FillRun(s0: State, es: seq<Event>, s: State, env: Env) returns (es': seq<Event>, s': State)
    requires s == Run(s0, es) && ArrivalsAndShrinks(es)
    requires Inv(s) && WorkConserving(s) && Busy(s) < Cap(s) && s.prioInflight < s.reserve
    ensures s' == Run(s0, es') && ArrivalsAndShrinks(es') && Inv(s') && WorkConserving(s')
    ensures s'.aimd == s.aimd && s'.reserve == s.reserve && s'.prioInflight == s.prioInflight && Busy(s') == Busy(s) + 1
  {
    var t := FreshTicket(s.waiters.Keys);
    assert t !in s.waiters;
    var e := Arrive(t, "", false, None, env);
    OrdinaryArrival(s, t, env);
    es' := es + [e];
    s' := Run(s0, es');
    RunSnoc(s0, es, e);
  }

  lemma OverfullRun(s0: State, es: seq<Event>, s: State, env: Env) returns (es': seq<Event>)
    requires s == Run(s0, es) && ArrivalsAndShrinks(es)
    requires Inv(s) && Cap(s) > Aimd.Floor(s.aimd.c, s.aimd.k)
    requires Busy(s) == Cap(s) && s.prioInflight + 1 == s.reserve
    ensures ArrivalsAndShrinks(es')
    ensures var s' := Run(s0, es'); s'.inflight == Cap(s) + s.reserve && Cap(s') < Cap(s) && s'.reserve == s.reserve
  {
    var e := OneTooMany(s, env);
    es' := es + [Shrink(0.0)] + [e];
    RunSnoc(s0, es, Shrink(0.0));
    RunSnoc(s0, es + [Shrink(0.0)], e);
  }

  lemma FillTwo(s: State, env: Env) returns (es: seq<Event>, s': State)
    requires Inv(s) && WorkConserving(s) && Busy(s) + 1 < Cap(s) && s.prioInflight < s.reserve
    ensures s' == Run(s, es) && ArrivalsAndShrinks(es) && Inv(s')
    ensures s'.aimd == s.aimd && s'.reserve == s.reserve && s'.prioInflight == s.prioInflight && Busy(s') == Busy(s) + 2
  {
    var es1, s1 := FillRun(s, [], s, env);
    es, s' := FillRun(s, es1, s1, env);
  }

  lemma FillAndShrink(s: State, env: Env) returns (es: seq<Event>)
    requires Inv(s) && WorkConserving(s) && Cap(s) > Aimd.Floor(s.aimd.c, s.aimd.k)
    requires Busy(s) + 2 == Cap(s) && s.prioInflight + 1 == s.reserve
    ensures ArrivalsAndShrinks(es)
    ensures var s' := Run(s, es); s'.inflight == Cap(s) + s.reserve && Cap(s') < Cap(s) && s'.reserve == s.reserve
  {
    var es2, s2 := FillTwo(s, env);
    es := OverfullRun(s, es2, s2, env);
  }

  /** Such a state is reachable with untouched knobs: two ordinary requests fill a pool of two, a
      pushback lowers it, and a priority arrival makes three in flight under a bound of two. */
  lemma ReserveBoundCanFail(env: Env) returns (aimd: Aimd.Lane, es: seq<Event>)
    ensures Aimd.InRange(aimd)
    ensures ArrivalsAndShrinks(es)
    ensures var s := Run(Init(aimd, 1), es); s.inflight == 3 && Cap(s) < 2 && s.reserve == 1
  {
    var s;
    aimd, s := PoolOfTwo();
    es := FillAndShrink(s, env);
  }

  lemma Lowered(s: State)
    requires Cap(s) > Aimd.Floor(s.aimd.c, s.aimd.k)
    ensures var s' := Step(s, Shrink(0.0));
            && Cap(s') < Cap(s) && Busy(s') == Busy(s) && s'.prioInflight == s.prioInflight && s'.reserve == s.reserve
  {
    Aimd.ShrinkDirection(s.aimd.c, s.aimd.k, 0.0);
  }

  // ------------------------------------------------------------ work conservation

  lemma SameLiveConserves(s: State, s': State)
    requires WorkConserving(s)
    requires s'.reserve == s.reserve && Cap(s') == Cap(s) && Busy(s') == Busy(s) && s'.prioInflight == s.prioInflight
    requires Live(s'.main, s'.waiters) <= Live(s.main, s.waiters)
    requires Live(s'.prio, s'.waiters) <= Live(s.prio, s.waiters)
    requires s.prio.order == [] ==> s'.prio.order == []
    ensures WorkConserving(s')
  {}

  lemma CleanupConserves(s: State, t: Ticket, env: Env)
    requires Inv(s) && WorkConserving(s) && IsWaiter(s, t, Cancelling)
    requires CleanupSection(s, t, env).dispatch.None?
    ensures WorkConserving(CleanupSection(s, t, env).s)
  {
    var s' := CleanupSection(s, t, env).s;
    RemovePendingOk(s, t);
    forall u | u in Live(s'.main, s'.waiters) ensures u in Live(s.main, s.waiters) {}
    forall u | u in Live(s'.prio, s'.waiters) ensures u in Live(s.prio, s.waiters) {}
    SameLiveConserves(s, s');
  }

  lemma CallerConserves(s: State, s': State, t: Ticket)
    requires WorkConserving(s) && t in s.waiters && s' == s.(waiters := s'.waiters)
    requires t in s'.waiters && s'.waiters == s.waiters[t := s'.waiters[t]] && s'.waiters[t].client == s.waiters[t].client
    requires s'.waiters[t].fut.Pending? ==> s.waiters[t].fut.Pending?
    ensures WorkConserving(s')
  {
    assert Live(s'.main, s'.waiters) <= Live(s.main, s.waiters);
    assert Live(s'.prio, s'.waiters) <= Live(s.prio, s.waiters);
    SameLiveConserves(s, s');
  }

  lemma DispatchConserves(s: State, env: Env, s': State)
    requires Inv(s) && s' == TryDispatch(s, env)
    ensures WorkConserving(s')
  {
    TryDispatchOk(s, env);
  }

  lemma CallerSectionConserves(s: State, e: Event, t: Ticket, s': State)
    requires Inv(s) && WorkConserving(s) && (e == Wake(t) || e == Cancel(t)) && s' == Critical(s, e).s
    ensures WorkConserving(s')
  {
    if s' != s {
      CallerConserves(s, s', t);
    }
  }

  lemma KnobConserves(s: State, e: Event, s': State)
    requires WorkConserving(s) && (e.Shrink? || e.Success? || e.RetryAfter? || e.RetuneMax? || e.Tune? || e.Kick?)
    requires Critical(s, e).dispatch.None? && s' == Critical(s, e).s
    requires e.Shrink? ==> Cap(s) >= Aimd.Floor(s.aimd.c, s.aimd.k)
    ensures WorkConserving(s')
  {
    if e.Shrink? {
      Aimd.ShrinkDirection(s.aimd.c, s.aimd.k, e.now);
    }
  }

  /** A section that does not dispatch strands nobody either. */
  lemma SectionConserves(s: State, e: Event, s': State)
    requires Inv(s) && WorkConserving(s) && !e.SetReserve? && Critical(s, e).dispatch.None? && s' == Critical(s, e).s
    requires e.Shrink? ==> Cap(s) >= Aimd.Floor(s.aimd.c, s.aimd.k)
    ensures WorkConserving(s')
  {
    match e
    case Wake(t) => CallerSectionConserves(s, e, t, s');
    case Cancel(t) => CallerSectionConserves(s, e, t, s');
    case Cleanup(t, env) =>
      if IsWaiter(s, t, Cancelling) {
        CleanupConserves(s, t, env);
      }
    case Arrive(_, _, _, _, _) =>
    case Release(_, _) =>
    case _ => KnobConserves(s, e, s');
  }

  /** Every step leaves nobody stranded, except changing the reserve and a pushback that finds the
      ceiling below its floor; a kick does so whoever was stranded before it. */
  lemma StepConserves(s: State, e: Event)
    requires Inv(s) && (WorkConserving(s) || e.Kick?)
    requires !e.SetReserve?
    requires e.Shrink? ==> Cap(s) >= Aimd.Floor(s.aimd.c, s.aimd.k)
    ensures WorkConserving(Step(s, e))
  {
    var section := Critical(s, e);
    if section.dispatch.Some? {
      CriticalInv(s, e);
      DispatchConserves(section.s, section.dispatch.value, Step(s, e));
    } else {
      SectionConserves(s, e, section.s);
    }
  }

  /** Exactly when a pushback strands a waiter: the ceiling was below its floor, so the
      pushback raised it over the occupancy, and somebody live was parked. */
  lemma ShrinkStrandsIff(s: State, now: real)
    requires Inv(s) && WorkConserving(s)
    ensures !WorkConserving(Step(s, Shrink(now)))
       <==> Cap(s) < Aimd.Floor(s.aimd.c, s.aimd.k) && Busy(s) < Aimd.Floor(s.aimd.c, s.aimd.k)
            && Live(s.main, s.waiters) != {}
  {
    Aimd.ShrinkDirection(s.aimd.c, s.aimd.k, now);
  }

  /** A reserve change is still waiting for its kick. */
  ghost predicate KickDue(es: seq<Event>) {
    es != [] && (es[|es| - 1].SetReserve? || (!es[|es| - 1].Kick? && KickDue(es[..|es| - 1])))
  }

  /** Every pushback of the run found the ceiling at or above its floor. */
  ghost predicate ShrinksAboveFloor(s: State, es: seq<Event>) {
    es != [] ==>
      && ShrinksAboveFloor(s, es[..|es| - 1])
      && (es[|es| - 1].Shrink? ==>
           var l := Run(s, es[..|es| - 1]).aimd;
           l.c.cap >= Aimd.Floor(l.c, l.k))
  }

  lemma InitConserves(aimd: Aimd.Lane, reserve: nat)
    ensures WorkConserving(Init(aimd, reserve))
  {
    assert Live(EMPTY, map[]) == {};
  }

  /** Main result: over every run, once the kick of a reserve change has run, no
      dispatchable waiter is parked while its pool has room. */
  lemma {:induction false} NobodyStranded(aimd: Aimd.Lane, reserve: nat, es: seq<Event>)
    requires ShrinksAboveFloor(Init(aimd, reserve), es) && !KickDue(es)
    ensures WorkConserving(Run(Init(aimd, reserve), es))
  {
    if es == [] {
      InitConserves(aimd, reserve);
    } else {
      var init, e := es[..|es| - 1], es[|es| - 1];
      var s := Run(Init(aimd, reserve), init);
      ReachableInv(aimd, reserve, init);
      if !e.Kick? {
        NobodyStranded(aimd, reserve, init);
      }
      StepConserves(s, e);
    }
  }

  lemma LoneWaiter(c: Client, t: Ticket)
    ensures NextWaiter(Rotation([c], map[c := [t]]), {}) == Popped(Some(Turn(c, t)), EMPTY)
  {
    var r := Rotation([c], map[c := [t]]);
    assert r.order[1..] == [] && r.queues - {c} == map[];
    assert PopHead(r) == Popped(Some(Turn(c, t)), EMPTY);
  }

  /** An idle lane of width one, its reserve closed. */
  ghost predicate IdleWidthOne(s: State) {
    && s.waiters == map[] && s.main == EMPTY && s.prio == EMPTY && s.reserve == 0
    && s.inflight == s.prioInflight == 0 && Cap(s) == 1
  }

  lemma FirstParked(s: State, p: State)
    requires IdleWidthOne(s) && p == Park(s, 0, "a", false, None)
    ensures p == s.(waiters := map[0 := Waiter("a", Pending, Waiting)], main := Rotation(["a"], map["a" := [0]]))
  {
    assert Queue(EMPTY, "a") + [0] == [0];
    assert p.main.order == ["a"] && p.main.queues == map["a" := [0]];
  }

  lemma FirstGrant(p: State, env: Env)
    requires p.waiters == map[0 := Waiter("a", Pending, Waiting)] && p.main == Rotation(["a"], map["a" := [0]])
    requires p.prio == EMPTY && p.reserve == 0 && p.inflight == p.prioInflight == 0 && Cap(p) == 1 && !env.share.ordering
    ensures TryDispatch(p, env) == GrantSlot(WithLane(p, false, EMPTY), Turn("a", 0), false, env.clock)
  {
    assert Dead(p.waiters) == {};
    LoneWaiter("a", 0);
    var g := GrantSlot(WithLane(p, false, EMPTY), Turn("a", 0), false, env.clock);
    assert DispatchPriority(p, env) == p;
    assert DispatchMain(g, env) == g;
    assert DispatchMain(p, env) == DispatchMain(g, env);
  }

  lemma FirstArrival(s: State, env: Env)
    requires IdleWidthOne(s) && !env.share.ordering
    ensures var s' := Step(s, Arrive(0, "a", false, None, env));
            && s'.waiters.Keys == {0} && s'.prio == EMPTY && s'.reserve == 0 && s'.aimd == s.aimd
            && Busy(s') == 1 && s'.prioInflight == 0
  {
    var p := Park(s, 0, "a", false, None);
    FirstParked(s, p);
    FirstGrant(p, env);
  }

  lemma SecondArrivalStranded(s: State, env: Env)
    requires s.waiters.Keys == {0} && s.prio == EMPTY && s.reserve == 0 && s.prioInflight == 0 && Busy(s) == 1
    requires Cap(s) == 1 && Aimd.Floor(s.aimd.c, s.aimd.k) == 2
    ensures !WorkConserving(Step(Step(s, Arrive(1, "a", false, None, env)), Shrink(0.0)))
  {
    var p := Park(s, 1, "a", false, None);
    assert TryDispatch(p, env) == p;
    EnqueueQueues(s.main, "a", 1);
    assert 1 in Live(p.main, p.waiters);
    Aimd.ShrinkDirection(p.aimd.c, p.aimd.k, 0.0);
  }

  /** A retune of an idle lane changes its ceiling and nothing else. */
  lemma IdleRetune(s: State, hardMax: int, env: Env)
    requires s.main == EMPTY && s.prio == EMPTY && s.prioInflight == 0 && s.reserve == 0 && !env.share.ordering
    ensures Step(s, RetuneMax(hardMax, None, env)) == s.(aimd := s.aimd.(c := Aimd.Retune(s.aimd.c, s.aimd.k, hardMax, None)))
  {
    var s1 := s.(aimd := s.aimd.(c := Aimd.Retune(s.aimd.c, s.aimd.k, hardMax, None)));
    assert DispatchPriority(s1, env) == s1;
    assert DispatchMain(s1, env) == s1;
  }

  /** Lowering the hard ceiling to one and restoring it leaves the cap at one, below the floor. */
  lemma Retuned(aimd: Aimd.Lane, env: Env) returns (s: State)
    requires !env.share.ordering
    requires var k := Aimd.Knobs(2, 0.5, 30.0, 10, 5, 3); aimd == Aimd.Lane(Aimd.Initial(2, k, 2), k)
    ensures s == Step(Step(Init(aimd, 0), RetuneMax(1, None, env)), RetuneMax(2, None, env))
    ensures IdleWidthOne(s) && Aimd.Floor(s.aimd.c, s.aimd.k) == 2
  {
    var s0 := Init(aimd, 0);
    IdleRetune(s0, 1, env);
    var s1 := Step(s0, RetuneMax(1, None, env));
    IdleRetune(s1, 2, env);
    s := Step(s1, RetuneMax(2, None, env));
  }

  lemma TwoArrivals(s: State, env: Env)
    requires !env.share.ordering && IdleWidthOne(s) && Aimd.Floor(s.aimd.c, s.aimd.k) == 2
    ensures var s1 := Step(s, Arrive(0, "a", false, None, env));
            !WorkConserving(Step(Step(s1, Arrive(1, "a", false, None, env)), Shrink(0.0)))
  {
    FirstArrival(s, env);
    SecondArrivalStranded(Step(s, Arrive(0, "a", false, None, env)), env);
  }

  /** Such a pushback is reachable: the hard ceiling is lowered below the minimum and
      restored, one request runs, one waits, and the pushback opens a slot nobody hands out. */
  lemma ShrinkCanStrand(env: Env) returns (aimd: Aimd.Lane, es: seq<Event>)
    requires !env.share.ordering
    ensures Aimd.InRange(aimd) && Aimd.Floor(aimd.c, aimd.k) <= aimd.c.cap
    ensures forall i :: 0 <= i < |es| ==> !es[i].SetReserve?
    ensures !WorkConserving(Run(Init(aimd, 0), es))
  {
    var k := Aimd.Knobs(2, 0.5, 30.0, 10, 5, 3);
    aimd := Aimd.Lane(Aimd.Initial(2, k, 2), k);
    var e1, e2 := RetuneMax(1, None, env), RetuneMax(2, None, env);
    var e3, e4, e5 := Arrive(0, "a", false, None, env), Arrive(1, "a", false, None, env), Shrink(0.0);
    es := [e1] + ([e2] + ([e3] + ([e4] + ([e5] + []))));
    var s2 := Retuned(aimd, env);
    TwoArrivals(s2, env);
    FiveSteps(Init(aimd, 0), e1, e2, e3, e4, e5);
  }

  lemma FiveSteps(s: State, e1: Event, e2: Event, e3: Event, e4: Event, e5: Event)
    ensures Run(s, [e1] + ([e2] + ([e3] + ([e4] + ([e5] + []))))) == Step(Step(Step(Step(Step(s, e1), e2), e3), e4), e5)
  {
    var s1 := Step(s, e1);
    var s2 := Step(s1, e2);
    var s3 := Step(s2, e3);
    RunCons(s, e1, [e2] + ([e3] + ([e4] + ([e5] + []))));
    RunCons(s1, e2, [e3] + ([e4] + ([e5] + [])));
    RunCons(s2, e3, [e4] + ([e5] + []));
    RunCons(s3, e4, [e5] + []);
    RunCons(Step(s3, e4), e5, []);
  }
}
