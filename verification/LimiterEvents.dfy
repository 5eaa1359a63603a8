/**
 What each event of the limiter achieves, in terms of the state it finds: which request is
 parked, which slot comes back, what is sampled, and how many of those waiting go next.
 */
module LimiterEvents {
  import opened Common
  import opened Rotations
  import opened LimiterState
  import opened LimiterInvariants
  import opened LimiterTheorems
  import Aimd

  // ------------------------------------------------------------ a slot comes back

  /** The slot of `t`, held under `lease`, is back, and no other slot is. */
  ghost predicate CameBack(s: State, s': State, t: Ticket, lease: nat) {
    && t !in Returned(s.waiters) && Returned(s'.waiters) == Returned(s.waiters) + {t}
    && lease in s.holds && lease !in s'.holds
    && forall l :: l in s.holds && l != lease ==> l in s'.holds && s'.holds[l] == s.holds[l]
  }

  /** Once a slot of the pool `lane` was free again, as many waiters were granted slots as were
      waiting and as fitted.  A slot of the reserve that a lowered reserve no longer covers was
      counted, and is freed, in the main pool. */
  ghost predicate HandedOn(s: State, s': State, lane: bool) {
    var forPriority := MaxI(0, s.reserve - s.prioInflight + (if lane then 1 else 0));
    var forMain := MaxI(0, Cap(s) - Busy(s) + (if lane && s.prioInflight <= s.reserve then 0 else 1));
    var prio, main := MinI(|Live(s.prio, s.waiters)|, forPriority), MinI(MainDemand(s), forMain);
    && s.granted <= s'.granted && |s'.granted| == |s.granted| + main + prio
    && s'.inflight == s.inflight - 1 + main + prio
    && s'.prioInflight == s.prioInflight - (if lane then 1 else 0) + prio
    && s'.reserve == s.reserve && s'.aimd == s.aimd
  }

  /** The window of samples once `took` joined it: the last 64 durations, the new one last. */
  ghost predicate Joined(before: seq<real>, after: seq<real>, took: real) {
    && |after| == MinI(64, |before| + 1)
    && after[|after| - 1] == took
    && after[..|after| - 1] == before[|before| - (|after| - 1)..]
  }

  /** How long a slot of the pool `lane` was held joined that lane's samples. */
  ghost predicate TimeSampled(s: State, s': State, lane: bool, took: real) {
    if lane then Joined(s.prioSamples, s'.prioSamples, took) && s'.samples == s.samples
    else Joined(s.samples, s'.samples, took) && s'.prioSamples == s.prioSamples
  }

  /** How long the slot under `lease` has been held. */
  ghost function HeldFor(s: State, lease: nat, clock: real): real
    requires lease in s.holds
  {
    MaxR(0.0, clock - s.holds[lease].started)
  }

  lemma SampledJoined(before: seq<real>, took: real)
    ensures Joined(before, Sampled(before, took), took)
  {}

  /** The state just after the slot of `t` was given back, before anybody else was dispatched. */
  ghost predicate GivenBack(s: State, s': State, t: Ticket) {
    && t in Held(s.waiters) && s'.waiters == s.waiters[t := s.waiters[t].(caller := Gone)]
    && s'.inflight == s.inflight - 1
    && s'.prioInflight == s.prioInflight - (if s.waiters[t].fut.lane then 1 else 0)
    && s'.holds == s.holds - {s.waiters[t].fut.lease}
    && s'.nextLease == s.nextLease && s'.granted == s.granted && s'.reserve == s.reserve && s'.aimd == s.aimd
    && (forall c, u :: u != t ==> (u in Queue(s'.main, c) <==> u in Queue(s.main, c))
                                  && (u in Queue(s'.prio, c) <==> u in Queue(s.prio, c)))
  }

  lemma GivenBackLive(s: State, s': State, t: Ticket)
    requires GivenBack(s, s', t)
    ensures Live(s'.main, s'.waiters) == Live(s.main, s.waiters)
    ensures Live(s'.prio, s'.waiters) == Live(s.prio, s.waiters)
  {}

  lemma GivenBackReturned(s: State, s': State, t: Ticket)
    requires Leased(s) && GivenBack(s, s', t)
    ensures CameBack(s, s', t, s.waiters[t].fut.lease) && s.waiters[t].fut.lease <= s.nextLease
  {
    assert Backed(s.holds, SlotOf(s.waiters, t));
    assert SlotOf(s.waiters, t).value.lease <= s.nextLease;
    forall u ensures u in Returned(s'.waiters) <==> u in Returned(s.waiters) || u == t {}
  }

  lemma CameBackThenGrants(s: State, s1: State, s': State, t: Ticket, lease: nat, clock: real)
    requires CameBack(s, s1, t, lease) && OnlyGrants(s1, s', clock) && WaitersOk(s1) && lease <= s1.nextLease
    ensures CameBack(s, s', t, lease)
  {
    DispatchKeepsReturned(s1, s', clock);
  }

  lemma GivenBackHandedOn(s: State, s1: State, s': State, t: Ticket)
    requires GivenBack(s, s1, t) && DispatchedBy(s1, s')
    requires Live(s1.main, s1.waiters) == Live(s.main, s.waiters) && Live(s1.prio, s1.waiters) == Live(s.prio, s.waiters)
    ensures HandedOn(s, s', s.waiters[t].fut.lane)
  {
    assert s'.granted[..|s.granted|] == s.granted;
  }

  /** A slot given back is back for good measure once the next in line were dispatched. */
  lemma GivenBackDispatched(s: State, s1: State, t: Ticket, env: Env, s': State)
    requires Leased(s) && GivenBack(s, s1, t) && Inv(s1) && s' == TryDispatch(s1, env)
    ensures CameBack(s, s', t, s.waiters[t].fut.lease) && HandedOn(s, s', s.waiters[t].fut.lane)
    ensures OnlyGrants(s1, s', env.clock)
  {
    GivenBackLive(s, s1, t);
    GivenBackReturned(s, s1, t);
    TryDispatchOk(s1, env);
    GivenBackHandedOn(s, s1, s', t);
    DispatchOnlyGrants(s1, env, s');
    CameBackThenGrants(s, s1, s', t, s.waiters[t].fut.lease, env.clock);
  }

  lemma GiveBackGives(s: State, t: Ticket, sample: bool, clock: real, s1: State)
    requires Leased(s) && t in Held(s.waiters) && s1 == GiveBack(s, t, sample, clock)
    ensures var lease := s.waiters[t].fut.lease;
            && lease in s.holds
            && GivenBack(s, s1, t) && s1.main == s.main && s1.prio == s.prio
            && (!sample ==> s1.samples == s.samples && s1.prioSamples == s.prioSamples)
            && (sample ==> TimeSampled(s, s1, s.waiters[t].fut.lane, HeldFor(s, lease, clock)))
  {
    assert Backed(s.holds, SlotOf(s.waiters, t));
    var took := HeldFor(s, s.waiters[t].fut.lease, clock);
    SampledJoined(s.samples, took);
    SampledJoined(s.prioSamples, took);
  }

  lemma ReleaseSection(s: State, t: Ticket, env: Env, s1: State)
    requires WaitersOk(s) && IsWaiter(s, t, Holding)
    ensures s.waiters[t].fut.Granted? && t in Held(s.waiters)
    ensures s1 == GiveBack(s, t, true, env.clock) ==> Step(s, Release(t, env)) == TryDispatch(s1, env)
  {}

  /** The slot `fut` is back, sampled and handed on. */
  ghost predicate Released(s: State, s': State, t: Ticket, fut: Fut, clock: real) {
    && fut.Granted? && CameBack(s, s', t, fut.lease) && HandedOn(s, s', fut.lane)
    && TimeSampled(s, s', fut.lane, HeldFor(s, fut.lease, clock))
  }

  /** Main result: a release brings back the slot its caller held, adds how long it was held to the
      samples of the lane it was granted from, and hands the place on at once: whoever waits is
      granted a slot as far as the pools have room. */
  lemma ReleaseReturns(s: State, t: Ticket, env: Env, s': State)
    requires Inv(s) && IsWaiter(s, t, Holding) && s' == Step(s, Release(t, env))
    ensures Released(s, s', t, s.waiters[t].fut, env.clock)
  {
    ReleaseSection(s, t, env, s);
    var s1 := GiveBack(s, t, true, env.clock);
    ReleaseSection(s, t, env, s1);
    GiveBackInv(s, t, true, env.clock);
    ReleasedDispatched(s, t, env, s1, s');
  }

  lemma ReleasedDispatched(s: State, t: Ticket, env: Env, s1: State, s': State)
    requires Leased(s) && t in Held(s.waiters) && s1 == GiveBack(s, t, true, env.clock)
    requires Inv(s1) && s' == TryDispatch(s1, env)
    ensures var fut := s.waiters[t].fut;
            && CameBack(s, s', t, fut.lease) && HandedOn(s, s', fut.lane)
            && TimeSampled(s, s', fut.lane, HeldFor(s, fut.lease, env.clock))
  {
    GiveBackGives(s, t, true, env.clock, s1);
    GivenBackDispatched(s, s1, t, env, s');
  }

  lemma GrantedCleanup(s: State, t: Ticket, env: Env, s0: State, s1: State)
    requires IsWaiter(s, t, Cancelling) && s.waiters[t].fut.Granted?
    requires RemovePending(s, s.waiters[t].client, t) == (false, s0) && s0.waiters == s.waiters
    requires s1 == GiveBack(s0, t, false, env.clock)
    ensures Step(s, Cleanup(t, env)) == TryDispatch(s1, env)
  {}

  /** A granted waiter is in no deque, so its withdrawal finds nothing to remove. */
  lemma NothingToWithdraw(s: State, t: Ticket, s0: State)
    requires Inv(s) && IsWaiter(s, t, Cancelling) && s.waiters[t].fut.Granted?
    requires s0 == RemovePending(s, s.waiters[t].client, t).1
    ensures RemovePending(s, s.waiters[t].client, t) == (false, s0)
    ensures t in Held(s.waiters) && Inv(s0) && s0 == s.(main := s0.main, prio := s0.prio)
    ensures forall c, u :: u != t ==> (u in Queue(s0.main, c) <==> u in Queue(s.main, c))
                                      && (u in Queue(s0.prio, c) <==> u in Queue(s.prio, c))
  {
    RemovePendingOk(s, t);
    RemovePendingInv(s, s0, t);
  }

  lemma WithdrawnDispatched(s: State, s0: State, t: Ticket, env: Env, s1: State, s': State)
    requires Leased(s) && t in Held(s.waiters) && s0 == s.(main := s0.main, prio := s0.prio)
    requires forall c, u :: u != t ==> (u in Queue(s0.main, c) <==> u in Queue(s.main, c))
                                       && (u in Queue(s0.prio, c) <==> u in Queue(s.prio, c))
    requires s1 == GiveBack(s0, t, false, env.clock) && Inv(s1) && s' == TryDispatch(s1, env)
    ensures var fut := s.waiters[t].fut; CameBack(s, s', t, fut.lease) && HandedOn(s, s', fut.lane)
    ensures s'.samples == s.samples && s'.prioSamples == s.prioSamples
  {
    GiveBackGives(s0, t, false, env.clock, s1);
    GivenBackDispatched(s, s1, t, env, s');
  }

  /** Main result: a caller that was cancelled after it had been granted a slot gives that slot back
      and hands the place on in the same way, and nothing is sampled: it never reached upstream. */
  lemma CleanupReturns(s: State, t: Ticket, env: Env, s': State)
    requires Inv(s) && IsWaiter(s, t, Cancelling) && s.waiters[t].fut.Granted? && s' == Step(s, Cleanup(t, env))
    ensures var fut := s.waiters[t].fut; CameBack(s, s', t, fut.lease) && HandedOn(s, s', fut.lane)
    ensures s'.samples == s.samples && s'.prioSamples == s.prioSamples
  {
    var s0 := RemovePending(s, s.waiters[t].client, t).1;
    NothingToWithdraw(s, t, s0);
    var s1 := GiveBack(s0, t, false, env.clock);
    GrantedCleanup(s, t, env, s0, s1);
    GiveBackInv(s0, t, false, env.clock);
    WithdrawnDispatched(s, s0, t, env, s1, s');
  }

  /** Main result: a caller cancelled while it was still waiting is withdrawn from every deque, and
      nothing else changes: no slot moves, nobody is dispatched, everybody else stays parked. */
  lemma CleanupWithdraws(s: State, t: Ticket, env: Env, s': State)
    requires Inv(s) && IsWaiter(s, t, Cancelling) && !s.waiters[t].fut.Granted? && s' == Step(s, Cleanup(t, env))
    ensures s' == s.(main := s'.main, prio := s'.prio, waiters := s.waiters[t := s.waiters[t].(caller := Gone)])
    ensures forall c :: t !in Queue(s'.main, c) && t !in Queue(s'.prio, c)
    ensures forall c, u :: u != t ==> (u in Queue(s'.main, c) <==> u in Queue(s.main, c))
                                      && (u in Queue(s'.prio, c) <==> u in Queue(s.prio, c))
  {
    RemovePendingOk(s, t);
  }

  // ------------------------------------------------------- a request's whole life

  /** Only what callers are doing has changed: as far as slots and live waiters go, nothing has. */
  ghost predicate OnlyCallers(s: State, s1: State) {
    && s1 == s.(waiters := s1.waiters) && Returned(s1.waiters) == Returned(s.waiters)
    && Live(s1.main, s1.waiters) == Live(s.main, s.waiters) && Live(s1.prio, s1.waiters) == Live(s.prio, s.waiters)
  }

  lemma SameBefore(s: State, s1: State, s2: State, t: Ticket, fut: Fut)
    requires OnlyCallers(s, s1) && fut.Granted? && CameBack(s1, s2, t, fut.lease) && HandedOn(s1, s2, fut.lane)
    ensures CameBack(s, s2, t, fut.lease) && HandedOn(s, s2, fut.lane)
  {
    assert MainDemand(s1) == MainDemand(s) && Busy(s1) == Busy(s);
  }

  lemma GrantedCallerMoves(s: State, t: Ticket, caller: Caller, s1: State)
    requires t in Held(s.waiters) && caller != Gone && s1 == SetCaller(s, t, caller)
    ensures OnlyCallers(s, s1)
  {}

  lemma WakeSection(s: State, t: Ticket)
    requires IsWaiter(s, t, Waiting) && s.waiters[t].fut.Granted?
    ensures Step(s, Wake(t)) == SetCaller(s, t, Holding)
  {}

  lemma CancelSection(s: State, t: Ticket)
    requires IsWaiter(s, t, Waiting)
    ensures Step(s, Cancel(t)) == DoCancel(s, t)
    ensures s.waiters[t].fut.Granted? ==> DoCancel(s, t) == SetCaller(s, t, Cancelling)
  {}

  lemma WakeMoves(s: State, t: Ticket, s1: State)
    requires Inv(s) && IsWaiter(s, t, Waiting) && s.waiters[t].fut.Granted? && s1 == Step(s, Wake(t))
    ensures Inv(s1) && IsWaiter(s1, t, Holding) && s1.waiters[t].fut == s.waiters[t].fut && OnlyCallers(s, s1)
  {
    WakeSection(s, t);
    WakeInv(s, t);
    GrantedCallerMoves(s, t, Holding, s1);
  }

  /** Main result: a granted caller that wakes and later releases has given back the very slot it was
      granted, and its place is handed on. */
  lemma WakeThenRelease(s: State, t: Ticket, env: Env, s1: State, s2: State)
    requires Inv(s) && IsWaiter(s, t, Waiting) && s.waiters[t].fut.Granted?
    requires s1 == Step(s, Wake(t)) && s2 == Step(s1, Release(t, env))
    ensures var fut := s.waiters[t].fut; CameBack(s, s2, t, fut.lease) && HandedOn(s, s2, fut.lane)
  {
    WakeMoves(s, t, s1);
    ReleaseReturns(s1, t, env, s2);
    SameBefore(s, s1, s2, t, s.waiters[t].fut);
  }

  lemma CancelGranted(s: State, t: Ticket, s1: State)
    requires Inv(s) && IsWaiter(s, t, Waiting) && s.waiters[t].fut.Granted? && s1 == Step(s, Cancel(t))
    ensures Inv(s1) && IsWaiter(s1, t, Cancelling) && s1.waiters[t].fut == s.waiters[t].fut && OnlyCallers(s, s1)
  {
    CancelSection(s, t);
    CancelInv(s, t);
    GrantedCallerMoves(s, t, Cancelling, s1);
  }

  lemma CancelPending(s: State, t: Ticket, s1: State)
    requires Inv(s) && IsWaiter(s, t, Waiting) && !s.waiters[t].fut.Granted? && s1 == Step(s, Cancel(t))
    ensures Inv(s1) && IsWaiter(s1, t, Cancelling) && s1.waiters[t].fut.Cancelled?
    ensures s1 == s.(waiters := s.waiters[t := Waiter(s.waiters[t].client, Cancelled, Cancelling)])
  {
    CancelSection(s, t);
    CancelInv(s, t);
  }

  /** Main result: a caller cancelled while it waits leaves nothing behind once its cleanup has run.
      The slot it had already been granted comes back unsampled and is handed on. */
  lemma CancelAfterGrant(s: State, t: Ticket, env: Env, s1: State, s2: State)
    requires Inv(s) && IsWaiter(s, t, Waiting) && s.waiters[t].fut.Granted?
    requires s1 == Step(s, Cancel(t)) && s2 == Step(s1, Cleanup(t, env))
    ensures var fut := s.waiters[t].fut; CameBack(s, s2, t, fut.lease) && HandedOn(s, s2, fut.lane)
    ensures s2.samples == s.samples && s2.prioSamples == s.prioSamples
  {
    CancelGranted(s, t, s1);
    CleanupReturns(s1, t, env, s2);
    SameBefore(s, s1, s2, t, s.waiters[t].fut);
  }

  lemma SetTwice(w: map<Ticket, Waiter>, t: Ticket, a: Waiter, b: Waiter)
    ensures w[t := a][t := b] == w[t := b]
  {}

  /** If it had not, it is out of the live waiters of both lanes, everybody else is where they were,
      and no slot, sample or dispatch is touched. */
  lemma CancelBeforeGrant(s: State, t: Ticket, env: Env, s1: State, s2: State)
    requires Inv(s) && IsWaiter(s, t, Waiting) && !s.waiters[t].fut.Granted?
    requires s1 == Step(s, Cancel(t)) && s2 == Step(s1, Cleanup(t, env))
    ensures s2 == s.(main := s2.main, prio := s2.prio, waiters := s2.waiters)
    ensures s2.waiters == s.waiters[t := Waiter(s.waiters[t].client, Cancelled, Gone)]
    ensures forall c :: t !in Queue(s2.main, c) && t !in Queue(s2.prio, c)
    ensures forall c, u :: u != t ==> (u in Queue(s2.main, c) <==> u in Queue(s.main, c))
                                      && (u in Queue(s2.prio, c) <==> u in Queue(s.prio, c))
  {
    CancelPending(s, t, s1);
    CleanupWithdraws(s1, t, env, s2);
    SetTwice(s.waiters, t, s1.waiters[t], Waiter(s.waiters[t].client, Cancelled, Gone));
  }

  // --------------------------------------------------------- arrivals and retunes

  /** `main` and `prio` waiters were granted slots of the two pools, and nobody else was touched. */
  ghost predicate Granted(s: State, s': State, main: nat, prio: nat) {
    && s.granted <= s'.granted && |s'.granted| == |s.granted| + main + prio
    && s'.inflight == s.inflight + main + prio && s'.prioInflight == s.prioInflight + prio
    && s'.samples == s.samples && s'.prioSamples == s.prioSamples && s'.aimd == s.aimd
    && (forall l :: l in s.holds ==> l in s'.holds && s'.holds[l] == s.holds[l])
    && (forall t :: t in s.waiters ==> t in s'.waiters && MayBeGranted(s.waiters[t], s'.waiters[t], s.nextLease))
  }

  /** How many waiters a dispatch takes from each lane, the demand and the room given. */
  ghost function Taken(demand: nat, room: int): nat {
    MinI(demand, MaxI(0, room))
  }

  lemma DispatchGranted(s: State, env: Env, s': State)
    requires Inv(s) && s' == TryDispatch(s, env)
    ensures Granted(s, s', Taken(MainDemand(s), Cap(s) - Busy(s)),
                    Taken(|Live(s.prio, s.waiters)|, s.reserve - s.prioInflight))
    ensures OnlyGrants(s, s', env.clock)
  {
    TryDispatchOk(s, env);
    DispatchOnlyGrants(s, env, s');
    CountedGrants(s, s', env.clock);
  }

  lemma CountedGrants(s: State, s': State, clock: real)
    requires DispatchedBy(s, s') && OnlyGrants(s, s', clock)
    ensures Granted(s, s', Taken(MainDemand(s), Cap(s) - Busy(s)),
                    Taken(|Live(s.prio, s.waiters)|, s.reserve - s.prioInflight))
  {
    assert s'.granted[..|s.granted|] == s.granted;
  }

  lemma EnqueueLive(r: Rotation, w: map<Ticket, Waiter>, c: Client, t: Ticket, w': map<Ticket, Waiter>)
    requires t !in w && w' == w[t := Waiter(c, Pending, Waiting)]
    ensures Live(Enqueue(r, c, t), w') == Live(r, w) + {t} && t !in Live(r, w)
  {
    EnqueueQueues(r, c, t);
    forall d, u ensures u in Queue(Enqueue(r, c, t), d) <==> u in Queue(r, d) || (u == t && d == c) {}
  }

  lemma UnqueuedLive(r: Rotation, w: map<Ticket, Waiter>, c: Client, t: Ticket, w': map<Ticket, Waiter>)
    requires t !in w && w' == w[t := Waiter(c, Pending, Waiting)] && forall d :: t !in Queue(r, d)
    ensures Live(r, w') == Live(r, w)
  {}

  /** One more live waiter in the lane the call asked for, which is the main one while the reserve
      is closed. */
  lemma ParkDemand(s: State, t: Ticket, c: Client, wants: bool, project: Option<Project>, p: State)
    requires Parking(s) && t !in s.waiters && p == Park(s, t, c, wants, project)
    ensures var lane := wants && s.reserve > 0;
            && |Live(p.prio, p.waiters)| == |Live(s.prio, s.waiters)| + (if lane then 1 else 0)
            && |Live(p.main, p.waiters)| == |Live(s.main, s.waiters)| + (if lane then 0 else 1)
  {
    NotParked(s.main, s.waiters, t);
    NotParked(s.prio, s.waiters, t);
    var w' := s.waiters[t := Waiter(c, Pending, Waiting)];
    if wants && s.reserve > 0 {
      EnqueueLive(s.prio, s.waiters, c, t, w');
      UnqueuedLive(s.main, s.waiters, c, t, w');
      assert p.waiters == w' && p.main == s.main && p.prio == Enqueue(s.prio, c, t);
    } else {
      EnqueueLive(s.main, s.waiters, c, t, w');
      UnqueuedLive(s.prio, s.waiters, c, t, w');
      assert p.waiters == w' && p.prio == s.prio && p.main == Enqueue(s.main, c, t);
    }
  }

  lemma ParkAlone(s: State, t: Ticket, c: Client, wants: bool, project: Option<Project>, p: State)
    requires t !in s.waiters && p == Park(s, t, c, wants, project)
    ensures p == s.(main := p.main, prio := p.prio, waiters := s.waiters[t := Waiter(c, Pending, Waiting)],
                    projects := p.projects)
  {}

  lemma ParkThenGranted(s: State, t: Ticket, w: Waiter, p: State, s': State, main: nat, prio: nat)
    requires t !in s.waiters
    requires p == s.(main := p.main, prio := p.prio, waiters := s.waiters[t := w], projects := p.projects)
    requires Granted(p, s', main, prio)
    ensures Granted(s, s', main, prio) && t in s'.waiters && MayBeGranted(w, s'.waiters[t], s.nextLease)
  {
    forall u | u in s.waiters ensures u in s'.waiters && MayBeGranted(s.waiters[u], s'.waiters[u], s.nextLease) {
      assert u in p.waiters && p.waiters[u] == s.waiters[u];
    }
    assert t in p.waiters && p.waiters[t] == w;
  }

  lemma ArriveStep(s: State, t: Ticket, c: Client, wants: bool, project: Option<Project>, env: Env, p: State)
    requires t !in s.waiters && p == Park(s, t, c, wants, project)
    ensures Step(s, Arrive(t, c, wants, project, env)) == TryDispatch(p, env)
  {}

  lemma ParkedNumbers(s: State, p: State, lane: bool)
    requires p == s.(main := p.main, prio := p.prio, waiters := p.waiters, projects := p.projects)
    requires |Live(p.prio, p.waiters)| == |Live(s.prio, s.waiters)| + (if lane then 1 else 0)
    requires |Live(p.main, p.waiters)| == |Live(s.main, s.waiters)| + (if lane then 0 else 1)
    requires lane ==> s.reserve > 0
    ensures MainDemand(p) == MainDemand(s) + (if lane then 0 else 1)
    ensures Cap(p) == Cap(s) && Busy(p) == Busy(s) && p.reserve - p.prioInflight == s.reserve - s.prioInflight
  {}

  lemma ParkedServed(s: State, t: Ticket, w: Waiter, p: State, s': State, lane: bool, main: nat, prio: nat)
    requires t !in s.waiters && (lane ==> s.reserve > 0)
    requires p == s.(main := p.main, prio := p.prio, waiters := s.waiters[t := w], projects := p.projects)
    requires main == Taken(MainDemand(p), Cap(p) - Busy(p))
    requires prio == Taken(|Live(p.prio, p.waiters)|, p.reserve - p.prioInflight) && Granted(p, s', main, prio)
    requires |Live(p.prio, p.waiters)| == |Live(s.prio, s.waiters)| + (if lane then 1 else 0)
    requires |Live(p.main, p.waiters)| == |Live(s.main, s.waiters)| + (if lane then 0 else 1)
    ensures Granted(s, s', Taken(MainDemand(s) + (if lane then 0 else 1), Cap(s) - Busy(s)),
                    Taken(|Live(s.prio, s.waiters)| + (if lane then 1 else 0), s.reserve - s.prioInflight))
    ensures t in s'.waiters && MayBeGranted(w, s'.waiters[t], s.nextLease)
  {
    ParkThenGranted(s, t, w, p, s', main, prio);
    ParkedNumbers(s, p, lane);
  }

  /** Main result: an arriving request is one more to serve in its lane, and the dispatch that follows
      serves all it can: it is granted a slot at once or parked, and nobody else is disturbed. */
  lemma ArrivalServed(s: State, t: Ticket, c: Client, wants: bool, project: Option<Project>, env: Env, s': State)
    requires Inv(s) && t !in s.waiters && s' == Step(s, Arrive(t, c, wants, project, env))
    ensures var lane := wants && s.reserve > 0;
            Granted(s, s', Taken(MainDemand(s) + (if lane then 0 else 1), Cap(s) - Busy(s)),
                    Taken(|Live(s.prio, s.waiters)| + (if lane then 1 else 0), s.reserve - s.prioInflight))
    ensures t in s'.waiters && MayBeGranted(Waiter(c, Pending, Waiting), s'.waiters[t], s.nextLease)
  {
    var p := Park(s, t, c, wants, project);
    ArriveStep(s, t, c, wants, project, env, p);
    ParkInv(s, t, c, wants, project);
    ParkDemand(s, t, c, wants, project, p);
    ParkAlone(s, t, c, wants, project, p);
    DispatchGranted(p, env, s');
    ParkedServed(s, t, Waiter(c, Pending, Waiting), p, s', wants && s.reserve > 0,
                 Taken(MainDemand(p), Cap(p) - Busy(p)), Taken(|Live(p.prio, p.waiters)|, p.reserve - p.prioInflight));
  }

  lemma ReserveSteps(s: State, n: nat, env: Env)
    ensures Step(s, SetReserve(n)) == s.(reserve := n) && Step(s, Kick(env)) == TryDispatch(s, env)
  {}

  lemma RetunedGranted(s: State, n: nat, s1: State, env: Env, s2: State)
    requires s1 == s.(reserve := n) && Inv(s1) && s2 == TryDispatch(s1, env)
    ensures s2.reserve == n
    ensures Granted(s, s2,
                    Taken(|Live(s.main, s.waiters)| + (if n == 0 then |Live(s.prio, s.waiters)| else 0),
                          Cap(s) - (s.inflight - MinI(s.prioInflight, n))),
                    Taken(|Live(s.prio, s.waiters)|, n - s.prioInflight))
  {
    DispatchGranted(s1, env, s2);
  }

  /** Main result: once the kick of a reserve change has run, both pools are filled as the new size
      allows; closing the reserve serves the priority waiters from the main pool. */
  lemma ReserveTakesEffect(s: State, n: nat, env: Env, s1: State, s2: State)
    requires Inv(s) && s1 == Step(s, SetReserve(n)) && s2 == Step(s1, Kick(env))
    ensures s2.reserve == n
    ensures Granted(s, s2,
                    Taken(|Live(s.main, s.waiters)| + (if n == 0 then |Live(s.prio, s.waiters)| else 0),
                          Cap(s) - (s.inflight - MinI(s.prioInflight, n))),
                    Taken(|Live(s.prio, s.waiters)|, n - s.prioInflight))
  {
    ReserveSteps(s, n, env);
    ReserveSteps(s1, n, env);
    KnobInv(s, s1);
    RetunedGranted(s, n, s1, env, s2);
  }

  /** The project of a waiting client is remembered: the newcomer's is noted, and nobody who still
      waits is forgotten. */
  lemma ProjectsRemembered(s: State, t: Ticket, c: Client, wants: bool, project: Option<Project>)
    requires t !in s.waiters
    ensures var p := Park(s, t, c, wants, project);
            && (project.Some? && !(wants && s.reserve > 0) ==> c in p.projects && p.projects[c] == project.value)
            && (forall d :: d in s.projects && d != c && d in s.main.queues ==>
                  d in p.projects && p.projects[d] == s.projects[d])
            && (forall d :: d in p.projects && d != c ==> d in s.projects && p.projects[d] == s.projects[d])
  {}

  // ------------------------------------------------------- the advisory ordering

  /** The client waits on behalf of a project that is over its share. */
  predicate OverShare(s: State, share: Share, c: Client) {
    c in s.projects && s.projects[c] in share.over
  }

  lemma {:induction false} FirstIsAt(s: State, share: Share, order: seq<Client>, i: nat)
    requires share.ordering && i <= |order|
    requires forall j :: 0 <= j < i ==> OverShare(s, share, order[j])
    requires i < |order| ==> !OverShare(s, share, order[i])
    ensures FirstUnderShare(order, s.projects, share) == i
  {
    if i > 0 {
      FirstIsAt(s, share, order[1..], i - 1);
    }
  }

  /** Main result: while the ordering is on, the next slot of the main pool goes to the first client of
      the rotation that is not over its share, if the request at the head of its queue still waits. */
  lemma UnderShareGoesFirst(s: State, share: Share, i: nat, c: Client, t: Ticket)
    requires share.ordering && i < |s.main.order| && s.main.order[i] == c && !OverShare(s, share, c)
    requires forall j :: 0 <= j < i ==> OverShare(s, share, s.main.order[j])
    requires Queue(s.main, c) != [] && Queue(s.main, c)[0] == t && t !in Dead(s.waiters)
    ensures NextTurn(s, false, share).next == Some(Turn(c, t))
  {
    FirstIsAt(s, share, s.main.order, i);
    var r := RotatedTo(s.main, i);
    assert r.order[0] == c && Queue(r, c) == Queue(s.main, c);
    assert PopHead(r).next == Some(Turn(c, t));
  }

  /** If every waiting client is over its share, or the ordering is off, the rotation decides alone. */
  lemma RotationDecides(s: State, share: Share)
    requires !share.ordering || forall c :: c in s.main.order ==> OverShare(s, share, c)
    ensures NextTurn(s, false, share) == NextWaiter(s.main, Dead(s.waiters))
  {
    if share.ordering {
      FirstIsAt(s, share, s.main.order, |s.main.order|);
    }
  }
}
