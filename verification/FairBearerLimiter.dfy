/**
 The limiter object itself: every method is one critical section of the source, with its
 loops, and is proved equal to the corresponding step of `LimiterState`.
 */
module FairBearerLimiters {
  import opened Common
  import opened LimiterState
  import R = Rotations
  import A = Aimd
  import D = DrainPrediction
  import S = ServiceEstimates
  import I = LimiterInvariants
  import Q = LimiterAdmission
  import V = LimiterEvents

  datatype Admission = Parked | Refused(estimate: D.Estimate)

  /** `x` is the client an `AheadOf` question is about: the named one, or any that has
      nothing parked. */
  ghost predicate Asks(client: Option<R.Client>, order: seq<R.Client>, x: R.Client) {
    if client.Some? then client.value == x else x !in order
  }

  /** What the drain estimate is configured with: the cold default service time, the bounds
      of the retry hint, and whether one request may wait behind the only slot. */
  datatype DrainConfig = DrainConfig(coldDefault: real, retryFloor: int, retryMax: int, allowFirstWaiter: bool)

  class FairBearerLimiter {
    // live configuration
    var knobs: A.Knobs
    var reserve: nat
    // the live ceiling
    var hardMax: int
    var maxConcurrent: int
    var lastThrottleAt: real
    var successesSinceThrottle: nat
    var retryAfterUntil: real
    var shrinkHistory: seq<real>
    // slots and queues
    var inflight: int
    var priorityInflight: int
    var main: R.Rotation
    var prio: R.Rotation
    var futures: map<R.Ticket, Waiter>
    var holds: map<nat, Hold>
    var nextLease: nat
    var samples: seq<real>
    var prioritySamples: seq<real>
    var clientProject: map<R.Client, Project>
    ghost var granted: seq<Grant>

    ghost function Ceiling(): A.Lane
      reads this
    {
      A.Lane(A.Ceiling(hardMax, maxConcurrent, lastThrottleAt, successesSinceThrottle, retryAfterUntil, shrinkHistory), knobs)
    }

    ghost function View(): State
      reads this
    {
      State(Ceiling(), reserve, inflight, priorityInflight, main, prio, futures, holds, nextLease,
            samples, prioritySamples, clientProject, granted)
    }

    constructor (hardMax: int, knobs: A.Knobs, initial: int, reserve: nat)
      ensures View() == Init(A.Lane(A.Initial(hardMax, knobs, initial), knobs), reserve)
    {
      this.knobs, this.reserve, this.hardMax := knobs, reserve, hardMax;
      maxConcurrent := A.InitialCap(hardMax, knobs, initial);
      lastThrottleAt, successesSinceThrottle, retryAfterUntil, shrinkHistory := 0.0, 0, 0.0, [];
      inflight, priorityInflight := 0, 0;
      main, prio := R.EMPTY, R.EMPTY;
      futures, holds, nextLease := map[], map[], 0;
      samples, prioritySamples, clientProject := [], [], map[];
      granted := [];
    }

    // ------------------------------------------------------------- AIMD ceiling

    function AimdFloor(): (floor: int)
      reads this
      ensures floor == A.Floor(Ceiling().c, knobs)
    {
      MinI(hardMax, knobs.aimdMin)
    }

    method Shrink(now: real) returns (newMax: int)
      modifies this
      ensures View() == Step(old(View()), LimiterState.Shrink(now))
      ensures newMax == maxConcurrent
    {
      var scaled := A.Scaled(maxConcurrent, knobs.decrease);
      newMax := MaxI(AimdFloor(), MinI(scaled, maxConcurrent - 1));
      maxConcurrent := newMax;
      lastThrottleAt := now;
      successesSinceThrottle := 0;
      shrinkHistory := A.Bounded(shrinkHistory, now);
      assert Ceiling() == old(Ceiling()).(c := A.Shrink(old(Ceiling()).c, knobs, now));
      assert View() == old(View()).(aimd := Ceiling());
    }

    method RecentShrinks(now: real) returns (recent: nat)
      ensures recent == A.RecentShrinks(Ceiling().c, knobs, now)
    {
      var cutoff := now - 2.0 * knobs.backoff;
      recent := 0;
      for i := 0 to |shrinkHistory|
        invariant recent == A.CountAfter(shrinkHistory[..i], cutoff)
      {
        assert shrinkHistory[..i + 1][..i] == shrinkHistory[..i];
        if shrinkHistory[i] > cutoff {
          recent := recent + 1;
        }
      }
      assert shrinkHistory[..|shrinkHistory|] == shrinkHistory;
    }

    method MayGrow(now: real) returns (may: bool)
      ensures may <==> A.MayGrow(Ceiling().c, knobs, now)
    {
      var cooled := now - lastThrottleAt >= knobs.backoff;
      var quiet := now >= retryAfterUntil;
      if lastThrottleAt > 0.0 && cooled && quiet && maxConcurrent < hardMax
         && maxConcurrent <= AimdFloor() && now - lastThrottleAt >= 2.0 * knobs.backoff {
        return successesSinceThrottle >= 1;
      }
      var recent := RecentShrinks(now);
      var ramp := if recent == 0 || recent >= knobs.stormThreshold then knobs.rampAfter
                  else MinI(knobs.rampFast, knobs.rampAfter);
      return successesSinceThrottle >= ramp && cooled && quiet && maxConcurrent < hardMax;
    }

    method Grow(now: real, env: Env) returns (grown: Option<int>)
      modifies this
      ensures View() == Step(old(View()), Success(now, env))
      ensures grown == if maxConcurrent == old(maxConcurrent) then None else Some(maxConcurrent)
    {
      successesSinceThrottle := successesSinceThrottle + 1;
      var may := MayGrow(now);
      if !may {
        return None;
      }
      maxConcurrent := maxConcurrent + 1;
      successesSinceThrottle := 0;
      ghost var section := Critical(old(View()), Success(now, env));
      assert Ceiling() == section.s.aimd;
      assert View() == section.s;
      TryDispatch(env);
      I.DispatchKeepsCeiling(section.s, env);
      assert View().aimd.c.cap == section.s.aimd.c.cap;
      return Some(maxConcurrent);
    }

    method NoteRetryAfter(now: real, seconds: real)
      modifies this
      ensures View() == Step(old(View()), RetryAfter(now, seconds))
    {
      if seconds <= 0.0 {
        return;
      }
      var until := now + seconds;
      if until > retryAfterUntil {
        retryAfterUntil := until;
      }
      lastThrottleAt := MaxR(lastThrottleAt, now);
    }

    method RetuneHardMax(newHardMax: int, liveFloor: Option<int>, env: Env)
      modifies this
      ensures View() == Step(old(View()), RetuneMax(newHardMax, liveFloor, env))
    {
      if newHardMax == hardMax && liveFloor.None? {
        return;
      }
      var oldHardMax := hardMax;
      hardMax := newHardMax;
      if newHardMax < oldHardMax {
        maxConcurrent := MinI(maxConcurrent, newHardMax);
      }
      if liveFloor.Some? {
        maxConcurrent := MaxI(maxConcurrent, MinI(newHardMax, MaxI(knobs.aimdMin, liveFloor.value)));
      }
      assert Ceiling() == Critical(old(View()), RetuneMax(newHardMax, liveFloor, env)).s.aimd;
      assert View() == Critical(old(View()), RetuneMax(newHardMax, liveFloor, env)).s;
      TryDispatch(env);
    }

    method SetReserveSlots(n: nat)
      modifies this
      ensures View() == Step(old(View()), SetReserve(n))
    {
      reserve := n;
    }

    method KickDispatch(env: Env)
      modifies this
      ensures View() == Step(old(View()), Kick(env))
    {
      TryDispatch(env);
    }

    // ------------------------------------------------------------------ dispatch

    method NoteDispatch(lane: bool, clock: real) returns (lease: nat)
      modifies this`nextLease, this`holds
      ensures lease == old(nextLease) + 1
      ensures View() == old(View()).(nextLease := lease, holds := old(holds)[lease := Hold(lane, clock)])
    {
      nextLease := nextLease + 1;
      lease := nextLease;
      holds := holds[lease := Hold(lane, clock)];
    }

    method NoteCompletion(lease: nat, sample: bool, clock: real)
      modifies this`holds, this`samples, this`prioritySamples
      ensures View() == Complete(old(View()), lease, sample, clock)
    {
      if lease !in holds {
        return;
      }
      var held := holds[lease];
      holds := holds - {lease};
      if sample {
        var took := MaxR(0.0, clock - held.started);
        if held.lane {
          prioritySamples := Sampled(prioritySamples, took);
        } else {
          samples := Sampled(samples, took);
        }
      }
    }

    /** Pop the next dispatchable waiter of one lane, dropping cancelled ones on the way. */
    method NextWaiter(lane: bool) returns (next: Option<R.Turn>)
      modifies this`main, this`prio
      ensures var p := R.NextWaiter(if lane then old(prio) else old(main), Dead(futures));
              next == p.next && View() == WithLane(old(View()), lane, p.rest)
    {
      var r := if lane then prio else main;
      ghost var dead := Dead(futures);
      ghost var r0 := r;
      next := None;
      while r.order != []
        invariant R.NextWaiter(r, dead) == R.NextWaiter(r0, dead)
        decreases R.Load(r.order, r.queues)
      {
        ghost var turn := R.PopHead(r);
        var c := r.order[0];
        var order := r.order[1..];
        var q := R.Queue(r, c);
        if q == [] {
          r := R.Rotation(order, r.queues);
          assert r == turn.rest;
          continue;
        }
        var t := q[0];
        q := q[1..];
        if q != [] {
          r := R.Rotation(order + [c], r.queues[c := q]);
        } else {
          r := R.Rotation(order, r.queues - {c});
        }
        assert r == turn.rest && turn.next == Some(R.Turn(c, t));
        if t in futures && futures[t].fut.Cancelled? {
          continue;
        }
        next := Some(R.Turn(c, t));
        break;
      }
      if lane {
        prio := r;
      } else {
        main := r;
      }
    }

    /** Bring the first client that is not over its share to the head of the rotation. */
    method PreferUnderShare(share: Share)
      modifies this`main
      ensures View() == old(View()).(main := LimiterState.PreferUnderShare(old(View()), share))
    {
      if !share.ordering {
        return;
      }
      ghost var first := FirstUnderShare(main.order, clientProject, share);
      var i := 0;
      while i < |main.order|
        invariant i <= |main.order| && main == old(main)
        invariant first == i + FirstUnderShare(main.order[i..], clientProject, share)
        decreases |main.order| - i
      {
        if !Defers(clientProject, share, main.order[i]) {
          assert first == i;
          main := R.Rotation(main.order[i..] + main.order[..i], main.queues);
          return;
        }
        assert main.order[i..][1..] == main.order[i + 1..];
        i := i + 1;
      }
    }

    method MigratePriorityToNormal()
      modifies this`main, this`prio
      ensures View() == Migrate(old(View()))
    {
      var queues := prio.queues;
      var i := 0;
      while i < |prio.order|
        invariant i <= |prio.order| && prio == old(prio)
        invariant R.Migrated(prio.order[i..], queues, main) == R.Migrated(prio.order, prio.queues, old(main))
        decreases |prio.order| - i
      {
        var c := prio.order[i];
        assert prio.order[i..][0] == c && prio.order[i..][1..] == prio.order[i + 1..];
        var q := if c in queues then queues[c] else [];
        ghost var joined := R.Join(main, c, R.Queue(R.Rotation(prio.order[i..], queues), c));
        queues := queues - {c};
        if q != [] {
          main := R.Rotation(if c in main.order then main.order else main.order + [c],
                             main.queues[c := R.Queue(main, c) + q]);
        }
        assert main == joined;
        i := i + 1;
      }
      prio := R.EMPTY;
    }

    /** Resolve a waiter's future with the slot it was granted. */
    method GrantTo(turn: R.Turn, lane: bool, clock: real)
      modifies this
      ensures View() == GrantSlot(old(View()), turn, lane, clock)
    {
      inflight := inflight + 1;
      priorityInflight := if lane then priorityInflight + 1 else priorityInflight;
      var lease := NoteDispatch(lane, clock);
      ghost var s := View();
      var caller := if turn.ticket in futures then futures[turn.ticket].caller else Waiting;
      futures := futures[turn.ticket := Waiter(turn.client, Granted(lane, lease), caller)];
      granted := granted + [Grant(turn.ticket, turn.client, lane)];
      assert View() == s.(waiters := futures, granted := granted);
    }

    method TryDispatch(env: Env)
      modifies this
      ensures View() == LimiterState.TryDispatch(old(View()), env)
    {
      if reserve == 0 && prio.order != [] {
        MigratePriorityToNormal();
      }
      ghost var s1 := View();
      while priorityInflight < reserve
        invariant DispatchPriority(View(), env) == DispatchPriority(s1, env)
        decreases reserve - priorityInflight
      {
        ghost var s := View();
        var next := NextWaiter(true);
        if next.None? {
          assert DispatchPriority(s, env) == View();
          break;
        }
        GrantTo(next.value, true, env.clock);
        assert DispatchPriority(s, env) == DispatchPriority(View(), env);
      }
      assert View() == DispatchPriority(s1, env);
      MainLoop(env);
    }

    method MainLoop(env: Env)
      modifies this
      ensures View() == DispatchMain(old(View()), env)
    {
      ghost var s1 := View();
      while NormalBusy(inflight, priorityInflight, reserve) < maxConcurrent
        invariant DispatchMain(View(), env) == DispatchMain(s1, env)
        decreases maxConcurrent - NormalBusy(inflight, priorityInflight, reserve)
      {
        ghost var s := View();
        PreferUnderShare(env.share);
        var next := NextWaiter(false);
        if next.None? {
          assert DispatchMain(s, env) == View();
          break;
        }
        GrantTo(next.value, false, env.clock);
        assert DispatchMain(s, env) == DispatchMain(View(), env);
      }
    }

    // ------------------------------------------------------ predictive admission

    /** Queued requests that will be dispatched before this client's arrival. */
    method AheadOf(client: Option<R.Client>, lane: bool) returns (ahead: nat)
      requires R.Listed(Q.LaneOf(View(), lane))
      ensures forall x :: Asks(client, Q.LaneOf(View(), lane).order, x) ==> ahead == R.AheadOf(Q.LaneOf(View(), lane), x)
    {
      var r := if lane then prio else main;
      var own := if client.Some? then |R.Queue(r, client.value)| else 0;
      var position := if client.Some? then R.Pos(r.order, client.value) else |r.order|;
      ahead := own;
      for index := 0 to |r.order|
        invariant Counted(client, r, index, own, ahead)
      {
        var cid := r.order[index];
        CountNext(client, r, index, own, ahead);
        if client == Some(cid) {
          continue;
        }
        var turns := if index < position then own + 1 else own;
        ahead := ahead + MinI(|R.Queue(r, cid)|, turns);
      }
      CountAll(client, r, own, ahead);
    }

    /** The turns of the first `n` listed clients have been counted. */
    static ghost predicate Counted(client: Option<R.Client>, r: R.Rotation, n: nat, own: nat, ahead: nat)
      requires n <= |r.order|
    {
      forall x :: Asks(client, r.order, x) ==> ahead == own + R.SumTurns(r.order[..n], r, x, own)
    }

    static lemma CountNext(client: Option<R.Client>, r: R.Rotation, n: nat, own: nat, ahead: nat)
      requires n < |r.order| && Distinct(r.order) && Counted(client, r, n, own, ahead)
      ensures var position := if client.Some? then R.Pos(r.order, client.value) else |r.order|;
              var turns := if n < position then own + 1 else own;
              Counted(client, r, n + 1, own,
                      if client == Some(r.order[n]) then ahead else ahead + MinI(|R.Queue(r, r.order[n])|, turns))
    {
      var cid := r.order[n];
      R.PosOfIndex(r.order, n);
      assert r.order[..n + 1] == r.order[..n] + [cid];
      forall x | Asks(client, r.order, x)
        ensures R.SumTurns(r.order[..n + 1], r, x, own)
             == R.SumTurns(r.order[..n], r, x, own) + (if cid == x then 0 else R.Turns(r, x, own, cid))
      {
        R.SumTurnsAppend(r.order[..n], cid, r, x, own);
        assert R.SumTurns([cid], r, x, own) == (if cid == x then 0 else R.Turns(r, x, own, cid)) + R.SumTurns([cid][1..], r, x, own);
      }
    }

    static lemma CountAll(client: Option<R.Client>, r: R.Rotation, own: nat, ahead: nat)
      requires R.Listed(r) && Counted(client, r, |r.order|, own, ahead)
      requires own == if client.Some? then |R.Queue(r, client.value)| else 0
      ensures forall x :: Asks(client, r.order, x) ==> ahead == R.AheadOf(r, x)
    {
      assert r.order[..|r.order|] == r.order;
      forall x | Asks(client, r.order, x) ensures ahead == R.AheadOf(r, x) {
        if client.None? {
          assert R.Queue(r, x) == [];
        }
      }
    }

    method QueuedTotal(lane: bool) returns (total: nat)
      ensures total == R.Depth(Q.LaneOf(View(), lane).order, Q.LaneOf(View(), lane).queues)
    {
      var r := if lane then prio else main;
      total := 0;
      for i := 0 to |r.order|
        invariant total + R.Depth(r.order[i..], r.queues) == R.Depth(r.order, r.queues)
      {
        assert r.order[i..][1..] == r.order[i + 1..];
        total := total + |R.Queue(r, r.order[i])|;
      }
    }

    method LaneHolds(lane: bool) returns (stamps: seq<real>)
      ensures stamps == Q.LaneHolds(holds, nextLease, lane)
    {
      stamps := if 0 in holds && holds[0].lane == lane then [holds[0].started] else [];
      for lease := 0 to nextLease
        invariant stamps == Q.LaneHolds(holds, lease, lane)
      {
        if lease + 1 in holds && holds[lease + 1].lane == lane {
          stamps := stamps + [holds[lease + 1].started];
        }
      }
    }

    /** Whether one more arrival can reach a slot within `maxWait`, judged against its own pool. */
    method DrainEstimate(maxWait: D.Budget, wantsPriority: bool, client: Option<R.Client>, now: real,
        config: DrainConfig)
      returns (e: D.Estimate)
      requires R.Listed(main) && R.Listed(prio)
      ensures var lane := wantsPriority && reserve > 0;
              var service := Q.ServiceOf(View(), lane, now, config.coldDefault);
              && D.VerdictFaithful(e, service.residuals) && D.DepthFaithful(e, service.residuals)
              && D.WaitFaithful(e, service.residuals)
              && D.RetryFaithful(e, config.retryFloor, config.retryMax)
              && e.slots == MaxI(0, Q.Slots(View(), lane)) && e.busy == MaxI(0, Q.Occupied(View(), lane))
              && e.service == service.time && e.evidenced == (service.source != S.Cold)
              && e.horizon == D.Horizon(maxWait)
              && e.queued == R.Depth(Q.LaneOf(View(), lane).order, Q.LaneOf(View(), lane).queues)
              && forall x :: Asks(client, Q.LaneOf(View(), lane).order, x) ==> e.ahead == R.AheadOf(Q.LaneOf(View(), lane), x)
    {
      var lane := wantsPriority && reserve > 0;
      var slots := if lane then reserve else maxConcurrent;
      var busy := if lane then priorityInflight else NormalBusy(inflight, priorityInflight, reserve);
      var queued := QueuedTotal(lane);
      var stamps := LaneHolds(lane);
      var service := S.ServiceEstimate(if lane then prioritySamples else samples, stamps, now, config.coldDefault);
      S.ServiceEstimateBounds(if lane then prioritySamples else samples, stamps, now, config.coldDefault);
      var ahead := AheadOf(client, lane);
      e := D.ComputeDrain(slots, busy, queued, Some(ahead), service.time, service.residuals,
                          service.source != S.Cold, maxWait, config.retryFloor, config.retryMax);
    }

    /** Whether the lane's own numbers put the request's start past its budget: exactly when
        the simulated dispatcher would start it late, unless it may be the first waiter. */
    method CheckQueueAdmission(t: R.Ticket, client: R.Client, wantsPriority: bool, maxWait: D.Budget, now: real,
                               config: DrainConfig)
      returns (refusal: Option<D.Estimate>)
      requires I.Inv(View()) && t !in futures
      ensures var lane := wantsPriority && reserve > 0;
              refusal.Some? <==>
                && Q.Late(View(), lane, client, t, maxWait, now, config.coldDefault)
                && !(config.allowFirstWaiter && Q.FirstWaiter(View(), lane))
      ensures refusal.Some? ==>
                Q.Published(View(), wantsPriority && reserve > 0, client, t, maxWait, now, config.coldDefault,
                            config.retryFloor, config.retryMax, refusal.value)
    {
      var lane := wantsPriority && reserve > 0;
      var e := DrainEstimate(maxWait, wantsPriority, Some(client), now, config);
      ArrivalRank(t, client, lane);
      if !e.rejects {
        return None;
      }
      var firstWaiter := config.allowFirstWaiter && !lane && e.slots == 1 && e.busy == 1 && e.queued == 0;
      return if firstWaiter then None else Some(e);
    }

    /** Refuse the request under the enqueue lock, or park it and dispatch. */
    method AcquireLease(t: R.Ticket, client: R.Client, wantsPriority: bool, maxWait: Option<D.Budget>,
                        project: Option<Project>, now: real, config: DrainConfig, env: Env)
      returns (a: Admission)
      requires I.Inv(View()) && t !in futures
      modifies this
      ensures var lane := wantsPriority && old(reserve) > 0;
              a.Refused? <==>
                && maxWait.Some?
                && Q.Late(old(View()), lane, client, t, maxWait.value, now, config.coldDefault)
                && !(config.allowFirstWaiter && Q.FirstWaiter(old(View()), lane))
      ensures a.Refused? ==>
                && View() == old(View())
                && Q.Published(View(), wantsPriority && reserve > 0, client, t, maxWait.value, now, config.coldDefault,
                               config.retryFloor, config.retryMax, a.estimate)
      ensures a.Parked? ==> View() == Step(old(View()), Arrive(t, client, wantsPriority, project, env))
    {
      if maxWait.Some? {
        var refusal := CheckQueueAdmission(t, client, wantsPriority, maxWait.value, now, config);
        if refusal.Some? {
          return Refused(refusal.value);
        }
      }
      ParkFuture(t, client, wantsPriority, project);
      TryDispatch(env);
      return Parked;
    }

    method ParkFuture(t: R.Ticket, client: R.Client, wantsPriority: bool, project: Option<Project>)
      modifies this
      ensures View() == Park(old(View()), t, client, wantsPriority, project)
    {
      futures := futures[t := Waiter(client, Pending, Waiting)];
      if wantsPriority && reserve > 0 {
        prio := R.Enqueue(prio, client, t);
        assert View() == old(View()).(waiters := futures, prio := prio);
      } else {
        main := R.Enqueue(main, client, t);
        clientProject := NoteProject(clientProject, main.queues, client, project);
        assert View() == old(View()).(waiters := futures, main := main, projects := clientProject);
      }
    }

    lemma ArrivalRank(t: R.Ticket, client: R.Client, lane: bool)
      requires I.Inv(View()) && t !in futures
      ensures R.AheadOf(Q.LaneOf(View(), lane), client)
           == R.PopsBefore(R.Enqueue(Q.LaneOf(View(), lane), client, t), t)
    {
      I.NotParked(Q.LaneOf(View(), lane), futures, t);
      R.AheadOfExact(Q.LaneOf(View(), lane), client, t);
    }

    // ------------------------------------------------------------------- leaving

    method RemoveFrom(lane: bool, client: R.Client, t: R.Ticket) returns (removed: bool)
      modifies this`main, this`prio
      ensures var p := R.RemoveFrom(if lane then old(prio) else old(main), client, t);
              removed == p.removed && View() == WithLane(old(View()), lane, p.rest)
    {
      var r := if lane then prio else main;
      if client !in r.queues {
        return false;
      }
      var q := r.queues[client];
      removed := t in q;
      q := R.Drop(q, t);
      var queues := r.queues[client := q];
      var order := r.order;
      if q == [] {
        queues := r.queues - {client};
        order := R.Drop(order, client);
      }
      if lane {
        prio := R.Rotation(order, queues);
      } else {
        main := R.Rotation(order, queues);
      }
    }

    method RemovePending(client: R.Client, t: R.Ticket) returns (removed: bool)
      modifies this`main, this`prio
      ensures (removed, View()) == LimiterState.RemovePending(old(View()), client, t)
    {
      removed := RemoveFrom(true, client, t);
      if removed {
        return true;
      }
      removed := RemoveFrom(false, client, t);
    }

    /** The slot granted to `t` comes back. */
    method ReturnSlot(t: R.Ticket, sample: bool, clock: real)
      requires t in futures && futures[t].fut.Granted?
      modifies this
      ensures View() == GiveBack(old(View()), t, sample, clock)
    {
      var fut := futures[t].fut;
      futures := futures[t := futures[t].(caller := Gone)];
      inflight := inflight - 1;
      priorityInflight := if fut.lane then priorityInflight - 1 else priorityInflight;
      assert View() == SetCaller(old(View()), t, Gone).(inflight := inflight, prioInflight := priorityInflight);
      NoteCompletion(fut.lease, sample, clock);
    }

    /** Undo a queued or dispatched slot after the caller was cancelled. */
    method CancelCleanup(t: R.Ticket, env: Env)
      requires t in futures && futures[t].caller == Cancelling
      modifies this
      ensures View() == Step(old(View()), Cleanup(t, env))
      ensures I.Inv(old(View())) && old(futures[t]).fut.Granted? ==>
                && V.CameBack(old(View()), View(), t, old(futures[t]).fut.lease)
                && V.HandedOn(old(View()), View(), old(futures[t]).fut.lane)
                && samples == old(samples) && prioritySamples == old(prioritySamples)
    {
      var removed := RemovePending(futures[t].client, t);
      if !removed && futures[t].fut.Granted? {
        ReturnSlot(t, false, env.clock);
        TryDispatch(env);
      } else {
        futures := futures[t := futures[t].(caller := Gone)];
      }
      CleanedUp(old(View()), t, env);
    }

    lemma CleanedUp(s: State, t: R.Ticket, env: Env)
      requires IsWaiter(s, t, Cancelling) && View() == Step(s, Cleanup(t, env))
      ensures I.Inv(s) && s.waiters[t].fut.Granted? ==>
                && V.CameBack(s, View(), t, s.waiters[t].fut.lease) && V.HandedOn(s, View(), s.waiters[t].fut.lane)
                && View().samples == s.samples && View().prioSamples == s.prioSamples
    {
      if I.Inv(s) && s.waiters[t].fut.Granted? {
        V.CleanupReturns(s, t, env, View());
      }
    }

    /** Release one slot and dispatch the next queued request: the slot is back, how long it was held is
        sampled in its lane, and whoever waits is granted a slot as far as there is room. */
    method Release(t: R.Ticket, env: Env)
      requires t in futures && futures[t].caller == Holding && futures[t].fut.Granted?
      modifies this
      ensures View() == Step(old(View()), LimiterState.Release(t, env))
      ensures I.Inv(old(View())) ==> V.Released(old(View()), View(), t, old(futures[t]).fut, env.clock)
    {
      ReturnSlot(t, true, env.clock);
      TryDispatch(env);
      SlotIsBack(old(View()), t, env);
    }

    lemma SlotIsBack(s: State, t: R.Ticket, env: Env)
      requires IsWaiter(s, t, Holding) && View() == Step(s, LimiterState.Release(t, env))
      ensures I.Inv(s) ==> V.Released(s, View(), t, s.waiters[t].fut, env.clock)
    {
      if I.Inv(s) {
        V.ReleaseReturns(s, t, env, View());
      }
    }
  }
}
