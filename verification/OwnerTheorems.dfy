/**
 What the persistence owner guarantees over every interleaving of loop steps, worker
 completions, timeouts and cancellations.
 */
module OwnerTheorems {
  import opened Common
  import opened Ledger
  import opened LedgerCodec
  import opened LedgerPools
  import opened OwnerState
  import opened OwnerPermits
  import opened OwnerLedger
  import D = LedgerDurability
  import H = LedgerHistory

  // --------------------------------------------------------------------- permits

  lemma OpenLater(s: State, kind: Kind, job: Job, ok: bool, i: nat)
    requires i < |s.ops| && job.op == |s.ops|
    ensures i < |Open(s, kind, job, ok).ops| && Open(s, kind, job, ok).ops[i] == s.ops[i]
  {
  }

  lemma RollBackOther(s: State, i: nat, ok: bool, j: nat)
    requires j < |s.ops| && (j == i ==> !s.ops[j].phase.RollingBack?)
    ensures j < |RollBackStep(s, i, ok).ops| && RollBackStep(s, i, ok).ops[j] == s.ops[j]
  {
    if RollBackStep(s, i, ok) != s && s.ops[i].result.value.Granted? {
      RollBackOps(s, i, s.ops[i].result.value.lease, ok, RollBackStep(s, i, ok));
    }
  }

  lemma TakeOther(s: State, i: nat)
    requires JobsFit(s.ops, Work(s)) && i < |s.ops| && s.ops[i].result.Some?
    ensures i < |TakeStep(s).ops| && TakeStep(s).ops[i] == s.ops[i]
  {
    if s.running.None? && s.queue != [] {
      assert Work(s)[0] == s.queue[0];
    }
  }

  lemma FinishOther(c: Config, s: State, now: real, id: string, o: Outcome, readable: bool, i: nat)
    requires JobsFit(s.ops, Work(s)) && i < |s.ops| && s.ops[i].result.Some?
    ensures var s' := FinishStep(c, s, now, id, o, readable); i < |s'.ops| && s'.ops[i] == s.ops[i]
  {
    if s.running.Some? {
      assert Work(s)[0] == s.running.value;
      ActKeeps(c, s, s.running.value, now, id, o, readable);
    }
  }

  lemma MoveOther(s: State, j: nat, phase: Phase, i: nat)
    requires i < |s.ops| && i != j
    ensures |Move(s, j, phase).ops| == |s.ops| && Move(s, j, phase).ops[i] == s.ops[i]
  {
  }

  lemma ResumeOther(s: State, j: nat, i: nat)
    requires i < |s.ops| && !Holding(s.ops[i])
    ensures |ResumeStep(s, j).ops| == |s.ops| && ResumeStep(s, j).ops[i] == s.ops[i]
  {
    if ResumeStep(s, j) != s {
      match s.ops[j].result.value
      case Granted(_) => MoveOther(s, j, Active, i);
      case Refused => MoveOther(s, j, Done, i);
      case _ => MoveOther(s, j, RollingBack, i);
    }
  }

  lemma MoverOther(c: Config, s: State, e: Event, i: nat)
    requires e.Resume? || e.Abandon? || e.Handoff? || e.Exit? || e.RolledBack? || e.OperationDone?
    requires i < |s.ops| && !Holding(s.ops[i])
    ensures i < |Step(c, s, e).ops| && Step(c, s, e).ops[i] == s.ops[i]
  {
    match e
    case Resume(j) => ResumeOther(s, j, i);
    case Handoff(j, now) => if MayHandoff(s, j, now) { MoveOther(s, j, Sent, i); }
    case RolledBack(j) => if RolledBackStep(s, j) != s { MoveOther(s, j, Done, i); }
    case OperationDone(j) => if OperationDoneStep(s, j) != s { MoveOther(s, j, Done, i); }
    case Abandon(j) => if AbandonStep(s, j) != s { MoveOther(s, j, RollingBack, i); }
    case Exit(j) => if ExitStep(s, j) != s { MoveOther(s, j, RollingBack, i); }
  }

  /** An operation that gave its permit back never changes again, so it never gives one back twice. */
  lemma ReleasedForGood(c: Config, s: State, e: Event, i: nat)
    requires Inv(c, s) && i < |s.ops| && !Holding(s.ops[i])
    ensures i < |Step(c, s, e).ops| && Step(c, s, e).ops[i] == s.ops[i]
  {
    assert OpOk(s.ops[i]);
    ReleasedStep(c, s, e, i);
  }

  /** This operation is as it was. */
  predicate OpKept(s: State, s': State, i: nat) {
    i < |s.ops| && i < |s'.ops| && s'.ops[i] == s.ops[i]
  }

  lemma StartOther(c: Config, s: State, ok: bool, i: nat)
    requires i < |s.ops|
    ensures OpKept(s, StartStep(c, s, ok), i)
  {
    OpenLater(s.(started := Some(|s.ops|)), Start, Load(|s.ops|), ok, i);
  }

  lemma ReserveOther(c: Config, s: State, key: Key, input: int, output: int, ok: bool, i: nat)
    requires i < |s.ops|
    ensures OpKept(s, ReserveStep(c, s, key, input, output, ok), i)
  {
    OpenLater(s, Reserve(key, input, output), Debit(|s.ops|, key, input, output), ok, i);
  }

  lemma SnapshotOther(c: Config, s: State, key: Key, ok: bool, i: nat)
    requires i < |s.ops|
    ensures OpKept(s, SnapshotStep(c, s, key, ok), i)
  {
    OpenLater(s, Snapshot(key), Count(|s.ops|, key), ok, i);
  }

  lemma ReleasedStep(c: Config, s: State, e: Event, i: nat)
    requires JobsFit(s.ops, Work(s)) && i < |s.ops| && !Holding(s.ops[i]) && s.ops[i].result.Some?
    ensures OpKept(s, Step(c, s, e), i)
  {
    match e
    case StartCall(ok) => StartOther(c, s, ok, i);
    case ReserveCall(key, input, output, ok) => ReserveOther(c, s, key, input, output, ok, i);
    case SnapshotCall(key, ok) => SnapshotOther(c, s, key, ok, i);
    case RollBack(j, ok) => RollBackOther(s, j, ok, i);
    case Take => TakeOther(s, i);
    case Finish(now, id, o, readable) => FinishOther(c, s, now, id, o, readable, i);
    case StartReturns =>
    case Close =>
    case Drain =>
    case _ => MoverOther(c, s, e, i);
  }

  /** Main result: on every path the counter is exactly the number of operations that have not
      given their permit back, within its bound; the idle event says when it is zero. */
  lemma PermitsAreExact(c: Config, nodes: map<Key, D.Node>, es: seq<Event>)
    requires Unloaded(c, nodes) && Legal(c, Initial(nodes), es)
    ensures var s := Run(c, Initial(nodes), es);
            s.pending == Holders(s.ops) && 0 <= s.pending <= c.maxPending && (s.idle <==> Holders(s.ops) == 0)
  {
    ReachableInv(c, nodes, es);
  }

  lemma {:induction false} HoldersPositive(ops: seq<Op>, i: nat)
    requires i < |ops| && Holding(ops[i])
    ensures Holders(ops) > 0
  {
    if i > 0 {
      HoldersPositive(ops[1..], i - 1);
    }
  }

  /** A job outstanding is somebody's permit. */
  lemma WorkIsHeld(ops: seq<Op>, work: seq<Job>)
    requires JobsFit(ops, work) && work != []
    ensures Holders(ops) > 0
  {
    assert Fits(ops[work[0].op], work[0]);
    HoldersPositive(ops, work[0].op);
  }

  lemma NoWorkLeft(s: State)
    requires JobsFit(s.ops, Work(s)) && Books(s) && s.pending == 0
    ensures Work(s) == [] && s.running.None? && s.queue == []
    ensures forall i :: 0 <= i < |s.ops| ==> !Holding(s.ops[i])
  {
    if Work(s) != [] {
      WorkIsHeld(s.ops, Work(s));
    }
    HoldersZero(s.ops);
  }

  /** Main result: once the drain has completed, every operation has given its permit back, no
      job is queued or running, and nothing that happens later touches an operation, a pool or
      a file: custody of the files can be handed on. */
  lemma DrainIsFinal(c: Config, s: State, e: Event)
    requires Inv(c, s) && s.drained
    ensures Holders(s.ops) == 0 && Work(s) == []
    ensures Step(c, s, e) == s
  {
    NoWorkLeft(s);
    RestedStep(c, s, e);
  }

  lemma RestedStep(c: Config, s: State, e: Event)
    requires s.drained && s.closing && s.running.None? && s.queue == []
    requires forall i :: 0 <= i < |s.ops| ==> !Holding(s.ops[i])
    ensures Step(c, s, e) == s
  {
    match e
    case RollBack(j, ok) =>
    case Resume(j) =>
    case Take =>
    case Finish(_, _, _, _) =>
    case _ =>
  }

  /** The loop step that carries an answered operation on. */
  function Onward(op: Op, i: nat): Event {
    if !op.kind.Reserve? then OperationDone(i)
    else match op.phase
      case RollingBack => RollBack(i, true)
      case Cancelling(_) => RolledBack(i)
      case _ => Resume(i)
  }

  /** Main result: nothing is ever stuck.  An operation that holds a permit is in its caller's
      hands, or has a job that the worker has yet to answer, or has an answer that the loop can
      act on at once, faulted and closing owners included. */
  lemma NoneStuck(c: Config, s: State, i: nat)
    requires Inv(c, s) && i < |s.ops| && Holding(s.ops[i]) && !s.ops[i].phase.Active?
    ensures s.ops[i].result.None? ==> Served(Work(s), i)
    ensures s.ops[i].result.Some? ==> Moved(s, Step(c, s, Onward(s.ops[i], i)), i)
  {
    assert OpOk(s.ops[i]);
    if s.ops[i].result.Some? {
      OnwardMoves(c, s, i);
    }
  }

  /** The step gives operation `i` another phase. */
  predicate Moved(s: State, s': State, i: nat) {
    i < |s.ops| && i < |s'.ops| && s'.ops[i].phase != s.ops[i].phase
  }

  lemma MoveMoves(s: State, i: nat, phase: Phase)
    requires i < |s.ops| && s.ops[i].phase != phase
    ensures Moved(s, Move(s, i, phase), i) && Moved(s, Release(Move(s, i, phase)), i)
  {
  }

  lemma ResumeMoves(s: State, i: nat)
    requires i < |s.ops| && s.ops[i].kind.Reserve? && s.ops[i].phase.Waiting? && s.ops[i].result.Some?
    ensures Moved(s, ResumeStep(s, i), i)
  {
    MoveMoves(s, i, Active);
    MoveMoves(s, i, Done);
    MoveMoves(s, i, RollingBack);
  }

  lemma RollBackMoves(s: State, i: nat, ok: bool)
    requires i < |s.ops| && s.ops[i].phase.RollingBack? && s.ops[i].result.Some?
    ensures Moved(s, RollBackStep(s, i, ok), i)
  {
    if s.ops[i].result.value.Granted? {
      RollBackOps(s, i, s.ops[i].result.value.lease, ok, RollBackStep(s, i, ok));
    } else {
      MoveMoves(s, i, Done);
    }
  }

  lemma OnwardMoves(c: Config, s: State, i: nat)
    requires i < |s.ops| && OpOk(s.ops[i]) && Holding(s.ops[i]) && !s.ops[i].phase.Active? && s.ops[i].result.Some?
    ensures Moved(s, Step(c, s, Onward(s.ops[i], i)), i)
  {
    if !s.ops[i].kind.Reserve? {
      MoveMoves(s, i, Done);
    } else if s.ops[i].phase.RollingBack? {
      RollBackMoves(s, i, true);
    } else if s.ops[i].phase.Cancelling? {
      MoveMoves(s, i, Done);
    } else {
      ResumeMoves(s, i);
    }
  }

  // ---------------------------------------------------------------------- faults

  lemma OpenPools(s: State, kind: Kind, job: Job, ok: bool)
    ensures Open(s, kind, job, ok).nodes == s.nodes && Open(s, kind, job, ok).running == s.running
    ensures s.fault ==> Open(s, kind, job, ok).fault
  {
  }

  lemma RollBackPools(s: State, i: nat, ok: bool)
    ensures RollBackStep(s, i, ok).nodes == s.nodes && RollBackStep(s, i, ok).running == s.running
    ensures s.fault ==> RollBackStep(s, i, ok).fault
  {
    if RollBackStep(s, i, ok) != s {
      if s.ops[i].result.value.Granted? {
        SubmitPools(s.(ops := s.ops[i := s.ops[i].(phase := Cancelling(s.ops[i].result.value.lease), result := None)]),
                    Cancel(i, s.ops[i].result.value.lease), ok);
      } else {
        MovePools(s, i, Done);
      }
    }
  }

  lemma SubmitPools(s: State, job: Job, ok: bool)
    ensures Submit(s, job, ok).nodes == s.nodes && Submit(s, job, ok).running == s.running
    ensures s.fault ==> Submit(s, job, ok).fault
  {
  }

  predicate PoolsKept(s: State, s': State) {
    s'.nodes == s.nodes && s'.running == s.running && s'.fault == s.fault
  }

  lemma MovePools(s: State, i: nat, phase: Phase)
    ensures PoolsKept(s, Move(s, i, phase)) && PoolsKept(s, Release(Move(s, i, phase)))
  {
  }

  lemma MoverPools(c: Config, s: State, e: Event)
    requires e.Resume? || e.Abandon? || e.Handoff? || e.Exit? || e.RolledBack? || e.OperationDone?
    ensures PoolsKept(s, Step(c, s, e))
  {
    match e
    case Resume(i) => MovePools(s, i, Active); MovePools(s, i, Done); MovePools(s, i, RollingBack);
    case Handoff(i, _) => MovePools(s, i, Sent);
    case RolledBack(i) => MovePools(s, i, Done);
    case OperationDone(i) => MovePools(s, i, Done);
    case Abandon(i) => MovePools(s, i, RollingBack);
    case Exit(i) => MovePools(s, i, RollingBack);
  }

  lemma ClaimPools(c: Config, s: State, e: Event)
    requires e.StartCall? || e.ReserveCall? || e.SnapshotCall?
    ensures var s' := Step(c, s, e); s'.nodes == s.nodes && s'.running == s.running && (s.fault ==> s'.fault)
  {
    match e
    case StartCall(ok) => OpenPools(s.(started := Some(|s.ops|)), Start, Load(|s.ops|), ok);
    case ReserveCall(key, input, output, ok) =>
      OpenPools(s, Reserve(key, input, output), Debit(|s.ops|, key, input, output), ok);
    case SnapshotCall(key, ok) => OpenPools(s, Snapshot(key), Count(|s.ops|, key), ok);
  }

  lemma TakePools(s: State)
    requires s.fault
    ensures TakeStep(s).nodes == s.nodes && TakeStep(s).running == s.running && TakeStep(s).fault
  {
  }

  lemma FinishPools(c: Config, s: State, now: real, id: string, o: Outcome, readable: bool, s': State)
    requires s' == FinishStep(c, s, now, id, o, readable)
    ensures s'.running.None? && (s.fault ==> s'.fault) && (s.running.None? ==> s' == s)
  {
    if s.running.Some? {
      ActKeeps(c, s, s.running.value, now, id, o, readable);
    }
  }

  /** A fault is for good, and past it the worker begins nothing. */
  lemma FaultedStep(c: Config, s: State, e: Event)
    requires s.fault
    ensures var s' := Step(c, s, e);
            && s'.fault
            && (s'.running == s.running || s'.running.None?)
            && (s.running.None? ==> s'.nodes == s.nodes)
  {
    match e
    case StartCall(_) => ClaimPools(c, s, e);
    case ReserveCall(_, _, _, _) => ClaimPools(c, s, e);
    case SnapshotCall(_, _) => ClaimPools(c, s, e);
    case RollBack(j, ok) => RollBackPools(s, j, ok);
    case StartReturns =>
    case Close =>
    case Drain =>
    case Take => TakePools(s);
    case Finish(now, id, o, readable) => FinishPools(c, s, now, id, o, readable, Step(c, s, e));
    case _ => MoverPools(c, s, e);
  }

  /** Main result: after the first fault no queued action runs.  Whatever still happens, the
      pools and files stay as the action that was running leaves them, and nothing is handed
      off. */
  lemma {:induction false} FaultBarrier(c: Config, s: State, es: seq<Event>, i: nat, now: real)
    requires s.fault && s.running.None?
    ensures var s' := Run(c, s, es);
            s'.fault && s'.running.None? && s'.nodes == s.nodes && !MayHandoff(s', i, now) && !Claimable(c, s', false)
  {
    if es != [] {
      FaultBarrier(c, s, es[..|es| - 1], i, now);
      FaultedStep(c, Run(c, s, es[..|es| - 1]), es[|es| - 1]);
    }
  }

  // --------------------------------------------------------------------- handoffs

  /** The lane of this lease carries its entry with the full reservation, unsettled. */
  ghost predicate InFull(p: Pool, lease: Lease) {
    lease.key in p.lanes && Ours(p.lanes[lease.key], lease) && EntryOf(lease) in p.lanes[lease.key].entries
  }

  /** The lease's debt stands in memory and in the file, in full. */
  ghost predicate Stands(nodes: map<Key, D.Node>, lease: Lease) {
    && lease.key in nodes && InFull(nodes[lease.key].mem, lease)
    && D.OnDisk(nodes[lease.key].disk).Some? && InFull(D.OnDisk(nodes[lease.key].disk).value, lease)
  }

  lemma CarriedInFull(p: Pool, lease: Lease)
    requires D.Carries(p, lease, true, {})
    ensures InFull(p, lease)
  {
    D.NeverSettledInFull(p.lanes[lease.key].entries, lease, {});
  }

  /** While an operation answers for a lease that no rollback has touched, its debt stands. */
  lemma LeaseStands(c: Config, s: State, i: nat)
    requires Inv(c, s) && i < |s.ops| && LeaseOf(s.ops[i]).Some? && !CancelRan(s.ops[i])
    requires var lease := LeaseOf(s.ops[i]).value;
             lease.key in s.nodes && s.nodes[lease.key].clock - lease.at < WINDOW_S
    ensures Stands(s.nodes, LeaseOf(s.ops[i]).value)
  {
    var lease := LeaseOf(s.ops[i]).value;
    assert Backed(s.nodes, lease, CancelRan(s.ops[i]));
    var n := s.nodes[lease.key];
    HolderLoaded(s, i);
    assert NodeOk(lease.key, n);
    var j :| 0 <= j < |n.acked| && n.acked[j] == lease;
    assert D.Carries(D.OnDisk(n.disk).value, n.acked[j], D.Standing(n, n.acked[j]), n.settlements);
    CarriedInFull(D.OnDisk(n.disk).value, lease);
    CarriedInFull(n.mem, lease);
  }

  lemma HolderLoaded(s: State, i: nat)
    requires Shape(s) && i < |s.ops| && LeaseOf(s.ops[i]).Some?
    ensures s.loaded
  {
    assert OpOk(s.ops[i]);
  }

  /** This scope's ledger has read no later time. */
  predicate ScopeClockAt(s: State, key: Key, now: real) {
    key in s.nodes ==> s.nodes[key].clock <= now
  }

  lemma SendableStands(c: Config, s: State, i: nat, now: real)
    requires Inv(c, s) && MayHandoff(s, i, now) && ScopeClockAt(s, s.ops[i].result.value.lease.key, now)
    ensures Stands(s.nodes, s.ops[i].result.value.lease)
  {
    assert Backed(s.nodes, LeaseOf(s.ops[i]).value, CancelRan(s.ops[i]));
    LeaseStands(c, s, i);
  }

  /** Main result: at a successful handoff the lease's debit is already saved, whatever raced
      with it.  The clocks read by the scope's worker and by the handoff are taken not to disagree. */
  lemma HandoffIsDurable(c: Config, nodes: map<Key, D.Node>, es: seq<Event>, i: nat, now: real)
    requires Unloaded(c, nodes) && Legal(c, Initial(nodes), es)
    requires var s := Run(c, Initial(nodes), es);
             MayHandoff(s, i, now) && ScopeClockAt(s, s.ops[i].result.value.lease.key, now)
    ensures var s := Run(c, Initial(nodes), es); Stands(s.nodes, s.ops[i].result.value.lease)
  {
    ReachableInv(c, nodes, es);
    SendableStands(c, Run(c, Initial(nodes), es), i, now);
  }

  lemma {:induction false} LaterInv(c: Config, s: State, es: seq<Event>)
    requires Inv(c, s) && Legal(c, s, es)
    ensures Inv(c, Run(c, s, es))
  {
    if es != [] {
      LaterInv(c, s, es[..|es| - 1]);
      StepInv(c, Run(c, s, es[..|es| - 1]), es[|es| - 1]);
    }
  }

  lemma {:induction false} SentForever(c: Config, s: State, es: seq<Event>, i: nat)
    requires Inv(c, s) && Legal(c, s, es) && i < |s.ops| && s.ops[i].phase.Sent?
    ensures i < |Run(c, s, es).ops| && Run(c, s, es).ops[i] == s.ops[i]
  {
    if es != [] {
      var fs := es[..|es| - 1];
      SentForever(c, s, fs, i);
      LaterInv(c, s, fs);
      ReleasedForGood(c, Run(c, s, fs), es[|es| - 1], i);
    }
  }

  lemma SentStands(c: Config, s: State, i: nat, lease: Lease)
    requires Inv(c, s) && i < |s.ops| && s.ops[i].phase.Sent? && s.ops[i].result == Some(Granted(lease))
    ensures lease.key in s.nodes && !Asked(s.nodes[lease.key], lease)
    ensures s.nodes[lease.key].clock - lease.at < WINDOW_S ==> Stands(s.nodes, lease)
  {
    assert LeaseOf(s.ops[i]) == Some(lease);
    assert Backed(s.nodes, lease, CancelRan(s.ops[i]));
    if s.nodes[lease.key].clock - lease.at < WINDOW_S {
      LeaseStands(c, s, i);
    }
  }

  /** Main result: no later step cancels a lease that was handed off.  Its debt stands in
      memory and in the file for as long as its window is open. */
  lemma SentIsNeverCancelled(c: Config, s: State, es: seq<Event>, i: nat, lease: Lease)
    requires Inv(c, s) && Legal(c, s, es)
    requires i < |s.ops| && s.ops[i].phase.Sent? && s.ops[i].result == Some(Granted(lease))
    ensures var s' := Run(c, s, es);
            && lease.key in s'.nodes && !Asked(s'.nodes[lease.key], lease)
            && (s'.nodes[lease.key].clock - lease.at < WINDOW_S ==> Stands(s'.nodes, lease))
  {
    LaterInv(c, s, es);
    SentForever(c, s, es, i);
    SentStands(c, Run(c, s, es), i, lease);
  }
}
