/**
 Permits and jobs of the persistence owner.  In every reachable state the pending counter is
 the number of operations that still hold a permit, and every operation that awaits the
 worker has exactly one job there.
 */
module OwnerPermits {
  import opened Common
  import opened Ledger
  import opened LedgerPools
  import opened OwnerState
  import D = LedgerDurability

  predicate Holding(op: Op) {
    !op.phase.Sent? && !op.phase.Done?
  }

  /** Operations that hold a permit. */
  function Holders(ops: seq<Op>): nat {
    if ops == [] then 0 else (if Holding(ops[0]) then 1 else 0) + Holders(ops[1..])
  }

  lemma {:induction false} HoldersUpdate(ops: seq<Op>, i: nat, op: Op)
    requires i < |ops|
    ensures Holders(ops[i := op]) == Holders(ops) - (if Holding(ops[i]) then 1 else 0) + (if Holding(op) then 1 else 0)
  {
    if i == 0 {
      assert ops[0 := op][1..] == ops[1..];
    } else {
      assert ops[i := op][1..] == ops[1..][i - 1 := op];
      HoldersUpdate(ops[1..], i - 1, op);
    }
  }

  lemma {:induction false} HoldersAppend(ops: seq<Op>, op: Op)
    ensures Holders(ops + [op]) == Holders(ops) + (if Holding(op) then 1 else 0)
  {
    if ops == [] {
      assert ops + [op] == [op];
    } else {
      assert (ops + [op])[1..] == ops[1..] + [op];
      HoldersAppend(ops[1..], op);
    }
  }

  lemma {:induction false} HoldersZero(ops: seq<Op>)
    requires Holders(ops) == 0
    ensures forall i :: 0 <= i < |ops| ==> !Holding(ops[i])
  {
    if ops != [] {
      HoldersZero(ops[1..]);
      forall i | 0 <= i < |ops| ensures !Holding(ops[i]) {
        assert i > 0 ==> ops[i] == ops[1..][i - 1];
      }
    }
  }

  ghost predicate Books(s: State) {
    s.pending == Holders(s.ops) && (s.idle <==> s.pending == 0)
  }

  /** The jobs outstanding: at the worker, then queued. */
  function Work(s: State): seq<Job> {
    (if s.running.Some? then [s.running.value] else []) + s.queue
  }

  /** This operation is waiting for this job. */
  predicate Fits(op: Op, job: Job) {
    op.result.None? && match job
      case Load(_) => op.kind.Start? && op.phase.Waiting?
      case Debit(_, key, input, output) => op.kind == Reserve(key, input, output) && (op.phase.Waiting? || op.phase.RollingBack?)
      case Cancel(_, lease) => op.kind.Reserve? && op.phase == Cancelling(lease)
      case Count(_, key) => op.kind == Snapshot(key) && op.phase.Waiting?
  }

  ghost predicate Served(work: seq<Job>, i: nat) {
    exists j :: 0 <= j < |work| && work[j].op == i
  }

  ghost predicate JobsFit(ops: seq<Op>, work: seq<Job>) {
    && (forall j :: 0 <= j < |work| ==> work[j].op < |ops| && Fits(ops[work[j].op], work[j]))
    && (forall j, k :: 0 <= j < k < |work| ==> work[j].op != work[k].op)
  }

  /** No operation waits for a job that is not coming. */
  ghost predicate NoneLost(ops: seq<Op>, work: seq<Job>) {
    forall i :: 0 <= i < |ops| && Holding(ops[i]) && ops[i].result.None? ==> Served(work, i)
  }

  /** Phases and answers that go together. */
  predicate OpOk(op: Op) {
    && (op.result.Some? && op.result.value.Granted? ==> op.kind.Reserve? && op.result.value.lease.key == op.kind.key)
    && (op.phase.Active? || op.phase.Sent? ==> op.result.Some? && op.result.value.Granted?)
    && (op.phase.RollingBack? ==> op.kind.Reserve?)
    && (op.phase.Cancelling? ==> op.kind.Reserve? && op.phase.lease.key == op.kind.key
                                 && (op.result.Some? ==> !op.result.value.Granted?))
    && (op.phase.Done? ==> op.result.Some?)
  }

  ghost predicate OpsOk(ops: seq<Op>) {
    forall i :: 0 <= i < |ops| ==> OpOk(ops[i])
  }

  /** The only start operation is the remembered one; everything else follows the load. */
  ghost predicate StartOk(s: State) {
    && (forall i :: 0 <= i < |s.ops| && s.ops[i].kind.Start? ==> s.started == Some(i))
    && (s.started.Some? ==> s.started.value < |s.ops| && s.ops[s.started.value].kind.Start?)
    && (s.loaded <==> s.started.Some? && s.started.value < |s.ops| && s.ops[s.started.value].result == Some(Finished))
    && (forall i :: 0 <= i < |s.ops| && !s.ops[i].kind.Start? ==> s.loaded)
    && (s.ready ==> s.loaded)
  }

  ghost predicate Shape(s: State) {
    Books(s) && JobsFit(s.ops, Work(s)) && NoneLost(s.ops, Work(s)) && OpsOk(s.ops) && StartOk(s)
  }

  ghost predicate CloseOk(s: State) {
    s.drained ==> s.closing && s.pending == 0
  }

  // ------------------------------------------------------------- primitive steps

  /** Answers of jobs: what the worker may say to which job. */
  predicate Answers(job: Job, r: Reply) {
    match r
    case Granted(lease) => job.Debit? && lease.key == job.key
    case _ => true
  }

  lemma BooksUpdate(s: State, s': State, i: nat, op: Op)
    requires Books(s) && i < |s.ops| && Holding(s.ops[i]) == Holding(op)
    requires s'.ops == s.ops[i := op] && s'.pending == s.pending && s'.idle == s.idle
    ensures Books(s')
  {
    HoldersUpdate(s.ops, i, op);
  }

  lemma BooksRelease(s: State, i: nat, phase: Phase)
    requires Books(s) && i < |s.ops| && Holding(s.ops[i]) && (phase.Sent? || phase.Done?)
    ensures Books(Release(Move(s, i, phase)))
  {
    HoldersUpdate(s.ops, i, s.ops[i].(phase := phase));
  }

  /** The answer to the first job outstanding. */
  lemma AnswerJobs(ops: seq<Op>, work: seq<Job>, r: Reply, ops': seq<Op>)
    requires work != [] && JobsFit(ops, work) && NoneLost(ops, work) && OpsOk(ops) && Answers(work[0], r)
    requires ops' == ops[work[0].op := ops[work[0].op].(result := Some(r))]
    ensures JobsFit(ops', work[1..]) && NoneLost(ops', work[1..]) && OpsOk(ops')
  {
    forall i | 0 <= i < |ops'| && Holding(ops'[i]) && ops'[i].result.None? ensures Served(work[1..], i) {
      assert Served(work, i);
      var j :| 0 <= j < |work| && work[j].op == i;
      assert work[1..][j - 1].op == i;
    }
  }

  lemma AnswerStart(s: State, s': State, i: nat, r: Reply)
    requires StartOk(s) && i < |s.ops| && s.ops[i].result.None?
    requires s'.ops == s.ops[i := s.ops[i].(result := Some(r))] && s'.started == s.started && s'.ready == s.ready
    requires s'.loaded == (s.loaded || (s.ops[i].kind.Start? && r.Finished?))
    ensures StartOk(s')
  {
  }

  /** The load's outcome is not touched by other changes. */
  lemma StartUpdate(s: State, s': State, i: nat, op: Op)
    requires StartOk(s) && i < |s.ops| && op.kind == s.ops[i].kind
    requires op.result == Some(Finished) <==> s.ops[i].result == Some(Finished)
    requires s'.ops == s.ops[i := op] && s'.started == s.started && s'.ready == s.ready && s'.loaded == s.loaded
    ensures StartOk(s')
  {
    forall j | 0 <= j < |s'.ops| ensures s'.ops[j].kind == s.ops[j].kind {
    }
  }

  /** A step on the loop that leaves the outstanding jobs alone. */
  lemma MoveJobs(ops: seq<Op>, work: seq<Job>, i: nat, phase: Phase, ops': seq<Op>)
    requires JobsFit(ops, work) && NoneLost(ops, work) && OpsOk(ops) && i < |ops|
    requires ops' == ops[i := ops[i].(phase := phase)] && OpOk(ops'[i])
    requires ops[i].result.Some? || (ops[i].phase.Waiting? && phase.RollingBack?)
    ensures JobsFit(ops', work) && NoneLost(ops', work) && OpsOk(ops')
  {
  }

  lemma MoveShape(s: State, i: nat, phase: Phase)
    requires Shape(s) && i < |s.ops| && Holding(s.ops[i]) && OpOk(s.ops[i].(phase := phase))
    requires s.ops[i].result.Some? || (s.ops[i].phase.Waiting? && phase.RollingBack?)
    requires !phase.Sent? && !phase.Done?
    ensures Shape(Move(s, i, phase))
  {
    var s' := Move(s, i, phase);
    MoveJobs(s.ops, Work(s), i, phase, s'.ops);
    StartUpdate(s, s', i, s'.ops[i]);
    BooksUpdate(s, s', i, s'.ops[i]);
  }

  lemma ReleaseShape(s: State, i: nat, phase: Phase)
    requires Shape(s) && i < |s.ops| && Holding(s.ops[i]) && OpOk(s.ops[i].(phase := phase))
    requires s.ops[i].result.Some? && (phase.Sent? || phase.Done?)
    ensures Shape(Release(Move(s, i, phase)))
  {
    var s' := Release(Move(s, i, phase));
    MoveJobs(s.ops, Work(s), i, phase, s'.ops);
    StartUpdate(s, s', i, s'.ops[i]);
    BooksRelease(s, i, phase);
  }

  lemma AppendJob(ops: seq<Op>, work: seq<Job>, job: Job, ops': seq<Op>)
    requires JobsFit(ops, work) && NoneLost(ops, work) && OpsOk(ops)
    requires |ops| <= |ops'| && job.op < |ops'| <= |ops| + 1
    requires forall i :: 0 <= i < |ops'| && i != job.op ==> i < |ops| && ops'[i] == ops[i]
    requires forall j :: 0 <= j < |work| ==> work[j].op != job.op
    requires Fits(ops'[job.op], job) && OpOk(ops'[job.op])
    ensures JobsFit(ops', work + [job]) && NoneLost(ops', work + [job]) && OpsOk(ops')
  {
    var work' := work + [job];
    forall i | 0 <= i < |ops'| && Holding(ops'[i]) && ops'[i].result.None? ensures Served(work', i) {
      if i == job.op {
        assert work'[|work|].op == i;
      } else {
        assert Served(work, i);
        var j :| 0 <= j < |work| && work[j].op == i;
        assert work'[j].op == i;
      }
    }
  }

  /** Queueing failed: the operation has its answer and no job. */
  lemma FailedJob(ops: seq<Op>, work: seq<Job>, i: nat, ops': seq<Op>)
    requires JobsFit(ops, work) && NoneLost(ops, work) && OpsOk(ops)
    requires |ops| <= |ops'| <= |ops| + 1 && i < |ops'|
    requires forall j :: 0 <= j < |ops'| && j != i ==> j < |ops| && ops'[j] == ops[j]
    requires forall j :: 0 <= j < |work| ==> work[j].op != i
    requires OpOk(ops'[i]) && ops'[i].result.Some?
    ensures JobsFit(ops', work) && NoneLost(ops', work) && OpsOk(ops')
  {
    forall k | 0 <= k < |ops'| && Holding(ops'[k]) && ops'[k].result.None? ensures Served(work, k) {
      assert k < |ops| && ops'[k] == ops[k];
    }
  }

  lemma OpenBooks(s: State, kind: Kind, job: Job, ok: bool)
    requires Books(s) && job.op == |s.ops|
    ensures Books(Open(s, kind, job, ok))
  {
    HoldersAppend(s.ops, Op(kind, Waiting, None));
    HoldersAppend(s.ops, Op(kind, Waiting, Some(Failed)));
    assert (s.ops + [Op(kind, Waiting, None)])[|s.ops| := Op(kind, Waiting, Some(Failed))] == s.ops + [Op(kind, Waiting, Some(Failed))];
  }

  lemma OpenJobs(s: State, kind: Kind, job: Job, ok: bool)
    requires JobsFit(s.ops, Work(s)) && NoneLost(s.ops, Work(s)) && OpsOk(s.ops)
    requires job.op == |s.ops| && Fits(Op(kind, Waiting, None), job)
    ensures var s' := Open(s, kind, job, ok); JobsFit(s'.ops, Work(s')) && NoneLost(s'.ops, Work(s')) && OpsOk(s'.ops)
  {
    var s' := Open(s, kind, job, ok);
    if ok {
      assert Work(s') == Work(s) + [job];
      AppendJob(s.ops, Work(s), job, s'.ops);
    } else {
      FailedJob(s.ops, Work(s), job.op, s'.ops);
    }
  }

  lemma OpenShape(s: State, kind: Kind, job: Job, ok: bool)
    requires Shape(s) && job.op == |s.ops| && Fits(Op(kind, Waiting, None), job) && !kind.Start? && s.loaded
    ensures Shape(Open(s, kind, job, ok))
  {
    OpenBooks(s, kind, job, ok);
    OpenJobs(s, kind, job, ok);
  }

  lemma StartShape(c: Config, s: State, ok: bool)
    requires Shape(s)
    ensures Shape(StartStep(c, s, ok))
  {
    if s.started.None? && Claimable(c, s, false) {
      var s0 := s.(started := Some(|s.ops|));
      assert s.ops == [] by {
        assert forall i :: 0 <= i < |s.ops| ==> s.ops[i].kind.Start?;
      }
      OpenBooks(s0, Start, Load(|s.ops|), ok);
      OpenJobs(s0, Start, Load(|s.ops|), ok);
    }
  }

  lemma RollBackShape(s: State, i: nat, ok: bool)
    requires Shape(s)
    ensures Shape(RollBackStep(s, i, ok))
  {
    if i < |s.ops| && s.ops[i].phase.RollingBack? && s.ops[i].result.Some? {
      assert OpOk(s.ops[i]);
      if s.ops[i].result.value.Granted? {
        RollBackSubmit(s, i, s.ops[i].result.value.lease, ok);
      } else {
        ReleaseShape(s, i, Done);
      }
    }
  }

  lemma RollBackOps(s: State, i: nat, lease: Lease, ok: bool, s': State)
    requires i < |s.ops| && s.ops[i].phase.RollingBack? && s.ops[i].result == Some(Granted(lease))
    requires s' == RollBackStep(s, i, ok)
    ensures s'.ops == s.ops[i := s.ops[i].(phase := Cancelling(lease), result := if ok then None else Some(Failed))]
    ensures s' == s.(ops := s'.ops, queue := s'.queue, fault := s'.fault)
    ensures Work(s') == if ok then Work(s) + [Cancel(i, lease)] else Work(s)
  {
  }

  lemma RollBackSubmit(s: State, i: nat, lease: Lease, ok: bool)
    requires Shape(s) && i < |s.ops| && s.ops[i].phase.RollingBack? && s.ops[i].result == Some(Granted(lease))
    ensures Shape(RollBackStep(s, i, ok))
  {
    assert OpOk(s.ops[i]);
    var s' := RollBackStep(s, i, ok);
    RollBackOps(s, i, lease, ok, s');
    BooksUpdate(s, s', i, s'.ops[i]);
    StartUpdate(s, s', i, s'.ops[i]);
    if ok {
      AppendJob(s.ops, Work(s), Cancel(i, lease), s'.ops);
    } else {
      FailedJob(s.ops, Work(s), i, s'.ops);
    }
  }

  // ------------------------------------------------------------------ the worker

  lemma DebitAnswers(n: D.Node, b: Budgets, key: Key, input: int, output: int, now: real, id: string, o: Outcome)
    requires forall k :: k in n.mem.lanes ==> n.mem.lanes[k].key == k
    ensures var r := Debited(n, b, key, input, output, now, id, o).0; r.Granted? ==> r.lease.key == key
  {
  }

  ghost predicate LanesKeyed(nodes: map<Key, D.Node>) {
    forall k :: k in nodes ==> forall j :: j in nodes[k].mem.lanes ==> nodes[k].mem.lanes[j].key == j
  }

  lemma OnNodeAnswers(n: D.Node, b: Budgets, job: Job, now: real, id: string, o: Outcome)
    requires forall k :: k in n.mem.lanes ==> n.mem.lanes[k].key == k
    ensures Answers(job, OnNode(n, b, job, now, id, o).0)
  {
    if job.Debit? {
      DebitAnswers(n, b, job.key, job.input, job.output, now, id, o);
    }
  }

  lemma ActReplies(c: Config, s: State, job: Job, now: real, id: string, o: Outcome, readable: bool)
    requires LanesKeyed(s.nodes)
    ensures Answers(job, Act(c, s, job, now, id, o, readable).0)
  {
    if !job.Load? && KeyOf(job) in s.nodes && KeyOf(job) in c.scopes {
      OnNodeAnswers(s.nodes[KeyOf(job)], c.scopes[KeyOf(job)].budgets, job, now, id, o);
    }
  }

  /** Acting touches the nodes and the loaded flag only. */
  lemma ActFrame(c: Config, s: State, job: Job, now: real, id: string, o: Outcome, readable: bool)
    ensures var (r, s') := Act(c, s, job, now, id, o, readable);
            s' == s.(nodes := s'.nodes, loaded := s.loaded || (job.Load? && r.Finished?))
  {
  }

  /** A job refused at the fault barrier is answered like any other. */
  lemma RefuseShape(s: State, job: Job, s': State)
    requires Shape(s) && Work(s) != [] && Work(s)[0] == job && Work(s') == Work(s)[1..] && job.op < |s.ops|
    requires s'.ops == s.ops[job.op := s.ops[job.op].(result := Some(Failed))]
    requires s' == s.(ops := s'.ops, queue := s'.queue)
    ensures Shape(s')
  {
    assert Fits(s.ops[job.op], job);
    AnswerJobs(s.ops, Work(s), Failed, s'.ops);
    BooksUpdate(s, s', job.op, s'.ops[job.op]);
    AnswerStart(s, s', job.op, Failed);
  }

  lemma TakenShape(s: State, s': State)
    requires Shape(s) && s.running.None? && s.queue != [] && s' == s.(queue := s.queue[1..], running := Some(s.queue[0]))
    ensures Shape(s')
  {
    assert Work(s') == Work(s);
    SameWork(s, s');
  }

  lemma HeadOfWork(s: State, s': State)
    requires s.running.None? && s.queue != [] && s'.running.None? && s'.queue == s.queue[1..]
    ensures Work(s) != [] && Work(s)[0] == s.queue[0] && Work(s') == Work(s)[1..]
  {
    assert Work(s) == s.queue && Work(s') == s'.queue;
  }

  lemma RefusedShape(s: State, job: Job, s': State)
    requires Shape(s) && s.running.None? && s.queue != [] && job == s.queue[0] && job.op < |s.ops|
    requires s' == s.(ops := s.ops[job.op := s.ops[job.op].(result := Some(Failed))], queue := s.queue[1..])
    ensures Shape(s')
  {
    HeadOfWork(s, s');
    RefuseShape(s, job, s');
  }

  lemma TakeShape(s: State)
    requires Shape(s)
    ensures Shape(TakeStep(s))
  {
    if s.running.None? && s.queue != [] {
      if s.fault {
        assert Work(s)[0] == s.queue[0];
        RefusedShape(s, s.queue[0], TakeStep(s));
      } else {
        TakenShape(s, TakeStep(s));
      }
    }
  }

  lemma SameWork(s: State, s': State)
    requires Shape(s) && Work(s') == Work(s) && s' == s.(queue := s'.queue, running := s'.running)
    ensures Shape(s')
  {
  }

  lemma FinishShape(c: Config, s: State, now: real, id: string, o: Outcome, readable: bool)
    requires Shape(s) && LanesKeyed(s.nodes)
    ensures Shape(FinishStep(c, s, now, id, o, readable))
  {
    if s.running.Some? {
      var job := s.running.value;
      var (r, t) := Act(c, s, job, now, id, o, readable);
      ActFrame(c, s, job, now, id, o, readable);
      ActReplies(c, s, job, now, id, o, readable);
      var s' := FinishStep(c, s, now, id, o, readable);
      assert Work(s)[0] == job && Work(s)[1..] == Work(s');
      assert Fits(s.ops[job.op], job);
      AnswerJobs(s.ops, Work(s), r, s'.ops);
      BooksUpdate(s, s', job.op, s'.ops[job.op]);
      AnswerStart(s, s', job.op, r);
    }
  }

  lemma RefusedReserve(s: State, i: nat)
    requires Shape(s) && i < |s.ops| && s.ops[i].kind.Reserve? && s.ops[i].phase.Waiting? && s.ops[i].result == Some(Refused)
    ensures Shape(Release(Move(s, i, Done)))
  {
    assert OpOk(s.ops[i]);
    ReleaseShape(s, i, Done);
  }

  lemma AnsweredReserve(s: State, i: nat, phase: Phase)
    requires Shape(s) && i < |s.ops| && s.ops[i].kind.Reserve? && s.ops[i].phase.Waiting? && s.ops[i].result.Some?
    requires phase == if s.ops[i].result.value.Granted? then Active else RollingBack
    ensures Shape(Move(s, i, phase))
  {
    assert OpOk(s.ops[i]);
    MoveShape(s, i, phase);
  }

  lemma ResumeShape(s: State, i: nat)
    requires Shape(s)
    ensures Shape(ResumeStep(s, i))
  {
    if i < |s.ops| && s.ops[i].kind.Reserve? && s.ops[i].phase.Waiting? && s.ops[i].result.Some? {
      match s.ops[i].result.value
      case Granted(_) => AnsweredReserve(s, i, Active);
      case Refused => RefusedReserve(s, i);
      case _ => AnsweredReserve(s, i, RollingBack);
    }
  }

  lemma AbandonShape(s: State, i: nat)
    requires Shape(s)
    ensures Shape(AbandonStep(s, i))
  {
    if AbandonStep(s, i) != s {
      assert OpOk(s.ops[i]);
      MoveShape(s, i, RollingBack);
    }
  }

  lemma ExitShape(s: State, i: nat)
    requires Shape(s)
    ensures Shape(ExitStep(s, i))
  {
    if ExitStep(s, i) != s {
      assert OpOk(s.ops[i]);
      MoveShape(s, i, RollingBack);
    }
  }

  lemma HandoffShape(s: State, i: nat, now: real)
    requires Shape(s)
    ensures Shape(HandoffStep(s, i, now))
  {
    if MayHandoff(s, i, now) {
      assert OpOk(s.ops[i]);
      ReleaseShape(s, i, Sent);
    }
  }

  lemma RolledBackShape(s: State, i: nat)
    requires Shape(s)
    ensures Shape(RolledBackStep(s, i))
  {
    if RolledBackStep(s, i) != s {
      assert OpOk(s.ops[i]);
      ReleaseShape(s, i, Done);
    }
  }

  lemma OperationDoneShape(s: State, i: nat)
    requires Shape(s)
    ensures Shape(OperationDoneStep(s, i))
  {
    if OperationDoneStep(s, i) != s {
      ReleaseShape(s, i, Done);
    }
  }

  lemma ReserveShape(c: Config, s: State, key: Key, input: int, output: int, ok: bool)
    requires Shape(s)
    ensures Shape(ReserveStep(c, s, key, input, output, ok))
  {
    if ReserveStep(c, s, key, input, output, ok) != s {
      OpenShape(s, Reserve(key, input, output), Debit(|s.ops|, key, input, output), ok);
    }
  }

  lemma SnapshotShape(c: Config, s: State, key: Key, ok: bool)
    requires Shape(s)
    ensures Shape(SnapshotStep(c, s, key, ok))
  {
    if SnapshotStep(c, s, key, ok) != s {
      OpenShape(s, Snapshot(key), Count(|s.ops|, key), ok);
    }
  }

  lemma MoverShape(c: Config, s: State, e: Event)
    requires Shape(s)
    requires e.Resume? || e.Abandon? || e.Handoff? || e.Exit? || e.RolledBack? || e.OperationDone?
    ensures Shape(Step(c, s, e))
  {
    match e
    case Resume(i) => ResumeShape(s, i);
    case Abandon(i) => AbandonShape(s, i);
    case Handoff(i, now) => HandoffShape(s, i, now);
    case Exit(i) => ExitShape(s, i);
    case RolledBack(i) => RolledBackShape(s, i);
    case OperationDone(i) => OperationDoneShape(s, i);
  }

  lemma LoopShape(c: Config, s: State, e: Event)
    requires Shape(s) && !e.Finish?
    ensures Shape(Step(c, s, e))
  {
    match e
    case StartCall(ok) => StartShape(c, s, ok);
    case ReserveCall(key, input, output, ok) => ReserveShape(c, s, key, input, output, ok);
    case SnapshotCall(key, ok) => SnapshotShape(c, s, key, ok);
    case RollBack(i, ok) => RollBackShape(s, i, ok);
    case Take => TakeShape(s);
    case StartReturns =>
    case Close =>
    case Drain =>
    case _ => MoverShape(c, s, e);
  }

  lemma ActKeeps(c: Config, s: State, job: Job, now: real, id: string, o: Outcome, readable: bool)
    ensures var s' := Act(c, s, job, now, id, o, readable).1; s' == s.(nodes := s'.nodes, loaded := s'.loaded)
  {
  }

  lemma FinishKeeps(c: Config, s: State, now: real, id: string, o: Outcome, readable: bool, s': State)
    requires s' == FinishStep(c, s, now, id, o, readable)
    ensures s' == s.(ops := s'.ops, nodes := s'.nodes, loaded := s'.loaded, running := s'.running, fault := s'.fault)
  {
    if s.running.Some? {
      ActKeeps(c, s, s.running.value, now, id, o, readable);
    }
  }

  lemma OpenPending(s: State, kind: Kind, job: Job, ok: bool)
    ensures Open(s, kind, job, ok).pending == s.pending + 1
    ensures Open(s, kind, job, ok).closing == s.closing && Open(s, kind, job, ok).drained == s.drained
  {
  }

  predicate Calm(s: State, s': State) {
    s'.pending <= s.pending && s'.closing == s.closing && s'.drained == s.drained
  }

  lemma MoveCalm(s: State, i: nat, phase: Phase)
    ensures Calm(s, Move(s, i, phase)) && Calm(s, Release(Move(s, i, phase)))
  {
  }

  lemma ResumeCalm(s: State, i: nat)
    ensures Calm(s, ResumeStep(s, i))
  {
    MoveCalm(s, i, Active);
    MoveCalm(s, i, Done);
    MoveCalm(s, i, RollingBack);
  }

  lemma RollBackCalm(s: State, i: nat, ok: bool)
    ensures Calm(s, RollBackStep(s, i, ok))
  {
    MoveCalm(s, i, Done);
  }

  lemma LeaveCalm(s: State, i: nat, now: real)
    ensures Calm(s, AbandonStep(s, i)) && Calm(s, ExitStep(s, i)) && Calm(s, HandoffStep(s, i, now))
  {
    MoveCalm(s, i, RollingBack);
    MoveCalm(s, i, Sent);
  }

  lemma DoneCalm(s: State, i: nat)
    ensures Calm(s, RolledBackStep(s, i)) && Calm(s, OperationDoneStep(s, i))
  {
    MoveCalm(s, i, Done);
  }

  lemma TakeCalm(s: State)
    ensures Calm(s, TakeStep(s))
  {
  }

  lemma FinishCalm(c: Config, s: State, now: real, id: string, o: Outcome, readable: bool)
    ensures Calm(s, FinishStep(c, s, now, id, o, readable))
  {
    FinishKeeps(c, s, now, id, o, readable, FinishStep(c, s, now, id, o, readable));
  }

  /** Steps that neither claim a permit nor close the owner. */
  lemma OtherCalm(c: Config, s: State, e: Event)
    requires !e.StartCall? && !e.ReserveCall? && !e.SnapshotCall? && !e.Close? && !e.Drain?
    ensures Calm(s, Step(c, s, e))
  {
    match e
    case Resume(i) => ResumeCalm(s, i);
    case Abandon(i) => LeaveCalm(s, i, 0.0);
    case Handoff(i, now) => LeaveCalm(s, i, now);
    case Exit(i) => LeaveCalm(s, i, 0.0);
    case RollBack(i, ok) => RollBackCalm(s, i, ok);
    case RolledBack(i) => DoneCalm(s, i);
    case OperationDone(i) => DoneCalm(s, i);
    case Finish(now, id, o, readable) => FinishCalm(c, s, now, id, o, readable);
    case Take => TakeCalm(s);
    case _ =>
  }

  /** At most one admitted claim, and nothing about closing. */
  predicate Claims(c: Config, s: State, s': State) {
    && (s'.pending > s.pending ==> s.pending < c.maxPending && s'.pending == s.pending + 1 && !s.closing)
    && s'.closing == s.closing && s'.drained == s.drained
  }

  lemma StartClaims(c: Config, s: State, ok: bool)
    ensures Claims(c, s, StartStep(c, s, ok))
  {
    OpenPending(s.(started := Some(|s.ops|)), Start, Load(|s.ops|), ok);
  }

  lemma ReserveClaims(c: Config, s: State, key: Key, input: int, output: int, ok: bool)
    ensures Claims(c, s, ReserveStep(c, s, key, input, output, ok))
  {
    OpenPending(s, Reserve(key, input, output), Debit(|s.ops|, key, input, output), ok);
  }

  lemma SnapshotClaims(c: Config, s: State, key: Key, ok: bool)
    ensures Claims(c, s, SnapshotStep(c, s, key, ok))
  {
    OpenPending(s, Snapshot(key), Count(|s.ops|, key), ok);
  }

  /** Only an admitted claim raises the counter, and closing is for good. */
  lemma PendingChange(c: Config, s: State, e: Event)
    requires s.drained ==> s.closing
    ensures var s' := Step(c, s, e);
            && (s'.pending > s.pending ==> s.pending < c.maxPending && s'.pending == s.pending + 1 && !s.closing)
            && (s.closing ==> s'.closing)
            && (s'.drained && !s.drained ==> s.closing && s.idle && s'.pending == s.pending)
            && (s.drained ==> s'.drained)
  {
    match e
    case StartCall(ok) => StartClaims(c, s, ok);
    case ReserveCall(key, input, output, ok) => ReserveClaims(c, s, key, input, output, ok);
    case SnapshotCall(key, ok) => SnapshotClaims(c, s, key, ok);
    case Close =>
    case Drain =>
    case _ => OtherCalm(c, s, e);
  }

  lemma CloseStep(c: Config, s: State, e: Event, s': State)
    requires CloseOk(s) && Books(s) && s' == Step(c, s, e) && Books(s')
    ensures CloseOk(s')
  {
    PendingChange(c, s, e);
  }

  lemma PendingBound(c: Config, s: State, e: Event, s': State)
    requires 0 <= s.pending <= c.maxPending && s' == Step(c, s, e) && Books(s')
    requires s.drained ==> s.closing
    ensures 0 <= s'.pending <= c.maxPending
  {
    PendingChange(c, s, e);
  }
}
