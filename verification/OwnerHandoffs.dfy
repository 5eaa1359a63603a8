/**
 What the persistence owner delivers: a granted reservation reaches its caller and can be handed
 off, and none is taken back unless its caller let go of it.
 */
module OwnerHandoffs {
  import opened Common
  import opened Ledger
  import opened LedgerCodec
  import opened LedgerPools
  import opened OwnerState
  import opened OwnerPermits
  import opened OwnerLedger
  import opened OwnerTheorems
  import D = LedgerDurability

  // ------------------------------------------------------- a ticket is not taken back

  /** The caller gives the wait up, or leaves the context with its ticket unsent. */
  predicate LetGo(s: State, e: Event, i: nat) {
    i < |s.ops| && ((e == Abandon(i) && s.ops[i].phase.Waiting?) || (e == Exit(i) && s.ops[i].phase.Active?))
  }

  ghost predicate GaveUp(c: Config, s: State, es: seq<Event>, i: nat) {
    es != [] && (GaveUp(c, s, es[..|es| - 1], i) || LetGo(Run(c, s, es[..|es| - 1]), es[|es| - 1], i))
  }

  /** A reservation on its way to its caller, in its caller's hands or sent; or over, without a lease. */
  predicate NotTakenBack(op: Op) {
    op.kind.Reserve? ==> match op.phase
      case Waiting => true
      case Active => op.result.Some? && op.result.value.Granted?
      case Sent => op.result.Some? && op.result.value.Granted?
      case RollingBack => op.result.Some? && !op.result.value.Granted?
      case Done => op.result.Some? && !op.result.value.Granted?
      case Cancelling(_) => false
  }

  /** The operation a loop step is about. */
  function Subject(e: Event): Option<nat> {
    match e
    case Resume(i) => Some(i)
    case Abandon(i) => Some(i)
    case Handoff(i, _) => Some(i)
    case Exit(i) => Some(i)
    case RollBack(i, _) => Some(i)
    case RolledBack(i) => Some(i)
    case OperationDone(i) => Some(i)
    case _ => None
  }

  lemma ResumeElsewhere(s: State, j: nat, i: nat)
    requires i < |s.ops| && i != j
    ensures OpKept(s, ResumeStep(s, j), i)
  {
    var phase := ResumeOps(s, j);
  }

  lemma ResumeOps(s: State, j: nat) returns (phase: Phase)
    ensures var ops' := ResumeStep(s, j).ops;
            ops' == s.ops || (j < |s.ops| && ops' == s.ops[j := s.ops[j].(phase := phase)])
  {
    phase := Done;
    if j < |s.ops| && s.ops[j].result.Some? {
      match s.ops[j].result.value
      case Granted(_) => phase := Active;
      case Refused => phase := Done;
      case _ => phase := RollingBack;
    }
  }

  lemma LeaveElsewhere(s: State, j: nat, now: real, i: nat)
    requires i < |s.ops| && i != j
    ensures OpKept(s, AbandonStep(s, j), i) && OpKept(s, ExitStep(s, j), i) && OpKept(s, HandoffStep(s, j, now), i)
  {}

  lemma DoneElsewhere(s: State, j: nat, i: nat)
    requires i < |s.ops| && i != j
    ensures OpKept(s, RolledBackStep(s, j), i) && OpKept(s, OperationDoneStep(s, j), i)
  {}

  lemma MoverElsewhere(c: Config, s: State, e: Event, i: nat)
    requires e.Resume? || e.Abandon? || e.Handoff? || e.Exit? || e.RolledBack? || e.OperationDone?
    requires i < |s.ops| && Subject(e) != Some(i)
    ensures OpKept(s, Step(c, s, e), i)
  {
    match e
    case Resume(j) => ResumeElsewhere(s, j, i);
    case Abandon(j) => LeaveElsewhere(s, j, 0.0, i);
    case Handoff(j, now) => LeaveElsewhere(s, j, now, i);
    case Exit(j) => LeaveElsewhere(s, j, 0.0, i);
    case RolledBack(j) => DoneElsewhere(s, j, i);
    case OperationDone(j) => DoneElsewhere(s, j, i);
  }

  /** A step about another operation, or about none, leaves an answered one alone. */
  lemma AnsweredElsewhere(c: Config, s: State, e: Event, i: nat)
    requires JobsFit(s.ops, Work(s)) && i < |s.ops| && s.ops[i].result.Some? && Subject(e) != Some(i)
    ensures OpKept(s, Step(c, s, e), i)
  {
    match e
    case StartCall(ok) => StartOther(c, s, ok, i);
    case ReserveCall(key, input, output, ok) => ReserveOther(c, s, key, input, output, ok, i);
    case SnapshotCall(key, ok) => SnapshotOther(c, s, key, ok, i);
    case RollBack(j, ok) => RollBackElsewhere(s, j, ok, i);
    case Take => TakeOther(s, i);
    case Finish(now, id, o, readable) => FinishOther(c, s, now, id, o, readable, i);
    case StartReturns =>
    case Close =>
    case Drain =>
    case _ => MoverElsewhere(c, s, e, i);
  }

  lemma RollBackElsewhere(s: State, j: nat, ok: bool, i: nat)
    requires i < |s.ops| && j != i
    ensures OpKept(s, RollBackStep(s, j, ok), i)
  {
    RollBackOther(s, j, ok, i);
  }

  /** An operation that waits for the worker's answer keeps waiting until it has it, unless its caller
      gives up. */
  lemma WaitingStays(c: Config, s: State, e: Event, i: nat)
    requires i < |s.ops| && s.ops[i].kind.Reserve? && s.ops[i].phase.Waiting? && s.ops[i].result.None? && e != Abandon(i)
    ensures var s' := Step(c, s, e); i < |s'.ops| && s'.ops[i].kind == s.ops[i].kind && s'.ops[i].phase.Waiting?
  {
    match e
    case StartCall(ok) => StartOther(c, s, ok, i);
    case ReserveCall(key, input, output, ok) => ReserveOther(c, s, key, input, output, ok, i);
    case SnapshotCall(key, ok) => SnapshotOther(c, s, key, ok, i);
    case RollBack(j, ok) => RollBackOther(s, j, ok, i);
    case Take =>
    case Finish(now, id, o, readable) => FinishWaiting(c, s, now, id, o, readable, i);
    case StartReturns =>
    case Close =>
    case Drain =>
    case _ => if Subject(e) != Some(i) { MoverElsewhere(c, s, e, i); }
  }

  lemma FinishWaiting(c: Config, s: State, now: real, id: string, o: Outcome, readable: bool, i: nat)
    requires i < |s.ops|
    ensures var s' := FinishStep(c, s, now, id, o, readable);
            i < |s'.ops| && s'.ops[i].kind == s.ops[i].kind && s'.ops[i].phase == s.ops[i].phase
  {
    if s.running.Some? {
      ActKeeps(c, s, s.running.value, now, id, o, readable);
    }
  }

  /** The reservation is still this one, and nothing took it back. */
  predicate StillOurs(s: State, s': State, i: nat) {
    i < |s.ops| && i < |s'.ops| && s'.ops[i].kind == s.ops[i].kind && NotTakenBack(s'.ops[i])
  }

  lemma OwnResume(s: State, i: nat)
    requires i < |s.ops| && s.ops[i].kind.Reserve? && NotTakenBack(s.ops[i]) && s.ops[i].result.Some?
    ensures StillOurs(s, ResumeStep(s, i), i)
  {}

  lemma OwnRollBack(s: State, i: nat, ok: bool)
    requires i < |s.ops| && s.ops[i].kind.Reserve? && NotTakenBack(s.ops[i]) && s.ops[i].result.Some?
    ensures StillOurs(s, RollBackStep(s, i, ok), i)
  {}

  lemma OwnLeave(s: State, i: nat, now: real)
    requires i < |s.ops| && s.ops[i].kind.Reserve? && NotTakenBack(s.ops[i]) && s.ops[i].result.Some?
    ensures !s.ops[i].phase.Waiting? ==> StillOurs(s, AbandonStep(s, i), i)
    ensures !s.ops[i].phase.Active? ==> StillOurs(s, ExitStep(s, i), i)
    ensures StillOurs(s, HandoffStep(s, i, now), i)
  {}

  lemma OwnDone(s: State, i: nat)
    requires i < |s.ops| && s.ops[i].kind.Reserve? && NotTakenBack(s.ops[i])
    ensures StillOurs(s, RolledBackStep(s, i), i) && StillOurs(s, OperationDoneStep(s, i), i)
  {}

  lemma OwnStep(c: Config, s: State, e: Event, i: nat)
    requires i < |s.ops| && s.ops[i].kind.Reserve? && NotTakenBack(s.ops[i])
    requires s.ops[i].result.Some? && Subject(e) == Some(i) && !LetGo(s, e, i)
    ensures StillOurs(s, Step(c, s, e), i)
  {
    match e
    case Resume(_) => OwnResume(s, i);
    case Abandon(_) => OwnLeave(s, i, 0.0);
    case Handoff(_, now) => OwnLeave(s, i, now);
    case Exit(_) => OwnLeave(s, i, 0.0);
    case RollBack(_, ok) => OwnRollBack(s, i, ok);
    case RolledBack(_) => OwnDone(s, i);
    case OperationDone(_) => OwnDone(s, i);
  }

  lemma StepTakesNothingBack(c: Config, s: State, e: Event, i: nat, s': State)
    requires s' == Step(c, s, e)
    requires JobsFit(s.ops, Work(s)) && i < |s.ops| && s.ops[i].kind.Reserve? && NotTakenBack(s.ops[i]) && !LetGo(s, e, i)
    ensures StillOurs(s, s', i)
  {
    if s.ops[i].result.None? {
      WaitingStays(c, s, e, i);
    } else if Subject(e) == Some(i) {
      OwnStep(c, s, e, i);
    } else {
      AnsweredElsewhere(c, s, e, i);
    }
  }

  lemma OpenWaits(s: State, kind: Kind, job: Job, ok: bool)
    requires job.op == |s.ops|
    ensures var s' := Open(s, kind, job, ok); |s'.ops| == |s.ops| + 1 && s'.ops[|s.ops|].phase.Waiting?
  {}

  predicate NewcomersWait(s: State, s': State) {
    forall i :: |s.ops| <= i < |s'.ops| ==> NotTakenBack(s'.ops[i])
  }

  lemma MovesAddNone(c: Config, s: State, e: Event)
    requires Subject(e).Some?
    ensures |Step(c, s, e).ops| == |s.ops|
  {
    match e
    case RollBack(i, ok) => RollBackKinds(s, i, ok);
    case _ => MoverKinds(c, s, e);
  }

  lemma WorkerAddsNone(c: Config, s: State, e: Event)
    requires e.Take? || e.Finish?
    ensures |Step(c, s, e).ops| == |s.ops|
  {
    match e
    case Take => TakeKinds(s);
    case Finish(now, id, o, readable) => FinishKinds(c, s, now, id, o, readable);
  }

  lemma CallAddsWaiting(c: Config, s: State, e: Event)
    requires e.StartCall? || e.ReserveCall? || e.SnapshotCall?
    ensures NewcomersWait(s, Step(c, s, e))
  {
    match e
    case StartCall(ok) => OpenWaits(s.(started := Some(|s.ops|)), Start, Load(|s.ops|), ok);
    case ReserveCall(key, input, output, ok) =>
      OpenWaits(s, Reserve(key, input, output), Debit(|s.ops|, key, input, output), ok);
    case SnapshotCall(key, ok) => OpenWaits(s, Snapshot(key), Count(|s.ops|, key), ok);
  }

  /** An operation begins by waiting for the worker. */
  lemma NewcomerWaits(c: Config, s: State, e: Event, s': State)
    requires s' == Step(c, s, e)
    ensures NewcomersWait(s, s')
  {
    if e.StartCall? || e.ReserveCall? || e.SnapshotCall? {
      CallAddsWaiting(c, s, e);
    } else if e.Take? || e.Finish? {
      WorkerAddsNone(c, s, e);
    } else if Subject(e).Some? {
      MovesAddNone(c, s, e);
    }
  }

  lemma {:induction false} NotTakenBackYet(c: Config, s0: State, es: seq<Event>, i: nat)
    requires Inv(c, s0) && Legal(c, s0, es) && s0.ops == []
    requires i < |Run(c, s0, es).ops| && Run(c, s0, es).ops[i].kind.Reserve? && !GaveUp(c, s0, es, i)
    ensures NotTakenBack(Run(c, s0, es).ops[i])
  {
    if es != [] {
      var fs, e := es[..|es| - 1], es[|es| - 1];
      var s, s' := Run(c, s0, fs), Run(c, s0, es);
      LaterInv(c, s0, fs);
      StepKinds(c, s, e, s');
      if i < |s.ops| {
        NotTakenBackYet(c, s0, fs, i);
        StepTakesNothingBack(c, s, e, i, s');
      } else {
        NewcomerWaits(c, s, e, s');
      }
    }
  }

  lemma NoCancelJob(s: State, i: nat, j: nat)
    requires JobsFit(s.ops, Work(s)) && i < |s.ops| && s.ops[i].kind.Reserve? && NotTakenBack(s.ops[i])
    requires j < |Work(s)| && Work(s)[j].op == i
    ensures !Work(s)[j].Cancel?
  {
    assert Fits(s.ops[Work(s)[j].op], Work(s)[j]);
  }

  /** Main result: over every run, a reservation whose caller neither gave the wait up nor left with its
      ticket unsent is never taken back.  If it was granted it waits for its caller, is in its
      caller's hands or was sent, and no cancellation of it is running or queued. */
  lemma NoneTakenBack(c: Config, nodes: map<Key, D.Node>, es: seq<Event>, i: nat, s: State)
    requires Unloaded(c, nodes) && Legal(c, Initial(nodes), es) && s == Run(c, Initial(nodes), es)
    requires i < |s.ops| && s.ops[i].kind.Reserve? && !GaveUp(c, Initial(nodes), es, i)
    ensures NotTakenBack(s.ops[i])
    ensures forall j :: 0 <= j < |Work(s)| && Work(s)[j].op == i ==> !Work(s)[j].Cancel?
  {
    ReachableInv(c, nodes, []);
    ReachableInv(c, nodes, es);
    NotTakenBackYet(c, Initial(nodes), es, i);
    forall j | 0 <= j < |Work(s)| && Work(s)[j].op == i ensures !Work(s)[j].Cancel? {
      NoCancelJob(s, i, j);
    }
  }

  // --------------------------------------------------------------- a ticket is good

  /** A granted wait ends with the ticket in its caller's hands; nothing else moves. */
  lemma ResumeDelivers(s: State, i: nat, lease: Lease)
    requires i < |s.ops| && s.ops[i].kind.Reserve? && s.ops[i].phase.Waiting? && s.ops[i].result == Some(Granted(lease))
    ensures ResumeStep(s, i) == s.(ops := s.ops[i := Op(s.ops[i].kind, Active, Some(Granted(lease)))])
  {}

  /** A ticket stays with its caller through every step but its own handoff and exit. */
  lemma TicketStays(c: Config, s: State, e: Event, i: nat)
    requires JobsFit(s.ops, Work(s)) && i < |s.ops| && s.ops[i].kind.Reserve?
    requires s.ops[i].phase.Active? && s.ops[i].result.Some? && e != Exit(i) && !(e.Handoff? && e.op == i)
    ensures OpKept(s, Step(c, s, e), i)
  {
    if Subject(e) == Some(i) {
      match e
      case RollBack(_, _) =>
      case _ =>
    } else {
      AnsweredElsewhere(c, s, e, i);
    }
  }

  ghost predicate NeverLeaves(es: seq<Event>, i: nat) {
    forall k :: 0 <= k < |es| ==> es[k] != Exit(i) && !(es[k].Handoff? && es[k].op == i)
  }

  lemma {:induction false} TicketKept(c: Config, s: State, es: seq<Event>, i: nat)
    requires Inv(c, s) && Legal(c, s, es) && NeverLeaves(es, i)
    requires i < |s.ops| && s.ops[i].kind.Reserve? && s.ops[i].phase.Active? && s.ops[i].result.Some?
    ensures OpKept(s, Run(c, s, es), i)
  {
    if es != [] {
      var fs := es[..|es| - 1];
      TicketKept(c, s, fs, i);
      LaterJobs(c, s, fs, Run(c, s, fs));
      TicketKeptOnce(c, Run(c, s, fs), es[|es| - 1], i, s.ops[i], Run(c, s, es));
    }
  }

  lemma LaterJobs(c: Config, s: State, es: seq<Event>, s': State)
    requires Inv(c, s) && Legal(c, s, es) && s' == Run(c, s, es)
    ensures JobsFit(s'.ops, Work(s'))
  {
    LaterInv(c, s, es);
  }

  lemma TicketKeptOnce(c: Config, s: State, e: Event, i: nat, op: Op, s': State)
    requires JobsFit(s.ops, Work(s)) && s' == Step(c, s, e) && i < |s.ops| && s.ops[i] == op
    requires op.kind.Reserve? && op.phase.Active? && op.result.Some? && e != Exit(i) && !(e.Handoff? && e.op == i)
    ensures i < |s'.ops| && s'.ops[i] == op
  {
    TicketStays(c, s, e, i);
  }

  /** A handoff succeeds exactly on an owner that is ready, open and not faulted, within a minute of
      the debit; it returns the permit, and a refused one changes nothing. */
  lemma HandoffIff(s: State, i: nat, lease: Lease, now: real)
    requires i < |s.ops| && s.ops[i].phase.Active? && s.ops[i].result == Some(Granted(lease))
    ensures var s' := HandoffStep(s, i, now);
            if s.ready && !s.closing && !s.fault && now >= 0.0 && lease.at <= now < lease.at + 60.0
            then s' == s.(ops := s.ops[i := s.ops[i].(phase := Sent)], pending := s.pending - 1,
                          idle := s.idle || s.pending == 1)
            else s' == s
  {}

  /** Main result: once the debit is granted, its caller has the ticket on waking and keeps it through
      whatever happens to others, and the handoff then succeeds if and only if the owner is
      ready, open and not faulted and the debit is less than a minute old; it hands over that
      very lease. */
  lemma TicketIsGood(c: Config, s: State, i: nat, lease: Lease, s1: State, es: seq<Event>, s2: State, now: real, s3: State)
    requires Inv(c, s) && i < |s.ops| && s.ops[i].kind.Reserve? && s.ops[i].phase.Waiting?
    requires s.ops[i].result == Some(Granted(lease)) && s1 == Step(c, s, Resume(i))
    requires Legal(c, s1, es) && NeverLeaves(es, i) && s2 == Run(c, s1, es) && s3 == Step(c, s2, Handoff(i, now))
    ensures i < |s2.ops| && s2.ops[i] == Op(s.ops[i].kind, Active, Some(Granted(lease)))
    ensures var open := s2.ready && !s2.closing && !s2.fault && now >= 0.0 && lease.at <= now < lease.at + 60.0;
            && s3.ops == (if open then s2.ops[i := Op(s.ops[i].kind, Sent, Some(Granted(lease)))] else s2.ops)
            && s3.pending == (if open then s2.pending - 1 else s2.pending)
  {
    ResumedInv(c, s, i, s1);
    ResumeDelivers(s, i, lease);
    TicketKept(c, s1, es, i);
    HandedOver(c, s2, i, s.ops[i].kind, lease, now, s3);
  }

  lemma HandedOver(c: Config, s: State, i: nat, kind: Kind, lease: Lease, now: real, s': State)
    requires i < |s.ops| && s.ops[i] == Op(kind, Active, Some(Granted(lease))) && s' == Step(c, s, Handoff(i, now))
    ensures var open := s.ready && !s.closing && !s.fault && now >= 0.0 && lease.at <= now < lease.at + 60.0;
            && s'.ops == (if open then s.ops[i := Op(kind, Sent, Some(Granted(lease)))] else s.ops)
            && s'.pending == (if open then s.pending - 1 else s.pending)
  {
    HandoffIff(s, i, lease, now);
  }

  lemma ResumedInv(c: Config, s: State, i: nat, s1: State)
    requires Inv(c, s) && s1 == Step(c, s, Resume(i))
    ensures Inv(c, s1) && s1 == ResumeStep(s, i)
  {
    StepInv(c, s, Resume(i));
  }

  /** A refusal gives the permit back at once, and a failed debit goes to rollback with its permit. */
  lemma ResumeRefused(s: State, i: nat, r: Reply)
    requires i < |s.ops| && s.ops[i].kind.Reserve? && s.ops[i].phase.Waiting? && s.ops[i].result == Some(r) && !r.Granted?
    ensures ResumeStep(s, i).pending == s.pending - (if r.Refused? then 1 else 0)
    ensures ResumeStep(s, i).ops == s.ops[i := s.ops[i].(phase := if r.Refused? then Done else RollingBack)]
  {}

  // ------------------------------------------------------------ a request is served

  /** A permit was taken for one more operation and its job was queued; if queueing failed, the owner
      has faulted and the operation has failed. */
  ghost predicate Opened(s: State, s': State, kind: Kind, job: Job, ok: bool) {
    && s'.ops == s.ops + [Op(kind, Waiting, if ok then None else Some(Failed))]
    && s'.pending == s.pending + 1 && !s'.idle
    && s'.queue == (if ok then s.queue + [job] else s.queue) && s'.fault == (s.fault || !ok)
    && s'.ready == s.ready && s'.closing == s.closing && s'.running == s.running && s'.nodes == s.nodes
  }

  lemma OpenOpens(s: State, kind: Kind, job: Job, ok: bool)
    requires job.op == |s.ops|
    ensures Opened(s, Open(s, kind, job, ok), kind, job, ok)
  {
    assert (s.ops + [Op(kind, Waiting, None)])[|s.ops| := Op(kind, Waiting, Some(Failed))]
        == s.ops + [Op(kind, Waiting, Some(Failed))];
  }

  /** Main result: a call is admitted exactly while the owner is open and not faulted and a permit is
      free, a reserve or a snapshot only on a ready owner and a known scope, a reserve only for
      positive amounts, and a start once; an admitted call has its one job queued, and a refused
      one changes nothing. */
  lemma CallsAdmitted(c: Config, s: State, key: Key, input: int, output: int, ok: bool)
    ensures var free := !s.fault && !s.closing && s.pending < c.maxPending; var i := |s.ops|;
            && (if free && s.ready && key in c.scopes && input > 0 && output > 0
                then Opened(s, ReserveStep(c, s, key, input, output, ok), Reserve(key, input, output),
                            Debit(i, key, input, output), ok)
                else ReserveStep(c, s, key, input, output, ok) == s)
            && (if free && s.ready && key in c.scopes
                then Opened(s, SnapshotStep(c, s, key, ok), Snapshot(key), Count(i, key), ok)
                else SnapshotStep(c, s, key, ok) == s)
            && (if free && s.started.None?
                then Opened(s, StartStep(c, s, ok), Start, Load(i), ok) && StartStep(c, s, ok).started == Some(i)
                else StartStep(c, s, ok) == s)
  {
    OpenOpens(s, Reserve(key, input, output), Debit(|s.ops|, key, input, output), ok);
    OpenOpens(s, Snapshot(key), Count(|s.ops|, key), ok);
    OpenOpens(s.(started := Some(|s.ops|)), Start, Load(|s.ops|), ok);
  }

  /** The lane a debit works on: the scope's own, or a new one. */
  function LaneFor(n: D.Node, key: Key, id: string): Lane {
    if key in n.mem.lanes then n.mem.lanes[key] else Lane(key, id, [], 1)
  }

  /** Main result: the worker grants a debit exactly if the live entries of its lane leave room for it
      and it could be saved; refuses it exactly if they do not; and a granted one is in the file. */
  lemma DebitAnswered(n: D.Node, b: Budgets, key: Key, input: int, output: int, now: real, id: string, o: Outcome,
      live: seq<Entry>, n': D.Node)
    requires input > 0 && output > 0 && now >= 0.0 && ValidKey(key) && live == Prune(LaneFor(n, key, id).entries, now)
    requires n' == Debited(n, b, key, input, output, now, id, o).1
    ensures var lane := LaneFor(n, key, id);
            var fits := |live| < b.maxRequests && SumTokens(live) + input + output <= b.maxTokens;
            && Debited(n, b, key, input, output, now, id, o).0
            == (if !fits then Refused
                else if o.Saved? then Granted(Lease(lane.key, lane.nextSeq, input, output, now, lane.id)) else Failed)
            && n'.mem.lanes == n.mem.lanes[key := n'.mem.lanes[key]]
            && n'.mem.lanes[key].entries
            == live + (if fits then [Entry(lane.nextSeq, now, input + output, false)] else [])
            && n'.disk == (if !fits || o.FailedBefore? then n.disk else Some(Encode(n'.mem)))
  {}

  lemma TakeServed(c: Config, s: State, job: Job)
    requires s.running.None? && s.queue == [job] && !s.fault
    ensures Step(c, s, Take) == s.(queue := [], running := Some(job))
  {}

  lemma FinishServed(c: Config, s: State, job: Job, now: real, id: string, o: Outcome, r: Reply, s1: State)
    requires s.running == Some(job) && !s.fault && job.op < |s.ops| && (r, s1) == Act(c, s, job, now, id, o, true)
    ensures Step(c, s, Finish(now, id, o, true))
         == s.(running := None, nodes := s1.nodes, loaded := s1.loaded, fault := r.Failed?,
               ops := s.ops[job.op := s.ops[job.op].(result := Some(r))])
  {
    ActKeeps(c, s, job, now, id, o, true);
  }

  /** Ready and open, with a permit free and nothing at the worker. */
  ghost predicate Rested(c: Config, s: State) {
    && s.ready && !s.closing && !s.fault && 0 <= s.pending < c.maxPending && s.running.None? && s.queue == []
    && s.nodes.Keys == c.scopes.Keys
  }

  /** There is room for the debit in its lane. */
  ghost predicate HasRoom(c: Config, s: State, key: Key, tokens: int, now: real, id: string)
    requires key in s.nodes && key in c.scopes
  {
    var live, b := Prune(LaneFor(s.nodes[key], key, id).entries, now), c.scopes[key].budgets;
    |live| < b.maxRequests && SumTokens(live) + tokens <= b.maxTokens
  }

  lemma ActGrants(c: Config, s: State, job: Job, now: real, id: string, lease: Lease, n: D.Node)
    requires job.Debit? && job.key in s.nodes && job.key in c.scopes
    requires Debited(s.nodes[job.key], c.scopes[job.key].budgets, job.key, job.input, job.output, now, id, Saved)
          == (Granted(lease), n)
    ensures Act(c, s, job, now, id, Saved, true) == (Granted(lease), s.(nodes := s.nodes[job.key := n]))
  {}

  lemma DebitGrants(c: Config, s: State, key: Key, input: int, output: int, now: real, id: string, lease: Lease)
    returns (n: D.Node)
    requires key in s.nodes && key in c.scopes && ValidKey(key) && input > 0 && output > 0 && now >= 0.0
    requires HasRoom(c, s, key, input + output, now, id)
    requires var l := LaneFor(s.nodes[key], key, id); lease == Lease(l.key, l.nextSeq, input, output, now, l.id)
    ensures Debited(s.nodes[key], c.scopes[key].budgets, key, input, output, now, id, Saved) == (Granted(lease), n)
    ensures n.disk == Some(Encode(n.mem))
  {
    var b, was := c.scopes[key].budgets, s.nodes[key];
    n := Debited(was, b, key, input, output, now, id, Saved).1;
    DebitAnswered(was, b, key, input, output, now, id, Saved, Prune(LaneFor(was, key, id).entries, now), n);
  }

  lemma ReserveQueued(c: Config, s: State, key: Key, input: int, output: int)
    requires Rested(c, s) && key in c.scopes && input > 0 && output > 0
    ensures Step(c, s, ReserveCall(key, input, output, true))
         == s.(ops := s.ops + [Op(Reserve(key, input, output), Waiting, None)], pending := s.pending + 1,
               idle := false, queue := [Debit(|s.ops|, key, input, output)])
  {}

  lemma DebitServed(c: Config, s: State, key: Key, input: int, output: int, now: real, id: string, lease: Lease,
      s1: State, s2: State, s3: State)
    requires Rested(c, s) && key in c.scopes && ValidKey(key) && input > 0 && output > 0 && now >= 0.0
    requires HasRoom(c, s, key, input + output, now, id)
    requires var l := LaneFor(s.nodes[key], key, id); lease == Lease(l.key, l.nextSeq, input, output, now, l.id)
    requires s1 == Step(c, s, ReserveCall(key, input, output, true)) && s2 == Step(c, s1, Take)
    requires s3 == Step(c, s2, Finish(now, id, Saved, true))
    ensures s3 == s.(ops := s.ops + [Op(Reserve(key, input, output), Waiting, Some(Granted(lease)))],
                     pending := s.pending + 1, idle := false, nodes := s3.nodes)
    ensures s3.nodes.Keys == s.nodes.Keys && s3.nodes[key].disk == Some(Encode(s3.nodes[key].mem))
  {
    var job := Debit(|s.ops|, key, input, output);
    ReserveQueued(c, s, key, input, output);
    TakeServed(c, s1, job);
    var n := DebitGrants(c, s, key, input, output, now, id, lease);
    ActGrants(c, s2, job, now, id, lease, n);
    FinishServed(c, s2, job, now, id, Saved, Granted(lease), s2.(nodes := s2.nodes[key := n]));
  }

  /** Main result: an owner at rest whose lane has room serves a reservation: the call, the worker's
      saved debit, the caller's waking and its handoff within a minute deliver the next lease of
      the lane, saved, and the permit is back. */
  lemma ServesReservation(c: Config, s: State, key: Key, input: int, output: int, now: real, id: string, later: real,
      s1: State, s2: State, s3: State, s4: State, s5: State)
    requires Rested(c, s) && key in c.scopes && ValidKey(key) && input > 0 && output > 0
    requires 0.0 <= now <= later < now + 60.0 && HasRoom(c, s, key, input + output, now, id)
    requires s1 == Step(c, s, ReserveCall(key, input, output, true)) && s2 == Step(c, s1, Take)
    requires s3 == Step(c, s2, Finish(now, id, Saved, true))
    requires s4 == Step(c, s3, Resume(|s.ops|)) && s5 == Step(c, s4, Handoff(|s.ops|, later))
    ensures var l := LaneFor(s.nodes[key], key, id);
            s5.ops == s.ops + [Op(Reserve(key, input, output), Sent,
                                  Some(Granted(Lease(l.key, l.nextSeq, input, output, now, l.id))))]
    ensures Rested(c, s5) && s5.pending == s.pending && s5.nodes[key].disk == Some(Encode(s5.nodes[key].mem))
  {
    var l, i := LaneFor(s.nodes[key], key, id), |s.ops|;
    var lease := Lease(l.key, l.nextSeq, input, output, now, l.id);
    DebitServed(c, s, key, input, output, now, id, lease, s1, s2, s3);
    ResumeDelivers(s3, i, lease);
    HandoffIff(s4, i, lease, later);
  }

  /** Main result: an owner whose files can all be loaded comes up: the start call, its load, and the
      return of the start leave it at rest with every scope's pool as its file has it. */
  lemma StartComesUp(c: Config, nodes: map<Key, D.Node>, s1: State, s2: State, s3: State, s4: State, s5: State)
    requires Unloaded(c, nodes) && LoadAll(c, nodes).Some?
    requires s1 == Step(c, Initial(nodes), StartCall(true)) && s2 == Step(c, s1, Take)
    requires s3 == Step(c, s2, Finish(0.0, "", Saved, true)) && s4 == Step(c, s3, StartReturns)
    requires s5 == Step(c, s4, OperationDone(0))
    ensures Rested(c, s5) && s5.pending == 0 && s5.nodes == LoadAll(c, nodes).value
  {
    var s := Initial(nodes);
    CallsAdmitted(c, s, ("", "", ""), 0, 0, true);
    assert s1 == s.(ops := [Op(Start, Waiting, None)], pending := 1, idle := false, queue := [Load(0)], started := Some(0));
    TakeServed(c, s1, Load(0));
    FinishServed(c, s2, Load(0), 0.0, "", Saved, Finished, s2.(nodes := LoadAll(c, nodes).value, loaded := true));
    assert s3.ops == [Op(Start, Waiting, Some(Finished))];
  }

  // ------------------------------------------------------- an unsent ticket goes back

  /** Whoever lets go of a reservation leaves it to a rollback, permit and answer with it. */
  lemma LettingGoRollsBack(s: State, i: nat)
    requires i < |s.ops| && s.ops[i].kind.Reserve?
    ensures s.ops[i].phase.Waiting? ==> AbandonStep(s, i) == s.(ops := s.ops[i := s.ops[i].(phase := RollingBack)])
    ensures s.ops[i].phase.Active? ==> ExitStep(s, i) == s.(ops := s.ops[i := s.ops[i].(phase := RollingBack)])
  {}

  /** The rollback of a granted reservation has its cancellation queued; of any other it is over. */
  lemma RollBackQueues(s: State, i: nat)
    requires i < |s.ops| && s.ops[i].phase.RollingBack? && s.ops[i].result.Some?
    ensures s.ops[i].result.value.Granted? ==>
              var lease := s.ops[i].result.value.lease;
              RollBackStep(s, i, true) == s.(ops := s.ops[i := Op(s.ops[i].kind, Cancelling(lease), None)],
                                             queue := s.queue + [Cancel(i, lease)])
    ensures !s.ops[i].result.value.Granted? ==>
              RollBackStep(s, i, true) == s.(ops := s.ops[i := s.ops[i].(phase := Done)], pending := s.pending - 1,
                                             idle := s.idle || s.pending == 1)
  {}

  /** The lane of the lease can still take it back. */
  ghost predicate TakesBack(n: D.Node, lease: Lease, now: real) {
    ValidKey(lease.key) && lease.key in n.mem.lanes && CancelUnsent(n.mem.lanes[lease.key], lease, now).0.Ok?
  }

  lemma CancelAnswered(n: D.Node, b: Budgets, lease: Lease, now: real, id: string, n': D.Node)
    requires TakesBack(n, lease, now) && n' == Cancelled(n, b, lease, now, id, Saved).1
    ensures Cancelled(n, b, lease, now, id, Saved).0 == Finished
    ensures n'.mem == n.mem.(lanes := n.mem.lanes[lease.key := CancelUnsent(n.mem.lanes[lease.key], lease, now).1])
    ensures n'.disk == Some(Encode(n'.mem))
  {}

  lemma ActCancels(c: Config, s: State, i: nat, lease: Lease, now: real, id: string, n: D.Node)
    requires lease.key in s.nodes && lease.key in c.scopes
    requires Cancelled(s.nodes[lease.key], c.scopes[lease.key].budgets, lease, now, id, Saved) == (Finished, n)
    ensures Act(c, s, Cancel(i, lease), now, id, Saved, true) == (Finished, s.(nodes := s.nodes[lease.key := n]))
  {}

  lemma CancelServed(c: Config, s: State, i: nat, lease: Lease, now: real, id: string, s1: State, s2: State)
    requires i < |s.ops| && !s.fault && s.running.None? && s.queue == [Cancel(i, lease)]
    requires lease.key in s.nodes && lease.key in c.scopes && TakesBack(s.nodes[lease.key], lease, now)
    requires s1 == Step(c, s, Take) && s2 == Step(c, s1, Finish(now, id, Saved, true))
    ensures s2 == s.(ops := s.ops[i := s.ops[i].(result := Some(Finished))], queue := [], nodes := s2.nodes)
    ensures lease.key in s2.nodes
    ensures var n, n' := s.nodes[lease.key], s2.nodes[lease.key];
            && n'.mem == n.mem.(lanes := n.mem.lanes[lease.key := CancelUnsent(n.mem.lanes[lease.key], lease, now).1])
            && n'.disk == Some(Encode(n'.mem))
  {
    TakeServed(c, s, Cancel(i, lease));
    var b := c.scopes[lease.key].budgets;
    var n' := Cancelled(s.nodes[lease.key], b, lease, now, id, Saved).1;
    CancelAnswered(s.nodes[lease.key], b, lease, now, id, n');
    ActCancels(c, s1, i, lease, now, id, n');
    FinishServed(c, s1, Cancel(i, lease), now, id, Saved, Finished, s1.(nodes := s1.nodes[lease.key := n']));
  }

  /** Main result: leaving with the ticket unsent gives everything back: the rollback cancels the lease in
      its lane, the cancellation is saved, and the operation is over with its permit returned. */
  lemma ReturnsUnsent(c: Config, s: State, i: nat, lease: Lease, now: real, id: string,
      s1: State, s2: State, s3: State, s4: State, s5: State)
    requires i < |s.ops| && s.ops[i].kind.Reserve? && s.ops[i].phase.Active? && s.ops[i].result == Some(Granted(lease))
    requires !s.fault && s.running.None? && s.queue == []
    requires lease.key in s.nodes && lease.key in c.scopes && TakesBack(s.nodes[lease.key], lease, now)
    requires s1 == Step(c, s, Exit(i)) && s2 == Step(c, s1, RollBack(i, true)) && s3 == Step(c, s2, Take)
    requires s4 == Step(c, s3, Finish(now, id, Saved, true)) && s5 == Step(c, s4, RolledBack(i))
    ensures s5.ops == s.ops[i := Op(s.ops[i].kind, Done, Some(Finished))] && s5.pending == s.pending - 1 && !s5.fault
    ensures lease.key in s5.nodes
    ensures var n, n' := s.nodes[lease.key], s5.nodes[lease.key];
            && n'.mem == n.mem.(lanes := n.mem.lanes[lease.key := CancelUnsent(n.mem.lanes[lease.key], lease, now).1])
            && n'.disk == Some(Encode(n'.mem))
  {
    LettingGoRollsBack(s, i);
    RollBackQueues(s1, i);
    CancelServed(c, s2, i, lease, now, id, s3, s4);
    BackDone(s4, i);
  }

  lemma BackDone(s: State, i: nat)
    requires i < |s.ops| && s.ops[i].phase.Cancelling? && s.ops[i].result.Some?
    ensures RolledBackStep(s, i)
         == s.(ops := s.ops[i := s.ops[i].(phase := Done)], pending := s.pending - 1, idle := s.idle || s.pending == 1)
  {}

  lemma DrainMoves(c: Config, s: State)
    ensures Step(c, s, Drain).drained <==> s.drained || (s.closing && s.idle)
    ensures Step(c, s, Close).closing && !Claimable(c, Step(c, s, Close), false)
  {}

  /** Main result: a closing owner admits nothing more, and its drain completes exactly when every
      operation has returned its permit. */
  lemma DrainsIff(c: Config, nodes: map<Key, D.Node>, es: seq<Event>, s: State)
    requires Unloaded(c, nodes) && Legal(c, Initial(nodes), es) && s == Run(c, Initial(nodes), es)
    ensures Step(c, s, Drain).drained <==> s.drained || (s.closing && forall i :: 0 <= i < |s.ops| ==> !Holding(s.ops[i]))
    ensures Step(c, s, Close).closing && !Claimable(c, Step(c, s, Close), false)
  {
    PermitsAreExact(c, nodes, es);
    DrainMoves(c, s);
    NoHolders(s.ops);
  }

  lemma {:induction false} NoHolders(ops: seq<Op>)
    ensures Holders(ops) == 0 <==> forall i :: 0 <= i < |ops| ==> !Holding(ops[i])
  {
    if ops != [] {
      NoHolders(ops[1..]);
      assert forall i :: 1 <= i < |ops| ==> ops[i] == ops[1..][i - 1];
    }
  }

  // -------------------------------------------------------------- files and counters

  lemma FileReloads(key: Key, n: D.Node)
    requires NodeOk(key, n) && n.disk.Some?
    ensures Decode(n.disk.value).Some? && Decode(n.disk.value).value.lanes.Keys <= {key}
  {
    assert D.OnDisk(n.disk).Some? && D.Older(D.OnDisk(n.disk).value, n.mem);
    forall k | k in Decode(n.disk.value).value.lanes ensures k == key {
      assert k in n.mem.lanes;
    }
  }

  lemma ScopeReloads(key: Key, scope: Scope, n: D.Node, n': D.Node)
    requires NodeOk(key, n) && n'.disk == n.disk && (n.disk.None? ==> scope.coldStart)
    ensures Loadable(key, scope, n'.disk) && Some(LoadedNode(n').mem) == D.OnDisk(n.disk)
  {
    if n.disk.Some? {
      FileReloads(key, n);
    }
  }

  lemma AllLoad(c: Config, nodes: map<Key, D.Node>)
    requires nodes.Keys == c.scopes.Keys && forall k :: k in c.scopes ==> Loadable(k, c.scopes[k], nodes[k].disk)
    ensures LoadAll(c, nodes).Some? && LoadAll(c, nodes).value.Keys == nodes.Keys
    ensures forall k :: k in nodes ==> LoadAll(c, nodes).value[k] == LoadedNode(nodes[k])
  {}

  /** Main result: whatever a loaded owner has done, a successor can take its files over: at any moment they
      can all be loaded, a scope without a file permitting a cold start, and each scope then has
      what its file says. */
  lemma SuccessorLoads(c: Config, s: State, nodes: map<Key, D.Node>)
    requires NodesOk(c, s) && s.loaded && nodes.Keys == c.scopes.Keys
    requires forall k :: k in nodes ==> nodes[k].disk == s.nodes[k].disk
    requires forall k :: k in nodes && nodes[k].disk.None? ==> c.scopes[k].coldStart
    ensures LoadAll(c, nodes).Some?
    ensures forall k :: k in nodes ==> Some(LoadAll(c, nodes).value[k].mem) == D.OnDisk(s.nodes[k].disk)
  {
    NodesReload(c, s.nodes, nodes);
  }

  lemma NodesReload(c: Config, before: map<Key, D.Node>, nodes: map<Key, D.Node>)
    requires before.Keys == nodes.Keys == c.scopes.Keys && forall k :: k in before ==> NodeOk(k, before[k])
    requires forall k :: k in nodes ==> nodes[k].disk == before[k].disk
    requires forall k :: k in nodes && nodes[k].disk.None? ==> c.scopes[k].coldStart
    ensures LoadAll(c, nodes).Some?
    ensures forall k :: k in nodes ==> Some(LoadAll(c, nodes).value[k].mem) == D.OnDisk(before[k].disk)
  {
    forall k | k in nodes
      ensures Loadable(k, c.scopes[k], nodes[k].disk) && Some(LoadedNode(nodes[k]).mem) == D.OnDisk(before[k].disk)
    {
      ScopeReloads(k, c.scopes[k], before[k], nodes[k]);
    }
    AllLoad(c, nodes);
  }

  /** A snapshot of a known scope is answered at any valid time; the worker forgets what has expired and
      changes nothing else. */
  lemma CountAnswered(n: D.Node, b: Budgets, key: Key, now: real, id: string, n': D.Node)
    requires ValidKey(key) && now >= 0.0 && n' == Counted(n, b, key, now, id).1
    ensures Counted(n, b, key, now, id).0 == Finished && n'.disk == n.disk
    ensures var lane := LaneFor(n, key, id);
            n'.mem.lanes == n.mem.lanes[key := lane.(entries := Prune(lane.entries, now))]
  {}
}
