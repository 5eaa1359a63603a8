/**
 The persistence owner on top of the ledger: which leases its operations hold, and that the
 worker's pools stand behind them.
 */
module OwnerLedger {
  import opened Common
  import opened Ledger
  import opened LedgerCodec
  import opened LedgerPools
  import opened OwnerState
  import opened OwnerPermits
  import D = LedgerDurability
  import H = LedgerHistory

  /** The lease an operation still answers for. */
  function LeaseOf(op: Op): Option<Lease> {
    if op.phase.Cancelling? then Some(op.phase.lease)
    else if !op.phase.Done? && op.result.Some? && op.result.value.Granted? then Some(op.result.value.lease)
    else None
  }

  /** The entry a debit made: its full reservation, unsettled. */
  function EntryOf(lease: Lease): Entry {
    Entry(lease.seqNo, lease.at, lease.inputTokens + lease.outputBound, false)
  }

  /** Its rollback has been through the worker. */
  predicate CancelRan(op: Op) {
    op.phase.Cancelling? && op.result.Some?
  }

  predicate Asked(n: D.Node, lease: Lease) {
    (lease.ledgerId, lease.seqNo) in n.cancelled
  }

  /** The owner never asks for a settlement. */
  ghost predicate NodeOk(key: Key, n: D.Node) {
    D.Inv(n) && n.mem.lanes.Keys <= {key} && n.settlements == {}
  }

  ghost predicate NodesOk(c: Config, s: State) {
    && s.nodes.Keys == c.scopes.Keys
    && (forall k :: k in s.nodes ==> if s.loaded then NodeOk(k, s.nodes[k]) else s.nodes[k].mem == EMPTY)
  }

  ghost predicate Backed(nodes: map<Key, D.Node>, lease: Lease, ran: bool) {
    lease.key in nodes && lease in nodes[lease.key].acked && (ran || !Asked(nodes[lease.key], lease))
  }

  ghost predicate LeasesOk(ops: seq<Op>, nodes: map<Key, D.Node>) {
    forall i :: 0 <= i < |ops| && LeaseOf(ops[i]).Some? ==> Backed(nodes, LeaseOf(ops[i]).value, CancelRan(ops[i]))
  }

  predicate Same(l: Lease, m: Lease) {
    l.key == m.key && l.ledgerId == m.ledgerId && l.seqNo == m.seqNo
  }

  ghost predicate Apart(ops: seq<Op>) {
    forall i, j :: 0 <= i < j < |ops| && LeaseOf(ops[i]).Some? && LeaseOf(ops[j]).Some? ==>
      !Same(LeaseOf(ops[i]).value, LeaseOf(ops[j]).value)
  }

  /** Operations are opened on known scopes only. */
  ghost predicate KeysKnown(c: Config, ops: seq<Op>) {
    forall i :: 0 <= i < |ops| && !ops[i].kind.Start? ==> ops[i].kind.key in c.scopes
  }

  ghost predicate Inv(c: Config, s: State) {
    && Shape(s) && KeysKnown(c, s.ops) && CloseOk(s) && 0 <= s.pending <= c.maxPending
    && NodesOk(c, s) && LeasesOk(s.ops, s.nodes) && Apart(s.ops)
  }

  // ------------------------------------------------------------------- loop steps

  /** No operation answers for more than it did. */
  ghost predicate Kept(ops: seq<Op>, ops': seq<Op>) {
    && |ops| <= |ops'|
    && (forall i :: |ops| <= i < |ops'| ==> LeaseOf(ops'[i]).None?)
    && (forall i :: 0 <= i < |ops| ==> KeptOp(ops[i], ops'[i]))
  }

  predicate KeptOp(op: Op, op': Op) {
    LeaseOf(op').None? || (LeaseOf(op') == LeaseOf(op) && (CancelRan(op) ==> CancelRan(op')))
  }

  lemma KeptLeases(ops: seq<Op>, ops': seq<Op>, nodes: map<Key, D.Node>)
    requires Kept(ops, ops') && LeasesOk(ops, nodes) && Apart(ops)
    ensures LeasesOk(ops', nodes) && Apart(ops')
  {
    forall i, j | 0 <= i < j < |ops'| && LeaseOf(ops'[i]).Some? && LeaseOf(ops'[j]).Some?
      ensures !Same(LeaseOf(ops'[i]).value, LeaseOf(ops'[j]).value)
    {
      assert KeptOp(ops[i], ops'[i]) && KeptOp(ops[j], ops'[j]);
    }
    forall i | 0 <= i < |ops'| && LeaseOf(ops'[i]).Some?
      ensures Backed(nodes, LeaseOf(ops'[i]).value, CancelRan(ops'[i]))
    {
      assert KeptOp(ops[i], ops'[i]);
    }
  }

  lemma KeptUpdate(ops: seq<Op>, i: nat, op: Op)
    requires i < |ops| && KeptOp(ops[i], op)
    ensures Kept(ops, ops[i := op])
  {
  }

  /** The worker's pools are left alone and no operation answers for more. */
  ghost predicate LoopOnly(s: State, s': State) {
    Kept(s.ops, s'.ops) && s'.nodes == s.nodes && s'.loaded == s.loaded
  }

  lemma OpenKept(s: State, kind: Kind, job: Job, ok: bool)
    requires job.op == |s.ops|
    ensures LoopOnly(s, Open(s, kind, job, ok))
  {
  }

  lemma RollBackKept(s: State, i: nat, ok: bool)
    ensures LoopOnly(s, RollBackStep(s, i, ok))
  {
    if i < |s.ops| && s.ops[i].phase.RollingBack? && s.ops[i].result.Some? {
      if s.ops[i].result.value.Granted? {
        var lease := s.ops[i].result.value.lease;
        RollBackOps(s, i, lease, ok, RollBackStep(s, i, ok));
        KeptUpdate(s.ops, i, s.ops[i].(phase := Cancelling(lease), result := if ok then None else Some(Failed)));
      } else {
        MoveKept(s, i, Done);
      }
    }
  }

  lemma MoveKept(s: State, i: nat, phase: Phase)
    requires i < |s.ops| && !s.ops[i].phase.Done? && !phase.Cancelling? && (s.ops[i].phase.Cancelling? ==> phase.Done?)
    ensures LoopOnly(s, Move(s, i, phase)) && LoopOnly(s, Release(Move(s, i, phase)))
  {
    KeptUpdate(s.ops, i, s.ops[i].(phase := phase));
  }

  lemma ResumeKept(s: State, i: nat)
    ensures LoopOnly(s, ResumeStep(s, i))
  {
    if ResumeStep(s, i) != s {
      MoveKept(s, i, Active);
      MoveKept(s, i, Done);
      MoveKept(s, i, RollingBack);
    }
  }

  lemma TakeKept(s: State)
    requires JobsFit(s.ops, Work(s))
    ensures LoopOnly(s, TakeStep(s))
  {
    if s.running.None? && s.queue != [] && s.fault {
      var job := s.queue[0];
      assert Work(s)[0] == job;
      KeptUpdate(s.ops, job.op, s.ops[job.op].(result := Some(Failed)));
    }
  }

  lemma StartKept(c: Config, s: State, ok: bool)
    ensures LoopOnly(s, StartStep(c, s, ok))
  {
    OpenKept(s.(started := Some(|s.ops|)), Start, Load(|s.ops|), ok);
  }

  lemma ReserveKept(c: Config, s: State, key: Key, input: int, output: int, ok: bool)
    ensures LoopOnly(s, ReserveStep(c, s, key, input, output, ok))
  {
    OpenKept(s, Reserve(key, input, output), Debit(|s.ops|, key, input, output), ok);
  }

  lemma SnapshotKept(c: Config, s: State, key: Key, ok: bool)
    ensures LoopOnly(s, SnapshotStep(c, s, key, ok))
  {
    OpenKept(s, Snapshot(key), Count(|s.ops|, key), ok);
  }

  lemma LeaveKept(s: State, i: nat, now: real)
    ensures LoopOnly(s, AbandonStep(s, i)) && LoopOnly(s, ExitStep(s, i)) && LoopOnly(s, HandoffStep(s, i, now))
  {
    if AbandonStep(s, i) != s || ExitStep(s, i) != s {
      MoveKept(s, i, RollingBack);
    }
    if MayHandoff(s, i, now) {
      MoveKept(s, i, Sent);
    }
  }

  lemma DoneKept(s: State, i: nat)
    ensures LoopOnly(s, RolledBackStep(s, i)) && LoopOnly(s, OperationDoneStep(s, i))
  {
    if RolledBackStep(s, i) != s || OperationDoneStep(s, i) != s {
      MoveKept(s, i, Done);
    }
  }

  lemma LoopKept(c: Config, s: State, e: Event)
    requires !e.Finish? && JobsFit(s.ops, Work(s))
    ensures LoopOnly(s, Step(c, s, e))
  {
    match e
    case StartCall(ok) => StartKept(c, s, ok);
    case ReserveCall(key, input, output, ok) => ReserveKept(c, s, key, input, output, ok);
    case SnapshotCall(key, ok) => SnapshotKept(c, s, key, ok);
    case Resume(i) => ResumeKept(s, i);
    case Abandon(i) => LeaveKept(s, i, 0.0);
    case Handoff(i, now) => LeaveKept(s, i, now);
    case Exit(i) => LeaveKept(s, i, 0.0);
    case RollBack(i, ok) => RollBackKept(s, i, ok);
    case RolledBack(i) => DoneKept(s, i);
    case OperationDone(i) => DoneKept(s, i);
    case Take => TakeKept(s);
    case _ =>
  }

  // ------------------------------------------------------------------ the worker

  lemma WithLaneKeys(p: Pool, key: Key, id: string)
    requires p.lanes.Keys <= {key}
    ensures WithLane(p, key, id).lanes.Keys <= {key}
  {
  }

  /** An operation on the scope's own lane leaves every other key unused. */
  lemma UseNode(key: Key, n: D.Node, b: Budgets, id: string, op: H.Event)
    requires NodeOk(key, n) && HexId(id) && id !in n.used && !op.SettleAt?
    ensures NodeOk(key, D.InMemory(n, b, key, id, op)) && D.InMemory(n, b, key, id, op).acked == n.acked
  {
    WithLaneKeys(n.mem, key, id);
    D.InMemoryInv(n, b, key, id, op, D.InMemory(n, b, key, id, op));
  }

  /** What a debit does to the node's books. */
  lemma DebitedBooks(n: D.Node, b: Budgets, key: Key, input: int, output: int, now: real, id: string, o: Outcome,
      r: Reply, n': D.Node)
    requires (r, n') == Debited(n, b, key, input, output, now, id, o)
    ensures n'.cancelled == if r.Granted? then n.cancelled - {(r.lease.ledgerId, r.lease.seqNo)} else n.cancelled
    ensures n'.acked == n.acked + (if r.Granted? then [r.lease] else [])
    ensures n.settlements == {} ==> n'.settlements == {}
  {
    if r.Granted? {
      assert D.Except({}, r.lease) == {};
    }
  }

  lemma DebitedLanes(n: D.Node, b: Budgets, key: Key, input: int, output: int, now: real, id: string, o: Outcome)
    requires n.mem.lanes.Keys <= {key}
    ensures Debited(n, b, key, input, output, now, id, o).1.mem.lanes.Keys <= {key}
  {
    WithLaneKeys(n.mem, key, id);
  }

  lemma DebitedNode(key: Key, n: D.Node, b: Budgets, input: int, output: int, now: real, id: string, o: Outcome)
    requires NodeOk(key, n) && HexId(id) && id !in n.used
    ensures var (r, n') := Debited(n, b, key, input, output, now, id, o);
            && NodeOk(key, n') && n'.cancelled <= n.cancelled
            && n'.acked == n.acked + (if r.Granted? then [r.lease] else [])
            && (r.Granted? ==> r.lease.key == key && !Asked(n', r.lease))
  {
    var (r, n') := Debited(n, b, key, input, output, now, id, o);
    D.AdmitInv(n, b, key, id, now, input, output, o);
    DebitedLanes(n, b, key, input, output, now, id, o);
    DebitedBooks(n, b, key, input, output, now, id, o, r, n');
    DebitAnswers(n, b, key, input, output, now, id, o);
  }

  lemma SavedNode(key: Key, n: D.Node, b: Budgets, o: Outcome)
    requires NodeOk(key, n)
    ensures NodeOk(key, D.Step(n, b, D.Save(o))) && D.Step(n, b, D.Save(o)).acked == n.acked
    ensures D.Step(n, b, D.Save(o)).cancelled == n.cancelled
  {
    D.WrittenInv(n, o);
  }

  lemma CancelledNode(n: D.Node, b: Budgets, lease: Lease, now: real, id: string, o: Outcome)
    requires NodeOk(lease.key, n) && HexId(id) && id !in n.used
    ensures var (r, n') := Cancelled(n, b, lease, now, id, o);
            && NodeOk(lease.key, n') && n'.acked == n.acked && !r.Granted?
            && n'.cancelled <= n.cancelled + {(lease.ledgerId, lease.seqNo)}
  {
    UseNode(lease.key, n, b, id, H.CancelAt(now, lease));
    var n1 := D.InMemory(n, b, lease.key, id, H.CancelAt(now, lease));
    SavedNode(lease.key, n1, b, o);
    CancelledParts(n, b, lease, now, id, o, n1);
  }

  lemma CancelledParts(n: D.Node, b: Budgets, lease: Lease, now: real, id: string, o: Outcome, n1: D.Node)
    requires n1 == D.InMemory(n, b, lease.key, id, H.CancelAt(now, lease))
    ensures var (r, n') := Cancelled(n, b, lease, now, id, o); !r.Granted? && (n' == n1 || n' == D.Step(n1, b, D.Save(o)))
    ensures n1.cancelled <= n.cancelled + {(lease.ledgerId, lease.seqNo)}
  {
  }

  lemma CountedNode(key: Key, n: D.Node, b: Budgets, now: real, id: string)
    requires NodeOk(key, n) && HexId(id) && id !in n.used
    ensures var (r, n') := Counted(n, b, key, now, id);
            NodeOk(key, n') && n'.acked == n.acked && n'.cancelled == n.cancelled && !r.Granted?
  {
    UseNode(key, n, b, id, H.SnapshotAt(now));
  }

  /** Everything the worker's action on one scope does that the loop can rely on. */
  lemma OnNodeOk(key: Key, n: D.Node, b: Budgets, job: Job, now: real, id: string, o: Outcome)
    requires NodeOk(key, n) && HexId(id) && id !in n.used && KeyOf(job) == key && !job.Load?
    ensures var (r, n') := OnNode(n, b, job, now, id, o);
            && NodeOk(key, n')
            && n'.acked == n.acked + (if r.Granted? then [r.lease] else [])
            && (r.Granted? ==> r.lease.key == key && !Asked(n', r.lease))
            && n'.cancelled <= n.cancelled + (if job.Cancel? then {(job.lease.ledgerId, job.lease.seqNo)} else {})
  {
    match job
    case Debit(_, _, input, output) => DebitedNode(key, n, b, input, output, now, id, o);
    case Cancel(_, lease) => CancelledNode(n, b, lease, now, id, o);
    case Count(_, _) => CountedNode(key, n, b, now, id);
  }

  lemma LoadedNodeOk(key: Key, scope: Scope, n: D.Node)
    requires Loadable(key, scope, n.disk)
    ensures NodeOk(key, LoadedNode(n))
  {
    var p := D.OnDisk(n.disk).value;
    if n.disk.Some? {
      DecodeSound(n.disk.value);
    }
    LoadedInv(p, n.disk, LoadedNode(n));
  }

  lemma LoadedInv(p: Pool, disk: Option<Json>, n: D.Node)
    requires PoolOk(p) && D.OnDisk(disk) == Some(p) && n == D.Node(p, disk, [], {}, {}, Ids(p), 0.0)
    ensures D.Inv(n)
  {
  }

  lemma LoadFinish(c: Config, s: State, now: real, id: string, o: Outcome, readable: bool, s': State)
    requires Inv(c, s) && s.running.Some? && s.running.value.Load? && s' == FinishStep(c, s, now, id, o, readable)
    ensures NodesOk(c, s') && LeasesOk(s'.ops, s'.nodes) && Apart(s'.ops)
  {
    var job := s.running.value;
    assert Work(s)[0] == job && Fits(s.ops[job.op], job);
    assert !s.loaded;
    forall i | 0 <= i < |s.ops| ensures LeaseOf(s'.ops[i]).None? {
      assert s.ops[i].kind.Start? && OpOk(s.ops[i]);
    }
    var nodes := LoadAll(c, s.nodes);
    if nodes.Some? {
      forall k | k in s.nodes ensures NodeOk(k, nodes.value[k]) {
        LoadedNodeOk(k, c.scopes[k], s.nodes[k]);
      }
    }
  }

  /** A freshly granted lease, next to those already held. */
  lemma GrantLeases(ops: seq<Op>, nodes: map<Key, D.Node>, i: nat, lease: Lease, n': D.Node, ops': seq<Op>,
      nodes': map<Key, D.Node>)
    requires LeasesOk(ops, nodes) && Apart(ops) && i < |ops| && LeaseOf(ops[i]).None? && lease.key in nodes
    requires n'.acked == nodes[lease.key].acked + [lease] && n'.cancelled <= nodes[lease.key].cancelled
    requires D.Unshared(n'.acked) && !Asked(n', lease)
    requires ops' == ops[i := ops[i].(result := Some(Granted(lease)))] && nodes' == nodes[lease.key := n']
    requires LeaseOf(ops'[i]) == Some(lease)
    ensures LeasesOk(ops', nodes') && Apart(ops')
  {
    var k := |nodes[lease.key].acked|;
    assert n'.acked[k] == lease;
    forall j | 0 <= j < |ops| && j != i && LeaseOf(ops[j]).Some?
      ensures Backed(nodes', LeaseOf(ops[j]).value, CancelRan(ops[j])) && !Same(LeaseOf(ops[j]).value, lease)
    {
      var l := LeaseOf(ops[j]).value;
      assert Backed(nodes, l, CancelRan(ops[j]));
      if l.key == lease.key {
        var m :| 0 <= m < k && nodes[lease.key].acked[m] == l;
        assert n'.acked[m] == l;
      }
    }
  }

  /** A rollback's cancellation touches nobody else's lease. */
  lemma CancelLeases(ops: seq<Op>, nodes: map<Key, D.Node>, i: nat, lease: Lease, r: Reply, n': D.Node,
      ops': seq<Op>, nodes': map<Key, D.Node>)
    requires LeasesOk(ops, nodes) && Apart(ops) && i < |ops| && ops[i].phase == Cancelling(lease) && lease.key in nodes
    requires n'.acked == nodes[lease.key].acked
    requires n'.cancelled <= nodes[lease.key].cancelled + {(lease.ledgerId, lease.seqNo)}
    requires ops' == ops[i := ops[i].(result := Some(r))] && nodes' == nodes[lease.key := n']
    ensures LeasesOk(ops', nodes') && Apart(ops')
  {
    forall j | 0 <= j < |ops| && LeaseOf(ops'[j]).Some?
      ensures Backed(nodes', LeaseOf(ops'[j]).value, CancelRan(ops'[j]))
    {
      assert LeaseOf(ops[j]) == LeaseOf(ops'[j]);
      assert Backed(nodes, LeaseOf(ops[j]).value, CancelRan(ops[j]));
      if j != i {
        assert !Same(LeaseOf(ops[j]).value, LeaseOf(ops[i]).value);
      }
    }
  }

  /** Answers that bring no lease, and a node that cancelled nothing. */
  lemma PlainLeases(ops: seq<Op>, nodes: map<Key, D.Node>, i: nat, key: Key, r: Reply, n': D.Node,
      ops': seq<Op>, nodes': map<Key, D.Node>)
    requires LeasesOk(ops, nodes) && Apart(ops) && i < |ops| && key in nodes && !r.Granted?
    requires LeaseOf(ops[i]).None?
    requires n'.acked == nodes[key].acked && n'.cancelled <= nodes[key].cancelled
    requires ops' == ops[i := ops[i].(result := Some(r))] && nodes' == nodes[key := n']
    ensures LeasesOk(ops', nodes') && Apart(ops')
  {
    forall j | 0 <= j < |ops| && LeaseOf(ops'[j]).Some?
      ensures Backed(nodes', LeaseOf(ops'[j]).value, CancelRan(ops'[j]))
    {
      assert LeaseOf(ops[j]) == LeaseOf(ops'[j]);
      assert Backed(nodes, LeaseOf(ops[j]).value, CancelRan(ops[j]));
    }
  }

  lemma ActEffect(c: Config, s: State, key: Key, now: real, id: string, o: Outcome, readable: bool, s': State)
    requires s.running.Some? && !s.running.value.Load? && s' == FinishStep(c, s, now, id, o, readable)
    requires key == KeyOf(s.running.value) && key in s.nodes && key in c.scopes && s.running.value.op < |s.ops|
    ensures var job := s.running.value;
            var (r, n') := OnNode(s.nodes[key], c.scopes[key].budgets, job, now, id, o);
            && s'.nodes == s.nodes[key := n'] && s'.ops == s.ops[job.op := s.ops[job.op].(result := Some(r))]
            && s'.loaded == s.loaded
  {
  }

  lemma ActFinish(c: Config, s: State, now: real, id: string, o: Outcome, readable: bool, s': State)
    requires NodesOk(c, s) && s.loaded && LeasesOk(s.ops, s.nodes) && Apart(s.ops)
    requires s.running.Some? && !s.running.value.Load? && s' == FinishStep(c, s, now, id, o, readable)
    requires s.running.value.op < |s.ops| && Fits(s.ops[s.running.value.op], s.running.value)
    requires KeyOf(s.running.value) in s.nodes && Enabled(s, Finish(now, id, o, readable))
    ensures NodesOk(c, s') && LeasesOk(s'.ops, s'.nodes) && Apart(s'.ops)
  {
    var job := s.running.value;
    var key := KeyOf(job);
    var n, b := s.nodes[key], c.scopes[key].budgets;
    assert NodeOk(key, n);
    var (r, n') := OnNode(n, b, job, now, id, o);
    OnNodeOk(key, n, b, job, now, id, o);
    ActEffect(c, s, key, now, id, o, readable, s');
    OnlyDebitsGrant(n, b, job, now, id, o);
    FinishLeases(s.ops, s.nodes, job, key, r, n', s'.ops, s'.nodes);
    NodeReplaced(c, s, key, n', s');
  }

  lemma NodeReplaced(c: Config, s: State, key: Key, n': D.Node, s': State)
    requires NodesOk(c, s) && s.loaded && key in s.nodes && NodeOk(key, n')
    requires s'.nodes == s.nodes[key := n'] && s'.loaded == s.loaded
    ensures NodesOk(c, s')
  {
  }

  lemma OnlyDebitsGrant(n: D.Node, b: Budgets, job: Job, now: real, id: string, o: Outcome)
    ensures OnNode(n, b, job, now, id, o).0.Granted? ==> job.Debit?
  {
  }

  /** The key of a job is that of its operation, which was checked at the call. */
  lemma JobsKnown(c: Config, s: State)
    requires Inv(c, s) && s.running.Some? && !s.running.value.Load?
    ensures s.loaded && s.running.value.op < |s.ops| && Fits(s.ops[s.running.value.op], s.running.value)
    ensures KeyOf(s.running.value) == s.ops[s.running.value.op].kind.key
  {
    var job := s.running.value;
    assert Work(s)[0] == job;
    assert OpOk(s.ops[job.op]);
  }

  lemma FinishLeases(ops: seq<Op>, nodes: map<Key, D.Node>, job: Job, key: Key, r: Reply, n': D.Node,
      ops': seq<Op>, nodes': map<Key, D.Node>)
    requires LeasesOk(ops, nodes) && Apart(ops) && job.op < |ops| && Fits(ops[job.op], job) && !job.Load?
    requires key == KeyOf(job) && key in nodes && D.Unshared(n'.acked)
    requires r.Granted? ==> job.Debit? && r.lease.key == key && !Asked(n', r.lease)
    requires n'.acked == nodes[key].acked + (if r.Granted? then [r.lease] else [])
    requires n'.cancelled <= nodes[key].cancelled + (if job.Cancel? then {(job.lease.ledgerId, job.lease.seqNo)} else {})
    requires ops' == ops[job.op := ops[job.op].(result := Some(r))] && nodes' == nodes[key := n']
    ensures LeasesOk(ops', nodes') && Apart(ops')
  {
    if r.Granted? {
      GrantLeases(ops, nodes, job.op, r.lease, n', ops', nodes');
    } else if job.Cancel? {
      CancelLeases(ops, nodes, job.op, job.lease, r, n', ops', nodes');
    } else {
      PlainLeases(ops, nodes, job.op, key, r, n', ops', nodes');
    }
  }

  // ------------------------------------------------------------------- invariant

  lemma NodesKeyed(c: Config, s: State)
    requires NodesOk(c, s)
    ensures LanesKeyed(s.nodes)
  {
  }

  ghost predicate KindsKept(ops: seq<Op>, ops': seq<Op>) {
    |ops| <= |ops'| && forall i :: 0 <= i < |ops| ==> ops'[i].kind == ops[i].kind
  }

  lemma FinishKinds(c: Config, s: State, now: real, id: string, o: Outcome, readable: bool)
    ensures var s' := FinishStep(c, s, now, id, o, readable); KindsKept(s.ops, s'.ops) && |s'.ops| == |s.ops|
  {
    if s.running.Some? {
      ActKeeps(c, s, s.running.value, now, id, o, readable);
    }
  }

  lemma OpenKinds(s: State, kind: Kind, job: Job, ok: bool)
    requires job.op == |s.ops|
    ensures KindsKept(s.ops, Open(s, kind, job, ok).ops)
    ensures |Open(s, kind, job, ok).ops| == |s.ops| + 1 && Open(s, kind, job, ok).ops[|s.ops|].kind == kind
  {
  }

  lemma RollBackKinds(s: State, i: nat, ok: bool)
    ensures KindsKept(s.ops, RollBackStep(s, i, ok).ops) && |RollBackStep(s, i, ok).ops| == |s.ops|
  {
    if RollBackStep(s, i, ok) != s && s.ops[i].result.value.Granted? {
      RollBackOps(s, i, s.ops[i].result.value.lease, ok, RollBackStep(s, i, ok));
    }
  }

  lemma MoveKinds(s: State, i: nat, phase: Phase)
    ensures KindsKept(s.ops, Move(s, i, phase).ops) && |Move(s, i, phase).ops| == |s.ops|
  {
  }

  lemma ResumeKinds(s: State, i: nat)
    ensures KindsKept(s.ops, ResumeStep(s, i).ops) && |ResumeStep(s, i).ops| == |s.ops|
  {
    var s' := ResumeStep(s, i);
    if s' != s {
      match s.ops[i].result.value
      case Granted(_) => MoveKinds(s, i, Active);
      case Refused => MoveKinds(s, i, Done);
      case _ => MoveKinds(s, i, RollingBack);
    }
  }

  lemma TakeKinds(s: State)
    ensures KindsKept(s.ops, TakeStep(s).ops) && |TakeStep(s).ops| == |s.ops|
  {
  }

  /** A step that moves one operation or none keeps all kinds. */
  lemma MovedKinds(s: State, i: nat, phase: Phase, s': State)
    requires s' == s || s' == Move(s, i, phase) || s' == Release(Move(s, i, phase))
    ensures KindsKept(s.ops, s'.ops) && |s'.ops| == |s.ops|
  {
    MoveKinds(s, i, phase);
  }

  lemma MoverKinds(c: Config, s: State, e: Event)
    requires e.Resume? || e.Abandon? || e.Handoff? || e.Exit? || e.RolledBack? || e.OperationDone?
    ensures KindsKept(s.ops, Step(c, s, e).ops) && |Step(c, s, e).ops| == |s.ops|
  {
    match e
    case Resume(i) => ResumeKinds(s, i);
    case Abandon(i) => MovedKinds(s, i, RollingBack, AbandonStep(s, i));
    case Handoff(i, now) => MovedKinds(s, i, Sent, HandoffStep(s, i, now));
    case Exit(i) => MovedKinds(s, i, RollingBack, ExitStep(s, i));
    case RolledBack(i) => MovedKinds(s, i, Done, RolledBackStep(s, i));
    case OperationDone(i) => MovedKinds(s, i, Done, OperationDoneStep(s, i));
  }

  /** What it takes of a step for the operations to stay on known scopes. */
  ghost predicate KindsFit(c: Config, ops: seq<Op>, ops': seq<Op>) {
    && KindsKept(ops, ops')
    && (forall i :: |ops| <= i < |ops'| && !ops'[i].kind.Start? ==> ops'[i].kind.key in c.scopes)
  }

  lemma OpenedFit(c: Config, s: State, kind: Kind, job: Job, ok: bool)
    requires job.op == |s.ops| && (kind.Start? || kind.key in c.scopes)
    ensures KindsFit(c, s.ops, Open(s, kind, job, ok).ops)
  {
    OpenKinds(s, kind, job, ok);
  }

  lemma StartKinds(c: Config, s: State, ok: bool)
    ensures KindsFit(c, s.ops, StartStep(c, s, ok).ops)
  {
    OpenedFit(c, s.(started := Some(|s.ops|)), Start, Load(|s.ops|), ok);
  }

  lemma ReserveKinds(c: Config, s: State, key: Key, input: int, output: int, ok: bool)
    ensures KindsFit(c, s.ops, ReserveStep(c, s, key, input, output, ok).ops)
  {
    if key in c.scopes {
      OpenedFit(c, s, Reserve(key, input, output), Debit(|s.ops|, key, input, output), ok);
    }
  }

  lemma SnapshotKinds(c: Config, s: State, key: Key, ok: bool)
    ensures KindsFit(c, s.ops, SnapshotStep(c, s, key, ok).ops)
  {
    if key in c.scopes {
      OpenedFit(c, s, Snapshot(key), Count(|s.ops|, key), ok);
    }
  }

  lemma StepKinds(c: Config, s: State, e: Event, s': State)
    requires s' == Step(c, s, e)
    ensures KindsFit(c, s.ops, s'.ops)
  {
    match e
    case StartCall(ok) => StartKinds(c, s, ok);
    case ReserveCall(key, input, output, ok) => ReserveKinds(c, s, key, input, output, ok);
    case SnapshotCall(key, ok) => SnapshotKinds(c, s, key, ok);
    case RollBack(i, ok) => RollBackKinds(s, i, ok);
    case Finish(now, id, o, readable) => FinishKinds(c, s, now, id, o, readable);
    case Take => TakeKinds(s);
    case StartReturns =>
    case Close =>
    case Drain =>
    case _ => MoverKinds(c, s, e);
  }

  lemma KnownKept(c: Config, s: State, e: Event, s': State)
    requires KeysKnown(c, s.ops) && s' == Step(c, s, e)
    ensures KeysKnown(c, s'.ops)
  {
    StepKinds(c, s, e, s');
  }

  lemma StepInv(c: Config, s: State, e: Event)
    requires Inv(c, s) && Enabled(s, e)
    ensures Inv(c, Step(c, s, e))
  {
    var s' := Step(c, s, e);
    NodesKeyed(c, s);
    StepMoney(c, s, e, s');
    StepShape(c, s, e);
    KnownKept(c, s, e, s');
    CloseStep(c, s, e, s');
    PendingBound(c, s, e, s');
  }

  lemma StepShape(c: Config, s: State, e: Event)
    requires Shape(s) && LanesKeyed(s.nodes)
    ensures Shape(Step(c, s, e))
  {
    if e.Finish? {
      FinishShape(c, s, e.now, e.id, e.outcome, e.readable);
    } else {
      LoopShape(c, s, e);
    }
  }

  lemma StepMoney(c: Config, s: State, e: Event, s': State)
    requires Inv(c, s) && Enabled(s, e) && s' == Step(c, s, e)
    ensures NodesOk(c, s') && LeasesOk(s'.ops, s'.nodes) && Apart(s'.ops)
  {
    if !e.Finish? {
      LoopKept(c, s, e);
      KeptLeases(s.ops, s'.ops, s.nodes);
    } else if s.running.Some? {
      if s.running.value.Load? {
        LoadFinish(c, s, e.now, e.id, e.outcome, e.readable, s');
      } else {
        JobsKnown(c, s);
        ActFinish(c, s, e.now, e.id, e.outcome, e.readable, s');
      }
    }
  }

  /** The files of a new owner may hold anything; its pools are empty. */
  ghost predicate Unloaded(c: Config, nodes: map<Key, D.Node>) {
    c.maxPending > 0 && nodes.Keys == c.scopes.Keys && forall k :: k in nodes ==> nodes[k].mem == EMPTY
  }

  lemma {:induction false} ReachableInv(c: Config, nodes: map<Key, D.Node>, es: seq<Event>)
    requires Unloaded(c, nodes) && Legal(c, Initial(nodes), es)
    ensures Inv(c, Run(c, Initial(nodes), es))
  {
    if es != [] {
      ReachableInv(c, nodes, es[..|es| - 1]);
      StepInv(c, Run(c, Initial(nodes), es[..|es| - 1]), es[|es| - 1]);
    }
  }
}
