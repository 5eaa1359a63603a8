/**
 The persistence owner: one event loop, one worker with a first-in first-out queue, and a
 bounded number of permits.  Every step below runs without interruption: a stretch of loop
 code between two awaits, or the worker taking or finishing one job.
 */
module OwnerState {
  import opened Common
  import opened Ledger
  import opened LedgerCodec
  import opened LedgerPools
  import D = LedgerDurability
  import H = LedgerHistory

  datatype Scope = Scope(budgets: Budgets, coldStart: bool)

  datatype Config = Config(scopes: map<Key, Scope>, maxPending: int)

  /** What the worker answers. */
  datatype Reply = Granted(lease: Lease) | Refused | Finished | Failed

  datatype Kind = Start | Reserve(key: Key, input: int, output: int) | Snapshot(key: Key)

  /** Where an operation stands on the loop.  `Sent` and `Done` hold no permit. */
  datatype Phase = Waiting | Active | RollingBack | Cancelling(lease: Lease) | Sent | Done

  datatype Op = Op(kind: Kind, phase: Phase, result: Option<Reply>)

  datatype Job =
    | Load(op: nat)
    | Debit(op: nat, key: Key, input: int, output: int)
    | Cancel(op: nat, lease: Lease)
    | Count(op: nat, key: Key)

  /** `nodes` is the worker's: a pool and its file for every scope. */
  datatype State = State(ops: seq<Op>, pending: int, idle: bool, fault: bool, ready: bool, closing: bool, drained: bool,
                         started: Option<nat>, queue: seq<Job>, running: Option<Job>,
                         nodes: map<Key, D.Node>, loaded: bool)

  datatype Event =
    | StartCall(ok: bool)
    | StartReturns
    | ReserveCall(key: Key, input: int, output: int, ok: bool)
    | SnapshotCall(key: Key, ok: bool)
    | Resume(op: nat)
    | Abandon(op: nat)
    | Handoff(op: nat, now: real)
    | Exit(op: nat)
    | RollBack(op: nat, ok: bool)
    | RolledBack(op: nat)
    | OperationDone(op: nat)
    | Close
    | Drain
    | Take
    | Finish(now: real, id: string, outcome: Outcome, readable: bool)

  // ------------------------------------------------------------- loop primitives

  predicate Available(s: State, requireReady: bool) {
    !s.fault && !s.closing && (requireReady ==> s.ready)
  }

  predicate Claimable(c: Config, s: State, requireReady: bool) {
    Available(s, requireReady) && s.pending < c.maxPending
  }

  /** A permit is taken and the operation's job is queued; queueing itself may fail. */
  function Open(s: State, kind: Kind, job: Job, ok: bool): State {
    Submit(s.(ops := s.ops + [Op(kind, Waiting, None)], pending := s.pending + 1, idle := false), job, ok)
  }

  function Submit(s: State, job: Job, ok: bool): State {
    if ok then s.(queue := s.queue + [job]) else Answer(s.(fault := true), job.op, Failed)
  }

  function Answer(s: State, i: nat, r: Reply): State {
    if i < |s.ops| then s.(ops := s.ops[i := s.ops[i].(result := Some(r))]) else s
  }

  function Move(s: State, i: nat, phase: Phase): State {
    if i < |s.ops| then s.(ops := s.ops[i := s.ops[i].(phase := phase)]) else s
  }

  function Release(s: State): State {
    s.(pending := s.pending - 1, idle := s.idle || s.pending == 1)
  }

  // ------------------------------------------------------------------ the worker

  predicate Loadable(key: Key, scope: Scope, disk: Option<Json>) {
    if disk.None? then scope.coldStart
    else var p := Decode(disk.value); p.Some? && p.value.lanes.Keys <= {key}
  }

  function Ids(p: Pool): set<string> {
    set k | k in p.lanes :: p.lanes[k].id
  }

  function LoadedNode(n: D.Node): D.Node {
    var p := D.OnDisk(n.disk);
    if p.None? then n else D.Node(p.value, n.disk, [], {}, {}, Ids(p.value), 0.0)
  }

  function LoadAll(c: Config, nodes: map<Key, D.Node>): Option<map<Key, D.Node>> {
    if c.scopes.Keys == nodes.Keys && (forall k :: k in c.scopes ==> Loadable(k, c.scopes[k], nodes[k].disk))
    then Some(map k | k in nodes :: LoadedNode(nodes[k]))
    else None
  }

  function Debited(n: D.Node, b: Budgets, key: Key, input: int, output: int, now: real, id: string,
      o: Outcome): (Reply, D.Node) {
    var r := Admission(n.mem, n.disk, b, key, now, input, output, id, o).0;
    (if r.Err? then Failed else if r.value.Some? then Granted(r.value.value) else Refused,
     D.Step(n, b, D.Admit(key, id, now, input, output, o)))
  }

  /** Rolling back an unsent lease: the entry is removed, then the pool is saved. */
  function Cancelled(n: D.Node, b: Budgets, lease: Lease, now: real, id: string, o: Outcome): (Reply, D.Node) {
    var n' := D.Step(n, b, D.Use(lease.key, id, H.CancelAt(now, lease)));
    if !ValidKey(lease.key) || CancelUnsent(WithLane(n.mem, lease.key, id).lanes[lease.key], lease, now).0.Err?
    then (Failed, n')
    else (if o.Saved? then Finished else Failed, D.Step(n', b, D.Save(o)))
  }

  function Counted(n: D.Node, b: Budgets, key: Key, now: real, id: string): (Reply, D.Node) {
    (if now < 0.0 || !ValidKey(key) then Failed else Finished, D.Step(n, b, D.Use(key, id, H.SnapshotAt(now))))
  }

  function KeyOf(job: Job): Key {
    match job
    case Load(_) => ("", "", "")
    case Debit(_, key, _, _) => key
    case Cancel(_, lease) => lease.key
    case Count(_, key) => key
  }

  /** One action of the worker on the pool of its scope. */
  function OnNode(n: D.Node, b: Budgets, job: Job, now: real, id: string, o: Outcome): (Reply, D.Node) {
    match job
    case Load(_) => (Failed, n)
    case Debit(_, key, input, output) => Debited(n, b, key, input, output, now, id, o)
    case Cancel(_, lease) => Cancelled(n, b, lease, now, id, o)
    case Count(_, key) => Counted(n, b, key, now, id)
  }

  /** The same, on whichever scope it concerns. */
  function OnNodes(c: Config, nodes: map<Key, D.Node>, job: Job, now: real, id: string, o: Outcome)
    : (Reply, map<Key, D.Node>)
  {
    if KeyOf(job) !in nodes || KeyOf(job) !in c.scopes then (Failed, nodes)
    else
      var (r, n) := OnNode(nodes[KeyOf(job)], c.scopes[KeyOf(job)].budgets, job, now, id, o);
      (r, nodes[KeyOf(job) := n])
  }

  function Act(c: Config, s: State, job: Job, now: real, id: string, o: Outcome, readable: bool): (Reply, State) {
    if job.Load? then
      var nodes := LoadAll(c, s.nodes);
      if !readable || nodes.None? then (Failed, s) else (Finished, s.(nodes := nodes.value, loaded := true))
    else
      var (r, nodes) := OnNodes(c, s.nodes, job, now, id, o);
      (r, s.(nodes := nodes))
  }

  // ----------------------------------------------------------------------- steps

  function StartStep(c: Config, s: State, ok: bool): State {
    if s.started.Some? || !Claimable(c, s, false) then s
    else Open(s.(started := Some(|s.ops|)), Start, Load(|s.ops|), ok)
  }

  function StartReturnsStep(s: State): State {
    if s.started.Some? && s.started.value < |s.ops| && s.ops[s.started.value].result == Some(Finished) && Available(s, false)
    then s.(ready := true)
    else s
  }

  function ReserveStep(c: Config, s: State, key: Key, input: int, output: int, ok: bool): State {
    if key !in c.scopes || input <= 0 || output <= 0 || !Claimable(c, s, true) then s
    else Open(s, Reserve(key, input, output), Debit(|s.ops|, key, input, output), ok)
  }

  function SnapshotStep(c: Config, s: State, key: Key, ok: bool): State {
    if key !in c.scopes || !Claimable(c, s, true) then s
    else Open(s, Snapshot(key), Count(|s.ops|, key), ok)
  }

  /** The debit's wait ends in time. */
  function ResumeStep(s: State, i: nat): State {
    if !(i < |s.ops| && s.ops[i].kind.Reserve? && s.ops[i].phase.Waiting? && s.ops[i].result.Some?) then s
    else match s.ops[i].result.value
      case Granted(_) => Move(s, i, Active)
      case Refused => Release(Move(s, i, Done))
      case _ => Move(s, i, RollingBack)
  }

  /** The wait times out or its caller is cancelled; the job goes on. */
  function AbandonStep(s: State, i: nat): State {
    if i < |s.ops| && s.ops[i].kind.Reserve? && s.ops[i].phase.Waiting? then Move(s, i, RollingBack) else s
  }

  predicate MayHandoff(s: State, i: nat, now: real) {
    && Available(s, true) && i < |s.ops| && s.ops[i].phase.Active?
    && s.ops[i].result.Some? && s.ops[i].result.value.Granted?
    && now >= 0.0 && 0.0 <= now - s.ops[i].result.value.lease.at < WINDOW_S
  }

  function HandoffStep(s: State, i: nat, now: real): State {
    if MayHandoff(s, i, now) then Release(Move(s, i, Sent)) else s
  }

  /** Leaving the context with the ticket unsent. */
  function ExitStep(s: State, i: nat): State {
    if i < |s.ops| && s.ops[i].phase.Active? then Move(s, i, RollingBack) else s
  }

  /** The rollback task learns the fate of the debit. */
  function RollBackStep(s: State, i: nat, ok: bool): State {
    if !(i < |s.ops| && s.ops[i].phase.RollingBack? && s.ops[i].result.Some?) then s
    else if s.ops[i].result.value.Granted? then
      var lease := s.ops[i].result.value.lease;
      Submit(s.(ops := s.ops[i := s.ops[i].(phase := Cancelling(lease), result := None)]), Cancel(i, lease), ok)
    else Release(Move(s, i, Done))
  }

  function RolledBackStep(s: State, i: nat): State {
    if i < |s.ops| && s.ops[i].phase.Cancelling? && s.ops[i].result.Some? then Release(Move(s, i, Done)) else s
  }

  /** The completion callback of a start or a snapshot. */
  function OperationDoneStep(s: State, i: nat): State {
    if i < |s.ops| && !s.ops[i].kind.Reserve? && s.ops[i].phase.Waiting? && s.ops[i].result.Some?
    then Release(Move(s, i, Done))
    else s
  }

  /** The worker takes the next job; after a fault it refuses it without acting. */
  function TakeStep(s: State): State {
    if s.running.Some? || s.queue == [] then s
    else if s.fault then Answer(s.(queue := s.queue[1..]), s.queue[0].op, Failed)
    else s.(queue := s.queue[1..], running := Some(s.queue[0]))
  }

  /** The worker hands its answer to the loop; an action that failed is a fault. */
  function Conclude(s: State, job: Job, r: Reply): State {
    Answer(s.(running := None, fault := s.fault || r.Failed?), job.op, r)
  }

  function FinishStep(c: Config, s: State, now: real, id: string, o: Outcome, readable: bool): State {
    if s.running.None? then s
    else
      var (r, s') := Act(c, s, s.running.value, now, id, o, readable);
      Conclude(s', s.running.value, r)
  }

  function Step(c: Config, s: State, e: Event): State {
    match e
    case StartCall(ok) => StartStep(c, s, ok)
    case StartReturns => StartReturnsStep(s)
    case ReserveCall(key, input, output, ok) => ReserveStep(c, s, key, input, output, ok)
    case SnapshotCall(key, ok) => SnapshotStep(c, s, key, ok)
    case Resume(i) => ResumeStep(s, i)
    case Abandon(i) => AbandonStep(s, i)
    case Handoff(i, now) => HandoffStep(s, i, now)
    case Exit(i) => ExitStep(s, i)
    case RollBack(i, ok) => RollBackStep(s, i, ok)
    case RolledBack(i) => RolledBackStep(s, i)
    case OperationDone(i) => OperationDoneStep(s, i)
    case Close => s.(closing := true)
    case Drain => if s.closing && s.idle then s.(drained := true) else s
    case Take => TakeStep(s)
    case Finish(now, id, o, readable) => FinishStep(c, s, now, id, o, readable)
  }

  /** A worker action that creates a ledger draws an identity nobody has used. */
  predicate Enabled(s: State, e: Event) {
    (e.Finish? && s.running.Some? && !s.running.value.Load? && KeyOf(s.running.value) in s.nodes)
    ==> HexId(e.id) && e.id !in s.nodes[KeyOf(s.running.value)].used
  }

  /** A new owner over the files as they are. */
  function Initial(nodes: map<Key, D.Node>): State {
    State([], 0, true, false, false, false, false, None, [], None, nodes, false)
  }

  ghost function Run(c: Config, s: State, es: seq<Event>): State {
    if es == [] then s else Step(c, Run(c, s, es[..|es| - 1]), es[|es| - 1])
  }

  ghost predicate Legal(c: Config, s: State, es: seq<Event>) {
    es == [] || (Legal(c, s, es[..|es| - 1]) && Enabled(Run(c, s, es[..|es| - 1]), es[|es| - 1]))
  }
}
