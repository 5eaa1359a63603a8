/**
 The persistence owner as an object over `LedgerPool` objects, one for each scope.  Each method
 is one stretch of code that runs without interruption; its contract ties the fields to the step
 functions of `OwnerState`, about which the guarantees are proved.  The pools belong to the
 worker: the loop's methods write the loop's fields only, so they leave `Valid` as it is.
 */
module PersistenceOwners {
  import opened Common
  import opened Ledger
  import opened LedgerCodec
  import opened LedgerPools
  import opened OwnerState
  import opened OwnerPools
  import OwnerConservation
  import OwnerLedger
  import OwnerPermits
  import D = LedgerDurability

  datatype Refusal = Faulted | NotOpen | Full | UnknownScope | BadTokens | NotActive | Stale

  datatype Admitted<+T> = Yes(value: T) | No(why: Refusal)

  /** Why admission is closed, if it is. */
  function Closed(s: State, requireReady: bool): Option<Refusal> {
    if s.fault then Some(Faulted) else if s.closing || (requireReady && !s.ready) then Some(NotOpen) else None
  }

  function Unclaimable(c: Config, s: State, requireReady: bool): Option<Refusal> {
    if Closed(s, requireReady).Some? then Closed(s, requireReady)
    else if s.pending >= c.maxPending then Some(Full) else None
  }

  lemma UnreadIsNew(c: Config, files: map<Key, Option<Json>>)
    requires c.maxPending > 0 && files.Keys == c.scopes.Keys
    ensures OwnerLedger.Unloaded(c, Unread(files)) && OwnerConservation.Unacked(Unread(files))
  {
  }

  lemma JobsKnownInOrder(c: Config, s: State)
    requires OwnerLedger.Inv(c, s)
    ensures s.running.Some? ==> s.running.value.op < |s.ops| && (s.running.value.Load? <==> !s.loaded)
    ensures s.queue != [] ==> s.queue[0].op < |s.ops|
  {
    var work := OwnerPermits.Work(s);
    if s.queue != [] {
      assert work[|work| - |s.queue|] == s.queue[0];
    }
    if s.running.Some? {
      assert work[0] == s.running.value && OwnerPermits.Fits(s.ops[work[0].op], work[0]);
    }
  }

  /** What the worker's methods require of their callers holds whenever they are called: in every
      run from any files, the load is the first job to be performed and the only one of its kind,
      and every job belongs to an operation. */
  lemma JobsInOrder(c: Config, files: map<Key, Option<Json>>, es: seq<Event>)
    requires c.maxPending > 0 && files.Keys == c.scopes.Keys && Legal(c, Initial(Unread(files)), es)
    ensures var s := Run(c, Initial(Unread(files)), es);
            && (s.running.Some? ==> s.running.value.op < |s.ops| && (s.running.value.Load? <==> !s.loaded))
            && (s.queue != [] ==> s.queue[0].op < |s.ops|)
  {
    UnreadIsNew(c, files);
    OwnerLedger.ReachableInv(c, Unread(files), es);
    JobsKnownInOrder(c, Run(c, Initial(Unread(files)), es));
  }

  class PersistenceOwner {
    const config: Config
    var pending: int
    var idle: bool
    var fault: bool
    var ready: bool
    var closing: bool
    var drained: bool
    var started: Option<nat>
    var ops: seq<Op>
    var queue: seq<Job>
    var running: Option<Job>
    /** The state files as the owner found them. */
    const files: map<Key, Option<Json>>
    var pools: map<Key, LedgerPool>
    /** What the pools and their files hold, with the history that the guarantees speak about. */
    ghost var nodes: map<Key, D.Node>
    ghost var loaded: bool
    /** The worker's objects. */
    ghost var Repr: set<object>

    ghost function View(): State
      reads this
    {
      State(ops, pending, idle, fault, ready, closing, drained, started, queue, running, nodes, loaded)
    }

    /** Once loaded, every scope has a pool of its own that stands for its node. */
    ghost predicate Valid()
      reads this`pools, this`nodes, this`loaded, this`Repr, Repr
    {
      && files.Keys == config.scopes.Keys && nodes.Keys == config.scopes.Keys && pools.Keys <= config.scopes.Keys
      && (!loaded ==> forall k :: k in nodes ==> nodes[k].mem == EMPTY && nodes[k].disk == files[k])
      && this !in Repr && (loaded ==> AllServe(pools, nodes, config, Repr))
    }

    constructor (config: Config, files: map<Key, Option<Json>>)
      requires files.Keys == config.scopes.Keys
      ensures this.config == config && this.files == files && View() == Initial(Unread(files)) && Valid()
    {
      this.config, this.files, pools, nodes, loaded := config, files, map[], Unread(files), false;
      Repr := {};
      pending, idle, fault, ready, closing, drained := 0, true, false, false, false, false;
      started, ops, queue, running := None, [], [], None;
    }

    // ------------------------------------------------------------------ primitives

    method Check(requireReady: bool) returns (why: Option<Refusal>)
      ensures why == Closed(View(), requireReady)
      ensures why.None? <==> Available(View(), requireReady)
    {
      if fault {
        return Some(Faulted);
      }
      if closing || (requireReady && !ready) {
        return Some(NotOpen);
      }
      return None;
    }

    /** Take a permit for a new operation, or refuse at once. */
    method Claim(requireReady: bool, kind: Kind) returns (r: Admitted<nat>)
      modifies this`pending, this`idle, this`ops
      ensures Claimable(config, old(View()), requireReady) <==> r.Yes?
      ensures r.No? ==> View() == old(View()) && Some(r.why) == Unclaimable(config, old(View()), requireReady)
      ensures r.Yes? ==> r.value == |old(ops)|
      ensures r.Yes? ==>
        View() == old(View()).(ops := old(ops) + [Op(kind, Waiting, None)], pending := old(pending) + 1, idle := false)
    {
      var why := Check(requireReady);
      if why.Some? {
        return No(why.value);
      }
      if pending >= config.maxPending {
        return No(Full);
      }
      pending := pending + 1;
      idle := false;
      ops := ops + [Op(kind, Waiting, None)];
      return Yes(|ops| - 1);
    }

    method GiveBack()
      modifies this`pending, this`idle
      ensures View() == Release(old(View()))
    {
      pending := pending - 1;
      if pending == 0 {
        idle := true;
      }
    }

    /** Queue a job for the worker; if that fails, its operation has failed. */
    method Enqueue(job: Job, ok: bool)
      requires job.op < |ops|
      modifies this`queue, this`fault, this`ops
      ensures View() == Submit(old(View()), job, ok)
    {
      if ok {
        queue := queue + [job];
      } else {
        fault := true;
        ops := ops[job.op := ops[job.op].(result := Some(Failed))];
      }
    }

    method SetPhase(i: nat, phase: Phase)
      requires i < |ops|
      modifies this`ops
      ensures View() == Move(old(View()), i, phase)
    {
      ops := ops[i := ops[i].(phase := phase)];
    }

    // -------------------------------------------------------------- start and close

    method StartLoading(ok: bool) returns (r: Admitted<nat>)
      modifies this`pending, this`idle, this`ops, this`started, this`queue, this`fault
      ensures View() == StartStep(config, old(View()), ok)
      ensures old(started).None? && Unclaimable(config, old(View()), false).Some?
        ==> r.No? && Some(r.why) == Unclaimable(config, old(View()), false)
    {
      var why := Check(false);
      if why.Some? {
        return No(why.value);
      }
      if started.Some? {
        return Yes(started.value);
      }
      r := Claim(false, Start);
      if r.Yes? {
        started := Some(r.value);
        Enqueue(Load(r.value), ok);
      }
    }

    method StartReturned()
      modifies this`ready
      ensures View() == StartReturnsStep(old(View()))
    {
      if started.Some? && started.value < |ops| && ops[started.value].result == Some(Finished) {
        var why := Check(false);
        if why.None? {
          ready := true;
        }
      }
    }

    method BeginClose()
      modifies this`closing
      ensures View() == Step(config, old(View()), Close)
    {
      closing := true;
    }

    /** The drain task passes the idle event and shuts the executor down. */
    method FinishDrain()
      modifies this`drained
      ensures View() == Step(config, old(View()), Drain)
      ensures drained && !old(drained) ==> closing && idle
    {
      if closing && idle {
        drained := true;
      }
    }

    // -------------------------------------------------------------- reserve, handoff

    method BeginReserve(key: Key, input: int, output: int, ok: bool) returns (r: Admitted<nat>)
      modifies this`pending, this`idle, this`ops, this`queue, this`fault
      ensures View() == ReserveStep(config, old(View()), key, input, output, ok)
      ensures r.Yes? <==> key in config.scopes && input > 0 && output > 0 && Claimable(config, old(View()), true)
      ensures r.Yes? ==> r.value == |old(ops)|
    {
      if key !in config.scopes {
        return No(UnknownScope);
      }
      if input <= 0 || output <= 0 {
        return No(BadTokens);
      }
      r := Claim(true, Reserve(key, input, output));
      if r.Yes? {
        Enqueue(Debit(r.value, key, input, output), ok);
      }
    }

    /** The wait for the debit ends with an answer. */
    method ResumeReserve(i: nat)
      modifies this`ops, this`pending, this`idle
      ensures View() == ResumeStep(old(View()), i)
    {
      if i < |ops| && ops[i].kind.Reserve? && ops[i].phase.Waiting? && ops[i].result.Some? {
        match ops[i].result.value {
          case Granted(_) => SetPhase(i, Active);
          case Refused =>
            SetPhase(i, Done);
            GiveBack();
          case _ => SetPhase(i, RollingBack);
        }
      }
    }

    /** The wait for the debit is given up; a rollback task takes the operation over. */
    method AbandonReserve(i: nat)
      modifies this`ops
      ensures View() == AbandonStep(old(View()), i)
    {
      if i < |ops| && ops[i].kind.Reserve? && ops[i].phase.Waiting? {
        SetPhase(i, RollingBack);
      }
    }

    method HandOff(i: nat, now: real) returns (r: Admitted<Lease>)
      modifies this`ops, this`pending, this`idle
      ensures View() == HandoffStep(old(View()), i, now)
      ensures r.Yes? <==> MayHandoff(old(View()), i, now)
      ensures r.Yes? ==> old(ops[i]).result == Some(Granted(r.value))
    {
      var why := Check(true);
      if why.Some? {
        return No(why.value);
      }
      if !(i < |ops| && ops[i].phase.Active? && ops[i].result.Some? && ops[i].result.value.Granted?) {
        return No(NotActive);
      }
      var lease := ops[i].result.value.lease;
      if now < 0.0 || now - lease.at < 0.0 || now - lease.at >= WINDOW_S {
        return No(Stale);
      }
      SetPhase(i, Sent);
      GiveBack();
      return Yes(lease);
    }

    /** Leaving the context: an unsent ticket is rolled back. */
    method ExitReserve(i: nat)
      modifies this`ops
      ensures View() == ExitStep(old(View()), i)
    {
      if i < |ops| && ops[i].phase.Active? {
        SetPhase(i, RollingBack);
      }
    }

    method RollBackUnsent(i: nat, ok: bool)
      modifies this`ops, this`queue, this`fault, this`pending, this`idle
      ensures View() == RollBackStep(old(View()), i, ok)
    {
      if i < |ops| && ops[i].phase.RollingBack? && ops[i].result.Some? {
        if ops[i].result.value.Granted? {
          var lease := ops[i].result.value.lease;
          ops := ops[i := ops[i].(phase := Cancelling(lease), result := None)];
          Enqueue(Cancel(i, lease), ok);
        } else {
          SetPhase(i, Done);
          GiveBack();
        }
      }
    }

    method RollbackDone(i: nat)
      modifies this`ops, this`pending, this`idle
      ensures View() == RolledBackStep(old(View()), i)
    {
      if i < |ops| && ops[i].phase.Cancelling? && ops[i].result.Some? {
        SetPhase(i, Done);
        GiveBack();
      }
    }

    method BeginSnapshot(key: Key, ok: bool) returns (r: Admitted<nat>)
      modifies this`pending, this`idle, this`ops, this`queue, this`fault
      ensures View() == SnapshotStep(config, old(View()), key, ok)
      ensures r.Yes? <==> key in config.scopes && Claimable(config, old(View()), true)
    {
      if key !in config.scopes {
        return No(UnknownScope);
      }
      r := Claim(true, Snapshot(key));
      if r.Yes? {
        Enqueue(Count(r.value, key), ok);
      }
    }

    method OperationFinished(i: nat)
      modifies this`ops, this`pending, this`idle
      ensures View() == OperationDoneStep(old(View()), i)
    {
      if i < |ops| && !ops[i].kind.Reserve? && ops[i].phase.Waiting? && ops[i].result.Some? {
        SetPhase(i, Done);
        GiveBack();
      }
    }

    // ------------------------------------------------------------------ the worker

    /** The fault barrier: checked before every queued action. */
    method TakeJob()
      requires queue != [] ==> queue[0].op < |ops|
      modifies this`queue, this`running, this`ops
      ensures View() == TakeStep(old(View()))
    {
      if running.None? && queue != [] {
        var job := queue[0];
        queue := queue[1..];
        if fault {
          ops := ops[job.op := ops[job.op].(result := Some(Failed))];
        } else {
          running := Some(job);
        }
      }
    }

    /** The books follow what the pools now hold. */
    ghost method Record(nodes: map<Key, D.Node>, loaded: bool, repr: set<object>)
      modifies this`nodes, this`loaded, this`Repr
      ensures this.nodes == nodes && this.loaded == loaded && Repr == repr
    {
      this.nodes, this.loaded, Repr := nodes, loaded, repr;
    }

    method LoadScopes() returns (ok: bool)
      requires Valid() && !loaded
      modifies this`pools, this`nodes, this`loaded, this`Repr
      ensures Valid() && fresh(Repr - old(Repr))
      ensures ok <==> LoadAll(config, old(nodes)).Some?
      ensures loaded == ok && nodes == if ok then LoadAll(config, old(nodes)).value else old(nodes)
    {
      var built;
      ghost var repr;
      ok, built, repr := LoadPools(config, files, nodes);
      if ok {
        pools := built;
        Record(LoadAll(config, nodes).value, true, repr);
      }
    }

    method ActOn(key: Key, job: Job, now: real, id: string, o: Outcome) returns (r: Reply)
      requires Valid() && loaded && !job.Load? && key in pools && key == KeyOf(job)
      modifies this`nodes, this`loaded, this`Repr, pools[key], LaneOf(pools[key], key)
      ensures Valid() && fresh(Repr - old(Repr))
      ensures loaded
      ensures var (a, n) := OnNode(old(nodes)[key], config.scopes[key].budgets, job, now, id, o);
              r == a && nodes == old(nodes)[key := n]
    {
      ghost var n', repr';
      r, n', repr' := OnPools(pools, nodes, config, Repr, key, job, now, id, o);
      SameScopes(nodes, config, key, n');
      Record(nodes[key := n'], true, repr');
    }

    method PerformLoad(readable: bool) returns (r: Reply)
      requires Valid() && !loaded
      modifies this`pools, this`nodes, this`loaded, this`Repr
      ensures Valid() && fresh(Repr - old(Repr))
      ensures loaded <==> readable && LoadAll(config, old(nodes)).Some?
      ensures r == if loaded then Finished else Failed
      ensures nodes == if loaded then LoadAll(config, old(nodes)).value else old(nodes)
    {
      if !readable {
        return Failed;
      }
      var ok := LoadScopes();
      return if ok then Finished else Failed;
    }

    method PerformAction(job: Job, now: real, id: string, o: Outcome) returns (r: Reply)
      requires Valid() && !job.Load? && loaded
      modifies this`nodes, this`loaded, this`Repr, Repr
      ensures Valid() && fresh(Repr - old(Repr))
      ensures loaded && (r, nodes) == OnNodes(config, old(nodes), job, now, id, o)
    {
      if KeyOf(job) !in pools {
        return Failed;
      }
      r := ActOn(KeyOf(job), job, now, id, o);
    }

    method PerformJob(job: Job, now: real, id: string, o: Outcome, readable: bool) returns (r: Reply)
      requires Valid() && (job.Load? <==> !loaded)
      modifies this`pools, this`nodes, this`loaded, this`Repr, Repr
      ensures Valid() && fresh(Repr - old(Repr))
      ensures (r, View()) == Act(config, old(View()), job, now, id, o, readable)
    {
      if job.Load? {
        r := PerformLoad(readable);
      } else {
        r := PerformAction(job, now, id, o);
      }
    }

    method RecordAnswer(job: Job, reply: Reply)
      requires job.op < |ops|
      modifies this`running, this`fault, this`ops
      ensures View() == Conclude(old(View()), job, reply)
    {
      running := None;
      if reply.Failed? {
        fault := true;
      }
      ops := ops[job.op := ops[job.op].(result := Some(reply))];
    }

    /** The answer reaches the loop; the pools are not touched. */
    method ConcludeJob(job: Job, reply: Reply)
      requires Valid() && job.op < |ops|
      modifies this`running, this`fault, this`ops
      ensures Valid()
      ensures View() == Conclude(old(View()), job, reply)
    {
      RecordAnswer(job, reply);
    }

    method FinishJob(now: real, id: string, o: Outcome, readable: bool)
      requires Valid() && (running.Some? ==> running.value.op < |ops| && (running.value.Load? <==> !loaded))
      modifies this`running, this`fault, this`ops, this`pools, this`nodes, this`loaded, this`Repr, Repr
      ensures Valid() && fresh(Repr - old(Repr))
      ensures View() == FinishStep(config, old(View()), now, id, o, readable)
    {
      if running.Some? {
        var job := running.value;
        var reply := PerformJob(job, now, id, o, readable);
        ConcludeJob(job, reply);
      }
    }
  }
}
