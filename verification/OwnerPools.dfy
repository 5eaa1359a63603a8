/**
 What the persistence owner's worker does to its `LedgerPool` objects.  Each action takes the
 pool object of one scope where the value function of `OwnerState` takes the scope's node; no
 scope's action touches another scope's objects.
 */
module OwnerPools {
  import opened Common
  import opened Ledger
  import opened LedgerCodec
  import opened LedgerPools
  import opened OwnerState
  import D = LedgerDurability

  // ------------------------------------------------------- worker actions on one pool

  /** The pool object has the node's pool in memory and the node's file under it. */
  ghost predicate Stands(p: LedgerPool, n: D.Node, b: Budgets)
    reads p, p.lanes.Values
  {
    p.Valid() && p.persistent && p.budgets == b && p.View() == n.mem && p.disk == n.disk
  }

  method DebitOn(p: LedgerPool, ghost n: D.Node, key: Key, input: int, output: int, now: real, id: string, o: Outcome)
    returns (r: Reply, ghost n': D.Node)
    requires Stands(p, n, p.budgets)
    modifies p, p.lanes.Values
    ensures Stands(p, n', p.budgets) && fresh(p.lanes.Values - old(p.lanes.Values))
    ensures (r, n') == Debited(n, p.budgets, key, input, output, now, id, o)
  {
    n' := Debited(n, p.budgets, key, input, output, now, id, o).1;
    var lease := p.CheckAndDebit(key, now, input, output, id, o);
    r := if lease.Err? then Failed else if lease.value.Some? then Granted(lease.value.value) else Refused;
  }

  method CancelLane(p: LedgerPool, lease: Lease, now: real) returns (r: Result<int>)
    requires p.Valid() && lease.key in p.lanes
    modifies p.lanes[lease.key]
    ensures var q := old(p.View());
            var (c, l) := CancelUnsent(q.lanes[lease.key], lease, now);
            r == c && p.View() == q.(lanes := q.lanes[lease.key := l])
  {
    ghost var q := p.View();
    r := p.lanes[lease.key].CancelUnsentLease(lease, now);
    OneLaneChanged(p.order, p.lanes, lease.key, q);
  }

  /** The entry is taken out in memory. */
  method CancelInMemory(p: LedgerPool, lease: Lease, now: real, id: string) returns (r: Result<int>)
    requires p.Valid()
    modifies p`order, p`lanes, p.lanes.Values
    ensures p.Valid() && fresh(p.lanes.Values - old(p.lanes.Values))
    ensures !ValidKey(lease.key) ==> r.Err? && p.View() == old(p.View())
    ensures ValidKey(lease.key) ==>
      var q := WithLane(old(p.View()), lease.key, id);
      var (c, l) := CancelUnsent(q.lanes[lease.key], lease, now);
      r == c && p.View() == q.(lanes := q.lanes[lease.key := l])
  {
    var ledger := p.LedgerFor(lease.key, id);
    if ledger.Err? {
      return Err(ledger.error);
    }
    assert lease.key in old(p.lanes) ==> ledger.value in old(p.lanes.Values);
    r := CancelLane(p, lease, now);
  }

  /** The node after a rollback, as pool and file. */
  lemma CancelledPool(n: D.Node, b: Budgets, lease: Lease, now: real, id: string, o: Outcome)
    ensures var (r, n') := Cancelled(n, b, lease, now, id, o);
            if !ValidKey(lease.key) then r.Failed? && n'.mem == n.mem && n'.disk == n.disk
            else
              var q := WithLane(n.mem, lease.key, id);
              var (c, l) := CancelUnsent(q.lanes[lease.key], lease, now);
              && n'.mem == q.(lanes := q.lanes[lease.key := l])
              && if c.Err? then r.Failed? && n'.disk == n.disk
                 else r == (if o.Saved? then Finished else Failed) && n'.disk == Written(n'.mem, n.disk, o)
  {
  }

  lemma CountedPool(n: D.Node, b: Budgets, key: Key, now: real, id: string)
    ensures var (r, n') := Counted(n, b, key, now, id);
            && n'.disk == n.disk && (r.Finished? <==> now >= 0.0 && ValidKey(key)) && (r.Finished? || r.Failed?)
            && if !ValidKey(key) then n'.mem == n.mem
               else
                 var q := WithLane(n.mem, key, id);
                 var l := q.lanes[key];
                 n'.mem == q.(lanes := q.lanes[key := if now < 0.0 then l else l.(entries := Prune(l.entries, now))])
  {
  }

  /** Rolling back: the entry is taken out, and only then is the pool saved. */
  method CancelAndSave(p: LedgerPool, lease: Lease, now: real, id: string, o: Outcome) returns (r: Reply)
    requires p.Valid() && p.persistent
    modifies p, p.lanes.Values
    ensures p.Valid() && fresh(p.lanes.Values - old(p.lanes.Values))
    ensures !ValidKey(lease.key) ==> r.Failed? && p.View() == old(p.View()) && p.disk == old(p.disk)
    ensures ValidKey(lease.key) ==>
      var q := WithLane(old(p.View()), lease.key, id);
      var (c, l) := CancelUnsent(q.lanes[lease.key], lease, now);
      && p.View() == q.(lanes := q.lanes[lease.key := l])
      && if c.Err? then r.Failed? && p.disk == old(p.disk)
         else r == (if o.Saved? then Finished else Failed) && p.disk == Written(p.View(), old(p.disk), o)
  {
    var tokens := CancelInMemory(p, lease, now, id);
    if tokens.Err? {
      return Failed;
    }
    var saved := p.Save(o);
    r := if saved.Ok? then Finished else Failed;
  }

  method CancelOn(p: LedgerPool, ghost n: D.Node, lease: Lease, now: real, id: string, o: Outcome)
    returns (r: Reply, ghost n': D.Node)
    requires Stands(p, n, p.budgets)
    modifies p, p.lanes.Values
    ensures Stands(p, n', p.budgets) && fresh(p.lanes.Values - old(p.lanes.Values))
    ensures (r, n') == Cancelled(n, p.budgets, lease, now, id, o)
  {
    n' := Cancelled(n, p.budgets, lease, now, id, o).1;
    r := CancelAndSave(p, lease, now, id, o);
    CancelledPool(n, p.budgets, lease, now, id, o);
  }

  method CountLane(p: LedgerPool, key: Key, now: real) returns (r: Reply)
    requires p.Valid() && key in p.lanes
    modifies p.lanes[key]
    ensures r == if now >= 0.0 then Finished else Failed
    ensures var q := old(p.View());
            var l := q.lanes[key];
            p.View() == q.(lanes := q.lanes[key := if now < 0.0 then l else l.(entries := Prune(l.entries, now))])
  {
    ghost var q := p.View();
    var counters := p.lanes[key].Snapshot(now);
    OneLaneChanged(p.order, p.lanes, key, q);
    r := if counters.Ok? then Finished else Failed;
  }

  /** Reading the counters also drops what has expired. */
  method CountEntries(p: LedgerPool, key: Key, now: real, id: string) returns (r: Reply)
    requires p.Valid()
    modifies p`order, p`lanes, p.lanes.Values
    ensures p.Valid() && fresh(p.lanes.Values - old(p.lanes.Values))
    ensures r == if now >= 0.0 && ValidKey(key) then Finished else Failed
    ensures !ValidKey(key) ==> p.View() == old(p.View())
    ensures ValidKey(key) ==>
      var q := WithLane(old(p.View()), key, id);
      var l := q.lanes[key];
      p.View() == q.(lanes := q.lanes[key := if now < 0.0 then l else l.(entries := Prune(l.entries, now))])
  {
    var ledger := p.LedgerFor(key, id);
    if ledger.Err? {
      return Failed;
    }
    assert key in old(p.lanes) ==> ledger.value in old(p.lanes.Values);
    r := CountLane(p, key, now);
  }

  method CountOn(p: LedgerPool, ghost n: D.Node, key: Key, now: real, id: string) returns (r: Reply, ghost n': D.Node)
    requires Stands(p, n, p.budgets)
    modifies p, p.lanes.Values
    ensures Stands(p, n', p.budgets) && fresh(p.lanes.Values - old(p.lanes.Values))
    ensures (r, n') == Counted(n, p.budgets, key, now, id)
  {
    n' := Counted(n, p.budgets, key, now, id).1;
    r := CountEntries(p, key, now, id);
    CountedPool(n, p.budgets, key, now, id);
  }

  method OnPool(p: LedgerPool, ghost n: D.Node, job: Job, now: real, id: string, o: Outcome) returns (r: Reply, ghost n': D.Node)
    requires Stands(p, n, p.budgets) && !job.Load?
    modifies p, p.lanes.Values
    ensures Stands(p, n', p.budgets) && fresh(p.lanes.Values - old(p.lanes.Values))
    ensures (r, n') == OnNode(n, p.budgets, job, now, id, o)
  {
    match job {
      case Debit(_, key, input, output) => r, n' := DebitOn(p, n, key, input, output, now, id, o);
      case Cancel(_, lease) => r, n' := CancelOn(p, n, lease, now, id, o);
      case Count(_, key) => r, n' := CountOn(p, n, key, now, id);
    }
  }

  /** One scope's pool from its file: a missing file needs permission for a cold start, and the
      file may hold no other scope. */
  method LoadScope(key: Key, scope: Scope, ghost n: D.Node, file: Option<Json>) returns (p: LedgerPool?)
    requires n.disk == file && n.mem == EMPTY
    ensures p != null <==> Loadable(key, scope, file)
    ensures p != null ==> fresh(p) && fresh(p.lanes.Values) && p.lanes.Keys <= {key} && Stands(p, LoadedNode(n), scope.budgets)
  {
    p := new LedgerPool(scope.budgets, true, file);
    var loaded := p.Load();
    if loaded.Err? && (loaded.error != MissingFile || !scope.coldStart) {
      return null;
    }
    if !(p.lanes.Keys <= {key}) {
      return null;
    }
  }

  /** The one lane a scope's pool may hold. */
  ghost function LaneOf(p: LedgerPool, key: Key): set<object>
    reads p
  {
    if key in p.lanes then {p.lanes[key]} else {}
  }

  /** A scope's pool: it stands for the scope's node, serves no other scope, and belongs to `repr`. */
  ghost predicate Serves(p: LedgerPool, key: Key, n: D.Node, b: Budgets, repr: set<object>)
    reads repr
  {
    && p in repr && p.lanes.Keys <= {key} && (forall l :: l in p.lanes.Values ==> l in repr)
    && Stands(p, n, b)
  }

  lemma OneLane(p: LedgerPool, key: Key)
    requires p.lanes.Keys <= {key}
    ensures forall l: LaneLedger :: l in p.lanes.Values <==> key in p.lanes && l == p.lanes[key]
  {
  }

  ghost predicate PoolsApart(pools: map<Key, LedgerPool>) {
    forall j, k :: j in pools && k in pools && j != k ==> pools[j] != pools[k]
  }

  /** Every scope has a pool of its own. */
  ghost predicate AllServe(pools: map<Key, LedgerPool>, nodes: map<Key, D.Node>, c: Config, repr: set<object>)
    reads repr
  {
    && pools.Keys == c.scopes.Keys && nodes.Keys == c.scopes.Keys && PoolsApart(pools)
    && (forall k {:trigger pools[k]} :: k in pools ==> Serves(pools[k], k, nodes[k], c.scopes[k].budgets, repr))
  }

  /** Lanes of different scopes are different objects: each knows its key. */
  lemma LanesApart(p: LedgerPool, q: LedgerPool, j: Key, k: Key)
    requires p.Valid() && q.Valid() && j != k && p.lanes.Keys <= {j}
    ensures p.lanes.Values !! LaneOf(q, k)
  {
    OneLane(p, j);
    assert j in p.lanes ==> p.lanes[j].key == j;
    assert k in q.lanes ==> q.lanes[k].key == k;
  }

  lemma OthersApart(pools: map<Key, LedgerPool>, nodes: map<Key, D.Node>, c: Config, repr: set<object>, key: Key)
    requires AllServe(pools, nodes, c, repr) && key in pools
    ensures forall k {:trigger pools[k]} :: k in pools && k != key ==> pools[k].lanes.Values !! LaneOf(pools[key], key)
  {
    assert Serves(pools[key], key, nodes[key], c.scopes[key].budgets, repr);
    forall k | k in pools && k != key ensures pools[k].lanes.Values !! LaneOf(pools[key], key) {
      assert Serves(pools[k], k, nodes[k], c.scopes[k].budgets, repr);
      LanesApart(pools[k], pools[key], k, key);
    }
  }

  /** With the other scopes served as before and this one anew, every scope is served. */
  lemma AllServeAgain(pools: map<Key, LedgerPool>, nodes: map<Key, D.Node>, c: Config, repr: set<object>, key: Key, n': D.Node)
    requires pools.Keys == c.scopes.Keys == nodes.Keys && key in pools && PoolsApart(pools)
    requires Serves(pools[key], key, n', c.scopes[key].budgets, repr)
    requires forall k {:trigger pools[k]} :: k in pools && k != key ==> Serves(pools[k], k, nodes[k], c.scopes[k].budgets, repr)
    ensures AllServe(pools, nodes[key := n'], c, repr)
  {
  }

  /** An action on a scope adds a lane under no other key. */
  lemma OwnLaneOnly(n: D.Node, b: Budgets, job: Job, now: real, id: string, o: Outcome)
    requires n.mem.lanes.Keys <= {KeyOf(job)}
    ensures OnNode(n, b, job, now, id, o).1.mem.lanes.Keys <= {KeyOf(job)}
  {
    match job
    case Load(_) =>
    case Debit(_, key, input, output) =>
    case Cancel(_, lease) => CancelledPool(n, b, lease, now, id, o);
    case Count(_, key) => CountedPool(n, b, key, now, id);
  }

  method OnScope(p: LedgerPool, key: Key, ghost n: D.Node, ghost repr: set<object>, job: Job, now: real, id: string, o: Outcome)
    returns (r: Reply, ghost n': D.Node)
    requires Serves(p, key, n, p.budgets, repr) && !job.Load? && key == KeyOf(job)
    modifies p, LaneOf(p, key)
    ensures Serves(p, key, n', p.budgets, repr + LaneOf(p, key)) && fresh(LaneOf(p, key) - old(LaneOf(p, key)))
    ensures (r, n') == OnNode(n, p.budgets, job, now, id, o)
  {
    OneLane(p, key);
    r, n' := OnPool(p, n, job, now, id, o);
    OwnLaneOnly(n, p.budgets, job, now, id, o);
    OneLane(p, key);
  }

  lemma SameScopes(nodes: map<Key, D.Node>, c: Config, key: Key, n: D.Node)
    requires nodes.Keys == c.scopes.Keys && key in nodes
    ensures nodes[key := n].Keys == c.scopes.Keys
  {
  }

  /** An action on one scope's pool: every other pool is left alone. */
  method OnPools(pools: map<Key, LedgerPool>, ghost nodes: map<Key, D.Node>, c: Config, ghost repr: set<object>,
      key: Key, job: Job, now: real, id: string, o: Outcome) returns (r: Reply, ghost n': D.Node, ghost repr': set<object>)
    requires AllServe(pools, nodes, c, repr) && key in pools && !job.Load? && key == KeyOf(job)
    modifies pools[key], LaneOf(pools[key], key)
    ensures AllServe(pools, nodes[key := n'], c, repr') && repr <= repr' && fresh(repr' - repr)
    ensures (r, n') == OnNode(nodes[key], c.scopes[key].budgets, job, now, id, o)
  {
    var p := pools[key];
    assert Serves(p, key, nodes[key], p.budgets, repr);
    OthersApart(pools, nodes, c, repr, key);
    r, n' := OnScope(p, key, nodes[key], repr, job, now, id, o);
    repr' := repr + LaneOf(p, key);
    forall k | k in pools && k != key ensures Serves(pools[k], k, nodes[k], c.scopes[k].budgets, repr') {
      assert old(Serves(pools[k], k, nodes[k], c.scopes[k].budgets, repr));
      assert pools[k].lanes == old(pools[k].lanes);
      assert forall l :: l in pools[k].lanes.Values ==> unchanged(l);
    }
    AllServeAgain(pools, nodes, c, repr', key, n');
  }

  /** What a new owner knows: its files, and nothing of what they hold. */
  function Unread(files: map<Key, Option<Json>>): map<Key, D.Node> {
    map k | k in files :: D.Node(EMPTY, files[k], [], {}, {}, {}, 0.0)
  }

  /** The scopes built so far, each from its own file. */
  ghost predicate Built(pools: map<Key, LedgerPool>, nodes: map<Key, D.Node>, c: Config, repr: set<object>)
    reads repr
  {
    && pools.Keys <= nodes.Keys && pools.Keys <= c.scopes.Keys && PoolsApart(pools)
    && (forall k {:trigger pools[k]} :: k in pools ==>
          Loadable(k, c.scopes[k], nodes[k].disk) && Serves(pools[k], k, LoadedNode(nodes[k]), c.scopes[k].budgets, repr))
  }

  lemma BuiltOneMore(pools: map<Key, LedgerPool>, nodes: map<Key, D.Node>, c: Config, repr: set<object>,
      key: Key, p: LedgerPool, repr': set<object>)
    requires Built(pools, nodes, c, repr) && repr <= repr' && key in nodes && key in c.scopes && p !in repr
    requires Loadable(key, c.scopes[key], nodes[key].disk)
    requires Serves(p, key, LoadedNode(nodes[key]), c.scopes[key].budgets, repr')
    ensures Built(pools[key := p], nodes, c, repr')
  {
    forall k | k in pools && k != key ensures Serves(pools[k], k, LoadedNode(nodes[k]), c.scopes[k].budgets, repr') && pools[k] != p {
      assert Serves(pools[k], k, LoadedNode(nodes[k]), c.scopes[k].budgets, repr);
    }
  }

  lemma BuiltAll(pools: map<Key, LedgerPool>, nodes: map<Key, D.Node>, c: Config, repr: set<object>)
    requires Built(pools, nodes, c, repr) && pools.Keys == c.scopes.Keys == nodes.Keys
    ensures LoadAll(c, nodes).Some? && AllServe(pools, LoadAll(c, nodes).value, c, repr)
  {
    forall k | k in c.scopes ensures Loadable(k, c.scopes[k], nodes[k].disk) {
      assert Serves(pools[k], k, LoadedNode(nodes[k]), c.scopes[k].budgets, repr);
    }
  }

  method BuildScope(c: Config, files: map<Key, Option<Json>>, ghost nodes: map<Key, D.Node>, key: Key,
      pools: map<Key, LedgerPool>, ghost repr: set<object>)
    returns (pool: LedgerPool?, ghost repr': set<object>)
    requires Built(pools, nodes, c, repr) && key in files && key in nodes && key in c.scopes
    requires nodes[key].mem == EMPTY && nodes[key].disk == files[key]
    ensures pool == null <==> !Loadable(key, c.scopes[key], nodes[key].disk)
    ensures pool != null ==> Built(pools[key := pool], nodes, c, repr') && fresh(repr' - repr)
  {
    repr' := repr;
    pool := LoadScope(key, c.scopes[key], nodes[key], files[key]);
    if pool != null {
      repr' := repr + {pool} + pool.lanes.Values;
      BuiltOneMore(pools, nodes, c, repr, key, pool, repr');
    }
  }

  /** All scopes or none: the first file that cannot be loaded ends it, and what was built is dropped. */
  method LoadPools(c: Config, files: map<Key, Option<Json>>, ghost nodes: map<Key, D.Node>)
    returns (ok: bool, pools: map<Key, LedgerPool>, ghost repr: set<object>)
    requires files.Keys == c.scopes.Keys == nodes.Keys
    requires forall k :: k in nodes ==> nodes[k].mem == EMPTY && nodes[k].disk == files[k]
    ensures ok <==> LoadAll(c, nodes).Some?
    ensures ok ==> AllServe(pools, LoadAll(c, nodes).value, c, repr) && fresh(repr)
  {
    var rest := c.scopes.Keys;
    pools, repr := map[], {};
    while rest != {}
      invariant rest <= c.scopes.Keys && pools.Keys == c.scopes.Keys - rest && fresh(repr)
      invariant Built(pools, nodes, c, repr)
    {
      var key :| key in rest;
      var pool, repr' := BuildScope(c, files, nodes, key, pools, repr);
      if pool == null {
        return false, pools, repr;
      }
      pools, repr, rest := pools[key := pool], repr', rest - {key};
    }
    BuiltAll(pools, nodes, c, repr);
    ok := true;
  }
}
