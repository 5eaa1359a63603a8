/**
 Conservation of debt: in a fault-free run, once the owner has drained, the live entries of
 every scope are those restored at the start and those of the leases handed off.
 */
module OwnerConservation {
  import opened Common
  import opened Ledger
  import opened LedgerCodec
  import opened LedgerPools
  import opened OwnerState
  import opened OwnerPermits
  import opened OwnerLedger
  import opened OwnerTheorems
  import D = LedgerDurability
  import H = LedgerHistory

  function Entries(key: Key, p: Pool): seq<Entry> {
    if key in p.lanes then p.lanes[key].entries else []
  }

  /** The debt of an acknowledged lease that nobody asked to cancel. */
  ghost predicate Owed(n: D.Node, e: Entry) {
    exists j :: 0 <= j < |n.acked| && !Asked(n, n.acked[j]) && e == EntryOf(n.acked[j])
  }

  /** The live entries of a pool are the restored ones and the owed ones. */
  ghost predicate Exact(key: Key, n: D.Node, p: Pool, restored: seq<Entry>) {
    forall e: Entry :: n.clock - e.at < WINDOW_S ==> (e in Entries(key, p) <==> e in restored || Owed(n, e))
  }

  /** So it is in memory, and so a new process would find it in the file. */
  ghost predicate ExactBoth(key: Key, n: D.Node, restored: seq<Entry>) {
    Exact(key, n, n.mem, restored) && D.OnDisk(n.disk).Some? && Exact(key, n, D.OnDisk(n.disk).value, restored)
  }

  /** Restored entries were numbered before anything this owner acknowledged. */
  ghost predicate Earlier(key: Key, n: D.Node, restored: seq<Entry>) {
    && (forall e: Entry :: e in restored ==> key in n.mem.lanes && e.seqNo < n.mem.lanes[key].nextSeq)
    && (forall e: Entry, j :: e in restored && 0 <= j < |n.acked| ==> e.seqNo < n.acked[j].seqNo)
  }

  ghost predicate Accounted(key: Key, n: D.Node, restored: seq<Entry>) {
    ExactBoth(key, n, restored) && Earlier(key, n, restored)
  }

  // ------------------------------------------------------------- one worker action

  /** Leases acknowledged from one lane are told apart by their numbers. */
  lemma AckedNumbers(key: Key, n: D.Node, j: nat, k: nat)
    requires NodeOk(key, n) && j < |n.acked| && k < |n.acked| && n.acked[j].seqNo == n.acked[k].seqNo
    ensures n.acked[j].ledgerId == n.acked[k].ledgerId && j == k
    ensures key in n.mem.lanes && n.acked[j].key == key && n.acked[j].ledgerId == n.mem.lanes[key].id
  {
    assert D.Carries(n.mem, n.acked[j], D.Standing(n, n.acked[j]), n.settlements);
    assert D.Carries(n.mem, n.acked[k], D.Standing(n, n.acked[k]), n.settlements);
    assert n.mem.lanes[n.acked[j].key].key == key && n.mem.lanes[n.acked[k].key].key == key;
  }

  /** What a debit leaves, given that it was acknowledged. */
  lemma GrantEffect(key: Key, n: D.Node, b: Budgets, input: int, output: int, now: real, id: string, o: Outcome)
    requires ValidKey(key) && (key in n.mem.lanes ==> n.mem.lanes[key].key == key)
    requires Debited(n, b, key, input, output, now, id, o).0.Granted?
    ensures var (r, n') := Debited(n, b, key, input, output, now, id, o);
            && key in n'.mem.lanes && n'.clock == MaxR(n.clock, now)
            && Entries(key, n'.mem) == Prune(Entries(key, n.mem), now) + [EntryOf(r.lease)]
            && (key in n.mem.lanes ==> r.lease.seqNo == n.mem.lanes[key].nextSeq)
            && n'.mem.lanes[key].nextSeq == r.lease.seqNo + 1
            && n'.cancelled == n.cancelled - {(r.lease.ledgerId, r.lease.seqNo)}
            && n'.disk == Some(Encode(n'.mem))
  {
  }

  /** A grant adds its own debt to what is owed, and nothing else. */
  lemma GrantOwed(n: D.Node, lease: Lease, n': D.Node, e: Entry)
    requires D.Unshared(n'.acked) && n'.acked == n.acked + [lease]
    requires n'.cancelled == n.cancelled - {(lease.ledgerId, lease.seqNo)}
    ensures Owed(n', e) <==> Owed(n, e) || e == EntryOf(lease)
  {
    var k := |n.acked|;
    assert n'.acked[k] == lease && !Asked(n', n'.acked[k]);
    if Owed(n, e) {
      var j :| 0 <= j < k && !Asked(n, n.acked[j]) && e == EntryOf(n.acked[j]);
      assert n'.acked[j] == n.acked[j];
    }
    if Owed(n', e) {
      var j :| 0 <= j <= k && !Asked(n', n'.acked[j]) && e == EntryOf(n'.acked[j]);
      if j < k {
        assert n'.acked[j] == n.acked[j];
        assert (n'.acked[j].ledgerId, n'.acked[j].seqNo) != (n'.acked[k].ledgerId, n'.acked[k].seqNo);
        assert !Asked(n, n.acked[j]);
      }
    }
  }

  /** A pool that gained this entry, and forgot only what had expired, is still exact. */
  lemma GrantExactPool(key: Key, n: D.Node, restored: seq<Entry>, lease: Lease, n': D.Node, now: real)
    requires Exact(key, n, n.mem, restored) && D.Unshared(n'.acked)
    requires n'.clock == MaxR(n.clock, now) && n'.acked == n.acked + [lease]
    requires Entries(key, n'.mem) == Prune(Entries(key, n.mem), now) + [EntryOf(lease)]
    requires n'.cancelled == n.cancelled - {(lease.ledgerId, lease.seqNo)}
    ensures Exact(key, n', n'.mem, restored)
  {
    PruneExact(Entries(key, n.mem), now);
    forall e: Entry | n'.clock - e.at < WINDOW_S ensures e in Entries(key, n'.mem) <==> e in restored || Owed(n', e) {
      GrantOwed(n, lease, n', e);
      assert e in Prune(Entries(key, n.mem), now) <==> e in Entries(key, n.mem);
    }
  }

  lemma GrantEarlier(key: Key, n: D.Node, restored: seq<Entry>, lease: Lease, n': D.Node)
    requires Earlier(key, n, restored) && key in n'.mem.lanes && n'.acked == n.acked + [lease]
    requires key in n.mem.lanes ==> lease.seqNo == n.mem.lanes[key].nextSeq
    requires n'.mem.lanes[key].nextSeq == lease.seqNo + 1
    ensures Earlier(key, n', restored)
  {
  }

  lemma GrantExact(key: Key, n: D.Node, restored: seq<Entry>, lease: Lease, n': D.Node, now: real)
    requires Accounted(key, n, restored) && D.Unshared(n'.acked)
    requires key in n'.mem.lanes && n'.clock == MaxR(n.clock, now) && n'.acked == n.acked + [lease]
    requires Entries(key, n'.mem) == Prune(Entries(key, n.mem), now) + [EntryOf(lease)]
    requires key in n.mem.lanes ==> lease.seqNo == n.mem.lanes[key].nextSeq
    requires n'.mem.lanes[key].nextSeq == lease.seqNo + 1
    requires n'.cancelled == n.cancelled - {(lease.ledgerId, lease.seqNo)}
    requires n'.disk == Some(Encode(n'.mem)) && PoolOk(n'.mem)
    ensures Accounted(key, n', restored)
  {
    RoundTrip(n'.mem);
    GrantExactPool(key, n, restored, lease, n', now);
    GrantEarlier(key, n, restored, lease, n');
  }

  /** An action that only forgets expired entries. */
  lemma PruneAccounted(key: Key, n: D.Node, restored: seq<Entry>, n': D.Node, now: real)
    requires Accounted(key, n, restored) && n'.acked == n.acked && n'.cancelled == n.cancelled
    requires n'.clock == MaxR(n.clock, now) && n'.disk == n.disk
    requires Entries(key, n'.mem) == Entries(key, n.mem) || Entries(key, n'.mem) == Prune(Entries(key, n.mem), now)
    requires key in n.mem.lanes ==> key in n'.mem.lanes && n'.mem.lanes[key].nextSeq == n.mem.lanes[key].nextSeq
    ensures Accounted(key, n', restored)
  {
    PruneExact(Entries(key, n.mem), now);
    forall e: Entry ensures Owed(n', e) <==> Owed(n, e) {
    }
  }

  /** Taking out a numbered entry takes out that one alone. */
  lemma TakenOut(p: seq<Entry>, nextSeq: int, i: nat, e: Entry)
    requires Numbered(p, nextSeq) && i < |p|
    ensures e in p[..i] + p[i + 1..] <==> e in p && e.seqNo != p[i].seqNo
  {
    var es := p[..i] + p[i + 1..];
    if e in es {
      var k :| 0 <= k < |es| && es[k] == e;
      assert e == p[if k < i then k else k + 1];
    }
    if e in p && e.seqNo != p[i].seqNo {
      var k :| 0 <= k < |p| && p[k] == e;
      assert e == es[if k < i then k else k - 1];
    }
  }

  lemma CancelExpired(l: Lane, lease: Lease, now: real)
    requires now - lease.at >= WINDOW_S && now >= 0.0 && Ours(l, lease)
    ensures CancelUnsent(l, lease, now).1.entries == Prune(l.entries, now)
  {
  }

  /** What a successful cancellation leaves of the lane. */
  lemma CancelEntries(l: Lane, lease: Lease, now: real, e: Entry)
    requires Numbered(l.entries, l.nextSeq) && Ours(l, lease) && now >= 0.0 && now - e.at < WINDOW_S
    requires CancelUnsent(l, lease, now).0.Ok?
    ensures var es := CancelUnsent(l, lease, now).1.entries;
            && (e in es ==> e in l.entries)
            && (e in l.entries && e.seqNo != lease.seqNo ==> e in es)
            && (e in es && e.seqNo == lease.seqNo ==> now - lease.at >= WINDOW_S)
  {
    PruneExact(l.entries, now);
    if now - lease.at < WINDOW_S {
      PruneNumbered(l.entries, l.nextSeq, now);
      var i := CancelledEntries(l, lease, now);
      TakenOut(Prune(l.entries, now), l.nextSeq, i, e);
    } else {
      CancelExpired(l, lease, now);
    }
  }

  lemma StillOwed(n: D.Node, k: nat, n': D.Node, e: Entry)
    requires k < |n.acked| && n'.acked == n.acked && Owed(n, e) && e.seqNo != n.acked[k].seqNo
    requires n'.cancelled == n.cancelled + {(n.acked[k].ledgerId, n.acked[k].seqNo)}
    ensures Owed(n', e)
  {
    var j :| 0 <= j < |n.acked| && !Asked(n, n.acked[j]) && e == EntryOf(n.acked[j]);
    assert !Asked(n', n'.acked[j]);
  }

  lemma OwedToOthers(key: Key, n: D.Node, k: nat, n': D.Node, e: Entry)
    requires NodeOk(key, n) && k < |n.acked| && n'.acked == n.acked && Owed(n', e)
    requires n'.cancelled == n.cancelled + {(n.acked[k].ledgerId, n.acked[k].seqNo)}
    ensures Owed(n, e) && e.seqNo != n.acked[k].seqNo
  {
    var j :| 0 <= j < |n.acked| && !Asked(n', n.acked[j]) && e == EntryOf(n.acked[j]);
    assert !Asked(n, n.acked[j]);
    if n.acked[j].seqNo == n.acked[k].seqNo {
      AckedNumbers(key, n, j, k);
    }
  }

  lemma CancelOwed(key: Key, n: D.Node, k: nat, n': D.Node, e: Entry)
    requires NodeOk(key, n) && k < |n.acked| && n'.acked == n.acked
    requires n'.cancelled == n.cancelled + {(n.acked[k].ledgerId, n.acked[k].seqNo)}
    ensures Owed(n', e) <==> Owed(n, e) && e.seqNo != n.acked[k].seqNo
  {
    if Owed(n, e) && e.seqNo != n.acked[k].seqNo {
      StillOwed(n, k, n', e);
    }
    if Owed(n', e) {
      OwedToOthers(key, n, k, n', e);
    }
  }

  lemma CancelExact(key: Key, n: D.Node, restored: seq<Entry>, k: nat, now: real, n': D.Node)
    requires NodeOk(key, n) && Accounted(key, n, restored) && k < |n.acked| && key in n.mem.lanes && now >= 0.0
    requires Ours(n.mem.lanes[key], n.acked[k]) && CancelUnsent(n.mem.lanes[key], n.acked[k], now).0.Ok?
    requires n'.acked == n.acked && n'.clock == MaxR(n.clock, now)
    requires n'.cancelled == n.cancelled + {(n.acked[k].ledgerId, n.acked[k].seqNo)}
    requires key in n'.mem.lanes && n'.mem.lanes[key] == CancelUnsent(n.mem.lanes[key], n.acked[k], now).1
    ensures Exact(key, n', n'.mem, restored)
  {
    var lease := n.acked[k];
    forall e: Entry | n'.clock - e.at < WINDOW_S ensures e in Entries(key, n'.mem) <==> e in restored || Owed(n', e) {
      CancelOwed(key, n, k, n', e);
      CancelEntries(n.mem.lanes[key], lease, now, e);
      if Owed(n, e) && e.seqNo == lease.seqNo {
        var j :| 0 <= j < |n.acked| && !Asked(n, n.acked[j]) && e == EntryOf(n.acked[j]);
        AckedNumbers(key, n, j, k);
      }
    }
  }

  lemma DebitAccounted(key: Key, n: D.Node, b: Budgets, input: int, output: int, now: real, id: string,
      o: Outcome, restored: seq<Entry>)
    requires NodeOk(key, n) && Accounted(key, n, restored) && HexId(id) && id !in n.used
    requires !Debited(n, b, key, input, output, now, id, o).0.Failed?
    ensures Accounted(key, Debited(n, b, key, input, output, now, id, o).1, restored)
  {
    var (r, n') := Debited(n, b, key, input, output, now, id, o);
    DebitedNode(key, n, b, input, output, now, id, o);
    if r.Granted? {
      GrantEffect(key, n, b, input, output, now, id, o);
      GrantExact(key, n, restored, r.lease, n', now);
    } else {
      RefusedEffect(key, n, b, input, output, now, id, o);
      PruneAccounted(key, n, restored, n', now);
    }
  }

  lemma RefusedEffect(key: Key, n: D.Node, b: Budgets, input: int, output: int, now: real, id: string, o: Outcome)
    requires key in n.mem.lanes ==> n.mem.lanes[key].key == key
    requires Debited(n, b, key, input, output, now, id, o).0.Refused?
    ensures var n' := Debited(n, b, key, input, output, now, id, o).1;
            && n'.acked == n.acked && n'.cancelled == n.cancelled && n'.clock == MaxR(n.clock, now) && n'.disk == n.disk
            && (Entries(key, n'.mem) == Entries(key, n.mem) || Entries(key, n'.mem) == Prune(Entries(key, n.mem), now))
            && (key in n.mem.lanes ==> key in n'.mem.lanes && n'.mem.lanes[key].nextSeq == n.mem.lanes[key].nextSeq)
  {
  }

  lemma CountAccounted(key: Key, n: D.Node, b: Budgets, now: real, id: string, restored: seq<Entry>)
    requires Accounted(key, n, restored) && !Counted(n, b, key, now, id).0.Failed?
    ensures Accounted(key, Counted(n, b, key, now, id).1, restored)
  {
    PruneAccounted(key, n, restored, Counted(n, b, key, now, id).1, now);
  }

  lemma CancelEffect(n: D.Node, b: Budgets, lease: Lease, now: real, id: string, o: Outcome)
    requires ValidKey(lease.key) && lease.key in n.mem.lanes && Ours(n.mem.lanes[lease.key], lease)
    requires Cancelled(n, b, lease, now, id, o).0.Finished?
    ensures var n', l := Cancelled(n, b, lease, now, id, o).1, n.mem.lanes[lease.key];
            && now >= 0.0 && CancelUnsent(l, lease, now).0.Ok?
            && n'.acked == n.acked && n'.clock == MaxR(n.clock, now)
            && n'.cancelled == n.cancelled + {(lease.ledgerId, lease.seqNo)}
            && lease.key in n'.mem.lanes && n'.mem.lanes[lease.key] == CancelUnsent(l, lease, now).1
            && n'.disk == Some(Encode(n'.mem))
  {
  }

  lemma SavedExact(key: Key, n: D.Node, restored: seq<Entry>)
    requires Exact(key, n, n.mem, restored) && n.disk == Some(Encode(n.mem)) && PoolOk(n.mem)
    ensures ExactBoth(key, n, restored)
  {
    RoundTrip(n.mem);
  }

  lemma CancelEarlier(key: Key, n: D.Node, restored: seq<Entry>, n': D.Node)
    requires Earlier(key, n, restored) && n'.acked == n.acked
    requires key in n.mem.lanes ==> key in n'.mem.lanes && n'.mem.lanes[key].nextSeq >= n.mem.lanes[key].nextSeq
    ensures Earlier(key, n', restored)
  {
  }

  lemma AckedOurs(key: Key, n: D.Node, k: nat)
    requires NodeOk(key, n) && k < |n.acked| && n.acked[k].key == key
    ensures key in n.mem.lanes && Ours(n.mem.lanes[key], n.acked[k]) && ValidKey(key)
  {
    assert D.Carries(n.mem, n.acked[k], D.Standing(n, n.acked[k]), n.settlements);
  }

  lemma CancelNumbers(n: D.Node, lease: Lease, now: real)
    requires lease.key in n.mem.lanes
    ensures CancelUnsent(n.mem.lanes[lease.key], lease, now).1.nextSeq == n.mem.lanes[lease.key].nextSeq
  {
  }

  lemma CancelAccounted(n: D.Node, b: Budgets, lease: Lease, now: real, id: string, o: Outcome,
      restored: seq<Entry>, n': D.Node)
    requires NodeOk(lease.key, n) && Accounted(lease.key, n, restored) && lease in n.acked
    requires n' == Cancelled(n, b, lease, now, id, o).1 && PoolOk(n'.mem)
    requires Cancelled(n, b, lease, now, id, o).0.Finished?
    ensures Accounted(lease.key, n', restored)
  {
    var k :| 0 <= k < |n.acked| && n.acked[k] == lease;
    AckedOurs(lease.key, n, k);
    CancelEffect(n, b, lease, now, id, o);
    CancelExact(lease.key, n, restored, k, now, n');
    CancelNumbers(n, lease, now);
    SavedExact(lease.key, n', restored);
    CancelEarlier(lease.key, n, restored, n');
  }

  /** Any action of the worker that does not fault keeps the account. */
  lemma ActAccounted(key: Key, n: D.Node, b: Budgets, job: Job, now: real, id: string, o: Outcome,
      restored: seq<Entry>, n': D.Node)
    requires NodeOk(key, n) && Accounted(key, n, restored) && HexId(id) && id !in n.used
    requires KeyOf(job) == key && !job.Load? && (job.Cancel? ==> job.lease in n.acked)
    requires !OnNode(n, b, job, now, id, o).0.Failed? && n' == OnNode(n, b, job, now, id, o).1
    ensures Accounted(key, n', restored)
  {
    match job
    case Debit(_, _, input, output) => DebitAccounted(key, n, b, input, output, now, id, o, restored);
    case Cancel(_, lease) =>
      CancelReplies(n, b, lease, now, id, o);
      CancelledNode(n, b, lease, now, id, o);
      CancelAccounted(n, b, lease, now, id, o, restored, n');
    case Count(_, _) => CountAccounted(key, n, b, now, id, restored);
  }

  lemma CancelReplies(n: D.Node, b: Budgets, lease: Lease, now: real, id: string, o: Outcome)
    ensures var r := Cancelled(n, b, lease, now, id, o).0; r.Failed? || r.Finished?
  {
  }

  // -------------------------------------------------------------------- whole runs

  /** What the owner found in the files it was started over. */
  function Restored(nodes: map<Key, D.Node>, key: Key): seq<Entry> {
    if key in nodes then Entries(key, LoadedNode(nodes[key]).mem) else []
  }

  ghost predicate AllAccounted(nodes0: map<Key, D.Node>, s: State) {
    if s.loaded then forall k :: k in s.nodes ==> Accounted(k, s.nodes[k], Restored(nodes0, k)) else s.nodes == nodes0
  }

  /** A failed answer is a fault, and a finished rollback has been asked of the ledger. */
  ghost predicate AnswersOk(s: State) {
    && (forall i :: 0 <= i < |s.ops| && s.ops[i].result == Some(Failed) ==> s.fault)
    && (forall i :: 0 <= i < |s.ops| && s.ops[i].phase.Cancelling? && s.ops[i].result.Some? && !s.fault ==>
          var lease := s.ops[i].phase.lease; lease.key in s.nodes && Asked(s.nodes[lease.key], lease))
  }

  ghost predicate Answered(ops: seq<Op>, lease: Lease) {
    exists i :: 0 <= i < |ops| && LeaseOf(ops[i]) == Some(lease)
  }

  /** Someone answers for every lease that was not cancelled. */
  ghost predicate NoneForgotten(s: State) {
    forall k, j :: k in s.nodes && 0 <= j < |s.nodes[k].acked| && !Asked(s.nodes[k], s.nodes[k].acked[j]) ==>
      Answered(s.ops, s.nodes[k].acked[j])
  }

  ghost predicate Balanced(c: Config, nodes0: map<Key, D.Node>, s: State) {
    && (!s.loaded ==> s.nodes == nodes0)
    && (!s.fault ==> AllAccounted(nodes0, s) && AnswersOk(s) && NoneForgotten(s))
  }

  /** A new owner has acknowledged nothing. */
  ghost predicate Unacked(nodes: map<Key, D.Node>) {
    forall k :: k in nodes ==> nodes[k].acked == []
  }

  lemma LoadAccounted(key: Key, n: D.Node)
    requires NodeOk(key, LoadedNode(n)) && LoadedNode(n).acked == []
    ensures Accounted(key, LoadedNode(n), Entries(key, LoadedNode(n).mem))
  {
  }

  /** Who answers for a lease without a permit has sent it. */
  lemma AnsweredIsSent(ops: seq<Op>, key: Key, lease: Lease)
    requires OpsOk(ops) && Answered(ops, lease) && lease.key == key
    requires forall i :: 0 <= i < |ops| ==> !Holding(ops[i])
    ensures SentEntry(ops, key, EntryOf(lease))
  {
    var i :| 0 <= i < |ops| && LeaseOf(ops[i]) == Some(lease);
    assert OpOk(ops[i]) && Sends(ops[i], key, EntryOf(lease));
  }

  lemma OwedIsSent(s: State, key: Key, n: D.Node, e: Entry)
    requires OpsOk(s.ops) && NoneForgotten(s) && key in s.nodes && n == s.nodes[key] && NodeOk(key, n)
    requires forall i :: 0 <= i < |s.ops| ==> !Holding(s.ops[i])
    requires Owed(n, e)
    ensures SentEntry(s.ops, key, e)
  {
    var j :| 0 <= j < |n.acked| && !Asked(n, n.acked[j]) && e == EntryOf(n.acked[j]);
    assert Answered(s.ops, n.acked[j]);
    AckedNumbers(key, n, j, j);
    AnsweredIsSent(s.ops, key, n.acked[j]);
  }

  lemma SentIsOwed(s: State, key: Key, e: Entry)
    requires LeasesOk(s.ops, s.nodes) && SentEntry(s.ops, key, e)
    ensures key in s.nodes && Owed(s.nodes[key], e)
  {
    var i :| 0 <= i < |s.ops| && Sends(s.ops[i], key, e);
    assert Backed(s.nodes, LeaseOf(s.ops[i]).value, CancelRan(s.ops[i]));
  }

  /** The theorem's last step: with every permit back, those who answer have sent. */
  lemma BalancedAtRest(c: Config, nodes0: map<Key, D.Node>, s: State, key: Key, e: Entry)
    requires Inv(c, s) && Balanced(c, nodes0, s) && !s.fault && s.loaded && Holders(s.ops) == 0
    requires key in s.nodes && s.nodes[key].clock - e.at < WINDOW_S
    ensures e in Entries(key, s.nodes[key].mem) <==> e in Restored(nodes0, key) || SentEntry(s.ops, key, e)
    ensures D.OnDisk(s.nodes[key].disk).Some?
    ensures e in Entries(key, D.OnDisk(s.nodes[key].disk).value) <==> e in Restored(nodes0, key) || SentEntry(s.ops, key, e)
  {
    HoldersZero(s.ops);
    assert ExactBoth(key, s.nodes[key], Restored(nodes0, key)) by {
      assert Accounted(key, s.nodes[key], Restored(nodes0, key));
    }
    if Owed(s.nodes[key], e) {
      OwedIsSent(s, key, s.nodes[key], e);
    }
    if SentEntry(s.ops, key, e) {
      SentIsOwed(s, key, e);
    }
  }

  /** This operation handed off a lease of this scope, with this entry. */
  predicate Sends(op: Op, key: Key, e: Entry) {
    op.phase.Sent? && op.result.Some? && op.result.value.Granted?
    && op.result.value.lease.key == key && e == EntryOf(op.result.value.lease)
  }

  ghost predicate SentEntry(ops: seq<Op>, key: Key, e: Entry) {
    exists i :: 0 <= i < |ops| && Sends(ops[i], key, e)
  }

  // ------------------------------------------------------------ steps of the owner

  /** A loop step without a fault fails nobody, finishes no rollback, and lets go of a lease
      only after its cancellation ran. */
  ghost predicate Quiet(ops: seq<Op>, ops': seq<Op>) {
    && |ops| <= |ops'|
    && (forall i :: 0 <= i < |ops| ==> QuietOp(ops[i], ops'[i]))
    && (forall i :: |ops| <= i < |ops'| ==> ops'[i].phase.Waiting? && ops'[i].result.None?)
  }

  predicate QuietOp(op: Op, op': Op) {
    && (op'.result == Some(Failed) ==> op.result == Some(Failed))
    && (CancelRan(op') ==> CancelRan(op) && op'.phase == op.phase)
    && (LeaseOf(op).Some? ==> LeaseOf(op') == LeaseOf(op) || CancelRan(op))
  }

  lemma QuietUpdate(ops: seq<Op>, i: nat, op: Op)
    requires i < |ops| && QuietOp(ops[i], op)
    ensures Quiet(ops, ops[i := op])
  {
  }

  lemma MoveQuiet(s: State, i: nat, phase: Phase)
    requires i < |s.ops| && !phase.Cancelling? && (s.ops[i].phase.Cancelling? ==> CancelRan(s.ops[i]))
    requires phase.Done? ==> LeaseOf(s.ops[i]).None? || CancelRan(s.ops[i])
    ensures Quiet(s.ops, Move(s, i, phase).ops) && Quiet(s.ops, Release(Move(s, i, phase)).ops)
  {
    QuietUpdate(s.ops, i, s.ops[i].(phase := phase));
  }

  lemma OpenQuiet(s: State, kind: Kind, job: Job, ok: bool)
    requires job.op == |s.ops| && !Open(s, kind, job, ok).fault
    ensures Quiet(s.ops, Open(s, kind, job, ok).ops)
  {
  }

  lemma ResumeQuiet(s: State, i: nat)
    ensures Quiet(s.ops, ResumeStep(s, i).ops)
  {
    if ResumeStep(s, i) != s {
      match s.ops[i].result.value
      case Granted(_) => MoveQuiet(s, i, Active);
      case Refused => MoveQuiet(s, i, Done);
      case _ => MoveQuiet(s, i, RollingBack);
    }
  }

  lemma RollBackQuiet(s: State, i: nat, ok: bool)
    requires !RollBackStep(s, i, ok).fault
    ensures Quiet(s.ops, RollBackStep(s, i, ok).ops)
  {
    if RollBackStep(s, i, ok) != s {
      if s.ops[i].result.value.Granted? {
        var lease := s.ops[i].result.value.lease;
        RollBackOps(s, i, lease, ok, RollBackStep(s, i, ok));
        QuietUpdate(s.ops, i, s.ops[i].(phase := Cancelling(lease), result := None));
      } else {
        MoveQuiet(s, i, Done);
      }
    }
  }

  lemma StartQuiet(c: Config, s: State, ok: bool)
    requires !StartStep(c, s, ok).fault
    ensures Quiet(s.ops, StartStep(c, s, ok).ops)
  {
    if StartStep(c, s, ok) != s {
      OpenQuiet(s.(started := Some(|s.ops|)), Start, Load(|s.ops|), ok);
    }
  }

  lemma ReserveQuiet(c: Config, s: State, key: Key, input: int, output: int, ok: bool)
    requires !ReserveStep(c, s, key, input, output, ok).fault
    ensures Quiet(s.ops, ReserveStep(c, s, key, input, output, ok).ops)
  {
    if ReserveStep(c, s, key, input, output, ok) != s {
      OpenQuiet(s, Reserve(key, input, output), Debit(|s.ops|, key, input, output), ok);
    }
  }

  lemma SnapshotQuiet(c: Config, s: State, key: Key, ok: bool)
    requires !SnapshotStep(c, s, key, ok).fault
    ensures Quiet(s.ops, SnapshotStep(c, s, key, ok).ops)
  {
    if SnapshotStep(c, s, key, ok) != s {
      OpenQuiet(s, Snapshot(key), Count(|s.ops|, key), ok);
    }
  }

  lemma LeaveQuiet(s: State, i: nat)
    ensures Quiet(s.ops, AbandonStep(s, i).ops) && Quiet(s.ops, ExitStep(s, i).ops)
  {
    if AbandonStep(s, i) != s || ExitStep(s, i) != s {
      MoveQuiet(s, i, RollingBack);
    }
  }

  lemma HandoffQuiet(s: State, i: nat, now: real)
    ensures Quiet(s.ops, HandoffStep(s, i, now).ops)
  {
    if MayHandoff(s, i, now) {
      MoveQuiet(s, i, Sent);
    }
  }

  lemma DoneQuiet(s: State, i: nat)
    requires OpsOk(s.ops)
    ensures Quiet(s.ops, RolledBackStep(s, i).ops) && Quiet(s.ops, OperationDoneStep(s, i).ops)
  {
    if RolledBackStep(s, i) != s || OperationDoneStep(s, i) != s {
      assert OpOk(s.ops[i]);
      MoveQuiet(s, i, Done);
    }
  }

  lemma TakeQuiet(s: State)
    requires !TakeStep(s).fault
    ensures Quiet(s.ops, TakeStep(s).ops)
  {
  }

  lemma MoverQuiet(c: Config, s: State, e: Event)
    requires OpsOk(s.ops)
    requires e.Resume? || e.Abandon? || e.Handoff? || e.Exit? || e.RolledBack? || e.OperationDone?
    ensures Quiet(s.ops, Step(c, s, e).ops)
  {
    match e
    case Resume(i) => ResumeQuiet(s, i);
    case Abandon(i) => LeaveQuiet(s, i);
    case Handoff(i, now) => HandoffQuiet(s, i, now);
    case Exit(i) => LeaveQuiet(s, i);
    case RolledBack(i) => DoneQuiet(s, i);
    case OperationDone(i) => DoneQuiet(s, i);
  }

  lemma LoopQuiet(c: Config, s: State, e: Event)
    requires !e.Finish? && !Step(c, s, e).fault && OpsOk(s.ops)
    ensures Quiet(s.ops, Step(c, s, e).ops)
  {
    match e
    case StartCall(ok) => StartQuiet(c, s, ok);
    case ReserveCall(key, input, output, ok) => ReserveQuiet(c, s, key, input, output, ok);
    case SnapshotCall(key, ok) => SnapshotQuiet(c, s, key, ok);
    case RollBack(i, ok) => RollBackQuiet(s, i, ok);
    case StartReturns =>
    case Close =>
    case Drain =>
    case Take => TakeQuiet(s);
    case _ => MoverQuiet(c, s, e);
  }

  /** Leases are remembered under their own scope. */
  ghost predicate AckedKeyed(nodes: map<Key, D.Node>) {
    forall k, j :: k in nodes && 0 <= j < |nodes[k].acked| ==> nodes[k].acked[j].key == k
  }

  lemma LoadedKeyed(c: Config, s: State)
    requires NodesOk(c, s) && s.loaded
    ensures AckedKeyed(s.nodes)
  {
    forall k, j | k in s.nodes && 0 <= j < |s.nodes[k].acked| ensures s.nodes[k].acked[j].key == k {
      assert NodeOk(k, s.nodes[k]);
      AckedNumbers(k, s.nodes[k], j, j);
    }
  }

  lemma LoopForgets(s: State, s': State)
    requires Quiet(s.ops, s'.ops) && s'.nodes == s.nodes && AckedKeyed(s.nodes)
    requires AnswersOk(s) && NoneForgotten(s) && !s.fault
    ensures NoneForgotten(s')
  {
    forall k, j | k in s'.nodes && 0 <= j < |s'.nodes[k].acked| && !Asked(s'.nodes[k], s'.nodes[k].acked[j])
      ensures Answered(s'.ops, s'.nodes[k].acked[j])
    {
      var lease := s.nodes[k].acked[j];
      assert Answered(s.ops, lease);
      var i :| 0 <= i < |s.ops| && LeaseOf(s.ops[i]) == Some(lease);
      assert QuietOp(s.ops[i], s'.ops[i]);
      assert LeaseOf(s'.ops[i]) == Some(lease);
    }
  }

  lemma LoopAnswers(s: State, s': State)
    requires Quiet(s.ops, s'.ops) && s'.nodes == s.nodes && AnswersOk(s) && !s.fault && !s'.fault
    ensures AnswersOk(s')
  {
    forall i | 0 <= i < |s'.ops| ensures s'.ops[i].result != Some(Failed) {
      assert i < |s.ops| ==> QuietOp(s.ops[i], s'.ops[i]);
    }
    forall i | 0 <= i < |s'.ops| && s'.ops[i].phase.Cancelling? && s'.ops[i].result.Some?
      ensures var lease := s'.ops[i].phase.lease; lease.key in s'.nodes && Asked(s'.nodes[lease.key], lease)
    {
      assert QuietOp(s.ops[i], s'.ops[i]);
    }
  }

  /** A fault is for good. */
  lemma FaultStays(c: Config, s: State, e: Event)
    requires !Step(c, s, e).fault
    ensures !s.fault
  {
    if s.fault {
      FaultedStep(c, s, e);
    }
  }

  lemma LoopBalanced(c: Config, nodes0: map<Key, D.Node>, s: State, e: Event)
    requires Inv(c, s) && Balanced(c, nodes0, s) && Unacked(nodes0) && !e.Finish?
    ensures Balanced(c, nodes0, Step(c, s, e))
  {
    var s' := Step(c, s, e);
    LoopKept(c, s, e);
    if !s'.fault {
      FaultStays(c, s, e);
      LoopQuiet(c, s, e);
      if s.loaded {
        LoadedKeyed(c, s);
      }
      LoopForgets(s, s');
      LoopAnswers(s, s');
    }
  }

  lemma GrantAsked(n: D.Node, n': D.Node, lease: Lease, k: nat)
    requires k < |n.acked| && Asked(n, n.acked[k]) && D.Unshared(n'.acked) && n'.acked == n.acked + [lease]
    requires n'.cancelled == n.cancelled - {(lease.ledgerId, lease.seqNo)}
    ensures Asked(n', n.acked[k])
  {
    assert n'.acked[k] == n.acked[k] && n'.acked[|n.acked|] == lease;
  }

  lemma DebitAsked(key: Key, n: D.Node, b: Budgets, input: int, output: int, now: real, id: string, o: Outcome,
      k: nat, r: Reply, n': D.Node)
    requires NodeOk(key, n) && HexId(id) && id !in n.used && k < |n.acked| && Asked(n, n.acked[k])
    requires (r, n') == Debited(n, b, key, input, output, now, id, o) && !r.Failed?
    ensures Asked(n', n.acked[k])
  {
    DebitedBooks(n, b, key, input, output, now, id, o, r, n');
    if r.Granted? {
      DebitedNode(key, n, b, input, output, now, id, o);
      GrantAsked(n, n', r.lease, k);
    }
  }

  /** What the worker was asked to cancel stays asked. */
  lemma AskedStays(key: Key, n: D.Node, b: Budgets, job: Job, now: real, id: string, o: Outcome, k: nat, n': D.Node)
    requires NodeOk(key, n) && HexId(id) && id !in n.used && k < |n.acked| && Asked(n, n.acked[k])
    requires KeyOf(job) == key && !job.Load? && (job.Cancel? ==> job.lease in n.acked)
    requires !OnNode(n, b, job, now, id, o).0.Failed? && n' == OnNode(n, b, job, now, id, o).1
    ensures Asked(n', n.acked[k])
  {
    match job
    case Debit(_, _, input, output) =>
      DebitAsked(key, n, b, input, output, now, id, o, k, Debited(n, b, key, input, output, now, id, o).0, n');
    case Cancel(_, lease) => CancelGrows(n, b, lease, now, id, o);
    case Count(_, _) =>
  }

  /** Cancelling one lease unasks no other. */
  lemma CancelGrows(n: D.Node, b: Budgets, lease: Lease, now: real, id: string, o: Outcome)
    ensures n.cancelled <= Cancelled(n, b, lease, now, id, o).1.cancelled
  {
  }

  lemma CancelAsks(n: D.Node, b: Budgets, lease: Lease, now: real, id: string, o: Outcome)
    requires NodeOk(lease.key, n) && lease in n.acked && !Cancelled(n, b, lease, now, id, o).0.Failed?
    ensures Asked(Cancelled(n, b, lease, now, id, o).1, lease)
  {
    var j :| 0 <= j < |n.acked| && n.acked[j] == lease;
    assert D.Carries(n.mem, n.acked[j], D.Standing(n, n.acked[j]), n.settlements);
    CancelEffect(n, b, lease, now, id, o);
  }

  ghost predicate AskedKept(n: D.Node, n': D.Node) {
    && |n.acked| <= |n'.acked| && n'.acked[..|n.acked|] == n.acked
    && (forall k :: 0 <= k < |n.acked| && Asked(n, n.acked[k]) ==> Asked(n', n.acked[k]))
  }

  lemma ActAnswers(ops: seq<Op>, nodes: map<Key, D.Node>, job: Job, key: Key, r: Reply, n': D.Node,
      ops': seq<Op>, nodes': map<Key, D.Node>)
    requires LeasesOk(ops, nodes) && job.op < |ops| && key in nodes && AskedKept(nodes[key], n') && !r.Failed? && Fits(ops[job.op], job)
    requires forall i :: 0 <= i < |ops| ==> ops[i].result != Some(Failed)
    requires forall i :: 0 <= i < |ops| && ops[i].phase.Cancelling? && ops[i].result.Some? ==>
               ops[i].phase.lease.key in nodes && Asked(nodes[ops[i].phase.lease.key], ops[i].phase.lease)
    requires ops' == ops[job.op := ops[job.op].(result := Some(r))] && nodes' == nodes[key := n'] && key == KeyOf(job)
    requires job.Cancel? ==> Asked(n', job.lease)
    ensures forall i :: 0 <= i < |ops'| ==> ops'[i].result != Some(Failed)
    ensures forall i :: 0 <= i < |ops'| && ops'[i].phase.Cancelling? && ops'[i].result.Some? ==>
               ops'[i].phase.lease.key in nodes' && Asked(nodes'[ops'[i].phase.lease.key], ops'[i].phase.lease)
  {
    forall i | 0 <= i < |ops'| && ops'[i].phase.Cancelling? && ops'[i].result.Some?
      ensures ops'[i].phase.lease.key in nodes' && Asked(nodes'[ops'[i].phase.lease.key], ops'[i].phase.lease)
    {
      var lease := ops'[i].phase.lease;
      if i != job.op {
        assert Backed(nodes, LeaseOf(ops[i]).value, CancelRan(ops[i]));
        var k :| 0 <= k < |nodes[lease.key].acked| && nodes[lease.key].acked[k] == lease;
        assert lease.key == key ==> Asked(n', nodes[key].acked[k]);
      }
    }
  }

  lemma ActForgets(s: State, job: Job, key: Key, r: Reply, n': D.Node, s': State)
    requires NoneForgotten(s) && job.op < |s.ops| && Fits(s.ops[job.op], job) && key in s.nodes && AskedKept(s.nodes[key], n')
    requires s'.ops == s.ops[job.op := s.ops[job.op].(result := Some(r))] && s'.nodes == s.nodes[key := n']
    requires n'.acked == s.nodes[key].acked + (if r.Granted? then [r.lease] else [])
    requires r.Granted? ==> job.Debit?
    ensures NoneForgotten(s')
  {
    forall k, j | k in s'.nodes && 0 <= j < |s'.nodes[k].acked| && !Asked(s'.nodes[k], s'.nodes[k].acked[j])
      ensures Answered(s'.ops, s'.nodes[k].acked[j])
    {
      var lease := s'.nodes[k].acked[j];
      if j < |s.nodes[k].acked| {
        assert s.nodes[k].acked[j] == lease && Answered(s.ops, lease);
        var i :| 0 <= i < |s.ops| && LeaseOf(s.ops[i]) == Some(lease);
        assert LeaseOf(s'.ops[i]) == Some(lease);
      } else {
        assert LeaseOf(s'.ops[job.op]) == Some(lease);
      }
    }
  }

  /** All that conservation needs of one action on a scope. */
  lemma ActOnNode(key: Key, n: D.Node, b: Budgets, job: Job, now: real, id: string, o: Outcome,
      restored: seq<Entry>, r: Reply, n': D.Node)
    requires NodeOk(key, n) && Accounted(key, n, restored) && HexId(id) && id !in n.used
    requires KeyOf(job) == key && !job.Load? && (job.Cancel? ==> job.lease in n.acked)
    requires (r, n') == OnNode(n, b, job, now, id, o) && !r.Failed?
    ensures Accounted(key, n', restored) && AskedKept(n, n') && (r.Granted? ==> job.Debit?)
    ensures n'.acked == n.acked + (if r.Granted? then [r.lease] else [])
    ensures job.Cancel? ==> Asked(n', job.lease)
  {
    OnNodeOk(key, n, b, job, now, id, o);
    OnlyDebitsGrant(n, b, job, now, id, o);
    if job.Cancel? {
      CancelAsks(n, b, job.lease, now, id, o);
    }
    ActAccounted(key, n, b, job, now, id, o, restored, n');
    forall k | 0 <= k < |n.acked| && Asked(n, n.acked[k]) ensures Asked(n', n.acked[k]) {
      AskedStays(key, n, b, job, now, id, o, k, n');
    }
    assert n'.acked[..|n.acked|] == n.acked;
  }

  /** A job in hand cancels only what its operation answers for. */
  lemma JobBacked(ops: seq<Op>, nodes: map<Key, D.Node>, job: Job)
    requires LeasesOk(ops, nodes) && job.op < |ops| && Fits(ops[job.op], job) && job.Cancel?
    ensures job.lease.key in nodes && job.lease in nodes[job.lease.key].acked
  {
    assert Backed(nodes, LeaseOf(ops[job.op]).value, CancelRan(ops[job.op]));
  }

  lemma NoFault(c: Config, s: State, now: real, id: string, o: Outcome, readable: bool, r: Reply)
    requires s.running.Some? && r == Act(c, s, s.running.value, now, id, o, readable).0
    requires !FinishStep(c, s, now, id, o, readable).fault
    ensures !r.Failed?
  {
  }

  lemma AccountedUpdate(nodes0: map<Key, D.Node>, s: State, key: Key, n': D.Node, s': State)
    requires s.loaded && AllAccounted(nodes0, s) && key in s.nodes && Accounted(key, n', Restored(nodes0, key))
    requires s'.loaded && s'.nodes == s.nodes[key := n']
    ensures AllAccounted(nodes0, s')
  {
    forall k | k in s'.nodes ensures Accounted(k, s'.nodes[k], Restored(nodes0, k)) {
    }
  }

  lemma ActBalanced(c: Config, nodes0: map<Key, D.Node>, s: State, now: real, id: string, o: Outcome,
      readable: bool, s': State)
    requires Inv(c, s) && Balanced(c, nodes0, s) && !s.fault && s.running.Some? && !s.running.value.Load?
    requires Enabled(s, Finish(now, id, o, readable)) && s' == FinishStep(c, s, now, id, o, readable) && !s'.fault
    ensures Balanced(c, nodes0, s')
  {
    JobsKnown(c, s);
    var job := s.running.value;
    var key := KeyOf(job);
    var n, b := s.nodes[key], c.scopes[key].budgets;
    ActEffect(c, s, key, now, id, o, readable, s');
    var (r, n') := OnNode(n, b, job, now, id, o);
    NoFault(c, s, now, id, o, readable, r);
    if job.Cancel? {
      JobBacked(s.ops, s.nodes, job);
    }
    assert Accounted(key, n, Restored(nodes0, key));
    ActOnNode(key, n, b, job, now, id, o, Restored(nodes0, key), r, n');
    ActConcludes(nodes0, s, job, key, r, n', s');
  }

  lemma ActConcludes(nodes0: map<Key, D.Node>, s: State, job: Job, key: Key, r: Reply, n': D.Node, s': State)
    requires s.loaded && !s.fault && AllAccounted(nodes0, s) && AnswersOk(s) && NoneForgotten(s) && LeasesOk(s.ops, s.nodes)
    requires job.op < |s.ops| && Fits(s.ops[job.op], job) && key == KeyOf(job) && key in s.nodes && !r.Failed?
    requires Accounted(key, n', Restored(nodes0, key)) && AskedKept(s.nodes[key], n') && (r.Granted? ==> job.Debit?)
    requires n'.acked == s.nodes[key].acked + (if r.Granted? then [r.lease] else [])
    requires job.Cancel? ==> Asked(n', job.lease)
    requires s'.nodes == s.nodes[key := n'] && s'.ops == s.ops[job.op := s.ops[job.op].(result := Some(r))] && s'.loaded
    ensures AllAccounted(nodes0, s') && AnswersOk(s') && NoneForgotten(s')
  {
    AccountedUpdate(nodes0, s, key, n', s');
    ActAnswers(s.ops, s.nodes, job, key, r, n', s'.ops, s'.nodes);
    ActForgets(s, job, key, r, n', s');
  }

  /** While nothing is loaded every operation is the start. */
  lemma NothingPromised(c: Config, s: State)
    requires Inv(c, s) && s.running.Some? && s.running.value.Load?
    ensures !s.loaded && s.running.value.op < |s.ops|
    ensures forall i :: 0 <= i < |s.ops| ==> !s.ops[i].phase.Cancelling?
  {
    var job := s.running.value;
    assert Work(s)[0] == job && Fits(s.ops[job.op], job);
    forall i | 0 <= i < |s.ops| ensures !s.ops[i].phase.Cancelling? {
      assert s.ops[i].kind.Start? && OpOk(s.ops[i]);
    }
  }

  /** What a load that succeeded leaves. */
  lemma LoadedState(c: Config, s: State, now: real, id: string, o: Outcome, readable: bool, s': State)
    requires s.running.Some? && s.running.value.Load? && s.running.value.op < |s.ops|
    requires s' == FinishStep(c, s, now, id, o, readable) && !s'.fault
    ensures s'.loaded && LoadAll(c, s.nodes).Some? && s'.nodes == LoadAll(c, s.nodes).value
    ensures s'.ops == s.ops[s.running.value.op := s.ops[s.running.value.op].(result := Some(Finished))]
  {
  }

  lemma LoadAccounts(c: Config, nodes0: map<Key, D.Node>, s': State)
    requires LoadAll(c, nodes0).Some? && s'.nodes == LoadAll(c, nodes0).value && s'.loaded && NodesOk(c, s')
    ensures AllAccounted(nodes0, s') && forall k :: k in s'.nodes ==> s'.nodes[k].acked == []
  {
    forall k | k in s'.nodes ensures Accounted(k, s'.nodes[k], Restored(nodes0, k)) && s'.nodes[k].acked == [] {
      LoadAccounted(k, nodes0[k]);
    }
  }

  lemma LoadPromises(s: State, i: nat, s': State)
    requires i < |s.ops| && s'.ops == s.ops[i := s.ops[i].(result := Some(Finished))] && AnswersOk(s) && !s.fault && !s'.fault
    requires forall j :: 0 <= j < |s.ops| ==> !s.ops[j].phase.Cancelling?
    requires forall k :: k in s'.nodes ==> s'.nodes[k].acked == []
    ensures AnswersOk(s') && NoneForgotten(s')
  {
  }

  lemma LoadBalanced(c: Config, nodes0: map<Key, D.Node>, s: State, now: real, id: string, o: Outcome,
      readable: bool, s': State)
    requires Inv(c, s) && Balanced(c, nodes0, s) && !s.fault && s.running.Some? && s.running.value.Load?
    requires s' == FinishStep(c, s, now, id, o, readable) && !s'.fault
    ensures Balanced(c, nodes0, s')
  {
    NothingPromised(c, s);
    LoadFinish(c, s, now, id, o, readable, s');
    LoadedState(c, s, now, id, o, readable, s');
    LoadAccounts(c, nodes0, s');
    LoadPromises(s, s.running.value.op, s');
  }

  lemma {:induction false} RunBalanced(c: Config, nodes: map<Key, D.Node>, es: seq<Event>)
    requires Unloaded(c, nodes) && Unacked(nodes) && Legal(c, Initial(nodes), es)
    ensures Inv(c, Run(c, Initial(nodes), es)) && Balanced(c, nodes, Run(c, Initial(nodes), es))
  {
    ReachableInv(c, nodes, es);
    if es != [] {
      var fs, e := es[..|es| - 1], es[|es| - 1];
      RunBalanced(c, nodes, fs);
      StepBalanced(c, nodes, Run(c, Initial(nodes), fs), e);
    }
  }

  lemma LoadedByLoad(c: Config, s: State, job: Job, now: real, id: string, o: Outcome, readable: bool)
    ensures var s' := Act(c, s, job, now, id, o, readable).1;
            && (!job.Load? ==> s'.loaded == s.loaded)
            && (job.Load? && !s'.loaded ==> s' == s)
  {
  }

  /** Before the load has succeeded nothing touches the files. */
  lemma UnloadedStep(c: Config, s: State, now: real, id: string, o: Outcome, readable: bool, s': State)
    requires Inv(c, s) && s' == FinishStep(c, s, now, id, o, readable) && !s'.loaded
    ensures !s.loaded && s'.nodes == s.nodes
  {
    if s.running.Some? {
      LoadedByLoad(c, s, s.running.value, now, id, o, readable);
      assert s.running.value.Load? || s.loaded by {
        if !s.running.value.Load? {
          JobsKnown(c, s);
        }
      }
    }
  }

  lemma StepBalanced(c: Config, nodes0: map<Key, D.Node>, s: State, e: Event)
    requires Inv(c, s) && Balanced(c, nodes0, s) && Unacked(nodes0) && Enabled(s, e)
    ensures Balanced(c, nodes0, Step(c, s, e))
  {
    var s' := Step(c, s, e);
    if !e.Finish? {
      LoopBalanced(c, nodes0, s, e);
    } else if s'.fault {
      if !s'.loaded {
        UnloadedStep(c, s, e.now, e.id, e.outcome, e.readable, s');
      }
    } else if s.running.Some? {
      FaultStays(c, s, e);
      if s.running.value.Load? {
        LoadBalanced(c, nodes0, s, e.now, e.id, e.outcome, e.readable, s');
      } else {
        ActBalanced(c, nodes0, s, e.now, e.id, e.outcome, e.readable, s');
      }
    }
  }

  /** Main result: in a run without a fault, once the owner has drained, an entry whose window
      is open is in the ledger, and in the file that the next process will load, if and only if it
      was restored at the start or belongs to a lease that was handed off.  Nothing unsent is
      still charged and nothing sent is forgiven. */
  lemma DrainedBalance(c: Config, nodes: map<Key, D.Node>, es: seq<Event>, key: Key, e: Entry)
    requires Unloaded(c, nodes) && Unacked(nodes) && Legal(c, Initial(nodes), es)
    requires var s := Run(c, Initial(nodes), es);
             s.drained && !s.fault && s.loaded && key in s.nodes && s.nodes[key].clock - e.at < WINDOW_S
    ensures var s := Run(c, Initial(nodes), es);
            var sent := e in Restored(nodes, key) || SentEntry(s.ops, key, e);
            && (e in Entries(key, s.nodes[key].mem) <==> sent)
            && D.OnDisk(s.nodes[key].disk).Some? && (e in Entries(key, D.OnDisk(s.nodes[key].disk).value) <==> sent)
  {
    RunBalanced(c, nodes, es);
    BalancedAtRest(c, nodes, Run(c, Initial(nodes), es), key, e);
  }

  lemma OutstandingFound(l: Lane, lease: Lease, now: real, i: nat)
    requires LaneOk(l) && Ours(l, lease) && now >= 0.0 && now - lease.at < WINDOW_S
    requires i < |l.entries| && l.entries[i].seqNo == lease.seqNo && l.entries[i].at == lease.at && !l.entries[i].settled
    ensures CancelUnsent(l, lease, now).0.Ok?
  {
    var p := Prune(l.entries, now);
    PruneExact(l.entries, now);
    PruneNumbered(l.entries, l.nextSeq, now);
    assert l.entries[i] in p;
    var j :| 0 <= j < |p| && p[j] == l.entries[i];
    FindExact(p, l.nextSeq, j);
  }

  lemma OwedEntry(key: Key, n: D.Node, restored: seq<Entry>, k: nat, e: Entry)
    requires Accounted(key, n, restored) && k < |n.acked| && n.clock - e.at < WINDOW_S
    requires e in Entries(key, n.mem) && e.seqNo == n.acked[k].seqNo
    ensures !e.settled
  {
    assert e in restored || Owed(n, e);
  }

  lemma CancelReply(n: D.Node, b: Budgets, lease: Lease, now: real, id: string, o: Outcome)
    requires ValidKey(lease.key) && lease.key in n.mem.lanes && CancelUnsent(n.mem.lanes[lease.key], lease, now).0.Ok?
    ensures Cancelled(n, b, lease, now, id, o).0.Failed? <==> !o.Saved?
  {
  }

  lemma RollbackFinds(key: Key, n: D.Node, restored: seq<Entry>, k: nat, now: real)
    requires NodeOk(key, n) && Accounted(key, n, restored) && k < |n.acked| && !Asked(n, n.acked[k])
    requires n.acked[k].key == key && 0.0 <= n.clock <= now
    ensures key in n.mem.lanes && CancelUnsent(n.mem.lanes[key], n.acked[k], now).0.Ok?
  {
    var lease := n.acked[k];
    assert D.Carries(n.mem, n.acked[k], D.Standing(n, n.acked[k]), n.settlements);
    var l := n.mem.lanes[key];
    if now - lease.at < WINDOW_S {
      assert D.Holds(l.entries, lease, {});
      var e :| e in l.entries && e.seqNo == lease.seqNo && e.at == lease.at;
      OwedEntry(key, n, restored, k, e);
      var i :| 0 <= i < |l.entries| && l.entries[i] == e;
      OutstandingFound(l, lease, now, i);
    }
  }

  lemma RollbackReply(key: Key, n: D.Node, restored: seq<Entry>, b: Budgets, lease: Lease, now: real,
      id: string, o: Outcome)
    requires NodeOk(key, n) && Accounted(key, n, restored) && lease in n.acked && !Asked(n, lease)
    requires lease.key == key && n.clock <= now
    ensures Cancelled(n, b, lease, now, id, o).0.Failed? <==> !o.Saved?
  {
    var k :| 0 <= k < |n.acked| && n.acked[k] == lease;
    RollbackFinds(key, n, restored, k, now);
    CancelReply(n, b, lease, now, id, o);
  }

  /** The lease of a cancellation in hand is acknowledged, and nobody has asked to cancel it. */
  lemma RollbackBacked(ops: seq<Op>, nodes: map<Key, D.Node>, job: Job)
    requires LeasesOk(ops, nodes) && job.op < |ops| && Fits(ops[job.op], job) && job.Cancel?
    ensures var lease := job.lease;
            lease.key in nodes && lease in nodes[lease.key].acked && !Asked(nodes[lease.key], lease)
  {
    assert Backed(nodes, LeaseOf(ops[job.op]).value, CancelRan(ops[job.op]));
  }

  lemma RollbackFault(c: Config, s: State, key: Key, now: real, id: string, o: Outcome, readable: bool)
    requires s.running.Some? && s.running.value.Cancel? && !s.fault
    requires key == s.running.value.lease.key && key in s.nodes && key in c.scopes && s.running.value.op < |s.ops|
    ensures FinishStep(c, s, now, id, o, readable).fault
       <==> Cancelled(s.nodes[key], c.scopes[key].budgets, s.running.value.lease, now, id, o).0.Failed?
  {
  }

  lemma RollbackInRun(c: Config, nodes0: map<Key, D.Node>, s: State, now: real, id: string, o: Outcome, readable: bool)
    requires Inv(c, s) && Balanced(c, nodes0, s) && !s.fault && s.running.Some? && s.running.value.Cancel?
    requires s.running.value.lease.key in s.nodes ==> s.nodes[s.running.value.lease.key].clock <= now
    ensures FinishStep(c, s, now, id, o, readable).fault <==> !o.Saved?
  {
    JobsKnown(c, s);
    var job := s.running.value;
    var key := KeyOf(job);
    RollbackBacked(s.ops, s.nodes, job);
    RollbackFault(c, s, key, now, id, o, readable);
    assert Accounted(key, s.nodes[key], Restored(nodes0, key));
    RollbackReply(key, s.nodes[key], Restored(nodes0, key), c.scopes[key].budgets, job.lease, now, id, o);
  }

  lemma FaultInStep(c: Config, s: State, now: real, id: string, o: Outcome, readable: bool, f: bool)
    requires FinishStep(c, s, now, id, o, readable).fault == f
    ensures Step(c, s, Finish(now, id, o, readable)).fault == f
  {
  }

  lemma RollbackInStep(c: Config, nodes0: map<Key, D.Node>, s: State, now: real, id: string, o: Outcome, readable: bool)
    requires Inv(c, s) && Balanced(c, nodes0, s) && !s.fault && s.running.Some? && s.running.value.Cancel?
    requires s.running.value.lease.key in s.nodes ==> s.nodes[s.running.value.lease.key].clock <= now
    ensures Step(c, s, Finish(now, id, o, readable)).fault == !o.Saved?
  {
    RollbackInRun(c, nodes0, s, now, id, o, readable);
    FaultInStep(c, s, now, id, o, readable, !o.Saved?);
  }

  /** Main result: in every run without a fault, a rollback in the worker's hands finds its entry
      unsettled, provided the clock has not gone back; it makes a fault if and only if its save
      fails. */
  lemma RollbackFails(c: Config, nodes: map<Key, D.Node>, es: seq<Event>, s: State, now: real, id: string, o: Outcome,
      readable: bool)
    requires Unloaded(c, nodes) && Unacked(nodes) && Legal(c, Initial(nodes), es) && s == Run(c, Initial(nodes), es)
    requires !s.fault && s.running.Some? && s.running.value.Cancel?
    requires s.running.value.lease.key in s.nodes ==> s.nodes[s.running.value.lease.key].clock <= now
    ensures Step(c, s, Finish(now, id, o, readable)).fault <==> !o.Saved?
  {
    RunBalanced(c, nodes, es);
    assert Inv(c, s) && Balanced(c, nodes, s);
    RollbackInStep(c, nodes, s, now, id, o, readable);
  }
}
