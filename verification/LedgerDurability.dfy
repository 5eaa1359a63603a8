/**
 Crash safety of the snapshot file.  A process works on the pool in memory, saves it with any
 outcome, and may be replaced at any moment by a new process that loads the file.  Leases are
 remembered here as they are acknowledged, together with the cancellations and settlements
 asked for.
 */
module LedgerDurability {
  import opened Common
  import opened Ledger
  import opened LedgerCodec
  import opened LedgerPools
  import H = LedgerHistory

  /** A settlement asked of a ledger: for which number, and at what amount. */
  datatype Settlement = Settlement(ledgerId: string, seqNo: int, spent: int)

  /** `clock` is the latest time the ledgers have read, in any process. */
  datatype Node = Node(mem: Pool, disk: Option<Json>, acked: seq<Lease>, cancelled: set<(string, int)>,
                       settlements: set<Settlement>, used: set<string>, clock: real)

  datatype Event =
    | Use(key: Key, id: string, op: H.Event)
    | Admit(key: Key, id: string, now: real, input: int, output: int, outcome: Outcome)
    | Save(outcome: Outcome)
    | Restart

  /** What a new process would load; a missing file is a cold start. */
  function OnDisk(disk: Option<Json>): Option<Pool> {
    if disk.None? then Some(EMPTY) else Decode(disk.value)
  }

  /** The settlement an operation asks of a ledger, if it asks one. */
  function AskedBy(l: Lane, op: H.Event): set<Settlement> {
    if op.SettleAt? && op.spent >= 0 && Ours(l, op.lease) then {Settlement(l.id, op.lease.seqNo, op.spent)} else {}
  }

  /** A ledger operation on one lane, in memory only. */
  function InMemory(s: Node, b: Budgets, key: Key, id: string, op: H.Event): Node {
    if !ValidKey(key) then s
    else
      var p := WithLane(s.mem, key, id);
      var l := p.lanes[key];
      s.(mem := p.(lanes := p.lanes[key := H.LaneAfter(l, b, op)]),
         used := s.used + {id},
         cancelled := if op.CancelAt? && Ours(l, op.lease) then s.cancelled + {(l.id, op.lease.seqNo)} else s.cancelled,
         settlements := s.settlements + AskedBy(l, op),
         clock := MaxR(s.clock, op.now))
  }

  /** The lease a debit of this lane would issue. */
  function Issued(s: Node, b: Budgets, key: Key, id: string, now: real, input: int, output: int): Option<Lease> {
    var r := Provisional(s.mem, b, key, now, input, output, id).0;
    if r.Ok? then r.value else None
  }

  function Step(s: Node, b: Budgets, e: Event): Node {
    match e
    case Use(key, id, op) => InMemory(s, b, key, id, op)
    case Admit(key, id, now, input, output, o) =>
      var lease := Issued(s, b, key, id, now, input, output);
      var s1 := InMemory(s, b, key, id, H.DebitAt(now, input, output));
      if lease.None? then s1
      else
        var s2 := s1.(disk := Written(s1.mem, s1.disk, o));
        if o.Saved? then Acknowledge(s2, lease.value) else s2
    case Save(o) => s.(disk := Written(s.mem, s.disk, o))
    case Restart => var p := OnDisk(s.disk); if p.None? then s else s.(mem := p.value)
  }

  /** Nobody has asked anything about a lease that was only now acknowledged. */
  function Acknowledge(s: Node, lease: Lease): Node {
    s.(acked := s.acked + [lease], cancelled := s.cancelled - {(lease.ledgerId, lease.seqNo)},
       settlements := Except(s.settlements, lease))
  }

  function Except(asked: set<Settlement>, lease: Lease): set<Settlement> {
    set t | t in asked && (t.ledgerId, t.seqNo) != (lease.ledgerId, lease.seqNo)
  }

  /** New ledgers draw an identity nobody has used. */
  predicate Enabled(s: Node, e: Event) {
    match e
    case Use(_, id, _) => HexId(id) && id !in s.used
    case Admit(_, id, _, _, _, _) => HexId(id) && id !in s.used
    case _ => true
  }

  const COLD := Node(EMPTY, None, [], {}, {}, {}, 0.0)

  ghost function Run(b: Budgets, es: seq<Event>): Node {
    if es == [] then COLD else Step(Run(b, es[..|es| - 1]), b, es[|es| - 1])
  }

  ghost predicate Legal(b: Budgets, es: seq<Event>) {
    es == [] || (Legal(b, es[..|es| - 1]) && Enabled(Run(b, es[..|es| - 1]), es[|es| - 1]))
  }

  // ------------------------------------------------------------------ one lane

  /** The entry of a lease carries its debt: the full reservation, or, once it is settled, an
      amount that a settlement of this very lease reported. */
  ghost predicate DebtOf(e: Entry, lease: Lease, asked: set<Settlement>) {
    && e.seqNo == lease.seqNo && e.at == lease.at
    && if e.settled then Settlement(lease.ledgerId, lease.seqNo, e.tokens) in asked
       else e.tokens == lease.inputTokens + lease.outputBound
  }

  ghost predicate Holds(es: seq<Entry>, lease: Lease, asked: set<Settlement>) {
    exists e :: e in es && DebtOf(e, lease, asked)
  }

  lemma PruneHolds(es: seq<Entry>, lease: Lease, asked: set<Settlement>, now: real)
    requires Holds(es, lease, asked) && now - lease.at < WINDOW_S
    ensures Holds(Prune(es, now), lease, asked)
  {
    PruneExact(es, now);
    var e :| e in es && DebtOf(e, lease, asked);
    assert e in Prune(es, now);
  }

  lemma HoldsMore(es: seq<Entry>, lease: Lease, asked: set<Settlement>, more: set<Settlement>)
    requires Holds(es, lease, asked) && asked <= more
    ensures Holds(es, lease, more)
  {
    var e :| e in es && DebtOf(e, lease, asked);
    assert DebtOf(e, lease, more);
  }

  /** Settling another lease leaves the entry as it is; settling this one is recorded. */
  lemma SettleHolds(l: Lane, other: Lease, now: real, spent: int, lease: Lease, asked: set<Settlement>)
    requires Holds(l.entries, lease, asked) && lease.ledgerId == l.id && (now >= 0.0 ==> now - lease.at < WINDOW_S)
    ensures Holds(Settle(l, other, now, spent).1.entries, lease, asked + AskedBy(l, H.SettleAt(now, other, spent)))
  {
    var more := asked + AskedBy(l, H.SettleAt(now, other, spent));
    if now >= 0.0 {
      PruneHolds(l.entries, lease, asked, now);
    }
    var es := EntryFor(l, other, now).1.entries;
    var es' := Settle(l, other, now, spent).1.entries;
    if spent >= 0 {
      SettledHolds(es, es', lease, asked, more, spent);
    } else {
      HoldsMore(l.entries, lease, asked, more);
    }
  }

  /** At most one entry was settled, and at an amount that was asked for its number. */
  lemma SettledHolds(es: seq<Entry>, es': seq<Entry>, lease: Lease, asked: set<Settlement>, more: set<Settlement>, spent: int)
    requires Holds(es, lease, asked) && asked <= more && |es'| == |es|
    requires forall i :: 0 <= i < |es| && es'[i] != es[i] ==>
               es'[i] == es[i].(tokens := spent, settled := true)
               && (es[i].seqNo == lease.seqNo ==> Settlement(lease.ledgerId, lease.seqNo, spent) in more)
    ensures Holds(es', lease, more)
  {
    var e :| e in es && DebtOf(e, lease, asked);
    var i :| 0 <= i < |es| && es[i] == e;
    assert es'[i] in es' && DebtOf(es'[i], lease, more);
  }

  lemma CancelHolds(l: Lane, other: Lease, now: real, lease: Lease, asked: set<Settlement>)
    requires Holds(l.entries, lease, asked) && (now >= 0.0 ==> now - lease.at < WINDOW_S)
    requires Ours(l, other) ==> other.seqNo != lease.seqNo
    ensures Holds(CancelUnsent(l, other, now).1.entries, lease, asked)
  {
    if now >= 0.0 {
      PruneHolds(l.entries, lease, asked, now);
    }
    var (found, l') := EntryFor(l, other, now);
    var es := l'.entries;
    var es' := CancelUnsent(l, other, now).1.entries;
    var e :| e in es && DebtOf(e, lease, asked);
    if es' != es {
      OthersRemain(es, found.value.value, e);
    }
  }

  lemma OthersRemain(es: seq<Entry>, k: nat, e: Entry)
    requires k < |es| && e in es && e != es[k]
    ensures e in es[..k] + es[k + 1..]
  {
    var i :| 0 <= i < |es| && es[i] == e;
    assert e == (es[..k] + es[k + 1..])[if i < k then i else i - 1];
  }

  /** What no operation on a lane undoes: an unexpired debt that it does not itself cancel. */
  lemma UseHolds(l: Lane, b: Budgets, op: H.Event, lease: Lease, asked: set<Settlement>)
    requires Holds(l.entries, lease, asked) && lease.ledgerId == l.id
    requires op.now >= 0.0 ==> op.now - lease.at < WINDOW_S
    requires op.CancelAt? && Ours(l, op.lease) ==> op.lease.seqNo != lease.seqNo
    ensures Holds(H.LaneAfter(l, b, op).entries, lease, asked + AskedBy(l, op))
  {
    match op
    case SettleAt(now, other, spent) => SettleHolds(l, other, now, spent, lease, asked);
    case CancelAt(now, other) => CancelHolds(l, other, now, lease, asked);
    case DebitAt(now, input, output) =>
      if now >= 0.0 {
        PruneHolds(l.entries, lease, asked, now);
      }
      DebitHolds(l, b, now, input, output, lease, asked);
    case _ =>
      if op.now >= 0.0 {
        PruneHolds(l.entries, lease, asked, op.now);
      }
  }

  lemma DebitHolds(l: Lane, b: Budgets, now: real, input: int, output: int, lease: Lease, asked: set<Settlement>)
    requires Holds(l.entries, lease, asked) && (now >= 0.0 ==> Holds(Prune(l.entries, now), lease, asked))
    ensures Holds(Debit(l, b, now, input, output).1.entries, lease, asked)
  {
    var es := if now >= 0.0 then Prune(l.entries, now) else l.entries;
    var e :| e in es && DebtOf(e, lease, asked);
    var e' :| e' in l.entries && DebtOf(e', lease, asked);
    var l' := Debit(l, b, now, input, output).1;
    assert l'.entries == l.entries || l'.entries == es || es <= l'.entries;
  }

  lemma UseOk(l: Lane, b: Budgets, op: H.Event)
    requires LaneOk(l)
    ensures var l' := H.LaneAfter(l, b, op); LaneOk(l') && l'.key == l.key && l'.id == l.id && l'.nextSeq >= l.nextSeq
  {
    match op
    case DebitAt(now, input, output) => DebitOk(l, b, now, input, output);
    case SettleAt(now, lease, spent) => SettleOk(l, lease, now, spent);
    case CancelAt(now, lease) => CancelOk(l, lease, now);
    case RetainAt(now, lease) => EntryForOk(l, lease, now);
    case SnapshotAt(now) => PruneOk(l, now);
  }

  // ----------------------------------------------------------------- invariant

  /** Every lane of `d` is one of `m`, which has issued at least as many numbers. */
  ghost predicate Older(d: Pool, m: Pool) {
    forall k :: k in d.lanes ==>
      k in m.lanes && d.lanes[k].id == m.lanes[k].id && d.lanes[k].nextSeq <= m.lanes[k].nextSeq
  }

  ghost predicate IdsUsed(p: Pool, used: set<string>) {
    forall k :: k in p.lanes ==> p.lanes[k].id in used
  }

  ghost predicate Standing(s: Node, lease: Lease) {
    s.clock - lease.at < WINDOW_S && (lease.ledgerId, lease.seqNo) !in s.cancelled
  }

  /** The pool has issued this number, and still carries the debt if it is standing. */
  ghost predicate Carries(p: Pool, lease: Lease, standing: bool, asked: set<Settlement>) {
    && lease.key in p.lanes && Ours(p.lanes[lease.key], lease)
    && (standing ==> Holds(p.lanes[lease.key].entries, lease, asked))
  }

  ghost predicate AckedOk(s: Node, d: Pool) {
    forall i :: 0 <= i < |s.acked| ==>
      && Carries(d, s.acked[i], Standing(s, s.acked[i]), s.settlements)
      && Carries(s.mem, s.acked[i], Standing(s, s.acked[i]), s.settlements)
  }

  ghost predicate Unshared(acked: seq<Lease>) {
    forall i, j :: 0 <= i < j < |acked| ==> (acked[i].ledgerId, acked[i].seqNo) != (acked[j].ledgerId, acked[j].seqNo)
  }

  ghost predicate Inv(s: Node) {
    && PoolOk(s.mem) && IdsUsed(s.mem, s.used) && s.clock >= 0.0
    && OnDisk(s.disk).Some? && PoolOk(OnDisk(s.disk).value)
    && Older(OnDisk(s.disk).value, s.mem)
    && AckedOk(s, OnDisk(s.disk).value)
    && Unshared(s.acked)
  }

  lemma WithLaneOk(p: Pool, used: set<string>, key: Key, id: string)
    requires PoolOk(p) && IdsUsed(p, used) && ValidKey(key) && HexId(id) && id !in used
    ensures PoolOk(WithLane(p, key, id)) && IdsUsed(WithLane(p, key, id), used + {id}) && Older(p, WithLane(p, key, id))
  {
    if key !in p.lanes {
      NewLaneOk(p, used, key, Lane(key, id, [], 1));
    }
  }

  lemma NewLaneOk(p: Pool, used: set<string>, key: Key, l: Lane)
    requires PoolOk(p) && IdsUsed(p, used) && key !in p.lanes && ValidKey(key) && l.key == key
    requires HexId(l.id) && l.id !in used && LaneOk(l)
    ensures PoolOk(Pool(p.order + [key], p.lanes[key := l]))
  {
    var q := Pool(p.order + [key], p.lanes[key := l]);
    forall j, k | j in q.lanes && k in q.lanes && q.lanes[j].id == q.lanes[k].id ensures j == k {
      assert j in p.lanes ==> p.lanes[j].id in used;
      assert k in p.lanes ==> p.lanes[k].id in used;
    }
  }

  lemma ReplaceLaneOk(p: Pool, key: Key, l: Lane)
    requires PoolOk(p) && key in p.lanes
    requires LaneOk(l) && l.key == key && l.id == p.lanes[key].id
    ensures PoolOk(p.(lanes := p.lanes[key := l]))
  {
  }

  lemma InMemoryPool(s: Node, b: Budgets, key: Key, id: string, op: H.Event, s': Node)
    requires PoolOk(s.mem) && IdsUsed(s.mem, s.used) && HexId(id) && id !in s.used
    requires s' == InMemory(s, b, key, id, op)
    ensures PoolOk(s'.mem) && IdsUsed(s'.mem, s'.used) && Older(s.mem, s'.mem)
  {
    if ValidKey(key) {
      WithLaneOk(s.mem, s.used, key, id);
      var p := WithLane(s.mem, key, id);
      UseOk(p.lanes[key], b, op);
      ReplaceLaneOk(p, key, H.LaneAfter(p.lanes[key], b, op));
    }
  }

  lemma OlderThrough(a: Pool, m: Pool, c: Pool)
    requires Older(a, m) && Older(m, c)
    ensures Older(a, c)
  {
  }

  /** A standing debt was standing before. */
  lemma StandingBefore(s: Node, b: Budgets, key: Key, id: string, op: H.Event, lease: Lease)
    requires Standing(InMemory(s, b, key, id, op), lease)
    ensures Standing(s, lease)
    ensures ValidKey(key) ==> op.now - lease.at < WINDOW_S
  {
  }

  lemma InMemoryCarries(s: Node, b: Budgets, key: Key, id: string, op: H.Event, s': Node, lease: Lease)
    requires s' == InMemory(s, b, key, id, op)
    requires Older(s.mem, s'.mem) && Carries(s.mem, lease, Standing(s, lease), s.settlements)
    requires s.mem.lanes[lease.key].key == lease.key && s'.mem.lanes[lease.key].key == lease.key
    ensures Carries(s'.mem, lease, Standing(s', lease), s'.settlements)
  {
    var l := s.mem.lanes[lease.key];
    if Standing(s', lease) {
      StandingBefore(s, b, key, id, op, lease);
      if key == lease.key && ValidKey(key) {
        assert s'.mem.lanes[key] == H.LaneAfter(l, b, op);
        UseHolds(l, b, op, lease, s.settlements);
      } else {
        assert s'.mem.lanes[lease.key] == l;
        HoldsMore(l.entries, lease, s.settlements, s'.settlements);
      }
    }
  }

  lemma CarriesLater(p: Pool, lease: Lease, standing: bool, asked: set<Settlement>, standing': bool, asked': set<Settlement>)
    requires Carries(p, lease, standing, asked) && (standing' ==> standing) && asked <= asked'
    ensures Carries(p, lease, standing', asked')
  {
    if standing' {
      HoldsMore(p.lanes[lease.key].entries, lease, asked, asked');
    }
  }

  lemma InMemoryInv(s: Node, b: Budgets, key: Key, id: string, op: H.Event, s': Node)
    requires Inv(s) && HexId(id) && id !in s.used && s' == InMemory(s, b, key, id, op)
    ensures Inv(s')
  {
    InMemoryPool(s, b, key, id, op, s');
    OlderThrough(OnDisk(s.disk).value, s.mem, s'.mem);
    InMemoryAcked(s, b, key, id, op, s', OnDisk(s.disk).value);
  }

  lemma InMemoryAcked(s: Node, b: Budgets, key: Key, id: string, op: H.Event, s': Node, d: Pool)
    requires PoolOk(s.mem) && PoolOk(s'.mem) && Older(s.mem, s'.mem) && AckedOk(s, d)
    requires s' == InMemory(s, b, key, id, op)
    ensures AckedOk(s', d)
  {
    forall i | 0 <= i < |s'.acked|
      ensures Carries(d, s'.acked[i], Standing(s', s'.acked[i]), s'.settlements)
      ensures Carries(s'.mem, s'.acked[i], Standing(s', s'.acked[i]), s'.settlements)
    {
      var lease := s.acked[i];
      assert Carries(s.mem, lease, Standing(s, lease), s.settlements);
      InMemoryCarries(s, b, key, id, op, s', lease);
      if Standing(s', lease) {
        StandingBefore(s, b, key, id, op, lease);
      }
      CarriesLater(d, lease, Standing(s, lease), s.settlements, Standing(s', lease), s'.settlements);
    }
  }

  lemma WrittenInv(s: Node, o: Outcome)
    requires Inv(s)
    ensures Inv(s.(disk := Written(s.mem, s.disk, o)))
  {
    if !o.FailedBefore? {
      RoundTrip(s.mem);
    }
  }

  /** An acknowledged lease is new, and its debt is in memory and on disk. */
  lemma IssuedCarries(s: Node, b: Budgets, key: Key, id: string, now: real, input: int, output: int, s1: Node,
      lease: Lease)
    requires PoolOk(s.mem) && Issued(s, b, key, id, now, input, output) == Some(lease)
    requires s1 == InMemory(s, b, key, id, H.DebitAt(now, input, output))
    ensures Carries(s1.mem, lease, true, {})
    ensures key in s.mem.lanes ==> lease.ledgerId == s.mem.lanes[key].id && lease.seqNo == s.mem.lanes[key].nextSeq
    ensures key !in s.mem.lanes ==> lease.ledgerId == id
    ensures lease.key == key
  {
    var p := WithLane(s.mem, key, id);
    var l := p.lanes[key];
    var (r, l') := Debit(l, b, now, input, output);
    assert l.key == key && l.nextSeq > 0;
    var e := Entry(l.nextSeq, now, input + output, false);
    assert l'.entries[|l'.entries| - 1] == e && DebtOf(e, lease, {});
  }

  /** A new number differs from every acknowledged one. */
  lemma IssuedUnshared(s: Node, key: Key, id: string, lease: Lease)
    requires PoolOk(s.mem) && IdsUsed(s.mem, s.used) && id !in s.used && Unshared(s.acked)
    requires forall i :: 0 <= i < |s.acked| ==> Issues(s.mem, s.acked[i])
    requires key in s.mem.lanes ==> lease.ledgerId == s.mem.lanes[key].id && lease.seqNo == s.mem.lanes[key].nextSeq
    requires key !in s.mem.lanes ==> lease.ledgerId == id
    ensures Unshared(s.acked + [lease])
  {
    forall i | 0 <= i < |s.acked| ensures (s.acked[i].ledgerId, s.acked[i].seqNo) != (lease.ledgerId, lease.seqNo) {
      assert Issues(s.mem, s.acked[i]);
    }
  }

  /** The pool has issued this number. */
  ghost predicate Issues(p: Pool, lease: Lease) {
    lease.key in p.lanes && Ours(p.lanes[lease.key], lease)
  }

  lemma CarriesAnyway(s: Node)
    requires OnDisk(s.disk).Some? && AckedOk(s, OnDisk(s.disk).value)
    ensures forall i :: 0 <= i < |s.acked| ==> Issues(s.mem, s.acked[i])
  {
    forall i | 0 <= i < |s.acked| ensures Issues(s.mem, s.acked[i]) {
      assert Carries(s.mem, s.acked[i], Standing(s, s.acked[i]), s.settlements);
    }
  }

  lemma AdmitSaved(s: Node, b: Budgets, key: Key, id: string, now: real, input: int, output: int, s1: Node,
      lease: Lease)
    requires Inv(s) && HexId(id) && id !in s.used && Issued(s, b, key, id, now, input, output) == Some(lease)
    requires s1 == InMemory(s, b, key, id, H.DebitAt(now, input, output)) && Inv(s1)
    ensures Inv(Acknowledge(s1.(disk := Some(Encode(s1.mem))), lease))
  {
    IssuedCarries(s, b, key, id, now, input, output, s1, lease);
    CarriesAnyway(s);
    IssuedUnshared(s, key, id, lease);
    WrittenInv(s1, Saved);
    RoundTrip(s1.mem);
    AcknowledgeInv(s1.(disk := Some(Encode(s1.mem))), lease);
  }

  lemma AdmitInv(s: Node, b: Budgets, key: Key, id: string, now: real, input: int, output: int, o: Outcome)
    requires Inv(s) && HexId(id) && id !in s.used
    ensures Inv(Step(s, b, Admit(key, id, now, input, output, o)))
  {
    var s1 := InMemory(s, b, key, id, H.DebitAt(now, input, output));
    InMemoryInv(s, b, key, id, H.DebitAt(now, input, output), s1);
    var issued := Issued(s, b, key, id, now, input, output);
    if issued.Some? {
      if o.Saved? {
        AdmitSaved(s, b, key, id, now, input, output, s1, issued.value);
      } else {
        WrittenInv(s1, o);
      }
    }
  }

  /** Forgetting what was asked about one number weakens no other lease's debt. */
  lemma ExceptHolds(es: seq<Entry>, lease: Lease, asked: set<Settlement>, other: Lease)
    requires Holds(es, lease, asked) && (lease.ledgerId, lease.seqNo) != (other.ledgerId, other.seqNo)
    ensures Holds(es, lease, Except(asked, other))
  {
    var e :| e in es && DebtOf(e, lease, asked);
    assert DebtOf(e, lease, Except(asked, other));
  }

  lemma AcknowledgeCarries(s: Node, lease: Lease, i: nat, s': Node)
    requires s' == Acknowledge(s, lease) && i < |s.acked| && Unshared(s'.acked)
    requires Carries(s.mem, s.acked[i], Standing(s, s.acked[i]), s.settlements)
    ensures Carries(s.mem, s.acked[i], Standing(s', s.acked[i]), s'.settlements)
  {
    assert s'.acked[|s.acked|] == lease && s'.acked[i] == s.acked[i];
    if Standing(s', s.acked[i]) {
      ExceptHolds(s.mem.lanes[s.acked[i].key].entries, s.acked[i], s.settlements, lease);
    }
  }

  lemma AcknowledgeInv(s: Node, lease: Lease)
    requires Inv(s) && OnDisk(s.disk) == Some(s.mem) && Carries(s.mem, lease, true, {}) && Unshared(s.acked + [lease])
    ensures Inv(Acknowledge(s, lease))
  {
    var s' := Acknowledge(s, lease);
    forall i | 0 <= i < |s'.acked| ensures Carries(s.mem, s'.acked[i], Standing(s', s'.acked[i]), s'.settlements) {
      if i < |s.acked| {
        assert Carries(s.mem, s.acked[i], Standing(s, s.acked[i]), s.settlements);
        AcknowledgeCarries(s, lease, i, s');
      } else {
        CarriesLater(s.mem, lease, true, {}, Standing(s', lease), s'.settlements);
      }
    }
  }

  lemma RestartAcked(s: Node, d: Pool)
    requires AckedOk(s, d)
    ensures AckedOk(s.(mem := d), d)
  {
    var s' := s.(mem := d);
    forall i | 0 <= i < |s'.acked| ensures Carries(d, s'.acked[i], Standing(s', s'.acked[i]), s'.settlements) {
      assert Carries(d, s.acked[i], Standing(s, s.acked[i]), s.settlements);
    }
  }

  lemma RestartIds(d: Pool, m: Pool, used: set<string>)
    requires Older(d, m) && IdsUsed(m, used)
    ensures IdsUsed(d, used) && Older(d, d)
  {
  }

  /** A new process finds every lane it needs and nothing it does not know. */
  lemma RestartInv(s: Node, b: Budgets)
    requires Inv(s)
    ensures Inv(Step(s, b, Restart))
  {
    var d := OnDisk(s.disk).value;
    RestartIds(d, s.mem, s.used);
    RestartAcked(s, d);
  }

  lemma StepInv(s: Node, b: Budgets, e: Event)
    requires Inv(s) && Enabled(s, e)
    ensures Inv(Step(s, b, e))
  {
    match e
    case Use(key, id, op) => InMemoryInv(s, b, key, id, op, Step(s, b, e));
    case Admit(key, id, now, input, output, o) => AdmitInv(s, b, key, id, now, input, output, o);
    case Save(o) => WrittenInv(s, o);
    case Restart => RestartInv(s, b);
  }

  lemma {:induction false} ReachableInv(b: Budgets, es: seq<Event>)
    requires Legal(b, es)
    ensures Inv(Run(b, es))
  {
    if es != [] {
      ReachableInv(b, es[..|es| - 1]);
      StepInv(Run(b, es[..|es| - 1]), b, es[|es| - 1]);
    }
  }

  // -------------------------------------------------------------- main results

  /** Main result: whatever was saved, lost or half saved, and however often the process was
      replaced, a new process carries the debt of every acknowledged lease whose window is open
      and whose cancellation nobody asked for: its full reservation, unless a settlement of that
      very lease was asked for, and then at no amount but one so reported. */
  lemma NothingAcknowledgedIsLost(b: Budgets, es: seq<Event>, i: nat)
    requires Legal(b, es) && i < |Run(b, es).acked| && Standing(Run(b, es), Run(b, es).acked[i])
    ensures var s, lease := Run(b, es), Run(b, es).acked[i];
            var p := Run(b, es + [Restart]).mem;
            && lease.key in p.lanes && p.lanes[lease.key].id == lease.ledgerId
            && Holds(p.lanes[lease.key].entries, lease, s.settlements)
  {
    assert (es + [Restart])[..|es|] == es;
    ReachableInv(b, es);
    var s := Run(b, es);
    assert Carries(OnDisk(s.disk).value, s.acked[i], Standing(s, s.acked[i]), s.settlements);
  }

  /** A lease that nobody settled is carried unsettled and in full. */
  lemma NeverSettledInFull(es: seq<Entry>, lease: Lease, asked: set<Settlement>)
    requires Holds(es, lease, asked)
    requires forall t :: t in asked ==> (t.ledgerId, t.seqNo) != (lease.ledgerId, lease.seqNo)
    ensures Entry(lease.seqNo, lease.at, lease.inputTokens + lease.outputBound, false) in es
  {
    var e :| e in es && DebtOf(e, lease, asked);
    assert !e.settled;
  }

  /** Main result: every reachable pool is accepted by the loader and restored as it was. */
  lemma SavedPoolsAreRestored(b: Budgets, es: seq<Event>, o: Outcome)
    requires Legal(b, es) && !o.FailedBefore?
    ensures Run(b, es + [Save(o), Restart]).mem == Run(b, es).mem
  {
    var fs := es + [Save(o)];
    assert (es + [Save(o), Restart])[..|es| + 1] == fs && fs[..|es|] == es;
    ReachableInv(b, es);
    SaveThenRestart(Run(b, es), b, o);
  }

  lemma SaveThenRestart(s: Node, b: Budgets, o: Outcome)
    requires PoolOk(s.mem) && !o.FailedBefore?
    ensures Step(Step(s, b, Save(o)), b, Restart).mem == s.mem
  {
    RoundTrip(s.mem);
  }

  lemma DifferentNumbers(s: Node, i: nat, j: nat)
    requires Inv(s) && i < |s.acked| && j < |s.acked| && i != j
    ensures (s.acked[i].ledgerId, s.acked[i].seqNo) != (s.acked[j].ledgerId, s.acked[j].seqNo)
    ensures s.acked[j].key in s.mem.lanes && Ours(s.mem.lanes[s.acked[j].key], s.acked[j])
  {
    assert Carries(s.mem, s.acked[j], Standing(s, s.acked[j]), s.settlements);
  }

  /** Main result: no two acknowledged leases share a ledger and a number, in any history with
      crashes; so settling or cancelling one of them, at any time and amount, leaves the entry of
      every other exactly as it was.  Expiry alone can remove it. */
  lemma StaleLeasesAreHarmless(b: Budgets, es: seq<Event>, i: nat, j: nat, now: real, spent: int, e: Entry)
    requires Legal(b, es) && i < |Run(b, es).acked| && j < |Run(b, es).acked| && i != j
    requires e.seqNo == Run(b, es).acked[j].seqNo
    ensures var s := Run(b, es);
            var stale, newer := s.acked[i], s.acked[j];
            && (stale.ledgerId, stale.seqNo) != (newer.ledgerId, newer.seqNo)
            && newer.key in s.mem.lanes
            && var l := s.mem.lanes[newer.key];
            var settled, cancelled := Settle(l, stale, now, spent).1.entries, CancelUnsent(l, stale, now).1.entries;
            && (e in Prune(l.entries, now) ==> e in settled && e in cancelled)
            && (e in settled || e in cancelled ==> e in l.entries)
  {
    ReachableInv(b, es);
    var s := Run(b, es);
    DifferentNumbers(s, i, j);
    var stale, newer := s.acked[i], s.acked[j];
    var l := s.mem.lanes[newer.key];
    if Ours(l, stale) {
      OthersUntouched(l, stale, now, spent, e);
    } else {
      PruneExact(l.entries, now);
    }
  }
}
