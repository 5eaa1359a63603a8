/**
 Rolling-window safety over whole histories.  The ledger forgets entries as they expire; the
 history below remembers every admitted lease, and the bounds are proved about it.
 */
module LedgerHistory {
  import opened Common
  import opened Ledger

  /** One admitted lease: its entry as it stands, what it reserved, whether it was cancelled. */
  datatype Rec = Rec(entry: Entry, reserved: int, cancelled: bool)

  /** A ledger with its full history; `clock` is the latest time it pruned at. */
  datatype Audit = Audit(lane: Lane, history: seq<Rec>, clock: real)

  datatype Event =
    | DebitAt(now: real, input: int, output: int)
    | SettleAt(now: real, lease: Lease, spent: int)
    | CancelAt(now: real, lease: Lease)
    | RetainAt(now: real, lease: Lease)
    | SnapshotAt(now: real)

  /** The operation reached its prune. */
  predicate Pruned(l: Lane, e: Event) {
    e.now >= 0.0 && match e
      case DebitAt(_, input, output) => input > 0 && output > 0
      case SettleAt(_, lease, spent) => spent >= 0 && Ours(l, lease)
      case CancelAt(_, lease) => Ours(l, lease)
      case RetainAt(_, lease) => Ours(l, lease)
      case SnapshotAt(_) => true
  }

  function Record(a: Audit, b: Budgets, e: Event): seq<Rec> {
    match e
    case DebitAt(now, input, output) =>
      var (r, l') := Debit(a.lane, b, now, input, output);
      if r.Ok? && r.value.Some?
      then a.history + [Rec(Entry(r.value.value.seqNo, now, input + output, false), input + output, false)]
      else a.history
    case SettleAt(now, lease, spent) =>
      if Settles(a.lane, lease, now, spent) && lease.seqNo <= |a.history| then
        var k := lease.seqNo - 1;
        a.history[k := a.history[k].(entry := a.history[k].entry.(tokens := spent, settled := true))]
      else a.history
    case CancelAt(now, lease) =>
      if Cancels(a.lane, lease, now) && lease.seqNo <= |a.history| then
        var k := lease.seqNo - 1;
        a.history[k := a.history[k].(cancelled := true)]
      else a.history
    case _ => a.history
  }

  /** The operation changes the entry of this lease. */
  predicate Settles(l: Lane, lease: Lease, now: real, spent: int) {
    var (found, l') := EntryFor(l, lease, now);
    spent >= 0 && found.Ok? && found.value.Some? && !l'.entries[found.value.value].settled
  }

  predicate Cancels(l: Lane, lease: Lease, now: real) {
    var (found, l') := EntryFor(l, lease, now);
    found.Ok? && found.value.Some? && !l'.entries[found.value.value].settled
  }

  function LaneAfter(l: Lane, b: Budgets, e: Event): Lane {
    match e
    case DebitAt(now, input, output) => Debit(l, b, now, input, output).1
    case SettleAt(now, lease, spent) => Settle(l, lease, now, spent).1
    case CancelAt(now, lease) => CancelUnsent(l, lease, now).1
    case RetainAt(now, lease) => Retain(l, lease, now).1
    case SnapshotAt(now) => if now < 0.0 then l else l.(entries := Prune(l.entries, now))
  }

  function Step(a: Audit, b: Budgets, e: Event): Audit {
    Audit(LaneAfter(a.lane, b, e), Record(a, b, e), if Pruned(a.lane, e) then e.now else a.clock)
  }

  ghost function Run(a: Audit, b: Budgets, es: seq<Event>): Audit {
    if es == [] then a else Step(Run(a, b, es[..|es| - 1]), b, es[|es| - 1])
  }

  ghost predicate Monotone(es: seq<Event>) {
    forall i, j :: 0 <= i <= j < |es| ==> es[i].now <= es[j].now
  }

  // -------------------------------------------------- the ledger mirrors history

  predicate Alive(r: Rec, t: real) {
    !r.cancelled && t - r.entry.at < WINDOW_S
  }

  /** The entries a ledger that pruned at `t` still holds. */
  function Live(h: seq<Rec>, t: real): seq<Entry> {
    if h == [] then []
    else (if Alive(h[0], t) then [h[0].entry] else []) + Live(h[1..], t)
  }

  lemma {:induction false} LiveLater(h: seq<Rec>, t: real, now: real)
    requires t <= now
    ensures Prune(Live(h, t), now) == Live(h, now)
  {
    if h != [] {
      LiveLater(h[1..], t, now);
      if Alive(h[0], t) {
        assert Live(h, t)[1..] == Live(h[1..], t);
      } else {
        assert Live(h, t) == Live(h[1..], t);
      }
    }
  }

  lemma {:induction false} LiveAppend(h: seq<Rec>, r: Rec, t: real)
    ensures Live(h + [r], t) == Live(h, t) + (if Alive(r, t) then [r.entry] else [])
  {
    if h == [] {
      assert h + [r] == [r] && [r][1..] == [];
    } else {
      assert (h + [r])[1..] == h[1..] + [r];
      LiveAppend(h[1..], r, t);
    }
  }

  lemma {:induction false} LiveSplit(h: seq<Rec>, k: nat, t: real)
    requires k < |h|
    ensures Live(h, t) == Live(h[..k], t) + (if Alive(h[k], t) then [h[k].entry] else []) + Live(h[k + 1..], t)
  {
    if k == 0 {
      assert h[..0] == [];
    } else {
      LiveSplit(h[1..], k - 1, t);
      assert h[..k][1..] == h[1..][..k - 1];
      assert h[1..][k..] == h[k + 1..];
    }
  }

  ghost predicate HistoryOk(h: seq<Rec>, clock: real) {
    && (forall k :: 0 <= k < |h| ==>
          && h[k].entry.seqNo == k + 1 && 0.0 <= h[k].entry.at <= clock
          && h[k].reserved > 0 && h[k].entry.tokens >= 0
          && (!h[k].entry.settled ==> h[k].entry.tokens == h[k].reserved))
    && (forall j, k :: 0 <= j <= k < |h| ==> h[j].entry.at <= h[k].entry.at)
  }

  /** Outstanding entries of a stretch of history carry its sequence numbers. */
  lemma {:induction false} LiveRange(h: seq<Rec>, t: real, first: int)
    requires forall k :: 0 <= k < |h| ==> h[k].entry.seqNo == first + k
    ensures forall i :: 0 <= i < |Live(h, t)| ==> first <= Live(h, t)[i].seqNo < first + |h|
  {
    if h != [] {
      LiveRange(h[1..], t, first + 1);
    }
  }

  /** An entry found in the ledger sits exactly where its record says. */
  lemma FoundAt(h: seq<Rec>, clock: real, t: real, k: nat, i: nat)
    requires HistoryOk(h, clock) && k < |h| && i < |Live(h, t)| && Live(h, t)[i].seqNo == k + 1
    ensures Alive(h[k], t) && i == |Live(h[..k], t)| && Live(h, t)[i] == h[k].entry
  {
    LiveSplit(h, k, t);
    LiveRange(h[..k], t, 1);
    LiveRange(h[k + 1..], t, k + 2);
    var before, after := Live(h[..k], t), Live(h[k + 1..], t);
    var n := |before| + (if Alive(h[k], t) then 1 else 0);
    assert forall j :: 0 <= j < |before| ==> Live(h, t)[j] == before[j];
    assert forall j :: n <= j < |Live(h, t)| ==> Live(h, t)[j] == after[j - n];
  }

  /** Replacing a live record replaces its entry, or removes it when the record was cancelled. */
  lemma LiveReplace(h: seq<Rec>, k: nat, r: Rec, t: real)
    requires k < |h| && Alive(h[k], t) && r.entry.at == h[k].entry.at
    ensures var i := |Live(h[..k], t)|;
            var es, es' := Live(h, t), Live(h[k := r], t);
            && i < |es|
            && es' == if r.cancelled then es[..i] + es[i + 1..] else es[i := r.entry]
  {
    LiveSplit(h, k, t);
    LiveSplit(h[k := r], k, t);
    assert h[k := r][..k] == h[..k] && h[k := r][k + 1..] == h[k + 1..];
  }

  // ------------------------------------------------------------ window accounting

  /** Non-cancelled leases debited after `from`. */
  function Requests(h: seq<Rec>, from: real): nat {
    if h == [] then 0
    else (if !h[0].cancelled && h[0].entry.at > from then 1 else 0) + Requests(h[1..], from)
  }

  /** Their charges, overspend excluded. */
  function Charges(h: seq<Rec>, from: real): int {
    if h == [] then 0
    else (if !h[0].cancelled && h[0].entry.at > from then MinI(h[0].entry.tokens, h[0].reserved) else 0) + Charges(h[1..], from)
  }

  lemma {:induction false} LiveTotals(h: seq<Rec>, t: real)
    ensures |Live(h, t)| == Requests(h, t - WINDOW_S)
    ensures SumTokens(Live(h, t)) >= Charges(h, t - WINDOW_S)
  {
    if h != [] {
      LiveTotals(h[1..], t);
      if Alive(h[0], t) {
        assert Live(h, t)[1..] == Live(h[1..], t);
      } else {
        assert Live(h, t) == Live(h[1..], t);
      }
    }
  }

  lemma {:induction false} TotalsAppend(h: seq<Rec>, r: Rec, from: real)
    ensures Requests(h + [r], from) == Requests(h, from) + Requests([r], from)
    ensures Charges(h + [r], from) == Charges(h, from) + Charges([r], from)
  {
    if h == [] {
      assert h + [r] == [r];
    } else {
      assert (h + [r])[1..] == h[1..] + [r];
      TotalsAppend(h[1..], r, from);
    }
  }

  /** Settling or cancelling a record never raises what its window was charged. */
  ghost predicate Eased(h: seq<Rec>, h': seq<Rec>) {
    && |h'| == |h|
    && forall k :: 0 <= k < |h| ==>
         && h'[k].entry.at == h[k].entry.at && h'[k].reserved == h[k].reserved
         && (h[k].cancelled ==> h'[k].cancelled)
         && h'[k].entry.tokens >= 0
         && MinI(h'[k].entry.tokens, h'[k].reserved) <= MinI(h[k].entry.tokens, h[k].reserved)
  }

  lemma {:induction false} EasedTotals(h: seq<Rec>, h': seq<Rec>, from: real)
    requires Eased(h, h') && forall k :: 0 <= k < |h| ==> MinI(h[k].entry.tokens, h[k].reserved) >= 0
    ensures Requests(h', from) <= Requests(h, from) && Charges(h', from) <= Charges(h, from)
  {
    if h != [] {
      EasedTotals(h[1..], h'[1..], from);
    }
  }

  /** The window ending at each admission is within budget. */
  ghost predicate WindowsOk(h: seq<Rec>, b: Budgets) {
    forall k :: 0 <= k < |h| ==> WindowOk(h, b, k)
  }

  ghost predicate WindowOk(h: seq<Rec>, b: Budgets, k: nat)
    requires k < |h|
  {
    Requests(h[..k + 1], h[k].entry.at - WINDOW_S) <= b.maxRequests
    && Charges(h[..k + 1], h[k].entry.at - WINDOW_S) <= b.maxTokens
  }

  ghost predicate AuditOk(a: Audit, b: Budgets) {
    && a.lane.nextSeq == |a.history| + 1
    && HistoryOk(a.history, a.clock)
    && a.lane.entries == Live(a.history, a.clock)
    && WindowsOk(a.history, b)
  }

  lemma EasedWindows(h: seq<Rec>, h': seq<Rec>, b: Budgets)
    requires Eased(h, h') && WindowsOk(h, b) && forall k :: 0 <= k < |h| ==> h[k].entry.tokens >= 0 && h[k].reserved > 0
    ensures WindowsOk(h', b)
  {
    forall k | 0 <= k < |h'| ensures WindowOk(h', b, k) {
      assert WindowOk(h, b, k);
      EasedTotals(h[..k + 1], h'[..k + 1], h[k].entry.at - WINDOW_S);
    }
  }

  lemma AppendWindows(h: seq<Rec>, r: Rec, b: Budgets)
    requires WindowsOk(h, b)
    requires Requests(h + [r], r.entry.at - WINDOW_S) <= b.maxRequests
    requires Charges(h + [r], r.entry.at - WINDOW_S) <= b.maxTokens
    ensures WindowsOk(h + [r], b)
  {
    var h' := h + [r];
    forall k | 0 <= k < |h'| ensures WindowOk(h', b, k) {
      if k < |h| {
        assert WindowOk(h, b, k);
        assert h'[..k + 1] == h[..k + 1];
      } else {
        assert h'[..k + 1] == h';
      }
    }
  }

  lemma HistoryLater(h: seq<Rec>, clock: real, now: real)
    requires HistoryOk(h, clock) && now >= clock
    ensures HistoryOk(h, now)
  {}

  lemma HistoryAppend(h: seq<Rec>, clock: real, now: real, reserved: int)
    requires HistoryOk(h, clock) && now >= clock && now >= 0.0 && reserved > 0
    ensures HistoryOk(h + [Rec(Entry(|h| + 1, now, reserved, false), reserved, false)], now)
  {}

  /** An admission that passed the ledger's checks is within its window's budget. */
  lemma AdmitWindows(h: seq<Rec>, b: Budgets, now: real, reserved: int, seqNo: int)
    requires WindowsOk(h, b) && reserved > 0
    requires |Live(h, now)| < b.maxRequests && SumTokens(Live(h, now)) + reserved <= b.maxTokens
    ensures WindowsOk(h + [Rec(Entry(seqNo, now, reserved, false), reserved, false)], b)
  {
    var r := Rec(Entry(seqNo, now, reserved, false), reserved, false);
    LiveTotals(h, now);
    TotalsAppend(h, r, now - WINDOW_S);
    assert [r][1..] == [];
    AppendWindows(h, r, b);
  }

  /** The audit once a debit has pruned: refused, or with its record and entry appended. */
  lemma DebitAudit(a: Audit, b: Budgets, now: real, reserved: int, admitted: bool, a': Audit)
    requires AuditOk(a, b) && now >= a.clock && reserved > 0 && now >= 0.0
    requires var es := Prune(a.lane.entries, now);
             var e := Entry(a.lane.nextSeq, now, reserved, false);
             && (admitted ==> |es| < b.maxRequests && SumTokens(es) + reserved <= b.maxTokens)
             && a'.clock == now
             && a'.lane.entries == (if admitted then es + [e] else es)
             && a'.lane.nextSeq == (if admitted then a.lane.nextSeq + 1 else a.lane.nextSeq)
             && a'.history == (if admitted then a.history + [Rec(e, reserved, false)] else a.history)
    ensures AuditOk(a', b)
  {
    var h := a.history;
    LiveLater(h, a.clock, now);
    HistoryLater(h, a.clock, now);
    if admitted {
      HistoryAppend(h, a.clock, now, reserved);
      AdmitWindows(h, b, now, reserved, |h| + 1);
      LiveAppend(h, Rec(Entry(|h| + 1, now, reserved, false), reserved, false), now);
    }
  }

  lemma DebitStep(a: Audit, b: Budgets, now: real, input: int, output: int)
    requires AuditOk(a, b) && now >= a.clock && input > 0 && output > 0 && now >= 0.0
    ensures AuditOk(Step(a, b, DebitAt(now, input, output)), b)
  {
    var es := Prune(a.lane.entries, now);
    var admitted := |es| < b.maxRequests && SumTokens(es) + input + output <= b.maxTokens;
    DebitAudit(a, b, now, input + output, admitted, Step(a, b, DebitAt(now, input, output)));
  }

  lemma EasedHistory(h: seq<Rec>, clock: real, b: Budgets, k: nat, r: Rec)
    requires HistoryOk(h, clock) && WindowsOk(h, b) && k < |h| && !h[k].entry.settled
    requires r.entry.seqNo == h[k].entry.seqNo && r.entry.at == h[k].entry.at && r.reserved == h[k].reserved
    requires (h[k].cancelled ==> r.cancelled) && r.entry.tokens >= 0
    requires !r.entry.settled ==> r.entry.tokens == h[k].entry.tokens
    ensures HistoryOk(h[k := r], clock) && WindowsOk(h[k := r], b)
  {
    assert Eased(h, h[k := r]);
    EasedWindows(h, h[k := r], b);
  }

  /** A found, unsettled entry is a live record. */
  lemma FoundRecord(a: Audit, b: Budgets, now: real, lease: Lease)
    requires AuditOk(a, b) && now >= a.clock
    requires var (found, l') := EntryFor(a.lane, lease, now); found.Ok? && found.value.Some?
    ensures 0 < lease.seqNo <= |a.history|
    ensures var (found, l') := EntryFor(a.lane, lease, now);
            var k := lease.seqNo - 1;
            && l' == a.lane.(entries := Live(a.history, now))
            && Alive(a.history[k], now) && found.value.value == |Live(a.history[..k], now)| < |l'.entries|
            && l'.entries[found.value.value] == a.history[k].entry
  {
    LiveLater(a.history, a.clock, now);
    HistoryLater(a.history, a.clock, now);
    var (found, l') := EntryFor(a.lane, lease, now);
    FoundAt(a.history, now, now, lease.seqNo - 1, found.value.value);
  }

  /** An operation that only prunes. */
  lemma PruneStep(a: Audit, b: Budgets, now: real)
    requires AuditOk(a, b) && now >= a.clock
    ensures AuditOk(Audit(a.lane.(entries := Prune(a.lane.entries, now)), a.history, now), b)
  {
    LiveLater(a.history, a.clock, now);
    HistoryLater(a.history, a.clock, now);
  }

  /** An operation that replaces the record of a found, unsettled lease. */
  lemma ReplaceStep(a: Audit, b: Budgets, now: real, lease: Lease, r: Rec)
    requires AuditOk(a, b) && now >= a.clock && 0 < lease.seqNo <= |a.history|
    requires var (found, l') := EntryFor(a.lane, lease, now);
             found.Ok? && found.value.Some? && !l'.entries[found.value.value].settled
    requires var was := a.history[lease.seqNo - 1];
             && r.entry.seqNo == was.entry.seqNo && r.entry.at == was.entry.at && r.reserved == was.reserved
             && (was.cancelled ==> r.cancelled) && r.entry.tokens >= 0
             && (!r.entry.settled ==> r.entry.tokens == was.entry.tokens)
    ensures var (found, l') := EntryFor(a.lane, lease, now);
            var i := found.value.value;
            var es := if r.cancelled then l'.entries[..i] + l'.entries[i + 1..] else l'.entries[i := r.entry];
            AuditOk(Audit(l'.(entries := es), a.history[lease.seqNo - 1 := r], now), b)
  {
    var k := lease.seqNo - 1;
    FoundRecord(a, b, now, lease);
    HistoryLater(a.history, a.clock, now);
    EasedHistory(a.history, now, b, k, r);
    LiveReplace(a.history, k, r, now);
  }

  lemma SettleStep(a: Audit, b: Budgets, now: real, lease: Lease, spent: int)
    requires AuditOk(a, b) && now >= a.clock && now >= 0.0 && spent >= 0 && Ours(a.lane, lease)
    ensures AuditOk(Step(a, b, SettleAt(now, lease, spent)), b)
  {
    if Settles(a.lane, lease, now, spent) {
      FoundRecord(a, b, now, lease);
      var was := a.history[lease.seqNo - 1];
      ReplaceStep(a, b, now, lease, was.(entry := was.entry.(tokens := spent, settled := true)));
    } else {
      PruneStep(a, b, now);
    }
  }

  lemma CancelStep(a: Audit, b: Budgets, now: real, lease: Lease)
    requires AuditOk(a, b) && now >= a.clock && now >= 0.0 && Ours(a.lane, lease)
    ensures AuditOk(Step(a, b, CancelAt(now, lease)), b)
  {
    if Cancels(a.lane, lease, now) {
      FoundRecord(a, b, now, lease);
      ReplaceStep(a, b, now, lease, a.history[lease.seqNo - 1].(cancelled := true));
    } else {
      PruneStep(a, b, now);
    }
  }

  lemma StepAudit(a: Audit, b: Budgets, e: Event)
    requires AuditOk(a, b) && e.now >= a.clock
    ensures AuditOk(Step(a, b, e), b)
  {
    if Pruned(a.lane, e) {
      LiveLater(a.history, a.clock, e.now);
      match e
      case DebitAt(now, input, output) => DebitStep(a, b, now, input, output);
      case SettleAt(now, lease, spent) => SettleStep(a, b, now, lease, spent);
      case CancelAt(now, lease) => CancelStep(a, b, now, lease);
      case _ =>
    }
  }

  ghost function NewAudit(key: Key, id: string): Audit {
    Audit(Lane(key, id, [], 1), [], 0.0)
  }

  /** A ledger keeps its name through every operation. */
  lemma SameLedger(a: Audit, b: Budgets, e: Event)
    ensures Step(a, b, e).lane.key == a.lane.key && Step(a, b, e).lane.id == a.lane.id
  {}

  lemma {:induction false} RunAudit(key: Key, id: string, b: Budgets, es: seq<Event>)
    requires Monotone(es) && forall i :: 0 <= i < |es| ==> es[i].now >= 0.0
    ensures var a := Run(NewAudit(key, id), b, es);
            && AuditOk(a, b) && a.lane.key == key && a.lane.id == id
            && (es == [] ==> a.clock == 0.0) && (es != [] ==> a.clock <= es[|es| - 1].now)
  {
    if es != [] {
      var init := es[..|es| - 1];
      RunAudit(key, id, b, init);
      StepAudit(Run(NewAudit(key, id), b, init), b, es[|es| - 1]);
      SameLedger(Run(NewAudit(key, id), b, init), b, es[|es| - 1]);
    }
  }

  // ---------------------------------------------------------------- main result

  predicate InWindow(r: Rec, x: real) {
    !r.cancelled && x <= r.entry.at < x + WINDOW_S
  }

  function WindowRequests(h: seq<Rec>, x: real): nat {
    if h == [] then 0 else (if InWindow(h[0], x) then 1 else 0) + WindowRequests(h[1..], x)
  }

  function WindowCharge(h: seq<Rec>, x: real): int {
    if h == [] then 0 else (if InWindow(h[0], x) then h[0].entry.tokens else 0) + WindowCharge(h[1..], x)
  }

  /** What the leases of the window spent, once settled, beyond their reservation. */
  function WindowOverspend(h: seq<Rec>, x: real): nat {
    if h == [] then 0
    else (if InWindow(h[0], x) then MaxI(0, h[0].entry.tokens - h[0].reserved) else 0) + WindowOverspend(h[1..], x)
  }

  lemma {:induction false} WindowInside(h: seq<Rec>, x: real, from: real)
    requires forall k :: 0 <= k < |h| && InWindow(h[k], x) ==> h[k].entry.at > from
    requires forall k :: 0 <= k < |h| ==> h[k].entry.tokens >= 0 && h[k].reserved > 0
    ensures WindowRequests(h, x) <= Requests(h, from)
    ensures WindowCharge(h, x) <= Charges(h, from) + WindowOverspend(h, x)
  {
    if h != [] {
      WindowInside(h[1..], x, from);
    }
  }

  lemma {:induction false} WindowAppend(h: seq<Rec>, r: Rec, x: real)
    ensures WindowRequests(h + [r], x) == WindowRequests(h, x) + (if InWindow(r, x) then 1 else 0)
    ensures WindowCharge(h + [r], x) == WindowCharge(h, x) + (if InWindow(r, x) then r.entry.tokens else 0)
    ensures WindowOverspend(h + [r], x)
         == WindowOverspend(h, x) + (if InWindow(r, x) then MaxI(0, r.entry.tokens - r.reserved) else 0)
  {
    if h == [] {
      assert h + [r] == [r] && [r][1..] == [];
    } else {
      assert (h + [r])[1..] == h[1..] + [r];
      WindowAppend(h[1..], r, x);
    }
  }

  lemma {:induction false} WindowBound(h: seq<Rec>, clock: real, b: Budgets, x: real)
    requires HistoryOk(h, clock) && WindowsOk(h, b) && b.maxTokens >= 0 && b.maxRequests >= 0
    ensures WindowRequests(h, x) <= b.maxRequests
    ensures WindowCharge(h, x) <= b.maxTokens + WindowOverspend(h, x)
  {
    if h != [] {
      var k := |h| - 1;
      if InWindow(h[k], x) {
        assert WindowOk(h, b, k) && h[..k + 1] == h;
        WindowInside(h, x, h[k].entry.at - WINDOW_S);
      } else {
        assert h == h[..k] + [h[k]];
        WindowAppend(h[..k], h[k], x);
        forall j | 0 <= j < k ensures WindowOk(h[..k], b, j) {
          assert WindowOk(h, b, j) && h[..k][..j + 1] == h[..j + 1];
        }
        WindowBound(h[..k], clock, b, x);
      }
    }
  }

  /** Main result: over every run with a non-decreasing clock, in every half-open 60-second
      window the non-cancelled leases ever admitted number at most `maxRequests`, and their
      current charges sum to at most `maxTokens` plus what leases of that same window
      were settled at beyond their reservation. */
  lemma RollingWindowSafety(key: Key, id: string, b: Budgets, es: seq<Event>, x: real)
    requires b.maxRequests > 0 && b.maxTokens > 0
    requires Monotone(es) && forall i :: 0 <= i < |es| ==> es[i].now >= 0.0
    ensures var h := Run(NewAudit(key, id), b, es).history;
            && WindowRequests(h, x) <= b.maxRequests
            && WindowCharge(h, x) <= b.maxTokens + WindowOverspend(h, x)
  {
    RunAudit(key, id, b, es);
    var a := Run(NewAudit(key, id), b, es);
    WindowBound(a.history, a.clock, b, x);
  }

  // ------------------------------------------------- what each operation answers

  ghost predicate IsRecent(h: seq<Rec>, now: real, k: nat)
    requires k < |h|
  {
    !h[k].cancelled && now - h[k].entry.at < 60.0
  }

  ghost function Recent(h: seq<Rec>, now: real): set<nat> {
    set k | 0 <= k < |h| && IsRecent(h, now, k)
  }

  /** How many non-cancelled leases are younger than a minute at `now`, and what they are charged now. */
  ghost function RecentRequests(h: seq<Rec>, now: real): nat {
    |Recent(h, now)|
  }

  ghost function RecentTokens(h: seq<Rec>, now: real): int {
    if h == [] then 0
    else RecentTokens(h[..|h| - 1], now)
         + (if IsRecent(h, now, |h| - 1) then h[|h| - 1].entry.tokens else 0)
  }

  lemma RecentSnoc(h: seq<Rec>, now: real)
    requires h != []
    ensures RecentRequests(h, now) == RecentRequests(h[..|h| - 1], now) + (if IsRecent(h, now, |h| - 1) then 1 else 0)
  {
    var init, n := h[..|h| - 1], |h| - 1;
    forall k | 0 <= k < n ensures IsRecent(h, now, k) <==> IsRecent(init, now, k) {}
    assert Recent(h, now) == Recent(init, now) + (if IsRecent(h, now, n) then {n} else {});
  }

  lemma {:induction false} LiveCount(h: seq<Rec>, now: real)
    ensures |Live(h, now)| == RecentRequests(h, now)
  {
    if h != [] {
      var init, r := h[..|h| - 1], h[|h| - 1];
      LiveCount(init, now);
      assert h == init + [r];
      LiveAppend(init, r, now);
      RecentSnoc(h, now);
    }
  }

  lemma {:induction false} LiveTokens(h: seq<Rec>, now: real)
    ensures SumTokens(Live(h, now)) == RecentTokens(h, now)
  {
    if h != [] {
      var init, r := h[..|h| - 1], h[|h| - 1];
      LiveTokens(init, now);
      assert h == init + [r];
      LiveAppend(init, r, now);
      if Alive(r, now) {
        SumAppend(Live(init, now), r.entry);
      } else {
        assert Live(h, now) == Live(init, now);
      }
    }
  }

  lemma LiveIsRecent(a: Audit, now: real, entries: seq<Entry>)
    requires a.lane.entries == Live(a.history, a.clock) && a.clock <= now && entries == Prune(a.lane.entries, now)
    ensures |entries| == RecentRequests(a.history, now) && SumTokens(entries) == RecentTokens(a.history, now)
  {
    LiveLater(a.history, a.clock, now);
    LiveCount(a.history, now);
    LiveTokens(a.history, now);
  }

  /** The answer of a debit that has pruned, and what it records. */
  lemma DebitAnswer(a: Audit, b: Budgets, now: real, input: int, output: int, entries: seq<Entry>)
    requires now >= 0.0 && input > 0 && output > 0 && entries == Prune(a.lane.entries, now)
    ensures var (answer, h') := (Debit(a.lane, b, now, input, output).0, Step(a, b, DebitAt(now, input, output)).history);
            if |entries| < b.maxRequests && SumTokens(entries) + input + output <= b.maxTokens
            then answer == Ok(Some(Lease(a.lane.key, a.lane.nextSeq, input, output, now, a.lane.id)))
                 && h' == a.history + [Rec(Entry(a.lane.nextSeq, now, input + output, false), input + output, false)]
            else answer == Ok(None) && h' == a.history
  {}

  lemma {:induction false} LiveNumbered(h: seq<Rec>, t: real, first: int)
    requires first > 0 && forall k :: 0 <= k < |h| ==> h[k].entry.seqNo == first + k
    ensures Numbered(Live(h, t), first + |h|)
  {
    if h != [] {
      LiveNumbered(h[1..], t, first + 1);
      LiveRange(h[1..], t, first + 1);
    }
  }

  /** The entry of an issued lease is outstanding exactly while its record is alive. */
  lemma OutstandingIff(h: seq<Rec>, clock: real, now: real, k: nat)
    requires HistoryOk(h, clock) && k < |h| && now - h[k].entry.at < WINDOW_S
    ensures var i := Find(Live(h, now), k + 1, h[k].entry.at);
            && (i < |Live(h, now)| <==> !h[k].cancelled)
            && (i < |Live(h, now)| ==> Live(h, now)[i] == h[k].entry)
  {
    var es := Live(h, now);
    LiveNumbered(h, now, 1);
    LiveSplit(h, k, now);
    if h[k].cancelled {
      var i := Find(es, k + 1, h[k].entry.at);
      if i < |es| {
        FoundAt(h, clock, now, k, i);
      }
    } else {
      FindExact(es, |h| + 1, |Live(h[..k], now)|);
    }
  }

  /** The lease is the one this ledger issued as its `k`th. */
  ghost predicate IssuedAs(a: Audit, lease: Lease, k: nat) {
    && k < |a.history| && lease.seqNo == k + 1 && lease.at == a.history[k].entry.at
    && lease.key == a.lane.key && lease.ledgerId == a.lane.id
  }

  lemma EntryForAnswer(a: Audit, b: Budgets, now: real, lease: Lease, k: nat)
    requires AuditOk(a, b) && now >= a.clock && now >= 0.0 && IssuedAs(a, lease, k)
    ensures var (found, l') := EntryFor(a.lane, lease, now);
            var r := a.history[k];
            && (now - r.entry.at >= 60.0 ==> found == Ok(None))
            && (now - r.entry.at < 60.0 && r.cancelled ==> found == Err(NotOutstanding))
            && (now - r.entry.at < 60.0 && !r.cancelled ==>
                  found.Ok? && found.value.Some? && l'.entries[found.value.value] == r.entry)
  {
    LiveLater(a.history, a.clock, now);
    if now - a.history[k].entry.at < WINDOW_S {
      OutstandingIff(a.history, a.clock, now, k);
    }
  }

  /** The clock reading is no earlier than any the run has used. */
  ghost predicate NotBefore(es: seq<Event>, now: real) {
    now >= 0.0 && Monotone(es) && forall i :: 0 <= i < |es| ==> 0.0 <= es[i].now <= now
  }

  lemma RunTo(key: Key, id: string, b: Budgets, es: seq<Event>, a: Audit, now: real)
    requires NotBefore(es, now) && a == Run(NewAudit(key, id), b, es)
    ensures AuditOk(a, b) && a.lane.key == key && a.lane.id == id && a.clock <= now
  {
    RunAudit(key, id, b, es);
  }

  /** Main result: after every run, a debit is admitted if and only if the leases of the last minute
      that were not cancelled leave room for one more request and for its tokens, and the lease
      it returns is the next one of this ledger, for these amounts, at this time. */
  lemma AdmittedIff(key: Key, id: string, b: Budgets, es: seq<Event>, a: Audit, now: real, input: int, output: int)
    requires NotBefore(es, now) && a == Run(NewAudit(key, id), b, es) && input > 0 && output > 0
    ensures var (answer, h') := (Debit(a.lane, b, now, input, output).0, Step(a, b, DebitAt(now, input, output)).history);
            var n := |a.history| + 1;
            if RecentRequests(a.history, now) < b.maxRequests && RecentTokens(a.history, now) + input + output <= b.maxTokens
            then answer == Ok(Some(Lease(key, n, input, output, now, id)))
                 && h' == a.history + [Rec(Entry(n, now, input + output, false), input + output, false)]
            else answer == Ok(None) && h' == a.history
  {
    RunTo(key, id, b, es, a, now);
    var entries := Prune(a.lane.entries, now);
    LiveIsRecent(a, now, entries);
    DebitAnswer(a, b, now, input, output, entries);
  }

  /** Main result: after every run, settling the lease issued as number `k + 1` changes its charge to
      what was spent and refunds the rest of the reservation if the lease is less than a minute
      old, was not cancelled and not settled before; otherwise nothing is recorded. */
  lemma SettledIff(key: Key, id: string, b: Budgets, es: seq<Event>, a: Audit, now: real, lease: Lease, spent: nat, k: nat)
    requires NotBefore(es, now) && a == Run(NewAudit(key, id), b, es) && IssuedAs(a, lease, k)
    ensures var (answer, h') := (Settle(a.lane, lease, now, spent).0, Step(a, b, SettleAt(now, lease, spent)).history);
            var r := a.history[k];
            if now - r.entry.at >= 60.0 then answer == Ok(0) && h' == a.history
            else if r.cancelled then answer == Err(NotOutstanding) && h' == a.history
            else if r.entry.settled then answer == Ok(0) && h' == a.history
            else answer == Ok(MaxI(0, r.reserved - spent))
                 && h' == a.history[k := r.(entry := r.entry.(tokens := spent, settled := true))]
  {
    RunTo(key, id, b, es, a, now);
    EntryForAnswer(a, b, now, lease, k);
  }

  /** Main result: cancelling it gives the whole reservation back under the same condition, and refuses
      a lease that was cancelled or settled already. */
  lemma CancelledIff(key: Key, id: string, b: Budgets, es: seq<Event>, a: Audit, now: real, lease: Lease, k: nat)
    requires NotBefore(es, now) && a == Run(NewAudit(key, id), b, es) && IssuedAs(a, lease, k)
    ensures var (answer, h') := (CancelUnsent(a.lane, lease, now).0, Step(a, b, CancelAt(now, lease)).history);
            var r := a.history[k];
            if now - r.entry.at >= 60.0 then answer == Ok(0) && h' == a.history
            else if r.cancelled then answer == Err(NotOutstanding) && h' == a.history
            else if r.entry.settled then answer == Err(AlreadySettled) && h' == a.history
            else answer == Ok(r.reserved) && h' == a.history[k := r.(cancelled := true)]
  {
    RunTo(key, id, b, es, a, now);
    EntryForAnswer(a, b, now, lease, k);
  }

  /** Retaining it changes no charge, and is refused only for a lease that was cancelled within the minute. */
  lemma RetainedIff(key: Key, id: string, b: Budgets, es: seq<Event>, a: Audit, now: real, lease: Lease, k: nat)
    requires NotBefore(es, now) && a == Run(NewAudit(key, id), b, es) && IssuedAs(a, lease, k)
    ensures Retain(a.lane, lease, now).0
         == if now - a.history[k].entry.at < 60.0 && a.history[k].cancelled then Err(NotOutstanding) else Ok(())
    ensures Step(a, b, RetainAt(now, lease)).history == a.history
  {
    RunTo(key, id, b, es, a, now);
    EntryForAnswer(a, b, now, lease, k);
  }

  /** Main result: the counters a snapshot reports are those of the leases of the last minute. */
  lemma CountersAreRecent(key: Key, id: string, b: Budgets, es: seq<Event>, a: Audit, now: real)
    requires NotBefore(es, now) && a == Run(NewAudit(key, id), b, es)
    ensures var entries := Prune(a.lane.entries, now);
            |entries| == RecentRequests(a.history, now) && SumTokens(entries) == RecentTokens(a.history, now)
  {
    RunTo(key, id, b, es, a, now);
    LiveIsRecent(a, now, Prune(a.lane.entries, now));
  }

  /** A lease with another ledger's name, or a number this one has not issued, is refused by every
      operation and changes nothing. */
  lemma StrangersRefused(key: Key, id: string, b: Budgets, es: seq<Event>, a: Audit, now: real, lease: Lease, spent: nat)
    requires NotBefore(es, now) && a == Run(NewAudit(key, id), b, es)
    requires lease.key != key || lease.ledgerId != id || !(1 <= lease.seqNo <= |a.history|) || lease.at < 0.0
    ensures Settle(a.lane, lease, now, spent) == (Err(NotOurs), a.lane)
    ensures CancelUnsent(a.lane, lease, now) == (Err(NotOurs), a.lane)
    ensures Retain(a.lane, lease, now) == (Err(NotOurs), a.lane)
  {
    RunTo(key, id, b, es, a, now);
  }
}
