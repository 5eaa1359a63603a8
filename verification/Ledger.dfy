/**
 The reservation ledger of one lane: rolling 60-second windows of requests and tokens.
 Every operation first forgets the entries whose window has passed.
 */
module Ledger {
  import opened Common

  const WINDOW_S := 60.0

  type Key = (string, string, string)

  datatype Budgets = Budgets(maxRequests: int, maxTokens: int)

  datatype Lease = Lease(key: Key, seqNo: int, inputTokens: int, outputBound: int, at: real, ledgerId: string)

  datatype Entry = Entry(seqNo: int, at: real, tokens: int, settled: bool)

  /** A ledger as a value: what its object holds and what a snapshot stores. */
  datatype Lane = Lane(key: Key, id: string, entries: seq<Entry>, nextSeq: int)

  datatype Error =
    | BadClock | BadAmount | NotOurs | NotOutstanding | AlreadySettled
    | BadKey | NoStatePath | SaveFailed | MissingFile | CorruptState
  datatype Result<+T> = Ok(value: T) | Err(error: Error)

  function Prune(es: seq<Entry>, now: real): (r: seq<Entry>)
    ensures |r| <= |es|
  {
    if es == [] then []
    else (if now - es[0].at < WINDOW_S then [es[0]] else []) + Prune(es[1..], now)
  }

  function SumTokens(es: seq<Entry>): int {
    if es == [] then 0 else es[0].tokens + SumTokens(es[1..])
  }

  /** Index of the first entry of this sequence number and debit time, or the length. */
  function Find(es: seq<Entry>, seqNo: int, at: real): (i: nat)
    ensures i <= |es|
    ensures i < |es| ==> es[i].seqNo == seqNo && es[i].at == at
  {
    if es == [] then 0
    else if es[0].seqNo == seqNo && es[0].at == at then 0
    else 1 + Find(es[1..], seqNo, at)
  }

  function Debit(l: Lane, b: Budgets, now: real, input: int, output: int): (Result<Option<Lease>>, Lane) {
    if input <= 0 || output <= 0 then (Ok(None), l)
    else if now < 0.0 then (Err(BadClock), l)
    else
      var es := Prune(l.entries, now);
      if |es| >= b.maxRequests || SumTokens(es) + input + output > b.maxTokens then (Ok(None), l.(entries := es))
      else
        (Ok(Some(Lease(l.key, l.nextSeq, input, output, now, l.id))),
         l.(entries := es + [Entry(l.nextSeq, now, input + output, false)], nextSeq := l.nextSeq + 1))
  }

  /** A lease this ledger could have issued. */
  predicate Ours(l: Lane, lease: Lease) {
    lease.key == l.key && lease.ledgerId == l.id && 0 < lease.seqNo < l.nextSeq && lease.at >= 0.0
  }

  /** The outstanding entry of a lease; none once its window has passed. */
  function EntryFor(l: Lane, lease: Lease, now: real): (Result<Option<nat>>, Lane) {
    if !Ours(l, lease) then (Err(NotOurs), l)
    else if now < 0.0 then (Err(BadClock), l)
    else
      var l' := l.(entries := Prune(l.entries, now));
      if now - lease.at >= WINDOW_S then (Ok(None), l')
      else
        var i := Find(l'.entries, lease.seqNo, lease.at);
        if i < |l'.entries| then (Ok(Some(i)), l') else (Err(NotOutstanding), l')
  }

  function Settle(l: Lane, lease: Lease, now: real, spent: int): (Result<int>, Lane) {
    if spent < 0 then (Err(BadAmount), l)
    else
      var (found, l') := EntryFor(l, lease, now);
      if found.Err? then (Err(found.error), l')
      else if found.value.None? || l'.entries[found.value.value].settled then (Ok(0), l')
      else
        var i := found.value.value;
        var e := l'.entries[i];
        (Ok(MaxI(0, e.tokens - spent)), l'.(entries := l'.entries[i := e.(tokens := spent, settled := true)]))
  }

  function CancelUnsent(l: Lane, lease: Lease, now: real): (Result<int>, Lane) {
    var (found, l') := EntryFor(l, lease, now);
    if found.Err? then (Err(found.error), l')
    else if found.value.None? then (Ok(0), l')
    else
      var i := found.value.value;
      if l'.entries[i].settled then (Err(AlreadySettled), l')
      else (Ok(l'.entries[i].tokens), l'.(entries := l'.entries[..i] + l'.entries[i + 1..]))
  }

  function Retain(l: Lane, lease: Lease, now: real): (Result<()>, Lane) {
    var (found, l') := EntryFor(l, lease, now);
    (if found.Err? then Err(found.error) else Ok(()), l')
  }

  // ------------------------------------------------------------------ invariant

  /** Entries carry distinct sequence numbers below the high-water mark. */
  ghost predicate Numbered(es: seq<Entry>, nextSeq: int) {
    && (forall i :: 0 <= i < |es| ==> 0 < es[i].seqNo < nextSeq)
    && (forall i, j :: 0 <= i < j < |es| ==> es[i].seqNo != es[j].seqNo)
  }

  ghost predicate EntryOk(e: Entry) {
    e.at >= 0.0 && e.tokens >= 0 && (!e.settled ==> e.tokens > 0)
  }

  ghost predicate LaneOk(l: Lane) {
    && l.nextSeq > 0 && Numbered(l.entries, l.nextSeq)
    && forall i :: 0 <= i < |l.entries| ==> EntryOk(l.entries[i])
  }

  /** Pruning keeps exactly the entries whose window is still open, in order. */
  lemma {:induction false} PruneExact(es: seq<Entry>, now: real)
    ensures forall e :: e in Prune(es, now) <==> e in es && now - e.at < WINDOW_S
  {
    if es != [] {
      PruneExact(es[1..], now);
      var p := Prune(es, now);
      assert es == [es[0]] + es[1..];
    }
  }

  lemma {:induction false} PruneNumbered(es: seq<Entry>, nextSeq: int, now: real)
    requires Numbered(es, nextSeq)
    ensures Numbered(Prune(es, now), nextSeq)
  {
    if es != [] {
      PruneNumbered(es[1..], nextSeq, now);
      PruneExact(es[1..], now);
      var rest := Prune(es[1..], now);
      assert es == [es[0]] + es[1..];
      forall i | 0 <= i < |rest| ensures es[0].seqNo != rest[i].seqNo {
        assert rest[i] in es[1..];
      }
    }
  }

  lemma PruneOk(l: Lane, now: real)
    requires LaneOk(l)
    ensures LaneOk(l.(entries := Prune(l.entries, now)))
  {
    PruneNumbered(l.entries, l.nextSeq, now);
    PruneExact(l.entries, now);
    var p := Prune(l.entries, now);
    forall i | 0 <= i < |p| ensures EntryOk(p[i]) {
      assert p[i] in l.entries;
    }
  }

  lemma DebitOk(l: Lane, b: Budgets, now: real, input: int, output: int)
    requires LaneOk(l)
    ensures LaneOk(Debit(l, b, now, input, output).1)
  {
    PruneOk(l, now);
  }

  lemma EntryForOk(l: Lane, lease: Lease, now: real)
    requires LaneOk(l)
    ensures LaneOk(EntryFor(l, lease, now).1)
  {
    PruneOk(l, now);
  }

  lemma SettleOk(l: Lane, lease: Lease, now: real, spent: int)
    requires LaneOk(l)
    ensures LaneOk(Settle(l, lease, now, spent).1)
  {
    EntryForOk(l, lease, now);
  }

  lemma CancelOk(l: Lane, lease: Lease, now: real)
    requires LaneOk(l)
    ensures LaneOk(CancelUnsent(l, lease, now).1)
  {
    EntryForOk(l, lease, now);
  }

  /** Each sequence number occurs once, so `Find` finds it wherever it is. */
  lemma {:induction false} FindExact(es: seq<Entry>, nextSeq: int, i: nat)
    requires Numbered(es, nextSeq) && i < |es|
    ensures Find(es, es[i].seqNo, es[i].at) == i
  {
    if i > 0 {
      FindExact(es[1..], nextSeq, i - 1);
    }
  }

  /** A number that occurs once is gone when its entry is taken out, and stays gone. */
  lemma GoneFor(es: seq<Entry>, nextSeq: int, i: nat, later: real, e: Entry)
    requires Numbered(es, nextSeq) && i < |es| && e in Prune(es[..i] + es[i + 1..], later)
    ensures e.seqNo != es[i].seqNo
  {
    var rest := es[..i] + es[i + 1..];
    PruneExact(rest, later);
    var k :| 0 <= k < |rest| && rest[k] == e;
    assert rest[k] == es[if k < i then k else k + 1];
  }

  /** A live cancellation takes the lease's entry out. */
  lemma CancelledEntries(l: Lane, lease: Lease, now: real) returns (i: nat)
    requires Ours(l, lease) && 0.0 <= now && now - lease.at < WINDOW_S && CancelUnsent(l, lease, now).0.Ok?
    ensures var p, l' := Prune(l.entries, now), CancelUnsent(l, lease, now).1;
            && i < |p| && p[i].seqNo == lease.seqNo && Ours(l', lease)
            && l'.entries == p[..i] + p[i + 1..]
  {
    i := EntryFor(l, lease, now).0.value.value;
  }

  /** An expired lease is nothing to cancel; one without an entry is an error. */
  lemma CancelAbsent(l: Lane, lease: Lease, later: real)
    requires Ours(l, lease) && later >= 0.0
    requires later - lease.at < WINDOW_S ==> forall e :: e in Prune(l.entries, later) ==> e.seqNo != lease.seqNo
    ensures CancelUnsent(l, lease, later).0 == if later - lease.at >= WINDOW_S then Ok(0) else Err(NotOutstanding)
  {
    var p := Prune(l.entries, later);
    var i := Find(p, lease.seqNo, lease.at);
    assert i < |p| ==> p[i] in p;
  }

  lemma StillOurs(l: Lane, lease: Lease, now: real)
    requires Ours(l, lease)
    ensures Ours(CancelUnsent(l, lease, now).1, lease)
  {
  }

  /** A second cancellation of the same lease is an error while its window is open, never a
      second refund; afterwards both are no-ops. */
  lemma CancelTwice(l: Lane, lease: Lease, now: real, later: real)
    requires LaneOk(l) && Ours(l, lease) && 0.0 <= now <= later
    requires CancelUnsent(l, lease, now).0.Ok?
    ensures var l' := CancelUnsent(l, lease, now).1;
            CancelUnsent(l', lease, later).0 == if later - lease.at >= WINDOW_S then Ok(0) else Err(NotOutstanding)
  {
    var l' := CancelUnsent(l, lease, now).1;
    StillOurs(l, lease, now);
    if later - lease.at < WINDOW_S {
      PruneNumbered(l.entries, l.nextSeq, now);
      var i := CancelledEntries(l, lease, now);
      forall e | e in Prune(l'.entries, later) ensures e.seqNo != lease.seqNo {
        GoneFor(Prune(l.entries, now), l.nextSeq, i, later, e);
      }
    }
    CancelAbsent(l', lease, later);
  }

  /** A settled entry is found again, as settled, while its window is open. */
  lemma SettledFound(es: seq<Entry>, nextSeq: int, i: nat, later: real)
    requires Numbered(es, nextSeq) && i < |es| && es[i].settled && later - es[i].at < WINDOW_S
    ensures var p := Prune(es, later);
            var j := Find(p, es[i].seqNo, es[i].at);
            j < |p| && p[j].settled
  {
    var p := Prune(es, later);
    PruneExact(es, later);
    assert es[i] in p;
    var j :| 0 <= j < |p| && p[j] == es[i];
    PruneNumbered(es, nextSeq, later);
    FindExact(p, nextSeq, j);
  }

  /** What a live settlement leaves: the lease's entry, settled. */
  lemma SettledEntries(l: Lane, lease: Lease, now: real, spent: int) returns (i: nat)
    requires spent >= 0 && now - lease.at < WINDOW_S && Settle(l, lease, now, spent).0.Ok?
    ensures var es := Settle(l, lease, now, spent).1.entries;
            i < |es| && es[i].settled && es[i].seqNo == lease.seqNo && es[i].at == lease.at
  {
    i := EntryFor(l, lease, now).0.value.value;
  }

  lemma SettleAgain(l: Lane, lease: Lease, later: real, again: int)
    requires Ours(l, lease) && later >= 0.0 && again >= 0
    requires later - lease.at < WINDOW_S ==>
      var p := Prune(l.entries, later);
      var j := Find(p, lease.seqNo, lease.at);
      j < |p| && p[j].settled
    ensures Settle(l, lease, later, again) == (Ok(0), l.(entries := Prune(l.entries, later)))
  {
  }

  lemma SettleIsOurs(l: Lane, lease: Lease, now: real, spent: int)
    requires spent >= 0 && Settle(l, lease, now, spent).0.Ok?
    ensures Ours(Settle(l, lease, now, spent).1, lease)
  {
  }

  /** Settlement happens once: a repeated completion refunds nothing and changes nothing. */
  lemma SettleTwice(l: Lane, lease: Lease, now: real, later: real, spent: int, again: int)
    requires LaneOk(l) && 0.0 <= now <= later && spent >= 0 && again >= 0
    requires Settle(l, lease, now, spent).0.Ok?
    ensures var l' := Settle(l, lease, now, spent).1;
            Settle(l', lease, later, again) == (Ok(0), l'.(entries := Prune(l'.entries, later)))
  {
    var l' := Settle(l, lease, now, spent).1;
    SettleIsOurs(l, lease, now, spent);
    SettleOk(l, lease, now, spent);
    if later - lease.at < WINDOW_S {
      var i := SettledEntries(l, lease, now, spent);
      SettledFound(l'.entries, l'.nextSeq, i, later);
    }
    SettleAgain(l', lease, later, again);
  }

  lemma {:induction false} SumUpdate(es: seq<Entry>, i: nat, e: Entry)
    requires i < |es|
    ensures SumTokens(es[i := e]) == SumTokens(es) - es[i].tokens + e.tokens
  {
    if i == 0 {
      assert es[0 := e][1..] == es[1..];
    } else {
      assert es[i := e][1..] == es[1..][i - 1 := e];
      SumUpdate(es[1..], i - 1, e);
    }
  }

  lemma {:induction false} SumAppend(es: seq<Entry>, e: Entry)
    ensures SumTokens(es + [e]) == SumTokens(es) + e.tokens
  {
    if es == [] {
      assert es + [e] == [e] && [e][1..] == [];
    } else {
      assert (es + [e])[1..] == es[1..] + [e];
      SumAppend(es[1..], e);
    }
  }

  lemma {:induction false} SumRemove(es: seq<Entry>, i: nat)
    requires i < |es|
    ensures SumTokens(es[..i] + es[i + 1..]) == SumTokens(es) - es[i].tokens
  {
    if i == 0 {
      assert es[..0] + es[1..] == es[1..];
    } else {
      assert (es[..i] + es[i + 1..])[1..] == es[1..][..i - 1] + es[1..][i..];
      SumRemove(es[1..], i - 1);
    }
  }

  /** A debit adds its reservation and one request to what is left of the window, within budget. */
  lemma DebitMoves(l: Lane, b: Budgets, now: real, input: int, output: int)
    requires Debit(l, b, now, input, output).0.Ok? && Debit(l, b, now, input, output).0.value.Some?
    ensures var es, es' := Prune(l.entries, now), Debit(l, b, now, input, output).1.entries;
            && SumTokens(es') == SumTokens(es) + input + output <= b.maxTokens
            && |es'| == |es| + 1 <= b.maxRequests
  {
    SumAppend(Prune(l.entries, now), Entry(l.nextSeq, now, input + output, false));
  }

  /** A settlement's refund is exactly what the window gives back: the unspent part of the
      reservation.  Overspend is charged, and reported as no refund. */
  lemma SettleMoves(l: Lane, lease: Lease, now: real, spent: int)
    requires Settle(l, lease, now, spent).0.Ok?
    ensures var (r, l') := Settle(l, lease, now, spent);
            var es := Prune(l.entries, now);
            |l'.entries| == |es| && r.value == MaxI(0, SumTokens(es) - SumTokens(l'.entries))
  {
    var es := Prune(l.entries, now);
    var i := Find(es, lease.seqNo, lease.at);
    if i < |es| {
      SumUpdate(es, i, es[i].(tokens := spent, settled := true));
    }
  }

  /** A cancellation gives back the whole reservation and its request; an expired one nothing. */
  lemma CancelMoves(l: Lane, lease: Lease, now: real)
    requires CancelUnsent(l, lease, now).0.Ok?
    ensures var es, es' := Prune(l.entries, now), CancelUnsent(l, lease, now).1.entries;
            && CancelUnsent(l, lease, now).0.value == SumTokens(es) - SumTokens(es')
            && |es| - |es'| == (if now - lease.at < WINDOW_S then 1 else 0)
  {
    var es := Prune(l.entries, now);
    var i := Find(es, lease.seqNo, lease.at);
    if i < |es| {
      SumRemove(es, i);
    }
  }

  lemma ElsewhereInUpdate(es: seq<Entry>, i: nat, x: Entry, e: Entry)
    requires i < |es| && e.seqNo != es[i].seqNo && e.seqNo != x.seqNo
    ensures e in es <==> e in es[i := x]
  {
    if e in es {
      var k :| 0 <= k < |es| && es[k] == e;
      assert es[i := x][k] == e;
    }
  }

  lemma ElsewhereInRemoval(es: seq<Entry>, i: nat, e: Entry)
    requires i < |es| && e.seqNo != es[i].seqNo
    ensures e in es <==> e in es[..i] + es[i + 1..]
  {
    if e in es {
      var k :| 0 <= k < |es| && es[k] == e;
      assert (es[..i] + es[i + 1..])[if k < i then k else k - 1] == e;
    }
  }

  /** Main result: settling or cancelling a lease leaves every entry of another number exactly
      as it was, its amount and its settlement included; expiry alone can remove it. */
  lemma OthersUntouched(l: Lane, lease: Lease, now: real, spent: int, e: Entry)
    requires e.seqNo != lease.seqNo
    ensures e in Prune(l.entries, now) ==> e in Settle(l, lease, now, spent).1.entries
    ensures e in Prune(l.entries, now) ==> e in CancelUnsent(l, lease, now).1.entries
    ensures e in Settle(l, lease, now, spent).1.entries || e in CancelUnsent(l, lease, now).1.entries ==> e in l.entries
  {
    PruneExact(l.entries, now);
    var es := Prune(l.entries, now);
    var i := Find(es, lease.seqNo, lease.at);
    if i < |es| {
      ElsewhereInUpdate(es, i, es[i].(tokens := spent, settled := true), e);
      ElsewhereInRemoval(es, i, e);
    }
  }

  // ------------------------------------------------------------------ the object

  /** Pruning looks at one entry after the other. */
  lemma PruneNext(es: seq<Entry>, i: nat, now: real, kept: seq<Entry>)
    requires i < |es|
    ensures kept + Prune(es[i..], now)
         == (if now - es[i].at < WINDOW_S then kept + [es[i]] else kept) + Prune(es[i + 1..], now)
  {
    assert es[i..][1..] == es[i + 1..];
  }

  class LaneLedger {
    const key: Key
    const budgets: Budgets
    var id: string
    var entries: seq<Entry>
    var nextSeq: int

    function View(): Lane
      reads this
    {
      Lane(key, id, entries, nextSeq)
    }

    constructor (key: Key, budgets: Budgets, id: string, entries: seq<Entry>, nextSeq: int)
      ensures this.key == key && this.budgets == budgets
      ensures View() == Lane(key, id, entries, nextSeq)
    {
      this.key, this.budgets, this.id, this.entries, this.nextSeq := key, budgets, id, entries, nextSeq;
    }

    method PruneAt(now: real)
      modifies this`entries
      ensures View() == old(View()).(entries := Prune(old(entries), now))
    {
      var kept: seq<Entry> := [];
      for i := 0 to |entries|
        invariant entries == old(entries)
        invariant kept + Prune(entries[i..], now) == Prune(entries, now)
      {
        PruneNext(entries, i, now, kept);
        if now - entries[i].at < WINDOW_S {
          kept := kept + [entries[i]];
        }
      }
      entries := kept;
    }

    method CheckAndDebit(now: real, input: int, output: int) returns (r: Result<Option<Lease>>)
      modifies this
      ensures (r, View()) == Debit(old(View()), budgets, now, input, output)
    {
      if input <= 0 || output <= 0 {
        return Ok(None);
      }
      if now < 0.0 {
        return Err(BadClock);
      }
      PruneAt(now);
      if |entries| >= budgets.maxRequests {
        return Ok(None);
      }
      if SumTokens(entries) + input + output > budgets.maxTokens {
        return Ok(None);
      }
      var entry := Entry(nextSeq, now, input + output, false);
      nextSeq := nextSeq + 1;
      entries := entries + [entry];
      return Ok(Some(Lease(key, entry.seqNo, input, output, entry.at, id)));
    }

    method EntryOf(lease: Lease, now: real) returns (r: Result<Option<nat>>)
      modifies this`entries
      ensures (r, View()) == EntryFor(old(View()), lease, now)
    {
      if lease.key != key || lease.ledgerId != id || lease.seqNo <= 0 || lease.seqNo >= nextSeq || lease.at < 0.0 {
        return Err(NotOurs);
      }
      if now < 0.0 {
        return Err(BadClock);
      }
      PruneAt(now);
      if now - lease.at >= WINDOW_S {
        return Ok(None);
      }
      var i := 0;
      while i < |entries|
        invariant i <= |entries|
        invariant Find(entries, lease.seqNo, lease.at) == i + Find(entries[i..], lease.seqNo, lease.at)
        decreases |entries| - i
      {
        if entries[i].seqNo == lease.seqNo && entries[i].at == lease.at {
          return Ok(Some(i));
        }
        assert entries[i..][1..] == entries[i + 1..];
        i := i + 1;
      }
      return Err(NotOutstanding);
    }

    method SettleLease(lease: Lease, now: real, spent: int) returns (r: Result<int>)
      modifies this
      ensures (r, View()) == Settle(old(View()), lease, now, spent)
    {
      if spent < 0 {
        return Err(BadAmount);
      }
      var found := EntryOf(lease, now);
      if found.Err? {
        return Err(found.error);
      }
      if found.value.None? || entries[found.value.value].settled {
        return Ok(0);
      }
      var i := found.value.value;
      var refund := MaxI(0, entries[i].tokens - spent);
      entries := entries[i := entries[i].(tokens := spent, settled := true)];
      return Ok(refund);
    }

    method CancelUnsentLease(lease: Lease, now: real) returns (r: Result<int>)
      modifies this
      ensures (r, View()) == CancelUnsent(old(View()), lease, now)
    {
      var found := EntryOf(lease, now);
      if found.Err? {
        return Err(found.error);
      }
      if found.value.None? {
        return Ok(0);
      }
      var i := found.value.value;
      if entries[i].settled {
        return Err(AlreadySettled);
      }
      var tokens := entries[i].tokens;
      entries := entries[..i] + entries[i + 1..];
      return Ok(tokens);
    }

    /** The counters, which only live entries make up. */
    method Snapshot(now: real) returns (r: Result<(int, int)>)
      modifies this`entries
      ensures now < 0.0 ==> r == Err(BadClock) && View() == old(View())
      ensures now >= 0.0 ==> View() == old(View()).(entries := Prune(old(entries), now))
      ensures now >= 0.0 ==> r == Ok((|entries|, SumTokens(entries)))
    {
      if now < 0.0 {
        return Err(BadClock);
      }
      PruneAt(now);
      return Ok((|entries|, SumTokens(entries)));
    }

    method RetainLease(lease: Lease, now: real) returns (r: Result<()>)
      modifies this
      ensures (r, View()) == Retain(old(View()), lease, now)
    {
      var found := EntryOf(lease, now);
      return if found.Err? then Err(found.error) else Ok(());
    }
  }
}
