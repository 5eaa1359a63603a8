/**
 The registry of lane ledgers and its snapshot file.  The pool is an object holding one
 `LaneLedger` object for each lane; its operations are proved against the value functions
 first declared here.
 */
module LedgerPools {
  import opened Common
  import opened Ledger
  import opened LedgerCodec

  /** How a save ends: the new file in place, the old one left, or the new one in place but an
      error raised afterwards. */
  datatype Outcome = Saved | FailedBefore | FailedAfter

  function WithLane(p: Pool, key: Key, id: string): Pool {
    if key in p.lanes then p else Pool(p.order + [key], p.lanes[key := Lane(key, id, [], 1)])
  }

  function Written(p: Pool, disk: Option<Json>, o: Outcome): Option<Json> {
    if o.FailedBefore? then disk else Some(Encode(p))
  }

  /** A provisional debit of one lane, created when absent. */
  function Provisional(p: Pool, b: Budgets, key: Key, now: real, input: int, output: int, id: string)
    : (Result<Option<Lease>>, Pool)
  {
    if !ValidKey(key) then (Err(BadKey), p)
    else
      var q := WithLane(p, key, id);
      var (r, l) := Debit(q.lanes[key], b, now, input, output);
      (r, q.(lanes := q.lanes[key := l]))
  }

  /** A persisted admission: its answer, the pool and the file after it. */
  function Admission(p: Pool, disk: Option<Json>, b: Budgets, key: Key, now: real, input: int, output: int,
                     id: string, o: Outcome): (Result<Option<Lease>>, Pool, Option<Json>)
  {
    var (r, q) := Provisional(p, b, key, now, input, output, id);
    if r.Err? || r.value.None? then (r, q, disk)
    else (if o.Saved? then r else Err(SaveFailed), q, Written(q, disk, o))
  }

  function ViewOf(order: seq<Key>, lanes: map<Key, LaneLedger>): Pool
    reads lanes.Values
  {
    Pool(order, map k | k in lanes :: lanes[k].View())
  }

  /** Each lane of the pool is an object of its own, under its own key. */
  ghost predicate Separate(lanes: map<Key, LaneLedger>, b: Budgets) {
    && (forall k :: k in lanes ==> lanes[k].key == k && lanes[k].budgets == b)
    && (forall j, k :: j in lanes && k in lanes && lanes[j] == lanes[k] ==> j == k)
  }

  lemma ViewGrows(order: seq<Key>, lanes: map<Key, LaneLedger>, l: LaneLedger)
    requires l.key !in lanes
    ensures ViewOf(order + [l.key], lanes[l.key := l])
         == Pool(order + [l.key], ViewOf(order, lanes).lanes[l.key := l.View()])
  {
    assert ViewOf(order + [l.key], lanes[l.key := l]).lanes == ViewOf(order, lanes).lanes[l.key := l.View()];
  }

  /** Changing one lane's object changes that lane of the pool and nothing else. */
  lemma OneLaneChanged(order: seq<Key>, lanes: map<Key, LaneLedger>, key: Key, before: Pool)
    requires key in lanes && before.order == order && before.lanes.Keys == lanes.Keys
    requires forall k :: k in lanes && k != key ==> lanes[k].View() == before.lanes[k]
    ensures ViewOf(order, lanes) == before.(lanes := before.lanes[key := lanes[key].View()])
  {
    assert ViewOf(order, lanes).lanes == before.lanes[key := lanes[key].View()];
  }

  /** What remains to be parsed, behind what has been. */
  function Behind(done: seq<Entry>, rest: Option<seq<Entry>>): Option<seq<Entry>> {
    if rest.None? then None else Some(done + rest.value)
  }

  method ParseEntryList(raws: seq<Json>, nextSeq: int) returns (r: Option<seq<Entry>>)
    ensures r == ParseEntries(raws, nextSeq, {})
  {
    var entries: seq<Entry>, seen: set<int> := [], {};
    assert raws[0..] == raws;
    assert forall es: seq<Entry> :: entries + es == es;
    for i := 0 to |raws|
      invariant ParseEntries(raws, nextSeq, {}) == Behind(entries, ParseEntries(raws[i..], nextSeq, seen))
    {
      var entry := ParseEntry(raws[i], nextSeq, seen);
      if entry.None? {
        return None;
      }
      assert raws[i..][1..] == raws[i + 1..];
      ghost var rest := ParseEntries(raws[i + 1..], nextSeq, seen + {entry.value.seqNo});
      assert rest.Some? ==> entries + ([entry.value] + rest.value) == (entries + [entry.value]) + rest.value;
      entries := entries + [entry.value];
      seen := seen + {entry.value.seqNo};
    }
    assert entries + [] == entries;
    return Some(entries);
  }

  method ParseLaneObject(raw: Json, budgets: Budgets) returns (lane: LaneLedger?)
    ensures lane == null <==> ParseLane(raw).None?
    ensures lane != null ==>
      fresh(lane) && lane.budgets == budgets && Some(lane.View()) == ParseLane(raw) && lane.key == lane.View().key
  {
    if !raw.JObject? || raw.fields.Keys != {"key", "id", "next_seq", "entries"} {
      return null;
    }
    var f := raw.fields;
    var key := ParseKey(f["key"]);
    if key.None? || !f["id"].JString? || !HexId(f["id"].s) || !f["next_seq"].JInt? || f["next_seq"].i <= 0
       || !f["entries"].JList?
    {
      return null;
    }
    var entries := ParseEntryList(f["entries"].items, f["next_seq"].i);
    if entries.None? {
      return null;
    }
    lane := new LaneLedger(key.value, budgets, f["id"].s, entries.value, f["next_seq"].i);
  }

  class LedgerPool {
    const budgets: Budgets
    const persistent: bool
    var order: seq<Key>
    var lanes: map<Key, LaneLedger>
    var disk: Option<Json>

    ghost predicate Valid()
      reads this
    {
      (forall k :: k in order <==> k in lanes) && Distinct(order) && Separate(lanes, budgets)
    }

    function View(): Pool
      reads this, lanes.Values
    {
      ViewOf(order, lanes)
    }

    constructor (budgets: Budgets, persistent: bool, disk: Option<Json>)
      ensures Valid() && View() == EMPTY && lanes == map[]
      ensures this.budgets == budgets && this.persistent == persistent && this.disk == disk
    {
      this.budgets, this.persistent, this.disk := budgets, persistent, disk;
      this.order, this.lanes := [], map[];
    }

    method LedgerFor(key: Key, id: string) returns (r: Result<LaneLedger>)
      requires Valid()
      modifies this`order, this`lanes
      ensures Valid()
      ensures r.Err? <==> !ValidKey(key)
      ensures r.Err? ==> r == Err(BadKey) && unchanged(this)
      ensures r.Ok? ==> key in lanes && r.value == lanes[key] && View() == WithLane(old(View()), key, id)
      ensures r.Ok? && key in old(lanes) ==> lanes == old(lanes)
      ensures r.Ok? && key !in old(lanes) ==> fresh(r.value) && lanes == old(lanes)[key := r.value]
    {
      if !ValidKey(key) {
        return Err(BadKey);
      }
      if key !in lanes {
        var ledger := new LaneLedger(key, budgets, id, [], 1);
        ViewGrows(order, lanes, ledger);
        order, lanes := order + [key], lanes[key := ledger];
      }
      return Ok(lanes[key]);
    }

    /** The live ledgers are never touched; the file is the old one or the new one. */
    method Save(o: Outcome) returns (r: Result<()>)
      modifies this`disk
      ensures !persistent ==> r == Err(NoStatePath) && disk == old(disk)
      ensures persistent ==> disk == Written(View(), old(disk), o) && r == if o.Saved? then Ok(()) else Err(SaveFailed)
    {
      if !persistent {
        return Err(NoStatePath);
      }
      if o.FailedBefore? {
        return Err(SaveFailed);
      }
      disk := Some(Encode(View()));
      return if o.Saved? then Ok(()) else Err(SaveFailed);
    }

    /** The in-memory half of an admission. */
    method DebitInMemory(key: Key, now: real, input: int, output: int, id: string) returns (r: Result<Option<Lease>>)
      requires Valid()
      modifies this`order, this`lanes, lanes.Values
      ensures Valid() && fresh(lanes.Values - old(lanes.Values))
      ensures (r, View()) == Provisional(old(View()), budgets, key, now, input, output, id)
    {
      var ledger := LedgerFor(key, id);
      if ledger.Err? {
        return Err(ledger.error);
      }
      ghost var q := View();
      assert key in old(lanes) ==> ledger.value in old(lanes.Values);
      r := ledger.value.CheckAndDebit(now, input, output);
      OneLaneChanged(order, lanes, key, q);
    }

    method Commit(lease: Lease, o: Outcome) returns (r: Result<Option<Lease>>)
      requires persistent
      modifies this`disk
      ensures disk == Written(View(), old(disk), o) && r == if o.Saved? then Ok(Some(lease)) else Err(SaveFailed)
    {
      var saved := Save(o);
      return if saved.Err? then Err(saved.error) else Ok(Some(lease));
    }

    /** A lease is acknowledged only once the file holds its debit. */
    method CheckAndDebit(key: Key, now: real, input: int, output: int, id: string, o: Outcome)
      returns (r: Result<Option<Lease>>)
      requires Valid()
      modifies this, lanes.Values
      ensures Valid() && fresh(lanes.Values - old(lanes.Values))
      ensures !persistent ==> r == Err(NoStatePath) && View() == old(View()) && disk == old(disk)
      ensures persistent ==>
        (r, View(), disk) == Admission(old(View()), old(disk), budgets, key, now, input, output, id, o)
    {
      if !persistent {
        return Err(NoStatePath);
      }
      r := DebitInMemory(key, now, input, output, id);
      if r.Ok? && r.value.Some? {
        r := Commit(r.value.value, o);
      }
    }

    /** Build the lanes of a snapshot apart from the live ones, refusing a repeated key or identity. */
    method BuildLanes(raws: seq<Json>) returns (ok: bool, keys: seq<Key>, built: map<Key, LaneLedger>)
      ensures ok ==> (forall k :: k in keys <==> k in built) && Distinct(keys) && Separate(built, budgets)
      ensures forall k :: k in built ==> fresh(built[k])
      ensures ok ==> Some(ViewOf(keys, built)) == ParseLanes(raws, EMPTY, {})
      ensures !ok ==> ParseLanes(raws, EMPTY, {}).None?
    {
      var ids: set<string> := {};
      keys, built := [], map[];
      for i := 0 to |raws|
        invariant forall k :: k in keys <==> k in built
        invariant Distinct(keys) && Separate(built, budgets)
        invariant forall k :: k in built ==> fresh(built[k])
        invariant ParseLanes(raws, EMPTY, {}) == ParseLanes(raws[i..], ViewOf(keys, built), ids)
      {
        var lane := ParseLaneObject(raws[i], budgets);
        if lane == null || lane.key in built || lane.id in ids {
          return false, keys, built;
        }
        assert raws[i..][1..] == raws[i + 1..];
        ViewGrows(keys, built, lane);
        keys, built, ids := keys + [lane.key], built[lane.key := lane], ids + {lane.id};
      }
      ok := true;
    }

    /** All of the file is validated before anything replaces the live state. */
    method Load() returns (r: Result<()>)
      requires Valid()
      modifies this`order, this`lanes
      ensures Valid()
      ensures disk.None? ==> r == Err(MissingFile) && View() == old(View())
      ensures disk.Some? && Decode(disk.value).None? ==> r == Err(CorruptState) && View() == old(View())
      ensures disk.Some? && Decode(disk.value).Some? ==> r == Ok(()) && Some(View()) == Decode(disk.value)
      ensures if r.Ok? then fresh(lanes.Values) else lanes == old(lanes)
    {
      if disk.None? {
        return Err(MissingFile);
      }
      var payload := disk.value;
      if !payload.JObject? || payload.fields.Keys != {"version", "lanes"} || payload.fields["version"] != JInt(1)
         || !payload.fields["lanes"].JList?
      {
        return Err(CorruptState);
      }
      var ok, keys, built := BuildLanes(payload.fields["lanes"].items);
      if !ok {
        return Err(CorruptState);
      }
      order, lanes := keys, built;
      return Ok(());
    }
  }
}
