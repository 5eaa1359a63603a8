/**
 The snapshot format.  `Encode` writes a pool as a tree of JSON values; `Decode` validates
 such a tree field by field and rebuilds the pool, or refuses all of it.
 */
module LedgerCodec {
  import opened Common
  import opened Ledger

  datatype Json =
    | JNull
    | JBool(b: bool)
    | JInt(i: int)
    | JFloat(r: real)
    | JString(s: string)
    | JList(items: seq<Json>)
    | JObject(fields: map<string, Json>)

  /** Lanes in the order they were first used. */
  datatype Pool = Pool(order: seq<Key>, lanes: map<Key, Lane>)

  const EMPTY := Pool([], map[])

  predicate Blank(c: char) {
    var n := c as int;
    9 <= n <= 13 || 28 <= n <= 32 || n == 0x85 || n == 0xA0
  }

  predicate NonBlank(s: string) {
    exists i :: 0 <= i < |s| && !Blank(s[i])
  }

  predicate ValidKey(k: Key) {
    NonBlank(k.0) && NonBlank(k.1) && NonBlank(k.2)
  }

  predicate HexId(s: string) {
    |s| == 32 && forall i :: 0 <= i < |s| ==> s[i] in "0123456789abcdef"
  }

  ghost predicate PoolOk(p: Pool) {
    && Distinct(p.order) && (forall k :: k in p.order <==> k in p.lanes)
    && (forall k :: k in p.lanes ==> p.lanes[k].key == k && ValidKey(k) && HexId(p.lanes[k].id) && LaneOk(p.lanes[k]))
    && (forall j, k :: j in p.lanes && k in p.lanes && p.lanes[j].id == p.lanes[k].id ==> j == k)
  }

  // -------------------------------------------------------------------- encode

  function EncodeEntry(e: Entry): Json {
    JObject(map["seq" := JInt(e.seqNo), "at" := JFloat(e.at), "tokens" := JInt(e.tokens), "settled" := JBool(e.settled)])
  }

  function EncodeEntries(es: seq<Entry>): seq<Json> {
    if es == [] then [] else [EncodeEntry(es[0])] + EncodeEntries(es[1..])
  }

  function EncodeLane(l: Lane): Json {
    JObject(map["key" := JList([JString(l.key.0), JString(l.key.1), JString(l.key.2)]),
                "id" := JString(l.id),
                "next_seq" := JInt(l.nextSeq),
                "entries" := JList(EncodeEntries(l.entries))])
  }

  function EncodeLanes(order: seq<Key>, lanes: map<Key, Lane>): seq<Json> {
    if order == [] then []
    else (if order[0] in lanes then [EncodeLane(lanes[order[0]])] else []) + EncodeLanes(order[1..], lanes)
  }

  function Encode(p: Pool): Json {
    JObject(map["version" := JInt(1), "lanes" := JList(EncodeLanes(p.order, p.lanes))])
  }

  // -------------------------------------------------------------------- decode

  function Time(j: Json): Option<real> {
    match j
    case JInt(i) => if i >= 0 then Some(i as real) else None
    case JFloat(r) => if r >= 0.0 then Some(r) else None
    case _ => None
  }

  function ParseEntry(raw: Json, nextSeq: int, seen: set<int>): Option<Entry> {
    if !raw.JObject? || raw.fields.Keys != {"seq", "at", "tokens", "settled"} then None
    else
      var f := raw.fields;
      var at := Time(f["at"]);
      if !f["seq"].JInt? || f["seq"].i <= 0 || f["seq"].i >= nextSeq || f["seq"].i in seen
         || at.None? || !f["tokens"].JInt? || f["tokens"].i < 0 || !f["settled"].JBool?
         || (!f["settled"].b && f["tokens"].i == 0)
      then None
      else Some(Entry(f["seq"].i, at.value, f["tokens"].i, f["settled"].b))
  }

  function ParseEntries(raws: seq<Json>, nextSeq: int, seen: set<int>): Option<seq<Entry>> {
    if raws == [] then Some([])
    else
      var e := ParseEntry(raws[0], nextSeq, seen);
      if e.None? then None
      else
        var rest := ParseEntries(raws[1..], nextSeq, seen + {e.value.seqNo});
        if rest.None? then None else Some([e.value] + rest.value)
  }

  function ParseKey(raw: Json): Option<Key> {
    if raw.JList? && |raw.items| == 3 && raw.items[0].JString? && raw.items[1].JString? && raw.items[2].JString? then
      var key := (raw.items[0].s, raw.items[1].s, raw.items[2].s);
      if ValidKey(key) then Some(key) else None
    else None
  }

  function ParseLane(raw: Json): Option<Lane> {
    if !raw.JObject? || raw.fields.Keys != {"key", "id", "next_seq", "entries"} then None
    else
      var f := raw.fields;
      var key := ParseKey(f["key"]);
      if key.None? || !f["id"].JString? || !HexId(f["id"].s) || !f["next_seq"].JInt? || f["next_seq"].i <= 0
         || !f["entries"].JList?
      then None
      else
        var es := ParseEntries(f["entries"].items, f["next_seq"].i, {});
        if es.None? then None else Some(Lane(key.value, f["id"].s, es.value, f["next_seq"].i))
  }

  /** Add the remaining lanes to the pool, refusing a repeated key or identity. */
  function ParseLanes(raws: seq<Json>, p: Pool, ids: set<string>): Option<Pool> {
    if raws == [] then Some(p)
    else
      var l := ParseLane(raws[0]);
      if l.None? || l.value.key in p.lanes || l.value.id in ids then None
      else ParseLanes(raws[1..], Pool(p.order + [l.value.key], p.lanes[l.value.key := l.value]), ids + {l.value.id})
  }

  function Decode(j: Json): Option<Pool> {
    if !j.JObject? || j.fields.Keys != {"version", "lanes"} || j.fields["version"] != JInt(1) || !j.fields["lanes"].JList?
    then None
    else ParseLanes(j.fields["lanes"].items, EMPTY, {})
  }

  // ------------------------------------------------------------------ round trip

  /** Numbered from above `seen`: what the parser's duplicate check demands of a list. */
  ghost predicate Unseen(es: seq<Entry>, seen: set<int>) {
    forall i :: 0 <= i < |es| ==> es[i].seqNo !in seen
  }

  lemma EntryRoundTrip(e: Entry, nextSeq: int, seen: set<int>)
    requires EntryOk(e) && 0 < e.seqNo < nextSeq && e.seqNo !in seen
    ensures ParseEntry(EncodeEntry(e), nextSeq, seen) == Some(e)
  {
    var f := EncodeEntry(e).fields;
    assert f["seq"] == JInt(e.seqNo) && f["at"] == JFloat(e.at);
    assert f["tokens"] == JInt(e.tokens) && f["settled"] == JBool(e.settled);
  }

  lemma {:induction false} EntriesRoundTrip(es: seq<Entry>, nextSeq: int, seen: set<int>)
    requires Numbered(es, nextSeq) && Unseen(es, seen) && forall i :: 0 <= i < |es| ==> EntryOk(es[i])
    ensures ParseEntries(EncodeEntries(es), nextSeq, seen) == Some(es)
  {
    if es != [] {
      var raws := EncodeEntries(es);
      assert raws[0] == EncodeEntry(es[0]) && raws[1..] == EncodeEntries(es[1..]);
      EntryRoundTrip(es[0], nextSeq, seen);
      EntriesRoundTrip(es[1..], nextSeq, seen + {es[0].seqNo});
      assert [es[0]] + es[1..] == es;
    }
  }

  lemma LaneRoundTrip(l: Lane)
    requires LaneOk(l) && ValidKey(l.key) && HexId(l.id)
    ensures ParseLane(EncodeLane(l)) == Some(l)
  {
    EntriesRoundTrip(l.entries, l.nextSeq, {});
  }

  /** Reading one more lane extends the restored prefix by that lane. */
  lemma PrefixGrows(p: Pool, n: nat, k: Key)
    requires Distinct(p.order) && n < |p.order| && k == p.order[n] && k in p.lanes
    ensures k !in Prefix(p, n).lanes
    ensures Prefix(p, n + 1) == Pool(p.order[..n] + [k], Prefix(p, n).lanes[k := p.lanes[k]])
  {
    assert p.order[..n + 1] == p.order[..n] + [k];
    assert Prefix(p, n + 1).lanes == Prefix(p, n).lanes[k := p.lanes[k]];
  }

  lemma ParseLanesStep(raws: seq<Json>, l: Lane, p: Pool, ids: set<string>)
    requires raws != [] && ParseLane(raws[0]) == Some(l) && l.key !in p.lanes && l.id !in ids
    ensures ParseLanes(raws, p, ids)
         == ParseLanes(raws[1..], Pool(p.order + [l.key], p.lanes[l.key := l]), ids + {l.id})
  {
  }

  /** The lanes from position `n` on carry identities that have not been read. */
  ghost predicate FreshIds(p: Pool, n: nat, ids: set<string>)
    requires forall k :: k in p.order ==> k in p.lanes
  {
    forall i :: n <= i < |p.order| ==> p.lanes[p.order[i]].id !in ids
  }

  lemma FreshIdsNext(p: Pool, n: nat, ids: set<string>)
    requires PoolOk(p) && n < |p.order| && FreshIds(p, n, ids)
    ensures FreshIds(p, n + 1, ids + {p.lanes[p.order[n]].id})
  {
    forall i | n + 1 <= i < |p.order| ensures p.lanes[p.order[i]].id !in ids + {p.lanes[p.order[n]].id} {
      assert p.order[i] in p.lanes && p.order[n] in p.lanes && p.order[i] != p.order[n];
    }
  }

  lemma {:induction false} LanesRoundTrip(p: Pool, n: nat, ids: set<string>)
    requires PoolOk(p) && n <= |p.order| && FreshIds(p, n, ids)
    ensures ParseLanes(EncodeLanes(p.order[n..], p.lanes), Prefix(p, n), ids) == Some(p)
    decreases |p.order| - n
  {
    if n == |p.order| {
      assert p.order[..n] == p.order;
      assert Prefix(p, n).lanes == p.lanes;
    } else {
      var k := p.order[n];
      var l := p.lanes[k];
      LaneRoundTrip(l);
      var raws := EncodeLanes(p.order[n..], p.lanes);
      assert p.order[n..][1..] == p.order[n + 1..];
      assert raws[0] == EncodeLane(l) && raws[1..] == EncodeLanes(p.order[n + 1..], p.lanes);
      PrefixGrows(p, n, k);
      ParseLanesStep(raws, l, Prefix(p, n), ids);
      FreshIdsNext(p, n, ids);
      LanesRoundTrip(p, n + 1, ids + {l.id});
    }
  }

  ghost function Prefix(p: Pool, n: nat): Pool
    requires n <= |p.order|
  {
    Pool(p.order[..n], map k | k in p.lanes && k in p.order[..n] :: p.lanes[k])
  }

  /** Main result: every well-formed pool is restored exactly as it was saved. */
  lemma RoundTrip(p: Pool)
    requires PoolOk(p)
    ensures Decode(Encode(p)) == Some(p)
  {
    assert p.order[0..] == p.order && Prefix(p, 0) == EMPTY;
    LanesRoundTrip(p, 0, {});
  }

  // ------------------------------------------------------ only well-formed pools

  lemma {:induction false} ParsedEntriesOk(raws: seq<Json>, nextSeq: int, seen: set<int>)
    requires ParseEntries(raws, nextSeq, seen).Some?
    ensures var es := ParseEntries(raws, nextSeq, seen).value;
            Numbered(es, nextSeq) && Unseen(es, seen) && forall i :: 0 <= i < |es| ==> EntryOk(es[i])
  {
    if raws != [] {
      var e := ParseEntry(raws[0], nextSeq, seen).value;
      ParsedEntriesOk(raws[1..], nextSeq, seen + {e.seqNo});
    }
  }

  lemma ParsedLaneOk(raw: Json)
    requires ParseLane(raw).Some?
    ensures var l := ParseLane(raw).value; LaneOk(l) && ValidKey(l.key) && HexId(l.id)
  {
    ParsedEntriesOk(raw.fields["entries"].items, raw.fields["next_seq"].i, {});
  }

  lemma {:induction false} ParsedLanesOk(raws: seq<Json>, p: Pool, ids: set<string>)
    requires PoolOk(p) && (forall k :: k in p.lanes ==> p.lanes[k].id in ids)
    requires ParseLanes(raws, p, ids).Some?
    ensures PoolOk(ParseLanes(raws, p, ids).value)
  {
    if raws != [] {
      var l := ParseLane(raws[0]).value;
      ParsedLaneOk(raws[0]);
      ParsedLanesOk(raws[1..], Pool(p.order + [l.key], p.lanes[l.key := l]), ids + {l.id});
    }
  }

  /** Main result: whatever tree is read, a pool that is accepted is well formed, and saving
      it again and reading it back changes nothing. */
  lemma DecodeSound(j: Json)
    requires Decode(j).Some?
    ensures PoolOk(Decode(j).value) && Decode(Encode(Decode(j).value)) == Decode(j)
  {
    ParsedLanesOk(j.fields["lanes"].items, EMPTY, {});
    RoundTrip(Decode(j).value);
  }
}
