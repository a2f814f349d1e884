// The table in which reduce aggregates before it touches the shared dict (reduce_table.h): an
// insertion-ordered map, indexed by linear probing.
module ReduceTables {
  import opened Arith
  import opened Options
  import opened ReduceInputs

  type Key(==, !new)
  type Value(==, !new)

  datatype Entry = Entry(hash: nat, key: Key, expected: Value, desired: Value)

  const EMPTY_ENTRY: nat := Pow2(64) - 1     // UINT64_MAX
  const MIN_LOG_SIZE: nat := 7

  // ---- the map that the table stands for: its entries in the order of insertion ----

  ghost predicate KeysDiffer(es: seq<Entry>) {
    forall i, j :: 0 <= i < j < |es| ==> es[i].key != es[j].key
  }

  // Equal keys have equal hashes.
  ghost predicate Hashed(es: seq<Entry>, hash: Key -> nat) {
    forall i :: 0 <= i < |es| ==> es[i].hash == hash(es[i].key)
  }

  ghost predicate FoundAt(es: seq<Entry>, key: Key, r: Option<nat>) {
    match r
    case Some(e) => e < |es| && es[e].key == key
    case None => forall i :: 0 <= i < |es| ==> es[i].key != key
  }

  // The map from keys to aggregates.
  function AsMap(es: seq<Entry>): map<Key, (Value, Value)> {
    if es == [] then map[] else AsMap(es[..|es| - 1])[es[|es| - 1].key := (es[|es| - 1].expected, es[|es| - 1].desired)]
  }

  lemma {:induction false} AsMapHolds(es: seq<Entry>)
    requires KeysDiffer(es)
    ensures forall i :: 0 <= i < |es| ==>
              es[i].key in AsMap(es) && AsMap(es)[es[i].key] == (es[i].expected, es[i].desired)
    ensures forall k :: k in AsMap(es) ==> exists i :: 0 <= i < |es| && es[i].key == k
  {
    if es != [] {
      var n := |es| - 1;
      AsMapHolds(es[..n]);
      forall k | k in AsMap(es)
        ensures exists i :: 0 <= i < |es| && es[i].key == k
      {
        if k in AsMap(es[..n]) {
          var i :| 0 <= i < n && es[..n][i].key == k;
          assert es[i].key == k;
        } else {
          assert es[n].key == k;
        }
      }
      forall i | 0 <= i < |es|
        ensures es[i].key in AsMap(es) && AsMap(es)[es[i].key] == (es[i].expected, es[i].desired)
      {
        if i < n {
          assert es[..n][i] == es[i];
        }
      }
    }
  }

  // ---- the index ----

  function HomeOf(hash: nat, n: nat): (w: nat)
    requires n > 0
    ensures w < n
  {
    Rem(hash, n)
  }

  ghost predicate Taken(idx: seq<nat>, w: nat, k: nat)
    requires w < |idx|
  {
    forall p :: 0 <= p < |idx| && Gap(w, p, |idx|) < k ==> idx[p] != EMPTY_ENTRY
  }

  // Entry e sits in slot slots[e], and the slots from its home to there are taken; no slot holds anything else.
  ghost predicate Placed(idx: seq<nat>, es: seq<Entry>, slots: seq<nat>) {
    && |slots| == |es| < EMPTY_ENTRY && |idx| > 0
    && (forall e :: 0 <= e < |es| ==> PlacedAt(idx, es[e].hash, slots[e], e))
    && (forall p :: 0 <= p < |idx| ==> idx[p] == EMPTY_ENTRY || (idx[p] < |es| && slots[idx[p]] == p))
  }

  ghost predicate PlacedAt(idx: seq<nat>, hash: nat, p: nat, e: nat)
    requires |idx| > 0
  {
    p < |idx| && idx[p] == e && Taken(idx, HomeOf(hash, |idx|), Gap(HomeOf(hash, |idx|), p, |idx|))
  }

  // A table with fewer entries than slots has an empty slot.
  lemma HasRoom(idx: seq<nat>, es: seq<Entry>, slots: seq<nat>)
    requires Placed(idx, es, slots) && |es| < |idx|
    ensures exists p :: 0 <= p < |idx| && idx[p] == EMPTY_ENTRY
  {
    if forall p :: 0 <= p < |idx| ==> idx[p] != EMPTY_ENTRY {
      var i, j := Pigeonhole(idx, |es|);
      assert false;
    }
  }

  // Filling the first empty slot of a probe.
  lemma Inserted(idx: seq<nat>, es: seq<Entry>, slots: seq<nat>, e: Entry, p: nat)
    requires Placed(idx, es, slots) && p < |idx| && idx[p] == EMPTY_ENTRY && |es| + 1 < EMPTY_ENTRY
    requires Taken(idx, HomeOf(e.hash, |idx|), Gap(HomeOf(e.hash, |idx|), p, |idx|))
    ensures Placed(idx[p := |es|], es + [e], slots + [p])
  {
    var idx' := idx[p := |es|];
    var es', slots' := es + [e], slots + [p];
    forall i | 0 <= i < |es'|
      ensures PlacedAt(idx', es'[i].hash, slots'[i], i)
    {
      if i < |es| {
        assert PlacedAt(idx, es[i].hash, slots[i], i);
      }
    }
  }

  // The first k slots from w are taken, by other keys.
  ghost predicate Passed(idx: seq<nat>, es: seq<Entry>, w: nat, key: Key, k: nat)
    requires w < |idx|
  {
    forall p :: 0 <= p < |idx| && Gap(w, p, |idx|) < k ==>
      idx[p] != EMPTY_ENTRY && (idx[p] < |es| ==> es[idx[p]].key != key)
  }

  lemma PassOne(idx: seq<nat>, es: seq<Entry>, slots: seq<nat>, w: nat, key: Key, k: nat)
    requires Placed(idx, es, slots) && |es| < |idx| && w < |idx| && k < |idx| && Passed(idx, es, w, key, k)
    requires var e := idx[Wrap(w + k, |idx|)]; e != EMPTY_ENTRY && (e < |es| ==> es[e].key != key)
    ensures Passed(idx, es, w, key, k + 1) && k + 1 < |idx|
  {
    var n := |idx|;
    forall p | 0 <= p < n && Gap(w, p, n) < k + 1
      ensures idx[p] != EMPTY_ENTRY && (idx[p] < |es| ==> es[idx[p]].key != key)
    {
      if Gap(w, p, n) == k {
        assert p == Wrap(w + k, n);
      }
    }
    HasRoom(idx, es, slots);
    var p :| 0 <= p < n && idx[p] == EMPTY_ENTRY;
    assert Gap(w, p, n) >= k + 1;
  }

  // Where a key is found by probing: its entry, or the first empty slot.
  lemma EmptyMeansAbsent(idx: seq<nat>, es: seq<Entry>, slots: seq<nat>, hash: Key -> nat, key: Key, k: nat)
    requires Placed(idx, es, slots) && Hashed(es, hash) && k < |idx|
    requires var w := HomeOf(hash(key), |idx|);
             idx[Wrap(w + k, |idx|)] == EMPTY_ENTRY && Passed(idx, es, w, key, k)
    ensures FoundAt(es, key, None)
  {
    forall e | 0 <= e < |es|
      ensures es[e].key != key
    {
      assert PlacedAt(idx, es[e].hash, slots[e], e);
      var w := HomeOf(hash(key), |idx|);
      assert Gap(w, Wrap(w + k, |idx|), |idx|) == k;
    }
  }

  // reduce_table_set, on the entries.
  ghost predicate SetsTo(es: seq<Entry>, es': seq<Entry>, key: Key, hash: nat, expected: Value, desired: Value) {
    || (exists e :: 0 <= e < |es| && es[e].key == key
                    && es' == es[e := es[e].(expected := expected, desired := desired)])
    || (FoundAt(es, key, None) && es' == es + [Entry(hash, key, expected, desired)])
  }

  // So get and set agree with a map keyed by equality.
  lemma SetIsUpdate(es: seq<Entry>, es': seq<Entry>, key: Key, hash: nat, expected: Value, desired: Value)
    requires KeysDiffer(es) && SetsTo(es, es', key, hash, expected, desired)
    ensures KeysDiffer(es') && AsMap(es') == AsMap(es)[key := (expected, desired)]
  {
    if FoundAt(es, key, None) && es' == es + [Entry(hash, key, expected, desired)] {
      assert es'[..|es'| - 1] == es;
    } else {
      var e :| 0 <= e < |es| && es[e].key == key && es' == es[e := es[e].(expected := expected, desired := desired)];
      UpdateIsUpdate(es, e, expected, desired);
    }
  }

  lemma {:induction false} UpdateIsUpdate(es: seq<Entry>, e: nat, expected: Value, desired: Value)
    requires KeysDiffer(es) && e < |es|
    ensures AsMap(es[e := es[e].(expected := expected, desired := desired)])
            == AsMap(es)[es[e].key := (expected, desired)]
  {
    var n := |es| - 1;
    var es' := es[e := es[e].(expected := expected, desired := desired)];
    if e < n {
      UpdateIsUpdate(es[..n], e, expected, desired);
      assert es'[..n] == es[..n][e := es'[e]];
    } else {
      assert es'[..n] == es[..n];
    }
  }

  lemma Appended(es: seq<Entry>, e: Entry, hash: Key -> nat)
    requires KeysDiffer(es) && Hashed(es, hash) && FoundAt(es, e.key, None) && e.hash == hash(e.key)
    ensures KeysDiffer(es + [e]) && Hashed(es + [e], hash)
  {
  }

  lemma GetIsLookup(es: seq<Entry>, key: Key, r: Option<nat>)
    requires KeysDiffer(es) && FoundAt(es, key, r)
    ensures r.Some? <==> key in AsMap(es)
    ensures r.Some? ==> AsMap(es)[key] == (es[r.value].expected, es[r.value].desired)
  {
    AsMapHolds(es);
  }

  // What an aggregate function makes of the items, one after the other.
  function Aggregated(items: seq<(Key, Value)>, apply: (Option<Value>, Value) -> Value): map<Key, Value> {
    if items == [] then map[]
    else
      var m := Aggregated(items[..|items| - 1], apply);
      var (k, v) := items[|items| - 1];
      m[k := apply(if k in m then Some(m[k]) else None, v)]
  }

  // For each key, the items that have it: the function is called with its first value alone, and with each
  // further one and what the earlier ones made.
  lemma {:induction false} AggregatedIsFold(items: seq<(Key, Value)>, apply: (Option<Value>, Value) -> Value, k: Key)
    ensures k in Aggregated(items, apply) <==> ValuesOf(items, k) != []
    ensures k in Aggregated(items, apply) ==> FoldLeft(apply, ValuesOf(items, k)) == Some(Aggregated(items, apply)[k])
  {
    if items != [] {
      var n := |items| - 1;
      AggregatedIsFold(items[..n], apply, k);
      var vs := ValuesOf(items[..n], k);
      if items[n].0 == k {
        assert ValuesOf(items, k) == vs + [items[n].1];
        assert (vs + [items[n].1])[..|vs|] == vs;
      } else {
        assert ValuesOf(items, k) == vs;
      }
    }
  }

  // The table holds, for each key of the items, the fold of its values.
  ghost predicate Folds(table: map<Key, (Value, Value)>, items: seq<(Key, Value)>,
      apply: (Option<Value>, Value) -> Value,
      notFound: Value) {
    && (forall k :: k in table <==> ValuesOf(items, k) != [])
    && (forall k :: k in table ==> table[k].0 == notFound && FoldLeft(apply, ValuesOf(items, k)) == Some(table[k].1))
  }

  lemma RepresentsFolds(table: map<Key, (Value, Value)>, items: seq<(Key, Value)>,
      apply: (Option<Value>, Value) -> Value,
      notFound: Value)
    requires Represents(table, Aggregated(items, apply), notFound)
    ensures Folds(table, items, apply, notFound)
  {
    forall k
      ensures k in table <==> ValuesOf(items, k) != []
      ensures k in table ==> table[k].0 == notFound && FoldLeft(apply, ValuesOf(items, k)) == Some(table[k].1)
    {
      AggregatedIsFold(items, apply, k);
    }
  }

  // The table holds the aggregates, and still expects to find no key in the shared dict.
  ghost predicate Represents(table: map<Key, (Value, Value)>, m: map<Key, Value>, notFound: Value) {
    table.Keys == m.Keys && forall k :: k in m ==> table[k] == (notFound, m[k])
  }

  // The order in which reduce_flush visits the entries.
  function Rotated(es: seq<Entry>, start: nat): seq<Entry>
    requires start <= |es|
  {
    es[start..] + es[..start]
  }

  lemma RotatedVisitsOnce(es: seq<Entry>, start: nat)
    requires start <= |es|
    ensures multiset(Rotated(es, start)) == multiset(es)
  {
    assert es == es[..start] + es[start..];
  }

  lemma InRange(idx: seq<nat>, es: seq<Entry>, slots: seq<nat>, p: nat)
    requires Placed(idx, es, slots) && p < |idx|
    ensures idx[p] != EMPTY_ENTRY ==> idx[p] < |es|
  {
  }

  lemma SameHash(es: seq<Entry>, hash: Key -> nat, e: nat)
    requires Hashed(es, hash) && e < |es|
    ensures es[e].hash == hash(es[e].key)
  {
  }

  class ReduceTable {
    var logSize: nat
    var used: nat
    var index: array<nat>
    var entries: array<Option<Entry>>      // None is memory that was not written yet
    ghost var slots: seq<nat>              // where each entry is in the index
    ghost const hash: Key -> nat

    ghost predicate Valid()
      reads this, index, entries
    {
      && Allocated() && used <= index.Length * 2 / 3 + 1
      && KeysDiffer(Contents()) && Hashed(Contents(), hash) && Placed(index[..], Contents(), slots)
    }

    ghost predicate Allocated()
      reads this, index, entries
    {
      && MIN_LOG_SIZE <= logSize < 60 && index.Length == entries.Length == Pow2(logSize)
      && 128 <= index.Length < EMPTY_ENTRY / 4
      && used <= entries.Length && forall i :: 0 <= i < used ==> entries[i].Some?
    }

    // The entries in the order of insertion.
    ghost function Contents(): (es: seq<Entry>)
      requires used <= entries.Length && forall i :: 0 <= i < used ==> entries[i].Some?
      reads this, entries
    {
      Written(entries[..used])
    }

    // The map that the table stands for.
    ghost function Map(): map<Key, (Value, Value)>
      requires Valid()
      reads this, index, entries
    {
      AsMap(Contents())
    }

    // reduce_table_new
    constructor (log: nat, ghost hash: Key -> nat)
      requires log < 60
      ensures Valid() && fresh(index) && fresh(entries) && Contents() == [] && this.hash == hash
      ensures logSize == if log < MIN_LOG_SIZE then MIN_LOG_SIZE else log
    {
      var l := if log < MIN_LOG_SIZE then MIN_LOG_SIZE else log;
      TableSizes(l);
      var n := Pow2(l);
      var idx := new nat[n];
      var i := 0;
      while i < n
        invariant i <= n
        invariant forall p :: 0 <= p < i ==> idx[p] == EMPTY_ENTRY
      {
        idx[i] := EMPTY_ENTRY;
        i := i + 1;
      }
      logSize, used, index, slots := l, 0, idx, [];
      entries := new Option<Entry>[n](_ => None);
      this.hash := hash;
    }

    // reduce_table_lookup
    method Lookup(key: Key, h: nat) returns (found: Option<nat>)
      requires Valid() && h == hash(key)
      ensures FoundAt(Contents(), key, found)
    {
      hide Placed, Hashed, KeysDiffer;
      var n := index.Length;
      var start := HomeOf(h, n);
      var ix := start;
      ghost var k := 0;
      ghost var idx, es := index[..], Contents();
      while true
        invariant k < n && ix == Wrap(start + k, n) && Passed(idx, es, start, key, k)
        decreases n - k
      {
        var e := index[ix];
        InRange(idx, es, slots, ix);
        if e == EMPTY_ENTRY {
          EmptyMeansAbsent(idx, es, slots, hash, key, k);
          return None;
        }
        if entries[e].value.hash == h && entries[e].value.key == key {
          return Some(e);
        }
        SameHash(es, hash, e);
        PassOne(idx, es, slots, start, key, k);
        ix := Wrap(ix + 1, n);
        k := k + 1;
        if ix == start {
          // cannot happen: some slot is empty
          assert false;
          return None;
        }
      }
    }

    // reduce_table_get
    method Get(key: Key, h: nat) returns (found: bool, pair: Option<(Value, Value)>)
      requires Valid() && h == hash(key)
      ensures found <==> key in Map()
      ensures pair == if found then Some(Map()[key]) else None
    {
      var r := Lookup(key, h);
      GetIsLookup(Contents(), key, r);
      if r.None? {
        return false, None;
      }
      var e := entries[r.value].value;
      return true, Some((e.expected, e.desired));
    }

    // reduce_table_resize: a table of twice the size with the same entries in the same order. It fails
    // when the memory for it does not exist.
    method Resize() returns (ok: bool)
      requires Valid()
      modifies this
      ensures Valid() && Contents() == old(Contents())
      ensures ok ==> logSize == old(logSize) + 1 && used <= index.Length * 2 / 3 && fresh(index) && fresh(entries)
      ensures !ok ==> logSize == old(logSize) == 59 && index == old(index) && entries == old(entries)
    {
      hide Placed, Hashed, KeysDiffer;
      if logSize + 1 >= 60 {
        return false;
      }
      TableSizes(logSize + 1);
      var n := Pow2(logSize + 1);
      assert n == 2 * index.Length;
      var newIndex := new nat[n];
      FillEmpty(newIndex);
      var newEntries := new Option<Entry>[n](_ => None);
      ghost var es := Contents();
      ghost var newSlots := Rehash(entries, used, es, newIndex, newEntries);
      assert Written(newEntries[..used]) == es;
      logSize, index, entries, slots := logSize + 1, newIndex, newEntries, newSlots;
      assert Allocated();
      assert Contents() == es;
      return true;
    }

    // reduce_table_set
    method Set(key: Key, h: nat, expected: Value, desired: Value) returns (ok: bool)
      requires Valid() && h == hash(key)
      modifies this, index, entries
      ensures Valid()
      ensures ok ==> SetsTo(old(Contents()), Contents(), key, h, expected, desired)
      ensures ok ==> Map() == old(Map())[key := (expected, desired)]
      ensures !ok ==> Contents() == old(Contents()) && logSize == 59
      ensures (index == old(index) || fresh(index)) && (entries == old(entries) || fresh(entries))
    {
      hide Placed, Hashed, KeysDiffer;
      ghost var es := Contents();
      ok := true;
      if used > index.Length * 2 / 3 {
        ok := Resize();
      }
      if ok {
        var found := Lookup(key, h);
        if found.Some? {
          Update(found.value, key, h, expected, desired);
        } else {
          Insert(key, h, expected, desired);
        }
        SetIsUpdate(es, Contents(), key, h, expected, desired);
      }
    }

    // The loop of AtomicDict_Reduce_impl over the items: the table aggregates them, key by key.
    method Aggregate(items: seq<(Key, Value)>, hashOf: Key -> nat, apply: (Option<Value>, Value) -> Value,
        notFound: Value)
      returns (ok: bool)
      requires Valid() && Map() == map[] && hashOf == hash
      modifies this, index, entries
      ensures Valid()
      ensures ok ==> Represents(Map(), Aggregated(items, apply), notFound) && Folds(Map(), items, apply, notFound)
      ensures !ok ==> logSize == 59
    {
      hide Valid, Map, Folds;
      ok := true;
      var i := 0;
      assert items[..0] == [];
      while i < |items|
        invariant i <= |items| && Valid()
        invariant Represents(Map(), Aggregated(items[..i], apply), notFound)
        invariant (index == old(index) || fresh(index)) && (entries == old(entries) || fresh(entries))
      {
        var (key, value) := items[i];
        var found, pair := Get(key, hashOf(key));
        var expected := if found then pair.value.0 else notFound;
        var desired := apply(if found then Some(pair.value.1) else None, value);
        ok := Set(key, hashOf(key), expected, desired);
        if !ok {
          return;
        }
        assert items[..i + 1][..i] == items[..i];
        i := i + 1;
      }
      assert items[..i] == items;
      RepresentsFolds(Map(), items, apply, notFound);
    }

    // reduce_flush: each entry handed to flush_one, from a start that depends on the thread.
    method Flush(seed: nat) returns (visited: seq<Entry>)
      requires Valid()
      ensures multiset(visited) == multiset(Contents())
      ensures used > 0 ==> visited == Rotated(Contents(), Rem(seed, used))
    {
      hide Placed, Hashed, KeysDiffer;
      visited := [];
      if used == 0 {
        return;
      }
      var start := Rem(seed, used);
      ghost var es := Contents();
      var i := 0;
      while i < used
        invariant i == |visited| <= used
        invariant forall j :: 0 <= j < i ==> visited[j] == es[Wrap(start + j, used)]
      {
        WrapIsRem(start + i, used);
        var ix := Rem(start + i, used);
        visited := visited + [entries[ix].value];
        i := i + 1;
      }
      assert visited == Rotated(es, start);
      RotatedVisitsOnce(es, start);
    }

    method Update(e: nat, key: Key, h: nat, expected: Value, desired: Value)
      requires Valid() && h == hash(key) && FoundAt(Contents(), key, Some(e)) && used <= index.Length * 2 / 3
      modifies entries
      ensures Valid() && SetsTo(old(Contents()), Contents(), key, h, expected, desired)
    {
      ghost var es := Contents();
      entries[e] := Some(entries[e].value.(expected := expected, desired := desired));
      assert Contents() == es[e := es[e].(expected := expected, desired := desired)];
      UpdatePlaced(index[..], es, slots, e, Contents()[e]);
    }

    method Insert(key: Key, h: nat, expected: Value, desired: Value)
      requires Valid() && h == hash(key) && FoundAt(Contents(), key, None) && used <= index.Length * 2 / 3
      modifies this, index, entries
      ensures Valid() && SetsTo(old(Contents()), Contents(), key, h, expected, desired)
      ensures index == old(index) && entries == old(entries)
    {
      hide Placed, Hashed, KeysDiffer;
      ghost var es := Contents();
      var ix := ProbeEmpty(index, h, es, slots);
      ghost var e := Entry(h, key, expected, desired);
      Inserted(index[..], es, slots, e, ix);
      index[ix] := used;
      entries[used] := Some(Entry(h, key, expected, desired));
      used := used + 1;
      slots := slots + [ix];
      assert Contents() == es + [e];
      Appended(es, e, hash);
    }
  }

  // Rehash all entries, into an empty index.
  method Rehash(entries: array<Option<Entry>>, used: nat, ghost es: seq<Entry>, newIndex: array<nat>,
      newEntries: array<Option<Entry>>)
    returns (ghost newSlots: seq<nat>)
    requires used == |es| < newIndex.Length == newEntries.Length && used <= entries.Length && used < EMPTY_ENTRY
    requires forall j :: 0 <= j < used ==> entries[j] == Some(es[j])
    requires forall p :: 0 <= p < newIndex.Length ==> newIndex[p] == EMPTY_ENTRY
    requires newEntries != entries
    modifies newIndex, newEntries
    ensures forall j :: 0 <= j < used ==> newEntries[j] == Some(es[j])
    ensures Placed(newIndex[..], es, newSlots)
  {
    hide Placed;
    newSlots := [];
    EmptyPlaced(newIndex[..]);
    var i: nat := 0;
    assert es[..0] == [];
    while i < used
      invariant i <= used
      invariant forall j :: 0 <= j < used ==> entries[j] == Some(es[j])
      invariant forall j :: 0 <= j < i ==> newEntries[j] == Some(es[j])
      invariant Placed(newIndex[..], es[..i], newSlots)
    {
      var ix := ProbeEmpty(newIndex, entries[i].value.hash, es[..i], newSlots);
      Inserted(newIndex[..], es[..i], newSlots, es[i], ix);
      ghost var was := newIndex[..];
      newIndex[ix] := i;
      assert newIndex[..] == was[ix := i];
      newEntries[i] := entries[i];
      newSlots := newSlots + [ix];
      assert es[..i + 1] == es[..i] + [es[i]];
      i := i + 1;
    }
    assert es[..used] == es;
  }

  method FillEmpty(index: array<nat>)
    modifies index
    ensures forall p :: 0 <= p < index.Length ==> index[p] == EMPTY_ENTRY
  {
    var i := 0;
    while i < index.Length
      invariant i <= index.Length
      invariant forall p :: 0 <= p < i ==> index[p] == EMPTY_ENTRY
    {
      index[i] := EMPTY_ENTRY;
      i := i + 1;
    }
  }

  // The linear probe for an empty slot, in set and in resize.
  method ProbeEmpty(index: array<nat>, h: nat, ghost es: seq<Entry>, ghost slots: seq<nat>) returns (ix: nat)
    requires Placed(index[..], es, slots) && |es| < index.Length
    ensures ix < index.Length && index[ix] == EMPTY_ENTRY
    ensures var w := HomeOf(h, index.Length); Taken(index[..], w, Gap(w, ix, index.Length))
  {
    hide Placed;
    var n := index.Length;
    ix := HomeOf(h, n);
    ghost var w, k := ix, 0;
    ghost var idx := index[..];
    while index[ix] != EMPTY_ENTRY
      invariant k < n && ix == Wrap(w + k, n) && Taken(idx, w, k)
      decreases n - k
    {
      TakenOne(idx, es, slots, w, k);
      ix := Wrap(ix + 1, n);
      k := k + 1;
    }
    assert Gap(w, ix, n) == k;
  }

  lemma TakenOne(idx: seq<nat>, es: seq<Entry>, slots: seq<nat>, w: nat, k: nat)
    requires Placed(idx, es, slots) && |es| < |idx| && w < |idx| && k < |idx| && Taken(idx, w, k)
    requires idx[Wrap(w + k, |idx|)] != EMPTY_ENTRY
    ensures Taken(idx, w, k + 1) && k + 1 < |idx|
  {
    var n := |idx|;
    forall p | 0 <= p < n && Gap(w, p, n) < k + 1
      ensures idx[p] != EMPTY_ENTRY
    {
      if Gap(w, p, n) == k {
        assert p == Wrap(w + k, n);
      }
    }
    HasRoom(idx, es, slots);
    var p :| 0 <= p < n && idx[p] == EMPTY_ENTRY;
    assert Gap(w, p, n) >= k + 1;
  }

  lemma EmptyPlaced(idx: seq<nat>)
    requires |idx| > 0 && forall p :: 0 <= p < |idx| ==> idx[p] == EMPTY_ENTRY
    ensures Placed(idx, [], [])
  {
    Pow2Add(63, 1);
  }

  lemma UpdatePlaced(idx: seq<nat>, es: seq<Entry>, slots: seq<nat>, e: nat, x: Entry)
    requires Placed(idx, es, slots) && e < |es| && x.hash == es[e].hash
    ensures Placed(idx, es[e := x], slots)
  {
    forall i | 0 <= i < |es|
      ensures PlacedAt(idx, es[e := x][i].hash, slots[i], i)
    {
      assert PlacedAt(idx, es[i].hash, slots[i], i);
    }
  }

  function Written(cells: seq<Option<Entry>>): (es: seq<Entry>)
    requires forall i :: 0 <= i < |cells| ==> cells[i].Some?
    ensures |es| == |cells| && forall i :: 0 <= i < |cells| ==> es[i] == cells[i].value
  {
    if cells == [] then [] else Written(cells[..|cells| - 1]) + [cells[|cells| - 1].value]
  }

  lemma TableSizes(log: nat)
    requires MIN_LOG_SIZE <= log < 60
    ensures 128 <= Pow2(log) < EMPTY_ENTRY / 4
  {
    Pow2Monotone(7, log);
    Pow2Monotone(log, 59);
    Pow2Add(59, 5);
  }
}
