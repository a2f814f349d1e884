// AtomicDict_init with an initial dict (atomic_dict.c): its entries are numbered from 1 and inserted by
// unsafe_insert into an empty index. What it leaves is where DictMachine starts.
module DictInit {
  import opened Arith
  import opened NodeCodec
  import opened Options
  import opened MapSpec
  import opened ProbeIndex
  import opened DictMachine
  import opened DictInvariant

  datatype Item = Item(key: Key, value: Value)

  predicate DistinctKeys(items: seq<Item>) {
    forall i, j :: 0 <= i < j < |items| ==> items[i].key != items[j].key
  }

  function MapOf(items: seq<Item>): map<Key, Value> {
    if items == [] then map[] else MapOf(items[..|items| - 1])[items[|items| - 1].key := items[|items| - 1].value]
  }

  // The entry of each key: its place in the dict's order.
  function PlacesOf(items: seq<Item>): map<Key, nat> {
    if items == [] then map[] else PlacesOf(items[..|items| - 1])[items[|items| - 1].key := |items|]
  }

  function EntryOf(c: Config, item: Item): Entry {
    Entry(item.key, c.hash(item.key), Some(item.value))
  }

  function EntriesOf(c: Config, items: seq<Item>): map<nat, Entry> {
    if items == [] then map[] else EntriesOf(c, items[..|items| - 1])[|items| := EntryOf(c, items[|items| - 1])]
  }

  lemma {:induction false} KeyOfItem(items: seq<Item>, k: Key)
    requires k in MapOf(items)
    ensures exists i :: 0 <= i < |items| && items[i].key == k
  {
    var n := |items| - 1;
    if k != items[n].key {
      KeyOfItem(items[..n], k);
      var i :| 0 <= i < n && items[..n][i].key == k;
      assert items[i].key == k;
    }
  }

  // The map holds the value of every item, and nothing else; and each item has the entry of its number.
  lemma {:induction false} ItemsHeld(c: Config, items: seq<Item>, i: nat)
    requires DistinctKeys(items) && i < |items|
    ensures items[i].key in MapOf(items) && MapOf(items)[items[i].key] == items[i].value
    ensures items[i].key in PlacesOf(items) && PlacesOf(items)[items[i].key] == i + 1
    ensures i + 1 in EntriesOf(c, items)
    ensures EntriesOf(c, items)[i + 1] == Entry(items[i].key, c.hash(items[i].key), Some(items[i].value))
  {
    var n := |items| - 1;
    if i < n {
      ItemsHeld(c, items[..n], i);
      EntryNumbers(c, items[..n]);
      assert items[i].key != items[n].key;
    }
  }

  // One more entry for a new key.
  lemma StoresMore(c: Config, entries: map<nat, Entry>, at: map<Key, nat>, m: map<Key, Value>, item: Item)
    requires Stores(c, entries, at, m) && item.key !in m
    ensures |m[item.key := item.value]| == |m| + 1
    ensures Stores(c, entries[|m| + 1 := EntryOf(c, item)], at[item.key := |m| + 1], m[item.key := item.value])
  {
    StoredSize(m, item.key, item.value);
  }

  lemma {:induction false} ItemsStored(c: Config, items: seq<Item>)
    requires DistinctKeys(items)
    ensures Stores(c, EntriesOf(c, items), PlacesOf(items), MapOf(items)) && |MapOf(items)| == |items|
  {
    if items != [] {
      hide Stores;
      var n := |items| - 1;
      ItemsStored(c, items[..n]);
      if items[n].key in MapOf(items[..n]) {
        KeyOfItem(items[..n], items[n].key);
        assert false;
      }
      StoresMore(c, EntriesOf(c, items[..n]), PlacesOf(items[..n]), MapOf(items[..n]), items[n]);
    }
  }

  // The dict once it is filled, with some threads registered.
  function Filled(c: Config, items: seq<Item>, index: seq<Slot>, log: nat, threads: nat): State {
    State([Meta(log, index, None, FilledBy(index))], EntriesOf(c, items), map[], seq(threads, _ => None),
          seq(threads, _ => Thread(Idle, 0, None)), |items|, seq(threads, _ => 0), EntriesOf(c, items).Keys,
          PlacesOf(items), MapOf(items), [MapOf(items)])
  }

  // The dict has the items' keys, and each has its item's value, in the map and in the entry of the key.
  ghost predicate HoldsItems(items: seq<Item>, s: State) {
    && (forall i :: 0 <= i < |items| ==> Has(s, items[i]))
    && (forall k :: k in s.abs ==> exists i :: 0 <= i < |items| && items[i].key == k)
    && |s.abs| == |items| == s.len
  }

  ghost predicate Has(s: State, item: Item) {
    && item.key in s.abs && s.abs[item.key] == item.value
    && item.key in s.at && s.at[item.key] in s.entries
    && s.entries[s.at[item.key]].key == item.key && s.entries[s.at[item.key]].value == Some(item.value)
  }

  lemma FilledHolds(c: Config, items: seq<Item>, index: seq<Slot>, log: nat, threads: nat)
    requires DistinctKeys(items)
    ensures HoldsItems(items, Filled(c, items, index, log, threads))
  {
    var s := Filled(c, items, index, log, threads);
    forall i | 0 <= i < |items|
      ensures Has(s, items[i])
    {
      ItemsHeld(c, items, i);
    }
    forall k | k in s.abs
      ensures exists i :: 0 <= i < |items| && items[i].key == k
    {
      KeyOfItem(items, k);
    }
    ItemsStored(c, items);
  }

  // Fewer entries than slots leave a slot empty.
  lemma RoomLeft(index: seq<Slot>, log: nat, rehash: nat -> nat, n: nat)
    requires Numbered(index, log, rehash, n) && n < |index|
    ensures HasEmpty(index)
  {
    forall p | 0 <= p < |index| && index[p].Node?
      ensures 1 <= index[p].index <= n
    {
      assert index[p].index in Locations(index);
    }
    forall p, q | 0 <= p < q < |index| && index[p].Node? && index[q].Node?
      ensures index[p].index != index[q].index
    {
      assert !Clash(index, p, q);
    }
    if !HasEmpty(index) {
      var i, j := Pigeonhole(seq(|index|, p requires 0 <= p < |index| => index[p].index - 1), n);
      assert false;
    }
  }

  // Filling succeeds whenever the index has more slots than the dict has keys, and it leaves a state in which
  // DictMachine starts, with the initial dict as its map and its length as self->len.
  method Fill(c: Config, items: seq<Item>, index: array<Slot>, log: nat, threads: nat) returns (filled: bool)
    requires GoodConfig(c) && DistinctKeys(items) && LogSize(log) && index.Length == Pow2(log) > |items|
    requires forall p :: 0 <= p < index.Length ==> index[p].Empty?
    modifies index
    ensures filled && Init(c, Filled(c, items, index[..], log, threads))
    ensures HoldsItems(items, Filled(c, items, index[..], log, threads))
  {
    hide WellFormed, HasEmpty, Stores;
    var rehash := Rehashed(EntriesOf(c, items), c.rehash);
    var pos := 0;
    EmptyWellFormed(index[..], log, rehash);
    while pos < |items|
      invariant pos <= |items| && Numbered(index[..], log, rehash, pos)
    {
      pos := pos + 1;
      HomeInRange(rehash(pos), log);
      filled := UnsafeInsert(index, log, rehash, pos);
      if !filled {
        RoomLeft(index[..], log, rehash, pos - 1);
        assert false;
      }
    }
    filled := true;
    FilledInit(c, items, index[..], log, threads);
    FilledHolds(c, items, index[..], log, threads);
  }

  // An index of the entries 1, 2, ..., n.
  ghost predicate Numbered(index: seq<Slot>, log: nat, rehash: nat -> nat, n: nat) {
    && WellFormed(index, log, rehash) && (forall x :: x in Locations(index) <==> 1 <= x <= n)
    && forall p :: 0 <= p < |index| ==> !index[p].Tombstone?
  }

  lemma EmptyWellFormed(index: seq<Slot>, log: nat, rehash: nat -> nat)
    requires LogSize(log) && |index| == Pow2(log) && forall p :: 0 <= p < |index| ==> index[p].Empty?
    ensures Numbered(index, log, rehash, 0)
  {
  }

  lemma {:induction false} EntryNumbers(c: Config, items: seq<Item>)
    ensures forall x :: x in EntriesOf(c, items) <==> 1 <= x <= |items|
  {
    if items != [] {
      EntryNumbers(c, items[..|items| - 1]);
    }
  }

  lemma FilledInit(c: Config, items: seq<Item>, index: seq<Slot>, log: nat, threads: nat)
    requires DistinctKeys(items) && |items| < Pow2(log) && LogSize(log) && |index| == Pow2(log)
    requires Numbered(index, log, Rehashed(EntriesOf(c, items), c.rehash), |items|)
    ensures Init(c, Filled(c, items, index, log, threads))
  {
    hide WellFormed, Stores;
    ItemsStored(c, items);
    EntryNumbers(c, items);
    assert Locations(index) == EntriesOf(c, items).Keys;
  }
}
