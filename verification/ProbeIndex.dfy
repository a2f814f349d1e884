// The open-addressed index: parsed words, the linear-probing invariant, and the source's probe loops
// (lookup.c, node_ops.c, unsafe_insert in atomic_dict.c).
module ProbeIndex {
  import opened Arith
  import opened NodeCodec
  import opened Options
  import opened MapSpec

  // An index word after parse_node_from_raw. A tombstone is a non-zero word of index 0.
  datatype Slot = Empty | Tombstone | Node(index: nat, tag: nat, distance: nat)

  // An entry of a page. Its value is None once the key has been deleted.
  datatype Entry = Entry(key: Key, hash: nat, value: Option<Value>)

  function WordOf(s: Slot, log: nat): nat
    requires LogSize(log)
  {
    match s
    case Empty => 0
    case Tombstone => Encode(0, TombstoneTag(log), 0, log)
    case Node(index, tag, distance) => Encode(index, tag, distance, log)
  }

  function SlotOf(raw: nat, log: nat): Slot
    requires LogSize(log)
  {
    if IsEmptyWord(raw) then Empty
    else if IsTombstoneWord(raw, log) then Tombstone
    else Node(IndexOf(raw, log), TagOf(raw, log), DistanceOf(raw))
  }

  // What write_node_at leaves in the index, as the next read_node_at parses it.
  function Stored(s: Slot, log: nat): Slot
    requires LogSize(log)
  {
    match s
    case Node(index, tag, distance) => Node(index, MaskTag(tag, log), Saturate(distance))
    case _ => s
  }

  // Working on parsed words loses nothing: reading back a written node parses to its stored form.
  lemma SlotWordRoundTrip(s: Slot, log: nat)
    requires LogSize(log) && (s.Node? ==> 1 <= s.index < Pow2(log))
    ensures SlotOf(WordOf(s, log), log) == Stored(s, log)
    ensures WordOf(Stored(s, log), log) == WordOf(s, log) < Word64()
  {
    TombstoneWord(log);
    SpanTimesSize(log);
    match s {
      case Empty =>
      case Tombstone => ParseEncode(0, TombstoneTag(log), 0, log);
        SpanTimesSize(log);
      case Node(index, tag, distance) =>
        WordKinds(index, tag, distance, log);
        ParseEncode(index, tag, distance, log);
        MaskTagIdempotent(tag, log);
    }
  }

  // ---- the linear-probing invariant ----

  // The k slots from w on are not empty.
  ghost predicate PathFull(idx: seq<Slot>, w: nat, k: nat)
    requires w < |idx|
  {
    forall p :: 0 <= p < |idx| && Gap(w, p, |idx|) < k ==> !idx[p].Empty?
  }

  // `rehash(x)` is REHASH of the hash kept in entry x.
  ghost predicate NodeFits(idx: seq<Slot>, log: nat, rehash: nat -> nat, p: nat)
    requires LogSize(log) && |idx| == Pow2(log) && p < |idx| && idx[p].Node?
  {
    var x := idx[p].index;
    && 1 <= x < Pow2(log)
    && idx[p].tag == MaskTag(rehash(x), log)
    && Home(rehash(x), log) < |idx|
    && var g := Gap(Home(rehash(x), log), p, |idx|);
       idx[p].distance == Saturate(g) && PathFull(idx, Home(rehash(x), log), g)
  }

  ghost predicate Clash(idx: seq<Slot>, p: nat, q: nat) {
    p < q < |idx| && idx[p].Node? && idx[q].Node? && idx[p].index == idx[q].index
  }

  ghost predicate Distinct(idx: seq<Slot>) {
    forall p, q :: !Clash(idx, p, q)
  }

  ghost predicate HasEmpty(idx: seq<Slot>) {
    exists p :: 0 <= p < |idx| && idx[p].Empty?
  }

  ghost predicate WellFormed(idx: seq<Slot>, log: nat, rehash: nat -> nat) {
    && LogSize(log)
    && |idx| == Pow2(log)
    && Distinct(idx)
    && forall p {:trigger NodeFits(idx, log, rehash, p)} ::
         0 <= p < |idx| && idx[p].Node? ==> NodeFits(idx, log, rehash, p)
  }

  // The entries that an index makes reachable.
  function Locations(idx: seq<Slot>): set<nat> {
    set p | 0 <= p < |idx| && idx[p].Node? :: idx[p].index
  }

  // A probe that starts at a node's home and stops at the first empty slot passes over the node.
  lemma ProbeMeetsNode(idx: seq<Slot>, log: nat, rehash: nat -> nat, p: nat, k: nat)
    requires LogSize(log) && |idx| == Pow2(log) && p < |idx| && idx[p].Node? && NodeFits(idx, log, rehash, p)
    requires k < |idx| && idx[Wrap(Home(rehash(idx[p].index), log) + k, |idx|)].Empty?
    ensures Gap(Home(rehash(idx[p].index), log), p, |idx|) < k
  {
    var w := Home(rehash(idx[p].index), log);
    var g := Gap(w, p, |idx|);
    GapOfWrap(w, k, |idx|);
  }

  // ---- lookup ----

  ghost predicate Holds(entries: map<nat, Entry>, x: nat, key: Key) {
    x in entries && entries[x].key == key && entries[x].value.Some?
  }

  // Equal keys have equal hashes, and every reachable entry carries its key's hash.
  ghost predicate Hashed(idx: seq<Slot>, entries: map<nat, Entry>, hash: Key -> nat) {
    forall x :: x in Locations(idx) ==> x in entries && entries[x].hash == hash(entries[x].key)
  }

  ghost predicate Matches(idx: seq<Slot>, entries: map<nat, Entry>, key: Key, p: nat) {
    p < |idx| && idx[p].Node? && Holds(entries, idx[p].index, key)
  }

  function RehashOf(entries: map<nat, Entry>, rehash: nat -> nat, x: nat): nat {
    if x in entries then rehash(entries[x].hash) else 0
  }

  function Rehashed(entries: map<nat, Entry>, rehash: nat -> nat): nat -> nat {
    (x: nat) => RehashOf(entries, rehash, x)
  }

  // A slot that holds the key carries the key's tag and has the key's home.
  lemma KeyLocated(idx: seq<Slot>, log: nat, entries: map<nat, Entry>, hash: Key -> nat, rehash: nat -> nat,
      key: Key, p: nat)
    requires WellFormed(idx, log, Rehashed(entries, rehash)) && Hashed(idx, entries, hash)
    ensures Matches(idx, entries, key, p) ==>
              && NodeFits(idx, log, Rehashed(entries, rehash), p)
              && Rehashed(entries, rehash)(idx[p].index) == rehash(hash(key))
              && entries[idx[p].index].hash == hash(key)
              && idx[p].tag == MaskTag(rehash(hash(key)), log)
  {
    if Matches(idx, entries, key, p) {
      assert NodeFits(idx, log, Rehashed(entries, rehash), p);
      assert idx[p].index in Locations(idx);
    }
  }

  // lookup: the probe loop. It finds the key exactly when some reachable live entry holds it.
  method Lookup(index: array<Slot>, log: nat, entries: map<nat, Entry>, hash: Key -> nat, rehash: nat -> nat, key: Key)
    returns (found: bool, position: nat)
    requires WellFormed(index[..], log, Rehashed(entries, rehash)) && Hashed(index[..], entries, hash)
    requires Home(rehash(hash(key)), log) < Pow2(log)
    ensures found ==> Matches(index[..], entries, key, position)
    ensures !found ==> forall p :: !Matches(index[..], entries, key, p)
  {
    var n := index.Length;
    var h := rehash(hash(key));
    var d0 := Home(h, log);
    var distance := 0;
    ghost var idx := index[..];
    while distance < n
      invariant distance <= n
      invariant forall p :: 0 <= p < n && Gap(d0, p, n) < distance ==> !Matches(idx, entries, key, p)
    {
      position := Wrap(d0 + distance, n);
      var node := index[position];
      if node.Empty? {
        forall p | Matches(idx, entries, key, p)
          ensures false
        {
          assert node == idx[position];
          KeyLocated(idx, log, entries, hash, rehash, key, p);
          ProbeMeetsNode(idx, log, Rehashed(entries, rehash), p, distance);
        }
        return false, 0;
      }
      if node.Node? && node.tag == MaskTag(h, log) {
        assert node == idx[position] && node.index in Locations(idx);
        var entry := entries[node.index];
        if entry.value.Some? && entry.hash == hash(key) && entry.key == key {
          return true, position;
        }
      }
      KeyLocated(idx, log, entries, hash, rehash, key, position);
      distance := distance + 1;
    }
    return false, 0;
  }

  // ---- unsafe_insert ----

  // The single-threaded insertion of a new location: it keeps the probing invariant and adds exactly
  // that location, unless every slot is taken.
  method UnsafeInsert(index: array<Slot>, log: nat, rehash: nat -> nat, pos: nat) returns (inserted: bool)
    requires WellFormed(index[..], log, rehash) && 1 <= pos < Pow2(log) && pos !in Locations(index[..])
    requires Home(rehash(pos), log) < Pow2(log)
    modifies index
    ensures inserted ==> WellFormed(index[..], log, rehash)
    ensures inserted ==> Locations(index[..]) == old(Locations(index[..])) + {pos}
    ensures !inserted ==> index[..] == old(index[..]) && !HasEmpty(index[..])
    ensures forall p :: 0 <= p < index.Length && index[p].Tombstone? ==> old(index[p].Tombstone?)
  {
    var n := index.Length;
    var d0 := Home(rehash(pos), log);
    var distance := 0;
    ghost var was := index[..];
    while distance < n
      invariant distance <= n && index[..] == was
      invariant PathFull(was, d0, distance)
    {
      var ix := Wrap(d0 + distance, n);
      if index[ix].Empty? {
        index[ix] := Stored(Node(pos, rehash(pos), distance), log);
        assert index[..] == was[ix := index[ix]];
        Inserted(was, log, rehash, pos, distance);
        return true;
      }
      distance := distance + 1;
    }
    return false;
  }

  // Filling the first empty slot of a probe keeps the invariant.
  lemma Inserted(idx: seq<Slot>, log: nat, rehash: nat -> nat, x: nat, k: nat)
    requires WellFormed(idx, log, rehash) && 1 <= x < Pow2(log) && x !in Locations(idx)
    requires Home(rehash(x), log) < |idx| && k < |idx| && PathFull(idx, Home(rehash(x), log), k)
    requires idx[Wrap(Home(rehash(x), log) + k, |idx|)].Empty?
    ensures var ix := Wrap(Home(rehash(x), log) + k, |idx|);
            var idx' := idx[ix := Stored(Node(x, rehash(x), k), log)];
            WellFormed(idx', log, rehash) && Locations(idx') == Locations(idx) + {x}
  {
    var n := |idx|;
    var w := Home(rehash(x), log);
    var ix := Wrap(w + k, n);
    var idx' := idx[ix := Stored(Node(x, rehash(x), k), log)];
    GapOfWrap(w, k, n);
    LocationsAdd(idx, ix, idx'[ix]);
    forall p | 0 <= p < n && idx'[p].Node?
      ensures NodeFits(idx', log, rehash, p)
    {
      if p == ix {
        PathFullKept(idx, idx', w, k);
      } else {
        assert NodeFits(idx, log, rehash, p);
        var u := Home(rehash(idx[p].index), log);
        PathFullKept(idx, idx', u, Gap(u, p, n));
      }
    }
  }

  lemma PathFullKept(idx: seq<Slot>, idx': seq<Slot>, w: nat, k: nat)
    requires |idx| == |idx'| && w < |idx| && PathFull(idx, w, k)
    requires forall p :: 0 <= p < |idx| && !idx[p].Empty? ==> !idx'[p].Empty?
    ensures PathFull(idx', w, k)
  {
  }

  lemma LocationsAdd(idx: seq<Slot>, ix: nat, s: Slot)
    requires ix < |idx| && !idx[ix].Node? && s.Node? && s.index !in Locations(idx) && Distinct(idx)
    ensures Locations(idx[ix := s]) == Locations(idx) + {s.index}
    ensures Distinct(idx[ix := s])
  {
    var idx' := idx[ix := s];
    forall p | 0 <= p < |idx| && idx[p].Node?
      ensures idx[p].index in Locations(idx) && idx'[p] == idx[p]
    {
    }
    forall p, q
      ensures !Clash(idx', p, q)
    {
      assert !Clash(idx, p, q);
    }
    assert idx'[ix] == s;
    forall y
      ensures y in Locations(idx') <==> y in Locations(idx) + {s.index}
    {
      if y in Locations(idx) {
        var p :| 0 <= p < |idx| && idx[p].Node? && idx[p].index == y;
        assert idx'[p] == idx[p];
      }
    }
  }
}
