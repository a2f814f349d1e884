// block_wise_migrate and migrate_nodes on arrays (resize.c:215-429), for one thread at a time.
// The new array starts with arbitrary contents: AtomicDictMeta_New does not clear it.
module BlockMigrate {
  import opened Arith
  import opened NodeCodec
  import opened ProbeIndex
  import opened CellLayout
  import opened Migration

  // The new slots of the cells of old positions [lo, hi) are what the first i positions leave there.
  ghost predicate Shows(new_: seq<Slot>, g: Generation, i: nat, lo: nat, hi: nat)
    requires g.Valid() && |new_| == 2 * g.Size() && i <= 2 * g.Size() && hi <= 2 * g.Size()
  {
    forall q :: 2 * lo <= q < 2 * hi ==> new_[Wrap(q, 2 * g.Size())] == Cells(g, i)[q]
  }

  // Slot p of the new index belongs to the cells of old positions [lo, hi).
  predicate InCells(p: nat, n: nat, lo: nat, hi: nat) {
    2 * lo <= p < 2 * hi || 2 * lo <= p + 2 * n < 2 * hi
  }

  // The live nodes at old positions [lo, hi) of the lap.
  function LiveIn(g: Generation, lo: nat, hi: nat): nat
    requires LogSize(g.log) && LogSize(g.log + 1) && lo <= hi <= 2 * g.Size()
  {
    Puts(Moves(g), lo, hi)
  }

  // All positions of the lap together hold each live node once.
  lemma AllLive(g: Generation)
    requires g.Valid()
    ensures NextEmpty(g, 0) < g.Size()
    ensures LiveIn(g, NextEmpty(g, 0), NextEmpty(g, 0) + g.Size()) == |Locations(g.index)|
  {
    NextEmptyFacts(g);
    MovesFacts(g);
    var ms, z, e := Moves(g), NextEmpty(g, 0), NextEmpty(g, 0) + g.Size();
    NoPuts(ms, 0, z) by { OutsideLap(g, 0, z); }
    NoPuts(ms, e, |ms|) by { OutsideLap(g, e, |ms|); }
    PutsSplit(ms, 0, z, |ms|);
    PutsSplit(ms, z, e, |ms|);
    PutsCount(ms, |ms|);
  }

  lemma OutsideLap(g: Generation, lo: nat, hi: nat)
    requires g.Valid() && lo <= hi <= 2 * g.Size()
    requires hi <= NextEmpty(g, 0) || NextEmpty(g, 0) + g.Size() <= lo
    ensures forall k :: lo <= k < hi ==> Moves(g)[k].Skip?
  {
    forall k | lo <= k < hi
      ensures Moves(g)[k].Skip?
    {
      MoveIs(g, k);
    }
  }

  lemma {:induction false} NoPuts(moves: seq<Move>, lo: nat, hi: nat)
    requires lo <= hi <= |moves| && forall k :: lo <= k < hi ==> moves[k].Skip?
    ensures Puts(moves, lo, hi) == 0
  {
    if lo < hi {
      NoPuts(moves, lo, hi - 1);
    }
  }

  // ---- one node ----

  lemma WrapInjective(n: nat, lo: nat, hi: nat)
    requires hi <= 2 * n && hi - lo <= n
    ensures forall a, b :: lo <= a < b < hi ==> Wrap(a, n) != Wrap(b, n)
  {
  }

  lemma ShowsSkip(new_: seq<Slot>, g: Generation, i: nat, lo: nat, hi: nat)
    requires g.Valid() && |new_| == 2 * g.Size() && i < 2 * g.Size() && hi <= 2 * g.Size()
    requires !g.Laps()[i].Node? && Shows(new_, g, i, lo, hi)
    ensures Shows(new_, g, i + 1, lo, hi)
  {
    MovesFacts(g);
    MoveIs(g, i);
  }

  // What moving the node at position i changes: one slot.
  lemma ShowsWrite(new_: seq<Slot>, g: Generation, i: nat, lo: nat, hi: nat, t: nat)
    requires g.Valid() && |new_| == 2 * g.Size() && InLap(g, i) && lo <= i < hi <= 2 * g.Size() && hi - lo <= g.Size()
    requires g.Laps()[lo].Empty? && Shows(new_, g, i, lo, hi) && g.Laps()[i].Node?
    requires Bounded(Moves(g)) && Moves(g)[i].Put? && t == Target(Moves(g), i)
    ensures var x := g.Laps()[i];
            NewHome(g, i) <= t < 4 * g.Size() &&
            Shows(new_[Wrap(t, 2 * g.Size()) := Stored(Node(x.index, x.tag, t - NewHome(g, i)), g.log + 1)], g,
                i + 1, lo, hi)
  {
    NodeCells(g, i, lo);
    WrapInjective(2 * g.Size(), 2 * lo, 2 * hi);
  }

  // migrate_node's probe. `home` and `t` are the unwrapped home and the first empty slot from it.
  method FirstFree(new_: array<Slot>, d0: nat, ghost home: nat, ghost t: nat) returns (distance: nat)
    requires home <= t < 2 * new_.Length && t - home < new_.Length
    requires d0 < 2 * new_.Length && Wrap(d0, new_.Length) == Wrap(home, new_.Length)
    requires new_[Wrap(t, new_.Length)].Empty?
    requires forall q :: home <= q < t ==> !new_[Wrap(q, new_.Length)].Empty?
    ensures distance == t - home
  {
    distance := 0;
    while distance < new_.Length
      invariant home + distance <= t
    {
      var position := Rem(d0 + distance, new_.Length);
      SamePosition(home, d0, distance, new_.Length);
      if new_[position].Empty? {
        return;
      }
      distance := distance + 1;
    }
  }

  // migrate_node
  method MigrateNode(node: Slot, i: nat, log: nat, rehash: nat -> nat, new_: array<Slot>,
                     ghost g: Generation, ghost lo: nat, ghost hi: nat)
    requires g.Valid() && g.log == log && g.rehash == rehash && new_.Length == 2 * g.Size()
    requires InLap(g, i) && lo <= i < hi <= 2 * g.Size() && hi - lo <= g.Size() && g.Laps()[lo].Empty?
    requires node.Node? && node == g.Laps()[i] && Shows(new_[..], g, i, lo, hi)
    modifies new_
    ensures Shows(new_[..], g, i + 1, lo, hi)
    ensures forall p :: 0 <= p < new_.Length && !InCells(p, g.Size(), lo, hi) ==> new_[p] == old(new_[p])
  {
    ghost var was := new_[..];
    var d0 := MigrateNodeD0(node, i, log, rehash);
    ghost var home, t := ProbeOf(was, g, i, lo, hi, d0);
    var distance := FirstFree(new_, d0, home, t);
    SamePosition(home, d0, distance, new_.Length);
    var position := Rem(d0 + distance, new_.Length);
    new_[position] := Stored(Node(node.index, node.tag, distance), log + 1);
    assert new_[..] == was[position := new_[position]];
  }

  // The probe that moves the node at position i, and what its write leaves.
  lemma ProbeOf(new_: seq<Slot>, g: Generation, i: nat, lo: nat, hi: nat, d0: int) returns (home: nat, t: nat)
    requires g.Valid() && |new_| == 2 * g.Size() && InLap(g, i) && lo <= i < hi <= 2 * g.Size() && hi - lo <= g.Size()
    requires g.Laps()[lo].Empty? && Shows(new_, g, i, lo, hi)
    requires g.Laps()[i].Node? && d0 == MigrateNodeD0(g.Laps()[i], i, g.log, g.rehash)
    ensures 2 * lo + 2 <= home <= t <= 2 * i + 1 && t - home < |new_|
    ensures 0 <= d0 < 2 * |new_| && Wrap(d0, |new_|) == Wrap(home, |new_|)
    ensures new_[Wrap(t, |new_|)].Empty?
    ensures forall q :: home <= q < t ==> !new_[Wrap(q, |new_|)].Empty?
    ensures var x := g.Laps()[i];
            Shows(new_[Wrap(t, |new_|) := Stored(Node(x.index, x.tag, t - home), g.log + 1)], g, i + 1, lo, hi)
  {
    NodeCells(g, i, lo);
    home, t := NewHome(g, i), Target(Moves(g), i);
    ShowsWrite(new_, g, i, lo, hi, t);
    ShortcutHome(g, i, d0);
  }

  lemma SamePosition(home: nat, d0: nat, k: nat, n: nat)
    requires home + k < 2 * n && d0 < 2 * n && Wrap(d0, n) == Wrap(home, n)
    ensures Rem(d0 + k, n) == Wrap(home + k, n)
  {
    var x := home + k;
    if x < n {
      QuoRemUnique(x, n, 0, x);
    } else {
      QuoRemUnique(x, n, 1, x - n);
    }
    var w := Wrap(x, n);
    var q := if d0 == home then (if x < n then 0 else 1)
             else if d0 < home then (if x < n then 0 else if x - n < n then 0 else 1)
             else (if x < n then 1 else 2);
    QuoRemUnique(d0 + k, n, q, w);
  }

  // initialize_in_new_meta: clears the cells of old positions [start, end], wrapping if it must.
  method InitializeInNewMeta(new_: array<Slot>, start: nat, end: nat)
    requires start <= end && 2 * (end + 1) <= 2 * new_.Length
    modifies new_
    ensures forall q :: 2 * start <= q < 2 * (end + 1) ==> new_[Wrap(q, new_.Length)].Empty?
    ensures forall p :: 0 <= p < new_.Length ==> new_[p] == old(new_[p]) || new_[p].Empty?
    ensures forall p :: 0 <= p < new_.Length && new_[p] != old(new_[p]) ==>
              2 * start <= p < 2 * (end + 1) || 2 * start <= p + new_.Length < 2 * (end + 1)
  {
    var mappedStart, mappedEnd := 2 * start, 2 * (end + 1);
    if mappedStart < new_.Length && mappedEnd < new_.Length {
      forall p | mappedStart <= p < mappedEnd {
        new_[p] := Empty;
      }
      return;
    }
    for j := mappedStart to mappedEnd
      invariant forall q :: mappedStart <= q < j ==> new_[Wrap(q, new_.Length)].Empty?
      invariant forall p :: 0 <= p < new_.Length ==> new_[p] == old(new_[p]) || new_[p].Empty?
      invariant forall p :: 0 <= p < new_.Length && new_[p] != old(new_[p]) ==>
                  mappedStart <= p < mappedEnd || mappedStart <= p + new_.Length < mappedEnd
    {
      new_[Wrap(j, new_.Length)] := Empty;
    }
  }

  // Cells freshly cleared show what they hold before anything is moved into them.
  lemma ClearedShows(before: seq<Slot>, after: seq<Slot>, g: Generation, lo: nat, i: nat, hi: nat)
    requires g.Valid() && |before| == |after| == 2 * g.Size() && lo <= i <= hi <= 2 * g.Size() && hi - lo <= g.Size()
    requires Shows(before, g, i, lo, i)
    requires forall q :: 2 * i <= q < 2 * hi ==> after[Wrap(q, 2 * g.Size())].Empty?
    requires forall p :: 0 <= p < |after| && after[p] != before[p] ==> InCells(p, g.Size(), i, hi) || after[p].Empty?
    requires forall q :: 2 * lo <= q < 2 * i ==> after[Wrap(q, 2 * g.Size())] == before[Wrap(q, 2 * g.Size())]
    ensures Shows(after, g, i, lo, hi)
  {
    MovesFacts(g);
    Frontier(Moves(g), i);
  }

  // Up to an empty old slot, what a block has moved is the final content.
  lemma ShowsFinal(new_: seq<Slot>, g: Generation, lo: nat, e: nat)
    requires g.Valid() && |new_| == 2 * g.Size() && NextEmpty(g, 0) <= lo <= e <= NextEmpty(g, 0) + g.Size()
    requires e < 2 * g.Size() && g.Laps()[e].Empty? && Shows(new_, g, e, lo, e)
    ensures forall p :: 0 <= p < |new_| && InCells(p, g.Size(), lo, e) ==> new_[p] == NewIndex(g)[p]
  {
    EmptySeparates(g, e, 2 * g.Size());
    forall p | 0 <= p < |new_| && InCells(p, g.Size(), lo, e)
      ensures new_[p] == NewIndex(g)[p]
    {
      var q := if 2 * lo <= p < 2 * e then p else p + 2 * g.Size();
      assert Wrap(q, 2 * g.Size()) == p;
    }
  }

  // The cell of an old empty slot is final once it is cleared.
  lemma ClearedFinal(g: Generation, e: nat, p: nat)
    requires g.Valid() && NextEmpty(g, 0) <= e <= NextEmpty(g, 0) + g.Size() && p < 2 * g.Size()
    requires e < 2 * g.Size() && g.Laps()[e].Empty? && InCells(p, g.Size(), e, e + 1)
    ensures NewIndex(g)[p].Empty?
  {
    EmptySeparates(g, e, 2 * g.Size());
    if p == 2 * NextEmpty(g, 0) || p == 2 * NextEmpty(g, 0) + 1 {
      BeforeLap(g, p);
    }
  }

  function Min(a: nat, b: nat): nat { if a < b then a else b }

  // A block touches the cells from its first empty slot to the first empty slot at or after its end,
  // and the end's own cell even when the end is empty. A block without an empty slot touches none.
  function Reach(g: Generation, start: nat, end: nat): (hi: nat)
    requires start <= end <= g.Size() && 0 < g.Size()
    ensures NextEmpty(g, end) <= hi <= 2 * g.Size()
  {
    if NextEmpty(g, start) < end == NextEmpty(g, end) then end + 1 else NextEmpty(g, end)
  }

  // What a block call owes: every slot it touches has its final content, whatever the new array held
  // before, and no other slot has changed.
  ghost predicate BlockDone(before: seq<Slot>, after: seq<Slot>, g: Generation, start: nat, end: nat)
    requires g.Valid() && |before| == |after| == 2 * g.Size() && start <= end <= g.Size()
  {
    var f, hi := NextEmpty(g, start), Reach(g, start, end);
    && (forall p :: 0 <= p < |after| && InCells(p, g.Size(), f, hi) ==> after[p] == NewIndex(g)[p])
    && (forall p :: 0 <= p < |after| && !InCells(p, g.Size(), f, hi) ==> after[p] == before[p])
  }

  lemma BlockRange(g: Generation, start: nat, end: nat)
    requires g.Valid() && start <= end <= g.Size()
    ensures NextEmpty(g, 0) <= NextEmpty(g, start) <= NextEmpty(g, end) <= NextEmpty(g, 0) + g.Size() < 2 * g.Size()
    ensures end <= NextEmpty(g, start) ==> NextEmpty(g, start) == NextEmpty(g, end)
  {
    NextEmptyFacts(g);
    NextEmptyMonotone(g, 0, start);
    NextEmptyMonotone(g, start, end);
    NextEmptyMonotone(g, end, g.Size());
  }

  // block_wise_migrate
  method BlockWiseMigrate(old_: array<Slot>, new_: array<Slot>, log: nat, rehash: nat -> nat, start: nat, block: nat,
                          ghost g: Generation)
    returns (count: nat)
    requires old_ != new_ && g == Generation(old_[..], log, rehash) && g.Valid() && new_.Length == 2 * old_.Length
    requires start < old_.Length && block >= 1
    modifies new_
    ensures BlockDone(old(new_[..]), new_[..], g, start, Min(start + block, old_.Length))
    ensures NextEmpty(g, start) <= NextEmpty(g, Min(start + block, old_.Length))
    ensures count == LiveIn(g, NextEmpty(g, start), NextEmpty(g, Min(start + block, old_.Length)))
  {
    var n := old_.Length;
    var end := Min(start + block, n);
    BlockRange(g, start, end);
    // find first empty slot
    var i := start;
    while i < end && !old_[i].Empty?
      invariant start <= i <= end
      invariant forall k :: start <= k < i ==> !g.Laps()[k].Empty?
    {
      assert g.Laps()[i] == old_[i];
      i := i + 1;
    }
    if i >= end {
      return 0;
    }
    assert g.Laps()[i] == old_[i];
    FirstEmptyIs(g.Laps(), start, i);
    count := MigrateFrom(old_, new_, log, rehash, i, end, g);
    assert NextEmpty(g, start) == NextEmpty(g, i);
    assert Reach(g, start, end) == Reach(g, i, end);
  }

  // block_wise_migrate once the block's first empty slot f is known.
  method MigrateFrom(old_: array<Slot>, new_: array<Slot>, log: nat, rehash: nat -> nat, f: nat, end: nat,
                     ghost g: Generation)
    returns (count: nat)
    requires old_ != new_ && g == Generation(old_[..], log, rehash) && g.Valid() && new_.Length == 2 * old_.Length
    requires f < end <= old_.Length && old_[f].Empty?
    modifies new_
    ensures BlockDone(old(new_[..]), new_[..], g, f, end)
    ensures NextEmpty(g, f) == f <= NextEmpty(g, end)
    ensures count == LiveIn(g, f, NextEmpty(g, end))
  {
    var n := old_.Length;
    ghost var last := NextEmpty(g, end);
    assert g.Laps()[f] == old_[f];
    FirstEmptyIs(g.Laps(), f, f);
    BlockRange(g, f, end);
    InitializeInNewMeta(new_, f, end);
    ghost var cleared := new_[..];
    ClearedShows(cleared, cleared, g, f, f, end);
    count := MigrateSpan(old_, new_, log, rehash, f, f, end, end, 0, g);
    ghost var before := new_[..];
    count := MigrateTrailing(old_, new_, log, rehash, f, end, count, g);
    ShowsFinal(new_[..], g, f, last);
    forall p | 0 <= p < new_.Length && InCells(p, n, f, Reach(g, f, end)) && !InCells(p, n, f, last)
      ensures new_[p] == NewIndex(g)[p]
    {
      assert last == end && cleared[p].Empty? by {
        assert InCells(p, n, end, end + 1);
        assert cleared[Wrap(if 2 * end <= p < 2 * end + 2 then p else p + 2 * n, 2 * n)].Empty?;
      }
      ClearedFinal(g, end, p);
    }
  }

  // The cluster that runs past the block's end, possibly wrapping.
  method MigrateTrailing(old_: array<Slot>, new_: array<Slot>, log: nat, rehash: nat -> nat,
                         ghost f: nat, end: nat, soFar: nat, ghost g: Generation)
    returns (count: nat)
    requires old_ != new_ && g == Generation(old_[..], log, rehash) && g.Valid() && new_.Length == 2 * old_.Length
    requires NextEmpty(g, 0) <= f <= end <= old_.Length && g.Laps()[f].Empty?
    requires Shows(new_[..], g, end, f, end) && soFar == LiveIn(g, f, end)
    modifies new_
    ensures NextEmpty(g, end) < 2 * g.Size()
    ensures Shows(new_[..], g, NextEmpty(g, end), f, NextEmpty(g, end)) && count == LiveIn(g, f, NextEmpty(g, end))
    ensures forall p :: 0 <= p < new_.Length && !InCells(p, g.Size(), f, NextEmpty(g, end)) ==> new_[p] == old(new_[p])
  {
    var n := old_.Length;
    ghost var last := NextEmpty(g, end);
    BlockRange(g, f, end);
    count := soFar;
    var j := end;
    while !old_[Wrap(j, n)].Empty?
      invariant end <= j <= last
      invariant forall k :: end <= k < j ==> !g.Laps()[k].Empty?
      decreases last - j
    {
      assert g.Laps()[j] == old_[Wrap(j, n)];
      j := j + 1;
    }
    assert j == last;
    if j > end {
      ghost var before := new_[..];
      LapLength(g, f, end);
      InitializeInNewMeta(new_, end, j - 1);
      TrailingCleared(before, new_[..], g, f, end, j);
      count := MigrateSpan(old_, new_, log, rehash, f, end, j, j, count, g);
    }
  }

  lemma LapLength(g: Generation, f: nat, end: nat)
    requires g.Valid() && NextEmpty(g, 0) <= f <= end <= g.Size()
    ensures NextEmpty(g, end) - f <= g.Size()
  {
    BlockRange(g, f, end);
  }

  // The trailing clear erases nothing that the block has moved.
  lemma TrailingCleared(before: seq<Slot>, after: seq<Slot>, g: Generation, f: nat, end: nat, j: nat)
    requires g.Valid() && |before| == |after| == 2 * g.Size() && f <= end < j <= 2 * g.Size() && j - f <= g.Size()
    requires Shows(before, g, end, f, end)
    requires forall q :: 2 * end <= q < 2 * j ==> after[Wrap(q, 2 * g.Size())].Empty?
    requires forall p :: 0 <= p < |after| && after[p] != before[p] ==> InCells(p, g.Size(), end, j)
    ensures Shows(after, g, end, f, j)
  {
    WrapInjective(2 * g.Size(), 2 * f, 2 * j);
    ClearedShows(before, after, g, f, end, j);
  }

  // The loop over positions [from, to) whose cells, up to hi, are already cleared.
  method MigrateSpan(old_: array<Slot>, new_: array<Slot>, log: nat, rehash: nat -> nat,
                     ghost f: nat, from: nat, to: nat, ghost hi: nat, soFar: nat, ghost g: Generation)
    returns (count: nat)
    requires old_ != new_ && g == Generation(old_[..], log, rehash) && g.Valid() && new_.Length == 2 * old_.Length
    requires NextEmpty(g, 0) <= f <= from <= to <= hi <= NextEmpty(g, 0) + g.Size() < 2 * g.Size() && hi - f <= g.Size()
    requires g.Laps()[f].Empty? && Shows(new_[..], g, from, f, hi) && soFar == LiveIn(g, f, from)
    modifies new_
    ensures Shows(new_[..], g, to, f, hi) && count == LiveIn(g, f, to)
    ensures forall p :: 0 <= p < new_.Length && !InCells(p, g.Size(), f, hi) ==> new_[p] == old(new_[p])
  {
    var n := old_.Length;
    count := soFar;
    for i := from to to
      invariant Shows(new_[..], g, i, f, hi) && count == LiveIn(g, f, i)
      invariant forall p :: 0 <= p < new_.Length && !InCells(p, n, f, hi) ==> new_[p] == old(new_[p])
    {
      var node := old_[Wrap(i, n)];
      assert node == g.Laps()[i] && InLap(g, i);
      MoveIs(g, i);
      if node.Node? {
        MigrateNode(node, i, log, rehash, new_, g, f, hi);
        count := count + 1;
      } else {
        ShowsSkip(new_[..], g, i, f, hi);
      }
    }
  }

  // migrate_nodes, when one participant claims every block: the new array holds the new index.
  method MigrateNodes(old_: array<Slot>, new_: array<Slot>, log: nat, rehash: nat -> nat, block: nat,
      ghost g: Generation)
    returns (migrated: nat)
    requires old_ != new_ && g == Generation(old_[..], log, rehash) && g.Valid() && new_.Length == 2 * old_.Length
    requires block >= 1
    modifies new_
    ensures new_[..] == NewIndex(g) && migrated == |Locations(g.index)|
  {
    var n := old_.Length;
    var nodeToMigrate := 0;
    migrated := 0;
    BlockRange(g, 0, 0);
    while nodeToMigrate < n
      invariant Claimed(new_[..], g, Min(nodeToMigrate, n), migrated)
      decreases n - Min(nodeToMigrate, n)
    {
      ghost var before := new_[..];
      var count := BlockWiseMigrate(old_, new_, log, rehash, nodeToMigrate, block, g);
      ClaimGrows(before, new_[..], g, nodeToMigrate, Min(nodeToMigrate + block, n), migrated, count);
      migrated := migrated + count;
      nodeToMigrate := nodeToMigrate + block;
    }
    AllLive(g);
    NextEmptyFacts(g);
    PrefixAll(new_[..], g);
  }

  // Every block before x has been migrated, and `migrated` nodes were moved in them.
  ghost predicate Claimed(new_: seq<Slot>, g: Generation, x: nat, migrated: nat)
    requires g.Valid() && |new_| == 2 * g.Size() && x <= g.Size()
  {
    && NextEmpty(g, 0) <= NextEmpty(g, x)
    && Prefix(new_, g, x)
    && migrated == LiveIn(g, NextEmpty(g, 0), NextEmpty(g, x))
  }

  lemma ClaimGrows(before: seq<Slot>, after: seq<Slot>, g: Generation, start: nat, end: nat, migrated: nat, count: nat)
    requires g.Valid() && |before| == |after| == 2 * g.Size() && start <= end <= g.Size()
    requires Claimed(before, g, start, migrated) && BlockDone(before, after, g, start, end)
    requires NextEmpty(g, start) <= NextEmpty(g, end) && count == LiveIn(g, NextEmpty(g, start), NextEmpty(g, end))
    ensures Claimed(after, g, end, migrated + count)
  {
    PrefixGrows(before, after, g, start, end);
    PutsSplit(Moves(g), NextEmpty(g, 0), NextEmpty(g, start), NextEmpty(g, end));
  }

  // The slots of every cell before the block boundary x are final.
  ghost predicate Prefix(new_: seq<Slot>, g: Generation, x: nat)
    requires g.Valid() && |new_| == 2 * g.Size() && x <= g.Size()
  {
    forall p :: 0 <= p < |new_| && InCells(p, g.Size(), NextEmpty(g, 0), NextEmpty(g, x)) ==> new_[p] == NewIndex(g)[p]
  }

  lemma PrefixGrows(before: seq<Slot>, after: seq<Slot>, g: Generation, start: nat, end: nat)
    requires g.Valid() && |before| == |after| == 2 * g.Size() && start <= end <= g.Size()
    requires Prefix(before, g, start) && BlockDone(before, after, g, start, end)
    ensures Prefix(after, g, end)
  {
  }

  lemma PrefixAll(new_: seq<Slot>, g: Generation)
    requires g.Valid() && |new_| == 2 * g.Size() && Prefix(new_, g, g.Size())
    ensures new_ == NewIndex(g)
  {
    NextEmptyFacts(g);
    forall p | 0 <= p < |new_|
      ensures new_[p] == NewIndex(g)[p]
    {
      assert InCells(p, g.Size(), NextEmpty(g, 0), NextEmpty(g, g.Size()));
    }
  }
}
