// What migrating an index to one of twice the size leaves in the new index, and that it means the
// same (resize.c:215-429). Old positions are unwrapped: position i denotes slot i or i - size.
module Migration {
  import opened Arith
  import opened NodeCodec
  import opened Options
  import opened MapSpec
  import opened ProbeIndex
  import opened CellLayout

  // A frozen generation: no step changes its index any more.
  datatype Generation = Generation(index: seq<Slot>, log: nat, rehash: nat -> nat) {
    function Size(): nat { |index| }

    // the index laid out twice, so that a position past the end need not be wrapped
    function Laps(): (s: seq<Slot>)
      ensures |s| == 2 * Size()
      ensures forall i :: 0 <= i < |s| ==> s[i] == index[Wrap(i, Size())]
    {
      index + index
    }

    ghost predicate Valid() {
      LogSize(log) && LogSize(log + 1) && 0 < |index| && WellFormed(index, log, rehash) && HasEmpty(index)
    }
  }

  // The block [start, end) moves exactly the positions from NextEmpty(start) up to NextEmpty(end).
  function NextEmpty(g: Generation, x: nat): (r: nat)
    requires x <= 2 * g.Size()
    ensures x <= r <= 2 * g.Size()
    ensures r < 2 * g.Size() ==> g.Laps()[r].Empty?
    ensures forall k :: x <= k < r ==> !g.Laps()[k].Empty?
  {
    FirstEmpty(g.Laps(), x)
  }

  lemma NextEmptyFacts(g: Generation)
    requires g.Valid()
    ensures NextEmpty(g, 0) < g.Size()
    ensures NextEmpty(g, g.Size()) == g.Size() + NextEmpty(g, 0)
  {
    var n := g.Size();
    var p :| 0 <= p < n && g.index[p].Empty?;
    assert g.Laps()[p].Empty?;
    var z := NextEmpty(g, 0);
    forall k | n <= k < n + z
      ensures !g.Laps()[k].Empty?
    {
      assert !g.Laps()[k - n].Empty?;
    }
    assert g.Laps()[n + z] == g.Laps()[z];
    FirstEmptyIs(g.Laps(), n, n + z);
  }

  lemma NextEmptyMonotone(g: Generation, x: nat, y: nat)
    requires x <= y <= 2 * g.Size()
    ensures NextEmpty(g, x) <= NextEmpty(g, y)
    ensures y <= NextEmpty(g, x) ==> NextEmpty(g, x) == NextEmpty(g, y)
  {
  }

  // The positions of the lap that starts at the first empty slot: one for every slot.
  predicate InLap(g: Generation, i: nat) {
    NextEmpty(g, 0) <= i < NextEmpty(g, 0) + g.Size()
  }

  // ---- homes ----

  // The home of the node at unwrapped position i, in the same lap.
  function OldHome(g: Generation, i: nat): (h: nat)
    requires LogSize(g.log) && i < 2 * g.Size() && g.Laps()[i].Node?
    ensures h <= i
  {
    var w := Home(g.rehash(g.Laps()[i].index), g.log);
    if w >= g.Size() then i
    else
      var d := Gap(w, Wrap(i, g.Size()), g.Size());
      if d <= i then i - d else 0
  }

  // Its home in the new index: the old home and one more bit of the hash.
  function NewHome(g: Generation, i: nat): (h: nat)
    requires LogSize(g.log) && LogSize(g.log + 1) && i < 2 * g.Size() && g.Laps()[i].Node?
  {
    2 * OldHome(g, i) + TagBit(g.Laps()[i].tag, g.log)
  }

  // No slot between a node's home and its position is empty, so the home lies in the node's own lap
  // and beyond every empty slot before it.
  lemma OldHomeFacts(g: Generation, i: nat)
    requires g.Valid() && InLap(g, i) && i < 2 * g.Size() && g.Laps()[i].Node?
    ensures var w := Home(g.rehash(g.Laps()[i].index), g.log);
            && w < g.Size() && Wrap(OldHome(g, i), g.Size()) == w
            && i - OldHome(g, i) == Gap(w, Wrap(i, g.Size()), g.Size())
            && g.Laps()[i].distance == Saturate(i - OldHome(g, i))
    ensures forall e :: OldHome(g, i) <= e <= i ==> !g.Laps()[e].Empty?
    ensures NextEmpty(g, 0) < OldHome(g, i)
  {
    NextEmptyFacts(g);
    var w := Home(g.rehash(g.Laps()[i].index), g.log);
    assert NodeFits(g.index, g.log, g.rehash, Wrap(i, g.Size()));
    assert g.Laps()[NextEmpty(g, 0)] == g.index[NextEmpty(g, 0)];
    HomeInLap(g, i, w);
    NoEmptyFromHome(g, i, w);
  }

  lemma HomeInLap(g: Generation, i: nat, w: nat)
    requires 0 < g.Size() && w < g.Size() && NextEmpty(g, 0) < g.Size()
    requires InLap(g, i) && i < 2 * g.Size() && !g.Laps()[i].Empty? && g.index[NextEmpty(g, 0)].Empty?
    requires PathFull(g.index, w, Gap(w, Wrap(i, g.Size()), g.Size()))
    ensures var h := i - Gap(w, Wrap(i, g.Size()), g.Size());
            NextEmpty(g, 0) < h <= i && Wrap(h, g.Size()) == w
  {
    assert g.Laps()[i] == g.index[Wrap(i, g.Size())];
    assert i != NextEmpty(g, 0);
    NoEmptyBehind(g.index, w, Wrap(i, g.Size()), NextEmpty(g, 0), i);
    HomeUnwrapped(i, w, g.Size());
  }

  lemma NoEmptyFromHome(g: Generation, i: nat, w: nat)
    requires 0 < g.Size() && w < g.Size() && i < 2 * g.Size() && !g.Laps()[i].Empty?
    requires PathFull(g.index, w, Gap(w, Wrap(i, g.Size()), g.Size())) && Gap(w, Wrap(i, g.Size()), g.Size()) <= i
    ensures forall e :: i - Gap(w, Wrap(i, g.Size()), g.Size()) <= e <= i ==> !g.Laps()[e].Empty?
  {
    forall e | i - Gap(w, Wrap(i, g.Size()), g.Size()) <= e <= i
      ensures !g.Laps()[e].Empty?
    {
      PathUnwrapped(g, w, i, e);
    }
  }

  lemma HomeUnwrapped(i: nat, w: nat, n: nat)
    requires w < n && i < 2 * n && Gap(w, Wrap(i, n), n) <= i
    ensures Wrap(i - Gap(w, Wrap(i, n), n), n) == w
  {
  }

  lemma NoEmptyBehind(idx: seq<Slot>, w: nat, p: nat, z: nat, i: nat)
    requires w < |idx| && p < |idx| && z < |idx| && idx[z].Empty? && PathFull(idx, w, Gap(w, p, |idx|))
    requires z < i < z + |idx| && p == Wrap(i, |idx|)
    ensures z < i - Gap(w, p, |idx|)
  {
  }

  lemma PathUnwrapped(g: Generation, w: nat, i: nat, e: nat)
    requires 0 < g.Size() && w < g.Size() && i < 2 * g.Size() && !g.Laps()[i].Empty?
    requires PathFull(g.index, w, Gap(w, Wrap(i, g.Size()), g.Size()))
    requires i - Gap(w, Wrap(i, g.Size()), g.Size()) <= e <= i
    ensures !g.Laps()[e].Empty?
  {
    if e < i {
      assert Gap(w, Wrap(e, g.Size()), g.Size()) < Gap(w, Wrap(i, g.Size()), g.Size());
    }
  }

  lemma NewHomeFacts(g: Generation, i: nat)
    requires g.Valid() && InLap(g, i) && i < 2 * g.Size() && g.Laps()[i].Node?
    ensures 2 * OldHome(g, i) <= NewHome(g, i) <= 2 * OldHome(g, i) + 1 < 4 * g.Size()
    ensures var h := g.rehash(g.Laps()[i].index);
            && Home(h, g.log + 1) < 2 * g.Size() && Wrap(NewHome(g, i), 2 * g.Size()) == Home(h, g.log + 1)
            && MaskTag(g.Laps()[i].tag, g.log + 1) == MaskTag(h, g.log + 1)
  {
    OldHomeFacts(g, i);
    assert NodeFits(g.index, g.log, g.rehash, Wrap(i, g.Size()));
    HomeDoubles(g.rehash(g.Laps()[i].index), g.log);
  }

  // migrate_node_d0: below the saturated distance the home is computed from the position, the stored
  // distance and one bit of the tag; at 255 it is taken from the full hash.
  function MigrateNodeD0(x: Slot, i: nat, log: nat, rehash: nat -> nat): int
    requires LogSize(log) && LogSize(log + 1) && x.Node?
  {
    if x.distance < DISTANCE_MAX then (i - x.distance) * 2 + TagBit(x.tag, log)
    else Home(rehash(x.index), log + 1)
  }

  lemma UnsaturatedHome(g: Generation, i: nat)
    requires g.Valid() && InLap(g, i) && i < 2 * g.Size() && g.Laps()[i].Node?
    requires g.Laps()[i].distance < DISTANCE_MAX
    ensures i - g.Laps()[i].distance == OldHome(g, i)
    ensures MigrateNodeD0(g.Laps()[i], i, g.log, g.rehash) == NewHome(g, i)
  {
    OldHomeFacts(g, i);
  }

  lemma SaturatedHome(g: Generation, i: nat)
    requires LogSize(g.log) && LogSize(g.log + 1) && i < 2 * g.Size() && g.Laps()[i].Node?
    requires g.Laps()[i].distance >= DISTANCE_MAX
    ensures MigrateNodeD0(g.Laps()[i], i, g.log, g.rehash) == Home(g.rehash(g.Laps()[i].index), g.log + 1)
  {
  }

  // The shortcut does not underflow, and both ways denote the slot that distance0_of gives for the
  // new index.
  lemma ShortcutHome(g: Generation, i: nat, d0: int)
    requires g.Valid() && InLap(g, i) && i < 2 * g.Size() && g.Laps()[i].Node?
    requires d0 == MigrateNodeD0(g.Laps()[i], i, g.log, g.rehash)
    ensures 0 <= d0 < 4 * g.Size() && NewHome(g, i) < 4 * g.Size()
    ensures Wrap(d0, 2 * g.Size()) == Home(g.rehash(g.Laps()[i].index), g.log + 1)
    ensures Wrap(d0, 2 * g.Size()) == Wrap(NewHome(g, i), 2 * g.Size())
  {
    NewHomeFacts(g, i);
    if g.Laps()[i].distance < DISTANCE_MAX {
      UnsaturatedHome(g, i);
    } else {
      SaturatedHome(g, i);
    }
    WrapAgain(NewHome(g, i), 2 * g.Size(), d0);
  }

  lemma WrapAgain(h: nat, n: nat, d0: int)
    requires h < 2 * n && (d0 == h || d0 == Wrap(h, n))
    ensures 0 <= d0 < 2 * n && Wrap(d0, n) == Wrap(h, n)
  {
  }

  // ---- the new index ----

  function MoveAt(g: Generation, i: nat): Move
    requires LogSize(g.log) && LogSize(g.log + 1) && i < 2 * g.Size()
  {
    var x := g.Laps()[i];
    if InLap(g, i) && x.Node? then Put(x.index, MaskTag(x.tag, g.log + 1), NewHome(g, i)) else Skip
  }

  function MovesUpTo(g: Generation, k: nat): (ms: seq<Move>)
    requires LogSize(g.log) && LogSize(g.log + 1) && k <= 2 * g.Size()
    ensures |ms| == k
  {
    if k == 0 then [] else MovesUpTo(g, k - 1) + [MoveAt(g, k - 1)]
  }

  function Moves(g: Generation): (ms: seq<Move>)
    requires LogSize(g.log) && LogSize(g.log + 1)
    ensures |ms| == 2 * g.Size()
  {
    MovesUpTo(g, 2 * g.Size())
  }

  lemma {:induction false} MovesUpToIs(g: Generation, k: nat, i: nat)
    requires LogSize(g.log) && LogSize(g.log + 1) && i < k <= 2 * g.Size()
    ensures MovesUpTo(g, k)[i] == MoveAt(g, i)
  {
    if i < k - 1 {
      MovesUpToIs(g, k - 1, i);
    }
  }

  lemma MoveIs(g: Generation, i: nat)
    requires LogSize(g.log) && LogSize(g.log + 1) && i < 2 * g.Size()
    ensures Moves(g)[i] == MoveAt(g, i)
  {
    MovesUpToIs(g, 2 * g.Size(), i);
  }

  lemma MovesFacts(g: Generation)
    requires g.Valid()
    ensures Bounded(Moves(g)) && MovesDistinct(Moves(g))
    ensures Moving(Moves(g), |Moves(g)|) == Locations(g.index)
  {
    var ms, n := Moves(g), g.Size();
    NextEmptyFacts(g);
    forall k | 0 <= k < |ms|
      ensures ms[k] == MoveAt(g, k)
    {
      MoveIs(g, k);
    }
    forall k | 0 <= k < |ms| && ms[k].Put?
      ensures ms[k].home <= 2 * k + 1 && g.index[Wrap(k, n)].Node? && ms[k].index == g.index[Wrap(k, n)].index
    {
      NewHomeFacts(g, k);
    }
    forall x | x in Locations(g.index)
      ensures x in Moving(ms, |ms|)
    {
      var p :| 0 <= p < n && g.index[p].Node? && g.index[p].index == x;
      var i := if p < NextEmpty(g, 0) then p + n else p;
      assert Wrap(i, n) == p && InLap(g, i);
      assert ms[i] == MoveAt(g, i);
    }
    forall j: nat, k: nat
      ensures !SameNode(ms, j, k)
    {
      if j < k < |ms| && ms[j].Put? && ms[k].Put? {
        assert InLap(g, j) && InLap(g, k);
        assert Wrap(j, n) != Wrap(k, n);
        assert !Clash(g.index, Wrap(j, n), Wrap(k, n)) && !Clash(g.index, Wrap(k, n), Wrap(j, n));
      }
    }
  }

  // The cells once every node has been moved.
  ghost function Cells(g: Generation, i: nat): (s: seq<Slot>)
    requires g.Valid() && i <= 2 * g.Size()
    ensures |s| == 4 * g.Size()
  {
    MovesFacts(g);
    Laid(Moves(g), i)
  }

  // An old empty slot separates: its cell stays empty, what is moved later stays beyond it, and what
  // was moved before it is final.
  lemma EmptySeparates(g: Generation, e: nat, i: nat)
    requires g.Valid() && NextEmpty(g, 0) <= e <= i <= 2 * g.Size()
    requires e < 2 * g.Size() && g.Laps()[e].Empty?
    ensures forall q :: 0 <= q < 2 * e + 2 ==> Cells(g, i)[q] == Cells(g, e)[q]
    ensures Cells(g, i)[2 * e].Empty? && Cells(g, i)[2 * e + 1].Empty?
  {
    MovesFacts(g);
    var ms := Moves(g);
    forall k | e <= k < i && ms[k].Put?
      ensures ms[k].home >= 2 * e + 2
    {
      MoveIs(g, k);
      OldHomeFacts(g, k);
      NewHomeFacts(g, k);
    }
    Frontier(ms, e);
    Separated(ms, 2 * e + 2, e, i);
  }

  // A node's home and its target lie in its cluster's cells, not beyond its own cell.
  lemma NodeCells(g: Generation, i: nat, lo: nat)
    requires g.Valid() && InLap(g, i) && lo <= i < 2 * g.Size() && g.Laps()[lo].Empty? && g.Laps()[i].Node?
    ensures Bounded(Moves(g)) && Moves(g)[i] == MoveAt(g, i)
    ensures 2 * lo + 2 <= NewHome(g, i) <= Target(Moves(g), i) <= 2 * i + 1 < 4 * g.Size()
  {
    MovesFacts(g);
    MoveIs(g, i);
    OldHomeFacts(g, i);
    NewHomeFacts(g, i);
    Frontier(Moves(g), i);
  }

  // The footprint of a cluster: the node at position i of the cluster that starts at a ends up in
  // [2a, 2(i + 1)), for any homes. So clearing from 2(i + 1) on never erases it.
  lemma ClusterFootprint(g: Generation, a: nat, i: nat) returns (q: nat)
    requires g.Valid() && 0 < a <= i < 2 * g.Size() && InLap(g, i) && g.Laps()[i].Node?
    requires g.Laps()[a - 1].Empty? && forall e :: a <= e <= i ==> !g.Laps()[e].Empty?
    ensures 2 * a <= q < 2 * (i + 1) && q < 4 * g.Size()
    ensures Cells(g, i)[q].Empty? && forall k :: i < k <= 2 * g.Size() ==> Cells(g, k)[q] == Cells(g, i + 1)[q]
    ensures Cells(g, i + 1)[q].Node? && Cells(g, i + 1)[q].index == g.Laps()[i].index
    ensures NewIndex(g)[Wrap(q, 2 * g.Size())] == Cells(g, i + 1)[q]
  {
    NodeCells(g, i, a - 1);
    q := Target(Moves(g), i);
    TargetStays(g, i);
    CellInNewIndex(g, q);
  }

  // Once moved, the node stays where it is.
  lemma TargetStays(g: Generation, i: nat)
    requires g.Valid() && i < 2 * g.Size() && Bounded(Moves(g)) && Moves(g)[i].Put? && Moves(g)[i] == MoveAt(g, i)
    requires InLap(g, i) && g.Laps()[i].Node? && Target(Moves(g), i) < 4 * g.Size()
    ensures var q := Target(Moves(g), i);
            && Cells(g, i)[q].Empty? && (forall k :: i < k <= 2 * g.Size() ==> Cells(g, k)[q] == Cells(g, i + 1)[q])
            && Cells(g, i + 1)[q].Node? && Cells(g, i + 1)[q].index == g.Laps()[i].index
  {
    MovesFacts(g);
    Frontier(Moves(g), i);
    var q := Target(Moves(g), i);
    assert Laid(Moves(g), i + 1)[q].Node?;
    forall k | i < k <= 2 * g.Size()
      ensures Cells(g, k)[q] == Cells(g, i + 1)[q]
    {
      LaidStays(Moves(g), i + 1, k);
    }
  }

  // The new index: the cells of the lap, wrapped.
  ghost function NewIndex(g: Generation): (s: seq<Slot>)
    requires g.Valid()
    ensures |s| == 2 * g.Size()
  {
    NextEmptyFacts(g);
    var z := NextEmpty(g, 0);
    seq(2 * g.Size(), (p: nat) requires p < 2 * g.Size() =>
      Cells(g, 2 * g.Size())[if p < 2 * z then p + 2 * g.Size() else p])
  }

  // Nothing is laid before the lap's first cell.
  lemma BeforeLap(g: Generation, q: nat)
    requires g.Valid() && q < 4 * g.Size() && q < 2 * NextEmpty(g, 0) + 2
    ensures Cells(g, 2 * g.Size())[q].Empty?
  {
    NextEmptyFacts(g);
    MovesFacts(g);
    var z := NextEmpty(g, 0);
    EmptySeparates(g, z, 2 * g.Size());
    forall k | 0 <= k < z
      ensures Moves(g)[k].Skip?
    {
      MoveIs(g, k);
    }
    Separated(Moves(g), 4 * g.Size(), 0, z);
  }

  // ... nor after its last.
  lemma AfterLap(g: Generation, q: nat)
    requires g.Valid() && 2 * (NextEmpty(g, 0) + g.Size()) <= q < 4 * g.Size()
    ensures Cells(g, 2 * g.Size())[q].Empty?
  {
    NextEmptyFacts(g);
    MovesFacts(g);
    var e := NextEmpty(g, 0) + g.Size();
    forall k | e <= k < 2 * g.Size()
      ensures Moves(g)[k].Skip?
    {
      MoveIs(g, k);
    }
    Frontier(Moves(g), e);
    Separated(Moves(g), 4 * g.Size(), e, 2 * g.Size());
  }

  // ---- the new index means the same ----

  // Each node of the new index fits at its new home.
  lemma NewNodeFits(g: Generation, p: nat)
    requires g.Valid() && p < 2 * g.Size() && NewIndex(g)[p].Node?
    ensures |NewIndex(g)| == Pow2(g.log + 1)
    ensures NodeFits(NewIndex(g), g.log + 1, g.rehash, p)
  {
    NextEmptyFacts(g);
    MovesFacts(g);
    var n, z := g.Size(), NextEmpty(g, 0);
    var q := if p < 2 * z then p + 2 * n else p;
    assert NewIndex(g)[p] == Cells(g, 2 * n)[q];
    var k := LaidFrom(Moves(g), 2 * n, q);
    MoveIs(g, k);
    OldHomeFacts(g, k);
    NewHomeFacts(g, k);
    assert NodeFits(g.index, g.log, g.rehash, Wrap(k, n));
    var h := Moves(g)[k].home;
    var w := Wrap(h, 2 * n);
    assert Gap(w, p, 2 * n) == q - h;
    NewPathFull(g, h, q);
  }

  lemma NewPathFull(g: Generation, h: nat, q: nat)
    requires g.Valid() && 2 * NextEmpty(g, 0) <= h <= q < 2 * (NextEmpty(g, 0) + g.Size())
    requires q < 4 * g.Size()
    requires forall r :: h <= r < q ==> !Cells(g, 2 * g.Size())[r].Empty?
    ensures PathFull(NewIndex(g), Wrap(h, 2 * g.Size()), q - h)
  {
    var n, z := g.Size(), NextEmpty(g, 0);
    var w := Wrap(h, 2 * n);
    forall p | 0 <= p < 2 * n && Gap(w, p, 2 * n) < q - h
      ensures !NewIndex(g)[p].Empty?
    {
      var r := h + Gap(w, p, 2 * n);
      assert r == if p < 2 * z then p + 2 * n else p;
    }
  }

  // Every laid node is in the new index.
  lemma CellInNewIndex(g: Generation, q: nat)
    requires g.Valid() && q < 4 * g.Size() && Cells(g, 2 * g.Size())[q].Node?
    ensures NewIndex(g)[Wrap(q, 2 * g.Size())] == Cells(g, 2 * g.Size())[q]
  {
    if q < 2 * NextEmpty(g, 0) {
      BeforeLap(g, q);
    }
    if q >= 2 * (NextEmpty(g, 0) + g.Size()) {
      AfterLap(g, q);
    }
  }

  lemma NewLocations(g: Generation)
    requires g.Valid()
    ensures Distinct(NewIndex(g)) && HasEmpty(NewIndex(g))
    ensures Locations(NewIndex(g)) == Locations(g.index)
  {
    NextEmptyFacts(g);
    MovesFacts(g);
    var n, z := g.Size(), NextEmpty(g, 0);
    var cells := Cells(g, 2 * n);
    LaidNodes(Moves(g), 2 * n);
    BeforeLap(g, 2 * z);
    assert NewIndex(g)[2 * z] == cells[2 * z];
    SameLocations(NewIndex(g), cells, z) by {
      forall q | 0 <= q < |cells| && cells[q].Node?
        ensures NewIndex(g)[Wrap(q, 2 * n)] == cells[q]
      {
        CellInNewIndex(g, q);
      }
    }
  }

  lemma SameLocations(idx: seq<Slot>, cells: seq<Slot>, z: nat)
    requires |cells| == 2 * |idx| && 2 * z <= |idx| && Distinct(cells)
    requires forall p :: 0 <= p < |idx| ==> idx[p] == cells[if p < 2 * z then p + |idx| else p]
    requires forall q :: 0 <= q < |cells| && cells[q].Node? ==> idx[Wrap(q, |idx|)] == cells[q]
    ensures Locations(idx) == Locations(cells) && Distinct(idx)
  {
    forall p: nat, q: nat
      ensures !Clash(idx, p, q)
    {
      if p < q < |idx| {
        var p', q' := if p < 2 * z then p + |idx| else p, if q < 2 * z then q + |idx| else q;
        assert !Clash(cells, p', q') && !Clash(cells, q', p');
      }
    }
    forall x | x in Locations(cells)
      ensures x in Locations(idx)
    {
      var q :| 0 <= q < |cells| && cells[q].Node? && cells[q].index == x;
      assert idx[Wrap(q, |idx|)].index == x;
    }
  }

  // Migration preserves meaning: the new index keeps the probing invariant for the larger size, has
  // empty slots, and reaches exactly the entries that the old one reached (tombstones are dropped).
  lemma NewIndexWellFormed(g: Generation)
    requires g.Valid()
    ensures WellFormed(NewIndex(g), g.log + 1, g.rehash) && HasEmpty(NewIndex(g))
    ensures Locations(NewIndex(g)) == Locations(g.index)
  {
    NewLocations(g);
    forall p | 0 <= p < 2 * g.Size() && NewIndex(g)[p].Node?
      ensures NodeFits(NewIndex(g), g.log + 1, g.rehash, p)
    {
      NewNodeFits(g, p);
    }
  }

  // What a lookup of the key may answer: the entry found, or that there is none.
  ghost predicate Answers(idx: seq<Slot>, entries: map<nat, Entry>, key: Key, answer: Option<nat>) {
    match answer
    case Some(x) => x in Locations(idx) && Holds(entries, x, key)
    case None => forall x :: x in Locations(idx) ==> !Holds(entries, x, key)
  }

  // Every answer of a lookup in the new index is an answer of a lookup in the old index, and back.
  lemma LookupPreserved(g: Generation, entries: map<nat, Entry>, key: Key, answer: Option<nat>)
    requires g.Valid()
    ensures Answers(NewIndex(g), entries, key, answer) <==> Answers(g.index, entries, key, answer)
  {
    NewIndexWellFormed(g);
  }

  lemma NewIndexNoTombstones(g: Generation)
    requires g.Valid()
    ensures forall p :: 0 <= p < |NewIndex(g)| ==> !NewIndex(g)[p].Tombstone?
  {
    MovesFacts(g);
    LaidNoTombstones(Moves(g), 2 * g.Size());
    var z := NextEmpty(g, 0);
    forall p | 0 <= p < |NewIndex(g)|
      ensures !NewIndex(g)[p].Tombstone?
    {
      assert NewIndex(g)[p] == Cells(g, 2 * g.Size())[if p < 2 * z then p + 2 * g.Size() else p];
    }
  }
}
