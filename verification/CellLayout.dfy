// Laying nodes out by linear probing, one after the other, in cells of two slots: position i of the
// layout has the cell {2i, 2i + 1}, and its node's home is no further than that cell.
module CellLayout {
  import opened NodeCodec
  import opened ProbeIndex

  datatype Move = Skip | Put(index: nat, tag: nat, home: nat)

  // The first empty slot from q on, or the end.
  function FirstEmpty(s: seq<Slot>, q: nat): (r: nat)
    requires q <= |s|
    ensures q <= r <= |s|
    ensures forall k :: q <= k < r ==> !s[k].Empty?
    ensures r < |s| ==> s[r].Empty?
    decreases |s| - q
  {
    if q == |s| || s[q].Empty? then q else FirstEmpty(s, q + 1)
  }

  lemma FirstEmptyIs(s: seq<Slot>, q: nat, r: nat)
    requires q <= r < |s| && s[r].Empty? && forall k :: q <= k < r ==> !s[k].Empty?
    ensures FirstEmpty(s, q) == r
  {
  }

  // migrate_node: the node goes to the first empty slot from its home on.
  function Place(s: seq<Slot>, m: Move): (s': seq<Slot>)
    requires m.Put? && m.home <= |s|
    ensures |s'| == |s|
  {
    var q := FirstEmpty(s, m.home);
    if q < |s| then s[q := Node(m.index, m.tag, Saturate(q - m.home))] else s
  }

  ghost predicate Bounded(moves: seq<Move>) {
    forall k :: 0 <= k < |moves| && moves[k].Put? ==> moves[k].home <= 2 * k + 1
  }

  // The layout of the first i moves.
  function Laid(moves: seq<Move>, i: nat): (s: seq<Slot>)
    requires i <= |moves| && Bounded(moves)
    ensures |s| == 2 * |moves|
  {
    if i == 0 then seq(2 * |moves|, _ => Empty)
    else if moves[i - 1].Skip? then Laid(moves, i - 1)
    else Place(Laid(moves, i - 1), moves[i - 1])
  }

  // Where move i goes.
  function Target(moves: seq<Move>, i: nat): (q: nat)
    requires i < |moves| && Bounded(moves) && moves[i].Put?
    ensures moves[i].home <= q <= 2 * |moves|
  {
    FirstEmpty(Laid(moves, i), moves[i].home)
  }

  // Before move i every slot from its cell on is empty. Hence move i ends within its cell or before
  // it, for any homes: the bound that keeps the trailing clear of a block from erasing a moved node.
  lemma {:induction false} Frontier(moves: seq<Move>, i: nat)
    requires i <= |moves| && Bounded(moves)
    ensures forall q :: 2 * i <= q < 2 * |moves| ==> Laid(moves, i)[q].Empty?
    ensures i < |moves| && moves[i].Put? ==> Target(moves, i) <= 2 * i + 1
  {
    if i > 0 {
      Frontier(moves, i - 1);
    }
    if i < |moves| && moves[i].Put? {
      assert Laid(moves, i)[2 * i + 1].Empty?;
    }
  }

  // Moves whose homes lie beyond a slot leave the slots before it as they are.
  lemma {:induction false} Separated(moves: seq<Move>, lo: nat, e: nat, i: nat)
    requires e <= i <= |moves| && Bounded(moves)
    requires forall k :: e <= k < i && moves[k].Put? ==> moves[k].home >= lo
    ensures forall q :: 0 <= q < lo && q < 2 * |moves| ==> Laid(moves, i)[q] == Laid(moves, e)[q]
  {
    if i > e {
      Separated(moves, lo, e, i - 1);
    }
  }

  // A laid node stays where it is.
  lemma {:induction false} LaidStays(moves: seq<Move>, i: nat, k: nat)
    requires i <= k <= |moves| && Bounded(moves)
    ensures forall q :: 0 <= q < 2 * |moves| && !Laid(moves, i)[q].Empty? ==> Laid(moves, k)[q] == Laid(moves, i)[q]
  {
    if i < k {
      LaidStays(moves, i, k - 1);
    }
  }

  function Moving(moves: seq<Move>, i: nat): set<nat>
    requires i <= |moves|
  {
    set k | 0 <= k < i && moves[k].Put? :: moves[k].index
  }

  ghost predicate SameNode(moves: seq<Move>, j: nat, k: nat) {
    j < k < |moves| && moves[j].Put? && moves[k].Put? && moves[j].index == moves[k].index
  }

  ghost predicate MovesDistinct(moves: seq<Move>) {
    forall j, k :: !SameNode(moves, j, k)
  }

  lemma MoveIsNew(moves: seq<Move>, i: nat)
    requires i < |moves| && MovesDistinct(moves) && moves[i].Put?
    ensures moves[i].index !in Moving(moves, i)
    ensures Moving(moves, i + 1) == Moving(moves, i) + {moves[i].index}
  {
    if moves[i].index in Moving(moves, i) {
      var k :| 0 <= k < i && moves[k].Put? && moves[k].index == moves[i].index;
      assert SameNode(moves, k, i);
      assert false;
    }
    forall x | x in Moving(moves, i) + {moves[i].index}
      ensures x in Moving(moves, i + 1)
    {
      if x == moves[i].index {
        assert moves[i].index == x;
      }
    }
  }

  function Puts(moves: seq<Move>, lo: nat, hi: nat): nat
    requires lo <= hi <= |moves|
  {
    if lo == hi then 0 else Puts(moves, lo, hi - 1) + if moves[hi - 1].Put? then 1 else 0
  }

  lemma {:induction false} PutsSplit(moves: seq<Move>, lo: nat, mid: nat, hi: nat)
    requires lo <= mid <= hi <= |moves|
    ensures Puts(moves, lo, hi) == Puts(moves, lo, mid) + Puts(moves, mid, hi)
  {
    if mid < hi {
      PutsSplit(moves, lo, mid, hi - 1);
    }
  }

  lemma {:induction false} PutsCount(moves: seq<Move>, i: nat)
    requires i <= |moves| && MovesDistinct(moves)
    ensures Puts(moves, 0, i) == |Moving(moves, i)|
  {
    if i > 0 {
      PutsCount(moves, i - 1);
      if moves[i - 1].Put? {
        MoveIsNew(moves, i - 1);
      } else {
        assert Moving(moves, i) == Moving(moves, i - 1);
      }
    }
  }

  // The move that put the node of slot q there.
  ghost predicate From(moves: seq<Move>, i: nat, q: nat, k: nat)
    requires i <= |moves| && Bounded(moves) && q < 2 * |moves|
  {
    var s := Laid(moves, i);
    && k < i && moves[k].Put? && s[q].Node?
    && moves[k].home <= q <= 2 * k + 1
    && s[q] == Node(moves[k].index, moves[k].tag, Saturate(q - moves[k].home))
    && forall r :: moves[k].home <= r < q ==> !s[r].Empty?
  }

  // Every laid node came from a move, and no slot between its home and its place is empty.
  lemma {:induction false} LaidFrom(moves: seq<Move>, i: nat, q: nat) returns (k: nat)
    requires i <= |moves| && Bounded(moves) && q < 2 * |moves| && !Laid(moves, i)[q].Empty?
    ensures From(moves, i, q, k)
  {
    if i == 0 {
      assert false;
    } else if moves[i - 1].Put? && Target(moves, i - 1) == q {
      Frontier(moves, i - 1);
      LaidStays(moves, i - 1, i);
      k := i - 1;
    } else {
      LaidStays(moves, i - 1, i);
      k := LaidFrom(moves, i - 1, q);
    }
  }

  // The layout holds exactly the moved nodes, each once.
  lemma {:induction false} LaidNodes(moves: seq<Move>, i: nat)
    requires i <= |moves| && Bounded(moves) && MovesDistinct(moves)
    ensures Distinct(Laid(moves, i))
    ensures Locations(Laid(moves, i)) == Moving(moves, i)
  {
    if i > 0 {
      LaidNodes(moves, i - 1);
      var m := moves[i - 1];
      if m.Put? {
        Frontier(moves, i - 1);
        var s := Laid(moves, i - 1);
        var q := Target(moves, i - 1);
        MoveIsNew(moves, i - 1);
        LocationsAdd(s, q, Node(m.index, m.tag, Saturate(q - m.home)));
      } else {
        assert Moving(moves, i) == Moving(moves, i - 1);
      }
    }
  }

  lemma {:induction false} LaidNoTombstones(moves: seq<Move>, i: nat)
    requires i <= |moves| && Bounded(moves)
    ensures forall q :: 0 <= q < 2 * |moves| ==> !Laid(moves, i)[q].Tombstone?
  {
    if i > 0 {
      LaidNoTombstones(moves, i - 1);
    }
  }
}
