// The partitioned walk over the pages (iter.c), while nobody changes the dict.
module FastIter {
  import opened Arith
  import opened Options
  import opened Allocator

  function PageOf(x: nat): (p: nat)
  {
    DivModParts(x, ENTRIES_IN_PAGE);
    x / ENTRIES_IN_PAGE
  }

  // The locations that partition `part` of `partitions` walks over.
  predicate InPartition(x: nat, partitions: nat, part: nat)
    requires partitions > 0
  {
    Rem(PageOf(x), partitions) == part
  }

  // Every location belongs to exactly one partition.
  lemma PartitionsCover(x: nat, partitions: nat)
    requires partitions > 0
    ensures exists part: nat :: part < partitions && InPartition(x, partitions, part)
    ensures forall a: nat, b: nat :: InPartition(x, partitions, a) && InPartition(x, partitions, b) ==> a == b
  {
    var part := Rem(PageOf(x), partitions);
    assert part < partitions && InPartition(x, partitions, part);
  }

  // The next page of the same partition is `partitions` pages further, none in between.
  lemma NextPage(p: nat, q: nat, partitions: nat)
    requires partitions > 0 && p < q
    ensures q == p + partitions ==> Rem(q, partitions) == Rem(p, partitions)
    ensures q < p + partitions ==> Rem(q, partitions) != Rem(p, partitions)
  {
    QuoRem(p, partitions);
    var a, r, d := Quo(p, partitions), Rem(p, partitions), q - p;
    MulDistributes(a, 1, partitions);
    if d == partitions {
      QuoRemUnique(q, partitions, a + 1, r);
    } else if d < partitions {
      if r + d < partitions {
        QuoRemUnique(q, partitions, a, r + d);
      } else {
        QuoRemUnique(q, partitions, a + 1, r + d - partitions);
      }
    }
  }

  // Between a location and the one visited after it lies nothing of the partition.
  lemma Advance(x: nat, partitions: nat, part: nat) returns (next: nat)
    requires partitions > 0 && InPartition(x, partitions, part)
    ensures next > x && InPartition(next, partitions, part)
    ensures forall y: nat :: x < y < next ==> !InPartition(y, partitions, part)
    ensures next == if (x + 1) % ENTRIES_IN_PAGE != 0 then x + 1
                    else x - x % ENTRIES_IN_PAGE + partitions * ENTRIES_IN_PAGE
  {
    var p, i := PageOf(x), x % ENTRIES_IN_PAGE;
    DivModParts(x, ENTRIES_IN_PAGE);
    if i == ENTRIES_IN_PAGE - 1 {
      DivModIs(x + 1, ENTRIES_IN_PAGE, p + 1, 0);
      next := x - i + partitions * ENTRIES_IN_PAGE;
      MulDistributes(p, partitions, ENTRIES_IN_PAGE);
      DivModIs(next, ENTRIES_IN_PAGE, p + partitions, 0);
      NextPage(p, p + partitions, partitions);
      forall y: nat | x < y < next
        ensures !InPartition(y, partitions, part)
      {
        DivModParts(y, ENTRIES_IN_PAGE);
        assert p < PageOf(y) < p + partitions;
        NextPage(p, PageOf(y), partitions);
      }
    } else {
      next := x + 1;
      DivModIs(next, ENTRIES_IN_PAGE, p, i + 1);
    }
  }

  class FastIterator<T> {
    const entries: array<Option<T>>        // the values of the entries, page after page; None is NULL
    const partitions: nat
    ghost const part: nat
    var position: nat

    ghost predicate Valid()
      reads this
    {
      partitions > 0 && part < partitions && InPartition(position, partitions, part)
          && entries.Length % ENTRIES_IN_PAGE == 0
    }

    // The live locations of the partition that are still to come.
    ghost predicate ToCome(x: nat)
      requires Valid()
      reads this, entries
    {
      position <= x < entries.Length && InPartition(x, partitions, part) && entries[x].Some?
    }

    // AtomicDict_FastIter
    constructor (entries: array<Option<T>>, partitions: nat, part: nat)
      requires part < partitions && entries.Length % ENTRIES_IN_PAGE == 0
      ensures Valid() && this.entries == entries && this.partitions == partitions && this.part == part
      ensures forall x: nat :: ToCome(x) <==> x < entries.Length && InPartition(x, partitions, part) && entries[x].Some?
    {
      DivModIs(part * ENTRIES_IN_PAGE, ENTRIES_IN_PAGE, part, 0);
      QuoRemUnique(part, partitions, 0, part);
      this.entries, this.partitions, this.part := entries, partitions, part;
      position := part * ENTRIES_IN_PAGE;
      new;
      forall x: nat | InPartition(x, partitions, part)
        ensures x >= position
      {
        QuoRem(PageOf(x), partitions);
        DivModParts(x, ENTRIES_IN_PAGE);
        MulMonotone(part, PageOf(x), ENTRIES_IN_PAGE);
      }
    }

    // AtomicDictFastIterator_Next: the least live location to come, which then is behind; or none is left.
    method Next() returns (r: Option<nat>)
      requires Valid()
      modifies this
      ensures Valid()
      ensures match r
              case None => forall x: nat :: !old(ToCome(x))
              case Some(y) => old(ToCome(y)) && forall x: nat :: ToCome(x) <==> old(ToCome(x)) && x != y
      ensures forall y: nat :: r == Some(y) ==> forall x: nat :: old(ToCome(x)) ==> y <= x
    {
      ghost var was := position;
      while true
        invariant Valid() && was <= position
        invariant forall x: nat :: was <= x < position && x < entries.Length && InPartition(x, partitions, part) ==>
                    entries[x].None?
        decreases entries.Length - position
      {
        // page_of(position) > greatest_allocated_page
        if position >= entries.Length {
          return None;
        }
        var x := position;
        ghost var next := Advance(x, partitions, part);
        if (x + 1) % ENTRIES_IN_PAGE == 0 {
          position := x - x % ENTRIES_IN_PAGE + partitions * ENTRIES_IN_PAGE;
        } else {
          position := x + 1;
        }
        if entries[x].Some? {
          return Some(x);
        }
      }
    }
  }
}
