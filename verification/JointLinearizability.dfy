// For which initial dicts the dict with its allocator is linearizable.
module JointLinearizability {
  import opened MapSpec
  import opened DictMachine
  import opened ProbeIndex
  import opened DictInvariant
  import opened StepInvariant
  import opened Linearizability
  import opened DictLength
  import opened Updates
  import opened DictAllocator
  import opened LostInsertion
  import A = Allocator
  import AI = AllocatorInvariant

  // Every call that has an answer at the end of the run is one atomic operation at one moment of the call.
  // The moments are the steps of the dict.
  ghost predicate Linearizes(run: seq<Joint>)
    requires run != []
  {
    var ds := Dicts(run);
    var i := |ds| - 1;
    forall t: nat, op, r :: t < |ds[i].threads| && ds[i].threads[t].pc == Return(op, r) ==>
      Calling(ds, ds[i].threads[t].start, i, t, op) && Linearized(ds, i, t, op, r)
  }

  ghost predicate AlwaysLinearizable(c: Config, s: Joint) {
    forall run :: JointRun(c, run) && run[0] == s ==> Linearizes(run)
  }

  // With exclusive reservations it always is.
  lemma SafeLinearizes(c: Config, run: seq<Joint>)
    requires GoodConfig(c) && JointRun(c, run) && SafeStart(run)
    ensures Linearizes(run)
  {
    hide Run, Calling, Linearized, JointRun;
    DictsRun(c, run);
    var ds := Dicts(run);
    var i := |ds| - 1;
    forall t: nat, op, r | t < |ds[i].threads| && ds[i].threads[t].pc == Return(op, r)
      ensures Calling(ds, ds[i].threads[t].start, i, t, op) && Linearized(ds, i, t, op, r)
    {
      Linearizable(c, ds, i, t, op, r);
    }
  }

  // And its states are those that the runs of DictMachine reach.
  lemma SafeStates(c: Config, run: seq<Joint>)
    requires GoodConfig(c) && JointRun(c, run) && SafeStart(run)
    ensures var d := run[|run| - 1].dict;
            && Inv(c, d) && (forall g :: 0 <= g < |d.metas| ==> HasEmpty(d.metas[g].index))
            && |d.abs| == d.len + Sum(d.local) + SumUncounted(d.threads)
  {
    hide Run, JointNext, Start, Inv;
    DictsRun(c, run);
    var ds := Dicts(run);
    var i := |ds| - 1;
    RunInv(c, ds, i);
    LengthInRuns(c, ds, i);
    forall g | 0 <= g < |ds[i].metas|
      ensures HasEmpty(ds[i].metas[g].index)
    {
      AlwaysRoom(c, ds, i, g);
    }
  }

  // A compare-and-set that succeeded has stored its value, and a delete has removed its key.
  lemma SafeStores(c: Config, run: seq<Joint>, i: nat, t: nat, k: Key, e: Expected, d: Value, r: Result)
    returns (m: nat)
    requires GoodConfig(c) && JointRun(c, run) && SafeStart(run) && i < |Dicts(run)| && t < |Dicts(run)[i].threads|
    requires Dicts(run)[i].threads[t].pc == Return(CompareAndSet(k, e, d), r) && r != ExpectationFailed
    ensures Dicts(run)[i].threads[t].start < m <= i && EffectAt(Dicts(run), m, t, CompareAndSet(k, e, d))
    ensures var before, after := Dicts(run)[m - 1].abs, Dicts(run)[m].abs;
            && after == before[k := d]
            && r == (if k in before then Returned(before[k]) else WasNotFound)
            && (e.Exactly? ==> k in before && before[k] == e.v) && (e.NotFound? ==> k !in before)
  {
    DictsRun(c, run);
    m := CompareAndSetStores(c, Dicts(run), i, t, k, e, d, r);
  }

  lemma SafeRemoves(c: Config, run: seq<Joint>, i: nat, t: nat, k: Key) returns (m: nat)
    requires GoodConfig(c) && JointRun(c, run) && SafeStart(run) && i < |Dicts(run)| && t < |Dicts(run)[i].threads|
    requires Dicts(run)[i].threads[t].pc == Return(Delete(k), Deleted)
    ensures Dicts(run)[i].threads[t].start < m <= i && EffectAt(Dicts(run), m, t, Delete(k))
    ensures k in Dicts(run)[m - 1].abs && Dicts(run)[m].abs == Dicts(run)[m - 1].abs - {k}
  {
    DictsRun(c, run);
    m := DeleteRemoves(c, Dicts(run), i, t, k);
  }

  // A get called after a compare-and-set has returned reads what that stored, unless another operation on the key
  // takes effect meanwhile.
  lemma SafeReadsLastWrite(c: Config, run: seq<Joint>, i: nat, t: nat, k: Key, e: Expected, d: Value, r: Result,
      j: nat, u: nat, r': Result) returns (m: nat)
    requires GoodConfig(c) && JointRun(c, run) && SafeStart(run)
    requires i < |Dicts(run)| && t < |Dicts(run)[i].threads| && j < |Dicts(run)| && u < |Dicts(run)[j].threads|
    requires Dicts(run)[i].threads[t].pc == Return(CompareAndSet(k, e, d), r) && r != ExpectationFailed
    requires Dicts(run)[j].threads[u].pc == Return(Get(k), r') && i <= Dicts(run)[j].threads[u].start
    ensures Dicts(run)[i].threads[t].start < m <= i && EffectAt(Dicts(run), m, t, CompareAndSet(k, e, d))
    ensures Untouched(Dicts(run), m, j, k) ==> r' == Returned(d)
  {
    DictsRun(c, run);
    m := ReadsLastWrite(c, Dicts(run), i, t, k, e, d, r, j, u, r');
  }

  // With a shared first buffer a get can miss a key that is in the map at every moment of its call.
  lemma SharedLoses(c: Config, s: Joint, kA: Key, kB: Key, v: Value)
    requires Scene(c, s, kA, kB)
    ensures !AlwaysLinearizable(c, s)
  {
    hide Scene, Start, JointNext, Calling;
    var last := LosesInsertion(c, s, kA, kB, v);
    var run :| Traced(c, run, s, last);
    var ds := Dicts(run);
    NotLinearized(ds, kA);
    assert !Linearizes(run);
  }

  lemma NotLinearized(ds: seq<State>, k: Key)
    requires ds != [] && var d := ds[|ds| - 1];
               && 0 < |d.threads| && d.threads[0].pc == Return(Get(k), WasNotFound) && d.threads[0].lin.None?
               && |d.log| == |ds| && (forall m :: 0 <= m < |ds| ==> d.log[m] == ds[m].abs)
               && forall m :: d.threads[0].start <= m < |d.log| ==> k in d.log[m]
    ensures !Linearized(ds, |ds| - 1, 0, Get(k), WasNotFound)
  {
  }

  // Two threads and two keys given, every joint run from an initial dict (or from none) is linearizable if and
  // only if it is not the case that the dict's length + 1 is a multiple of the buffer size and the length is
  // below 64 or 127. Of the keys one is not in the dict, and the other's scan begins where the first buffer does.
  lemma JointLinearizableIff(c: Config, s: Joint, kA: Key, kB: Key, v: Value)
    requires GoodConfig(c) && Start(c, s) && |s.alloc.threads| > 1 && kA !in s.dict.abs && kB != kA
    requires A.InsertPosition(c.hash(kB), s.alloc.bs) == (s.alloc.len + 1) % A.ENTRIES_IN_PAGE
    ensures AlwaysLinearizable(c, s) <==> !A.FirstBlockShared(s.alloc.len, s.alloc.bs)
    ensures AlwaysLinearizable(c, s) <==>
              !(0 < s.alloc.len && A.Aligned(s.alloc.len + 1, s.alloc.bs) && (s.alloc.len < 64 || s.alloc.len == 127))
  {
    hide JointNext, Linearizes, A.FirstPages, Init;
    AI.FirstBlockSharedIff(s.alloc.len, s.alloc.bs);
    if A.FirstBlockShared(s.alloc.len, s.alloc.bs) {
      SharedLoses(c, s, kA, kB, v);
    } else {
      forall run | JointRun(c, run) && run[0] == s
        ensures Linearizes(run)
      {
        SafeLinearizes(c, run);
      }
    }
  }
}
