// What each kind of step does to the shared state of DictMachine.
module DictSteps {
  import opened Arith
  import opened NodeCodec
  import opened Options
  import opened MapSpec
  import opened ProbeIndex
  import opened DictMachine
  import opened DictInvariant

  // Only thread t moves, and the history grows by the map.
  ghost predicate Moves(s: State, s': State, t: nat) {
    && t < |s.threads| && |s'.threads| == |s.threads| && |s'.local| == |s.local|
    && (forall u :: 0 <= u < |s.threads| && u != t ==> s'.threads[u] == s.threads[u])
    && s'.log == s.log + [s'.abs]
  }

  // A lock changes hands only by or for thread t.
  ghost predicate LocksKept(s: State, s': State, t: nat) {
    && |s'.mutex| == |s.mutex|
    && forall i, u :: 0 <= i < |s.mutex| && s.mutex[i] == Some(u) && u != t ==> s'.mutex[i] == Some(u)
  }

  // ---- steps that change neither the table nor the map ----

  ghost predicate Quiet(s: State, s': State, t: nat) {
    && Moves(s, s', t) && LocksKept(s, s', t) && !s'.threads[t].pc.Bury?
    && s'.metas == s.metas && s'.entries == s.entries && s'.owned == s.owned && s'.published == s.published
    && s'.at == s.at && s'.abs == s.abs
  }

  lemma BuryKept(s: State, s': State, t: nat)
    requires Moves(s, s', t) && BuryDistinct(s) && !s'.threads[t].pc.Bury?
    ensures BuryDistinct(s')
  {
  }

  lemma QuietKeeps(c: Config, s: State, s': State, t: nat)
    requires Quiet(s, s', t) && Shared(c, s)
    ensures Shared(c, s') && Evolves(s, s', t)
  {
    hide WellFormed, FilledOk;
    BuryKept(s, s', t);
    assert Shaped(s');
    forall g | 0 <= g < |s'.metas|
      ensures IndexOk(c, s', g)
    {
      assert IndexOk(c, s, g);
    }
  }

  // ---- the election of a leader ----

  ghost predicate Elected(s: State, s': State, t: nat, g: nat) {
    && Moves(s, s', t) && LocksKept(s, s', t) && !s'.threads[t].pc.Bury?
    && g < |s.metas| && s.metas[g].leader.None?
    && s'.metas == s.metas[g := s.metas[g].(leader := Some(t))] && s'.entries == s.entries && s'.owned == s.owned
    && s'.published == s.published && s'.at == s.at && s'.abs == s.abs
  }

  lemma ElectedKeeps(c: Config, s: State, s': State, t: nat, g: nat)
    requires Elected(s, s', t, g) && Shared(c, s)
    ensures Shared(c, s') && Evolves(s, s', t)
  {
    hide WellFormed;
    BuryKept(s, s', t);
    assert Shaped(s');
    forall k | 0 <= k < |s'.metas|
      ensures IndexOk(c, s', k)
    {
      assert IndexOk(c, s, k);
    }
  }

  // ---- changes of the entries ----

  // Well-formedness depends only on the hashes of the reachable entries.
  lemma WellFormedBy(idx: seq<Slot>, log: nat, f: nat -> nat, f': nat -> nat)
    requires WellFormed(idx, log, f) && forall x :: x in Locations(idx) ==> f'(x) == f(x)
    ensures WellFormed(idx, log, f')
  {
    forall p | 0 <= p < |idx| && idx[p].Node?
      ensures NodeFits(idx, log, f', p)
    {
      assert NodeFits(idx, log, f, p);
      assert idx[p].index in Locations(idx);
    }
  }

  lemma IndexKept(c: Config, s: State, s': State, g: nat)
    requires g < |s.metas| && g < |s'.metas| && IndexOk(c, s, g)
    requires s'.metas[g].index == s.metas[g].index && s'.metas[g].log == s.metas[g].log
    requires s'.metas[g].filled == s.metas[g].filled
    requires s.published <= s'.published
    requires forall x :: x in s.published ==>
               x in s.entries && x in s'.entries && s'.entries[x].hash == s.entries[x].hash
    ensures IndexOk(c, s', g)
  {
    var f, f' := Rehashed(s.entries, c.rehash), Rehashed(s'.entries, c.rehash);
    forall x | x in Locations(s.metas[g].index)
      ensures f'(x) == f(x)
    {
    }
    WellFormedBy(s.metas[g].index, s.metas[g].log, f, f');
  }

  ghost predicate ReservedFor(c: Config, s: State, s': State, t: nat, l: nat, e: Entry) {
    && Moves(s, s', t) && s'.mutex == s.mutex && !s'.threads[t].pc.Bury?
    && l !in s.published && (l in s.owned ==> s.owned[l] == t)
    && s'.metas == s.metas && s'.entries == s.entries[l := e] && s'.owned == s.owned[l := t]
    && s'.published == s.published && s'.at == s.at && s'.abs == s.abs
  }

  lemma ReservedKeeps(c: Config, s: State, s': State, t: nat, l: nat, e: Entry)
    requires ReservedFor(c, s, s', t, l, e) && Shared(c, s)
    ensures Shared(c, s') && Evolves(s, s', t)
  {
    hide WellFormed, FilledOk, IndexOk;
    BuryKept(s, s', t);
    assert Shaped(s');
    forall g | 0 <= g < |s'.metas|
      ensures IndexOk(c, s', g)
    {
      IndexKept(c, s, s', g);
    }
  }

  // The value of live entry x, whose key is k, becomes d.
  ghost predicate Updated(s: State, s': State, t: nat, x: nat, k: Key, d: Value) {
    && Moves(s, s', t) && s'.mutex == s.mutex && !s'.threads[t].pc.Bury?
    && Live(s, x) && s.entries[x].key == k
    && s'.metas == s.metas && s'.entries == s.entries[x := s.entries[x].(value := Some(d))] && s'.owned == s.owned
    && s'.published == s.published && s'.at == s.at && s'.abs == s.abs[k := d]
  }

  lemma UpdatedKeeps(c: Config, s: State, s': State, t: nat, x: nat, k: Key, d: Value)
    requires Updated(s, s', t, x, k, d) && Shared(c, s)
    ensures Shared(c, s') && Evolves(s, s', t)
  {
    hide WellFormed, FilledOk, IndexOk, MapOk;
    BuryKept(s, s', t);
    assert Shaped(s');
    UpdatedMap(s, s', t, x, k, d);
    forall g | 0 <= g < |s'.metas|
      ensures IndexOk(c, s', g)
    {
      IndexKept(c, s, s', g);
    }
  }

  lemma UpdatedMap(s: State, s': State, t: nat, x: nat, k: Key, d: Value)
    requires Updated(s, s', t, x, k, d) && Shaped(s) && MapOk(s)
    ensures MapOk(s') && MapEvolves(s, s')
  {
    assert s.at[k] == x;
  }

  // Live entry x, whose key is k, dies; thread t is about to bury it.
  ghost predicate Killed(s: State, s': State, t: nat, x: nat, k: Key) {
    && Moves(s, s', t) && s'.mutex == s.mutex && s'.threads[t].pc.Bury? && s'.threads[t].pc.x == x
    && Live(s, x) && s.entries[x].key == k
    && s'.metas == s.metas && s'.entries == s.entries[x := s.entries[x].(value := None)] && s'.owned == s.owned
    && s'.published == s.published && s'.at == s.at - {k} && s'.abs == s.abs - {k}
  }

  lemma KilledKeeps(c: Config, s: State, s': State, t: nat, x: nat, k: Key)
    requires Killed(s, s', t, x, k) && Inv(c, s)
    ensures Shared(c, s') && Evolves(s, s', t)
  {
    hide WellFormed, FilledOk, IndexOk, LockInv, LinInv, ProbeInv, MapOk, EntriesOk, Evolves;
    assert Shaped(s');
    forall g | 0 <= g < |s'.metas|
      ensures IndexOk(c, s', g)
    {
      KilledIndex(c, s, s', t, x, k, g);
    }
    KilledMap(c, s, s', t, x, k);
    KilledEvolves(c, s, s', t, x, k);
    forall u | 0 <= u < |s.threads| && u != t && s.threads[u].pc.Bury?
      ensures s.threads[u].pc.x != x
    {
      assert Local(c, s, u);
      BuryDead(c, s, u);
    }
  }

  lemma KilledIndex(c: Config, s: State, s': State, t: nat, x: nat, k: Key, g: nat)
    requires Killed(s, s', t, x, k) && s.metas != [] && EntriesOk(c, s) && g < |s.metas| && IndexOk(c, s, g)
    ensures g < |s'.metas| && IndexOk(c, s', g)
  {
    hide IndexOk;
    IndexKept(c, s, s', g);
  }

  lemma KilledMap(c: Config, s: State, s': State, t: nat, x: nat, k: Key)
    requires Killed(s, s', t, x, k) && s.metas != [] && MapOk(s) && EntriesOk(c, s)
    ensures MapOk(s') && EntriesOk(c, s')
  {
    assert s.at[k] == x;
  }

  lemma KilledEvolves(c: Config, s: State, s': State, t: nat, x: nat, k: Key)
    requires Killed(s, s', t, x, k) && s.metas != [] && EntriesOk(c, s)
    ensures Evolves(s, s', t)
  {
  }

  lemma BuryDead(c: Config, s: State, u: nat)
    requires u < |s.threads| && s.threads[u].pc.Bury? && ProbeInv(c, s, u)
    ensures !Live(s, s.threads[u].pc.x)
  {
  }

  // ---- changes of an index ----

  // Thread t turns the node of its dead entry into a tombstone.
  ghost predicate Buried(s: State, s': State, t: nat, g: nat, p: nat, x: nat) {
    && Moves(s, s', t) && s'.mutex == s.mutex && !s'.threads[t].pc.Bury?
    && s.threads[t].pc.Bury? && s.threads[t].pc.x == x && !Live(s, x)
    && g < |s.metas| && p < |s.metas[g].index| && s.metas[g].index[p].Node? && s.metas[g].index[p].index == x
    && s'.metas == s.metas[g := s.metas[g].(index := s.metas[g].index[p := Tombstone])] && s'.entries == s.entries
    && s'.owned == s.owned && s'.published == s.published && s'.at == s.at && s'.abs == s.abs
  }

  // A tombstone in place of a node keeps the probing invariant and only that location is lost.
  lemma WithTombstone(idx: seq<Slot>, log: nat, rehash: nat -> nat, p: nat)
    requires WellFormed(idx, log, rehash) && p < |idx| && idx[p].Node?
    ensures WellFormed(idx[p := Tombstone], log, rehash)
    ensures Locations(idx[p := Tombstone]) == Locations(idx) - {idx[p].index}
  {
    var idx' := idx[p := Tombstone];
    forall i, j
      ensures !Clash(idx', i, j)
    {
      assert !Clash(idx, i, j);
    }
    forall q | 0 <= q < |idx| && idx'[q].Node?
      ensures NodeFits(idx', log, rehash, q)
    {
      assert NodeFits(idx, log, rehash, q);
      var w := Home(rehash(idx[q].index), log);
      PathFullKept(idx, idx', w, Gap(w, q, |idx|));
    }
    LocationsLess(idx, p);
  }

  lemma LocationsLess(idx: seq<Slot>, p: nat)
    requires Distinct(idx) && p < |idx| && idx[p].Node?
    ensures Locations(idx[p := Tombstone]) == Locations(idx) - {idx[p].index}
  {
    var idx' := idx[p := Tombstone];
    forall y
      ensures y in Locations(idx') <==> y in Locations(idx) - {idx[p].index}
    {
      if y in Locations(idx') {
        var q :| 0 <= q < |idx| && idx'[q].Node? && idx'[q].index == y;
        assert !Clash(idx, p, q) && !Clash(idx, q, p);
      }
      if y in Locations(idx) && y != idx[p].index {
        var q :| 0 <= q < |idx| && idx[q].Node? && idx[q].index == y;
        assert idx'[q] == idx[q];
      }
    }
  }

  lemma BuriedKeeps(c: Config, s: State, s': State, t: nat, g: nat, p: nat, x: nat)
    requires Buried(s, s', t, g, p, x) && Shared(c, s)
    ensures Shared(c, s') && Evolves(s, s', t)
  {
    hide WellFormed, FilledOk, IndexOk;
    BuryKept(s, s', t);
    assert Shaped(s');
    forall h | 0 <= h < |s'.metas|
      ensures IndexOk(c, s', h)
    {
      if h == g { BuriedIndex(c, s, s', t, g, p, x); } else { IndexKept(c, s, s', h); }
    }
    BuriedMap(c, s, s', t, g, p, x);
  }

  lemma BuriedIndex(c: Config, s: State, s': State, t: nat, g: nat, p: nat, x: nat)
    requires Buried(s, s', t, g, p, x) && IndexOk(c, s, g)
    ensures IndexOk(c, s', g)
  {
    WithTombstone(s.metas[g].index, s.metas[g].log, Rehashed(s.entries, c.rehash), p);
  }

  lemma BuriedMap(c: Config, s: State, s': State, t: nat, g: nat, p: nat, x: nat)
    requires Buried(s, s', t, g, p, x) && Shared(c, s)
    ensures MapOk(s')
  {
    assert IndexOk(c, s, g);
    LocationsLess(s.metas[g].index, p);
  }

  // Reserved entry l takes the empty slot at probe distance d: key k enters the map.
  ghost predicate Inserts(c: Config, s: State, s': State, t: nat, g: nat, d: nat, l: nat, k: Key, v: Value) {
    && Moves(s, s', t) && s'.mutex == s.mutex && !s'.threads[t].pc.Bury?
    && Shaped(s) && g + 1 == |s.metas| && d < |s.metas[g].index|
    && l in s.entries && s.entries[l] == Entry(k, c.hash(k), Some(v)) && l !in s.published
    && 1 <= l < |s.metas[g].index|
    && l in s.owned && s.owned[l] == t
    && s'.entries == s.entries && s'.owned == s.owned - {l} && s'.published == s.published + {l}
    && s'.at == s.at[k := l] && s'.abs == s.abs[k := v]
    && k !in s.at && Skipped(c, s, k, g, d)
    && var m := s.metas[g];
       var p := SlotNo(c, s, k, g, d);
       && p < |m.index| && m.index[p].Empty?
       && s'.metas == s.metas[g := m.(index := m.index[p := Stored(Node(l, c.rehash(c.hash(k)), d), m.log)],
                                      filled := m.filled[p := l])]
  }

  lemma InsertsKeeps(c: Config, s: State, s': State, t: nat, g: nat, d: nat, l: nat, k: Key, v: Value)
    requires Inserts(c, s, s', t, g, d, l, k, v) && Shared(c, s)
    ensures Shared(c, s') && Evolves(s, s', t)
  {
    hide WellFormed, FilledOk, IndexOk, Inserts, MapOk, EntriesOk;
    InsertsFrame(c, s, s', t, g, d, l, k, v);
    BuryKept(s, s', t);
    assert IndexOk(c, s, g);
    InsertsIndex(c, s, s', t, g, d, l, k, v);
    InsertsMap(c, s, s', t, g, d, l, k, v);
    InsertsEvolves(c, s, s', t, g, d, l, k, v);
    forall h | 0 <= h < |s'.metas|
      ensures IndexOk(c, s', h)
    {
      if h != g { InsertsOther(c, s, s', t, g, d, l, k, v, h); }
    }
  }

  lemma InsertsFrame(c: Config, s: State, s': State, t: nat, g: nat, d: nat, l: nat, k: Key, v: Value)
    requires Inserts(c, s, s', t, g, d, l, k, v) && MetasOk(s)
    ensures Moves(s, s', t) && !s'.threads[t].pc.Bury? && |s'.metas| == |s.metas| == g + 1 && MetasOk(s')
  {
    hide Skipped;
    assert Shaped(s');
  }

  lemma InsertsOther(c: Config, s: State, s': State, t: nat, g: nat, d: nat, l: nat, k: Key, v: Value, h: nat)
    requires Inserts(c, s, s', t, g, d, l, k, v) && h < g && IndexOk(c, s, h) && EntriesOk(c, s)
    ensures IndexOk(c, s', h)
  {
    hide WellFormed, FilledOk, IndexOk, Skipped;
    IndexKept(c, s, s', h);
  }

  lemma InsertsMap(c: Config, s: State, s': State, t: nat, g: nat, d: nat, l: nat, k: Key, v: Value)
    requires Inserts(c, s, s', t, g, d, l, k, v) && MapOk(s) && EntriesOk(c, s)
    requires Locations(s'.metas[g].index) == Locations(s.metas[g].index) + {l}
    ensures MapOk(s') && EntriesOk(c, s')
  {
    hide Skipped, EntriesOk, MapOk;
    InsertsEntries(c, s, s', t, g, d, l, k, v);
    MapGrows(s, s', l, k, v);
  }

  lemma InsertsEntries(c: Config, s: State, s': State, t: nat, g: nat, d: nat, l: nat, k: Key, v: Value)
    requires Inserts(c, s, s', t, g, d, l, k, v) && EntriesOk(c, s)
    ensures EntriesOk(c, s')
  {
    hide Skipped;
  }

  lemma MapGrows(s: State, s': State, l: nat, k: Key, v: Value)
    requires s.metas != [] && MapOk(s) && s'.metas != [] && k !in s.at && l !in s.published
    requires l in s.entries && s.entries[l].key == k && s.entries[l].value == Some(v) && s'.entries == s.entries
    requires s'.published == s.published + {l} && s'.at == s.at[k := l] && s'.abs == s.abs[k := v]
    requires s'.log == s.log + [s'.abs]
    requires Locations(s'.metas[Current(s')].index) == Locations(s.metas[Current(s)].index) + {l}
    ensures MapOk(s')
  {
    hide Locations;
    assert forall x :: Live(s', x) && x != l ==> Live(s, x);
  }

  lemma InsertsEvolves(c: Config, s: State, s': State, t: nat, g: nat, d: nat, l: nat, k: Key, v: Value)
    requires Inserts(c, s, s', t, g, d, l, k, v)
    ensures Evolves(s, s', t)
  {
    hide Skipped;
  }

  lemma InsertsIndex(c: Config, s: State, s': State, t: nat, g: nat, d: nat, l: nat, k: Key, v: Value)
    requires Inserts(c, s, s', t, g, d, l, k, v) && IndexOk(c, s, g)
    ensures IndexOk(c, s', g)
    ensures Locations(s'.metas[g].index) == Locations(s.metas[g].index) + {l}
  {
    hide WellFormed, FilledOk, Distinct, PathFull;
    var m := s.metas[g];
    var f := Rehashed(s.entries, c.rehash);
    SkippedPath(c, s, k, g, d);
    assert f(l) == c.rehash(c.hash(k)) && Home(f(l), m.log) == HomeOf(c, k, m.log);
    assert SlotNo(c, s, k, g, d) == Wrap(HomeOf(c, k, m.log) + d, |m.index|);
    Inserted(m.index, m.log, f, l, d);
    InsertsFilled(c, s, s', t, g, d, l, k, v);
  }

  lemma SkippedPath(c: Config, s: State, k: Key, g: nat, d: nat)
    requires Shaped(s) && g < |s.metas| && Skipped(c, s, k, g, d)
    ensures HomeOf(c, k, s.metas[g].log) < |s.metas[g].index|
    ensures PathFull(s.metas[g].index, HomeOf(c, k, s.metas[g].log), d)
  {
  }

  lemma InsertsFilled(c: Config, s: State, s': State, t: nat, g: nat, d: nat, l: nat, k: Key, v: Value)
    requires Inserts(c, s, s', t, g, d, l, k, v) && FilledOk(s.metas[g], s.published)
    ensures FilledOk(s'.metas[g], s'.published)
  {
  }

  // ---- a new generation ----

  ghost predicate Grows(c: Config, s: State, s': State, t: nat, index: seq<Slot>) {
    && Moves(s, s', t) && s'.mutex == s.mutex && !s'.threads[t].pc.Bury?
    && Shaped(s) && s.metas[Current(s)].leader == Some(t) && (forall i :: 0 <= i < |s.mutex| ==> s.mutex[i] == Some(t))
    && s'.entries == s.entries && s'.owned == s.owned && s'.published == s.published && s'.at == s.at && s'.abs == s.abs
    && var m := s.metas[Current(s)];
       && Migrated(m.index, index, m.log, Rehashed(s.entries, c.rehash))
       && s'.metas == s.metas + [Meta(m.log + 1, index, None, FilledBy(index))]
  }

  lemma FilledByNodes(idx: seq<Slot>, log: nat, rehash: nat -> nat, published: set<nat>)
    requires WellFormed(idx, log, rehash) && forall x :: x in Locations(idx) ==> x in published
    requires forall p :: 0 <= p < |idx| ==> !idx[p].Tombstone?
    ensures FilledOk(Meta(log, idx, None, FilledBy(idx)), published)
  {
    var filled := FilledBy(idx);
    forall p | p in filled
      ensures 1 <= filled[p] < |idx| && filled[p] in published
    {
      assert NodeFits(idx, log, rehash, p);
      assert idx[p].index in Locations(idx);
    }
    forall p, q | p in filled && q in filled && p != q
      ensures filled[p] != filled[q]
    {
      assert !Clash(idx, p, q) && !Clash(idx, q, p);
    }
  }

  lemma GrowsKeeps(c: Config, s: State, s': State, t: nat, index: seq<Slot>)
    requires Grows(c, s, s', t, index) && Shared(c, s)
    ensures Shared(c, s') && Evolves(s, s', t)
  {
    hide WellFormed, FilledOk, IndexOk;
    BuryKept(s, s', t);
    var m := s.metas[Current(s)];
    GrownIndex(c, s, s', t, index);
    assert Shaped(s') && |index| == 2 * |m.index|;
    forall h | 0 <= h < |s'.metas|
      ensures IndexOk(c, s', h)
    {
      if h < |s.metas| { IndexKept(c, s, s', h); }
    }
  }

  lemma GrownIndex(c: Config, s: State, s': State, t: nat, index: seq<Slot>)
    requires Grows(c, s, s', t, index) && IndexOk(c, s, Current(s))
    ensures |s'.metas| == |s.metas| + 1 && IndexOk(c, s', |s.metas|)
    ensures LogSize(s'.metas[|s.metas|].log)
    ensures |index| == Pow2(s'.metas[|s.metas|].log) == 2 * |s.metas[Current(s)].index|
    ensures Locations(index) == Locations(s.metas[Current(s)].index)
  {
    var m := s.metas[Current(s)];
    FilledByNodes(index, m.log + 1, Rehashed(s.entries, c.rehash), s.published);
  }
}
