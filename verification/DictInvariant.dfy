// The invariant of DictMachine and the proof that every step keeps it.
module DictInvariant {
  import opened Arith
  import opened NodeCodec
  import opened Options
  import opened MapSpec
  import opened ProbeIndex
  import opened DictMachine

  // REHASH yields 64-bit words.
  ghost predicate GoodConfig(c: Config) {
    forall h :: c.rehash(h) < Word64()
  }

  // ---- shared state ----

  predicate Live(s: State, x: nat) {
    x in s.published && x in s.entries && s.entries[x].value.Some?
  }

  ghost predicate MetasOk(s: State) {
    Shaped(s) && forall g :: 0 <= g < |s.metas| - 1 ==> s.metas[g].leader.Some?
  }

  // Each slot was filled by an entry of its own, never entry 0: the reason why a slot is always empty.
  ghost predicate FilledOk(m: Meta, published: set<nat>) {
    && (forall p :: p in m.filled <==> 0 <= p < |m.index| && !m.index[p].Empty?)
    && (forall p :: p in m.filled ==> 1 <= m.filled[p] < |m.index| && m.filled[p] in published)
    && (forall p, q :: p in m.filled && q in m.filled && p != q ==> m.filled[p] != m.filled[q])
    && (forall p :: 0 <= p < |m.index| && m.index[p].Node? ==> p in m.filled && m.filled[p] == m.index[p].index)
  }

  ghost predicate IndexOk(c: Config, s: State, g: nat)
    requires g < |s.metas|
  {
    && WellFormed(s.metas[g].index, s.metas[g].log, Rehashed(s.entries, c.rehash))
    && (forall x :: x in Locations(s.metas[g].index) ==> x in s.published)
    && FilledOk(s.metas[g], s.published)
  }

  ghost predicate EntriesOk(c: Config, s: State)
    requires s.metas != []
  {
    forall x :: x in s.published ==>
      && x in s.entries && s.entries[x].hash == c.hash(s.entries[x].key)
      && 1 <= x < |s.metas[Current(s)].index| && x !in s.owned
  }

  // The abstract map: `at` gives each key its one live entry, reachable from the current index.
  ghost predicate MapOk(s: State)
    requires s.metas != []
  {
    && s.at.Keys == s.abs.Keys
    && (forall k :: k in s.at ==>
          && Live(s, s.at[k]) && s.entries[s.at[k]].key == k && s.entries[s.at[k]].value == Some(s.abs[k])
          && s.at[k] in Locations(s.metas[Current(s)].index))
    && (forall x :: Live(s, x) ==> s.entries[x].key in s.at && s.at[s.entries[x].key] == x)
    && s.log != [] && s.log[|s.log| - 1] == s.abs
  }

  ghost predicate BuryDistinct(s: State) {
    forall u, v :: 0 <= u < v < |s.threads| && s.threads[u].pc.Bury? && s.threads[v].pc.Bury? ==>
      s.threads[u].pc.x != s.threads[v].pc.x
  }

  ghost predicate Shared(c: Config, s: State) {
    && MetasOk(s)
    && (forall g :: 0 <= g < |s.metas| ==> IndexOk(c, s, g))
    && EntriesOk(c, s)
    && MapOk(s)
    && BuryDistinct(s)
  }

  // ---- one thread: its locks ----

  predicate Holding(s: State, u: nat) {
    u < |s.mutex| && s.mutex[u] == Some(u)
  }

  // Inside the critical section: past the check of resize_leader. The index cannot be replaced.
  predicate Writing(s: State, u: nat, g: nat) {
    Holding(s, u) && g + 1 == |s.metas|
  }

  // Where a probe runs: writers are in their critical section, readers just hold a generation.
  predicate InSection(s: State, u: nat, op: Op, g: nat) {
    if op.Get? then g < |s.metas| else Writing(s, u, g)
  }

  ghost predicate LeadsOn(s: State, u: nat, g: nat, k: nat) {
    && g + 1 == |s.metas| && s.metas[g].leader == Some(u) && k <= |s.mutex|
    && forall i :: 0 <= i < k ==> s.mutex[i] == Some(u)
  }

  ghost predicate LockInv(s: State, u: nat)
    requires u < |s.threads|
  {
    match s.threads[u].pc
    case Idle => true
    case Fetch(_) => true
    case TryLock(op, g) => g < |s.metas| && !op.Get?
    case HelpCheck(op, g) => g < |s.metas| && !op.Get?
    case Block(op, g) => g < |s.metas| && !op.Get?
    case Check(op, g) => g < |s.metas| && Holding(s, u) && !op.Get?
    case Drop(_, g, _) => g < |s.metas| && Holding(s, u)
    case Reserve(op, g) => Writing(s, u, g) && Inserting(op)
    case Probe(op, g, _, _) => InSection(s, u, op, g)
    case Load(op, g, _, _, _) => InSection(s, u, op, g)
    case Compare(op, g, _, _, _, _) => InSection(s, u, op, g)
    case Swap(op, g, _, _, _, _) => Writing(s, u, g) && !op.Get?
    case Reload(op, g, _, _, _) => Writing(s, u, g) && !op.Get?
    case Publish(op, g, _, _) => Writing(s, u, g) && Inserting(op)
    case Bury(op, g, _, _) => Writing(s, u, g) && op.Delete?
    case Unlock(op, g, _) => Writing(s, u, g) && !op.Get?
    case Return(_, _) => true
    case GrowFetch(_) => true
    case Elect(_, g) => g < |s.metas|
    case Follow(_, g) => g < |s.metas|
    case Lead(_, g, k) => LeadsOn(s, u, g, k)
    case Migrating(_, g) => LeadsOn(s, u, g, |s.mutex|)
    case Release(_, k) => k <= |s.mutex| && forall i :: k <= i < |s.mutex| ==> s.mutex[i] == Some(u)
  }

  // ---- one thread: its moments ----

  ghost predicate AbsentSince(log: seq<map<Key, Value>>, start: nat, k: Key) {
    exists m :: start <= m < |log| && k !in log[m]
  }

  ghost predicate HeldSince(log: seq<map<Key, Value>>, start: nat, k: Key, v: Value) {
    exists m :: start <= m < |log| && k in log[m] && log[m][k] == v
  }

  // The result is what the atomic operation gives at a moment of the call: at the moment `lin` when it
  // changed the map, or, for an operation that changed nothing, at some moment.
  ghost predicate Justified(log: seq<map<Key, Value>>, th: Thread, op: Op, r: Result) {
    match th.lin
    case Some(m) => th.start < m < |log| && Atomically(op, log[m - 1]) == Outcome(r, log[m])
    case None => exists m :: th.start <= m < |log| && Atomically(op, log[m]) == Outcome(r, log[m])
  }

  ghost predicate ContOk(s: State, th: Thread, cont: Cont) {
    match cont
    case Again(_) => th.lin.None?
    case Done(op, r) => Justified(s.log, th, op, r)
  }

  ghost predicate LinInv(s: State, u: nat)
    requires u < |s.threads|
  {
    var th := s.threads[u];
    && th.start < |s.log|
    && match th.pc
       case Idle => true
       case Unlock(op, _, r) => Justified(s.log, th, op, r)
       case Return(op, r) => Justified(s.log, th, op, r)
       case Bury(op, _, _, _) => Justified(s.log, th, op, Deleted)
       case Drop(cont, _, _) => ContOk(s, th, cont)
       case GrowFetch(cont) => ContOk(s, th, cont)
       case Elect(cont, _) => ContOk(s, th, cont)
       case Follow(cont, _) => ContOk(s, th, cont)
       case Lead(cont, _, _) => ContOk(s, th, cont)
       case Migrating(cont, _) => ContOk(s, th, cont)
       case Release(cont, _) => ContOk(s, th, cont)
       case _ => th.lin.None?
  }

  // ---- one thread: its probe ----

  // If the key was there all along since the call, its entry is in the generation that the call fetched.
  ghost predicate Tracked(s: State, u: nat, k: Key, g: nat)
    requires u < |s.threads| && g < |s.metas|
  {
    AbsentSince(s.log, s.threads[u].start, k) || (k in s.at && s.at[k] in Locations(s.metas[g].index))
  }

  // The slots passed so far are taken, and for ever, by something else than a live entry of the key.
  ghost predicate Skipped(c: Config, s: State, k: Key, g: nat, d: nat)
    requires Shaped(s) && g < |s.metas|
  {
    var n, w := |s.metas[g].index|, HomeOf(c, k, s.metas[g].log);
    && w < n && d <= n
    && forall p :: 0 <= p < n && Gap(w, p, n) < d ==>
         !s.metas[g].index[p].Empty? && !Matches(s.metas[g].index, s.entries, k, p)
  }

  // The entry reserved for an insertion is this thread's alone and holds the key and the new value.
  ghost predicate Reserved(c: Config, s: State, u: nat, op: Op, g: nat, l: nat)
    requires g < |s.metas|
  {
    && op.CompareAndSet? && l in s.owned && s.owned[l] == u && l !in s.published && 1 <= l < |s.metas[g].index|
    && l in s.entries && s.entries[l] == Entry(op.key, c.hash(op.key), Some(op.desired))
  }

  ghost predicate Walking(c: Config, s: State, u: nat, op: Op, g: nat, d: nat, loc: Option<nat>)
    requires u < |s.threads|
  {
    && Shaped(s) && g < |s.metas|
    && Tracked(s, u, op.key, g) && Skipped(c, s, op.key, g, d)
    && (loc.Some? ==> Inserting(op) && Reserved(c, s, u, op, g, loc.value))
    && (Inserting(op) ==> loc.Some?)
  }

  ghost predicate OnSlot(s: State, g: nat, p: nat, x: nat)
    requires g < |s.metas|
  {
    && p < |s.metas[g].index| && x in s.published && x in s.entries
    && match s.metas[g].index[p]
       case Empty => false
       case Tombstone => !Live(s, x)
       case Node(y, _, _) => y == x
  }

  ghost predicate AtNode(c: Config, s: State, u: nat, op: Op, g: nat, d: nat, loc: Option<nat>, x: nat)
    requires u < |s.threads|
  {
    && Walking(c, s, u, op, g, d, loc)
    && d < |s.metas[g].index| && OnSlot(s, g, SlotNo(c, s, op.key, g, d), x)
  }

  // The entry was live at some moment of the call, and if it no longer is, its key has been absent.
  ghost predicate LiveOrGone(s: State, u: nat, x: nat)
    requires u < |s.threads| && x in s.entries
  {
    Live(s, x) || AbsentSince(s.log, s.threads[u].start, s.entries[x].key)
  }

  predicate SwapFits(op: Op, v: Value) {
    match op
    case Get(_) => false
    case CompareAndSet(_, NotFound, _) => false
    case CompareAndSet(_, Any, _) => true
    case CompareAndSet(_, Exactly(e), _) => v == e
    case Delete(_) => true
  }

  ghost predicate ProbeInv(c: Config, s: State, u: nat)
    requires u < |s.threads|
  {
    match s.threads[u].pc
    case Probe(op, g, d, loc) => Walking(c, s, u, op, g, d, loc)
    case Load(op, g, d, loc, x) => AtNode(c, s, u, op, g, d, loc, x)
    case Compare(op, g, d, loc, x, v) =>
      && AtNode(c, s, u, op, g, d, loc, x) && LiveOrGone(s, u, x)
      && HeldSince(s.log, s.threads[u].start, s.entries[x].key, v)
    case Swap(op, g, d, loc, x, v) =>
      && AtNode(c, s, u, op, g, d, loc, x) && LiveOrGone(s, u, x) && s.entries[x].key == op.key && SwapFits(op, v)
    case Reload(op, g, d, loc, x) =>
      && AtNode(c, s, u, op, g, d, loc, x) && LiveOrGone(s, u, x) && s.entries[x].key == op.key
      && (op.CompareAndSet? ==> !op.expected.NotFound?)
    case Publish(op, g, d, l) => Walking(c, s, u, op, g, d, Some(l)) && d < |s.metas[g].index|
    case Bury(op, g, d, x) =>
      && Shaped(s) && g < |s.metas| && x in s.published && x in s.entries && !Live(s, x)
      && var p := SlotNo(c, s, op.key, g, d);
         p < |s.metas[g].index| && s.metas[g].index[p].Node? && s.metas[g].index[p].index == x
    case _ => true
  }

  ghost predicate Local(c: Config, s: State, u: nat)
    requires u < |s.threads|
  {
    LockInv(s, u) && LinInv(s, u) && ProbeInv(c, s, u)
  }

  ghost predicate Inv(c: Config, s: State) {
    Shared(c, s) && forall u :: 0 <= u < |s.threads| ==> Local(c, s, u)
  }

  // ---- what a step may do to the others ----

  ghost predicate EntriesEvolve(s: State, s': State) {
    forall x :: x in s.published && x in s.entries ==>
      && x in s'.published && x in s'.entries
      && s'.entries[x].key == s.entries[x].key && s'.entries[x].hash == s.entries[x].hash
      && (s.entries[x].value.None? ==> s'.entries[x].value.None?)
  }

  // A slot that is taken stays taken: its node may only turn into a tombstone, once its entry is dead, by
  // the thread that killed the entry.
  ghost predicate SlotEvolves(s: State, s': State, t: nat, g: nat, p: nat)
    requires t < |s.threads| && g < |s.metas| <= |s'.metas| && p < |s.metas[g].index| == |s'.metas[g].index|
  {
    var a, b := s.metas[g].index[p], s'.metas[g].index[p];
    !a.Empty? ==>
      b == a || (b.Tombstone? && a.Node? && !Live(s', a.index) && s.threads[t].pc.Bury? && s.threads[t].pc.x == a.index)
  }

  ghost predicate MetasEvolve(s: State, s': State, t: nat)
    requires t < |s.threads|
  {
    && |s.metas| <= |s'.metas|
    && forall g :: 0 <= g < |s.metas| ==>
         && s'.metas[g].log == s.metas[g].log && |s'.metas[g].index| == |s.metas[g].index|
         && (s.metas[g].leader.Some? ==> s'.metas[g].leader == s.metas[g].leader)
         && forall p :: 0 <= p < |s.metas[g].index| ==> SlotEvolves(s, s', t, g, p)
  }

  ghost predicate MapEvolves(s: State, s': State) {
    && s'.log == s.log + [s'.abs]
    && forall k :: k in s.at && k in s'.at ==> s'.at[k] == s.at[k]
  }

  // Nobody touches what another thread holds; and the current generation is replaced only by its
  // leader, holding every lock.
  ghost predicate LocksEvolve(s: State, s': State, t: nat)
    requires t < |s.threads|
  {
    && |s'.threads| == |s.threads| && |s'.mutex| == |s.mutex|
    && (forall u :: 0 <= u < |s.threads| && u != t ==> s'.threads[u] == s.threads[u])
    && (forall i, u :: 0 <= i < |s.mutex| && s.mutex[i] == Some(u) && u != t ==> s'.mutex[i] == Some(u))
    && (|s'.metas| > |s.metas| ==>
          s.metas != [] && s.metas[Current(s)].leader == Some(t)
          && forall i :: 0 <= i < |s.mutex| ==> s.mutex[i] == Some(t))
    && forall l :: l in s.owned && s.owned[l] != t ==>
         && l in s'.owned && s'.owned[l] == s.owned[l]
         && (l in s.entries ==> l in s'.entries && s'.entries[l] == s.entries[l])
  }

  ghost predicate Evolves(s: State, s': State, t: nat)
    requires t < |s.threads|
  {
    EntriesEvolve(s, s') && MetasEvolve(s, s', t) && MapEvolves(s, s') && LocksEvolve(s, s', t)
  }

  // ---- the others keep their invariants ----

  lemma LocksStable(s: State, s': State, t: nat, u: nat)
    requires t < |s.threads| && u < |s.threads| && u != t && Evolves(s, s', t)
    requires |s.mutex| == |s.threads| && LockInv(s, u)
    ensures |s'.threads| == |s.threads| && LockInv(s', u)
  {
  }

  lemma SinceGrows(log: seq<map<Key, Value>>, m: map<Key, Value>, th: Thread)
    ensures forall k :: AbsentSince(log, th.start, k) ==> AbsentSince(log + [m], th.start, k)
    ensures forall k, v :: HeldSince(log, th.start, k, v) ==> HeldSince(log + [m], th.start, k, v)
    ensures forall op, r :: Justified(log, th, op, r) ==> Justified(log + [m], th, op, r)
    ensures forall k :: th.start <= |log| && k !in m ==> AbsentSince(log + [m], th.start, k)
  {
    var log' := log + [m];
    assert log'[|log|] == m;
    forall k | AbsentSince(log, th.start, k)
      ensures AbsentSince(log', th.start, k)
    {
      var i :| th.start <= i < |log| && k !in log[i];
      assert log'[i] == log[i];
    }
    forall k, v | HeldSince(log, th.start, k, v)
      ensures HeldSince(log', th.start, k, v)
    {
      var i :| th.start <= i < |log| && k in log[i] && log[i][k] == v;
      assert log'[i] == log[i];
    }
    forall op, r | Justified(log, th, op, r)
      ensures Justified(log', th, op, r)
    {
      if th.lin.None? {
        var i :| th.start <= i < |log| && Atomically(op, log[i]) == Outcome(r, log[i]);
        assert log'[i] == log[i];
      }
    }
  }

  lemma MomentsStable(s: State, s': State, t: nat, u: nat)
    requires t < |s.threads| && u < |s.threads| && u != t && Evolves(s, s', t) && LinInv(s, u)
    ensures |s'.threads| == |s.threads| && LinInv(s', u)
  {
    SinceGrows(s.log, s'.abs, s.threads[u]);
  }

  lemma TrackedStable(c: Config, s: State, s': State, t: nat, u: nat, k: Key, g: nat)
    requires t < |s.threads| && u < |s.threads| && u != t && Evolves(s, s', t) && Shared(c, s) && Shared(c, s')
    requires s.threads[u].start < |s.log| && g < |s.metas| && Tracked(s, u, k, g)
    ensures Tracked(s', u, k, g)
  {
    SinceGrows(s.log, s'.abs, s.threads[u]);
    var th := s.threads[u];
    if AbsentSince(s.log, th.start, k) {
    } else if k !in s'.at {
      assert AbsentSince(s'.log, th.start, k);
    } else {
      StillLocated(s, s', t, g, s.at[k]);
    }
  }

  // A live entry stays reachable.
  lemma StillLocated(s: State, s': State, t: nat, g: nat, x: nat)
    requires t < |s.threads| && Evolves(s, s', t) && g < |s.metas| && x in Locations(s.metas[g].index) && Live(s', x)
    ensures x in Locations(s'.metas[g].index)
  {
    var p :| 0 <= p < |s.metas[g].index| && s.metas[g].index[p].Node? && s.metas[g].index[p].index == x;
    assert SlotEvolves(s, s', t, g, p);
    assert s'.metas[g].index[p].index == x;
  }

  lemma SkippedStable(c: Config, s: State, s': State, t: nat, k: Key, g: nat, d: nat)
    requires t < |s.threads| && Evolves(s, s', t) && Shared(c, s) && Shared(c, s') && g < |s.metas|
    requires Skipped(c, s, k, g, d)
    ensures Skipped(c, s', k, g, d)
  {
    var n, w := |s.metas[g].index|, HomeOf(c, k, s.metas[g].log);
    forall p | 0 <= p < n && Gap(w, p, n) < d
      ensures !s'.metas[g].index[p].Empty? && !Matches(s'.metas[g].index, s'.entries, k, p)
    {
      assert SlotEvolves(s, s', t, g, p) && IndexOk(c, s, g);
      if s.metas[g].index[p].Node? {
        assert s.metas[g].index[p].index in Locations(s.metas[g].index);
      }
    }
  }

  lemma WalkingStable(c: Config, s: State, s': State, t: nat, u: nat, op: Op, g: nat, d: nat, loc: Option<nat>)
    requires t < |s.threads| && u < |s.threads| && u != t && Evolves(s, s', t) && Shared(c, s) && Shared(c, s')
    requires s.threads[u].start < |s.log| && Walking(c, s, u, op, g, d, loc)
    ensures Walking(c, s', u, op, g, d, loc)
  {
    TrackedStable(c, s, s', t, u, op.key, g);
    SkippedStable(c, s, s', t, op.key, g, d);
    if loc.Some? {
      ReservedStable(c, s, s', t, u, op, g, loc.value);
    }
  }

  lemma ReservedStable(c: Config, s: State, s': State, t: nat, u: nat, op: Op, g: nat, l: nat)
    requires t < |s.threads| && u != t && Evolves(s, s', t) && Shared(c, s')
    requires g < |s.metas| && Reserved(c, s, u, op, g, l)
    ensures Reserved(c, s', u, op, g, l)
  {
  }

  // An entry that dies takes its key out of the map at that moment.
  lemma LiveOrGoneStable(c: Config, s: State, s': State, t: nat, u: nat, x: nat)
    requires t < |s.threads| && u < |s.threads| && u != t && Evolves(s, s', t) && Shared(c, s) && Shared(c, s')
    requires s.threads[u].start < |s.log| && x in s.published && x in s.entries && LiveOrGone(s, u, x)
    ensures x in s'.entries && s'.entries[x].key == s.entries[x].key && LiveOrGone(s', u, x)
  {
    SinceGrows(s.log, s'.abs, s.threads[u]);
    var k := s.entries[x].key;
    assert k in s'.at ==> Live(s', s'.at[k]);
    assert Live(s, x) ==> k in s.at && s.at[k] == x;
  }

  lemma AtNodeStable(c: Config, s: State, s': State, t: nat, u: nat, op: Op, g: nat, d: nat, loc: Option<nat>, x: nat)
    requires t < |s.threads| && u < |s.threads| && u != t && Evolves(s, s', t) && Shared(c, s) && Shared(c, s')
    requires s.threads[u].start < |s.log| && AtNode(c, s, u, op, g, d, loc, x)
    ensures AtNode(c, s', u, op, g, d, loc, x)
  {
    WalkingStable(c, s, s', t, u, op, g, d, loc);
    assert SlotEvolves(s, s', t, g, SlotNo(c, s, op.key, g, d));
  }

  lemma BuryStable(c: Config, s: State, s': State, t: nat, u: nat)
    requires t < |s.threads| && u < |s.threads| && u != t && Evolves(s, s', t) && Shared(c, s) && Shared(c, s')
    requires s.threads[u].pc.Bury? && ProbeInv(c, s, u)
    ensures ProbeInv(c, s', u)
  {
    var pc := s.threads[u].pc;
    assert SlotEvolves(s, s', t, pc.g, SlotNo(c, s, pc.op.key, pc.g, pc.distance));
  }

  lemma ProbeStable(c: Config, s: State, s': State, t: nat, u: nat)
    requires t < |s.threads| && u < |s.threads| && u != t && Evolves(s, s', t) && Shared(c, s) && Shared(c, s')
    requires s.threads[u].start < |s.log| && ProbeInv(c, s, u)
    ensures ProbeInv(c, s', u)
  {
    hide Shared, Evolves, Walking, AtNode, LiveOrGone, HeldSince;
    EvolvesThread(s, s', t, u);
    match s.threads[u].pc {
      case Probe(op, g, d, loc) => WalkingStable(c, s, s', t, u, op, g, d, loc);
      case Load(op, g, d, loc, x) => AtNodeStable(c, s, s', t, u, op, g, d, loc, x);
      case Compare(op, g, d, loc, x, v) =>
        CompareStable(c, s, s', t, u, op, g, d, loc, x, v);
      case Swap(op, g, d, loc, x, v) =>
        AtNodeStable(c, s, s', t, u, op, g, d, loc, x);
        AtNodeEntry(c, s, u, op, g, d, loc, x);
        LiveOrGoneStable(c, s, s', t, u, x);
      case Reload(op, g, d, loc, x) =>
        AtNodeStable(c, s, s', t, u, op, g, d, loc, x);
        AtNodeEntry(c, s, u, op, g, d, loc, x);
        LiveOrGoneStable(c, s, s', t, u, x);
      case Publish(op, g, d, l) =>
        WalkingStable(c, s, s', t, u, op, g, d, Some(l));
        WalkingRange(c, s, u, op, g, d, Some(l));
        EvolvesSize(s, s', t, g);
      case Bury(_, _, _, _) => BuryStable(c, s, s', t, u);
      case _ =>
    }
  }

  lemma EvolvesThread(s: State, s': State, t: nat, u: nat)
    requires t < |s.threads| && u < |s.threads| && u != t && Evolves(s, s', t)
    ensures |s'.threads| == |s.threads| && s'.threads[u] == s.threads[u] && s'.log == s.log + [s'.abs]
  {
  }

  lemma EvolvesSize(s: State, s': State, t: nat, g: nat)
    requires t < |s.threads| && g < |s.metas| && Evolves(s, s', t)
    ensures g < |s'.metas| && |s'.metas[g].index| == |s.metas[g].index|
  {
  }

  lemma WalkingRange(c: Config, s: State, u: nat, op: Op, g: nat, d: nat, loc: Option<nat>)
    requires u < |s.threads| && Walking(c, s, u, op, g, d, loc)
    ensures Shaped(s) && g < |s.metas|
  {
  }

  lemma AtNodeEntry(c: Config, s: State, u: nat, op: Op, g: nat, d: nat, loc: Option<nat>, x: nat)
    requires u < |s.threads| && AtNode(c, s, u, op, g, d, loc, x)
    ensures x in s.published && x in s.entries
  {
  }

  lemma CompareStable(c: Config, s: State, s': State, t: nat, u: nat, op: Op, g: nat, d: nat, loc: Option<nat>,
      x: nat, v: Value)
    requires t < |s.threads| && u < |s.threads| && u != t && Evolves(s, s', t) && Shared(c, s) && Shared(c, s')
    requires s.threads[u].start < |s.log| && AtNode(c, s, u, op, g, d, loc, x) && LiveOrGone(s, u, x)
    requires HeldSince(s.log, s.threads[u].start, s.entries[x].key, v)
    ensures AtNode(c, s', u, op, g, d, loc, x) && LiveOrGone(s', u, x)
    ensures HeldSince(s'.log, s.threads[u].start, s'.entries[x].key, v)
  {
    hide Shared, Walking;
    AtNodeStable(c, s, s', t, u, op, g, d, loc, x);
    LiveOrGoneStable(c, s, s', t, u, x);
    SinceGrows(s.log, s'.abs, s.threads[u]);
  }

  // Rely and guarantee: a step that only evolves the shared state keeps every other thread's invariant.
  lemma OthersStable(c: Config, s: State, s': State, t: nat, u: nat)
    requires t < |s.threads| && u < |s.threads| && u != t && Evolves(s, s', t) && Inv(c, s) && Shared(c, s')
    ensures |s'.threads| == |s.threads| && Local(c, s', u)
  {
    hide Shared, Evolves, LockInv, LinInv, ProbeInv;
    assert Local(c, s, u);
    SharedShape(c, s);
    LocksStable(s, s', t, u);
    MomentsStable(s, s', t, u);
    StartOk(s, u);
    ProbeStable(c, s, s', t, u);
  }

  lemma SharedShape(c: Config, s: State)
    requires Shared(c, s)
    ensures Shaped(s)
  {
  }

  lemma StartOk(s: State, u: nat)
    requires u < |s.threads| && LinInv(s, u)
    ensures s.threads[u].start < |s.log|
  {
  }
}
