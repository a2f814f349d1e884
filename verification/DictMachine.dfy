// get, compare-and-set and delete as interleaved steps (lookup.c, insert.c, delete.c), with the locks and
// the publication of new generations that they meet (resize.c, accessor_storage.c). A step is one access to
// shared memory. Stores to an entry that is not published yet are invisible and make one step.
module DictMachine {
  import opened Arith
  import opened NodeCodec
  import opened Options
  import opened MapSpec
  import opened ProbeIndex

  // ---- state ----

  // The user's hash, and REHASH of it.
  datatype Config = Config(hash: Key -> nat, rehash: nat -> nat)

  // One AtomicDictMeta. `filled` remembers which entry filled a slot; no step reads it.
  datatype Meta = Meta(log: nat, index: seq<Slot>, leader: Option<nat>, filled: map<nat, nat>)

  // What a thread that grows the table does afterwards.
  datatype Cont = Again(op: Op) | Done(op: Op, result: Result)

  // Where a thread is. `g` is the generation it fetched, `distance` the probe distance, `loc` the entry
  // reserved for an insertion, `x` the entry that the probed node refers to.
  datatype Pc =
    | Idle
    | Fetch(op: Op)                                        // get_meta
    | TryLock(op: Op, g: nat)                              // _PyMutex_TryLock(self_mutex)
    | HelpCheck(op: Op, g: nat)                            // the lock was taken: read resize_leader
    | Block(op: Op, g: nat)                                // PyMutex_Lock(self_mutex)
    | Check(op: Op, g: nat)                                // lock held: read resize_leader
    | Drop(cont: Cont, g: nat, grow: bool)                 // release the lock, then grow or help
    | Reserve(op: Op, g: nat)                              // get_empty_entry, and the entry's stores
    | Probe(op: Op, g: nat, distance: nat, loc: Option<nat>)
    | Load(op: Op, g: nat, distance: nat, loc: Option<nat>, x: nat)
    | Compare(op: Op, g: nat, distance: nat, loc: Option<nat>, x: nat, v: Value)
    | Swap(op: Op, g: nat, distance: nat, loc: Option<nat>, x: nat, v: Value)
    | Reload(op: Op, g: nat, distance: nat, loc: Option<nat>, x: nat)
    | Publish(op: Op, g: nat, distance: nat, entry: nat)
    | Bury(op: Op, g: nat, distance: nat, x: nat)          // write the tombstone
    | Unlock(op: Op, g: nat, result: Result)
    | Return(op: Op, result: Result)
    | GrowFetch(cont: Cont)                                // grow: get_meta
    | Elect(cont: Cont, g: nat)                            // CAS on resize_leader
    | Follow(cont: Cont, g: nat)                           // wait for resize_done
    | Lead(cont: Cont, g: nat, k: nat)                     // begin_synchronous_operation: lock accessor k
    | Migrating(cont: Cont, g: nat)                        // every lock held, about to publish
    | Release(cont: Cont, k: nat)                          // end_synchronous_operation

  // `start` is the moment of the call and `lin` the moment of its effect on the map.
  datatype Thread = Thread(pc: Pc, start: nat, lin: Option<nat>)

  // `len` is self->len and `local` each accessor's local_len. Bookkeeping that no step reads: `published`
  // entries, `at`, the live entry of each key, the abstract map `abs`, and its history `log`, one map per moment.
  datatype State = State(
    metas: seq<Meta>, entries: map<nat, Entry>, owned: map<nat, nat>, mutex: seq<Option<nat>>, threads: seq<Thread>,
    len: nat, local: seq<int>, published: set<nat>, at: map<Key, nat>, abs: map<Key, Value>, log: seq<map<Key, Value>>)

  // ---- steps ----

  function HomeOf(c: Config, key: Key, log: nat): nat
    requires LogSize(log)
  {
    Home(c.rehash(c.hash(key)), log)
  }

  function TagFor(c: Config, key: Key, log: nat): nat
    requires LogSize(log)
  {
    MaskTag(c.rehash(c.hash(key)), log)
  }

  predicate Shaped(s: State) {
    && s.metas != [] && s.log != [] && |s.mutex| == |s.threads| == |s.local|
    && forall g :: 0 <= g < |s.metas| ==> LogSize(s.metas[g].log) && |s.metas[g].index| == Pow2(s.metas[g].log)
  }

  // (distance0 + distance) & (size - 1)
  function SlotNo(c: Config, s: State, key: Key, g: nat, distance: nat): (p: nat)
    requires Shaped(s) && g < |s.metas|
    ensures p < |s.metas[g].index|
  {
    var n := |s.metas[g].index|;
    var h := HomeOf(c, key, s.metas[g].log);
    if h < n && distance < n then Wrap(h + distance, n) else 0
  }

  function Current(s: State): nat { if s.metas == [] then 0 else |s.metas| - 1 }

  // The actor moves to pc; the map does not change.
  function Goto(s: State, t: nat, pc: Pc): State
    requires t < |s.threads|
  {
    s.(threads := s.threads[t := s.threads[t].(pc := pc)], log := s.log + [s.abs])
  }

  // The actor moves to pc and its operation takes effect now.
  function Effect(s: State, t: nat, pc: Pc, abs: map<Key, Value>): State
    requires t < |s.threads|
  {
    s.(threads := s.threads[t := s.threads[t].(pc := pc, lin := Some(|s.log|))], abs := abs, log := s.log + [abs])
  }

  predicate Inserting(op: Op) {
    op.CompareAndSet? && !op.expected.Exactly?
  }

  // What an operation answers when its probe reaches an empty slot without inserting.
  function AbsentResult(op: Op): Result {
    match op
    case Get(_) => WasNotFound
    case CompareAndSet(_, _, _) => ExpectationFailed
    case Delete(_) => KeyError
  }

  // Readers hold no lock.
  function Finish(op: Op, g: nat, r: Result): Pc {
    if op.Get? then Return(op, r) else Unlock(op, g, r)
  }

  // What the probe does with the slot it read.
  function ProbeNext(c: Config, log: nat, op: Op, g: nat, d: nat, loc: Option<nat>, slot: Slot): Pc
    requires LogSize(log)
  {
    match slot
    case Empty => if Inserting(op) && loc.Some? then Publish(op, g, d, loc.value) else Finish(op, g, AbsentResult(op))
    case Tombstone => Probe(op, g, d + 1, loc)
    case Node(x, tag, _) => if tag == TagFor(c, op.key, log) then Load(op, g, d, loc, x) else Probe(op, g, d + 1, loc)
  }

  function ProbeStep(c: Config, s: State, t: nat, op: Op, g: nat, d: nat, loc: Option<nat>): State
    requires Shaped(s) && t < |s.threads| && g < |s.metas|
  {
    if d < |s.metas[g].index| then
      Goto(s, t, ProbeNext(c, s.metas[g].log, op, g, d, loc, s.metas[g].index[SlotNo(c, s, op.key, g, d)]))
    else
      // traversed the entire index
      Goto(s, t, if op.CompareAndSet? then Drop(Again(op), g, true) else Finish(op, g, AbsentResult(op)))
  }

  // The value, loaded first by read_entry.
  function LoadStep(s: State, t: nat, op: Op, g: nat, d: nat, loc: Option<nat>, x: nat): State
    requires t < |s.threads|
  {
    if x in s.entries && s.entries[x].value.Some? then Goto(s, t, Compare(op, g, d, loc, x, s.entries[x].value.value))
    else Goto(s, t, Probe(op, g, d + 1, loc))
  }

  // With the key found and v read, an update or delete goes on to its CAS unless v is not as expected.
  function WithValue(op: Op, g: nat, d: nat, loc: Option<nat>, x: nat, v: Value): Pc {
    match op
    case Get(_) => Return(op, Returned(v))
    case CompareAndSet(_, NotFound, _) => Unlock(op, g, ExpectationFailed)
    case CompareAndSet(_, Any, _) => Swap(op, g, d, loc, x, v)
    case CompareAndSet(_, Exactly(e), _) =>
      if v != e then Unlock(op, g, ExpectationFailed) else Swap(op, g, d, loc, x, v)
    case Delete(_) => Swap(op, g, d, loc, x, v)
  }

  function CompareStep(c: Config, s: State, t: nat, op: Op, g: nat, d: nat, loc: Option<nat>, x: nat, v: Value): State
    requires t < |s.threads|
  {
    if x in s.entries && s.entries[x].hash == c.hash(op.key) && s.entries[x].key == op.key
    then Goto(s, t, WithValue(op, g, d, loc, x, v))
    else Goto(s, t, Probe(op, g, d + 1, loc))
  }

  // The CAS on the entry's value.
  function SwapStep(s: State, t: nat, op: Op, g: nat, d: nat, loc: Option<nat>, x: nat, v: Value): State
    requires t < |s.threads|
  {
    if x !in s.entries || s.entries[x].value != Some(v) then Goto(s, t, Reload(op, g, d, loc, x))
    else match op
      case Get(_) => s
      case CompareAndSet(k, _, desired) =>
        Effect(s.(entries := s.entries[x := s.entries[x].(value := Some(desired))]), t,
               Unlock(op, g, Returned(v)), s.abs[k := desired])
      case Delete(k) =>
        Effect(s.(entries := s.entries[x := s.entries[x].(value := None)], at := s.at - {k}), t,
               Bury(op, g, d, x), s.abs - {k})
  }

  // The entry's value, read again after a failed CAS.
  function ReloadStep(s: State, t: nat, op: Op, g: nat, d: nat, loc: Option<nat>, x: nat): State
    requires t < |s.threads|
  {
    if x in s.entries && s.entries[x].value.Some? then Goto(s, t, WithValue(op, g, d, loc, x, s.entries[x].value.value))
    else if op.CompareAndSet? && op.expected.Any? then Goto(s, t, Probe(op, g, d + 1, loc))
    else Goto(s, t, Unlock(op, g, AbsentResult(op)))
  }

  // The CAS on the index slot: on success the insertion takes effect.
  function PublishStep(c: Config, s: State, t: nat, op: Op, g: nat, d: nat, loc: nat): State
    requires Shaped(s) && t < |s.threads| && g < |s.metas| && op.CompareAndSet?
  {
    var m := s.metas[g];
    var p := SlotNo(c, s, op.key, g, d);
    if !m.index[p].Empty? then Goto(s, t, Probe(op, g, d, Some(loc)))
    else
      var node := Stored(Node(loc, c.rehash(c.hash(op.key)), d), m.log);
      Effect(s.(metas := s.metas[g := m.(index := m.index[p := node], filled := m.filled[p := loc])],
                published := s.published + {loc}, owned := s.owned - {loc}, at := s.at[op.key := loc]),
             t, Unlock(op, g, WasNotFound), s.abs[op.key := op.desired])
  }

  // The CAS that turns the node into a tombstone; its outcome is not used.
  function BuryStep(c: Config, s: State, t: nat, op: Op, g: nat, d: nat, x: nat): State
    requires Shaped(s) && t < |s.threads| && g < |s.metas|
  {
    var m := s.metas[g];
    var p := SlotNo(c, s, op.key, g, d);
    if !m.index[p].Node? || m.index[p].index != x then Goto(s, t, Unlock(op, g, Deleted))
    else Goto(s.(metas := s.metas[g := m.(index := m.index[p := Tombstone])]), t, Unlock(op, g, Deleted))
  }

  function Resume(cont: Cont): Pc {
    match cont
    case Again(op) => Fetch(op)
    case Done(op, r) => Return(op, r)
  }

  // begin_synchronous_operation: the next accessor's lock.
  function LeadStep(s: State, t: nat, cont: Cont, g: nat, k: nat): State
    requires t < |s.threads|
  {
    if k < |s.mutex| then Goto(s.(mutex := s.mutex[k := Some(t)]), t, Lead(cont, g, k + 1))
    else Goto(s, t, Migrating(cont, g))
  }

  // end_synchronous_operation: the next accessor's lock.
  function ReleaseStep(s: State, t: nat, cont: Cont, k: nat): State
    requires t < |s.threads|
  {
    if k < |s.mutex| then Goto(s.(mutex := s.mutex[k := None]), t, Release(cont, k + 1))
    else Goto(s, t, Resume(cont))
  }

  // What the scheduler or the environment chooses: the call made, the entry reserved, whether to grow,
  // and the migrated index.
  datatype Choice = Choice(op: Op, loc: nat, grow: bool, index: seq<Slot>)

  predicate Reservable(s: State, t: nat, g: nat, loc: nat)
    requires g < |s.metas|
  {
    && 1 <= loc < |s.metas[g].index| && loc !in s.published
    && (loc in s.owned ==> s.owned[loc] == t)
  }

  // What migration leaves: the same reachable entries in a well-formed index of twice the size, and no
  // tombstones.
  ghost predicate Migrated(old_: seq<Slot>, new_: seq<Slot>, log: nat, rehash: nat -> nat) {
    && WellFormed(new_, log + 1, rehash)
    && Locations(new_) == Locations(old_)
    && forall p :: 0 <= p < |new_| ==> !new_[p].Tombstone?
  }

  function FilledBy(idx: seq<Slot>): map<nat, nat> {
    map p | 0 <= p < |idx| && idx[p].Node? :: idx[p].index
  }

  ghost predicate Enabled(c: Config, s: State, t: nat, ch: Choice)
    requires Shaped(s) && t < |s.threads|
  {
    match s.threads[t].pc
    case Block(_, _) => s.mutex[t].None?
    case Reserve(_, g) => g < |s.metas| && (ch.grow || Reservable(s, t, g, ch.loc))
    case Follow(_, g) => g + 1 < |s.metas|
    case Lead(_, _, k) => k < |s.mutex| ==> s.mutex[k].None?
    case Migrating(_, g) =>
      g < |s.metas| && Migrated(s.metas[g].index, ch.index, s.metas[g].log, Rehashed(s.entries, c.rehash))
    case _ => true
  }

  ghost predicate InRange(s: State, pc: Pc) {
    match pc
    case Idle => true
    case Fetch(_) => true
    case Return(_, _) => true
    case GrowFetch(_) => true
    case Release(_, _) => true
    case Publish(op, g, _, _) => g < |s.metas| && op.CompareAndSet?
    case _ => pc.g < |s.metas|
  }

  function Step(c: Config, s: State, t: nat, ch: Choice): State
    requires Shaped(s) && t < |s.threads| && InRange(s, s.threads[t].pc)
  {
    var th := s.threads[t];
    match th.pc
    case Idle => s.(threads := s.threads[t := Thread(Fetch(ch.op), |s.log| - 1, None)], log := s.log + [s.abs])
    case Fetch(op) => Goto(s, t, if op.Get? then Probe(op, Current(s), 0, None) else TryLock(op, Current(s)))
    case TryLock(op, g) =>
      if s.mutex[t].None? then Goto(s.(mutex := s.mutex[t := Some(t)]), t, Check(op, g))
      else Goto(s, t, HelpCheck(op, g))
    case HelpCheck(op, g) => Goto(s, t, if s.metas[g].leader.Some? then Follow(Again(op), g) else Block(op, g))
    case Block(op, g) => Goto(s.(mutex := s.mutex[t := Some(t)]), t, Check(op, g))
    case Check(op, g) =>
      Goto(s, t, if s.metas[g].leader.Some? then Drop(Again(op), g, false)
                 else if Inserting(op) then Reserve(op, g) else Probe(op, g, 0, None))
    case Drop(cont, g, grow) =>
      Goto(s.(mutex := s.mutex[t := None]), t, if grow then GrowFetch(cont) else Follow(cont, g))
    case Reserve(op, g) =>
      if ch.grow || !op.CompareAndSet? then Goto(s, t, Drop(Again(op), g, true))
      else Goto(s.(owned := s.owned[ch.loc := t],
                   entries := s.entries[ch.loc := Entry(op.key, c.hash(op.key), Some(op.desired))]),
                t, Probe(op, g, 0, Some(ch.loc)))
    case Probe(op, g, d, loc) => ProbeStep(c, s, t, op, g, d, loc)
    case Load(op, g, d, loc, x) => LoadStep(s, t, op, g, d, loc, x)
    case Compare(op, g, d, loc, x, v) => CompareStep(c, s, t, op, g, d, loc, x, v)
    case Swap(op, g, d, loc, x, v) => SwapStep(s, t, op, g, d, loc, x, v)
    case Reload(op, g, d, loc, x) => ReloadStep(s, t, op, g, d, loc, x)
    case Publish(op, g, d, loc) => PublishStep(c, s, t, op, g, d, loc)
    case Bury(op, g, d, x) => BuryStep(c, s, t, op, g, d, x)
    case Unlock(op, g, r) =>
      // accessor_len_inc, and the release of the lock
      Goto(s.(mutex := s.mutex[t := None], local := s.local[t := s.local[t] + Counted(op, r)]), t,
           if ch.grow && op.CompareAndSet? && r.WasNotFound? then GrowFetch(Done(op, r)) else Return(op, r))
    case Return(_, _) => Goto(s, t, Idle)
    case GrowFetch(cont) => Goto(s, t, Elect(cont, Current(s)))
    case Elect(cont, g) =>
      if s.metas[g].leader.None?
      then Goto(s.(metas := s.metas[g := s.metas[g].(leader := Some(t))]), t, Lead(cont, g, 0))
      else Goto(s, t, Follow(cont, g))
    case Follow(cont, g) => Goto(s, t, Resume(cont))
    case Lead(cont, g, k) => LeadStep(s, t, cont, g, k)
    case Migrating(cont, g) =>
      Goto(s.(metas := s.metas + [Meta(s.metas[g].log + 1, ch.index, None, FilledBy(ch.index))]), t, Release(cont, 0))
    case Release(cont, k) => ReleaseStep(s, t, cont, k)
  }

  // Entries 1, 2, ..., n, one for each key of the map.
  ghost predicate Stores(c: Config, entries: map<nat, Entry>, at: map<Key, nat>, m: map<Key, Value>) {
    && at.Keys == m.Keys
    && (forall k :: k in m ==>
          1 <= at[k] <= |m| && at[k] in entries && entries[at[k]] == Entry(k, c.hash(k), Some(m[k])))
    && (forall x :: x in entries <==> 1 <= x <= |m|)
    && (forall x :: x in entries ==> entries[x].key in m && at[entries[x].key] == x)
  }

  ghost predicate InitialIndex(c: Config, s: State, m: Meta) {
    && WellFormed(m.index, m.log, Rehashed(s.entries, c.rehash)) && m.filled == FilledBy(m.index)
    && (forall p :: 0 <= p < |m.index| ==> !m.index[p].Tombstone?)
    && |s.abs| < |m.index| && Locations(m.index) == s.published == s.entries.Keys
  }

  // What AtomicDict_init leaves, from an initial dict or from none.
  ghost predicate Init(c: Config, s: State) {
    && Shaped(s) && |s.metas| == 1 && s.metas[0].leader.None? && InitialIndex(c, s, s.metas[0])
    && Stores(c, s.entries, s.at, s.abs) && s.owned == map[] && s.log == [s.abs]
    && s.len == |s.abs| && (forall t :: 0 <= t < |s.local| ==> s.local[t] == 0)
    && (forall t :: 0 <= t < |s.threads| ==> s.threads[t] == Thread(Idle, 0, None) && s.mutex[t].None?)
  }

  ghost predicate Next(c: Config, s: State, s': State) {
    exists t: nat, ch :: Shaped(s) && t < |s.threads| && InRange(s, s.threads[t].pc) && Enabled(c, s, t, ch)
        && s' == Step(c, s, t, ch)
  }

  ghost predicate Run(c: Config, run: seq<State>) {
    && run != [] && Init(c, run[0])
    && forall i :: 0 <= i < |run| - 1 ==> Next(c, run[i], run[i + 1])
  }
}
