// What happens when the first buffer of an initial dict is shared: two threads store their keys into one entry,
// and an insertion that has returned is lost.
module LostInsertion {
  import opened Arith
  import opened Options
  import opened MapSpec
  import opened ProbeIndex
  import opened DictMachine
  import opened DictInvariant
  import opened StepInvariant
  import opened DictAllocator
  import A = Allocator
  import AI = AllocatorInvariant

  // ---- reachable states, with the history of their maps ----

  ghost predicate Traced(c: Config, run: seq<Joint>, s0: Joint, s: Joint) {
    && JointRun(c, run) && run[0] == s0 && run[|run| - 1] == s
    && |s.dict.log| == |Dicts(run)| && forall m :: 0 <= m < |s.dict.log| ==> s.dict.log[m] == Dicts(run)[m].abs
  }

  ghost predicate Reached(c: Config, s0: Joint, s: Joint) {
    exists run :: Traced(c, run, s0, s)
  }

  lemma StartReached(c: Config, s0: Joint)
    requires Start(c, s0)
    ensures Reached(c, s0, s0)
  {
    assert Traced(c, [s0], s0, s0);
  }

  lemma ReachedNext(c: Config, s0: Joint, s: Joint, s': Joint, t: nat, ch: Choice)
    requires Reached(c, s0, s) && Moves(c, s, s', t, ch)
    requires s'.dict == s.dict || s'.dict.log == s.dict.log + [s'.dict.abs]
    ensures Reached(c, s0, s')
  {
    hide Moves, Start;
    var run :| Traced(c, run, s0, s);
    var run' := run + [s'];
    assert run'[..|run|] == run;
    assert JointNext(c, s, s');
    forall i | 0 <= i < |run'| - 1
      ensures JointNext(c, run'[i], run'[i + 1])
    {
      if i < |run| - 1 { assert JointNext(c, run[i], run[i + 1]); }
    }
    assert JointRun(c, run');
    assert Traced(c, run', s0, s');
  }

  // ---- one thread's steps ----

  // Only thread t has moved: not the table, not the map.
  ghost predicate Moved(d: State, d': State, t: nat) {
    && t < |d.threads| == |d'.threads| && |d'.mutex| == |d.mutex| && |d'.local| == |d.local|
    && d'.metas == d.metas && d'.entries == d.entries && d'.owned == d.owned && d'.published == d.published
    && d'.abs == d.abs
    && (forall u :: 0 <= u < |d.threads| && u != t ==> d'.threads[u] == d.threads[u])
    && (forall u :: 0 <= u < |d.mutex| && u != t ==> d'.mutex[u] == d.mutex[u])
    && |d.log| <= |d'.log| && d'.log[..|d.log|] == d.log && forall m :: |d.log| <= m < |d'.log| ==> d'.log[m] == d.abs
  }

  lemma MovedTwice(d: State, d': State, d'': State, t: nat)
    requires Moved(d, d', t) && Moved(d', d'', t)
    ensures Moved(d, d'', t)
  {
    assert d''.log[..|d.log|] == d.log;
  }

  // One generation, that nobody is going to replace.
  ghost predicate OneGeneration(s: Joint, t: nat) {
    && Shaped(s.dict) && |s.dict.metas| == 1 && s.dict.metas[0].leader.None? && s.alloc.bs > 0
    && t < |s.dict.threads| == |s.alloc.threads|
  }

  // A step of thread t that does not concern the allocator.
  lemma Plain(c: Config, s0: Joint, s: Joint, t: nat, ch: Choice, d: State)
    requires Reached(c, s0, s) && CanStep(s, t) && !s.dict.threads[t].pc.Reserve? && !s.dict.threads[t].pc.Migrating?
    requires Enabled(c, s.dict, t, ch) && d == Step(c, s.dict, t, ch) && t < |d.threads|
    requires LocOf(s.dict.threads[t].pc).None? || LocOf(d.threads[t].pc).Some?
    requires d.log == s.dict.log + [d.abs]
    ensures Reached(c, s0, Joint(d, s.alloc))
  {
    hide Step, Enabled, Reached;
    assert Proceeds(c, s, Joint(d, s.alloc), t, ch);
    ReachedNext(c, s0, s, Joint(d, s.alloc), t, ch);
  }

  // The choice that a step without a choice gets.
  function Any(op: Op): Choice { Choice(op, 0, false, []) }

  lemma Calls(c: Config, s0: Joint, s: Joint, t: nat, op: Op) returns (d: State)
    requires Reached(c, s0, s) && OneGeneration(s, t) && s.dict.threads[t].pc.Idle?
    ensures Reached(c, s0, Joint(d, s.alloc)) && Moved(s.dict, d, t) && d.mutex == s.dict.mutex
    ensures d.threads[t] == Thread(Fetch(op), |s.dict.log| - 1, None)
  {
    hide Reached;
    d := Step(c, s.dict, t, Any(op));
    Plain(c, s0, s, t, Any(op), d);
  }

  lemma Fetches(c: Config, s0: Joint, s: Joint, t: nat, op: Op) returns (d: State)
    requires Reached(c, s0, s) && OneGeneration(s, t) && s.dict.threads[t].pc == Fetch(op)
    ensures Reached(c, s0, Joint(d, s.alloc)) && Moved(s.dict, d, t) && d.mutex == s.dict.mutex
    ensures d.threads[t] == s.dict.threads[t].(pc := if op.Get? then Probe(op, 0, 0, None) else TryLock(op, 0))
  {
    hide Reached;
    d := Step(c, s.dict, t, Any(op));
    Plain(c, s0, s, t, Any(op), d);
  }

  lemma Locks(c: Config, s0: Joint, s: Joint, t: nat, op: Op) returns (d: State)
    requires Reached(c, s0, s) && OneGeneration(s, t) && s.dict.threads[t].pc == TryLock(op, 0) && s.dict.mutex[t].None?
    ensures Reached(c, s0, Joint(d, s.alloc)) && Moved(s.dict, d, t)
    ensures d.threads[t] == s.dict.threads[t].(pc := Check(op, 0))
  {
    hide Reached;
    d := Step(c, s.dict, t, Any(op));
    Plain(c, s0, s, t, Any(op), d);
  }

  lemma Checks(c: Config, s0: Joint, s: Joint, t: nat, op: Op) returns (d: State)
    requires Reached(c, s0, s) && OneGeneration(s, t) && s.dict.threads[t].pc == Check(op, 0) && Inserting(op)
    ensures Reached(c, s0, Joint(d, s.alloc)) && Moved(s.dict, d, t)
    ensures d.threads[t] == s.dict.threads[t].(pc := Reserve(op, 0))
  {
    hide Reached;
    d := Step(c, s.dict, t, Any(op));
    Plain(c, s0, s, t, Any(op), d);
  }

  // Thread t calls a compare-and-set and comes to ask for an entry.
  lemma Asks(c: Config, s0: Joint, s: Joint, t: nat, op: Op) returns (d: State)
    requires Reached(c, s0, s) && OneGeneration(s, t) && s.dict.threads[t].pc.Idle? && s.dict.mutex[t].None?
    requires Inserting(op)
    ensures Reached(c, s0, Joint(d, s.alloc)) && OneGeneration(Joint(d, s.alloc), t) && Moved(s.dict, d, t)
    ensures d.threads[t].pc == Reserve(op, 0)
  {
    hide Reached;
    var d1 := Calls(c, s0, s, t, op);
    var d2 := Fetches(c, s0, Joint(d1, s.alloc), t, op);
    var d3 := Locks(c, s0, Joint(d2, s.alloc), t, op);
    d := Checks(c, s0, Joint(d3, s.alloc), t, op);
    MovedTwice(s.dict, d1, d2, t);
    MovedTwice(s.dict, d2, d3, t);
    MovedTwice(s.dict, d3, d, t);
  }

  // ---- probes that pass over other keys ----

  // No entry that the index refers to holds the key.
  ghost predicate Unheld(d: State, k: Key)
    requires d.metas != []
  {
    forall x :: x in Locations(d.metas[0].index) && x in d.entries ==> d.entries[x].key != k
  }

  // Slot number e of the key's probe is empty, and those before it are not.
  ghost predicate EmptyAt(c: Config, d: State, k: Key, e: nat)
    requires Shaped(d)
  {
    && e < |d.metas[0].index| && d.metas[0].index[SlotNo(c, d, k, 0, e)].Empty?
    && forall i: nat :: i < e ==> !d.metas[0].index[SlotNo(c, d, k, 0, i)].Empty?
  }

  lemma ProbesOnce(c: Config, s0: Joint, s: Joint, t: nat, op: Op, e: nat, loc: Option<nat>) returns (d: State)
    requires Reached(c, s0, s) && OneGeneration(s, t) && s.dict.threads[t].pc == Probe(op, 0, e, loc)
    requires e < |s.dict.metas[0].index| && !s.dict.metas[0].index[SlotNo(c, s.dict, op.key, 0, e)].Empty?
    ensures Reached(c, s0, Joint(d, s.alloc)) && Moved(s.dict, d, t)
    ensures var slot := s.dict.metas[0].index[SlotNo(c, s.dict, op.key, 0, e)];
            || d.threads[t] == s.dict.threads[t].(pc := Probe(op, 0, e + 1, loc))
            || (slot.Node? && d.threads[t] == s.dict.threads[t].(pc := Load(op, 0, e, loc, slot.index)))
  {
    hide Reached, SlotNo;
    d := Step(c, s.dict, t, Any(op));
    Plain(c, s0, s, t, Any(op), d);
  }

  lemma LoadsOnce(c: Config, s0: Joint, s: Joint, t: nat, op: Op, e: nat, loc: Option<nat>, x: nat) returns (d: State)
    requires Reached(c, s0, s) && OneGeneration(s, t) && s.dict.threads[t].pc == Load(op, 0, e, loc, x)
    ensures Reached(c, s0, Joint(d, s.alloc)) && Moved(s.dict, d, t)
    ensures || d.threads[t] == s.dict.threads[t].(pc := Probe(op, 0, e + 1, loc))
            || (x in s.dict.entries && s.dict.entries[x].value.Some?
                && d.threads[t] == s.dict.threads[t].(pc := Compare(op, 0, e, loc, x, s.dict.entries[x].value.value)))
  {
    hide Reached;
    d := Step(c, s.dict, t, Any(op));
    Plain(c, s0, s, t, Any(op), d);
  }

  lemma ComparesOnce(c: Config, s0: Joint, s: Joint, t: nat, op: Op, e: nat, loc: Option<nat>, x: nat, v: Value)
    returns (d: State)
    requires Reached(c, s0, s) && OneGeneration(s, t) && s.dict.threads[t].pc == Compare(op, 0, e, loc, x, v)
    requires x in s.dict.entries && s.dict.entries[x].key != op.key
    ensures Reached(c, s0, Joint(d, s.alloc)) && Moved(s.dict, d, t)
    ensures d.threads[t] == s.dict.threads[t].(pc := Probe(op, 0, e + 1, loc))
  {
    hide Reached;
    d := Step(c, s.dict, t, Any(op));
    Plain(c, s0, s, t, Any(op), d);
  }

  // A taken slot is passed over.
  lemma Passes(c: Config, s0: Joint, s: Joint, t: nat, op: Op, e: nat, loc: Option<nat>) returns (d: State)
    requires Reached(c, s0, s) && OneGeneration(s, t) && s.dict.threads[t].pc == Probe(op, 0, e, loc)
    requires Unheld(s.dict, op.key)
    requires e < |s.dict.metas[0].index| && !s.dict.metas[0].index[SlotNo(c, s.dict, op.key, 0, e)].Empty?
    ensures Reached(c, s0, Joint(d, s.alloc)) && Moved(s.dict, d, t)
    ensures d.threads[t] == s.dict.threads[t].(pc := Probe(op, 0, e + 1, loc))
  {
    hide Reached, SlotNo;
    var slot := s.dict.metas[0].index[SlotNo(c, s.dict, op.key, 0, e)];
    d := ProbesOnce(c, s0, s, t, op, e, loc);
    if d.threads[t].pc.Load? {
      var d1 := d;
      d := LoadsOnce(c, s0, Joint(d1, s.alloc), t, op, e, loc, slot.index);
      MovedTwice(s.dict, d1, d, t);
      if d.threads[t].pc.Compare? {
        var d2 := d;
        assert slot.index in Locations(s.dict.metas[0].index);
        d := ComparesOnce(c, s0, Joint(d2, s.alloc), t, op, e, loc, slot.index, d2.threads[t].pc.v);
        MovedTwice(s.dict, d2, d, t);
      }
    }
  }

  lemma {:induction false} Walks(c: Config, s0: Joint, s: Joint, t: nat, op: Op, i: nat, e: nat, loc: Option<nat>)
    returns (d: State)
    requires Reached(c, s0, s) && OneGeneration(s, t) && s.dict.threads[t].pc == Probe(op, 0, i, loc)
    requires Unheld(s.dict, op.key)
    requires EmptyAt(c, s.dict, op.key, e) && i <= e
    ensures Reached(c, s0, Joint(d, s.alloc)) && OneGeneration(Joint(d, s.alloc), t) && Moved(s.dict, d, t)
    ensures d.threads[t] == s.dict.threads[t].(pc := Probe(op, 0, e, loc))
    decreases e - i
  {
    hide Reached;
    if i == e {
      d := s.dict;
    } else {
      var d1 := Passes(c, s0, s, t, op, i, loc);
      SameSlots(c, s.dict, d1, t, op.key, e);
      d := Walks(c, s0, Joint(d1, s.alloc), t, op, i + 1, e, loc);
      MovedTwice(s.dict, d1, d, t);
    }
  }

  lemma SameSlots(c: Config, d: State, d': State, t: nat, k: Key, e: nat)
    requires Shaped(d) && Shaped(d') && Moved(d, d', t) && EmptyAt(c, d, k, e)
    ensures EmptyAt(c, d', k, e)
  {
    forall i: nat | i <= e
      ensures SlotNo(c, d', k, 0, i) == SlotNo(c, d, k, 0, i)
    {
    }
  }

  // An index with an empty slot has a first one on the way of every key.
  lemma FirstEmptyAt(c: Config, d: State, k: Key) returns (e: nat)
    requires GoodConfig(c) && Shaped(d) && HasEmpty(d.metas[0].index)
    ensures EmptyAt(c, d, k, e)
  {
    var idx := d.metas[0].index;
    var n, w := |idx|, HomeOf(c, k, d.metas[0].log);
    HomeOk(c, k, d.metas[0].log);
    var p :| 0 <= p < n && idx[p].Empty?;
    assert SlotNo(c, d, k, 0, Gap(w, p, n)) == p;
    e := 0;
    while !idx[SlotNo(c, d, k, 0, e)].Empty?
      invariant e <= Gap(w, p, n) && forall i: nat :: i < e ==> !idx[SlotNo(c, d, k, 0, i)].Empty?
      decreases Gap(w, p, n) - e
    {
      e := e + 1;
    }
  }

  // ---- an insertion ----

  // Thread t gets entry l from the allocator and stores its key and value there.
  lemma StoresEntry(c: Config, s0: Joint, s: Joint, t: nat, op: Op, l: nat) returns (d: State)
    requires Reached(c, s0, s) && OneGeneration(s, t) && s.dict.threads[t].pc == Reserve(op, 0) && op.CompareAndSet?
    requires s.alloc.threads[t].pc.Holding? && l == Held(s.alloc, t)
    ensures Reached(c, s0, Joint(d, s.alloc)) && t < |d.threads|
    ensures d == Goto(s.dict.(owned := s.dict.owned[l := t],
                              entries := s.dict.entries[l := Entry(op.key, c.hash(op.key), Some(op.desired))]),
                      t, Probe(op, 0, 0, Some(l)))
  {
    hide Reached, Held;
    var ch := Choice(op, l, false, []);
    d := Step(c, s.dict, t, ch);
    assert Begins(c, s, Joint(d, s.alloc), t, ch);
    ReachedNext(c, s0, s, Joint(d, s.alloc), t, ch);
  }

  lemma MeetsEmpty(c: Config, s0: Joint, s: Joint, t: nat, op: Op, e: nat, l: nat) returns (d: State)
    requires Reached(c, s0, s) && OneGeneration(s, t) && s.dict.threads[t].pc == Probe(op, 0, e, Some(l))
    requires Inserting(op)
    requires EmptyAt(c, s.dict, op.key, e)
    ensures Reached(c, s0, Joint(d, s.alloc)) && t < |d.threads| && d == Goto(s.dict, t, Publish(op, 0, e, l))
  {
    hide Reached, SlotNo;
    d := Step(c, s.dict, t, Any(op));
    Plain(c, s0, s, t, Any(op), d);
  }

  // What the CAS on the empty slot leaves.
  function Published(c: Config, d: State, t: nat, op: Op, e: nat, l: nat): State
    requires Shaped(d) && t < |d.threads| && op.CompareAndSet?
  {
    var m, p := d.metas[0], SlotNo(c, d, op.key, 0, e);
    var node := Stored(Node(l, c.rehash(c.hash(op.key)), e), m.log);
    Effect(d.(metas := d.metas[0 := m.(index := m.index[p := node], filled := m.filled[p := l])],
              published := d.published + {l}, owned := d.owned - {l}, at := d.at[op.key := l]),
           t, Unlock(op, 0, WasNotFound), d.abs[op.key := op.desired])
  }

  lemma Publishes(c: Config, s0: Joint, s: Joint, t: nat, op: Op, e: nat, l: nat) returns (s': Joint)
    requires Reached(c, s0, s) && OneGeneration(s, t) && s.dict.threads[t].pc == Publish(op, 0, e, l)
    requires op.CompareAndSet?
    requires EmptyAt(c, s.dict, op.key, e)
    ensures Reached(c, s0, s')
    ensures s' == Joint(Published(c, s.dict, t, op, e, l), A.Step(s.alloc, t, A.Choice(0, true)))
  {
    hide Reached, SlotNo, A.Step;
    s' := Joint(Published(c, s.dict, t, op, e, l), A.Step(s.alloc, t, A.Choice(0, true)));
    assert Step(c, s.dict, t, Any(op)) == s'.dict;
    assert Proceeds(c, s, s', t, Any(op));
    ReachedNext(c, s0, s, s', t, Any(op));
  }

  lemma Leaves(c: Config, s0: Joint, s: Joint, t: nat, op: Op) returns (d: State)
    requires Reached(c, s0, s) && OneGeneration(s, t) && s.dict.threads[t].pc == Unlock(op, 0, WasNotFound)
    ensures Reached(c, s0, Joint(d, s.alloc)) && Moved(s.dict, d, t)
    ensures d.threads[t].pc == Return(op, WasNotFound)
  {
    hide Reached, Counted;
    d := Step(c, s.dict, t, Any(op));
    Plain(c, s0, s, t, Any(op), d);
  }

  lemma Returns(c: Config, s0: Joint, s: Joint, t: nat, op: Op, r: Result) returns (d: State)
    requires Reached(c, s0, s) && OneGeneration(s, t) && s.dict.threads[t].pc == Return(op, r)
    ensures Reached(c, s0, Joint(d, s.alloc)) && Moved(s.dict, d, t) && d.threads[t].pc.Idle?
  {
    hide Reached;
    d := Step(c, s.dict, t, Any(op));
    Plain(c, s0, s, t, Any(op), d);
  }

  lemma Misses(c: Config, s0: Joint, s: Joint, t: nat, k: Key, e: nat) returns (d: State)
    requires Reached(c, s0, s) && OneGeneration(s, t) && s.dict.threads[t].pc == Probe(Get(k), 0, e, None)
    requires EmptyAt(c, s.dict, k, e)
    ensures Reached(c, s0, Joint(d, s.alloc)) && Moved(s.dict, d, t)
    ensures d.threads[t] == s.dict.threads[t].(pc := Return(Get(k), WasNotFound))
  {
    hide Reached, SlotNo;
    d := Step(c, s.dict, t, Any(Get(k)));
    Plain(c, s0, s, t, Any(Get(k)), d);
  }

  // Thread t has inserted the operation's key, in entry l.
  ghost predicate Inserted(c: Config, d: State, d': State, t: nat, op: Op, l: nat, p: nat)
    requires op.CompareAndSet?
  {
    && |d.metas| == |d'.metas| == 1 && d'.metas[0].log == d.metas[0].log && d'.metas[0].leader == d.metas[0].leader
    && t < |d.threads| == |d'.threads| == |d.mutex| == |d'.mutex| == |d'.local| && d'.threads[t].pc.Idle?
    && (forall u :: 0 <= u < |d.threads| && u != t ==> d'.threads[u] == d.threads[u])
    && d'.entries == d.entries[l := Entry(op.key, c.hash(op.key), Some(op.desired))]
    && d'.abs == d.abs[op.key := op.desired] && d'.log != [] && d'.log[|d'.log| - 1] == d'.abs
    && var idx, idx' := d.metas[0].index, d'.metas[0].index;
       && p < |idx| == |idx'| && idx[p].Empty? && idx' == idx[p := idx'[p]] && idx'[p].Node? && idx'[p].index == l
  }

  lemma StoredElsewhere(c: Config, d: State, d': State, t: nat, op: Op, l: nat)
    requires Shaped(d) && t < |d.threads| && op.CompareAndSet? && Unheld(d, op.key) && l !in Locations(d.metas[0].index)
    requires d' == Goto(d.(owned := d.owned[l := t],
                           entries := d.entries[l := Entry(op.key, c.hash(op.key), Some(op.desired))]),
                        t, Probe(op, 0, 0, Some(l)))
    ensures Shaped(d') && Unheld(d', op.key)
  {
  }

  // From asking for an entry to the probe's empty slot.
  lemma ComesToEmpty(c: Config, s0: Joint, s: Joint, t: nat, op: Op, l: nat) returns (d: State, e: nat)
    requires GoodConfig(c) && Reached(c, s0, s) && OneGeneration(s, t) && s.dict.threads[t].pc == Reserve(op, 0)
    requires Inserting(op) && s.alloc.threads[t].pc.Holding? && l == Held(s.alloc, t)
    requires HasEmpty(s.dict.metas[0].index) && Unheld(s.dict, op.key) && l !in Locations(s.dict.metas[0].index)
    ensures Reached(c, s0, Joint(d, s.alloc)) && OneGeneration(Joint(d, s.alloc), t) && d.metas == s.dict.metas
    ensures EmptyAt(c, d, op.key, e) && |d.threads| == |s.dict.threads|
    ensures d.threads[t].pc == Publish(op, 0, e, l)
    ensures forall u :: 0 <= u < |d.threads| && u != t ==> d.threads[u] == s.dict.threads[u]
    ensures d.entries == s.dict.entries[l := Entry(op.key, c.hash(op.key), Some(op.desired))] && d.abs == s.dict.abs
  {
    hide Reached, Held, HasEmpty, EmptyAt, Unheld;
    var d1 := StoresEntry(c, s0, s, t, op, l);
    StoredElsewhere(c, s.dict, d1, t, op, l);
    e := FirstEmptyAt(c, d1, op.key);
    var d2 := Walks(c, s0, Joint(d1, s.alloc), t, op, 0, e, Some(l));
    SameSlots(c, d1, d2, t, op.key, e);
    d := MeetsEmpty(c, s0, Joint(d2, s.alloc), t, op, e, l);
    SlotsOfMetas(c, d2, d, op.key, e);
  }

  lemma SlotsOfMetas(c: Config, d: State, d': State, k: Key, e: nat)
    requires Shaped(d) && Shaped(d') && d'.metas == d.metas && EmptyAt(c, d, k, e)
    ensures EmptyAt(c, d', k, e)
  {
    forall i: nat | i <= e
      ensures SlotNo(c, d', k, 0, i) == SlotNo(c, d, k, 0, i)
    {
    }
  }

  lemma PublishedIs(c: Config, d: State, t: nat, op: Op, e: nat, l: nat)
    requires Shaped(d) && |d.metas| == 1 && t < |d.threads| && op.CompareAndSet? && EmptyAt(c, d, op.key, e)
    ensures var d' := Published(c, d, t, op, e, l);
            && Shaped(d') && |d'.metas| == 1 && |d'.threads| == |d.threads| && d'.metas[0].leader == d.metas[0].leader
            && d'.metas[0].log == d.metas[0].log && d'.threads[t].pc == Unlock(op, 0, WasNotFound)
            && (forall u :: 0 <= u < |d.threads| && u != t ==> d'.threads[u] == d.threads[u])
            && d'.entries == d.entries && d'.abs == d.abs[op.key := op.desired] && d'.log[|d'.log| - 1] == d'.abs
            && var p, idx, idx' := SlotNo(c, d, op.key, 0, e), d.metas[0].index, d'.metas[0].index;
               |idx'| == |idx| && idx[p].Empty? && idx' == idx[p := idx'[p]] && idx'[p].Node? && idx'[p].index == l
  {
    hide SlotNo;
  }

  lemma Inserts(c: Config, s0: Joint, s: Joint, t: nat, op: Op, l: nat) returns (s': Joint, p: nat)
    requires GoodConfig(c) && Reached(c, s0, s) && OneGeneration(s, t) && s.dict.threads[t].pc == Reserve(op, 0)
    requires Inserting(op) && s.alloc.threads[t].pc.Holding? && l == Held(s.alloc, t)
    requires HasEmpty(s.dict.metas[0].index) && Unheld(s.dict, op.key) && l !in Locations(s.dict.metas[0].index)
    ensures Reached(c, s0, s') && OneGeneration(s', t) && Inserted(c, s.dict, s'.dict, t, op, l, p)
    ensures s'.alloc == A.Step(s.alloc, t, A.Choice(0, true))
  {
    hide Reached, Held, HasEmpty, EmptyAt, Unheld, Published, A.Step;
    var d1, e := ComesToEmpty(c, s0, s, t, op, l);
    var s2 := Publishes(c, s0, Joint(d1, s.alloc), t, op, e, l);
    PublishedIs(c, d1, t, op, e, l);
    p := SlotNo(c, d1, op.key, 0, e);
    StepKeepsSize(s.alloc, t, A.Choice(0, true));
    var d3 := Leaves(c, s0, s2, t, op);
    var d4 := Returns(c, s0, Joint(d3, s2.alloc), t, op, WasNotFound);
    MovedTwice(s2.dict, d3, d4, t);
    s' := Joint(d4, s2.alloc);
  }

  lemma StepKeepsSize(a: A.State, t: nat, ch: A.Choice)
    requires a.bs > 0 && t < |a.threads|
    ensures var a' := A.Step(a, t, ch); a'.bs == a.bs && |a'.threads| == |a.threads|
  {
  }

  // A get that finds no entry with its key.
  lemma GetMisses(c: Config, s0: Joint, s: Joint, t: nat, k: Key) returns (d: State)
    requires GoodConfig(c) && Reached(c, s0, s) && OneGeneration(s, t) && s.dict.threads[t].pc.Idle?
    requires HasEmpty(s.dict.metas[0].index) && Unheld(s.dict, k)
    ensures Reached(c, s0, Joint(d, s.alloc)) && Moved(s.dict, d, t)
    ensures d.threads[t] == Thread(Return(Get(k), WasNotFound), |s.dict.log| - 1, None)
  {
    hide Reached, HasEmpty, EmptyAt;
    var d1 := Calls(c, s0, s, t, Get(k));
    var d2 := Fetches(c, s0, Joint(d1, s.alloc), t, Get(k));
    MovedTwice(s.dict, d1, d2, t);
    var e := FirstEmptyAt(c, d2, k);
    var d3 := Walks(c, s0, Joint(d2, s.alloc), t, Get(k), 0, e, None);
    SameSlots(c, d2, d3, t, k, e);
    MovedTwice(s.dict, d2, d3, t);
    d := Misses(c, s0, Joint(d3, s.alloc), t, k, e);
    MovedTwice(s.dict, d3, d, t);
  }

  // ---- the run ----

  // Two threads, a key that is not in the dict, and another key whose hash leads its thread to the first buffer.
  ghost predicate Scene(c: Config, s: Joint, kA: Key, kB: Key) {
    && GoodConfig(c) && Start(c, s) && A.InitFrom(s.alloc) && A.FirstBlockShared(s.alloc.len, s.alloc.bs)
    && |s.alloc.threads| > 1 && kA !in s.dict.abs && kB != kA
    && A.InsertPosition(c.hash(kB), s.alloc.bs) == (s.alloc.len + 1) % A.ENTRIES_IN_PAGE
  }

  // Thread 1 gets the entry that begins thread 0's buffer.
  lemma OtherTakes(c: Config, s0: Joint, kA: Key, kB: Key, v: Value) returns (s: Joint)
    requires Scene(c, s0, kA, kB)
    ensures Reached(c, s0, s) && OneGeneration(s, 0) && OneGeneration(s, 1) && Moved(s0.dict, s.dict, 1)
    ensures s.dict.threads[1].pc == Reserve(CompareAndSet(kB, NotFound, v), 0)
    ensures s.alloc == A.Take(s0.alloc.(owner := s0.alloc.owner[s0.alloc.len + 1 := 1]), 1, s0.alloc.len + 1)
  {
    hide Reached, Init, A.Step, A.InitFrom, A.Init;
    StartsPlain(c, s0);
    StartReached(c, s0);
    var d := Asks(c, s0, s0, 1, CompareAndSet(kB, NotFound, v));
    var ch := A.Choice(c.hash(kB), false);
    AI.FirstSteps(s0.alloc, ch);
    var a1 := A.Step(s0.alloc, 1, ch);
    var a2 := A.Step(a1, 1, ch);
    var a3 := A.Step(a2, 1, ch);
    AllocatesOnce(c, s0, Joint(d, s0.alloc), 1, kB);
    AllocatesOnce(c, s0, Joint(d, a1), 1, kB);
    AllocatesOnce(c, s0, Joint(d, a2), 1, kB);
    s := Joint(d, a3);
  }

  lemma StartsPlain(c: Config, s: Joint)
    requires Start(c, s)
    ensures Shaped(s.dict) && |s.dict.metas| == 1 && s.dict.metas[0].leader.None?
    ensures forall t :: 0 <= t < |s.dict.threads| ==> s.dict.threads[t].pc.Idle? && s.dict.mutex[t].None?
    ensures forall t :: 0 <= t < |s.alloc.threads| ==> s.alloc.threads[t].pc.Out?
  {
    hide InitialIndex, Stores;
  }

  lemma AllocatesOnce(c: Config, s0: Joint, s: Joint, t: nat, k: Key)
    requires Reached(c, s0, s) && OneGeneration(s, t) && s.dict.threads[t].pc.Reserve?
    requires s.dict.threads[t].pc.op.key == k
    requires s.dict.threads[t].pc.g == 0 && !s.alloc.threads[t].pc.Holding? && !s.alloc.threads[t].pc.MustGrow?
    ensures Reached(c, s0, s.(alloc := A.Step(s.alloc, t, A.Choice(c.hash(k), false))))
    ensures OneGeneration(s.(alloc := A.Step(s.alloc, t, A.Choice(c.hash(k), false))), t)
  {
    hide Reached, A.Step;
    var s' := s.(alloc := A.Step(s.alloc, t, A.Choice(c.hash(k), false)));
    StepKeepsSize(s.alloc, t, A.Choice(c.hash(k), false));
    assert Allocates(c, s, s', t);
    ReachedNext(c, s0, s, s', t, Any(Get(k)));
  }

  // What the initial dict leaves in the index and in the entries.
  lemma StartsIndex(c: Config, s: Joint, kA: Key, kB: Key)
    requires Scene(c, s, kA, kB)
    ensures s.dict.metas != [] && HasEmpty(s.dict.metas[0].index) && Distinct(s.dict.metas[0].index)
    ensures s.alloc.len + 1 < |s.dict.metas[0].index|
    ensures forall x :: x in Locations(s.dict.metas[0].index) ==> 1 <= x <= s.alloc.len
    ensures forall x :: x in s.dict.entries ==> s.dict.entries[x].key != kA
    ensures forall p :: 0 <= p < |s.dict.metas[0].index| ==> !s.dict.metas[0].index[p].Tombstone?
  {
    hide A.InitFrom;
    InitIndex(c, s.dict);
    AlwaysEmptySlot(s.dict.metas[0], s.dict.published);
    AI.FirstBlockSharedIff(s.alloc.len, s.alloc.bs);
    PagesEnough(s.alloc);
  }

  lemma PagesEnough(a: A.State)
    requires A.InitFrom(a)
    ensures A.FirstPage(a.len) < |a.pages|
  {
  }

  // One more node leaves a slot empty still.
  lemma RoomAfter(idx: seq<Slot>, idx': seq<Slot>, p: nat, l: nat)
    requires Distinct(idx) && p < |idx| && idx[p].Empty? && l < |idx| == |idx'|
    requires forall q :: 0 <= q < |idx| ==> !idx[q].Tombstone?
    requires forall x :: x in Locations(idx) ==> 1 <= x < l
    requires idx' == idx[p := idx'[p]] && idx'[p].Node? && idx'[p].index == l && l >= 1
    ensures HasEmpty(idx') && Locations(idx') == Locations(idx) + {l}
  {
    LocationsAdd(idx, p, idx'[p]);
    forall q | 0 <= q < |idx'| && idx'[q].Node?
      ensures 1 <= idx'[q].index <= l
    {
      assert idx'[q].index in Locations(idx');
    }
    forall q, r | 0 <= q < r < |idx'| && idx'[q].Node? && idx'[r].Node?
      ensures idx'[q].index != idx'[r].index
    {
      assert !Clash(idx', q, r);
    }
    if !HasEmpty(idx') {
      var i, j := Pigeonhole(seq(|idx'|, q requires 0 <= q < |idx'| => idx'[q].index - 1), l);
      assert false;
    }
  }

  // Thread 0 inserts its key into that entry, and returns.
  lemma FirstInserts(c: Config, s0: Joint, kA: Key, kB: Key, v: Value) returns (s: Joint)
    requires Scene(c, s0, kA, kB)
    ensures Reached(c, s0, s) && OneGeneration(s, 0) && OneGeneration(s, 1) && s.dict.threads[0].pc.Idle?
    ensures s.dict.threads[1].pc == Reserve(CompareAndSet(kB, NotFound, v), 0)
    ensures s.alloc.threads[1].pc.Holding? && Held(s.alloc, 1) == s0.alloc.len + 1
    ensures HasEmpty(s.dict.metas[0].index) && kA in s.dict.abs && s.dict.log[|s.dict.log| - 1] == s.dict.abs
    ensures forall x :: x in s.dict.entries && x != s0.alloc.len + 1 ==> s.dict.entries[x].key != kA
  {
    hide Reached, Start, A.InitFrom, A.Step, HasEmpty, Distinct;
    var l := s0.alloc.len + 1;
    var op := CompareAndSet(kA, NotFound, v);
    StartsIndex(c, s0, kA, kB);
    StartsPlain(c, s0);
    var s1 := OtherTakes(c, s0, kA, kB, v);
    var d := Asks(c, s0, s1, 0, op);
    PopsFirst(s0.alloc, s1.alloc, c.hash(kA));
    AllocatesOnce(c, s0, Joint(d, s1.alloc), 0, kA);
    var s2 := Joint(d, A.Step(s1.alloc, 0, A.Choice(c.hash(kA), false)));
    var p: nat;
    s, p := Inserts(c, s0, s2, 0, op, l);
    RoomAfter(s0.dict.metas[0].index, s.dict.metas[0].index, p, l);
    PublishKeepsOther(s2.alloc);
  }

  lemma PopsFirst(a: A.State, a': A.State, hash: nat)
    requires A.InitFrom(a) && |a.threads| > 1 && a' == A.Take(a.(owner := a.owner[a.len + 1 := 1]), 1, a.len + 1)
    ensures a'.bs > 0 && |a'.threads| == |a.threads| && a'.threads[0].pc.Out?
    ensures var a'' := A.Step(a', 0, A.Choice(hash, false));
            && a''.bs > 0 && |a''.threads| == |a.threads|
            && a''.threads[0].pc.Holding? && Held(a'', 0) == a.len + 1
            && a''.threads[1].pc.Holding? && Held(a'', 1) == a.len + 1
  {
    A.BlockInPage(a.len + 1, a.bs);
  }

  lemma PublishKeepsOther(a: A.State)
    requires a.bs > 0 && |a.threads| > 1
    ensures var a' := A.Step(a, 0, A.Choice(0, true));
            |a'.threads| == |a.threads| && a'.threads[1] == a.threads[1]
  {
  }

  // Thread 1 stores its key there too, and thread 0's next get does not find the key that was inserted, though
  // nobody has deleted it.
  lemma LosesInsertion(c: Config, s0: Joint, kA: Key, kB: Key, v: Value) returns (s: Joint)
    requires Scene(c, s0, kA, kB)
    ensures Reached(c, s0, s) && 0 < |s.dict.threads|
    ensures s.dict.threads[0].pc == Return(Get(kA), WasNotFound) && s.dict.threads[0].lin.None?
    ensures forall m :: s.dict.threads[0].start <= m < |s.dict.log| ==> kA in s.dict.log[m]
  {
    hide Reached, Scene, HasEmpty, Held;
    assert GoodConfig(c) by { SceneConfig(c, s0, kA, kB); }
    var s1 := FirstInserts(c, s0, kA, kB, v);
    var d := StoresEntry(c, s0, s1, 1, CompareAndSet(kB, NotFound, v), s0.alloc.len + 1);
    SceneConfig(c, s0, kA, kB);
    var d' := GetMisses(c, s0, Joint(d, s1.alloc), 0, kA);
    s := Joint(d', s1.alloc);
  }

  lemma SceneConfig(c: Config, s: Joint, kA: Key, kB: Key)
    requires Scene(c, s, kA, kB)
    ensures GoodConfig(c) && kB != kA
  {
  }
}
