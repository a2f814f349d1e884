// reduce, by any number of threads at once (insert.c): each thread aggregates its input in a local table and
// then flushes every key with a compare-and-set retry loop. The local table is the map that module
// ReduceTables implements (CollectsTable); a get or compare-and-set on the shared dict is one step, which
// JointLinearizability.JointLinearizableIff justifies, for every dict but those whose initial items share their
// first buffer. Nobody else changes the dict.
module ReduceFlush {
  import opened Options
  import opened ReduceInputs
  import T = ReduceTables

  // An aggregate function. `measure` is what its result is judged by: the value itself for a sum, its
  // truthiness for and/or, the multiset of its items for a list.
  datatype Aggregate<!V, !M> = Aggregate(apply: (Option<V>, V) -> V, measure: V -> M, combine: (M, M) -> M)

  ghost predicate Associative<M(!new)>(combine: (M, M) -> M) {
    forall a, b, c :: combine(combine(a, b), c) == combine(a, combine(b, c))
  }

  ghost predicate Commutative<M(!new)>(combine: (M, M) -> M) {
    forall a, b :: combine(a, b) == combine(b, a)
  }

  // Applied to a first value it keeps the measure; applied to a current value it combines the measures.
  ghost predicate Lawful<V(!new), M(!new)>(agg: Aggregate<V, M>) {
    && Associative(agg.combine) && Commutative(agg.combine)
    && (forall v :: agg.measure(agg.apply(None, v)) == agg.measure(v))
    && (forall c, v :: agg.measure(agg.apply(Some(c), v)) == agg.combine(agg.measure(c), agg.measure(v)))
  }

  // ---- the state ----

  datatype Pc<K, V> =
    | Collect                                                          // the loop over the iterable
    | Pick                                                             // the loop over the local table
    | Read(key: K, expected: Option<V>, desired: V)                    // flush_one: get
    | Swap(key: K, expected: Option<V>, desired: V)                    // compare_and_set
    | Redo(key: K, current: Option<V>)                                 // call the aggregate on what was read
    | Done

  // `local` holds the aggregates that are not flushed yet.
  datatype Thread<!K, V> = Thread(items: seq<(K, V)>, local: map<K, V>, pc: Pc<K, V>)

  datatype State<!K, V> = State(dict: map<K, V>, threads: seq<Thread<K, V>>)

  function Lookup<K, V>(m: map<K, V>, k: K): Option<V> {
    if k in m then Some(m[k]) else None
  }

  // ---- steps ----

  // The next item of the iterable is aggregated locally.
  function CollectStep<K, V, M>(agg: Aggregate<V, M>, th: Thread<K, V>): Thread<K, V> {
    if th.items == [] then th.(pc := Pick)
    else
      var (k, v) := th.items[0];
      th.(items := th.items[1..], local := th.local[k := agg.apply(Lookup(th.local, k), v)])
  }

  ghost predicate Steps<K, V, M>(agg: Aggregate<V, M>, s: State<K, V>, s': State<K, V>, t: nat)
    requires t < |s.threads|
  {
    var th := s.threads[t];
    match th.pc
    case Collect => s' == s.(threads := s.threads[t := CollectStep(agg, th)])
    case Pick =>
      // flush_one begins with expected == NOT_FOUND
      if th.local == map[] then s' == s.(threads := s.threads[t := th.(pc := Done)])
      else exists k :: k in th.local && s' == s.(threads := s.threads[t := th.(pc := Read(k, None, th.local[k]))])
    case Read(k, expected, desired) =>
      var current := Lookup(s.dict, k);
      var pc := if current == expected then Swap(k, expected, desired) else Redo(k, current);
      s' == s.(threads := s.threads[t := th.(pc := pc)])
    case Swap(k, expected, desired) =>
      if Lookup(s.dict, k) == expected
      then s' == State(s.dict[k := desired], s.threads[t := th.(pc := Pick, local := th.local - {k})])
      else s' == s.(threads := s.threads[t := th.(pc := Redo(k, expected))])
    case Redo(k, current) =>
      // the aggregate is called with the local aggregate, not with the value desired so far
      k in th.local
      && s' == s.(threads := s.threads[t := th.(pc := Read(k, current, agg.apply(current, th.local[k])))])
    case Done => s' == s
  }

  ghost predicate Init<K, V>(s: State<K, V>) {
    forall t :: 0 <= t < |s.threads| ==> s.threads[t].pc.Collect? && s.threads[t].local == map[]
  }

  ghost predicate Run<K, V, M>(agg: Aggregate<V, M>, run: seq<State<K, V>>) {
    && run != [] && Init(run[0])
    && forall i :: 0 <= i < |run| - 1 ==> Next(agg, run[i], run[i + 1])
  }

  ghost predicate Next<K, V, M>(agg: Aggregate<V, M>, s: State<K, V>, s': State<K, V>) {
    exists t: nat :: t < |s.threads| && Steps(agg, s, s', t)
  }

  // ---- what is owed to a key ----

  // `combine`, with None for nothing at all.
  function Plus<V, M>(agg: Aggregate<V, M>, a: Option<M>, b: Option<M>): Option<M> {
    if a.None? then b else if b.None? then a else Some(agg.combine(a.value, b.value))
  }

  lemma PlusLaws<V(!new), M(!new)>(agg: Aggregate<V, M>, a: Option<M>, b: Option<M>, c: Option<M>)
    requires Lawful(agg)
    ensures Plus(agg, a, b) == Plus(agg, b, a)
    ensures Plus(agg, Plus(agg, a, b), c) == Plus(agg, a, Plus(agg, b, c))
  {
  }

  function Measure<V, M>(agg: Aggregate<V, M>, v: Option<V>): Option<M> {
    if v.Some? then Some(agg.measure(v.value)) else None
  }

  function OfItems<K(==), V, M>(agg: Aggregate<V, M>, items: seq<(K, V)>, k: K): Option<M> {
    if items == [] then None
    else Plus(agg, if items[0].0 == k then Some(agg.measure(items[0].1)) else None, OfItems(agg, items[1..], k))
  }

  // What a thread still owes to key k.
  function Owed<K(==), V, M>(agg: Aggregate<V, M>, th: Thread<K, V>, k: K): Option<M> {
    Plus(agg, Measure(agg, Lookup(th.local, k)), OfItems(agg, th.items, k))
  }

  function OwedByAll<K(==), V, M>(agg: Aggregate<V, M>, ts: seq<Thread<K, V>>, k: K): Option<M> {
    if ts == [] then None else Plus(agg, Owed(agg, ts[0], k), OwedByAll(agg, ts[1..], k))
  }

  // The initial value of the key combined with every input for it.
  function Total<K(==), V, M>(agg: Aggregate<V, M>, s: State<K, V>, k: K): Option<M> {
    Plus(agg, Measure(agg, Lookup(s.dict, k)), OwedByAll(agg, s.threads, k))
  }

  // A thread that pays `a` of what it owes leaves the rest of the sum.
  lemma {:induction false} PayOff<K(!new), V(!new), M(!new)>(
      agg: Aggregate<V, M>, ts: seq<Thread<K, V>>, t: nat, th: Thread<K, V>, k: K, a: Option<M>)
    requires Lawful(agg) && t < |ts| && Owed(agg, ts[t], k) == Plus(agg, a, Owed(agg, th, k))
    ensures OwedByAll(agg, ts, k) == Plus(agg, a, OwedByAll(agg, ts[t := th], k))
  {
    var ts' := ts[t := th];
    if t == 0 {
      assert ts'[1..] == ts[1..];
      PlusLaws(agg, a, Owed(agg, th, k), OwedByAll(agg, ts[1..], k));
    } else {
      assert ts'[1..] == ts[1..][t - 1 := th];
      PayOff(agg, ts[1..], t - 1, th, k, a);
      var x, y := Owed(agg, ts[0], k), OwedByAll(agg, ts'[1..], k);
      PlusLaws(agg, x, a, y);
      PlusLaws(agg, a, x, y);
    }
  }

  // ---- the invariant ----

  ghost predicate PcOk<K, V, M>(agg: Aggregate<V, M>, th: Thread<K, V>) {
    && (!th.pc.Collect? ==> th.items == [])
    && match th.pc
       case Read(k, expected, desired) => k in th.local && Adds(agg, expected, th.local[k], desired)
       case Swap(k, expected, desired) => k in th.local && Adds(agg, expected, th.local[k], desired)
       case Redo(k, _) => k in th.local
       case Done => th.local == map[]
       case _ => true
  }

  // The value to store is worth the value expected and the local aggregate together.
  ghost predicate Adds<V, M>(agg: Aggregate<V, M>, expected: Option<V>, new_: V, desired: V) {
    Some(agg.measure(desired)) == Plus(agg, Measure(agg, expected), Some(agg.measure(new_)))
  }

  ghost predicate ThreadsOk<K, V, M>(agg: Aggregate<V, M>, s: State<K, V>) {
    forall t :: 0 <= t < |s.threads| ==> PcOk(agg, s.threads[t])
  }

  lemma CollectKeeps<K(!new), V(!new), M(!new)>(agg: Aggregate<V, M>, th: Thread<K, V>, k: K)
    requires Lawful(agg) && th.pc.Collect?
    ensures Owed(agg, CollectStep(agg, th), k) == Owed(agg, th, k)
  {
    if th.items != [] && th.items[0].0 == k {
      var v := th.items[0].1;
      PlusLaws(agg, Measure(agg, Lookup(th.local, k)), Some(agg.measure(v)), OfItems(agg, th.items[1..], k));
    }
  }

  lemma StepKeepsTotal<K(!new), V(!new), M(!new)>(agg: Aggregate<V, M>, s: State<K, V>, s': State<K, V>, t: nat, k: K)
    requires Lawful(agg) && t < |s.threads| && ThreadsOk(agg, s) && Steps(agg, s, s', t)
    ensures Total(agg, s', k) == Total(agg, s, k)
  {
    var th := s.threads[t];
    assert PcOk(agg, th);
    if th.pc.Swap? && Lookup(s.dict, th.pc.key) == th.pc.expected {
      SwapKeepsTotal(agg, s, s', t, k);
    } else if th.pc.Done? {
    } else {
      var th' := s'.threads[t];
      if th.pc.Collect? { CollectKeeps(agg, th, k); }
      assert s'.threads == s.threads[t := th'] && Owed(agg, th', k) == Owed(agg, th, k);
      PayOff(agg, s.threads, t, th', k, None);
    }
  }

  lemma SwapKeepsTotal<K(!new), V(!new), M(!new)>(agg: Aggregate<V, M>, s: State<K, V>, s': State<K, V>, t: nat, k: K)
    requires Lawful(agg) && t < |s.threads| && PcOk(agg, s.threads[t]) && Steps(agg, s, s', t)
    requires s.threads[t].pc.Swap? && Lookup(s.dict, s.threads[t].pc.key) == s.threads[t].pc.expected
    ensures Total(agg, s', k) == Total(agg, s, k)
  {
    var th := s.threads[t];
    var th' := th.(pc := Pick, local := th.local - {th.pc.key});
    if k == th.pc.key {
      var a := Some(agg.measure(th.local[k]));
      PayOff(agg, s.threads, t, th', k, a);
      PlusLaws(agg, Measure(agg, Lookup(s.dict, k)), a, OwedByAll(agg, s'.threads, k));
    } else {
      PayOff(agg, s.threads, t, th', k, None);
    }
  }

  lemma StepKeepsThreads<K(!new), V(!new), M(!new)>(agg: Aggregate<V, M>, s: State<K, V>, s': State<K, V>, t: nat)
    requires Lawful(agg) && t < |s.threads| && ThreadsOk(agg, s) && Steps(agg, s, s', t)
    ensures ThreadsOk(agg, s') && |s'.threads| == |s.threads|
  {
    assert PcOk(agg, s.threads[t]);
    forall u | 0 <= u < |s'.threads|
      ensures PcOk(agg, s'.threads[u])
    {
      assert u != t ==> PcOk(agg, s.threads[u]);
    }
  }

  lemma {:induction false} TotalConserved<K(!new), V(!new), M(!new)>(agg: Aggregate<V, M>, run: seq<State<K, V>>,
      i: nat, k: K)
    requires Lawful(agg) && Run(agg, run) && i < |run|
    ensures ThreadsOk(agg, run[i]) && Total(agg, run[i], k) == Total(agg, run[0], k)
  {
    if i > 0 {
      TotalConserved(agg, run, i - 1, k);
      assert Next(agg, run[i - 1], run[i - 1 + 1]);
      var t: nat :| t < |run[i - 1].threads| && Steps(agg, run[i - 1], run[i], t);
      StepKeepsTotal(agg, run[i - 1], run[i], t, k);
      StepKeepsThreads(agg, run[i - 1], run[i], t);
    }
  }

  lemma {:induction false} NothingOwed<K(!new), V(!new), M(!new)>(agg: Aggregate<V, M>, ts: seq<Thread<K, V>>, k: K)
    requires forall t :: 0 <= t < |ts| ==> PcOk(agg, ts[t]) && ts[t].pc.Done?
    ensures OwedByAll(agg, ts, k) == None
  {
    if ts != [] {
      NothingOwed(agg, ts[1..], k);
    }
  }

  // Reduce loses nothing: when every call has returned, whatever the interleaving and the retries, each key
  // holds its initial value combined with every input for it, from every thread.
  lemma ReduceLosesNothing<K(!new), V(!new), M(!new)>(agg: Aggregate<V, M>, run: seq<State<K, V>>, i: nat, k: K)
    requires Lawful(agg) && Run(agg, run) && i < |run|
    requires forall t :: 0 <= t < |run[i].threads| ==> run[i].threads[t].pc.Done?
    ensures Measure(agg, Lookup(run[i].dict, k)) == Total(agg, run[0], k)
  {
    TotalConserved(agg, run, i, k);
    NothingOwed(agg, run[i].threads, k);
  }

  // ---- what the inputs are worth ----

  // Whatever the threads are going to reduce into key k, and its value in the dict.
  function InputsOf<K(==), V>(ts: seq<Thread<K, V>>, k: K): seq<V> {
    if ts == [] then [] else ValuesOf(ts[0].items, k) + InputsOf(ts[1..], k)
  }

  function Inputs<K(==), V>(s: State<K, V>, k: K): seq<V> {
    (if k in s.dict then [s.dict[k]] else []) + InputsOf(s.threads, k)
  }

  // They are the value in the dict and those that some thread's items pair with the key.
  lemma {:induction false} InputsOfGiven<K(!new), V(!new)>(ts: seq<Thread<K, V>>, k: K, v: V)
    ensures v in InputsOf(ts, k) <==> exists t :: 0 <= t < |ts| && (k, v) in ts[t].items
  {
    if ts != [] {
      ValuesOfGiven(ts[0].items, k, v);
      InputsOfGiven(ts[1..], k, v);
      if v in InputsOf(ts[1..], k) {
        var t :| 0 <= t < |ts[1..]| && (k, v) in ts[1..][t].items;
        assert (k, v) in ts[t + 1].items;
      }
      if t :| 0 <= t < |ts| && (k, v) in ts[t].items {
        assert t > 0 ==> (k, v) in ts[1..][t - 1].items;
      }
    }
  }

  lemma InputsGiven<K(!new), V(!new)>(s: State<K, V>, k: K, v: V)
    ensures v in Inputs(s, k) <==>
              (k in s.dict && s.dict[k] == v) || exists t :: 0 <= t < |s.threads| && (k, v) in s.threads[t].items
  {
    InputsOfGiven(s.threads, k, v);
  }

  // The measures of the values, combined.
  function MeasureAll<V, M>(agg: Aggregate<V, M>, vs: seq<V>): Option<M> {
    if vs == [] then None else Plus(agg, Some(agg.measure(vs[0])), MeasureAll(agg, vs[1..]))
  }

  lemma PlusNone<V, M>(agg: Aggregate<V, M>, a: Option<M>)
    ensures Plus(agg, None, a) == a
  {
  }

  lemma {:induction false} MeasureConcat<V(!new), M(!new)>(agg: Aggregate<V, M>, a: seq<V>, b: seq<V>)
    requires Lawful(agg)
    ensures MeasureAll(agg, a + b) == Plus(agg, MeasureAll(agg, a), MeasureAll(agg, b))
  {
    hide Lawful, Plus;
    if a == [] {
      assert a + b == b;
      PlusNone(agg, MeasureAll(agg, b));
    } else {
      MeasureConcat(agg, a[1..], b);
      assert (a + b)[0] == a[0] && (a + b)[1..] == a[1..] + b;
      PlusLaws(agg, Some(agg.measure(a[0])), MeasureAll(agg, a[1..]), MeasureAll(agg, b));
    }
  }

  lemma {:induction false} ItemsMeasure<K(!new), V(!new), M(!new)>(agg: Aggregate<V, M>, items: seq<(K, V)>, k: K)
    requires Lawful(agg)
    ensures OfItems(agg, items, k) == MeasureAll(agg, ValuesOf(items, k))
  {
    if items != [] {
      ItemsMeasure(agg, items[1..], k);
      assert items == [items[0]] + items[1..];
      ValuesOfConcat([items[0]], items[1..], k);
      ValuesOfOne(items[0], k);
      MeasureConcat(agg, ValuesOf([items[0]], k), ValuesOf(items[1..], k));
      if items[0].0 == k {
        assert ValuesOf([items[0]], k) == [items[0].1];
        assert MeasureAll(agg, [items[0].1]) == Some(agg.measure(items[0].1));
      }
    }
  }

  lemma {:induction false} OwedIsInputs<K(!new), V(!new), M(!new)>(agg: Aggregate<V, M>, ts: seq<Thread<K, V>>, k: K)
    requires Lawful(agg) && forall t :: 0 <= t < |ts| ==> ts[t].local == map[]
    ensures OwedByAll(agg, ts, k) == MeasureAll(agg, InputsOf(ts, k))
  {
    if ts != [] {
      OwedIsInputs(agg, ts[1..], k);
      ItemsMeasure(agg, ts[0].items, k);
      MeasureConcat(agg, ValuesOf(ts[0].items, k), InputsOf(ts[1..], k));
    }
  }

  // When every call has returned, what a key holds is worth its inputs, and a key without inputs is not there.
  lemma ReducesInputs<K(!new), V(!new), M(!new)>(agg: Aggregate<V, M>, run: seq<State<K, V>>, i: nat, k: K)
    requires Lawful(agg) && Run(agg, run) && i < |run| && AllDone(run[i])
    ensures Measure(agg, Lookup(run[i].dict, k)) == MeasureAll(agg, Inputs(run[0], k))
    ensures k in run[i].dict <==> Inputs(run[0], k) != []
  {
    ReduceLosesNothing(agg, run, i, k);
    OwedIsInputs(agg, run[0].threads, k);
    var own := if k in run[0].dict then [run[0].dict[k]] else [];
    MeasureConcat(agg, own, InputsOf(run[0].threads, k));
    if k in run[0].dict {
      assert MeasureAll(agg, own) == Some(agg.measure(run[0].dict[k]));
    }
  }

  ghost predicate AllDone<K, V>(s: State<K, V>) {
    forall t :: 0 <= t < |s.threads| ==> s.threads[t].pc.Done?
  }

  // ---- the local table ----

  // Folding an aggregate function over values combines their measures.
  lemma {:induction false} FoldMeasure<V(!new), M(!new)>(agg: Aggregate<V, M>, vs: seq<V>)
    requires Lawful(agg)
    ensures Measure(agg, FoldLeft(agg.apply, vs)) == MeasureAll(agg, vs)
  {
    if vs != [] {
      var n := |vs| - 1;
      FoldMeasure(agg, vs[..n]);
      assert vs == vs[..n] + [vs[n]];
      MeasureConcat(agg, vs[..n], [vs[n]]);
      assert MeasureAll(agg, [vs[n]]) == Some(agg.measure(vs[n]));
    }
  }

  // So what the local table holds for a key is worth the key's items.
  lemma TableMeasure<M(!new)>(agg: Aggregate<T.Value, M>, items: seq<(T.Key, T.Value)>, k: T.Key)
    requires Lawful(agg)
    ensures Measure(agg, Lookup(T.Aggregated(items, agg.apply), k)) == OfItems(agg, items, k)
  {
    T.AggregatedIsFold(items, agg.apply, k);
    FoldMeasure(agg, ValuesOf(items, k));
    ItemsMeasure(agg, items, k);
  }

  // n steps of the loop over the items.
  function Collects<K, V, M>(agg: Aggregate<V, M>, th: Thread<K, V>, n: nat): Thread<K, V> {
    if n == 0 then th else CollectStep(agg, Collects(agg, th, n - 1))
  }

  // The steps that collect the items build just the table of ReduceTables.
  lemma {:induction false} CollectsTable<M(!new)>(agg: Aggregate<T.Value, M>, th: Thread<T.Key, T.Value>, n: nat)
    requires th.pc.Collect? && th.local == map[] && n <= |th.items|
    ensures Collects(agg, th, n) == th.(items := th.items[n..], local := T.Aggregated(th.items[..n], agg.apply))
  {
    if n > 0 {
      CollectsTable(agg, th, n - 1);
      assert th.items[..n][..n - 1] == th.items[..n - 1];
      assert th.items[n - 1..][1..] == th.items[n..];
    }
  }

  // ---- the built-in aggregates ----

  // A Python object, as far as the built-in aggregates look at it.
  datatype Obj = Int(n: int) | Bool(b: bool) | List(items: seq<Obj>)

  predicate IsTrue(x: Obj) {
    match x
    case Int(n) => n != 0
    case Bool(b) => b
    case List(items) => items != []
  }

  function ReduceSum(): Aggregate<int, int> {
    Aggregate((c: Option<int>, v: int) => if c.None? then v else c.value + v, (v: int) => v, (a: int, b: int) => a + b)
  }

  function ReduceMax(): Aggregate<int, int> {
    Aggregate((c: Option<int>, v: int) => if c.None? then v else if c.value >= v then c.value else v,
              (v: int) => v, (a: int, b: int) => if a >= b then a else b)
  }

  function ReduceMin(): Aggregate<int, int> {
    Aggregate((c: Option<int>, v: int) => if c.None? then v else if c.value <= v then c.value else v,
              (v: int) => v, (a: int, b: int) => if a <= b then a else b)
  }

  function ReduceAnd(): Aggregate<Obj, bool> {
    Aggregate((c: Option<Obj>, v: Obj) => if c.None? then v else Bool(IsTrue(c.value) && IsTrue(v)),
              (v: Obj) => IsTrue(v), (a: bool, b: bool) => a && b)
  }

  function ReduceOr(): Aggregate<Obj, bool> {
    Aggregate((c: Option<Obj>, v: Obj) => if c.None? then v else Bool(IsTrue(c.value) || IsTrue(v)),
              (v: Obj) => IsTrue(v), (a: bool, b: bool) => a || b)
  }

  function ToList(x: Obj): seq<Obj> {
    if x.List? then x.items else [x]
  }

  function ReduceList(): Aggregate<Obj, multiset<Obj>> {
    Aggregate((c: Option<Obj>, v: Obj) => if c.None? then List(ToList(v)) else List(ToList(c.value) + ToList(v)),
              (v: Obj) => multiset(ToList(v)), (a: multiset<Obj>, b: multiset<Obj>) => a + b)
  }

  // So nothing is lost: exactly for sum, max and min, up to truthiness for and/or, up to the order of the
  // items for list.
  lemma SumLaws()
    ensures Associative(ReduceSum().combine)
    ensures Commutative(ReduceSum().combine)
  {
    forall a: int, b: int
      ensures ReduceSum().combine(a, b) == (a + b)
    {
    }
  }

  lemma SumLawful()
    ensures Lawful(ReduceSum())
  {
    hide Associative, Commutative;
    SumLaws();
  }

  lemma MaxLaws()
    ensures Associative(ReduceMax().combine)
    ensures Commutative(ReduceMax().combine)
  {
    forall a: int, b: int
      ensures ReduceMax().combine(a, b) == (if a >= b then a else b)
    {
    }
  }

  lemma MaxLawful()
    ensures Lawful(ReduceMax())
  {
    hide Associative, Commutative;
    MaxLaws();
  }

  lemma MinLaws()
    ensures Associative(ReduceMin().combine)
    ensures Commutative(ReduceMin().combine)
  {
    forall a: int, b: int
      ensures ReduceMin().combine(a, b) == (if a <= b then a else b)
    {
    }
  }

  lemma MinLawful()
    ensures Lawful(ReduceMin())
  {
    hide Associative, Commutative;
    MinLaws();
  }

  lemma AndLaws()
    ensures Associative(ReduceAnd().combine)
    ensures Commutative(ReduceAnd().combine)
  {
    forall a: bool, b: bool
      ensures ReduceAnd().combine(a, b) == (a && b)
    {
    }
  }

  lemma AndLawful()
    ensures Lawful(ReduceAnd())
  {
    hide Associative, Commutative;
    AndLaws();
  }

  lemma OrLaws()
    ensures Associative(ReduceOr().combine)
    ensures Commutative(ReduceOr().combine)
  {
    forall a: bool, b: bool
      ensures ReduceOr().combine(a, b) == (a || b)
    {
    }
  }

  lemma OrLawful()
    ensures Lawful(ReduceOr())
  {
    hide Associative, Commutative;
    OrLaws();
  }

  lemma ListLaws()
    ensures Associative(ReduceList().combine)
    ensures Commutative(ReduceList().combine)
  {
    var combine := ReduceList().combine;
    forall a, b, c
      ensures combine(combine(a, b), c) == combine(a, combine(b, c))
    {
      assert (a + b) + c == a + (b + c);
    }
    forall a, b
      ensures combine(a, b) == combine(b, a)
    {
      assert a + b == b + a;
    }
  }

  lemma ListLawful()
    ensures Lawful(ReduceList())
  {
    hide Associative, Commutative;
    ListLaws();
    var agg := ReduceList();
    forall c, v
      ensures agg.measure(agg.apply(Some(c), v)) == agg.combine(agg.measure(c), agg.measure(v))
    {
      assert multiset(ToList(c) + ToList(v)) == multiset(ToList(c)) + multiset(ToList(v));
    }
  }

  // ---- what the built-in reductions leave ----

  function Sum(vs: seq<int>): int {
    if vs == [] then 0 else vs[0] + Sum(vs[1..])
  }

  // What a value counts for in a list: its items, or itself.
  function ItemsIn(x: Obj): multiset<Obj> {
    match x
    case List(items) => multiset(items)
    case _ => multiset{x}
  }

  function AllItems(vs: seq<Obj>): multiset<Obj> {
    if vs == [] then multiset{} else ItemsIn(vs[0]) + AllItems(vs[1..])
  }

  lemma {:induction false} SumOfAll(vs: seq<int>)
    ensures MeasureAll(ReduceSum(), vs) == if vs == [] then None else Some(Sum(vs))
  {
    if vs != [] {
      SumOfAll(vs[1..]);
    }
  }

  lemma {:induction false} MaxOfAll(vs: seq<int>)
    requires vs != []
    ensures MeasureAll(ReduceMax(), vs).Some?
    ensures var m := MeasureAll(ReduceMax(), vs).value; m in vs && forall v :: v in vs ==> v <= m
  {
    if |vs| > 1 {
      MaxOfAll(vs[1..]);
      assert forall v :: v in vs <==> v == vs[0] || v in vs[1..];
    }
  }

  lemma {:induction false} MinOfAll(vs: seq<int>)
    requires vs != []
    ensures MeasureAll(ReduceMin(), vs).Some?
    ensures var m := MeasureAll(ReduceMin(), vs).value; m in vs && forall v :: v in vs ==> m <= v
  {
    if |vs| > 1 {
      MinOfAll(vs[1..]);
      assert forall v :: v in vs <==> v == vs[0] || v in vs[1..];
    }
  }

  lemma {:induction false} AndOfAll(vs: seq<Obj>)
    requires vs != []
    ensures MeasureAll(ReduceAnd(), vs) == Some(forall v :: v in vs ==> IsTrue(v))
  {
    if |vs| > 1 {
      AndOfAll(vs[1..]);
      assert forall v :: v in vs <==> v == vs[0] || v in vs[1..];
    }
  }

  lemma {:induction false} OrOfAll(vs: seq<Obj>)
    requires vs != []
    ensures MeasureAll(ReduceOr(), vs) == Some(exists v :: v in vs && IsTrue(v))
  {
    if |vs| > 1 {
      OrOfAll(vs[1..]);
      assert forall v :: v in vs <==> v == vs[0] || v in vs[1..];
    }
  }

  lemma {:induction false} ListOfAll(vs: seq<Obj>)
    ensures MeasureAll(ReduceList(), vs) == if vs == [] then None else Some(AllItems(vs))
  {
    if vs != [] {
      ListOfAll(vs[1..]);
      assert multiset(ToList(vs[0])) == ItemsIn(vs[0]);
      assert ReduceList().measure(vs[0]) == ItemsIn(vs[0]);
      assert ItemsIn(vs[0]) + multiset{} == ItemsIn(vs[0]);
    }
  }

  // reduce_sum leaves the sum of the key's value and of everything reduced into it.
  lemma SumLeavesSum<K(!new)>(run: seq<State<K, int>>, i: nat, k: K)
    requires Run(ReduceSum(), run) && i < |run| && AllDone(run[i])
    ensures k in run[i].dict <==> Inputs(run[0], k) != []
    ensures k in run[i].dict ==> run[i].dict[k] == Sum(Inputs(run[0], k))
  {
    SumLawful();
    ReducesInputs(ReduceSum(), run, i, k);
    SumOfAll(Inputs(run[0], k));
  }

  // reduce_max leaves one of them, and the greatest; reduce_min the least.
  lemma MaxLeavesGreatest<K(!new)>(run: seq<State<K, int>>, i: nat, k: K)
    requires Run(ReduceMax(), run) && i < |run| && AllDone(run[i])
    ensures k in run[i].dict <==> Inputs(run[0], k) != []
    ensures k in run[i].dict ==>
              run[i].dict[k] in Inputs(run[0], k) && forall v :: v in Inputs(run[0], k) ==> v <= run[i].dict[k]
  {
    MaxLawful();
    ReducesInputs(ReduceMax(), run, i, k);
    if k in run[i].dict { MaxOfAll(Inputs(run[0], k)); }
  }

  lemma MinLeavesLeast<K(!new)>(run: seq<State<K, int>>, i: nat, k: K)
    requires Run(ReduceMin(), run) && i < |run| && AllDone(run[i])
    ensures k in run[i].dict <==> Inputs(run[0], k) != []
    ensures k in run[i].dict ==>
              run[i].dict[k] in Inputs(run[0], k) && forall v :: v in Inputs(run[0], k) ==> run[i].dict[k] <= v
  {
    MinLawful();
    ReducesInputs(ReduceMin(), run, i, k);
    if k in run[i].dict { MinOfAll(Inputs(run[0], k)); }
  }

  // reduce_and leaves something true if and only if all of them are true, reduce_or if and only if one is: not
  // zero, not False, not an empty list.
  predicate Falsy(x: Obj) {
    x == Int(0) || x == Bool(false) || x == List([])
  }

  lemma AndLeavesAll<K(!new)>(run: seq<State<K, Obj>>, i: nat, k: K)
    requires Run(ReduceAnd(), run) && i < |run| && AllDone(run[i])
    ensures k in run[i].dict <==> Inputs(run[0], k) != []
    ensures k in run[i].dict ==> (!Falsy(run[i].dict[k]) <==> forall v :: v in Inputs(run[0], k) ==> !Falsy(v))
  {
    AndLawful();
    ReducesInputs(ReduceAnd(), run, i, k);
    if k in run[i].dict { AndOfAll(Inputs(run[0], k)); }
  }

  lemma OrLeavesAny<K(!new)>(run: seq<State<K, Obj>>, i: nat, k: K)
    requires Run(ReduceOr(), run) && i < |run| && AllDone(run[i])
    ensures k in run[i].dict <==> Inputs(run[0], k) != []
    ensures k in run[i].dict ==> (!Falsy(run[i].dict[k]) <==> exists v :: v in Inputs(run[0], k) && !Falsy(v))
  {
    OrLawful();
    ReducesInputs(ReduceOr(), run, i, k);
    if k in run[i].dict { OrOfAll(Inputs(run[0], k)); }
  }

  // reduce_list leaves all their items, as often as they came.
  lemma ListLeavesItems<K(!new)>(run: seq<State<K, Obj>>, i: nat, k: K)
    requires Run(ReduceList(), run) && i < |run| && AllDone(run[i])
    ensures k in run[i].dict <==> Inputs(run[0], k) != []
    ensures k in run[i].dict ==> ItemsIn(run[i].dict[k]) == AllItems(Inputs(run[0], k))
  {
    ListLawful();
    ReducesInputs(ReduceList(), run, i, k);
    ListOfAll(Inputs(run[0], k));
    if k in run[i].dict {
      assert multiset(ToList(run[i].dict[k])) == ItemsIn(run[i].dict[k]);
    }
  }
}
