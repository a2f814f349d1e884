// What get, compare-and-set and delete promise, one at a time, on a plain map.
module MapSpec {
  type Key(==, !new)
  type Value(==, !new)

  datatype Expected = NotFound | Any | Exactly(v: Value)

  datatype Op =
    | Get(key: Key)
    | CompareAndSet(key: Key, expected: Expected, desired: Value)
    | Delete(key: Key)

  datatype Result = Returned(v: Value) | WasNotFound | ExpectationFailed | Deleted | KeyError

  datatype Outcome = Outcome(result: Result, after: map<Key, Value>)

  function Atomically(op: Op, m: map<Key, Value>): Outcome {
    match op
    case Get(k) => Outcome(if k in m then Returned(m[k]) else WasNotFound, m)
    case CompareAndSet(k, NotFound, d) =>
      if k in m then Outcome(ExpectationFailed, m) else Outcome(WasNotFound, m[k := d])
    case CompareAndSet(k, Any, d) => Outcome(if k in m then Returned(m[k]) else WasNotFound, m[k := d])
    case CompareAndSet(k, Exactly(v), d) =>
      if k in m && m[k] == v then Outcome(Returned(v), m[k := d]) else Outcome(ExpectationFailed, m)
    case Delete(k) => if k in m then Outcome(Deleted, m - {k}) else Outcome(KeyError, m)
  }

  // How accessor_len_inc counts an operation, by its result.
  function Counted(op: Op, r: Result): int {
    if op.CompareAndSet? && r.WasNotFound? then 1 else if r.Deleted? then -1 else 0
  }

  // What an operation counts is how much it makes the map grow.
  lemma CountedIsGrowth(op: Op, m: map<Key, Value>)
    ensures var o := Atomically(op, m); |o.after| == |m| + Counted(op, o.result)
  {
    if op.CompareAndSet? {
      StoredSize(m, op.key, op.desired);
    } else if op.Delete? {
      RemovedSize(m, op.key);
    }
  }

  lemma StoredSize(m: map<Key, Value>, k: Key, v: Value)
    ensures |m[k := v]| == |m| + if k in m then 0 else 1
  {
    assert m[k := v].Keys == m.Keys + {k};
    assert |m[k := v].Keys| == |m[k := v]| && |m.Keys| == |m|;
  }

  lemma RemovedSize(m: map<Key, Value>, k: Key)
    ensures |m - {k}| == |m| - if k in m then 1 else 0
  {
    assert (m - {k}).Keys == m.Keys - {k};
    assert |(m - {k}).Keys| == |m - {k}| && |m.Keys| == |m|;
  }
}
