// The input of a reduce: pairs of a key and a value.
module ReduceInputs {
  import opened Options

  // The values that the items give to key k, in order.
  function ValuesOf<K(==), V>(items: seq<(K, V)>, k: K): seq<V> {
    if items == [] then []
    else
      var (key, v) := items[|items| - 1];
      ValuesOf(items[..|items| - 1], k) + if key == k then [v] else []
  }

  lemma ValuesOfOne<K, V>(item: (K, V), k: K)
    ensures ValuesOf([item], k) == if item.0 == k then [item.1] else []
  {
    assert [item][..0] == [];
  }

  lemma {:induction false} ValuesOfConcat<K, V>(a: seq<(K, V)>, b: seq<(K, V)>, k: K)
    ensures ValuesOf(a + b, k) == ValuesOf(a, k) + ValuesOf(b, k)
  {
    if b == [] {
      assert a + b == a;
    } else {
      var n := |b| - 1;
      ValuesOfConcat(a, b[..n], k);
      assert (a + b)[..|a| + n] == a + b[..n];
    }
  }

  // They are the values that are paired with k.
  lemma {:induction false} ValuesOfGiven<K, V>(items: seq<(K, V)>, k: K, v: V)
    ensures v in ValuesOf(items, k) <==> (k, v) in items
  {
    if items != [] {
      var n := |items| - 1;
      ValuesOfGiven(items[..n], k, v);
      assert items == items[..n] + [(items[n].0, items[n].1)];
    }
  }

  // A function that is called with what the earlier values made, or with nothing at first.
  function FoldLeft<V>(apply: (Option<V>, V) -> V, vs: seq<V>): Option<V> {
    if vs == [] then None else Some(apply(FoldLeft(apply, vs[..|vs| - 1]), vs[|vs| - 1]))
  }
}
