// Index words: `index | tag | distance` packed in 64 bits (node_ops.c, internal/atomic_dict.h).
// Masks and shifts by powers of two are written as quotients and remainders.
module NodeCodec {
  import opened Arith

  const NODE_SIZE: nat := 64
  const DISTANCES: nat := 256
  const DISTANCE_MAX: nat := 255
  const MIN_LOG_SIZE: nat := 7
  // the log sizes for which the source's `1 << log_size` does not overflow a C int
  const MAX_LOG_SIZE: nat := 30

  predicate LogSize(log: nat) {
    MIN_LOG_SIZE <= log <= MAX_LOG_SIZE
  }

  // Tags(log) * 256 == 2^(64 - log_size): the words that share one index.
  function Tags(log: nat): (r: nat)
    requires LogSize(log)
    ensures r > 0
  {
    Pow2(NODE_SIZE - log - 8)
  }

  function Span(log: nat): (r: nat)
    requires LogSize(log)
    ensures r > 0
  {
    Tags(log) * DISTANCES
  }

  function Word64(): nat { Pow2(NODE_SIZE) }

  // x & TAG_MASK(meta)
  function MaskTag(x: nat, log: nat): nat
    requires LogSize(log)
  {
    Quo(Rem(x, Span(log)), DISTANCES) * DISTANCES
  }

  // TOMBSTONE(meta)
  function TombstoneTag(log: nat): nat
    requires LogSize(log)
  {
    (Tags(log) - 1) * DISTANCES
  }

  function Saturate(distance: nat): nat {
    if distance > DISTANCE_MAX then DISTANCE_MAX else distance
  }

  // distance0_of: the most significant log_size bits of the rehashed hash
  function Home(rehash: nat, log: nat): nat
    requires LogSize(log)
  {
    Quo(rehash, Span(log))
  }

  // compute_raw_node
  function Encode(index: nat, tag: nat, distance: nat, log: nat): nat
    requires LogSize(log)
  {
    index * Span(log) + MaskTag(tag, log) + Saturate(distance)
  }

  // parse_node_from_raw
  function IndexOf(raw: nat, log: nat): nat
    requires LogSize(log)
  {
    Quo(raw, Span(log))
  }

  function TagOf(raw: nat, log: nat): nat
    requires LogSize(log)
  {
    MaskTag(raw, log)
  }

  function DistanceOf(raw: nat): nat {
    Rem(raw, DISTANCES)
  }

  predicate IsEmptyWord(raw: nat) { raw == 0 }

  predicate IsTombstoneWord(raw: nat, log: nat)
    requires LogSize(log)
  {
    raw != 0 && IndexOf(raw, log) == 0
  }

  // migrate_node_d0's tag_displacement: the tag's most significant bit
  function TagBit(tag: nat, log: nat): nat
    requires LogSize(log) && LogSize(log + 1)
  {
    Quo(tag, Span(log + 1))
  }

  // ---- the three fields of a word ----

  // Every word is `index * Span + tag * 256 + distance` in exactly one way.
  lemma Fields(i: nat, t: nat, d: nat, log: nat)
    requires LogSize(log) && t < Tags(log) && d < DISTANCES
    ensures var x := i * Span(log) + t * DISTANCES + d;
            Quo(x, Span(log)) == i && MaskTag(x, log) == t * DISTANCES && Rem(x, DISTANCES) == d
  {
    var k, s := Tags(log), Span(log);
    var x := i * s + t * 256 + d;
    MulMonotone(t + 1, k, 256);
    MulDistributes(t, 1, 256);
    QuoRemUnique(x, s, i, t * 256 + d);
    QuoRemUnique(t * 256 + d, 256, t, d);
    MulAssociates(i, k, 256);
    MulDistributes(i * k, t, 256);
    QuoRemUnique(x, 256, i * k + t, d);
  }

  lemma Split(x: nat, log: nat) returns (i: nat, t: nat, d: nat)
    requires LogSize(log)
    ensures x == i * Span(log) + t * DISTANCES + d && t < Tags(log) && d < DISTANCES
    ensures Quo(x, Span(log)) == i && MaskTag(x, log) == t * DISTANCES && Rem(x, DISTANCES) == d
  {
    i := Quo(x, Span(log));
    t := Quo(Rem(x, Span(log)), 256);
    d := Rem(Rem(x, Span(log)), 256);
    QuoRem(x, Span(log));
    QuoRem(Rem(x, Span(log)), 256);
    MulCancels(t, Tags(log), 256);
    Fields(i, t, d, log);
  }

  lemma SpanDoubles(log: nat)
    requires LogSize(log) && LogSize(log + 1)
    ensures Tags(log) == 2 * Tags(log + 1) && Span(log) == 2 * Span(log + 1)
  {
    assert NODE_SIZE - log - 8 == (NODE_SIZE - (log + 1) - 8) + 1;
    MulAssociates(2, Tags(log + 1), 256);
  }

  lemma SpanTimesSize(log: nat)
    requires LogSize(log)
    ensures Pow2(log) * Span(log) == Word64()
  {
    Pow2Add(NODE_SIZE - log - 8, 8);
    assert Pow2(8) == 256 by { assert Pow2(4) == 16; }
    assert NODE_SIZE - log - 8 + 8 == NODE_SIZE - log;
    Pow2Add(log, NODE_SIZE - log);
  }

  lemma ManyTags(log: nat)
    requires LogSize(log)
    ensures Tags(log) >= 2
  {
    Pow2Monotone(1, NODE_SIZE - log - 8);
  }

  // ---- round trips ----

  // What is written is read back: the index, the masked tag, and the distance up to 255.
  lemma ParseEncode(index: nat, tag: nat, distance: nat, log: nat)
    requires LogSize(log) && index < Pow2(log)
    ensures var raw := Encode(index, tag, distance, log);
            && raw < Word64()
            && IndexOf(raw, log) == index
            && TagOf(raw, log) == MaskTag(tag, log)
            && DistanceOf(raw) == Saturate(distance)
  {
    var i, t, d := Split(tag, log);
    Fields(index, t, Saturate(distance), log);
    MulMonotone(t + 1, Tags(log), 256);
    MulMonotone(index + 1, Pow2(log), Span(log));
    MulDistributes(index, 1, Span(log));
    SpanTimesSize(log);
  }

  // A word is determined by its parse: the expected word that a slot CAS recomputes from a parsed
  // node is the word that was read.
  lemma EncodeParse(raw: nat, log: nat)
    requires LogSize(log)
    ensures Encode(IndexOf(raw, log), TagOf(raw, log), DistanceOf(raw), log) == raw
  {
    var i, t, d := Split(raw, log);
    Fields(0, t, 0, log);
  }

  lemma MaskTagIdempotent(x: nat, log: nat)
    requires LogSize(log)
    ensures MaskTag(MaskTag(x, log), log) == MaskTag(x, log)
  {
    var i, t, d := Split(x, log);
    Fields(0, t, 0, log);
  }

  lemma TombstoneWord(log: nat)
    requires LogSize(log)
    ensures Encode(0, 0, 0, log) == 0
    ensures Encode(0, TombstoneTag(log), 0, log) == TombstoneTag(log) > 0
    ensures IndexOf(TombstoneTag(log), log) == 0
  {
    ManyTags(log);
    Fields(0, 0, 0, log);
    Fields(0, Tags(log) - 1, 0, log);
  }

  // Empty, tombstone and live words are told apart by the source's two tests.
  lemma WordKinds(index: nat, tag: nat, distance: nat, log: nat)
    requires LogSize(log) && index < Pow2(log)
    ensures IsEmptyWord(Encode(0, 0, 0, log))
    ensures IsTombstoneWord(Encode(0, TombstoneTag(log), 0, log), log)
    ensures var raw := Encode(index, tag, distance, log);
            index >= 1 <==> !IsEmptyWord(raw) && !IsTombstoneWord(raw, log)
  {
    TombstoneWord(log);
    ParseEncode(index, tag, distance, log);
    QuoRemUnique(0, Span(log), 0, 0);
  }

  // ---- the migration shortcut ----

  lemma HomeInRange(rehash: nat, log: nat)
    requires LogSize(log) && rehash < Word64()
    ensures Home(rehash, log) < Pow2(log)
  {
    SpanTimesSize(log);
    QuoRem(rehash, Span(log));
    MulCancels(Home(rehash, log), Pow2(log), Span(log));
  }

  // Writing b for a tag's top bit and t' for the rest, tag t of `log` is `b * Tags(log + 1) + t'`.
  lemma TopBit(t: nat, log: nat) returns (b: nat, t': nat)
    requires LogSize(log) && LogSize(log + 1) && t < Tags(log)
    ensures b <= 1 && t' < Tags(log + 1)
    ensures t * DISTANCES == b * Span(log + 1) + t' * DISTANCES
  {
    SpanDoubles(log);
    var k := Tags(log + 1);
    b := if t < k then 0 else 1;
    t' := t - b * k;
    MulDistributes(b * k, t', 256);
  }

  // The home in the index of twice the size is the old home followed by the top tag bit, and
  // re-masking a node's tag for that index gives the tag of its full hash.
  lemma HomeDoubles(rehash: nat, log: nat)
    requires LogSize(log) && LogSize(log + 1)
    ensures TagBit(MaskTag(rehash, log), log) <= 1
    ensures Home(rehash, log + 1) == 2 * Home(rehash, log) + TagBit(MaskTag(rehash, log), log)
    ensures MaskTag(MaskTag(rehash, log), log + 1) == MaskTag(rehash, log + 1)
  {
    var i, t, d := Split(rehash, log);
    var b, t' := TopBit(t, log);
    SpanDoubles(log);
    var s := Span(log + 1);
    assert i * (2 * s) == (2 * i) * s by { MulAssociates(i, 2, s); }
    MulDistributes(2 * i, b, s);
    Fields(2 * i + b, t', d, log + 1);
    Fields(b, t', 0, log + 1);
  }
}
