// Powers of two and the masking of ring positions.
module Arith {

  function Pow2(n: nat): (r: nat)
    ensures r > 0
  {
    if n == 0 then 1 else 2 * Pow2(n - 1)
  }

  lemma {:induction false} Pow2Add(a: nat, b: nat)
    ensures Pow2(a + b) == Pow2(a) * Pow2(b)
  {
    if a == 0 {
    } else {
      Pow2Add(a - 1, b);
      assert a + b - 1 == (a - 1) + b;
      assert Pow2(a + b) == 2 * Pow2(a + b - 1);
      assert 2 * (Pow2(a - 1) * Pow2(b)) == (2 * Pow2(a - 1)) * Pow2(b);
    }
  }

  lemma {:induction false} Pow2Monotone(a: nat, b: nat)
    requires a <= b
    ensures Pow2(a) <= Pow2(b)
  {
    if a < b {
      Pow2Monotone(a, b - 1);
    }
  }

  // The slot of a ring of n slots that an unwrapped position denotes, for positions that wrap at
  // most once: the source's `position & (size - 1)`.
  function Wrap(i: nat, n: nat): (p: nat)
    requires i < 2 * n
    ensures p < n
  {
    if i < n then i else i - n
  }

  // How many steps forward from slot w to slot p.
  function Gap(w: nat, p: nat, n: nat): (g: nat)
    requires w < n && p < n
    ensures g < n && Wrap(w + g, n) == p
  {
    if w <= p then p - w else p + n - w
  }

  lemma GapOfWrap(w: nat, k: nat, n: nat)
    requires w < n && k < n
    ensures Gap(w, Wrap(w + k, n), n) == k
  {
  }

  lemma WrapIsRem(i: nat, n: nat)
    requires i < 2 * n
    ensures Rem(i, n) == Wrap(i, n)
  {
    QuoRemUnique(i, n, if i < n then 0 else 1, Wrap(i, n));
  }

  // Quotient and remainder by repeated subtraction; QuoRemIsDivMod says that they are `/` and `%`.
  function Quo(a: nat, m: nat): (q: nat)
    requires m > 0
  {
    if a < m then 0 else 1 + Quo(a - m, m)
  }

  function Rem(a: nat, m: nat): (r: nat)
    requires m > 0
    ensures r < m && r <= a
  {
    if a < m then a else Rem(a - m, m)
  }

  lemma {:induction false} QuoRem(a: nat, m: nat)
    requires m > 0
    ensures a == Quo(a, m) * m + Rem(a, m)
  {
    if a >= m {
      QuoRem(a - m, m);
      MulDistributes(1, Quo(a - m, m), m);
    }
  }

  lemma QuoRemIsDivMod(a: nat, m: nat)
    requires m > 0
    ensures Quo(a, m) == a / m && Rem(a, m) == a % m
  {
    QuoNonNegative(a, m);
    QuoRemUnique(a, m, a / m, a % m);
  }

  lemma QuoRemUnique(a: nat, m: nat, q: nat, r: nat)
    requires 0 < m && r < m && a == q * m + r
    ensures Quo(a, m) == q && Rem(a, m) == r
  {
    var q', r' := Quo(a, m), Rem(a, m);
    QuoRem(a, m);
    Distributes(q, q', m);
    if q > q' {
      MulAtLeast(q - q', m);
    } else if q < q' {
      MulAtLeast(q' - q, m);
    }
  }

  lemma DivModIs(a: nat, m: nat, q: nat, r: nat)
    requires 0 < m && r < m && a == q * m + r
    ensures a / m == q && a % m == r
  {
    QuoRemUnique(a, m, q, r);
    QuoRemIsDivMod(a, m);
  }

  lemma DivModParts(a: nat, m: nat)
    requires m > 0
    ensures a / m >= 0 && a == (a / m) * m + a % m
  {
    QuoRem(a, m);
    QuoRemIsDivMod(a, m);
  }

  lemma Distributes(q: int, q': int, m: int)
    ensures (q - q') * m == q * m - q' * m && (q' - q) * m == q' * m - q * m
  {
  }

  lemma QuoNonNegative(a: nat, m: nat)
    requires m > 0
    ensures a / m >= 0
  {
    MulSign(a / m, m);
  }

  lemma MulSign(k: int, m: int)
    requires m >= 0
    ensures k <= -1 ==> k * m <= 0 - m
  {
  }

  lemma MulMonotone(a: nat, b: nat, m: nat)
    requires a <= b
    ensures a * m <= b * m
  {
  }

  lemma MulCancels(a: nat, b: nat, m: nat)
    ensures a * m < b * m ==> a < b
  {
    if b <= a {
      MulMonotone(b, a, m);
    }
  }

  lemma MulAssociates(a: nat, b: nat, c: nat)
    ensures a * (b * c) == (a * b) * c
  {
  }

  lemma MulDistributes(a: nat, b: nat, c: nat)
    ensures (a + b) * c == a * c + b * c
  {
  }

  lemma MulAtLeast(k: int, m: int)
    requires k >= 1 && m >= 0
    ensures k * m >= m
  {
  }

  lemma {:induction false} Pigeonhole(s: seq<nat>, n: nat) returns (i: nat, j: nat)
    requires |s| > n && forall k :: 0 <= k < |s| ==> s[k] < n
    ensures i < j < |s| && s[i] == s[j]
    decreases n
  {
    var last := |s| - 1;
    if k: nat :| k < last && s[k] == s[last] {
      i, j := k, last;
    } else {
      // without the last one, renamed so that its hole is the last
      var t := seq(last, k requires 0 <= k < last => if s[k] > s[last] then s[k] - 1 else s[k]);
      i, j := Pigeonhole(t, n - 1);
    }
  }
}
