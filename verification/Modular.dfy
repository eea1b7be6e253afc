/** Indices into a circular buffer: what index equality says about the counters behind the indices. */
module Modular {

  /** The index of the k-th element in a buffer of n slots, by going round. */
  function Wrap(k: nat, n: nat): (i: nat)
    requires n > 0
    ensures i < n && i <= k
    decreases k
  {
    if k < n then k else Wrap(k - n, n)
  }

  lemma {:induction false} WrapIsModulo(k: nat, n: nat)
    requires n > 0
    ensures Wrap(k, n) == k % n
    decreases k
  {
    if k >= n {
      WrapIsModulo(k - n, n);
      OneTurnLess(k, n);
    }
  }

  lemma OneTurnLess(k: nat, n: nat)
    requires 0 < n <= k
    ensures k % n == (k - n) % n
  {
    var q, r := (k - n) / n, (k - n) % n;
    assert k - n == q * n + r;
    assert k == (q + 1) * n + r by { assert (q + 1) * n == q * n + n; }
    QuotientUnique(q + 1, r, n);
  }

  lemma QuotientUnique(q: nat, r: nat, n: nat)
    requires r < n
    ensures (q * n + r) % n == r
  {
    var a := q * n + r;
    var d := a / n;
    assert a == d * n + a % n;
    assert (q - d) * n == a % n - r;
    if q > d {
      AtLeast(q - d, n);
    } else if d > q {
      AtLeast(d - q, n);
    }
  }

  lemma AtLeast(k: int, n: int)
    requires k >= 1 && n > 0
    ensures k * n >= n
  {
  }

  /** Two counters less than n apart share an index only when they are equal. */
  lemma {:induction false} SameIndex(a: nat, b: nat, n: nat)
    requires n > 0 && a <= b < a + n
    ensures Wrap(a, n) == Wrap(b, n) <==> a == b
    decreases a
  {
    if a >= n {
      SameIndex(a - n, b - n, n);
    } else if b >= n {
      assert Wrap(b, n) == b - n;
    }
  }

  /** Advancing an index is advancing the counter behind it. */
  lemma {:induction false} NextIndex(a: nat, n: nat)
    requires n > 0
    ensures (Wrap(a, n) + 1) % n == Wrap(a + 1, n)
    decreases a
  {
    if a >= n {
      NextIndex(a - n, n);
    } else if a + 1 == n {
      assert Wrap(n, n) == Wrap(0, n) == 0;
    }
  }

  /** How far apart two counters are, from their indices, when that is less than n. */
  lemma {:induction false} Distance(a: nat, b: nat, n: nat)
    requires n > 0 && a <= b < a + n
    ensures (Wrap(b, n) + n - Wrap(a, n)) % n == b - a
    decreases a
  {
    if a >= n {
      Distance(a - n, b - n, n);
    } else {
      assert Wrap(a, n) == a && Wrap(b, n) == if b < n then b else b - n;
      Remainder(if b < n then 1 else 0, b - a, Wrap(b, n) + n - a, n);
    }
  }

  lemma Remainder(q: nat, r: nat, x: nat, n: nat)
    requires r < n && x == (if q == 0 then r else n + r) && q <= 1
    ensures x % n == r
  {
    QuotientUnique(q, r, n);
  }
}
