/** Bitwise operations of size_t on natural numbers, and rounding up to a power of two. */
module Bits {

  const WORD: nat := 0x1_0000_0000_0000_0000

  function Pow2(k: nat): (p: nat)
    ensures p >= 1
  {
    if k == 0 then 1 else 2 * Pow2(k - 1)
  }

  ghost predicate IsPow2(n: nat) {
    exists k: nat :: n == Pow2(k)
  }

  function Or(a: nat, b: nat): nat
    decreases a + b
  {
    if a == 0 && b == 0 then 0
    else 2 * Or(a / 2, b / 2) + (if a % 2 == 1 || b % 2 == 1 then 1 else 0)
  }

  function And(a: nat, b: nat): nat
    decreases a + b
  {
    if a == 0 || b == 0 then 0
    else 2 * And(a / 2, b / 2) + (if a % 2 == 1 && b % 2 == 1 then 1 else 0)
  }

  lemma {:induction false} Pow2Sum(j: nat, k: nat)
    ensures Pow2(j + k) == Pow2(j) * Pow2(k)
  {
    if j > 0 {
      Pow2Sum(j - 1, k);
      assert Pow2(j + k) == 2 * (Pow2(j - 1) * Pow2(k));
    }
  }

  lemma {:induction false} Pow2Grows(j: nat, k: nat)
    requires j <= k
    ensures Pow2(j) <= Pow2(k)
  {
    if j < k {
      Pow2Grows(j, k - 1);
    }
  }

  lemma Pow2At63()
    ensures Pow2(63) == WORD / 2 && Pow2(64) == WORD
  {
    assert Pow2(8) == 256;
    Pow2Sum(8, 8);
    Pow2Sum(16, 16);
    Pow2Sum(32, 32);
    Pow2Sum(1, 63);
    assert Pow2(1) == 2;
    hide Pow2;
  }

  // ---------------------------------------------------------------------------------------------
  // Masking is taking the remainder

  /** `i & (2^k - 1)` is `i % 2^k`. */
  lemma {:induction false} MaskIsModulo(i: nat, k: nat)
    ensures And(i, Pow2(k) - 1) == i % Pow2(k)
  {
    if k > 0 {
      MaskIsModulo(i / 2, k - 1);
      HalfRemainder(i, Pow2(k - 1));
      if i > 0 {
        assert (Pow2(k) - 1) / 2 == Pow2(k - 1) - 1 && (Pow2(k) - 1) % 2 == 1;
      }
    }
  }

  lemma HalfRemainder(i: nat, p: nat)
    requires p > 0
    ensures i % (2 * p) == 2 * ((i / 2) % p) + i % 2
  {
    var q, r := (i / 2) / p, (i / 2) % p;
    assert i / 2 == q * p + r;
    assert i == q * (2 * p) + (2 * r + i % 2);
    RemainderIs(i, q, 2 * r + i % 2, 2 * p);
  }

  lemma RemainderIs(a: nat, q: nat, r: nat, n: nat)
    requires a == q * n + r && r < n
    ensures a % n == r && a / n == q
  {
    var d := a / n;
    assert a == d * n + a % n;
    assert (q - d) * n == a % n - r;
    if q > d {
      Scaled(q - d, n);
    } else if d > q {
      Scaled(d - q, n);
    }
  }

  lemma Scaled(k: int, n: int)
    requires k >= 1 && n > 0
    ensures k * n >= n
  {
  }

  // ---------------------------------------------------------------------------------------------
  // Rounding up

  lemma {:induction false} OrBounds(a: nat, b: nat, n: nat)
    requires a < Pow2(n) && b < Pow2(n)
    ensures a <= Or(a, b) && b <= Or(a, b) && Or(a, b) < Pow2(n)
  {
    if n > 0 {
      OrBounds(a / 2, b / 2, n - 1);
    }
  }

  lemma {:induction false} OrHigh(q: nat, r: nat, b: nat, j: nat)
    requires r < Pow2(j) && b < Pow2(j)
    ensures Or(q * Pow2(j) + r, b) == q * Pow2(j) + Or(r, b)
  {
    if j == 0 {
      OrZero(q);
    } else {
      var a := q * Pow2(j) + r;
      assert a == 2 * (q * Pow2(j - 1)) + r;
      assert a / 2 == q * Pow2(j - 1) + r / 2 && a % 2 == r % 2;
      OrHigh(q, r / 2, b / 2, j - 1);
      if a == 0 && b == 0 {
        assert q * Pow2(j) == 0;
      } else if r == 0 && b == 0 {
        assert Or(r / 2, b / 2) == 0;
      }
    }
  }

  lemma {:induction false} OrZero(a: nat)
    ensures Or(a, 0) == a
  {
    if a > 0 {
      OrZero(a / 2);
    }
  }

  /** y has n bits, and its s highest bits are all set. */
  predicate TopBits(y: nat, n: nat, s: nat) {
    Pow2(n) - Pow2(if s < n then n - s else 0) <= y < Pow2(n)
  }

  /** y >> s */
  function Shr(y: nat, s: nat): nat {
    QuotientNat(y, Pow2(s));
    y / Pow2(s)
  }

  lemma QuotientNat(y: nat, d: nat)
    requires d > 0
    ensures y / d >= 0
  {
  }

  /** A number in 64 bits. */
  function Wrapped(n: nat): nat {
    n % WORD
  }

  lemma WrappedNext(n: nat)
    ensures Wrapped(Wrapped(n) + 1) == Wrapped(n + 1)
  {
  }

  lemma SmearStep(y: nat, n: nat, s: nat)
    requires TopBits(y, n, s) && s >= 1
    ensures TopBits(Or(y, Shr(y, s)), n, 2 * s)
  {
    hide Pow2, Or;
    var b := y / Pow2(s);
    if s >= n {
      assert Pow2(0) == 1 by { Pow2Zero(); }
      QuotientBelow(y, Pow2(s), Pow2(n)) by { Scale(Pow2(n), Pow2(s)); }
      OrBounds(y, b, n);
    } else {
      var j := n - s;
      Pow2Sum(s, j);
      var high, r := Pow2(n) - Pow2(j), y - (Pow2(n) - Pow2(j));
      QuotientBelow(y, Pow2(s), Pow2(j));
      SmearedHigh(y, high, r, b, j, s);
      SmearedLow(y, n, s);
      OrBounds(r, b, j);
      Pow2Grows(j, n);
      OrBounds(y, b, n);
    }
  }

  lemma Pow2Zero()
    ensures Pow2(0) == 1
  {
  }

  lemma Scale(m: nat, d: nat)
    requires d >= 1
    ensures m <= d * m
  {
  }

  lemma SmearedHigh(y: nat, high: nat, r: nat, b: nat, j: nat, s: nat)
    requires y == high + r && high == Pow2(s + j) - Pow2(j) && r < Pow2(j) && b < Pow2(j)
    ensures Or(y, b) == high + Or(r, b)
  {
    hide Pow2, Or;
    Pow2Sum(s, j);
    assert high == (Pow2(s) - 1) * Pow2(j);
    OrHigh(Pow2(s) - 1, r, b, j);
  }

  lemma SmearedLow(y: nat, n: nat, s: nat)
    requires TopBits(y, n, s) && 1 <= s < n
    ensures y / Pow2(s) >= Pow2(n - s) - Pow2(if 2 * s < n then n - 2 * s else 0)
  {
    hide Pow2;
    Pow2Zero();
    Pow2Sum(s, n - s);
    if 2 * s < n {
      Pow2Sum(s, n - 2 * s);
      Spread(Pow2(s), Pow2(n - s), Pow2(n - 2 * s));
      QuotientAbove(y, Pow2(s), Pow2(n - s) - Pow2(n - 2 * s));
    } else {
      Pow2Grows(n - s, s);
      Spread(Pow2(s), Pow2(n - s), 1);
      QuotientAbove(y, Pow2(s), Pow2(n - s) - 1);
    }
  }

  lemma Spread(d: int, m: int, k: int)
    ensures d * (m - k) == d * m - d * k
  {
  }

  lemma QuotientBelow(y: nat, d: nat, m: nat)
    requires d > 0 && y < d * m
    ensures y / d < m
  {
    if y / d >= m {
      Monotone(m, y / d, d);
    }
  }

  lemma QuotientAbove(y: nat, d: nat, m: int)
    requires d > 0 && d * m <= y
    ensures m <= y / d
  {
    if y / d < m {
      Monotone(y / d + 1, m, d);
    }
  }

  lemma Monotone(a: int, b: int, d: nat)
    requires a <= b
    ensures a * d <= b * d
  {
  }

  /** The number of bits of y. */
  function BitLength(y: nat): (n: nat)
    ensures y < Pow2(n)
    ensures n > 0 ==> Pow2(n - 1) <= y
  {
    if y == 0 then 0 else 1 + BitLength(y / 2)
  }

  /** The least power of two that is at least x. */
  ghost predicate IsLeastPow2(r: nat, x: nat) {
    && IsPow2(r) && x <= r
    && (forall k: nat :: x <= Pow2(k) ==> r <= Pow2(k))
  }

  /**
    ceilToPow2 on a 64-bit word: smears the highest bit of x - 1 to the right and adds one. Zero and
    words above 2^63 wrap round to zero.
   */
  method CeilToPow2(x: nat) returns (r: nat)
    requires x < WORD
    ensures 1 <= x <= WORD / 2 ==> IsLeastPow2(r, x) && r <= WORD / 2
    ensures x == 0 || x > WORD / 2 ==> r == 0
  {
    hide Pow2, Or, BitLength, IsLeastPow2, TopBits, Shr, Wrapped;
    var y: nat := Wrapped(x + WORD - 1);
    ghost var n := BitLength(y);
    TopBit(y);
    SmearStep(y, n, 1);
    y := Or(y, Shr(y, 1));
    SmearStep(y, n, 2);
    y := Or(y, Shr(y, 2));
    SmearStep(y, n, 4);
    y := Or(y, Shr(y, 4));
    var i: nat := 1;
    while i < 8
      invariant i in {1, 2, 4, 8}
      invariant TopBits(y, n, 8 * i)
      decreases 8 - i
    {
      SmearStep(y, n, 8 * i);
      y := Or(y, Shr(y, 8 * i));
      i := i * 2;
    }
    r := Wrapped(y + 1);
    Rounded(x, y, n);
  }

  lemma TopBit(y: nat)
    ensures TopBits(y, BitLength(y), 1)
  {
  }

  lemma Rounded(x: nat, y: nat, n: nat)
    requires x < WORD && n == BitLength(Wrapped(x + WORD - 1)) && TopBits(y, n, 64)
    ensures 1 <= x <= WORD / 2 ==> IsLeastPow2(Wrapped(y + 1), x) && Wrapped(y + 1) <= WORD / 2
    ensures x == 0 || x > WORD / 2 ==> Wrapped(y + 1) == 0
  {
    hide BitLength, IsLeastPow2, Pow2;
    var y0 := Wrapped(x + WORD - 1);
    BitLengthOfWord(y0);
    Pow2At63();
    Pow2Zero();
    assert y + 1 == Pow2(n);
    if 1 <= x <= WORD / 2 {
      assert y0 == x - 1;
      LeastFromBits(x, n);
      Pow2Grows(n, 63);
    } else {
      if n <= 63 {
        Pow2Grows(n, 63);
      }
      assert n == 64;
    }
  }

  lemma BitLengthOfWord(y: nat)
    requires y < WORD
    ensures BitLength(y) <= 64
    ensures y < WORD / 2 ==> BitLength(y) <= 63
  {
    Pow2At63();
    var n := BitLength(y);
    if n > 64 {
      Pow2Grows(64, n - 1);
    }
    if n == 64 {
      assert Pow2(63) <= y;
    }
  }

  lemma LeastFromBits(x: nat, n: nat)
    requires x >= 1 && x - 1 < Pow2(n) && (n > 0 ==> Pow2(n - 1) <= x - 1)
    ensures IsLeastPow2(Pow2(n), x)
  {
    forall k: nat | x <= Pow2(k) ensures Pow2(n) <= Pow2(k) {
      if k < n {
        Pow2Grows(k, n - 1);
      } else {
        Pow2Grows(n, k);
      }
    }
  }
}
