/** Bitwise operators of a 256-bit word, defined bit by bit on its numeric value. */
module Bits {
  import opened Base

  function Pow2(n: nat): (p: nat)
    ensures p >= 1
  {
    if n == 0 then 1 else 2 * Pow2(n - 1)
  }

  const P126: nat := 0x4000_0000_0000_0000_0000_0000_0000_0000
  const P128: nat := 0x1_0000_0000_0000_0000_0000_0000_0000_0000
  const P129: nat := 0x2_0000_0000_0000_0000_0000_0000_0000_0000
  const P130: nat := 0x4_0000_0000_0000_0000_0000_0000_0000_0000
  const P192: nat := 0x1_0000_0000_0000_0000_0000_0000_0000_0000_0000_0000_0000_0000
  const P255: nat := 0x8000_0000_0000_0000_0000_0000_0000_0000_0000_0000_0000_0000_0000_0000_0000_0000

  lemma Pow2Value(m: nat, n: nat, a: nat, b: nat)
    requires Pow2(m) == a && Pow2(n) == b
    ensures Pow2(m + n) == a * b
  {
    Pow2Split(m, n);
  }

  /** The constants above are the powers of two they are named after. */
  lemma PowerValues()
    ensures Pow2(126) == P126 && Pow2(128) == P128 && Pow2(129) == P129 && Pow2(130) == P130
    ensures Pow2(192) == P192 && Pow2(255) == P255 && P255 + P255 == MAX_U256 + 1
  {
    Pow2Value(8, 8, 0x100, 0x100);
    Pow2Value(16, 16, 0x1_0000, 0x1_0000);
    Pow2Value(32, 32, 0x1_0000_0000, 0x1_0000_0000);
    Pow2Value(64, 62, 0x1_0000_0000_0000_0000, 0x4000_0000_0000_0000);
    Pow2Value(126, 2, P126, 4);
    Pow2Value(128, 1, P128, 2);
    Pow2Value(128, 2, P128, 4);
    Pow2Value(128, 64, P128, 0x1_0000_0000_0000_0000);
    Pow2Value(129, 126, P129, P126);
  }

  function BitOr(a: nat, b: nat): nat
    decreases a + b
  {
    if a == 0 && b == 0 then 0
    else 2 * BitOr(a / 2, b / 2) + (if a % 2 == 1 || b % 2 == 1 then 1 else 0)
  }

  function BitAnd(a: nat, b: nat): nat
    decreases a + b
  {
    if a == 0 && b == 0 then 0
    else 2 * BitAnd(a / 2, b / 2) + (if a % 2 == 1 && b % 2 == 1 then 1 else 0)
  }

  /** Left shift that drops the bits pushed past bit 255. */
  function Shl(a: U256, n: nat): U256 {
    (a * Pow2(n)) % (MAX_U256 + 1)
  }

  function Shr(a: U256, n: nat): (r: U256)
    ensures r <= a
  {
    DivShrinks(a, Pow2(n));
    a / Pow2(n)
  }

  lemma MulAtLeast(k: nat, d: nat)
    ensures k >= 1 ==> k * d >= d
  {
  }

  lemma DivShrinks(a: nat, d: nat)
    requires d >= 1
    ensures 0 <= a / d <= a
  {
  }

  lemma {:induction false} Pow2Split(m: nat, n: nat)
    ensures Pow2(m + n) == Pow2(m) * Pow2(n)
  {
    if n != 0 {
      Pow2Split(m, n - 1);
      assert Pow2(m + n) == 2 * Pow2(m + (n - 1));
      assert Pow2(m) * (2 * Pow2(n - 1)) == 2 * (Pow2(m) * Pow2(n - 1));
    }
  }

  lemma {:induction false} OrZero(a: nat)
    ensures BitOr(a, 0) == a
  {
    if a != 0 {
      OrZero(a / 2);
    }
  }

  lemma OrStep(a: nat, b: nat)
    ensures BitOr(2 * a, b) == 2 * BitOr(a, b / 2) + b % 2
  {
    assert 2 * a / 2 == a;
  }

  lemma AndStep(x: nat, m: nat)
    ensures BitAnd(x, 2 * m + 1) == 2 * BitAnd(x / 2, m) + x % 2
  {
    assert (2 * m + 1) / 2 == m;
  }

  lemma MulDouble(a: nat, p: nat)
    ensures a * (2 * p) == 2 * (a * p)
  {
  }

  /** Or-ing a field into bits that are all clear is addition. */
  lemma {:induction false} OrIsAdd(hi: nat, n: nat, lo: nat)
    requires lo < Pow2(n)
    ensures BitOr(hi * Pow2(n), lo) == hi * Pow2(n) + lo
    decreases n
  {
    if n == 0 {
      OrZero(hi);
    } else {
      var half := hi * Pow2(n - 1);
      OrIsAdd(hi, n - 1, lo / 2);
      MulDouble(hi, Pow2(n - 1));
      OrStep(half, lo);
    }
  }

  /** And-ing with `2^n - 1` is the remainder modulo `p = 2^n`. */
  lemma {:induction false} AndMaskIsMod(x: nat, n: nat, p: nat)
    requires p == Pow2(n)
    ensures BitAnd(x, p - 1) == x % p
    decreases n
  {
    if n == 0 {
      AndZero(x);
    } else {
      var q := Pow2(n - 1);
      AndMaskIsMod(x / 2, n - 1, q);
      ModHalf(x, q);
      AndStep(x, q - 1);
    }
  }

  lemma {:induction false} AndZero(x: nat)
    ensures BitAnd(x, 0) == 0
  {
    if x != 0 {
      AndZero(x / 2);
    }
  }

  lemma ModHalf(x: nat, p: nat)
    requires p >= 1
    ensures x % (2 * p) == 2 * ((x / 2) % p) + x % 2
  {
    var q, r := (x / 2) / p, (x / 2) % p;
    assert x / 2 == q * p + r;
    assert x == q * (2 * p) + (2 * r + x % 2) by {
      assert x == 2 * (x / 2) + x % 2;
      assert 2 * (q * p + r) == q * (2 * p) + 2 * r;
    }
    ModUnique(x, 2 * p, q, 2 * r + x % 2);
  }

  lemma MulStep(a: nat, b: nat, d: nat)
    ensures a < b ==> a * d + d <= b * d
  {
    if a < b {
      MulAtLeast(b - a, d);
      assert (b - a) * d == b * d - a * d;
    }
  }

  lemma ModUnique(x: nat, d: nat, q: nat, r: nat)
    requires d >= 1 && r < d && x == q * d + r
    ensures x / d == q && x % d == r
  {
    MulStep(q, x / d, d);
    MulStep(x / d, q, d);
  }
}
