/** Integer helpers the host code uses to size the bitonic sort: powers of two,
    `next_power_of_two`, `ilog2`, `leading_zeros`, triangular numbers and the
    round-up division used for workgroup counts. */
module Bits {
  import opened Types

  function Pow2(k: nat): (p: nat)
    ensures p >= 1
  {
    if k == 0 then 1 else 2 * Pow2(k - 1)
  }

  /** x is one of 1, 2, 4, 8, ... */
  predicate IsPowerOfTwo(x: nat)
  {
    x == 1 || (x >= 2 && x % 2 == 0 && IsPowerOfTwo(x / 2))
  }

  lemma {:induction false} Pow2IsPowerOfTwo(k: nat)
    ensures IsPowerOfTwo(Pow2(k))
  {
    if k > 0 {
      Pow2IsPowerOfTwo(k - 1);
    }
  }

  lemma {:induction false} Pow2Monotone(a: nat, b: nat)
    requires a <= b
    ensures Pow2(a) <= Pow2(b)
  {
    if a < b {
      Pow2Monotone(a, b - 1);
    }
  }

  lemma {:induction false} Pow2Add(a: nat, b: nat)
    ensures Pow2(a + b) == Pow2(a) * Pow2(b)
  {
    if a > 0 {
      Pow2Add(a - 1, b);
    }
  }

  lemma Pow2Values()
    ensures Pow2(28) == 0x1000_0000
    ensures Pow2(29) == 0x2000_0000
    ensures Pow2(30) == 0x4000_0000
    ensures Pow2(31) == 0x8000_0000
    ensures Pow2(32) == 0x1_0000_0000
  {
    assert Pow2(4) == 16;
    Pow2Add(4, 4);
    Pow2Add(8, 8);
    Pow2Add(16, 16);
    Pow2Add(16, 8);
    Pow2Add(24, 4);
  }

  /** Powers of two up to 2^31 fit the 32-bit range. */
  lemma Pow2Below(k: nat)
    requires k <= 31
    ensures Pow2(k) <= 0x8000_0000
    ensures k <= 30 ==> Pow2(k) <= 0x4000_0000
  {
    Pow2Monotone(k, 31);
    if k <= 30 {
      Pow2Monotone(k, 30);
    }
    Pow2Values();
  }

  /** Of two powers of two, the first is at most the second as soon as its
      half lies below the second. */
  lemma {:induction false} PowersOfTwoOrdered(a: nat, b: nat)
    requires IsPowerOfTwo(a) && IsPowerOfTwo(b)
    requires a / 2 < b
    ensures a <= b
  {
    if a != 1 && b != 1 {
      PowersOfTwoOrdered(a / 2, b / 2);
    }
  }

  /** The floor of the base-2 logarithm (Rust's `ilog2` on a non-zero value). */
  function Ilog2(x: nat): (r: nat)
    requires x >= 1
    ensures Pow2(r) <= x < Pow2(r + 1)
  {
    if x == 1 then 0 else 1 + Ilog2(x / 2)
  }

  lemma {:induction false} Ilog2OfPow2(k: nat)
    ensures Ilog2(Pow2(k)) == k
  {
    if k > 0 {
      Ilog2OfPow2(k - 1);
    }
  }

  lemma {:induction false} PowerOfTwoIsPow2OfIlog2(x: nat)
    requires IsPowerOfTwo(x)
    ensures x >= 1 && Pow2(Ilog2(x)) == x
  {
    if x != 1 {
      PowerOfTwoIsPow2OfIlog2(x / 2);
    }
  }

  lemma Ilog2AtMost(x: nat, k: nat)
    requires 1 <= x <= Pow2(k)
    ensures Ilog2(x) <= k
  {
    if Ilog2(x) > k {
      Pow2Monotone(k + 1, Ilog2(x));
    }
  }

  /** The logarithm of a 32-bit value is at most 31. */
  lemma Ilog2OfU32(x: u32)
    requires x >= 1
    ensures Ilog2(x) <= 31
  {
    if Ilog2(x) > 31 {
      Pow2Monotone(32, Ilog2(x));
      Pow2Values();
    }
  }

  /** Number of significant bits of x: 0 for 0, otherwise `ilog2(x) + 1`. */
  function BitLength(x: nat): (r: nat)
    ensures x < Pow2(r)
    ensures x >= 1 ==> r >= 1 && Pow2(r - 1) <= x
  {
    if x == 0 then 0 else 1 + BitLength(x / 2)
  }

  lemma {:induction false} BitLengthIsIlog2PlusOne(x: nat)
    requires x >= 1
    ensures BitLength(x) == Ilog2(x) + 1
  {
    if x > 1 {
      BitLengthIsIlog2PlusOne(x / 2);
    }
  }

  /** Rust's `u32::leading_zeros`. */
  function LeadingZeros32(x: u32): (r: nat)
    ensures r <= 32
    ensures x == 0 <==> r == 32
    ensures x < Pow2(32 - r)
    ensures x >= 1 ==> Pow2(31 - r) <= x
  {
    var bits := BitLength(x);
    assert bits <= 32 by {
      if bits > 32 {
        Pow2Monotone(32, bits - 1);
        Pow2Values();
      }
    }
    32 - bits
  }

  /** The smallest power of two that is at least n (1 for n = 0). */
  function NextPowerOfTwo(n: nat): (p: nat)
    ensures IsPowerOfTwo(p) && n <= p
    ensures p == 1 || p / 2 < n
  {
    if n <= 1 then 1
    else
      var q := NextPowerOfTwo((n + 1) / 2);
      assert (2 * q) % 2 == 0 && (2 * q) / 2 == q;
      assert q < n by {
        if q != 1 {
          assert q == 2 * (q / 2);
        }
      }
      2 * q
  }

  lemma NextPowerOfTwoIsLeast(n: nat, q: nat)
    requires IsPowerOfTwo(q) && n <= q
    ensures NextPowerOfTwo(n) <= q
  {
    var p := NextPowerOfTwo(n);
    if p != 1 {
      PowersOfTwoOrdered(p, q);
    }
  }

  lemma NextPowerOfTwoAtMostPow2(n: nat, k: nat)
    requires n <= Pow2(k)
    ensures NextPowerOfTwo(n) <= Pow2(k)
  {
    Pow2IsPowerOfTwo(k);
    NextPowerOfTwoIsLeast(n, Pow2(k));
  }

  /** Rust's `u32::next_power_of_two` as compiled in a release build: a result
      that does not fit 32 bits wraps to 0. */
  function U32NextPowerOfTwo(n: u32): (r: u32)
    ensures n <= 0x8000_0000 ==> r == NextPowerOfTwo(n) && r >= 1
    ensures n > 0x8000_0000 ==> r == 0 && NextPowerOfTwo(n) == U32_MODULUS
  {
    var p := NextPowerOfTwo(n);
    NextPowerOfTwoFits(n);
    if p < U32_MODULUS then p else 0
  }

  lemma NextPowerOfTwoFits(n: nat)
    ensures n <= 0x8000_0000 ==> NextPowerOfTwo(n) <= 0x8000_0000
    ensures n > 0x8000_0000 ==> NextPowerOfTwo(n) >= U32_MODULUS
    ensures n <= U32_MODULUS ==> NextPowerOfTwo(n) <= U32_MODULUS
  {
    var p := NextPowerOfTwo(n);
    Pow2Values();
    Pow2IsPowerOfTwo(31);
    Pow2IsPowerOfTwo(32);
    if n <= 0x8000_0000 {
      NextPowerOfTwoIsLeast(n, 0x8000_0000);
    } else {
      PowersOfTwoOrdered(U32_MODULUS, p);
    }
    if n <= U32_MODULUS {
      NextPowerOfTwoIsLeast(n, U32_MODULUS);
    }
  }

  /** Rust's `x << s` on u32 for s < 32: s doublings, each dropping the bit
      shifted out at the top. */
  function ShiftLeft32(x: u32, s: nat): u32
    requires s < 32
  {
    if s == 0 then x else Wrap32(2 * ShiftLeft32(x, s - 1))
  }

  /** Doubling commutes with truncation to 32 bits. */
  lemma DoubleWrap(y: nat)
    ensures Wrap32(2 * Wrap32(y)) == Wrap32(2 * y)
  {
    var q, r := y / U32_MODULUS, y % U32_MODULUS;
    assert y == q * U32_MODULUS + r;
    MulDouble(q, U32_MODULUS);
    assert 2 * y == 2 * r + (2 * q) * U32_MODULUS;
    ModAddMultiple(2 * r, 2 * q);
  }

  /** Adding a multiple of 2^32 does not change the low 32 bits. */
  lemma {:induction false} ModAddMultiple(a: nat, k: nat)
    ensures (a + k * U32_MODULUS) % U32_MODULUS == a % U32_MODULUS
  {
    if k > 0 {
      ModAddMultiple(a, k - 1);
      assert a + k * U32_MODULUS == (a + (k - 1) * U32_MODULUS) + U32_MODULUS;
    }
  }

  lemma MulDouble(x: nat, p: nat)
    ensures x * (2 * p) == 2 * (x * p)
  {
  }

  /** A left shift by s multiplies by 2^s modulo 2^32. */
  lemma {:induction false} ShiftLeft32IsWrappedProduct(x: u32, s: nat)
    requires s < 32
    ensures ShiftLeft32(x, s) == Wrap32(x * Pow2(s))
  {
    if s > 0 {
      var a := x * Pow2(s - 1);
      ShiftLeft32IsWrappedProduct(x, s - 1);
      DoubleWrap(a);
      MulDouble(x, Pow2(s - 1));
    }
  }

  /** Number of (stage, step) pairs with step <= stage < s: stage t
      contributes t + 1 steps. */
  function Triangle(s: nat): nat
  {
    if s == 0 then 0 else Triangle(s - 1) + s
  }

  lemma TriangleStep(s: nat)
    ensures Triangle(s + 1) == Triangle(s) + s + 1
  {
  }

  /** The closed form s * (s + 1) / 2. */
  lemma {:induction false} TriangleClosedForm(s: nat)
    ensures Triangle(s) == s * (s + 1) / 2
  {
    if s > 0 {
      TriangleClosedForm(s - 1);
      assert s * (s + 1) == (s - 1) * s + 2 * s;
    }
  }

  lemma {:induction false} TriangleMonotone(a: nat, b: nat)
    requires a <= b
    ensures Triangle(a) <= Triangle(b)
  {
    if a < b {
      TriangleMonotone(a, b - 1);
      TriangleStep(b - 1);
    }
  }

  /** `(a + b - 1) / b`: the fewest blocks of b that cover a. */
  function CeilDiv(a: nat, b: nat): (r: nat)
    requires b > 0
    ensures r * b >= a
    ensures r * b < a + b
  {
    (a + b - 1) / b
  }
}
