/** Python's integer bit operations on unbounded integers.

    Python ints behave as infinitely sign-extended two's complement numbers:
    `x >> n` floors, `~x` is `-x - 1`, and `&`, `|`, `^` act bit by bit, with a
    negative number carrying infinitely many leading ones.  The definitions
    below peel off the lowest bit with Euclidean division by 2, which for a
    positive divisor is exactly Python's floor division. */
module Bits {

  function Pow2(n: nat): (r: nat)
    ensures r >= 1
  {
    if n == 0 then 1 else 2 * Pow2(n - 1)
  }

  function Abs(x: int): nat { if x < 0 then -x else x }

  /** Python `x << n`. */
  function Shl(x: int, n: nat): int { x * Pow2(n) }

  /** Python `x >> n`. */
  function Shr(x: int, n: nat): int { x / Pow2(n) }

  /** Python `~x`. */
  function Not(x: int): int { -x - 1 }

  /** An integer whose bits are all equal: 0 (all zeros) or -1 (all ones). */
  predicate Uniform(x: int) { x == 0 || x == -1 }

  lemma HalfShrinks(a: int, b: int)
    requires !(Uniform(a) && Uniform(b))
    ensures Abs(a / 2) + Abs(b / 2) < Abs(a) + Abs(b)
  {
  }

  /** Python `a | b`. */
  function Or(a: int, b: int): int
    decreases Abs(a) + Abs(b)
  {
    if Uniform(a) && Uniform(b) then (if a == -1 || b == -1 then -1 else 0)
    else
      HalfShrinks(a, b);
      2 * Or(a / 2, b / 2) + (if a % 2 == 1 || b % 2 == 1 then 1 else 0)
  }

  /** Python `a & b`. */
  function And(a: int, b: int): int
    decreases Abs(a) + Abs(b)
  {
    if Uniform(a) && Uniform(b) then (if a == -1 && b == -1 then -1 else 0)
    else
      HalfShrinks(a, b);
      2 * And(a / 2, b / 2) + (if a % 2 == 1 && b % 2 == 1 then 1 else 0)
  }

  /** Python `a ^ b`. */
  function Xor(a: int, b: int): int
    decreases Abs(a) + Abs(b)
  {
    if Uniform(a) && Uniform(b) then (if a == b then 0 else -1)
    else
      HalfShrinks(a, b);
      2 * Xor(a / 2, b / 2) + (if a % 2 != b % 2 then 1 else 0)
  }

  /** Bit `b` of `x` (Python `(x >> b) & 1 == 1`, proved in `TestBit`). */
  predicate BitSet(x: int, b: nat) { (x / Pow2(b)) % 2 == 1 }

  /** The powers of two the drivers use. */
  lemma Pow2Table()
    ensures Pow2(1) == 2 && Pow2(2) == 4 && Pow2(4) == 16 && Pow2(6) == 64 && Pow2(8) == 256
    ensures Pow2(16) == 0x10000 && Pow2(17) == 0x20000
  {
    assert Pow2(4) == 16;
    assert Pow2(8) == 256;
    assert Pow2(12) == 4096;
    assert Pow2(16) == 0x10000;
  }

  lemma Pow2Add(a: nat, b: nat)
    ensures Pow2(a + b) == Pow2(a) * Pow2(b)
  {
    if a > 0 { Pow2Add(a - 1, b); }
  }

  /** Dividing by 2 and then by 2^k is dividing by 2^(k+1); so is the remainder. */
  lemma DivMod2(x: int, k: nat)
    ensures x / Pow2(k + 1) == (x / 2) / Pow2(k)
    ensures x % Pow2(k + 1) == 2 * ((x / 2) % Pow2(k)) + x % 2
  {
    var p := Pow2(k);
    var q := (x / 2) / p;
    var r := (x / 2) % p;
    assert x / 2 == q * p + r;
    assert x == 2 * (x / 2) + x % 2;
    assert x == q * (2 * p) + (2 * r + x % 2) by {
      calc {
        x;
        2 * (q * p + r) + x % 2;
        { assert 2 * (q * p) == q * (2 * p); }
        q * (2 * p) + (2 * r + x % 2);
      }
    }
    assert 0 <= 2 * r + x % 2 < 2 * p;
    assert Pow2(k + 1) == 2 * p;
    DivModUnique(x, 2 * p, q, 2 * r + x % 2);
  }

  lemma DivModUnique(x: int, d: int, q: int, r: int)
    requires d > 0 && 0 <= r < d && x == q * d + r
    ensures x / d == q && x % d == r
  {
    var q', r' := x / d, x % d;
    assert x == q' * d + r';
    assert (q - q') * d == r' - r;
    if q > q' {
      MulAtLeast(q - q', d);
    } else if q < q' {
      MulAtLeast(q' - q, d);
    }
  }

  lemma MulAtLeast(e: int, d: int)
    requires e >= 1 && d > 0
    ensures e * d >= d
  {
    assert e * d == (e - 1) * d + d;
  }

  /** Halving 2^k - 1 (k > 0) gives 2^(k-1) - 1 and leaves remainder 1. */
  lemma HalfLowMask(k: nat)
    requires k > 0
    ensures (Pow2(k) - 1) / 2 == Pow2(k - 1) - 1 && (Pow2(k) - 1) % 2 == 1
  {
    DivModUnique(Pow2(k) - 1, 2, Pow2(k - 1) - 1, 1);
  }

  /** Halving 2^k (k > 0) gives 2^(k-1) and leaves remainder 0. */
  lemma HalfPow2(k: nat)
    requires k > 0
    ensures Pow2(k) / 2 == Pow2(k - 1) && Pow2(k) % 2 == 0
  {
    DivModUnique(Pow2(k), 2, Pow2(k - 1), 0);
  }

  lemma {:induction false} AndZero(x: int)
    ensures And(x, 0) == 0
    decreases Abs(x)
  {
    if !Uniform(x) {
      HalfShrinks(x, 0);
      AndZero(x / 2);
    }
  }

  lemma {:induction false} OrZero(x: int)
    ensures Or(x, 0) == x
    decreases Abs(x)
  {
    if !Uniform(x) {
      HalfShrinks(x, 0);
      OrZero(x / 2);
    }
  }

  /** The low k bits of x, peeled off one at a time. */
  function Low(x: int, k: nat): int
    decreases k
  {
    if k == 0 then 0 else 2 * Low(x / 2, k - 1) + x % 2
  }

  /** x without its low k bits, one bit at a time. */
  function Hi(x: int, k: nat): int
    decreases k
  {
    if k == 0 then x else Hi(x / 2, k - 1)
  }

  lemma {:induction false} HiIsDiv(x: int, k: nat)
    ensures Hi(x, k) == x / Pow2(k)
    decreases k
  {
    if k > 0 {
      HiIsDiv(x / 2, k - 1);
      DivMod2(x, k - 1);
    }
  }

  /** Halving the low k bits gives the low k - 1 bits of the half. */
  lemma LowHalf(x: int, k: nat)
    requires k > 0
    ensures Low(x, k) / 2 == Low(x / 2, k - 1) && Low(x, k) % 2 == x % 2
  {
    DivModUnique(Low(x, k), 2, Low(x / 2, k - 1), x % 2);
  }

  /** The bookkeeping of one split step. */
  lemma SplitArith(v: int, v2: int, s: int, s2: int, l: int, l2: int, t: int)
    requires v == 2 * v2 + t && v2 == s2 + l2 && s == 2 * s2 && l == 2 * l2 + t
    ensures v == s + l
  {
  }

  lemma {:induction false} LowIsMod(x: int, k: nat)
    ensures Low(x, k) == x % Pow2(k)
    decreases k
  {
    if k > 0 {
      LowIsMod(x / 2, k - 1);
      DivMod2(x, k - 1);
    }
  }

  lemma {:induction false} AndLow(x: int, k: nat)
    ensures And(x, Pow2(k) - 1) == Low(x, k)
    decreases k
  {
    if k == 0 {
      AndZero(x);
    } else {
      AndOddMask(x, k);
      AndLow(x / 2, k - 1);
    }
  }

  /** `x & (2^k - 1)` keeps the low k bits: it is `x % 2^k`, for every Python int. */
  lemma AndLowMask(x: int, k: nat)
    ensures And(x, Pow2(k) - 1) == x % Pow2(k)
  {
    AndLow(x, k);
    LowIsMod(x, k);
  }

  /** The lowest bit of `x & (2^k - 1)` is that of x. */
  lemma AndOddMask(x: int, k: nat)
    requires k > 0
    ensures And(x, Pow2(k) - 1) == 2 * And(x / 2, Pow2(k - 1) - 1) + x % 2
  {
    HalfLowMask(k);
    assert !Uniform(Pow2(k) - 1);
  }

  /** `a | b` and `a & b` add up to `a + b`. */
  lemma {:induction false} OrAndSum(a: int, b: int)
    ensures Or(a, b) + And(a, b) == a + b
    decreases Abs(a) + Abs(b)
  {
    if !(Uniform(a) && Uniform(b)) {
      HalfShrinks(a, b);
      OrAndSum(a / 2, b / 2);
    }
  }

  /** `x | (2^k - 1)` sets the low k bits. */
  lemma OrLowMask(x: int, k: nat)
    ensures Or(x, Pow2(k) - 1) == x - x % Pow2(k) + Pow2(k) - 1
  {
    OrAndSum(x, Pow2(k) - 1);
    AndLowMask(x, k);
  }

  lemma {:induction false} ZeroOr(x: int)
    ensures Or(0, x) == x
    decreases Abs(x)
  {
    if !Uniform(x) {
      HalfShrinks(0, x);
      ZeroOr(x / 2);
    }
  }

  /** The defining step of `|` on the lowest bit, for every pair of ints. */
  lemma OrCons(a: int, b: int)
    ensures Or(a, b) == 2 * Or(a / 2, b / 2) + (if a % 2 == 1 || b % 2 == 1 then 1 else 0)
  {
    if Uniform(a) && Uniform(b) {
      assert a / 2 == a && b / 2 == b;
    }
  }

  /** `|` splits at bit k into the bits above k and the k bits below. */
  lemma OrSplit(a: int, b: int, k: nat)
    ensures Or(a, b) == Shl(Or(a / Pow2(k), b / Pow2(k)), k) + Or(a % Pow2(k), b % Pow2(k))
  {
    OrSplitLow(a, b, k);
    HiIsDiv(a, k);
    HiIsDiv(b, k);
    LowIsMod(a, k);
    LowIsMod(b, k);
  }

  lemma {:induction false} OrSplitLow(a: int, b: int, k: nat)
    ensures Or(a, b) == Shl(Or(Hi(a, k), Hi(b, k)), k) + Or(Low(a, k), Low(b, k))
    decreases k
  {
    if k == 0 {
      assert Or(0, 0) == 0;
    } else {
      var h := Or(Hi(a, k), Hi(b, k));
      OrSplitLow(a / 2, b / 2, k - 1);
      OrCons(a, b);
      LowHalf(a, k);
      LowHalf(b, k);
      OrCons(Low(a, k), Low(b, k));
      ShlStep(h, k);
      SplitArith(Or(a, b), Or(a / 2, b / 2), Shl(h, k), Shl(h, k - 1),
                 Or(Low(a, k), Low(b, k)), Or(Low(a / 2, k - 1), Low(b / 2, k - 1)),
                 if a % 2 == 1 || b % 2 == 1 then 1 else 0);
    }
  }

  /** The defining step of `&` on the lowest bit, for every pair of ints. */
  lemma AndCons(a: int, b: int)
    ensures And(a, b) == 2 * And(a / 2, b / 2) + (if a % 2 == 1 && b % 2 == 1 then 1 else 0)
  {
    if Uniform(a) && Uniform(b) {
      assert a / 2 == a && b / 2 == b;
    }
  }

  /** `&` splits at bit k into the bits above k and the k bits below. */
  lemma AndSplit(a: int, b: int, k: nat)
    ensures And(a, b) == Shl(And(a / Pow2(k), b / Pow2(k)), k) + And(a % Pow2(k), b % Pow2(k))
  {
    AndSplitLow(a, b, k);
    HiIsDiv(a, k);
    HiIsDiv(b, k);
    LowIsMod(a, k);
    LowIsMod(b, k);
  }

  lemma {:induction false} AndSplitLow(a: int, b: int, k: nat)
    ensures And(a, b) == Shl(And(Hi(a, k), Hi(b, k)), k) + And(Low(a, k), Low(b, k))
    decreases k
  {
    if k == 0 {
      assert And(0, 0) == 0;
    } else {
      var h := And(Hi(a, k), Hi(b, k));
      AndSplitLow(a / 2, b / 2, k - 1);
      AndCons(a, b);
      LowHalf(a, k);
      LowHalf(b, k);
      AndCons(Low(a, k), Low(b, k));
      ShlStep(h, k);
      SplitArith(And(a, b), And(a / 2, b / 2), Shl(h, k), Shl(h, k - 1),
                 And(Low(a, k), Low(b, k)), And(Low(a / 2, k - 1), Low(b / 2, k - 1)),
                 if a % 2 == 1 && b % 2 == 1 then 1 else 0);
    }
  }

  /** `&` is commutative. */
  lemma {:induction false} AndComm(a: int, b: int)
    ensures And(a, b) == And(b, a)
    decreases Abs(a) + Abs(b)
  {
    if !(Uniform(a) && Uniform(b)) {
      HalfShrinks(a, b);
      AndComm(a / 2, b / 2);
    }
  }

  lemma ShlStep(x: int, k: nat)
    requires k > 0
    ensures Shl(x, k) == 2 * Shl(x, k - 1)
  {
    assert x * (2 * Pow2(k - 1)) == 2 * (x * Pow2(k - 1));
  }

  /** OR-ing a value below 2^k into a multiple of 2^k is addition. */
  lemma {:induction false} OrDisjoint(hi: int, k: nat, lo: int)
    requires 0 <= lo < Pow2(k)
    ensures Or(Shl(hi, k), lo) == hi * Pow2(k) + lo
    decreases k
  {
    if k == 0 {
      OrZero(hi);
    } else {
      var a := hi * Pow2(k);
      var h := hi * Pow2(k - 1);
      assert a == 2 * h;
      DivModUnique(a, 2, h, 0);
      DivModUnique(lo, 2, lo / 2, lo % 2);
      if Uniform(a) && Uniform(lo) {
        assert hi == 0 && lo == 0;
      } else {
        assert lo / 2 < Pow2(k - 1);
        OrDisjoint(hi, k - 1, lo / 2);
        assert Or(a, lo) == 2 * Or(h, lo / 2) + lo % 2;
      }
    }
  }

  /** `x | (1 << b)` sets bit b and leaves every other bit alone. */
  lemma {:induction false} OrBit(x: int, b: nat)
    ensures Or(x, Shl(1, b)) == if BitSet(x, b) then x else x + Pow2(b)
    decreases b
  {
    if b == 0 {
      assert Shl(1, 0) == 1;
      OrZero(x / 2);
      assert Or(x, 1) == 2 * Or(x / 2, 0) + 1;
    } else {
      var m := Pow2(b);
      HalfPow2(b);
      assert Shl(1, b) == m && Shl(1, b - 1) == m / 2;
      DivMod2(x, b - 1);
      assert !Uniform(m);
      assert Or(x, m) == 2 * Or(x / 2, m / 2) + x % 2;
      OrBit(x / 2, b - 1);
      assert BitSet(x / 2, b - 1) == BitSet(x, b);
    }
  }

  /** `a ^ b` and twice `a & b` add up to `a + b`. */
  lemma {:induction false} XorAndSum(a: int, b: int)
    ensures Xor(a, b) + 2 * And(a, b) == a + b
    decreases Abs(a) + Abs(b)
  {
    if !(Uniform(a) && Uniform(b)) {
      HalfShrinks(a, b);
      XorAndSum(a / 2, b / 2);
    }
  }

  /** `x ^ (1 << b)` on a set bit b clears it. */
  lemma XorSetBit(x: int, b: nat)
    requires BitSet(x, b)
    ensures Xor(x, Shl(1, b)) == x - Pow2(b)
  {
    OrBit(x, b);
    OrAndSum(x, Shl(1, b));
    XorAndSum(x, Shl(1, b));
  }

  lemma {:induction false} XorZero(x: int)
    ensures Xor(x, 0) == x
    decreases Abs(x)
  {
    if !Uniform(x) {
      HalfShrinks(x, 0);
      XorZero(x / 2);
    }
  }

  /** Python `bool((x >> b) & 1)` tests bit b. */
  lemma TestBit(x: int, b: nat)
    ensures (And(Shr(x, b), 1) == 1) == BitSet(x, b)
    ensures And(Shr(x, b), 1) == 0 || And(Shr(x, b), 1) == 1
  {
    AndLowMask(Shr(x, b), 1);
  }

  /** Bit c of x is bit c - 1 of x / 2. */
  lemma BitSetHalf(x: int, c: nat)
    requires c > 0
    ensures BitSet(x, c) == BitSet(x / 2, c - 1)
  {
    DivMod2(x, c - 1);
  }

  /** Adding 2^b to a number whose bit b is clear sets that bit and no other. */
  lemma {:induction false} AddBit(x: int, b: nat, c: nat)
    requires !BitSet(x, b)
    ensures BitSet(x + Pow2(b), c) == (c == b || BitSet(x, c))
    decreases b
  {
    if c > 0 {
      BitSetHalf(x + Pow2(b), c);
      BitSetHalf(x, c);
    }
    if b == 0 {
      assert x % 2 == 0;
      assert (x + 1) / 2 == x / 2;
    } else {
      HalfPow2(b);
      assert (x + Pow2(b)) / 2 == x / 2 + Pow2(b - 1) by {
        DivModUnique(x + Pow2(b), 2, x / 2 + Pow2(b - 1), x % 2);
      }
      BitSetHalf(x, b);
      if c > 0 {
        AddBit(x / 2, b - 1, c - 1);
      } else {
        DivModUnique(x + Pow2(b), 2, x / 2 + Pow2(b - 1), x % 2);
      }
    }
  }

  /** Subtracting 2^b from a number whose bit b is set clears that bit and
      no other. */
  lemma RemoveBit(x: int, b: nat, c: nat)
    requires BitSet(x, b)
    ensures BitSet(x - Pow2(b), c) == (c != b && BitSet(x, c))
  {
    var y := x - Pow2(b);
    DivModUnique(y, Pow2(b), x / Pow2(b) - 1, x % Pow2(b));
    assert !BitSet(y, b);
    AddBit(y, b, c);
  }
}
