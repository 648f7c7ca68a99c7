/**
 The generator of GF(2^8) modulo 0x11d has order 255.

 Four powers of g are evaluated, in bit vectors, where doubling is cheap to compute with;
 that no smaller exponent gives 1 then follows from Euclid's algorithm on exponents, since
 every proper divisor of 255 divides 85, 51 or 15.
 */
module GeneratorOrder {
  import opened BinaryDigits
  import opened GaloisField

  // ---------- doubling, evaluated on bit vectors ----------

  function DoubleBV(x: bv8): bv8 {
    if x & 0x80 != 0 then (x << 1) ^ 0x1d else x << 1
  }

  lemma LowDigit(w: nat, v: nat, r: nat)
    requires XorBits(w / 2, v / 2) == r
    ensures XorBits(w, v) == 2 * r + (w + v) % 2
  {
    Step(w, v);
  }

  lemma LowDigitOne(k: nat, v: nat, r: nat)
    requires XorBits(k, v) == r
    ensures XorBits(2 * k, 2 * v + 1) == 2 * r + 1
  {
    assert 2 * k / 2 == k && (2 * v + 1) / 2 == v;
    LowDigit(2 * k, 2 * v + 1, r);
  }

  // The digits of 285 from the top, 8, 17, 35, 71, 142, 285, xored into a number that long.

  function R17(k: nat): int { 2 * (k / 2 - 8) + (k + 1) % 2 }

  function R35(k: nat): int { 2 * R17(k / 2) + (k + 1) % 2 }

  function R71(k: nat): int { 2 * R35(k / 2) + (k + 1) % 2 }

  function R142(k: nat): int { 2 * R71(k / 2) + k % 2 }

  lemma Xor8(k: nat)
    requires 8 <= k < 16
    ensures XorBits(k, 8) == k - 8
  {
    LowDigit(k / 8, 1, 0);
    LowDigit(k / 4, 2, 0);
    LowDigit(k / 2, 4, k / 4 - 2);
    LowDigit(k, 8, k / 2 - 4);
  }

  lemma Xor17(k: nat)
    requires 16 <= k < 32
    ensures XorBits(k, 17) == R17(k)
  {
    Xor8(k / 2);
    LowDigit(k, 17, k / 2 - 8);
  }

  lemma Xor35(k: nat)
    requires 32 <= k < 64
    ensures XorBits(k, 35) == R35(k)
  {
    Xor17(k / 2);
    LowDigit(k, 35, R17(k / 2));
  }

  lemma Xor71(k: nat)
    requires 64 <= k < 128
    ensures XorBits(k, 71) == R71(k)
  {
    Xor35(k / 2);
    LowDigit(k, 71, R35(k / 2));
  }

  lemma Xor142(k: nat)
    requires 128 <= k < 256
    ensures XorBits(k, 142) == R142(k)
  {
    Xor71(k / 2);
    LowDigit(k, 142, R71(k / 2));
  }

  lemma R17Closed(k: nat)
    ensures R17(k) == k - 15 - 2 * (k % 2)
  {}

  lemma R35Closed(k: nat)
    ensures R35(k) == k - 29 - 4 * (k / 2 % 2) - 2 * (k % 2)
  {
    R17Closed(k / 2);
    assert (k + 1) % 2 == 1 - k % 2;
  }

  lemma R71Closed(k: nat)
    ensures R71(k) == k - 57 - 8 * (k / 4 % 2) - 4 * (k / 2 % 2) - 2 * (k % 2)
  {
    R35Closed(k / 2);
    assert k / 2 / 2 == k / 4;
  }

  lemma R142Closed(k: nat)
    ensures R142(k) == k - 114 - 16 * (k / 8 % 2) - 8 * (k / 4 % 2) - 4 * (k / 2 % 2)
  {
    R71Closed(k / 2);
    assert k / 2 / 2 == k / 4 && k / 2 / 4 == k / 8;
  }

  function Bit(x: bv8, mask: bv8): int {
    if x & mask == 0 then 0 else 1
  }

  lemma Bit2(x: bv8) ensures x as int / 2 % 2 == Bit(x, 2) {}

  lemma Bit4(x: bv8) ensures x as int / 4 % 2 == Bit(x, 4) {}

  lemma Bit8(x: bv8) ensures x as int / 8 % 2 == Bit(x, 8) {}

  lemma ReducedBits(x: bv8)
    requires x & 0x80 != 0
    ensures ((x << 1) ^ 0x1d) as int == 2 * (x as int) - 227 - 32 * Bit(x, 8) - 16 * Bit(x, 4) - 8 * Bit(x, 2)
  {}

  lemma UnreducedBits(x: bv8)
    ensures x & 0x80 == 0 <==> x as int < 128
    ensures x & 0x80 == 0 ==> (x << 1) as int == 2 * (x as int)
  {}

  lemma DoubleIs(x: bv8)
    ensures Double(x as int) == DoubleBV(x) as int
  {
    UnreducedBits(x);
    if x & 0x80 != 0 {
      ReducedBits(x);
      Bit2(x);
      Bit4(x);
      Bit8(x);
      R142Closed(x as int);
      Xor142(x as int);
      LowDigitOne(x as int, 142, R142(x as int));
    }
  }

  function Double3BV(x: bv8): bv8 { DoubleBV(DoubleBV(DoubleBV(x))) }

  function Double6BV(x: bv8): bv8 { Double3BV(Double3BV(x)) }

  function Double15BV(x: bv8): bv8 { Double3BV(Double6BV(Double6BV(x))) }

  function Double17BV(x: bv8): bv8 { DoubleBV(DoubleBV(Double15BV(x))) }

  function Double51BV(x: bv8): bv8 { Double17BV(Double17BV(Double17BV(x))) }

  lemma Double3Is(x: bv8)
    ensures DoubleN(3, x as int) == Double3BV(x) as int
  {
    DoubleIs(x);
    DoubleIs(DoubleBV(x));
    DoubleIs(DoubleBV(DoubleBV(x)));
    assert DoubleN(1, x as int) == Double(DoubleN(0, x as int));
  }

  lemma Compose(m: nat, n: nat, x: bv8, y: bv8, z: bv8)
    requires DoubleN(m, x as int) == y as int && DoubleN(n, y as int) == z as int
    ensures DoubleN(m + n, x as int) == z as int
  {
    DoubleNAdd(n, m, x as int);
  }

  lemma Double6Is(x: bv8)
    ensures DoubleN(6, x as int) == Double6BV(x) as int
  {
    Double3Is(x);
    Double3Is(Double3BV(x));
    Compose(3, 3, x, Double3BV(x), Double6BV(x));
  }

  lemma Double15Is(x: bv8)
    ensures DoubleN(15, x as int) == Double15BV(x) as int
  {
    var y := Double6BV(x);
    var z := Double6BV(y);
    Double6Is(x);
    Double6Is(y);
    Compose(6, 6, x, y, z);
    Double3Is(z);
    Compose(12, 3, x, z, Double3BV(z));
  }

  lemma Double17Is(x: bv8)
    ensures DoubleN(17, x as int) == Double17BV(x) as int
  {
    var y := Double15BV(x);
    Double15Is(x);
    DoubleIs(y);
    DoubleIs(DoubleBV(y));
    assert DoubleN(16, x as int) == Double(DoubleN(15, x as int));
  }

  lemma Double51Is(x: bv8)
    ensures DoubleN(51, x as int) == Double51BV(x) as int
    ensures DoubleN(34, x as int) == Double17BV(Double17BV(x)) as int
  {
    var y := Double17BV(x);
    Double17Is(x);
    Double17Is(y);
    Compose(17, 17, x, y, Double17BV(y));
    Double17Is(Double17BV(y));
    Compose(34, 17, x, Double17BV(y), Double51BV(x));
  }

  lemma PowerPlus51(n: nat, x: bv8, y: bv8)
    requires Pow(n) == x as int && y == Double51BV(x)
    ensures Pow(n + 51) == y as int
  {
    Double51Is(x);
    Compose(n, 51, 1, x, y);
  }

  lemma PowerPlus34(n: nat, x: bv8, y: bv8)
    requires Pow(n) == x as int && y == Double17BV(Double17BV(x))
    ensures Pow(n + 34) == y as int
  {
    Double51Is(x);
    Compose(n, 34, 1, x, y);
  }

  lemma Power15() ensures Pow(15) == 38 { Double15Is(1); }

  lemma Power51() ensures Pow(51) == 10 { PowerPlus51(0, 1, 10); }

  lemma Power85() ensures Pow(85) == 214 { Power51(); PowerPlus34(51, 10, 214); }

  lemma Power102() ensures Pow(102) == 68 { Power51(); PowerPlus51(51, 10, 68); }

  lemma Power153() ensures Pow(153) == 146 { Power102(); PowerPlus51(102, 68, 146); }

  lemma Power204() ensures Pow(204) == 221 { Power153(); PowerPlus51(153, 146, 221); }

  lemma Power255() ensures Pow(255) == 1 { Power204(); PowerPlus51(204, 221, 1); }

  // ---------- no smaller exponent ----------

  lemma {:induction false} PowMultiple(e: nat, k: nat)
    requires Pow(e) == 1
    ensures Pow(e * k) == 1
  {
    if k > 0 {
      PowMultiple(e, k - 1);
      DoubleNAdd(e, e * (k - 1), 1);
      assert e * k == e + e * (k - 1);
    }
  }

  /** Euclid's algorithm on exponents: if g^a = g^b = 1 then g^e = 1 for a common divisor e. */
  lemma {:induction false} PowCommonDivisor(a: nat, b: nat) returns (e: nat, i: nat, j: nat)
    requires a > 0 && b > 0 && Pow(a) == 1 && Pow(b) == 1
    ensures e > 0 && Pow(e) == 1 && e * i == a && e * j == b
    decreases a + b, a
  {
    if a == b {
      e, i, j := a, 1, 1;
    } else if a < b {
      DoubleNAdd(a, b - a, 1);
      DoubleNInjective(a, Pow(b - a), 1);
      e, i, j := PowCommonDivisor(a, b - a);
      assert e * (i + j) == e * i + e * j;
      j := i + j;
    } else {
      e, j, i := PowCommonDivisor(b, a);
    }
  }

  /** A common divisor of d and 255 with d < 255 is a proper divisor of 255. */
  lemma ProperCofactor(e: nat, i: nat, j: nat, d: nat)
    requires e * i == d && e * j == 255 && 0 < d < 255
    ensures j > 1
  {
  }

  lemma ProperDivisorOf255(e: nat, k: nat) returns (c: nat)
    requires e * k == 255 && k > 1
    ensures e * c == 15 || e * c == 51 || e * c == 85
  {
    if k % 17 == 0 {
      c := k / 17;
    } else if k % 5 == 0 {
      c := k / 5;
    } else if k % 3 == 0 {
      c := k / 3;
    } else {
      assert false;
    }
  }

  /** No positive power of g below the 255th is 1. */
  lemma OrderOfGenerator(d: nat)
    requires 0 < d < 255
    ensures Pow(d) != 1
  {
    Power15();
    Power51();
    Power85();
    Power255();
    if Pow(d) == 1 {
      var e, i, j := PowCommonDivisor(d, 255);
      ProperCofactor(e, i, j, d);
      var c := ProperDivisorOf255(e, j);
      PowMultiple(e, c);
    }
  }
}
