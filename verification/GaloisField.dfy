/**
 GF(2^8) arithmetic for the double-parity KV recovery: the field GF(2)[x] modulo
 x^8 + x^4 + x^3 + x^2 + 1 (0x11d), with generator g = x = 2.

 `Mul` defines the product by shift and xor; module `FieldTables` proves that what
 the program computes through its exp/log tables is this arithmetic.
 */
module GaloisField {
  import opened ByteStrings
  import opened BinaryDigits

  datatype FieldError = ValueError | ZeroDivisionError

  const POLY: nat := 0x11d

  // ---------- the field, by shift and xor ----------

  /** Multiplication by the generator: shift left, and reduce when the ninth bit is set. */
  function Double(x: Byte): (r: Byte) {
    var w := 2 * x;
    if w < 256 then w else ReducedBelow(w); XorBits(w, POLY)
  }

  lemma ReducedBelow(w: nat)
    requires 256 <= w < 512
    ensures XorBits(w, POLY) < 256
  {
    assert Pow2(4) == 16;
    Lead(8, w, POLY);
  }

  /** n-fold multiplication by the generator. */
  function DoubleN(n: nat, x: Byte): Byte {
    if n == 0 then x else Double(DoubleN(n - 1, x))
  }

  /** g^n. */
  function Pow(n: nat): Byte {
    DoubleN(n, 1)
  }

  /** g^i for any integer exponent: the generator has order 255. */
  function PowZ(i: int): Byte {
    Pow(i % 255)
  }

  /** The low k bits of b select which shifted copies of a are xored together. */
  function ShiftXor(a: Byte, b: Byte, k: nat): Byte
    decreases b, k
  {
    if k == 0 then 0
    else Xor(if b % 2 == 1 then a else 0, ShiftXor(Double(a), b / 2, k - 1))
  }

  /** Polynomial multiplication modulo 0x11d. */
  function Mul(a: Byte, b: Byte): Byte {
    ShiftXor(a, b, 8)
  }

  // ---------- Double is linear and injective ----------

  lemma TwiceXor(x: Byte, y: Byte)
    ensures XorBits(2 * x, 2 * y) == 2 * Xor(x, y)
    ensures 2 * Xor(x, y) >= 256 <==> ((2 * x >= 256) != (2 * y >= 256))
  {
    TwiceBits(x, y);
    assert Pow2(4) == 16;
    Lead(8, 2 * x, 2 * y);
  }

  lemma TwiceBits(x: nat, y: nat)
    ensures XorBits(2 * x, 2 * y) == 2 * XorBits(x, y)
  {
    assert 2 * x / 2 == x && 2 * y / 2 == y;
    Step(2 * x, 2 * y);
  }

  lemma ReduceLeft(w: nat, v: nat)
    ensures XorBits(XorBits(w, POLY), v) == XorBits(XorBits(w, v), POLY)
  {
    Associates(w, POLY, v);
    Commutes(POLY, v);
    Associates(w, v, POLY);
  }

  lemma ReduceBoth(w: nat, v: nat)
    ensures XorBits(XorBits(w, POLY), XorBits(v, POLY)) == XorBits(w, v)
  {
    Associates(XorBits(w, POLY), v, POLY);
    ReduceLeft(w, v);
    Associates(XorBits(w, v), POLY, POLY);
    Self(POLY);
  }

  lemma DoubleXor(x: Byte, y: Byte)
    ensures Double(Xor(x, y)) == Xor(Double(x), Double(y))
  {
    var w, v := 2 * x, 2 * y;
    TwiceXor(x, y);
    if w >= 256 && v >= 256 {
      ReduceBoth(w, v);
    } else if w >= 256 {
      ReduceLeft(w, v);
    } else if v >= 256 {
      Associates(w, v, POLY);
    }
  }

  lemma DoubleInjective(x: Byte, y: Byte)
    requires Double(x) == Double(y)
    ensures x == y
  {
    var z := Xor(x, y);
    DoubleXor(x, y);
    XorZero(Double(x), Double(y));
    Step(2 * z, POLY);
    XorZero(x, y);
  }

  lemma {:induction false} DoubleNXor(n: nat, x: Byte, y: Byte)
    ensures DoubleN(n, Xor(x, y)) == Xor(DoubleN(n, x), DoubleN(n, y))
  {
    if n > 0 {
      DoubleNXor(n - 1, x, y);
      DoubleXor(DoubleN(n - 1, x), DoubleN(n - 1, y));
    }
  }

  lemma {:induction false} DoubleNAdd(m: nat, n: nat, x: Byte)
    ensures DoubleN(m + n, x) == DoubleN(m, DoubleN(n, x))
  {
    if m > 0 {
      DoubleNAdd(m - 1, n, x);
    }
  }

  lemma {:induction false} DoubleNInjective(n: nat, x: Byte, y: Byte)
    requires DoubleN(n, x) == DoubleN(n, y)
    ensures x == y
  {
    if n > 0 {
      DoubleInjective(DoubleN(n - 1, x), DoubleN(n - 1, y));
      DoubleNInjective(n - 1, x, y);
    }
  }
}
