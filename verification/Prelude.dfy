/** Failure-carrying results shared by all modules. */
module Wrappers {
  datatype Option<+T> = None | Some(value: T)

  datatype Result<+T, +E> = Success(value: T) | Failure(error: E)
}

/**
 Exclusive or on the binary digits of natural numbers, which covers both unsigned bytes
 and the nine-bit intermediate values of the field arithmetic.
 */
module BinaryDigits {
  function XorBits(a: nat, b: nat): nat
    decreases a + b
  {
    if a == 0 then b
    else if b == 0 then a
    else 2 * XorBits(a / 2, b / 2) + (a + b) % 2
  }

  /** One digit at a time, with no special case for zero. */
  lemma {:induction false} Step(a: nat, b: nat)
    ensures XorBits(a, b) == 2 * XorBits(a / 2, b / 2) + (a + b) % 2
    ensures XorBits(a, b) / 2 == XorBits(a / 2, b / 2)
    ensures XorBits(a, b) % 2 == (a + b) % 2
  {}

  lemma {:induction false} Self(a: nat)
    ensures XorBits(a, a) == 0
  {
    if a != 0 {
      Self(a / 2);
    }
  }

  lemma {:induction false} Commutes(a: nat, b: nat)
    ensures XorBits(a, b) == XorBits(b, a)
    decreases a + b
  {
    if a != 0 && b != 0 {
      Commutes(a / 2, b / 2);
    }
  }

  lemma SameDigits(x: nat, y: nat, a: nat, b: nat, c: nat, ab: nat, bc: nat)
    requires x / 2 == y / 2
    requires ab % 2 == (a + b) % 2 && bc % 2 == (b + c) % 2
    requires x % 2 == (ab + c) % 2 && y % 2 == (a + bc) % 2
    ensures x == y
  {}

  lemma {:induction false} Associates(a: nat, b: nat, c: nat)
    ensures XorBits(XorBits(a, b), c) == XorBits(a, XorBits(b, c))
    decreases a + b + c
  {
    if a != 0 && b != 0 && c != 0 {
      Associates(a / 2, b / 2, c / 2);
      AssociatesStep(a, b, c);
    }
  }

  lemma {:induction false} AssociatesStep(a: nat, b: nat, c: nat)
    requires XorBits(XorBits(a / 2, b / 2), c / 2) == XorBits(a / 2, XorBits(b / 2, c / 2))
    ensures XorBits(XorBits(a, b), c) == XorBits(a, XorBits(b, c))
  {
    var ab, bc := XorBits(a, b), XorBits(b, c);
    Step(a, b);
    Step(b, c);
    Step(ab, c);
    Step(a, bc);
    SameDigits(XorBits(ab, c), XorBits(a, bc), a, b, c, ab, bc);
  }

  function Pow2(k: nat): nat {
    if k == 0 then 1 else 2 * Pow2(k - 1)
  }

  lemma {:induction false} Bound(k: nat, a: nat, b: nat)
    requires a < Pow2(k) && b < Pow2(k)
    ensures XorBits(a, b) < Pow2(k)
  {
    if k > 0 {
      Bound(k - 1, a / 2, b / 2);
      Step(a, b);
    }
  }

  /** The leading digit of a xor is the xor of the leading digits. */
  lemma {:induction false} Lead(k: nat, a: nat, b: nat)
    requires a < 2 * Pow2(k) && b < 2 * Pow2(k)
    ensures XorBits(a, b) >= Pow2(k) <==> ((a >= Pow2(k)) != (b >= Pow2(k)))
  {
    Step(a, b);
    if k > 0 {
      Lead(k - 1, a / 2, b / 2);
    }
  }
}

/** Bytes and byte strings: the payloads the program ships, and their exclusive or. */
module ByteStrings {
  import BinaryDigits

  type Byte = x: int | 0 <= x < 256

  type Bytes = seq<Byte>

  function Xor(a: Byte, b: Byte): Byte {
    assert BinaryDigits.Pow2(4) == 16;
    BinaryDigits.Bound(8, a, b);
    BinaryDigits.XorBits(a, b)
  }

  lemma XorUnit(a: Byte)
    ensures Xor(a, 0) == a && Xor(0, a) == a && Xor(a, a) == 0
  {
    BinaryDigits.Self(a);
  }

  lemma XorCommutes(a: Byte, b: Byte)
    ensures Xor(a, b) == Xor(b, a)
  {
    BinaryDigits.Commutes(a, b);
  }

  lemma XorAssociates(a: Byte, b: Byte, c: Byte)
    ensures Xor(Xor(a, b), c) == Xor(a, Xor(b, c))
  {
    BinaryDigits.Associates(a, b, c);
  }

  /** Xor cancels: folding b in twice leaves a, from either side. */
  lemma XorCancels(a: Byte, b: Byte)
    ensures Xor(Xor(a, b), b) == a && Xor(b, Xor(b, a)) == a && Xor(Xor(b, a), b) == a
  {
    XorAssociates(a, b, b);
    XorUnit(b);
    XorUnit(a);
    XorAssociates(b, b, a);
    XorCommutes(b, a);
  }

  /** Middle-four exchange: how two folds are combined element by element. */
  lemma XorExchange(a: Byte, b: Byte, c: Byte, d: Byte)
    ensures Xor(Xor(a, b), Xor(c, d)) == Xor(Xor(a, c), Xor(b, d))
  {
    XorAssociates(Xor(a, b), c, d);
    XorAssociates(a, b, c);
    XorCommutes(b, c);
    XorAssociates(a, c, b);
    XorAssociates(Xor(a, c), b, d);
  }

  /** Two bytes are equal exactly when their xor vanishes. */
  lemma XorZero(a: Byte, b: Byte)
    ensures Xor(a, b) == 0 <==> a == b
  {
    XorUnit(a);
    XorCancels(a, b);
    XorUnit(b);
  }
}

/** Finite sets compared by their sizes. */
module FiniteSets {
  lemma SameSizeSubset<T>(a: set<T>, b: set<T>)
    requires a <= b && |a| == |b|
    ensures a == b
  {
    assert a * b == a;
    assert |b - a| == |b| - |a * b|;
  }
}
