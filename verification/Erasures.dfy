/**
 The two-erasure solver of the P + Q code (H. P. Anvin, "The mathematics of RAID-6",
 section 4): from Dx ^ Dy and g^x Dx ^ g^y Dy it recovers Dx and Dy.
 */
module Erasures {
  import opened Wrappers
  import opened ByteStrings
  import opened GaloisField
  import opened GeneratorOrder
  import opened FieldTables

  /** Element-wise xor of two byte strings of one length. */
  function XorBytes(a: Bytes, b: Bytes): (r: Bytes)
    requires |a| == |b|
    ensures |r| == |a| && forall i :: 0 <= i < |a| ==> r[i] == Xor(a[i], b[i])
  {
    seq(|a|, i requires 0 <= i < |a| => Xor(a[i], b[i]))
  }

  // ---------- one byte ----------

  /**
   The constants of one erasure pair: d = g^(y-x), e = (d ^ 1)^-1, h = g^-x, and the
   coefficients gx = g^x and gy = g^y of the Q equation.
   */
  ghost predicate Pair(d: Byte, e: Byte, h: Byte, gx: Byte, gy: Byte) {
    Mul(Xor(d, 1), e) == 1 && Mul(h, gx) == 1 && Mul(h, gy) == d
  }

  /** The solver's A p ^ B q, with its common factor e in front. */
  lemma Factored(d: Byte, e: Byte, h: Byte, p: Byte, q: Byte)
    ensures Xor(Mul(Mul(d, e), p), Mul(Mul(h, e), q)) == Mul(e, Xor(Mul(d, p), Mul(h, q)))
  {
    MulCommutes(d, e);
    MulCommutes(h, e);
    MulAssociates(e, d, p);
    MulAssociates(e, h, q);
    MulXor(e, Mul(d, p), Mul(h, q));
  }

  /** Multiplying the Q equation by g^-x turns it into X ^ d Y. */
  lemma ScaledQ(d: Byte, e: Byte, h: Byte, gx: Byte, gy: Byte, x: Byte, y: Byte)
    requires Pair(d, e, h, gx, gy)
    ensures Mul(h, Xor(Mul(gx, x), Mul(gy, y))) == Xor(x, Mul(d, y))
  {
    MulXor(h, Mul(gx, x), Mul(gy, y));
    MulAssociates(h, gx, x);
    MulAssociates(h, gy, y);
    MulOne(x);
  }

  /** e undoes multiplication by d ^ 1. */
  lemma Unscaled(d: Byte, e: Byte, v: Byte)
    requires Mul(Xor(d, 1), e) == 1
    ensures Mul(e, Xor(Mul(d, v), v)) == v && Mul(Xor(d, 1), Mul(e, v)) == v
  {
    MulXor(v, d, 1);
    MulOne(v);
    MulAssociates(e, Xor(d, 1), v);
    MulAssociates(Xor(d, 1), e, v);
    MulCommutes(Xor(d, 1), e);
  }

  lemma SolveByte(d: Byte, e: Byte, h: Byte, gx: Byte, gy: Byte, x: Byte, y: Byte)
    requires Pair(d, e, h, gx, gy)
    ensures var p, q := Xor(x, y), Xor(Mul(gx, x), Mul(gy, y));
      Xor(Mul(Mul(d, e), p), Mul(Mul(h, e), q)) == x
  {
    var p, q := Xor(x, y), Xor(Mul(gx, x), Mul(gy, y));
    var dx, dy := Mul(d, x), Mul(d, y);
    Factored(d, e, h, p, q);
    ScaledQ(d, e, h, gx, gy, x, y);
    MulXor(d, x, y);
    // (dx ^ dy) ^ (x ^ dy) == dx ^ x
    XorExchange(dx, dy, x, dy);
    XorUnit(dy);
    XorUnit(Xor(dx, x));
    Unscaled(d, e, x);
  }

  /** Whatever p and q are, the solver's answer satisfies both equations. */
  lemma SolutionByte(d: Byte, e: Byte, h: Byte, gx: Byte, gy: Byte, p: Byte, q: Byte)
    requires Pair(d, e, h, gx, gy)
    ensures var x := Xor(Mul(Mul(d, e), p), Mul(Mul(h, e), q)); var y := Xor(p, x);
      Xor(x, y) == p && Xor(Mul(gx, x), Mul(gy, y)) == q
  {
    var x := Xor(Mul(Mul(d, e), p), Mul(Mul(h, e), q));
    var y := Xor(p, x);
    var dp, hq, r := Mul(d, p), Mul(h, q), Xor(Mul(gx, x), Mul(gy, y));
    XorCancels(p, x);
    XorCommutes(x, y);
    Factored(d, e, h, p, q);
    // h r == x ^ d (p ^ x) == (d ^ 1) x ^ d p == (d p ^ h q) ^ d p == h q
    ScaledQ(d, e, h, gx, gy, x, y);
    MulXor(d, p, x);
    Unscaled(d, e, Xor(dp, hq));
    MulXor(x, d, 1);
    MulOne(x);
    XorCommutes(x, Xor(dp, Mul(d, x)));
    XorAssociates(dp, Mul(d, x), x);
    XorCancels(hq, dp);
    assert Mul(h, r) == hq;
    // and multiplying by g^x undoes h
    MulCommutes(h, gx);
    MulAssociates(gx, h, r);
    MulAssociates(gx, h, q);
    MulOne(r);
    MulOne(q);
  }

  // ---------- the solver ----------

  lemma PairOf(x: int, y: int, e: Byte)
    requires Mul(Xor(PowZ(y - x), 1), e) == 1
    ensures Pair(PowZ(y - x), e, PowZ(-x), PowZ(x), PowZ(y))
  {
    MulPowZ(-x, x);
    MulPowZ(-x, y);
  }

  lemma DenominatorZero(d: int)
    ensures Xor(PowZ(d), 1) == 0 <==> d % 255 == 0
  {
    XorZero(PowZ(d), 1);
    if d % 255 != 0 {
      OrderOfGenerator(d % 255);
    }
  }

  /** The P and Q equations of one byte, and of whole byte strings. */
  ghost predicate EquationsAt(p: Byte, q: Byte, x: int, y: int, dx: Byte, dy: Byte) {
    p == Xor(dx, dy) && q == Xor(Mul(PowZ(x), dx), Mul(PowZ(y), dy))
  }

  ghost predicate Equations(pxy: Bytes, qxy: Bytes, x: int, y: int, dx: Bytes, dy: Bytes) {
    && |dx| == |dy| == |pxy| == |qxy|
    && forall i :: 0 <= i < |pxy| ==> EquationsAt(pxy[i], qxy[i], x, y, dx[i], dy[i])
  }

  /**
   Succeeds exactly for x < y with g^x != g^y, and then its answer is the one pair of byte
   strings that satisfies both equations.
   */
  function SolveTwoErasures(pxy: Bytes, qxy: Bytes, x: int, y: int): (r: Result<(Bytes, Bytes), FieldError>)
    requires |pxy| == |qxy|
    ensures r == Failure(ValueError) <==> !(x < y)
    ensures r == Failure(ZeroDivisionError) <==> x < y && (y - x) % 255 == 0
    ensures r.Success? ==> forall dx, dy ::
      Equations(pxy, qxy, x, y, dx, dy) <==> (dx, dy) == r.value
  {
    if !(x < y) then Failure(ValueError)
    else
      var gD := GfPow(2, y - x);
      DenominatorZero(y - x);
      match GfInv(Xor(gD, 1))
      case Failure(e) => Failure(e)
      case Success(inv) =>
        var a := GfMul(gD, inv);
        var b := GfMul(GfPow(2, -x), inv);
        var dx := XorBytes(GfMulScalar(a, pxy), GfMulScalar(b, qxy));
        var dy := XorBytes(pxy, dx);
        UniqueSolution(pxy, qxy, x, y, inv, dx, dy);
        Success((dx, dy))
  }

  lemma UniqueSolution(pxy: Bytes, qxy: Bytes, x: int, y: int, inv: Byte, dx: Bytes, dy: Bytes)
    requires |pxy| == |qxy| == |dx| == |dy| && Mul(Xor(PowZ(y - x), 1), inv) == 1
    requires forall i :: 0 <= i < |pxy| ==> dy[i] == Xor(pxy[i], dx[i])
    requires forall i :: 0 <= i < |pxy| ==>
      dx[i] == Xor(Mul(Mul(PowZ(y - x), inv), pxy[i]), Mul(Mul(PowZ(-x), inv), qxy[i]))
    ensures forall vx, vy :: Equations(pxy, qxy, x, y, vx, vy) <==> (vx, vy) == (dx, dy)
  {
    PairOf(x, y, inv);
    forall i | 0 <= i < |pxy|
      ensures EquationsAt(pxy[i], qxy[i], x, y, dx[i], dy[i])
    {
      SolutionByte(PowZ(y - x), inv, PowZ(-x), PowZ(x), PowZ(y), pxy[i], qxy[i]);
    }
    forall vx, vy | Equations(pxy, qxy, x, y, vx, vy)
      ensures vx == dx && vy == dy
    {
      forall i | 0 <= i < |pxy|
        ensures vx[i] == dx[i] && vy[i] == dy[i]
      {
        assert EquationsAt(pxy[i], qxy[i], x, y, vx[i], vy[i]);
        SolveByte(PowZ(y - x), inv, PowZ(-x), PowZ(x), PowZ(y), vx[i], vy[i]);
        XorCommutes(vx[i], vy[i]);
        XorCancels(vy[i], vx[i]);
      }
    }
  }
}
