/**
 The exp/log tables and the arithmetic the program does through them.

 `BuildTables` fills the two arrays exactly as the program does and is proved to fill them
 with `GfExp` and `GfLog`. Table multiplication is the shift-and-xor product, so it inherits
 distributivity over xor; powers are repeated products, and inverses exist.
 */
module FieldTables {
  import opened Wrappers
  import opened ByteStrings
  import opened BinaryDigits
  import opened GaloisField
  import opened GeneratorOrder
  import opened FiniteSets

  // ---------- every non-zero byte is one power of g ----------

  lemma {:induction false} PowNonZero(n: nat)
    ensures Pow(n) != 0
  {
    if n > 0 {
      PowNonZero(n - 1);
      if Double(Pow(n - 1)) == 0 {
        DoubleInjective(Pow(n - 1), 0);
        assert false;
      }
    }
  }

  lemma PowInjective(i: nat, j: nat)
    requires i < j < 255
    ensures Pow(i) != Pow(j)
  {
    if Pow(i) == Pow(j) {
      DoubleNAdd(i, j - i, 1);
      DoubleNInjective(i, Pow(j - i), 1);
      OrderOfGenerator(j - i);
    }
  }

  ghost function PowersBelow(n: nat): set<int> {
    set i | 0 <= i < n :: Pow(i)
  }

  lemma {:induction false} PowersCount(n: nat)
    requires n <= 255
    ensures |PowersBelow(n)| == n
  {
    if n > 0 {
      PowersCount(n - 1);
      assert PowersBelow(n) == PowersBelow(n - 1) + {Pow(n - 1) as int};
      forall i | 0 <= i < n - 1
        ensures Pow(i) != Pow(n - 1)
      {
        PowInjective(i, n - 1);
      }
    }
  }

  ghost function PositivesTo(n: nat): (s: set<int>)
    ensures |s| == n && forall b :: b in s <==> 0 < b <= n
  {
    if n == 0 then {} else PositivesTo(n - 1) + {n}
  }

  /** The 255 distinct powers of g are the 255 non-zero bytes. */
  lemma LogExists(b: Byte)
    requires b != 0
    ensures exists i :: 0 <= i < 255 && Pow(i) == b
    ensures forall i, j :: 0 <= i < 255 && 0 <= j < 255 && Pow(i) == b && Pow(j) == b ==> i == j
  {
    forall i: nat
      ensures Pow(i) != 0
    {
      PowNonZero(i);
    }
    PowersCount(255);
    assert PowersBelow(255) <= PositivesTo(255);
    SameSizeSubset(PowersBelow(255), PositivesTo(255));
    assert b as int in PowersBelow(255);
    forall i, j | 0 <= i < j < 255
      ensures Pow(i) != Pow(j)
    {
      PowInjective(i, j);
    }
  }

  /** The discrete logarithm to base g. */
  function Log(b: Byte): (l: nat)
    requires b != 0
    ensures l < 255 && Pow(l) == b
  {
    LogExists(b);
    var l :| 0 <= l < 255 && Pow(l) == b;
    l
  }

  lemma LogOfPow(i: nat)
    requires i < 255
    ensures Pow(i) != 0 && Log(Pow(i)) == i
  {
    PowNonZero(i);
    var l := Log(Pow(i));
    if l < i {
      PowInjective(l, i);
    } else if i < l {
      PowInjective(i, l);
    }
  }

  lemma {:induction false} PowCycle(n: nat, r: nat)
    requires n % 255 == r
    ensures Pow(n) == Pow(r)
    decreases n
  {
    if n >= 255 {
      PowCycle(n - 255, r);
      Power255();
      DoubleNAdd(n - 255, 255, 1);
    }
  }

  // ---------- the laws of the product ----------

  lemma {:induction false} ShiftXorDouble(a: Byte, b: Byte, k: nat)
    ensures ShiftXor(Double(a), b, k) == Double(ShiftXor(a, b, k))
    decreases k
  {
    if k > 0 {
      ShiftXorDouble(Double(a), b / 2, k - 1);
      DoubleXor(if b % 2 == 1 then a else 0, ShiftXor(Double(a), b / 2, k - 1));
    }
  }

  lemma {:induction false} ShiftXorOne(b: Byte, k: nat)
    requires k <= 8 && b < Pow2(k)
    ensures ShiftXor(1, b, k) == b
    decreases k
  {
    if k > 0 {
      assert Pow2(4) == 16;
      ShiftXorOne(b / 2, k - 1);
      ShiftXorDouble(1, b / 2, k - 1);
      assert b / 2 < 128;
      Step(b % 2, 2 * (b / 2));
      assert 2 * (b / 2) / 2 == b / 2;
    }
  }

  /** Multiplying by g^i is i-fold doubling: this ties the product to the generator. */
  lemma {:induction false} MulPow(i: nat, b: Byte)
    ensures Mul(Pow(i), b) == DoubleN(i, b)
  {
    if i == 0 {
      assert Pow2(4) == 16;
      ShiftXorOne(b, 8);
    } else {
      MulPow(i - 1, b);
      ShiftXorDouble(Pow(i - 1), b, 8);
    }
  }

  lemma {:induction false} ShiftXorZero(a: Byte, b: Byte, k: nat)
    ensures ShiftXor(0, b, k) == 0 && ShiftXor(a, 0, k) == 0
    decreases k
  {
    if k > 0 {
      ShiftXorZero(Double(a), b / 2, k - 1);
      XorUnit(0);
    }
  }

  lemma MulZero(a: Byte)
    ensures Mul(a, 0) == 0 && Mul(0, a) == 0
  {
    ShiftXorZero(a, a, 8);
  }

  lemma MulOfPowers(a: Byte, b: Byte, i: nat, j: nat)
    requires a == Pow(i) && b == Pow(j)
    ensures Mul(a, b) == Pow(i + j)
  {
    MulPow(i, b);
    DoubleNAdd(i, j, 1);
  }

  lemma MulOfLogs(a: Byte, b: Byte)
    requires a != 0 && b != 0
    ensures Mul(a, b) == Pow(Log(a) + Log(b))
  {
    MulOfPowers(a, b, Log(a), Log(b));
  }

  lemma MulCommutes(a: Byte, b: Byte)
    ensures Mul(a, b) == Mul(b, a)
  {
    MulZero(a);
    MulZero(b);
    if a != 0 && b != 0 {
      MulOfLogs(a, b);
      MulOfLogs(b, a);
    }
  }

  /** The product distributes over xor, in either argument. */
  lemma MulXor(a: Byte, b: Byte, c: Byte)
    ensures Mul(a, Xor(b, c)) == Xor(Mul(a, b), Mul(a, c))
    ensures Mul(Xor(b, c), a) == Xor(Mul(b, a), Mul(c, a))
  {
    if a == 0 {
      MulZero(Xor(b, c));
      MulZero(b);
      MulZero(c);
      XorUnit(0);
    } else {
      MulPow(Log(a), b);
      MulPow(Log(a), c);
      MulPow(Log(a), Xor(b, c));
      DoubleNXor(Log(a), b, c);
    }
    MulCommutes(a, b);
    MulCommutes(a, c);
    MulCommutes(a, Xor(b, c));
  }

  lemma MulAssociates(a: Byte, b: Byte, c: Byte)
    ensures Mul(Mul(a, b), c) == Mul(a, Mul(b, c))
  {
    MulZero(a);
    MulZero(b);
    MulZero(c);
    MulZero(Mul(b, c));
    if a != 0 && b != 0 {
      MulAssociatesPowers(a, b, c, Log(a), Log(b));
    }
  }

  lemma MulAssociatesPowers(a: Byte, b: Byte, c: Byte, i: nat, j: nat)
    requires a == Pow(i) && b == Pow(j)
    ensures Mul(Mul(a, b), c) == Mul(a, Mul(b, c))
  {
    MulOfPowers(a, b, i, j);
    MulPow(i + j, c);
    MulPow(j, c);
    MulPow(i, Mul(b, c));
    DoubleNAdd(i, j, c);
  }

  lemma MulOne(a: Byte)
    ensures Mul(1, a) == a && Mul(a, 1) == a
  {
    MulPow(0, a);
    MulCommutes(1, a);
  }

  lemma ModAdd(i: int, j: int)
    ensures (i % 255 + j % 255) % 255 == (i + j) % 255
  {}

  lemma MulPowZ(i: int, j: int)
    ensures Mul(PowZ(i), PowZ(j)) == PowZ(i + j)
  {
    ModAdd(i, j);
    MulPowBoth(i % 255, j % 255, (i + j) % 255);
  }

  lemma MulPowBoth(m: nat, n: nat, r: nat)
    requires (m + n) % 255 == r
    ensures Mul(Pow(m), Pow(n)) == Pow(r)
  {
    MulPow(m, Pow(n));
    DoubleNAdd(m, n, 1);
    PowCycle(m + n, r);
  }

  // ---------- the program's tables ----------

  /** Entry i of the exp table; the upper half repeats the lower. */
  function GfExp(i: nat): Byte
    requires i < 512
  {
    Pow(i % 255)
  }

  /** Entry b of the log table; entry 0 is never written and stays 0. */
  function GfLog(b: Byte): nat {
    if b == 0 then 0 else Log(b)
  }

  /** The tables as far as the first i powers fill them. */
  ghost predicate Filled(exp: seq<Byte>, log: seq<nat>, i: nat)
    requires |exp| == 512 && |log| == 256
  {
    && (forall k :: 0 <= k < i ==> k < 512 && exp[k] == Pow(k % 255))
    && (forall k: nat :: k < i && k < 255 ==> log[Pow(k)] == k)
    && log[0] == 0
  }

  lemma FillStep(exp: seq<Byte>, log: seq<nat>, i: nat)
    requires |exp| == 512 && |log| == 256 && i < 255 && Filled(exp, log, i)
    ensures Filled(exp[i := Pow(i)], log[Pow(i) := i], i + 1)
  {
    PowNonZero(i);
    forall k: nat | k < i
      ensures Pow(k) != Pow(i)
    {
      PowInjective(k, i);
    }
  }

  lemma FillUpperStep(exp: seq<Byte>, log: seq<nat>, i: nat)
    requires |exp| == 512 && |log| == 256 && 255 <= i < 512 && Filled(exp, log, i)
    ensures Filled(exp[i := exp[i - 255]], log, i + 1)
  {
    assert i % 255 == (i - 255) % 255;
  }

  lemma FilledIsTables(exp: seq<Byte>, log: seq<nat>)
    requires |exp| == 512 && |log| == 256 && Filled(exp, log, 512)
    ensures forall i :: 0 <= i < 512 ==> exp[i] == GfExp(i)
    ensures forall b: Byte :: log[b] == GfLog(b)
  {
    forall b: Byte | b != 0
      ensures log[b] == Log(b)
    {
      assert log[Pow(Log(b))] == Log(b);
    }
  }

  method BuildTables() returns (exp: array<Byte>, log: array<nat>)
    ensures exp.Length == 512 && forall i :: 0 <= i < 512 ==> exp[i] == GfExp(i)
    ensures log.Length == 256 && forall b: Byte :: log[b] == GfLog(b)
  {
    hide GfExp, GfLog;
    exp := new Byte[512](_ => 0);
    log := new nat[256](_ => 0);
    var x: nat := 1;
    for i := 0 to 255
      invariant x == Pow(i) && Filled(exp[..], log[..], i)
    {
      FillStep(exp[..], log[..], i);
      exp[i] := x;
      log[x] := i;
      x := 2 * x;
      if x >= 256 {
        x := XorBits(x, POLY);
      }
    }
    for i := 255 to 512
      invariant Filled(exp[..], log[..], i)
    {
      FillUpperStep(exp[..], log[..], i);
      exp[i] := exp[i - 255];
    }
    FilledIsTables(exp[..], log[..]);
  }

  function GfMul(a: Byte, b: Byte): (r: Byte)
    ensures r == Mul(a, b)
  {
    MulZero(a);
    MulZero(b);
    if a == 0 || b == 0 then 0
    else
      MulOfLogs(a, b);
      PowCycle(Log(a) + Log(b), (Log(a) + Log(b)) % 255);
      GfExp(GfLog(a) + GfLog(b))
  }

  lemma LogOfTwo()
    ensures Log(2) == 1
  {
    assert Pow(1) == Double(Pow(0));
    LogOfPow(1);
  }

  lemma GfExpCycles(i: int)
    ensures GfExp(i % 255) == PowZ(i)
  {
    hide Pow;
    assert (i % 255) % 255 == i % 255;
  }

  lemma GfPowOfTwo(e: int)
    ensures GfExp((GfLog(2) * e) % 255) == PowZ(e)
  {
    hide Log, PowZ, GfExp, Pow;
    LogOfTwo();
    assert GfLog(2) * e == e;
    GfExpCycles(e);
  }

  function GfPow(base: Byte, e: int): (r: Byte)
    ensures base == 2 ==> r == PowZ(e)
    ensures base == 0 ==> r == 0
  {
    GfPowOfTwo(e);
    if base == 0 then 0
    else GfExp((GfLog(base) * e) % 255)
  }

  /** The n-fold product of a byte with itself. */
  function Power(b: Byte, n: nat): Byte {
    if n == 0 then 1 else Mul(b, Power(b, n - 1))
  }

  lemma {:induction false} PowerOfLog(b: Byte, n: nat)
    requires b != 0
    ensures Power(b, n) == PowZ(Log(b) * n)
  {
    hide Mul, PowZ, Log;
    if n == 0 {
      NoFactors(Log(b));
    } else {
      PowerOfLog(b, n - 1);
      LogIsPowZ(b);
      MulPowZ(Log(b), Log(b) * (n - 1));
      assert Log(b) + Log(b) * (n - 1) == Log(b) * n;
    }
  }

  lemma NoFactors(l: nat)
    ensures PowZ(l * 0) == 1
  {
    assert l * 0 == 0;
    assert PowZ(0) == Pow(0);
  }

  lemma LogIsPowZ(b: Byte)
    requires b != 0
    ensures PowZ(Log(b)) == b
  {}

  /**
   The program's power is the repeated product for every base, its inverse for a negative
   exponent, and 0 for base 0, at exponent 0 too, where the empty product would be 1.
   */
  lemma GfPowIsPower(b: Byte, n: nat)
    ensures b != 0 ==> GfPow(b, n) == Power(b, n) && Mul(GfPow(b, 0 - n), Power(b, n)) == 1
    ensures GfPow(0, n) == 0 && GfPow(0, 0 - n) == 0 && Power(0, n) == if n == 0 then 1 else 0
  {
    hide Mul, PowZ, Log, GfExp;
    if n > 0 {
      MulZero(Power(0, n - 1));
    }
    if b != 0 {
      PowerOfLog(b, n);
      GfPowIsPowZ(b, n);
      GfPowIsPowZ(b, 0 - n);
      Opposite(Log(b), n);
    }
  }

  lemma GfPowIsPowZ(b: Byte, e: int)
    requires b != 0
    ensures GfPow(b, e) == PowZ(Log(b) * e)
  {
    hide Mul, PowZ, Log, GfExp;
    GfExpCycles(Log(b) * e);
  }

  lemma Opposite(l: nat, n: nat)
    ensures Mul(PowZ(l * (0 - n)), PowZ(l * n)) == 1
  {
    hide Mul, PowZ;
    MulPowZ(l * (0 - n), l * n);
    NoFactors(l);
    assert l * (0 - n) + l * n == l * 0;
  }

  lemma OppositeLog(l: nat)
    requires l < 255
    ensures (l + (255 - l) % 255) % 255 == 0 && ((255 - l) % 255) % 255 == (255 - l) % 255
  {}

  lemma GfExpInverts(c: Byte)
    requires c != 0
    ensures Mul(c, GfExp((255 - GfLog(c)) % 255)) == 1
  {
    var l := Log(c);
    OppositeLog(l);
    MulPowBoth(l, (255 - l) % 255, 0);
  }

  function GfInv(c: Byte): (r: Result<Byte, FieldError>)
    ensures r.Failure? <==> c == 0
    ensures r.Failure? ==> r.error == ZeroDivisionError
    ensures r.Success? ==> Mul(c, r.value) == 1
  {
    if c == 0 then Failure(ZeroDivisionError)
    else
      GfExpInverts(c);
      Success(GfExp((255 - GfLog(c)) % 255))
  }

  function GfMulScalar(c: Byte, arr: Bytes): (out: Bytes)
    ensures |out| == |arr|
    ensures forall i :: 0 <= i < |arr| ==> out[i] == Mul(c, arr[i])
  {
    MulByZeroAndOne(arr);
    if c == 0 then seq(|arr|, _ => 0)
    else if c == 1 then arr
    else seq(|arr|, i requires 0 <= i < |arr| => GfMul(c, arr[i]))
  }

  lemma MulByZeroAndOne(arr: Bytes)
    ensures forall i :: 0 <= i < |arr| ==> Mul(0, arr[i]) == 0 && Mul(1, arr[i]) == arr[i]
  {
    forall i | 0 <= i < |arr|
      ensures Mul(0, arr[i]) == 0 && Mul(1, arr[i]) == arr[i]
    {
      MulZero(arr[i]);
      MulOne(arr[i]);
    }
  }
}
