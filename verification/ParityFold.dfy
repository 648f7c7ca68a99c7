/**
 The algebra of the parity blobs: P is the xor of the zero-padded columns of the stages
 that contributed, Q the same with every column multiplied by g^rank. Neither depends on
 the order in which the columns arrived.
 */
module ParityFold {
  import opened Types
  import opened ByteStrings
  import opened GaloisField
  import opened FieldTables

  /** One stage's KV column at one slot, with the stage's rank among the non-head stages. */
  datatype Contribution = Contribution(key: StageKey, rank: nat, column: Bytes)

  datatype Blob = P | Q

  function Pad(b: Bytes, i: nat): Byte {
    if i < |b| then b[i] else 0
  }

  /** What a contribution adds to byte i of a blob. */
  function Term(c: Contribution, blob: Blob, i: nat): Byte {
    if blob.P? then Pad(c.column, i) else Mul(PowZ(c.rank), Pad(c.column, i))
  }

  function FoldAt(cs: seq<Contribution>, blob: Blob, i: nat): Byte {
    if cs == [] then 0
    else Xor(FoldAt(cs[..|cs| - 1], blob, i), Term(cs[|cs| - 1], blob, i))
  }

  /** The length of the longest column. */
  function Width(cs: seq<Contribution>): (w: nat)
    ensures forall j :: 0 <= j < |cs| ==> |cs[j].column| <= w
  {
    if cs == [] then 0
    else
      var w := Width(cs[..|cs| - 1]);
      if |cs[|cs| - 1].column| > w then |cs[|cs| - 1].column| else w
  }

  ghost predicate DistinctKeys(cs: seq<Contribution>) {
    forall i, j :: 0 <= i < j < |cs| ==> cs[i].key != cs[j].key
  }

  ghost function Keys(cs: seq<Contribution>): set<StageKey> {
    set c | c in cs :: c.key
  }

  lemma TermBeyond(c: Contribution, blob: Blob, i: nat)
    requires i >= |c.column|
    ensures Term(c, blob, i) == 0
  {
    MulZero(PowZ(c.rank));
  }

  lemma {:induction false} FoldBeyond(cs: seq<Contribution>, blob: Blob, i: nat)
    requires i >= Width(cs)
    ensures FoldAt(cs, blob, i) == 0
  {
    if cs != [] {
      FoldBeyond(cs[..|cs| - 1], blob, i);
      TermBeyond(cs[|cs| - 1], blob, i);
      XorUnit(0);
    }
  }

  lemma {:induction false} FoldAppend(a: seq<Contribution>, b: seq<Contribution>, blob: Blob, i: nat)
    ensures FoldAt(a + b, blob, i) == Xor(FoldAt(a, blob, i), FoldAt(b, blob, i))
    decreases |b|
  {
    if b == [] {
      assert a + b == a;
      XorUnit(FoldAt(a, blob, i));
    } else {
      var n := |b| - 1;
      assert (a + b)[..|a + b| - 1] == a + b[..n];
      FoldAppend(a, b[..n], blob, i);
      XorAssociates(FoldAt(a, blob, i), FoldAt(b[..n], blob, i), Term(b[n], blob, i));
    }
  }

  function Omit(cs: seq<Contribution>, k: nat): seq<Contribution>
    requires k < |cs|
  {
    cs[..k] + cs[k + 1..]
  }

  /** Taking one contribution out of the fold. */
  lemma {:induction false} FoldOmit(cs: seq<Contribution>, k: nat, blob: Blob, i: nat)
    requires k < |cs|
    ensures FoldAt(cs, blob, i) == Xor(FoldAt(Omit(cs, k), blob, i), Term(cs[k], blob, i))
  {
    var a, b := cs[..k], cs[k + 1..];
    assert cs == (a + [cs[k]]) + b;
    FoldAppend(a + [cs[k]], b, blob, i);
    FoldAppend(a, b, blob, i);
    assert (a + [cs[k]])[..k] == a;
    var x, y, t := FoldAt(a, blob, i), FoldAt(b, blob, i), Term(cs[k], blob, i);
    XorAssociates(x, t, y);
    XorCommutes(t, y);
    XorAssociates(x, y, t);
  }

  lemma OmitElements(cs: seq<Contribution>, k: nat)
    requires k < |cs| && DistinctKeys(cs)
    ensures DistinctKeys(Omit(cs, k))
    ensures forall c :: c in Omit(cs, k) <==> c in cs && c != cs[k]
  {
    forall c
      ensures c in Omit(cs, k) <==> c in cs && c != cs[k]
    {
      if c in cs && c != cs[k] {
        var j :| 0 <= j < |cs| && cs[j] == c;
        assert if j < k then Omit(cs, k)[j] == c else Omit(cs, k)[j - 1] == c;
      }
      if c in Omit(cs, k) {
        var j :| 0 <= j < |cs| - 1 && Omit(cs, k)[j] == c;
        assert cs[if j < k then j else j + 1] == c;
      }
    }
  }

  /** Arrival order is irrelevant: the same contributions in any order fold to the same byte. */
  lemma {:induction false} FoldPermutation(a: seq<Contribution>, b: seq<Contribution>, blob: Blob, i: nat)
    requires DistinctKeys(a) && DistinctKeys(b) && forall c :: c in a <==> c in b
    ensures FoldAt(a, blob, i) == FoldAt(b, blob, i)
    decreases |a|
  {
    if a == [] {
      assert forall j :: 0 <= j < |b| ==> b[j] in a;
    } else {
      var n := |a| - 1;
      assert a[n] in b;
      var k :| 0 <= k < |b| && b[k] == a[n];
      OmitElements(a, n);
      OmitElements(b, k);
      FoldPermutation(Omit(a, n), Omit(b, k), blob, i);
      FoldOmit(a, n, blob, i);
      FoldOmit(b, k, blob, i);
    }
  }

  /** The blob of n bytes that a list of contributions folds to. */
  ghost predicate IsFold(bytes: Bytes, cs: seq<Contribution>, blob: Blob) {
    |bytes| == Width(cs) && forall i :: 0 <= i < |bytes| ==> bytes[i] == FoldAt(cs, blob, i)
  }
}
