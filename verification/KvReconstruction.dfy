/**
 Rebuilding the KV of one or two lost stages from the parity blobs and the survivors' KV,
 slot by slot, and handing it back in layer-major order.
 */
module KvReconstruction {
  import opened Wrappers
  import opened Types
  import opened ByteStrings
  import opened GaloisField
  import opened FieldTables
  import opened Erasures
  import opened ParityFold
  import opened KvParity
  import opened KvLayout

  /** A slot without its blobs, or two ranks whose equations have no unique solution. */
  datatype ReconstructError = MissingBlob(slot: int) | Unsolvable(cause: FieldError)

  /** A surviving stage and its exported, layer-major KV. */
  datatype Fetched = Fetched(key: StageKey, buf: Bytes)

  ghost predicate WholeSlots(f: Fetched, g: Geometry) {
    g.SlotBytes(f.key) > 0 && |f.buf| % g.SlotBytes(f.key) == 0
  }

  function SlotCount(f: Fetched, g: Geometry): nat
    requires WholeSlots(f, g)
  {
    |f.buf| / g.SlotBytes(f.key)
  }

  lemma SlotCountFits(f: Fetched, g: Geometry)
    requires WholeSlots(f, g)
    ensures |f.buf| == g.Lanes(f.key) * (SlotCount(f, g) * g.row)
  {
    var n := SlotCount(f, g);
    assert |f.buf| == g.SlotBytes(f.key) * n;
    assert g.Lanes(f.key) * g.row * n == g.Lanes(f.key) * (n * g.row);
  }

  /** The columns a survivor's buffer holds. */
  function Rows(f: Fetched, g: Geometry): (rows: seq<Bytes>)
    requires WholeSlots(f, g)
    ensures |rows| == SlotCount(f, g)
  {
    SlotCountFits(f, g);
    LayerMajorToSlots(f.buf, g.Lanes(f.key), SlotCount(f, g), g.row)
  }

  function RankOf(coeff: map<StageKey, nat>, key: StageKey): nat {
    if key in coeff then coeff[key] else 0
  }

  /** A stage whose columns are known, by slot. */
  datatype Known = Known(key: StageKey, rows: seq<Bytes>)

  ghost predicate Shaped(k: Known, n: nat, g: Geometry) {
    |k.rows| == n && forall s :: 0 <= s < n ==> |k.rows[s]| == g.SlotBytes(k.key)
  }

  ghost predicate Reach(known: seq<Known>, slot: nat) {
    forall j :: 0 <= j < |known| ==> slot < |known[j].rows|
  }

  /** What the known stages contributed at one slot. */
  ghost function Contributed(known: seq<Known>, coeff: map<StageKey, nat>, slot: nat): seq<Contribution>
    requires Reach(known, slot)
  {
    seq(|known|, j requires 0 <= j < |known| =>
      Contribution(known[j].key, RankOf(coeff, known[j].key), known[j].rows[slot]))
  }

  lemma ContributedPrefix(known: seq<Known>, coeff: map<StageKey, nat>, slot: nat, j: nat)
    requires Reach(known, slot) && j < |known|
    ensures Reach(known[..j], slot) && Reach(known[..j + 1], slot)
    ensures Contributed(known[..j + 1], coeff, slot) == Contributed(known[..j], coeff, slot) +
      [Contribution(known[j].key, RankOf(coeff, known[j].key), known[j].rows[slot])]
  {}

  /** The log of a slot lists exactly these contributions, in whatever order. */
  ghost predicate Explains(log: seq<Contribution>, cs: seq<Contribution>) {
    DistinctKeys(log) && DistinctKeys(cs) && forall c :: c in log <==> c in cs
  }

  lemma {:induction false} WidthCovers(log: seq<Contribution>, cs: seq<Contribution>)
    requires Explains(log, cs)
    ensures forall j :: 0 <= j < |cs| ==> |cs[j].column| <= Width(log)
  {
    forall j | 0 <= j < |cs|
      ensures |cs[j].column| <= Width(log)
    {
      assert cs[j] in log;
    }
  }

  /** Xoring the survivors out of a blob leaves the fold of the lost stages. */
  lemma {:induction false} Remaining(log: seq<Contribution>, lost: seq<Contribution>, surv: seq<Contribution>,
      blob: Blob, i: nat)
    requires Explains(log, lost + surv)
    ensures Xor(FoldAt(log, blob, i), FoldAt(surv, blob, i)) == FoldAt(lost, blob, i)
  {
    FoldPermutation(log, lost + surv, blob, i);
    FoldAppend(lost, surv, blob, i);
    XorCancels(FoldAt(lost, blob, i), FoldAt(surv, blob, i));
  }

  lemma {:induction false} FoldOfOne(c: Contribution, i: nat)
    ensures FoldAt([c], P, i) == Pad(c.column, i)
  {
    assert [c][..0] == [];
    XorUnit(Pad(c.column, i));
  }

  lemma {:induction false} FoldOfTwo(c: Contribution, d: Contribution, blob: Blob, i: nat)
    ensures FoldAt([c, d], blob, i) == Xor(Term(c, blob, i), Term(d, blob, i))
  {
    assert [c, d][..1] == [c] && [c][..0] == [];
    assert FoldAt([c], blob, i) == Xor(0, Term(c, blob, i));
    XorUnit(Term(c, blob, i));
  }

  /** A blob with the contributions of `surv` folded back out. */
  ghost predicate Stripped(acc: Bytes, log: seq<Contribution>, surv: seq<Contribution>, blob: Blob) {
    && |acc| == Width(log)
    && forall i :: 0 <= i < |acc| ==> acc[i] == Xor(FoldAt(log, blob, i), FoldAt(surv, blob, i))
  }

  lemma StripStart(acc: Bytes, log: seq<Contribution>, blob: Blob)
    requires IsFold(acc, log, blob)
    ensures Stripped(acc, log, [], blob)
  {
    forall i | 0 <= i < |acc|
      ensures acc[i] == Xor(FoldAt(log, blob, i), 0)
    {
      XorUnit(acc[i]);
    }
  }

  lemma StripStep(acc: Bytes, log: seq<Contribution>, surv: seq<Contribution>, blob: Blob, c: Contribution, term: Bytes)
    requires Stripped(acc, log, surv, blob)
    requires |term| == |c.column| <= |acc| && forall i :: 0 <= i < |term| ==> term[i] == Term(c, blob, i)
    ensures Stripped(XorPrefix(acc, term), log, surv + [c], blob)
  {
    var r := XorPrefix(acc, term);
    assert (surv + [c])[..|surv|] == surv;
    forall i | 0 <= i < |r|
      ensures r[i] == Xor(FoldAt(log, blob, i), FoldAt(surv + [c], blob, i))
    {
      if i >= |term| {
        TermBeyond(c, blob, i);
      }
      XorAssociates(FoldAt(log, blob, i), FoldAt(surv, blob, i), Term(c, blob, i));
    }
  }

  /** The columns every survivor's buffer holds, in the order fetched. */
  method ReadSurvivors(surv: seq<Fetched>, g: Geometry) returns (known: seq<Known>)
    requires forall j :: 0 <= j < |surv| ==> WholeSlots(surv[j], g)
    ensures |known| == |surv|
    ensures forall j :: 0 <= j < |surv| ==> known[j] == Known(surv[j].key, Rows(surv[j], g))
  {
    known := [];
    for j := 0 to |surv|
      invariant |known| == j
      invariant forall i :: 0 <= i < j ==> known[i] == Known(surv[i].key, Rows(surv[i], g))
    {
      known := known + [Known(surv[j].key, Rows(surv[j], g))];
    }
  }

  /** The survivors xored out of the P blob of one slot. */
  method StripParity(parity: Bytes, known: seq<Known>, slot: nat, ghost log: seq<Contribution>,
      ghost lost: seq<Contribution>, ghost coeff: map<StageKey, nat>) returns (acc: Bytes)
    requires Reach(known, slot) && IsFold(parity, log, P)
    requires Explains(log, lost + Contributed(known, coeff, slot))
    ensures |acc| == Width(log) && forall i :: 0 <= i < |acc| ==> acc[i] == FoldAt(lost, P, i)
  {
    ghost var surv := Contributed(known, coeff, slot);
    WidthCovers(log, lost + surv);
    StripStart(parity, log, P);
    acc := parity;
    for j := 0 to |known|
      invariant Reach(known[..j], slot)
      invariant Stripped(acc, log, Contributed(known[..j], coeff, slot), P)
    {
      ContributedPrefix(known, coeff, slot, j);
      assert (lost + surv)[|lost| + j] == surv[j];
      StripStep(acc, log, Contributed(known[..j], coeff, slot), P, surv[j], known[j].rows[slot]);
      acc := XorPrefix(acc, known[j].rows[slot]);
    }
    assert known[..|known|] == known;
    forall i | 0 <= i < |acc|
      ensures acc[i] == FoldAt(lost, P, i)
    {
      Remaining(log, lost, surv, P, i);
    }
  }

  /** The survivors, each scaled by g^rank, xored out of the Q blob of one slot. */
  method StripQParity(q: Bytes, known: seq<Known>, slot: nat, coeff: map<StageKey, nat>,
      ghost log: seq<Contribution>, ghost lost: seq<Contribution>) returns (acc: Bytes)
    requires Reach(known, slot) && IsFold(q, log, Q)
    requires Explains(log, lost + Contributed(known, coeff, slot))
    ensures |acc| == Width(log) && forall i :: 0 <= i < |acc| ==> acc[i] == FoldAt(lost, Q, i)
  {
    ghost var surv := Contributed(known, coeff, slot);
    WidthCovers(log, lost + surv);
    StripStart(q, log, Q);
    acc := q;
    for j := 0 to |known|
      invariant Reach(known[..j], slot)
      invariant Stripped(acc, log, Contributed(known[..j], coeff, slot), Q)
    {
      ContributedPrefix(known, coeff, slot, j);
      assert (lost + surv)[|lost| + j] == surv[j];
      var scaled := GfMulScalar(GfPow(2, RankOf(coeff, known[j].key)), known[j].rows[slot]);
      StripStep(acc, log, Contributed(known[..j], coeff, slot), Q, surv[j], scaled);
      acc := XorPrefix(acc, scaled);
    }
    assert known[..|known|] == known;
    forall i | 0 <= i < |acc|
      ensures acc[i] == FoldAt(lost, Q, i)
    {
      Remaining(log, lost, surv, Q, i);
    }
  }

  /**
   Everything needed to rebuild the first n slots: at each slot the parity cache logs
   exactly the contributions of the lost and of the surviving stages.
   */
  ghost predicate Rebuildable(cache: ParityCache, r: RequestId, lost: seq<Known>, surv: seq<Fetched>,
      coeff: map<StageKey, nat>, n: nat, g: Geometry)
    reads cache
  {
    && cache.Valid() && g.Valid()
    && (forall j :: 0 <= j < |surv| ==> WholeSlots(surv[j], g) && n <= SlotCount(surv[j], g))
    && (forall j :: 0 <= j < |lost| ==> Shaped(lost[j], n, g))
    && (forall s :: 0 <= s < n ==> SlotReady(cache, r, lost, KnownOf(surv, g), coeff, s))
  }

  /** The blobs of one slot were folded from the lost and the known stages' columns, no others. */
  ghost predicate SlotReady(cache: ParityCache, r: RequestId, lost: seq<Known>, known: seq<Known>,
      coeff: map<StageKey, nat>, s: nat)
    requires Reach(lost, s) && Reach(known, s)
    reads cache
  {
    && r in cache.entries && s in cache.entries[r]
    && Explains(cache.LogAt(r, s), Contributed(lost, coeff, s) + Contributed(known, coeff, s))
  }

  ghost function KnownOf(surv: seq<Fetched>, g: Geometry): (known: seq<Known>)
    requires forall j :: 0 <= j < |surv| ==> WholeSlots(surv[j], g)
    ensures |known| == |surv| && forall j :: 0 <= j < |surv| ==> known[j] == Known(surv[j].key, Rows(surv[j], g))
  {
    seq(|surv|, j requires 0 <= j < |surv| => Known(surv[j].key, Rows(surv[j], g)))
  }

  lemma FirstBytes(acc: Bytes, column: Bytes)
    requires |column| <= |acc| && forall i :: 0 <= i < |acc| ==> acc[i] == Pad(column, i)
    ensures acc[..|column|] == column
  {}

  /** One lost stage: its layer-major KV bytes are exactly what it would have exported. */
  method XorReconstructKv(cache: ParityCache, r: RequestId, deadKey: StageKey, surv: seq<Fetched>, n: nat, g: Geometry,
      ghost lost: Known, ghost coeff: map<StageKey, nat>) returns (bytes: Result<Bytes, ReconstructError>)
    requires lost.key == deadKey && Shaped(lost, n, g) && Rebuildable(cache, r, [lost], surv, coeff, n, g)
    ensures bytes == Success(SlotMajorToLayerMajor(lost.rows, g.Lanes(deadKey), g.row))
  {
    var known := ReadSurvivors(surv, g);
    assert known == KnownOf(surv, g);
    var deadSlots: seq<Bytes> := [];
    for slot := 0 to n
      invariant deadSlots == lost.rows[..slot]
    {
      assert SlotReady(cache, r, [lost], known, coeff, slot);
      var parity := cache.GetParity(r, slot);
      if parity.None? {
        return Failure(MissingBlob(slot));
      }
      ghost var log, cs := cache.LogAt(r, slot), Contributed([lost], coeff, slot);
      assert cs == [Contribution(deadKey, RankOf(coeff, deadKey), lost.rows[slot])];
      var acc := StripParity(parity.value, known, slot, log, cs, coeff);
      WidthCovers(log, cs + Contributed(known, coeff, slot));
      assert (cs + Contributed(known, coeff, slot))[0] == cs[0];
      forall i | 0 <= i < |acc|
        ensures acc[i] == Pad(lost.rows[slot], i)
      {
        FoldOfOne(cs[0], i);
      }
      FirstBytes(acc, lost.rows[slot]);
      deadSlots := deadSlots + [acc[..g.SlotBytes(deadKey)]];
    }
    assert deadSlots == lost.rows;
    bytes := Success(SlotMajorToLayerMajor(deadSlots, g.Lanes(deadKey), g.row));
  }

  /** The two lost columns of one slot, zero-padded to the width of the blobs. */
  lemma {:induction false} TwoLostColumns(log: seq<Contribution>, x: Contribution, y: Contribution,
      surv: seq<Contribution>, p: Bytes, q: Bytes, dx: Bytes, dy: Bytes)
    requires Explains(log, [x, y] + surv) && |p| == |q| == Width(log)
    requires forall i :: 0 <= i < |p| ==> p[i] == FoldAt([x, y], P, i) && q[i] == FoldAt([x, y], Q, i)
    requires forall vx, vy :: Equations(p, q, x.rank, y.rank, vx, vy) <==> (vx, vy) == (dx, dy)
    ensures |x.column| <= |dx| && dx[..|x.column|] == x.column
    ensures |y.column| <= |dy| && dy[..|y.column|] == y.column
  {
    WidthCovers(log, [x, y] + surv);
    assert ([x, y] + surv)[0] == x && ([x, y] + surv)[1] == y;
    var vx, vy := Grown(x.column, |p|), Grown(y.column, |p|);
    forall i | 0 <= i < |p|
      ensures EquationsAt(p[i], q[i], x.rank, y.rank, vx[i], vy[i])
    {
      FoldOfTwo(x, y, P, i);
      FoldOfTwo(x, y, Q, i);
    }
    assert Equations(p, q, x.rank, y.rank, vx, vy);
    FirstBytes(vx, x.column);
    FirstBytes(vy, y.column);
  }

  /** The ranks of two lost stages determine their columns. */
  predicate Solvable(x: nat, y: nat) {
    x < y && (y - x) % 255 != 0
  }

  /** Both lost columns of one slot, from its two blobs. */
  method SolveSlot(p: Bytes, q: Bytes, known: seq<Known>, slot: nat, coeff: map<StageKey, nat>, x: nat, y: nat,
      ghost log: seq<Contribution>, ghost cx: Contribution, ghost cy: Contribution)
      returns (d: Result<(Bytes, Bytes), FieldError>)
    requires Reach(known, slot) && IsFold(p, log, P) && IsFold(q, log, Q)
    requires Explains(log, [cx, cy] + Contributed(known, coeff, slot))
    requires cx.rank == x && cy.rank == y
    ensures d.Success? <==> Solvable(x, y)
    ensures d.Success? ==> |cx.column| <= |d.value.0| && d.value.0[..|cx.column|] == cx.column
    ensures d.Success? ==> |cy.column| <= |d.value.1| && d.value.1[..|cy.column|] == cy.column
  {
    var pxy := StripParity(p, known, slot, log, [cx, cy], coeff);
    var qxy := StripQParity(q, known, slot, coeff, log, [cx, cy]);
    d := SolveTwoErasures(pxy, qxy, x, y);
    if d.Success? {
      TwoLostColumns(log, cx, cy, Contributed(known, coeff, slot), pxy, qxy, d.value.0, d.value.1);
    }
  }

  /**
   Two lost stages: both get back exactly the KV bytes they would have exported, unless their
   ranks coincide modulo the order of the generator.
   */
  method GfReconstructKv(cache: ParityCache, r: RequestId, xKey: StageKey, yKey: StageKey, surv: seq<Fetched>, n: nat,
      g: Geometry, coeff: map<StageKey, nat>, ghost xLost: Known, ghost yLost: Known)
      returns (bytes: Result<(Bytes, Bytes), ReconstructError>)
    requires xLost.key == xKey && yLost.key == yKey && Shaped(xLost, n, g) && Shaped(yLost, n, g)
    requires Rebuildable(cache, r, [xLost, yLost], surv, coeff, n, g) && cache.k == 2
    requires xKey in coeff && yKey in coeff
    ensures bytes.Success? <==> n == 0 || Solvable(coeff[xKey], coeff[yKey])
    ensures bytes.Success? ==> bytes == Success((SlotMajorToLayerMajor(xLost.rows, g.Lanes(xKey), g.row),
                                                 SlotMajorToLayerMajor(yLost.rows, g.Lanes(yKey), g.row)))
  {
    hide PowZ, Mul, SlotMajorToLayerMajor, LayerMajor;
    var x, y := coeff[xKey], coeff[yKey];
    var known := ReadSurvivors(surv, g);
    assert known == KnownOf(surv, g);
    var xSlots: seq<Bytes>, ySlots: seq<Bytes> := [], [];
    for slot := 0 to n
      invariant xSlots == xLost.rows[..slot] && ySlots == yLost.rows[..slot] && (slot > 0 ==> Solvable(x, y))
    {
      assert SlotReady(cache, r, [xLost, yLost], known, coeff, slot);
      var p := cache.GetParity(r, slot);
      var q := cache.GetQParity(r, slot);
      if p.None? || q.None? {
        return Failure(MissingBlob(slot));
      }
      ghost var cx, cy := Contribution(xKey, x, xLost.rows[slot]), Contribution(yKey, y, yLost.rows[slot]);
      assert Contributed([xLost, yLost], coeff, slot) == [cx, cy];
      var d := SolveSlot(p.value, q.value, known, slot, coeff, x, y, cache.LogAt(r, slot), cx, cy);
      if d.Failure? {
        return Failure(Unsolvable(d.error));
      }
      xSlots := xSlots + [d.value.0[..g.SlotBytes(xKey)]];
      ySlots := ySlots + [d.value.1[..g.SlotBytes(yKey)]];
    }
    assert xSlots == xLost.rows && ySlots == yLost.rows;
    bytes := Success((SlotMajorToLayerMajor(xSlots, g.Lanes(xKey), g.row),
                      SlotMajorToLayerMajor(ySlots, g.Lanes(yKey), g.row)));
  }
}
