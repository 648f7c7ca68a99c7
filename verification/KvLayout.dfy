/**
 The byte layouts of a stage's KV cache.

 A stage holds, per layer, one key and one value tensor of shape (heads, slots, row). On
 the wire a cache is LAYER-major (all slots of one head together, `export_kv`), a pushed
 column is one slot of every head (`extract_kv_column`). Both orders keep layer, key/value
 and head adjacent and in the same order, so a cache is read here as a list of lanes, one
 per (layer, key or value, head), each lane listing the rows of its slots.
 */
module KvLayout {
  import opened Wrappers
  import opened Types
  import opened ByteStrings

  /** The bytes of one head at one slot: head_dim items. */
  type Row = Bytes

  type Lane = seq<Row>

  /** One key or value tensor: a lane per head. */
  type Tensor = seq<Lane>

  datatype LayerKv = LayerKv(k: Tensor, v: Tensor)

  type KvCache = seq<LayerKv>

  datatype LayoutError = SizeMismatch

  /** Heads per tensor and bytes of one head at one slot. */
  datatype Geometry = Geometry(heads: nat, row: nat) {
    ghost predicate Valid() {
      heads > 0 && row > 0
    }

    /** Key and value lanes of all layers of a stage. */
    function Lanes(key: StageKey): nat {
      if key.start <= key.end then (key.end - key.start + 1) * (2 * heads) else 0
    }

    function SlotBytes(key: StageKey): nat {
      Lanes(key) * row
    }
  }

  ghost predicate LaneShaped(lane: Lane, slots: nat, row: nat) {
    |lane| == slots && forall n :: 0 <= n < slots ==> |lane[n]| == row
  }

  ghost predicate LanesShaped(lanes: seq<Lane>, slots: nat, row: nat) {
    forall r :: 0 <= r < |lanes| ==> LaneShaped(lanes[r], slots, row)
  }

  ghost predicate CacheShaped(c: KvCache, heads: nat, slots: nat, row: nat) {
    forall l :: 0 <= l < |c| ==>
      && |c[l].k| == |c[l].v| == heads
      && LanesShaped(c[l].k, slots, row) && LanesShaped(c[l].v, slots, row)
  }

  /** The lanes of a cache: per layer, the key heads and then the value heads. */
  function Lanes(c: KvCache): seq<Lane> {
    if c == [] then [] else c[0].k + c[0].v + Lanes(c[1..])
  }

  function Flat(ss: seq<Bytes>): Bytes {
    if ss == [] then [] else ss[0] + Flat(ss[1..])
  }

  /** All slots of the first lane, then all slots of the next. */
  function LayerMajor(lanes: seq<Lane>): Bytes {
    if lanes == [] then [] else Flat(lanes[0]) + LayerMajor(lanes[1..])
  }

  /** One slot of every lane. */
  function Column(lanes: seq<Lane>, n: nat): Bytes
    requires forall r :: 0 <= r < |lanes| ==> n < |lanes[r]|
  {
    if lanes == [] then [] else lanes[0][n] + Column(lanes[1..], n)
  }

  function Columns(lanes: seq<Lane>, slots: nat): (cs: seq<Bytes>)
    requires forall r :: 0 <= r < |lanes| ==> slots <= |lanes[r]|
    ensures |cs| == slots && forall n :: 0 <= n < slots ==> cs[n] == Column(lanes, n)
  {
    seq(slots, n requires 0 <= n < slots => Column(lanes, n))
  }

  // ---------- cutting a byte string into equal pieces ----------

  lemma SplitSize(n: nat, w: nat)
    requires n > 0
    ensures n * w == w + (n - 1) * w
  {}

  /** The reshape of n * w bytes into n pieces of w. */
  function Split(s: Bytes, n: nat, w: nat): (ss: seq<Bytes>)
    requires |s| == n * w
    ensures |ss| == n && forall i :: 0 <= i < n ==> |ss[i]| == w
    ensures Flat(ss) == s
  {
    if n == 0 then []
    else
      SplitSize(n, w);
      [s[..w]] + Split(s[w..], n - 1, w)
  }

  lemma {:induction false} FlatSize(ss: seq<Bytes>, w: nat)
    requires forall i :: 0 <= i < |ss| ==> |ss[i]| == w
    ensures |Flat(ss)| == |ss| * w
  {
    if ss != [] {
      FlatSize(ss[1..], w);
      SplitSize(|ss|, w);
    }
  }

  lemma {:induction false} SplitFlat(ss: seq<Bytes>, w: nat)
    requires forall i :: 0 <= i < |ss| ==> |ss[i]| == w
    ensures |Flat(ss)| == |ss| * w && Split(Flat(ss), |ss|, w) == ss
  {
    FlatSize(ss, w);
    if ss != [] {
      SplitFlat(ss[1..], w);
      SplitSize(|ss|, w);
      assert Flat(ss)[..w] == ss[0] && Flat(ss)[w..] == Flat(ss[1..]);
    }
  }

  lemma ConcatAssociates(a: Bytes, b: Bytes, c: Bytes)
    ensures (a + b) + c == a + (b + c)
  {}

  lemma {:induction false} FlatAppend(a: seq<Bytes>, b: seq<Bytes>)
    ensures Flat(a + b) == Flat(a) + Flat(b)
  {
    if a == [] {
      assert a + b == b;
    } else {
      FlatAppend(a[1..], b);
      assert (a + b)[0] == a[0] && (a + b)[1..] == a[1..] + b;
      ConcatAssociates(a[0], Flat(a[1..]), Flat(b));
    }
  }

  // ---------- layer-major bytes and lanes ----------

  lemma {:induction false} LayerMajorAppend(a: seq<Lane>, b: seq<Lane>)
    ensures LayerMajor(a + b) == LayerMajor(a) + LayerMajor(b)
  {
    if a == [] {
      assert a + b == b;
    } else {
      LayerMajorAppend(a[1..], b);
      assert (a + b)[0] == a[0] && (a + b)[1..] == a[1..] + b;
      ConcatAssociates(Flat(a[0]), LayerMajor(a[1..]), LayerMajor(b));
    }
  }

  lemma {:induction false} LayerMajorSize(lanes: seq<Lane>, slots: nat, row: nat)
    requires LanesShaped(lanes, slots, row)
    ensures |LayerMajor(lanes)| == |lanes| * (slots * row)
  {
    if lanes != [] {
      FlatSize(lanes[0], row);
      LayerMajorSize(lanes[1..], slots, row);
      SplitSize(|lanes|, slots * row);
    }
  }

  /** numpy's reshape to (lanes, slots, row). */
  function FromLayerMajor(s: Bytes, lanes: nat, slots: nat, row: nat): (ls: seq<Lane>)
    requires |s| == lanes * (slots * row)
    ensures |ls| == lanes && LanesShaped(ls, slots, row)
    ensures LayerMajor(ls) == s
  {
    if lanes == 0 then []
    else
      SplitSize(lanes, slots * row);
      [Split(s[..slots * row], slots, row)] + FromLayerMajor(s[slots * row..], lanes - 1, slots, row)
  }

  lemma {:induction false} FromLayerMajorInverts(lanes: seq<Lane>, slots: nat, row: nat)
    requires LanesShaped(lanes, slots, row)
    ensures |LayerMajor(lanes)| == |lanes| * (slots * row)
    ensures FromLayerMajor(LayerMajor(lanes), |lanes|, slots, row) == lanes
  {
    LayerMajorSize(lanes, slots, row);
    if lanes != [] {
      SplitFlat(lanes[0], row);
      FromLayerMajorInverts(lanes[1..], slots, row);
      SplitSize(|lanes|, slots * row);
      var s := LayerMajor(lanes);
      assert s[..slots * row] == Flat(lanes[0]) && s[slots * row..] == LayerMajor(lanes[1..]);
    }
  }

  // ---------- slot-major columns and lanes ----------

  lemma {:induction false} ColumnIsFlat(lanes: seq<Lane>, n: nat)
    requires forall r :: 0 <= r < |lanes| ==> n < |lanes[r]|
    ensures Column(lanes, n) == Flat(seq(|lanes|, r requires 0 <= r < |lanes| => lanes[r][n]))
  {
    if lanes != [] {
      ColumnIsFlat(lanes[1..], n);
      var rows := seq(|lanes|, r requires 0 <= r < |lanes| => lanes[r][n]);
      var rest := seq(|lanes| - 1, r requires 0 <= r < |lanes| - 1 => lanes[1..][r][n]);
      assert rows[1..] == rest;
    }
  }

  lemma {:induction false} SplitColumn(lanes: seq<Lane>, n: nat, slots: nat, row: nat)
    requires n < slots && LanesShaped(lanes, slots, row)
    ensures |Column(lanes, n)| == |lanes| * row
    ensures forall r :: 0 <= r < |lanes| ==> Split(Column(lanes, n), |lanes|, row)[r] == lanes[r][n]
  {
    ColumnIsFlat(lanes, n);
    SplitFlat(seq(|lanes|, r requires 0 <= r < |lanes| => lanes[r][n]), row);
  }

  /** Stacked columns as lanes: reshape every slot to rows, then move the slot axis inward. */
  function LanesOfSlots(slots: seq<Bytes>, lanes: nat, row: nat): (ls: seq<Lane>)
    requires forall n :: 0 <= n < |slots| ==> |slots[n]| == lanes * row
    ensures |ls| == lanes && LanesShaped(ls, |slots|, row)
    ensures forall r, n :: 0 <= r < lanes && 0 <= n < |slots| ==>
      ls[r][n] == Split(slots[n], lanes, row)[r]
  {
    seq(lanes, r requires 0 <= r < lanes =>
      seq(|slots|, n requires 0 <= n < |slots| => Split(slots[n], lanes, row)[r]))
  }

  /** Per-slot columns turned into layer-major bytes. */
  function SlotMajorToLayerMajor(slots: seq<Bytes>, lanes: nat, row: nat): Bytes
    requires forall n :: 0 <= n < |slots| ==> |slots[n]| == lanes * row
  {
    LayerMajor(LanesOfSlots(slots, lanes, row))
  }

  /** Layer-major bytes turned into per-slot columns: the transpose the other way. */
  function LayerMajorToSlots(s: Bytes, lanes: nat, slots: nat, row: nat): (cs: seq<Bytes>)
    requires |s| == lanes * (slots * row)
    ensures |cs| == slots
  {
    Columns(FromLayerMajor(s, lanes, slots, row), slots)
  }

  /** Reassembling the columns pushed for a cache gives back its layer-major bytes. */
  lemma {:induction false} ColumnsReassemble(lanes: seq<Lane>, slots: nat, row: nat)
    requires LanesShaped(lanes, slots, row)
    ensures forall n :: 0 <= n < slots ==> |Columns(lanes, slots)[n]| == |lanes| * row
    ensures LanesOfSlots(Columns(lanes, slots), |lanes|, row) == lanes
    ensures SlotMajorToLayerMajor(Columns(lanes, slots), |lanes|, row) == LayerMajor(lanes)
  {
    forall n | 0 <= n < slots
      ensures |Column(lanes, n)| == |lanes| * row
      ensures forall r :: 0 <= r < |lanes| ==> Split(Column(lanes, n), |lanes|, row)[r] == lanes[r][n]
    {
      SplitColumn(lanes, n, slots, row);
    }
    var ls := LanesOfSlots(Columns(lanes, slots), |lanes|, row);
    forall r | 0 <= r < |lanes|
      ensures ls[r] == lanes[r]
    {
      assert forall n :: 0 <= n < slots ==> ls[r][n] == lanes[r][n];
    }
  }

  lemma SlotsReassemble(slots: seq<Bytes>, lanes: nat, row: nat)
    requires forall n :: 0 <= n < |slots| ==> |slots[n]| == lanes * row
    ensures Columns(LanesOfSlots(slots, lanes, row), |slots|) == slots
  {
    var ls := LanesOfSlots(slots, lanes, row);
    forall n | 0 <= n < |slots|
      ensures Column(ls, n) == slots[n]
    {
      ColumnIsFlat(ls, n);
      assert seq(|ls|, r requires 0 <= r < |ls| => ls[r][n]) == Split(slots[n], lanes, row);
    }
  }

  /** The two transposes are inverse to each other. */
  lemma TransposesInvert(slots: seq<Bytes>, lanes: nat, row: nat)
    requires forall n :: 0 <= n < |slots| ==> |slots[n]| == lanes * row
    ensures var b := SlotMajorToLayerMajor(slots, lanes, row);
      |b| == lanes * (|slots| * row) && LayerMajorToSlots(b, lanes, |slots|, row) == slots
  {
    var ls := LanesOfSlots(slots, lanes, row);
    FromLayerMajorInverts(ls, |slots|, row);
    SlotsReassemble(slots, lanes, row);
  }

  lemma LayerMajorTransposes(s: Bytes, lanes: nat, slots: nat, row: nat)
    requires |s| == lanes * (slots * row)
    ensures var cs := LayerMajorToSlots(s, lanes, slots, row);
      (forall n :: 0 <= n < slots ==> |cs[n]| == lanes * row) && SlotMajorToLayerMajor(cs, lanes, row) == s
  {
    ColumnsReassemble(FromLayerMajor(s, lanes, slots, row), slots, row);
  }

  // ---------- the worker's operations on its cache ----------

  lemma {:induction false} LanesAppend(c: KvCache, layer: LayerKv)
    ensures Lanes(c + [layer]) == Lanes(c) + layer.k + layer.v
  {
    if c == [] {
      assert Lanes([layer][1..]) == [];
    } else {
      LanesAppend(c[1..], layer);
      assert (c + [layer])[1..] == c[1..] + [layer];
    }
  }

  lemma {:induction false} LanesOfShaped(c: KvCache, heads: nat, slots: nat, row: nat)
    requires CacheShaped(c, heads, slots, row)
    ensures |Lanes(c)| == |c| * (2 * heads) && LanesShaped(Lanes(c), slots, row)
  {
    if c != [] {
      assert CacheShaped(c[1..], heads, slots, row);
      LanesOfShaped(c[1..], heads, slots, row);
      SplitSize(|c|, 2 * heads);
    }
  }

  /** A cache is determined by its lanes. */
  lemma {:induction false} LanesInjective(c: KvCache, d: KvCache, heads: nat, slots: nat, row: nat)
    requires CacheShaped(c, heads, slots, row) && CacheShaped(d, heads, slots, row)
    requires |c| == |d| && Lanes(c) == Lanes(d)
    ensures c == d
  {
    if c != [] {
      assert c[0].k == Lanes(c)[..heads] && d[0].k == Lanes(d)[..heads];
      assert c[0].v == Lanes(c)[heads..2 * heads] && d[0].v == Lanes(d)[heads..2 * heads];
      assert Lanes(c[1..]) == Lanes(c)[2 * heads..] && Lanes(d[1..]) == Lanes(d)[2 * heads..];
      LanesInjective(c[1..], d[1..], heads, slots, row);
      assert c == [c[0]] + c[1..] && d == [d[0]] + d[1..];
    }
  }

  lemma {:induction false} ExportInjective(c: KvCache, d: KvCache, heads: nat, slots: nat, row: nat)
    requires CacheShaped(c, heads, slots, row) && CacheShaped(d, heads, slots, row) && |c| == |d|
    requires LayerMajor(Lanes(c)) == LayerMajor(Lanes(d))
    ensures c == d
  {
    LanesOfShaped(c, heads, slots, row);
    LanesOfShaped(d, heads, slots, row);
    FromLayerMajorInverts(Lanes(c), slots, row);
    FromLayerMajorInverts(Lanes(d), slots, row);
    LanesInjective(c, d, heads, slots, row);
  }

  lemma {:induction false} ExportAppend(c: KvCache, layer: LayerKv)
    ensures LayerMajor(Lanes(c + [layer])) == LayerMajor(Lanes(c)) + LayerMajor(layer.k) + LayerMajor(layer.v)
  {
    LanesAppend(c, layer);
    LayerMajorAppend(Lanes(c), layer.k);
    LayerMajorAppend(Lanes(c) + layer.k, layer.v);
  }

  /** Per layer the key bytes and then the value bytes of all slots. */
  method ExportKv(c: KvCache) returns (bytes: Bytes)
    ensures bytes == LayerMajor(Lanes(c))
  {
    bytes := [];
    for l := 0 to |c|
      invariant bytes == LayerMajor(Lanes(c[..l]))
    {
      bytes := bytes + LayerMajor(c[l].k);
      bytes := bytes + LayerMajor(c[l].v);
      assert c[..l + 1] == c[..l] + [c[l]];
      ExportAppend(c[..l], c[l]);
    }
    assert c[..|c|] == c;
  }

  lemma {:induction false} ColumnAppend(a: seq<Lane>, b: seq<Lane>, n: nat)
    requires forall r :: 0 <= r < |a| ==> n < |a[r]|
    requires forall r :: 0 <= r < |b| ==> n < |b[r]|
    ensures Column(a + b, n) == Column(a, n) + Column(b, n)
  {
    if a == [] {
      assert a + b == b;
    } else {
      ColumnAppend(a[1..], b, n);
      assert (a + b)[0] == a[0] && (a + b)[1..] == a[1..] + b;
      ConcatAssociates(a[0][n], Column(a[1..], n), Column(b, n));
    }
  }

  /** The rows of one slot, none past the last slot. */
  function SlotSlice(lanes: seq<Lane>, position: nat, slots: nat): Bytes
    requires forall r :: 0 <= r < |lanes| ==> |lanes[r]| == slots
  {
    if position < slots then Column(lanes, position) else []
  }

  lemma {:induction false} SliceAppend(c: KvCache, layer: LayerKv, position: nat, slots: nat, row: nat)
    requires LanesShaped(Lanes(c), slots, row) && LanesShaped(layer.k, slots, row) && LanesShaped(layer.v, slots, row)
    ensures LanesShaped(Lanes(c + [layer]), slots, row)
    ensures SlotSlice(Lanes(c + [layer]), position, slots) ==
      SlotSlice(Lanes(c), position, slots) + SlotSlice(layer.k, position, slots) + SlotSlice(layer.v, position, slots)
  {
    hide Lanes, Column;
    LanesAppend(c, layer);
    if position < slots {
      ColumnAppend(Lanes(c), layer.k, position);
      ColumnAppend(Lanes(c) + layer.k, layer.v, position);
    }
  }

  /** Per layer the key rows and then the value rows of one slot; nothing past the last one. */
  method ExtractKvColumn(c: KvCache, position: nat, heads: nat, slots: nat, row: nat) returns (column: Bytes)
    requires CacheShaped(c, heads, slots, row)
    ensures LanesShaped(Lanes(c), slots, row) && column == SlotSlice(Lanes(c), position, slots)
    ensures position >= slots ==> column == []
  {
    LanesOfShaped(c, heads, slots, row);
    column := [];
    assert c[..0] == [];
    for l := 0 to |c|
      invariant LanesShaped(Lanes(c[..l]), slots, row) && column == SlotSlice(Lanes(c[..l]), position, slots)
    {
      SliceAppend(c[..l], c[l], position, slots, row);
      column := column + SlotSlice(c[l].k, position, slots);
      column := column + SlotSlice(c[l].v, position, slots);
      assert c[..l + 1] == c[..l] + [c[l]];
    }
    assert c[..|c|] == c;
  }

  lemma {:induction false} InstallStep(bytes: Bytes, cache: KvCache, layer: LayerKv, offset: nat, per: nat)
    requires offset + per + per <= |bytes| && LayerMajor(Lanes(cache)) == bytes[..offset]
    requires LayerMajor(layer.k) == bytes[offset..offset + per]
    requires LayerMajor(layer.v) == bytes[offset + per..offset + per + per]
    ensures LayerMajor(Lanes(cache + [layer])) == bytes[..offset + per + per]
  {
    ExportAppend(cache, layer);
  }

  lemma OffsetStep(l: nat, layers: nat, per: nat)
    requires l < layers
    ensures (l + 1) * (2 * per) == l * (2 * per) + per + per <= layers * (2 * per)
  {
    SplitSize(l + 1, 2 * per);
    ProductMonotone(l + 1, layers, 2 * per);
  }

  /** Rebuilds a cache from layer-major bytes, walking the buffer tensor by tensor. */
  method InstallKv(bytes: Bytes, layers: nat, heads: nat, slots: nat, row: nat)
    returns (r: Result<KvCache, LayoutError>)
    ensures r.Failure? <==> |bytes| != layers * (2 * (heads * (slots * row)))
    ensures r.Success? ==> |r.value| == layers && CacheShaped(r.value, heads, slots, row)
    ensures r.Success? ==> LayerMajor(Lanes(r.value)) == bytes
  {
    var perTensor := heads * (slots * row);
    if |bytes| != layers * (2 * perTensor) {
      return Failure(SizeMismatch);
    }
    var cache: KvCache := [];
    var offset := 0;
    for l := 0 to layers
      invariant offset == l * (2 * perTensor) <= |bytes|
      invariant |cache| == l && CacheShaped(cache, heads, slots, row)
      invariant LayerMajor(Lanes(cache)) == bytes[..offset]
    {
      OffsetStep(l, layers, perTensor);
      var k := FromLayerMajor(bytes[offset..offset + perTensor], heads, slots, row);
      var v := FromLayerMajor(bytes[offset + perTensor..offset + perTensor + perTensor], heads, slots, row);
      InstallStep(bytes, cache, LayerKv(k, v), offset, perTensor);
      cache := cache + [LayerKv(k, v)];
      offset := offset + perTensor + perTensor;
    }
    assert bytes[..offset] == bytes;
    r := Success(cache);
  }

  lemma {:induction false} ProductMonotone(a: nat, b: nat, c: nat)
    requires a <= b
    ensures a * c <= b * c
    decreases b
  {
    if a < b {
      ProductMonotone(a, b - 1, c);
      SplitSize(b, c);
    }
  }

  lemma {:induction false} ExportSize(c: KvCache, heads: nat, slots: nat, row: nat)
    requires CacheShaped(c, heads, slots, row)
    ensures |LayerMajor(Lanes(c))| == |c| * (2 * (heads * (slots * row)))
  {
    LanesOfShaped(c, heads, slots, row);
    LayerMajorSize(Lanes(c), slots, row);
    ProductAssociates(|c|, heads, slots * row);
  }

  lemma ProductAssociates(a: nat, b: nat, c: nat)
    ensures a * (2 * b) * c == a * (2 * (b * c))
  {}

  /** Installing exported bytes restores the very cache that was exported. */
  method ExportInstall(c: KvCache, heads: nat, slots: nat, row: nat) returns (r: Result<KvCache, LayoutError>)
    requires CacheShaped(c, heads, slots, row)
    ensures r == Success(c)
  {
    var bytes := ExportKv(c);
    ExportSize(c, heads, slots, row);
    r := InstallKv(bytes, |c|, heads, slots, row);
    ExportInjective(c, r.value, heads, slots, row);
  }
}
