/**
 What the two blob caches of the coordinator hold: per request, the first blob delivered
 for each (stage, position), with whole requests evicted oldest first. The operations are
 given as one step function over events, so that statements about whole runs can be made.
 */
module BlobStore {
  import opened Types
  import opened ByteStrings
  import opened Lru

  datatype Slot = Slot(key: StageKey, position: nat)

  type Slots = map<Slot, Bytes>

  datatype Event =
    | Put(request: RequestId, slot: Slot, blob: Bytes)
    | Read(request: RequestId)
    | Evict(request: RequestId)

  ghost function BlobSize(b: Bytes): nat { |b| }

  ghost function RequestBytes(m: Slots): nat { Total(m, BlobSize) }

  ghost function StoredBytes(s: Store<Slots>): nat { Total(s.entries, RequestBytes) }

  /** One operation on a cache with byte limit `cap` that never evicts its last `keep` requests. */
  ghost function Step(s: Store<Slots>, e: Event, cap: nat, keep: nat): Store<Slots> {
    match e
    case Put(r, slot, blob) =>
      var t := Touched(s, r, map[]);
      if slot in t.entries[r] then t
      else Evicted(Updated(t, r, t.entries[r][slot := blob]), RequestBytes, cap, keep)
    case Read(r) => if r in s.entries then Touched(s, r, map[]) else s
    case Evict(r) => Removed(s, r)
  }

  /**
   Deliveries, new or repeated, and reads that find something make their request the most
   recent; a delivery may push out the oldest, and nothing else changes who is older than whom.
   */
  lemma StepOrder(s: Store<Slots>, e: Event, cap: nat, keep: nat)
    requires WellFormed(s)
    ensures var u := Step(s, e, cap, keep);
      && (e.Put? ==> exists mid, n :: MadeNewest(s.order, mid, e.request) && 0 <= n <= |mid| && u.order == mid[n..])
      && (e.Read? ==> u.entries == s.entries)
      && (e.Read? ==> if e.request in s.entries then MadeNewest(s.order, u.order, e.request) else u == s)
      && (e.Evict? ==> u.entries == s.entries - {e.request} && LeftOut(s.order, u.order, e.request))
  {
    TouchedIsNewest(s, e.request, map[]);
    WithoutLeavesOut(s.order, e.request);
    if e.Put? {
      var t := Touched(s, e.request, map[]);
      assert t.order == t.order[0..];
      if e.slot !in t.entries[e.request] {
        var v := Updated(t, e.request, t.entries[e.request][e.slot := e.blob]);
        var n := EvictedIsDropped(v, RequestBytes, cap, keep);
        DroppedOrder(v, n);
        assert Step(s, e, cap, keep).order == t.order[n..];
      }
    }
  }

  ghost function Run(es: seq<Event>, cap: nat, keep: nat): Store<Slots> {
    if es == [] then Store([], map[])
    else Step(Run(es[..|es| - 1], cap, keep), es[|es| - 1], cap, keep)
  }

  /** A first delivery to a slot of r is kept; nothing else changes what is held for r. */
  ghost function Delivered(before: Slots, e: Event, r: RequestId): Slots {
    if e.Put? && e.request == r && e.slot !in before then before[e.slot := e.blob] else before
  }

  /** The blob first delivered to each slot of request r. */
  ghost function Firsts(es: seq<Event>, r: RequestId): Slots {
    if es == [] then map[]
    else Delivered(Firsts(es[..|es| - 1], r), es[|es| - 1], r)
  }

  /** The last moment at which the cache held nothing for r, whatever had removed it. */
  ghost function Since(es: seq<Event>, r: RequestId, cap: nat, keep: nat): (t: nat)
    ensures t <= |es|
  {
    if es == [] || r !in Run(es, cap, keep).entries then |es|
    else Since(es[..|es| - 1], r, cap, keep)
  }

  lemma {:induction false} FirstsStep(es: seq<Event>, t: nat, r: RequestId)
    requires t < |es|
    ensures Firsts(es[t..], r) == Delivered(Firsts(es[t..|es| - 1], r), es[|es| - 1], r)
  {
    assert es[t..][..|es[t..]| - 1] == es[t..|es| - 1];
  }

  /** One step changes the slots of a request it keeps only by a first delivery. */
  lemma StepEntries(s: Store<Slots>, e: Event, cap: nat, keep: nat, r: RequestId)
    requires r in Step(s, e, cap, keep).entries
    ensures r !in s.entries ==> e.Put? && e.request == r
    ensures Step(s, e, cap, keep).entries[r] == Delivered(if r in s.entries then s.entries[r] else map[], e, r)
  {
    if e.Put? {
      var t := Touched(s, e.request, map[]);
      EvictedEntries(Updated(t, e.request, t.entries[e.request][e.slot := e.blob]), RequestBytes, cap, keep);
    }
  }

  /**
   Through any interleaving of deliveries, reads and evictions over many requests, a cached
   request holds exactly the first deliveries made since it was last absent.
   */
  lemma {:induction false} RunHoldsFirsts(es: seq<Event>, cap: nat, keep: nat, r: RequestId)
    requires r in Run(es, cap, keep).entries
    ensures Run(es, cap, keep).entries[r] == Firsts(es[Since(es, r, cap, keep)..], r)
    ensures Since(es, r, cap, keep) < |es| && r !in Run(es[..Since(es, r, cap, keep)], cap, keep).entries
  {
    var n := |es| - 1;
    var s, t := Run(es[..n], cap, keep), Since(es, r, cap, keep);
    StepEntries(s, es[n], cap, keep, r);
    FirstsStep(es, t, r);
    if r in s.entries {
      RunHoldsFirsts(es[..n], cap, keep, r);
      assert es[..n][t..] == es[t..n];
      assert es[..n][..t] == es[..t];
    } else {
      assert t == n;
      assert es[n..n] == [];
    }
  }

  ghost predicate Delivers(es: seq<Event>, r: RequestId, slot: Slot) {
    exists i :: 0 <= i < |es| && es[i].Put? && es[i].request == r && es[i].slot == slot
  }

  /** Every delivery for r carries the blob that `truth` assigns to its slot. */
  ghost predicate Faithful(es: seq<Event>, r: RequestId, truth: Slot -> Bytes) {
    forall i :: 0 <= i < |es| && es[i].Put? && es[i].request == r ==> es[i].blob == truth(es[i].slot)
  }

  /**
   Order, repetition and timing of faithful deliveries do not matter: what is held is
   determined by which slots were delivered at all.
   */
  lemma {:induction false} FirstsAreFaithful(es: seq<Event>, r: RequestId, truth: Slot -> Bytes)
    requires Faithful(es, r, truth)
    ensures forall slot :: slot in Firsts(es, r) <==> Delivers(es, r, slot)
    ensures forall slot :: slot in Firsts(es, r) ==> Firsts(es, r)[slot] == truth(slot)
  {
    if es != [] {
      var n := |es| - 1;
      FirstsAreFaithful(es[..n], r, truth);
      forall slot
        ensures Delivers(es, r, slot) <==>
          Delivers(es[..n], r, slot) || (es[n].Put? && es[n].request == r && es[n].slot == slot)
      {
        if Delivers(es[..n], r, slot) {
          var i :| 0 <= i < n && es[..n][i].Put? && es[..n][i].request == r && es[..n][i].slot == slot;
          assert es[i].slot == slot;
        }
        if Delivers(es, r, slot) {
          var i :| 0 <= i < |es| && es[i].Put? && es[i].request == r && es[i].slot == slot;
          assert i < n ==> es[..n][i].slot == slot;
        }
      }
    }
  }

  lemma {:induction false} OrderIndependent(es: seq<Event>, fs: seq<Event>, r: RequestId, truth: Slot -> Bytes)
    requires Faithful(es, r, truth) && Faithful(fs, r, truth)
    requires forall slot :: Delivers(es, r, slot) <==> Delivers(fs, r, slot)
    ensures Firsts(es, r) == Firsts(fs, r)
  {
    FirstsAreFaithful(es, r, truth);
    FirstsAreFaithful(fs, r, truth);
  }

  /**
   So two caches that hold a request hold the same of it whenever the same slots were
   delivered to both since each last had nothing of it, whatever else came and was evicted.
   */
  lemma {:induction false} RunsAgree(es: seq<Event>, fs: seq<Event>, r: RequestId, truth: Slot -> Bytes, cap: nat,
      keep: nat, limit: nat, kept: nat)
    requires Faithful(es, r, truth) && Faithful(fs, r, truth)
    requires r in Run(es, cap, keep).entries && r in Run(fs, limit, kept).entries
    requires var s, t := es[Since(es, r, cap, keep)..], fs[Since(fs, r, limit, kept)..];
      forall slot :: Delivers(s, r, slot) <==> Delivers(t, r, slot)
    ensures Run(es, cap, keep).entries[r] == Run(fs, limit, kept).entries[r]
  {
    RunHoldsFirsts(es, cap, keep, r);
    RunHoldsFirsts(fs, limit, kept, r);
    OrderIndependent(es[Since(es, r, cap, keep)..], fs[Since(fs, r, limit, kept)..], r, truth);
  }

  // ---------- reading a stage's blobs in order ----------

  /** The longest gap-free run of blobs from position 0. */
  ghost predicate IsHistory(m: Slots, key: StageKey, h: seq<Bytes>) {
    && (forall i :: 0 <= i < |h| ==> Slot(key, i) in m && m[Slot(key, i)] == h[i])
    && Slot(key, |h|) !in m
  }

  ghost function Taken(key: StageKey, n: nat): set<Slot> {
    set i | 0 <= i < n :: Slot(key, i)
  }

  lemma HistoryUnique(m: Slots, key: StageKey, g: seq<Bytes>, h: seq<Bytes>)
    requires IsHistory(m, key, g) && IsHistory(m, key, h)
    ensures g == h
  {
    assert !(|g| < |h|) && !(|h| < |g|);
  }

  // ---------- byte accounting ----------

  lemma PutBytes(s: Store<Slots>, r: RequestId, slot: Slot, blob: Bytes)
    requires r in s.entries && slot !in s.entries[r]
    ensures StoredBytes(Updated(s, r, s.entries[r][slot := blob])) == StoredBytes(s) + |blob|
  {
    TotalUpdate(s.entries, RequestBytes, r, s.entries[r][slot := blob]);
    TotalUpdate(s.entries[r], BlobSize, slot, blob);
  }

  lemma TouchBytes(s: Store<Slots>, r: RequestId)
    ensures StoredBytes(Touched(s, r, map[])) == StoredBytes(s)
    ensures r in s.entries ==> StoredBytes(Removed(s, r)) + RequestBytes(s.entries[r]) == StoredBytes(s)
  {
    if r in s.entries {
      TotalRemove(s.entries, RequestBytes, r);
    } else {
      TotalUpdate(s.entries, RequestBytes, r, map[]);
    }
  }

  /** A delivery that fits evicts nothing: it is kept, with all that was held of its request. */
  lemma PutFits(s: Store<Slots>, r: RequestId, slot: Slot, blob: Bytes, cap: nat, keep: nat)
    requires WellFormed(s) && StoredBytes(s) + |blob| <= cap
    ensures var e := Put(r, slot, blob); var u := Step(s, e, cap, keep);
      && r in u.entries && u.entries[r] == Delivered(if r in s.entries then s.entries[r] else map[], e, r)
      && slot in u.entries[r] && StoredBytes(u) <= StoredBytes(s) + |blob| && WellFormed(u)
      && forall x :: x in s.entries && x != r ==> x in u.entries && u.entries[x] == s.entries[x]
  {
    var t := Touched(s, r, map[]);
    TouchedWellFormed(s, r, map[]);
    TouchBytes(s, r);
    if slot !in t.entries[r] {
      PutBytes(t, r, slot, blob);
    }
  }

  /** The bytes of one request, added up blob by blob. */
  method SumBlobs(m: Slots) returns (n: nat)
    ensures n == RequestBytes(m)
  {
    n := 0;
    var rest := m;
    while rest != map[]
      invariant n + RequestBytes(rest) == RequestBytes(m)
      decreases |rest|
    {
      var slot :| slot in rest;
      TotalRemove(rest, BlobSize, slot);
      n := n + |rest[slot]|;
      rest := rest - {slot};
    }
  }

  // ---------- joining a stage's columns ----------

  ghost function Positions(m: Slots, key: StageKey): set<nat> {
    set slot | slot in m && slot.key == key :: slot.position
  }

  lemma PositionsAre(m: Slots, key: StageKey)
    ensures forall p: nat :: p in Positions(m, key) <==> Slot(key, p) in m
  {
    forall p: nat | Slot(key, p) in m
      ensures p in Positions(m, key)
    {
      assert Slot(key, p).position == p;
    }
  }

  /** The columns present at positions lo..hi-1, in ascending order. */
  function Joined(m: Slots, key: StageKey, lo: nat, hi: nat): Bytes
    decreases hi - lo
  {
    if lo >= hi then []
    else Joined(m, key, lo, hi - 1) + (if Slot(key, hi - 1) in m then m[Slot(key, hi - 1)] else [])
  }

  lemma {:induction false} JoinedGap(m: Slots, key: StageKey, lo: nat, mid: nat, hi: nat)
    requires lo <= mid <= hi && forall p :: mid <= p < hi - 1 ==> Slot(key, p) !in m
    ensures Joined(m, key, lo, hi) == Joined(m, key, lo, mid) +
      (if mid < hi && Slot(key, hi - 1) in m then m[Slot(key, hi - 1)] else [])
    decreases hi - mid
  {
    if mid < hi {
      JoinedGap(m, key, lo, mid, hi - 1);
    }
  }

  lemma {:induction false} JoinedEnds(m: Slots, key: StageKey, next: nat, top: nat)
    requires forall p :: p in Positions(m, key) ==> p < next && p < top
    ensures Joined(m, key, 0, next) == Joined(m, key, 0, top)
  {
    PositionsAre(m, key);
    var least := if next < top then next else top;
    JoinedGap(m, key, 0, least, next);
    JoinedGap(m, key, 0, least, top);
  }

  lemma {:induction false} Least(s: set<nat>) returns (p: nat)
    requires s != {}
    ensures p in s && forall q :: q in s ==> p <= q
    decreases |s|
  {
    var a :| a in s;
    p := a;
    if s - {a} != {} {
      var b := Least(s - {a});
      p := if a < b then a else b;
    }
    assert forall x :: x in s ==> x == a || x in s - {a};
  }

  lemma {:induction false} JoinedSize(m: Slots, key: StageKey, lo: nat, hi: nat, w: nat)
    requires forall slot :: slot in m && slot.key == key ==> |m[slot]| == w
    requires forall p :: lo <= p < hi ==> Slot(key, p) in m
    requires lo <= hi
    ensures |Joined(m, key, lo, hi)| == (hi - lo) * w
    decreases hi - lo
  {
    if lo < hi {
      JoinedSize(m, key, lo, hi - 1, w);
      assert (hi - lo) * w == (hi - 1 - lo) * w + w;
    }
  }

  lemma {:induction false} JoinedLonger(m: Slots, key: StageKey, n: nat, top: nat, p: nat)
    requires n <= p < top && Slot(key, p) in m
    ensures |Joined(m, key, 0, top)| >= |Joined(m, key, 0, n)| + |m[Slot(key, p)]|
    decreases top
  {
    if p < top - 1 {
      JoinedLonger(m, key, n, top - 1, p);
    } else {
      JoinedGrows(m, key, n, top - 1);
    }
  }

  lemma {:induction false} JoinedGrows(m: Slots, key: StageKey, n: nat, top: nat)
    requires n <= top
    ensures |Joined(m, key, 0, top)| >= |Joined(m, key, 0, n)|
    decreases top
  {
    if n < top {
      JoinedGrows(m, key, n, top - 1);
    }
  }

  /**
   The completeness check and the length check together leave exactly the positions
   0..n-1: with columns of one positive size, one more column would make the bytes longer.
   */
  lemma {:induction false} CompleteAndSized(m: Slots, key: StageKey, n: nat, w: nat, top: nat)
    requires w > 0 && forall slot :: slot in m && slot.key == key ==> |m[slot]| == w
    requires forall p :: p in Positions(m, key) ==> p < top
    requires forall p :: 0 <= p < n ==> Slot(key, p) in m
    requires |Joined(m, key, 0, top)| == n * w
    ensures forall p: nat :: p in Positions(m, key) <==> p < n
    ensures Joined(m, key, 0, top) == Joined(m, key, 0, n)
  {
    PositionsAre(m, key);
    JoinedSize(m, key, 0, n, w);
    forall p | p in Positions(m, key)
      ensures p < n
    {
      if p >= n {
        JoinedLonger(m, key, n, top, p);
        assert false;
      }
    }
    JoinedEnds(m, key, n, top);
  }
}

/** The activation mirror: every stage's inputs, kept so that a backup can be rebuilt. */
module ActivationMirror {
  import opened Types
  import opened ByteStrings
  import opened Lru
  import opened BlobStore

  class ActivationCache {
    const maxBytes: nat
    var order: seq<RequestId>
    var entries: map<RequestId, Slots>
    var bytesUsed: int

    ghost function State(): Store<Slots>
      reads this
    {
      Store(order, entries)
    }

    ghost predicate Accounted()
      reads this
    {
      WellFormed(State()) && bytesUsed == StoredBytes(State())
    }

    /** The byte count is that of the blobs held, and never above the limit. */
    ghost predicate Valid()
      reads this
    {
      Accounted() && bytesUsed <= maxBytes
    }

    /** The blobs held for one request; none when it is absent or was evicted. */
    ghost function Held(r: RequestId): Slots
      reads this
    {
      if r in entries then entries[r] else map[]
    }

    constructor (maxBytes: nat)
      ensures Valid() && this.maxBytes == maxBytes && State() == Store([], map[])
    {
      this.maxBytes := maxBytes;
      order, entries, bytesUsed := [], map[], 0;
    }

    /** Insert at an explicit position; a position already filled is left alone. */
    method Put(r: RequestId, key: StageKey, position: nat, blob: Bytes) returns (added: bool)
      requires Valid()
      modifies this
      ensures Valid() && State() == Step(old(State()), BlobStore.Put(r, Slot(key, position), blob), maxBytes, 0)
      ensures added <==> Slot(key, position) !in old(Held(r))
    {
      TouchedWellFormed(State(), r, map[]);
      TouchBytes(State(), r);
      if r !in entries {
        entries := entries[r := map[]];
      }
      order := Without(order, r) + [r];
      if Slot(key, position) in entries[r] {
        return false;
      }
      PutBytes(State(), r, Slot(key, position), blob);
      entries := entries[r := entries[r][Slot(key, position) := blob]];
      bytesUsed := bytesUsed + |blob|;
      EvictIfNeeded();
      added := true;
    }

    /** The contiguous prefix of positions from 0; reading a request makes it the most recent. */
    method GetHistory(r: RequestId, key: StageKey) returns (h: seq<Bytes>)
      requires Valid()
      modifies this
      ensures Valid() && State() == Step(old(State()), Read(r), maxBytes, 0)
      ensures IsHistory(old(Held(r)), key, h)
    {
      if r !in entries {
        return [];
      }
      TouchedWellFormed(State(), r, map[]);
      order := Without(order, r) + [r];
      var slots := entries[r];
      h := [];
      while Slot(key, |h|) in slots
        invariant forall i :: 0 <= i < |h| ==> Slot(key, i) in slots && slots[Slot(key, i)] == h[i]
        decreases slots.Keys - Taken(key, |h|)
      {
        assert Slot(key, |h|) in Taken(key, |h| + 1) && Slot(key, |h|) !in Taken(key, |h|);
        h := h + [slots[Slot(key, |h|)]];
      }
    }

    method EvictRequest(r: RequestId)
      requires Valid()
      modifies this
      ensures Valid() && State() == Step(old(State()), Evict(r), maxBytes, 0)
      ensures entries == old(entries) - {r}
    {
      TouchedWellFormed(State(), r, map[]);
      if r in entries {
        TouchBytes(State(), r);
        var n := SumBlobs(entries[r]);
        bytesUsed := bytesUsed - n;
        order, entries := Without(order, r), entries - {r};
      } else {
        assert entries - {r} == entries;
      }
    }

    method EvictIfNeeded()
      requires Accounted()
      modifies this
      ensures Valid() && State() == Evicted(old(State()), RequestBytes, maxBytes, 0)
    {
      while bytesUsed > maxBytes && order != []
        invariant Accounted()
        invariant Evicted(State(), RequestBytes, maxBytes, 0) == Evicted(old(State()), RequestBytes, maxBytes, 0)
        decreases |order|
      {
        PopOldestWellFormed(State());
        TotalRemove(entries, RequestBytes, order[0]);
        var n := SumBlobs(entries[order[0]]);
        bytesUsed := bytesUsed - n;
        order, entries := order[1..], entries - {order[0]};
      }
      if order == [] {
        assert entries == map[];
      }
    }
  }
}

/** Full KV replication: every stage's columns kept verbatim. */
module KvReplica {
  import opened Wrappers
  import opened Types
  import opened ByteStrings
  import opened Lru
  import opened BlobStore

  class ReplicaCache {
    const maxBytes: nat
    var order: seq<RequestId>
    var entries: map<RequestId, Slots>
    var bytesUsed: int

    ghost function State(): Store<Slots>
      reads this
    {
      Store(order, entries)
    }

    ghost predicate Accounted()
      reads this
    {
      WellFormed(State()) && bytesUsed == StoredBytes(State())
    }

    /** Above the limit only while a single request is held. */
    ghost predicate Valid()
      reads this
    {
      Accounted() && (bytesUsed <= maxBytes || |order| <= 1)
    }

    ghost function Held(r: RequestId): Slots
      reads this
    {
      if r in entries then entries[r] else map[]
    }

    constructor (maxBytes: nat)
      ensures Valid() && this.maxBytes == maxBytes && State() == Store([], map[])
    {
      this.maxBytes := maxBytes;
      order, entries, bytesUsed := [], map[], 0;
    }

    /** Keep a column; the request just written is never evicted. */
    method Keep(r: RequestId, key: StageKey, position: nat, column: Bytes)
      requires Valid()
      modifies this
      ensures Valid() && State() == Step(old(State()), BlobStore.Put(r, Slot(key, position), column), maxBytes, 1)
      ensures Slot(key, position) in Held(r)
    {
      hide Evicted, StoredBytes, RequestBytes;
      TouchedWellFormed(State(), r, map[]);
      TouchBytes(State(), r);
      if r !in entries {
        entries := entries[r := map[]];
      }
      order := Without(order, r) + [r];
      if Slot(key, position) in entries[r] {
        return;
      }
      PutBytes(State(), r, Slot(key, position), column);
      entries := entries[r := entries[r][Slot(key, position) := column]];
      bytesUsed := bytesUsed + |column|;
      EvictedKeepsNewest(State(), RequestBytes, maxBytes, 1);
      EvictIfNeeded();
    }

    method IsComplete(r: RequestId, key: StageKey, upTo: nat) returns (ok: bool)
      ensures ok <==> forall p :: 0 <= p <= upTo ==> Slot(key, p) in Held(r)
    {
      if r !in entries {
        assert Slot(key, 0) !in Held(r);
        return false;
      }
      ok := forall p :: 0 <= p <= upTo ==> Slot(key, p) in entries[r];
    }

    /** The stored columns of one stage joined in ascending position, or None if it has none. */
    method GetStageKv(r: RequestId, key: StageKey) returns (kv: Option<Bytes>)
      ensures kv.None? <==> Positions(Held(r), key) == {}
      ensures kv.Some? ==> forall top :: (forall p :: p in Positions(Held(r), key) ==> p < top) ==>
        kv.value == Joined(Held(r), key, 0, top)
    {
      if r !in entries {
        return None;
      }
      var slots := entries[r];
      var rest := set slot | slot in slots && slot.key == key :: slot.position;
      assert rest == Positions(slots, key);
      if rest == {} {
        return None;
      }
      PositionsAre(slots, key);
      var bytes, next: nat := [], 0;
      while rest != {}
        invariant bytes == Joined(slots, key, 0, next)
        invariant forall p :: p in rest <==> p in Positions(slots, key) && p >= next
        decreases rest
      {
        ghost var least := Least(rest);
        assert forall q :: q in rest ==> least <= q;
        var p :| p in rest && forall q :: q in rest ==> p <= q;
        JoinedGap(slots, key, 0, next, p);
        JoinedGap(slots, key, 0, p, p + 1);
        bytes := bytes + slots[Slot(key, p)];
        next := p + 1;
        rest := rest - {p};
      }
      forall top | forall p :: p in Positions(slots, key) ==> p < top
        ensures bytes == Joined(slots, key, 0, top)
      {
        JoinedEnds(slots, key, next, top);
      }
      kv := Some(bytes);
    }

    method EvictRequest(r: RequestId)
      requires Valid()
      modifies this
      ensures Valid() && State() == Step(old(State()), Evict(r), maxBytes, 1)
      ensures entries == old(entries) - {r}
    {
      TouchedWellFormed(State(), r, map[]);
      if r in entries {
        TouchBytes(State(), r);
        var n := SumBlobs(entries[r]);
        bytesUsed := bytesUsed - n;
        order, entries := Without(order, r), entries - {r};
      } else {
        assert entries - {r} == entries;
      }
    }

    method EvictIfNeeded()
      requires Accounted()
      modifies this
      ensures Valid() && State() == Evicted(old(State()), RequestBytes, maxBytes, 1)
    {
      while bytesUsed > maxBytes && |order| > 1
        invariant Accounted()
        invariant Evicted(State(), RequestBytes, maxBytes, 1) == Evicted(old(State()), RequestBytes, maxBytes, 1)
        decreases |order|
      {
        PopOldestWellFormed(State());
        TotalRemove(entries, RequestBytes, order[0]);
        var n := SumBlobs(entries[order[0]]);
        bytesUsed := bytesUsed - n;
        order, entries := order[1..], entries - {order[0]};
      }
    }
  }
}
