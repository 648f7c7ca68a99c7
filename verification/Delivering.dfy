/** Messages that reach the coordinator: late, repeatedly, out of order or never. */
module Delivering {
  import opened Types
  import opened Workforce
  import opened ParityFold
  import opened KvParity
  import opened KvReconstruction
  import opened ParityProtocol
  import opened Protocol
  import opened Gateway
  import opened ActivationMirror
  import opened KvReplica
  import BlobStore
  import Lru

  // ---------- what a delivery does to what the caches hold ----------

  /** The slots of a request after one cache operation: gone, or changed by a first delivery. */
  lemma HeldAfter(s: Lru.Store<BlobStore.Slots>, e: BlobStore.Event, cap: nat, keep: nat, r: RequestId)
    ensures var m := if r in s.entries then s.entries[r] else map[];
      var u := BlobStore.Step(s, e, cap, keep); var n := if r in u.entries then u.entries[r] else map[];
      n == map[] || n == BlobStore.Delivered(m, e, r)
  {
    var u := BlobStore.Step(s, e, cap, keep);
    if r in u.entries {
      BlobStore.StepEntries(s, e, cap, keep, r);
    }
  }

  lemma MirrorArrives(t: Task, p: nat, v: nat, m: BlobStore.Slots, msg: Message)
    requires t.Valid() && MirrorsSound(t, p, v, m) && msg.Mirror? && MessageSound(t, p, v, msg)
    ensures MirrorsSound(t, p, v,
      BlobStore.Delivered(m, BlobStore.Put(msg.request, BlobStore.Slot(msg.key, msg.position), msg.blob), t.request))
  {
    var slot := BlobStore.Slot(msg.key, msg.position);
    var n := BlobStore.Delivered(m, BlobStore.Put(msg.request, slot, msg.blob), t.request);
    StageOfKey(t, 0);
    forall x | x in n
      ensures MirrorSound(t, p, v, x, n[x])
    {
      assert x in m ==> MirrorSound(t, p, v, x, m[x]);
    }
    forall q: nat | q < p && HeadSlot(t, q) in n
      ensures HeadSlot(t, q + 1) in n
    {
      assert msg.request == t.request ==> slot != HeadSlot(t, q);
    }
  }

  lemma ColumnArrives(t: Task, p: nat, v: nat, m: BlobStore.Slots, msg: Message)
    requires t.Valid() && ReplicaSound(t, m) && msg.KvPush? && MessageSound(t, p, v, msg)
    ensures ReplicaSound(t,
      BlobStore.Delivered(m, BlobStore.Put(msg.request, BlobStore.Slot(msg.key, msg.slot), msg.column), t.request))
  {
    var slot := BlobStore.Slot(msg.key, msg.slot);
    var n := BlobStore.Delivered(m, BlobStore.Put(msg.request, slot, msg.column), t.request);
    forall x | x in n
      ensures ColumnSound(t, x, n[x])
    {
      assert x in m ==> ColumnSound(t, x, m[x]);
    }
  }

  lemma PushArrives(t: Task, p: nat, v: nat, logs: Logs, msg: Message, coeff: map<StageKey, nat>, repeated: bool)
    requires t.Valid() && ParitySound(t, p, v, logs) && msg.KvPush? && MessageSound(t, p, v, msg)
    requires msg.request == t.request && Ranked(t, coeff)
    ensures ParitySound(t, p, v,
      PushLog(logs, msg.slot, Contribution(msg.key, RankOf(coeff, msg.key), msg.column), repeated))
  {
    var c := Contribution(msg.key, RankOf(coeff, msg.key), msg.column);
    var n := PushLog(logs, msg.slot, c, repeated);
    assert ContributionSound(t, p, v, msg.slot, c);
    forall slot | slot in n
      ensures LogSound(t, p, v, slot, n[slot])
    {
      assert slot in logs ==> LogSound(t, p, v, slot, logs[slot]);
    }
  }

  // ---------- what the three caches hold, as a value ----------

  /** A message reaches the coordinator, or another request ends. */
  datatype Delivery = Arrive(msg: Message) | Over(request: RequestId)

  datatype Caches = Caches(mirror: Lru.Store<BlobStore.Slots>, replica: Lru.Store<BlobStore.Slots>,
    parity: Lru.Store<Slots>, logs: map<RequestId, Logs>)

  /** What is fixed when the gateway is built, and decides what the caches keep. */
  datatype Limits = Limits(mode: Mode, mirrorBytes: nat, replicaBytes: nat, parityBytes: nat, k: nat,
    coeff: map<StageKey, nat>)

  ghost function CachesOf(gw: RequestGateway): Caches
    reads gw.cache, gw.replica, gw.parity
  {
    Caches(gw.cache.State(), gw.replica.State(), gw.parity.State(), gw.parity.log)
  }

  ghost function LimitsOf(gw: RequestGateway): Limits {
    Limits(gw.mode, gw.cache.maxBytes, gw.replica.maxBytes, gw.parity.maxBytes, gw.parity.k, gw.coeff)
  }

  /** What the parity cache has been given for a request. */
  ghost function LogsIn(c: Caches, r: RequestId): Logs {
    if r in c.parity.entries then LogsFor(c.logs, r) else map[]
  }

  ghost function BlobsIn(s: Lru.Store<BlobStore.Slots>, r: RequestId): BlobStore.Slots {
    if r in s.entries then s.entries[r] else map[]
  }

  ghost function Pushed(l: Limits, c: Caches, q: RequestId, slot: nat, push: Contribution): Caches {
    var logs := LogsIn(c, q);
    c.(parity := PushStep(c.parity, q, slot, push.key, push.column, Scaled(push), l.k, l.parityBytes),
       logs := c.logs[q := PushLog(logs, slot, push, push.key in Keys(ContributionsAt(logs, slot)))])
  }

  /** A message is recorded: an input verbatim, a KV column verbatim or folded into the parity, by the mode. */
  ghost function Recorded(l: Limits, c: Caches, msg: Message): Caches {
    match msg
    case Mirror(q, key, position, blob) =>
      c.(mirror :=
        BlobStore.Step(c.mirror, BlobStore.Put(q, BlobStore.Slot(key, position), blob), l.mirrorBytes, 0))
    case KvPush(q, key, slot, column) =>
      if l.mode == Replicate then
        c.(replica :=
          BlobStore.Step(c.replica, BlobStore.Put(q, BlobStore.Slot(key, slot), column), l.replicaBytes, 1))
      else Pushed(l, c, q, slot, Contribution(key, RankOf(l.coeff, key), column))
  }

  ghost function Forgotten(c: Caches, q: RequestId): Caches {
    Caches(Lru.Removed(c.mirror, q), Lru.Removed(c.replica, q), Lru.Removed(c.parity, q), c.logs)
  }

  /** Only what was sent arrives, and only other requests end. */
  ghost predicate Comes(d: Delivery, outbox: set<Message>, r: RequestId) {
    match d
    case Arrive(msg) => msg.request != r || msg in outbox
    case Over(q) => q != r
  }

  ghost function Taken(l: Limits, c: Caches, d: Delivery, outbox: set<Message>, r: RequestId): Caches {
    if !Comes(d, outbox, r) then c
    else
      match d
      case Arrive(msg) => Recorded(l, c, msg)
      case Over(q) => Forgotten(c, q)
  }

  ghost function AllTaken(l: Limits, c: Caches, ds: seq<Delivery>, outbox: set<Message>, r: RequestId): Caches {
    if ds == [] then c
    else Taken(l, AllTaken(l, c, ds[..|ds| - 1], outbox, r), ds[|ds| - 1], outbox, r)
  }

  // ---------- ingesting messages ----------

  /** MirrorActivation: keep a worker's input, once. */
  method RecordMirror(gw: RequestGateway, msg: Message, ghost t: Task, ghost p: nat, ghost v: nat)
    requires gw.Valid() && t.Valid() && msg.Mirror? && MessageSound(t, p, v, msg) && Sound(t, p, v, gw.Snap(t.request))
    modifies gw.cache
    ensures gw.cache.Valid() && MirrorsSound(t, p, v, gw.cache.Held(t.request))
    ensures gw.cache.State() == BlobStore.Step(old(gw.cache.State()),
      BlobStore.Put(msg.request, BlobStore.Slot(msg.key, msg.position), msg.blob), gw.cache.maxBytes, 0)
  {
    ghost var s, m := gw.cache.State(), gw.cache.Held(t.request);
    var added := gw.cache.Put(msg.request, msg.key, msg.position, msg.blob);
    HeldAfter(s, BlobStore.Put(msg.request, BlobStore.Slot(msg.key, msg.position), msg.blob), gw.cache.maxBytes, 0,
      t.request);
    MirrorArrives(t, p, v, m, msg);
  }

  /** MirrorKV in replicate mode: keep the column verbatim. */
  method RecordColumn(gw: RequestGateway, msg: Message, ghost t: Task, ghost p: nat, ghost v: nat)
    requires gw.Valid() && t.Valid() && msg.KvPush? && MessageSound(t, p, v, msg) && Sound(t, p, v, gw.Snap(t.request))
    modifies gw.replica
    ensures gw.replica.Valid() && ReplicaSound(t, gw.replica.Held(t.request))
    ensures gw.replica.State() == BlobStore.Step(old(gw.replica.State()),
      BlobStore.Put(msg.request, BlobStore.Slot(msg.key, msg.slot), msg.column), gw.replica.maxBytes, 1)
    ensures BlobStore.Slot(msg.key, msg.slot) in gw.replica.Held(msg.request)
  {
    ghost var s, m := gw.replica.State(), gw.replica.Held(t.request);
    gw.replica.Keep(msg.request, msg.key, msg.slot, msg.column);
    HeldAfter(s, BlobStore.Put(msg.request, BlobStore.Slot(msg.key, msg.slot), msg.column), gw.replica.maxBytes, 1,
      t.request);
    ColumnArrives(t, p, v, m, msg);
  }

  /** MirrorKV in every other mode: fold the column into the parity blobs. */
  method RecordParity(gw: RequestGateway, msg: Message, ghost t: Task, ghost p: nat, ghost v: nat)
    requires gw.Valid() && gw.Serves(t) && msg.KvPush? && MessageSound(t, p, v, msg)
    requires Sound(t, p, v, gw.Snap(t.request))
    modifies gw.parity
    ensures gw.parity.Valid() && ParitySound(t, p, v, gw.parity.LogOf(t.request))
    ensures gw.parity.LogOf(msg.request) == PushLog(old(gw.parity.LogOf(msg.request)), msg.slot,
      Contribution(msg.key, RankOf(gw.coeff, msg.key), msg.column),
      msg.key in Keys(old(gw.parity.LogAt(msg.request, msg.slot))))
    ensures CachesOf(gw).parity == Pushed(LimitsOf(gw), old(CachesOf(gw)), msg.request, msg.slot,
      Contribution(msg.key, RankOf(gw.coeff, msg.key), msg.column)).parity
    ensures gw.parity.log == Pushed(LimitsOf(gw), old(CachesOf(gw)), msg.request, msg.slot,
      Contribution(msg.key, RankOf(gw.coeff, msg.key), msg.column)).logs
  {
    ghost var logs := gw.parity.LogOf(t.request);
    ghost var c := Contribution(msg.key, RankOf(gw.coeff, msg.key), msg.column);
    ghost var repeated := msg.key in Keys(gw.parity.LogAt(msg.request, msg.slot));
    gw.parity.XorIn(msg.request, msg.key, msg.slot, msg.column, RankOf(gw.coeff, msg.key));
    if msg.request == t.request {
      PushArrives(t, p, v, logs, msg, gw.coeff, repeated);
    }
  }

  /** What the caches hold stays true, and workers and plans stay as they are. */
  twostate predicate TookIn(gw: RequestGateway, t: Task, p: nat, v: nat)
    reads gw.Repr()
  {
    && gw.Valid() && Sound(t, p, v, gw.Snap(t.request))
    && gw.Snap(t.request).world == old(gw.Snap(t.request).world)
    && gw.Snap(t.request).plans == old(gw.Snap(t.request).plans)
  }

  /** One delivery: any message sent so far, or anything that concerns other requests. */
  method Ingest(gw: RequestGateway, d: Delivery, r: RequestId, ghost t: Task, ghost p: nat, ghost v: nat)
    requires gw.Valid() && gw.Serves(t) && r == t.request && Sound(t, p, v, gw.Snap(r))
    modifies gw.cache, gw.parity, gw.replica
    ensures TookIn(gw, t, p, v)
    ensures CachesOf(gw) == Taken(LimitsOf(gw), old(CachesOf(gw)), d, gw.fleet.outbox, r)
    ensures d.Arrive? && Comes(d, gw.fleet.outbox, r) ==> MessageRecorded(gw, d.msg)
    ensures d.Over? && d.request != r ==>
      && gw.cache.entries == old(gw.cache.entries) - {d.request}
      && gw.replica.entries == old(gw.replica.entries) - {d.request}
      && gw.parity.entries == old(gw.parity.entries) - {d.request}
  {
    match d
    case Arrive(msg) =>
      if msg.request == r && msg !in gw.fleet.outbox {
        return;
      }
      IngestMessage(gw, msg, t, p, v);
    case Over(q) =>
      if q != r {
        DropRequest(gw, q, t, p, v);
      }
  }

  /** The one cache that is to keep a message has taken it in, and the two others are as they were. */
  twostate predicate MessageRecorded(gw: RequestGateway, msg: Message)
    reads gw.cache, gw.replica, gw.parity
  {
    if msg.Mirror? then
      && unchanged(gw.replica) && unchanged(gw.parity)
      && gw.cache.State() == BlobStore.Step(old(gw.cache.State()),
          BlobStore.Put(msg.request, BlobStore.Slot(msg.key, msg.position), msg.blob), gw.cache.maxBytes, 0)
    else if gw.mode == Replicate then
      && unchanged(gw.cache) && unchanged(gw.parity)
      && BlobStore.Slot(msg.key, msg.slot) in gw.replica.Held(msg.request)
      && gw.replica.State() == BlobStore.Step(old(gw.replica.State()),
          BlobStore.Put(msg.request, BlobStore.Slot(msg.key, msg.slot), msg.column), gw.replica.maxBytes, 1)
    else
      && unchanged(gw.cache) && unchanged(gw.replica)
      && msg.key in Keys(gw.parity.LogAt(msg.request, msg.slot))
      && gw.parity.LogOf(msg.request) == PushLog(old(gw.parity.LogOf(msg.request)), msg.slot,
          Contribution(msg.key, RankOf(gw.coeff, msg.key), msg.column),
          msg.key in Keys(old(gw.parity.LogAt(msg.request, msg.slot))))
  }

  lemma PushIsLogged(logs: Logs, slot: int, c: Contribution)
    ensures c.key in Keys(ContributionsAt(PushLog(logs, slot, c, c.key in Keys(ContributionsAt(logs, slot))), slot))
  {
    assert c in ContributionsAt(logs, slot) + [c];
  }

  method IngestMessage(gw: RequestGateway, msg: Message, ghost t: Task, ghost p: nat, ghost v: nat)
    requires gw.Valid() && gw.Serves(t) && MessageSound(t, p, v, msg) && Sound(t, p, v, gw.Snap(t.request))
    modifies gw.cache, gw.parity, gw.replica
    ensures TookIn(gw, t, p, v) && MessageRecorded(gw, msg)
    ensures CachesOf(gw) == Recorded(LimitsOf(gw), old(CachesOf(gw)), msg)
  {
    hide MessageSound, MirrorsSound, ReplicaSound, ParitySound, OutboxSound, BlobStore.Step, Fleet.Valid, PushStep,
      PushLog;
    if msg.Mirror? {
      RecordMirror(gw, msg, t, p, v);
    } else if gw.mode == Replicate {
      RecordColumn(gw, msg, t, p, v);
    } else {
      PushIsLogged(gw.parity.LogOf(msg.request), msg.slot,
        Contribution(msg.key, RankOf(gw.coeff, msg.key), msg.column));
      RecordParity(gw, msg, t, p, v);
    }
    gw.OnlyCachesMoved(t.request);
  }

  /** The caches forget a request, and no other. */
  method EvictCaches(gw: RequestGateway, q: RequestId, ghost r: RequestId)
    requires gw.cache.Valid() && gw.parity.Valid() && gw.replica.Valid()
    modifies gw.cache, gw.parity, gw.replica
    ensures gw.cache.Valid() && gw.parity.Valid() && gw.replica.Valid()
    ensures gw.cache.Held(q) == map[] && gw.replica.Held(q) == map[] && gw.parity.LogOf(q) == map[]
    ensures q != r ==> gw.cache.Held(r) == old(gw.cache.Held(r)) && gw.replica.Held(r) == old(gw.replica.Held(r))
    ensures q != r ==> gw.parity.LogOf(r) == old(gw.parity.LogOf(r))
    ensures CachesOf(gw) == Forgotten(old(CachesOf(gw)), q)
    ensures gw.cache.entries == old(gw.cache.entries) - {q} && gw.replica.entries == old(gw.replica.entries) - {q}
    ensures gw.parity.entries == old(gw.parity.entries) - {q}
  {
    hide Lru.Removed, ActivationCache.Valid, ParityCache.Valid, ReplicaCache.Valid;
    gw.cache.EvictRequest(q);
    gw.parity.EvictRequest(q);
    gw.replica.EvictRequest(q);
  }

  /** Another request's entries leave the caches. */
  method DropRequest(gw: RequestGateway, q: RequestId, ghost t: Task, ghost p: nat, ghost v: nat)
    requires gw.Valid() && q != t.request && Sound(t, p, v, gw.Snap(t.request))
    modifies gw.cache, gw.parity, gw.replica
    ensures TookIn(gw, t, p, v) && CachesOf(gw) == Forgotten(old(CachesOf(gw)), q)
    ensures gw.cache.entries == old(gw.cache.entries) - {q} && gw.replica.entries == old(gw.replica.entries) - {q}
    ensures gw.parity.entries == old(gw.parity.entries) - {q}
  {
    hide Sound, Fleet.Valid, Forgotten;
    EvictCaches(gw, q, t.request);
    gw.OnlyCachesMoved(t.request);
  }

  /** Deliveries in whatever order and number. */
  method IngestAll(gw: RequestGateway, ds: seq<Delivery>, r: RequestId, ghost t: Task, ghost p: nat, ghost v: nat)
    requires gw.Valid() && gw.Serves(t) && r == t.request && Sound(t, p, v, gw.Snap(r))
    modifies gw.cache, gw.parity, gw.replica
    ensures TookIn(gw, t, p, v)
    ensures CachesOf(gw) == AllTaken(LimitsOf(gw), old(CachesOf(gw)), ds, gw.fleet.outbox, r)
  {
    hide Sound, Taken;
    ghost var l, c, outbox := LimitsOf(gw), CachesOf(gw), gw.fleet.outbox;
    for i := 0 to |ds|
      invariant TookIn(gw, t, p, v) && gw.fleet.outbox == outbox
      invariant CachesOf(gw) == AllTaken(l, c, ds[..i], outbox, r)
    {
      assert ds[..i + 1][..i] == ds[..i];
      Ingest(gw, ds[i], r, t, p, v);
    }
    assert ds[..|ds|] == ds;
  }
}
