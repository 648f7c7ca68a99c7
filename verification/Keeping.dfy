/** What has been delivered is kept for as long as there is room for all of it. */
module Keeping {
  import opened Types
  import opened ByteStrings
  import opened Workforce
  import opened KvParity
  import opened ParityFold
  import opened KvReconstruction
  import opened Gateway
  import opened Delivering
  import BlobStore
  import Lru

  ghost predicate Tidy(l: Limits, c: Caches) {
    && Lru.WellFormed(c.mirror) && Lru.WellFormed(c.replica) && AllHold(c.parity.entries, c.logs, l.k)
    && (l.k == 1 || l.k == 2)
  }

  lemma ValidIsTidy(gw: RequestGateway, r: RequestId)
    requires gw.Valid()
    ensures Tidy(LimitsOf(gw), CachesOf(gw))
    ensures BlobsIn(CachesOf(gw).mirror, r) == gw.cache.Held(r)
    ensures BlobsIn(CachesOf(gw).replica, r) == gw.replica.Held(r)
    ensures LogsIn(CachesOf(gw), r) == gw.parity.LogOf(r)
  {}

  /** The bytes a delivery adds to the mirror, and to the parity or replica cache, at most once or k times. */
  ghost function InputSize(d: Delivery): nat {
    if d.Arrive? && d.msg.Mirror? then |d.msg.blob| else 0
  }

  ghost function ColumnSize(d: Delivery): nat {
    if d.Arrive? && d.msg.KvPush? then |d.msg.column| else 0
  }

  ghost function InputBytes(ds: seq<Delivery>): nat {
    if ds == [] then 0 else InputBytes(ds[..|ds| - 1]) + InputSize(ds[|ds| - 1])
  }

  ghost function ColumnBytes(ds: seq<Delivery>): nat {
    if ds == [] then 0 else ColumnBytes(ds[..|ds| - 1]) + ColumnSize(ds[|ds| - 1])
  }

  ghost function ParityBytes(c: Caches): nat {
    Lru.Total(c.parity.entries, RequestBytes)
  }

  // ---------- one delivery ----------

  ghost predicate Less(m: BlobStore.Slots, n: BlobStore.Slots) {
    m.Keys <= n.Keys && forall slot :: slot in m ==> n[slot] == m[slot]
  }

  lemma PutKept(s: Lru.Store<BlobStore.Slots>, q: RequestId, slot: BlobStore.Slot, blob: Bytes, cap: nat, keep: nat,
      r: RequestId)
    requires Lru.WellFormed(s) && BlobStore.StoredBytes(s) + |blob| <= cap
    ensures var u := BlobStore.Step(s, BlobStore.Put(q, slot, blob), cap, keep);
      && Lru.WellFormed(u) && BlobStore.StoredBytes(u) <= BlobStore.StoredBytes(s) + |blob|
      && Less(BlobsIn(s, r), BlobsIn(u, r)) && slot in BlobsIn(u, q)
  {
    hide BlobStore.Step, BlobStore.StoredBytes, Lru.WellFormed;
    BlobStore.PutFits(s, q, slot, blob, cap, keep);
  }

  lemma RemovalKept(s: Lru.Store<BlobStore.Slots>, q: RequestId, r: RequestId)
    requires Lru.WellFormed(s) && q != r
    ensures var u := Lru.Removed(s, q);
      && Lru.WellFormed(u) && BlobStore.StoredBytes(u) <= BlobStore.StoredBytes(s) && BlobsIn(u, r) == BlobsIn(s, r)
  {
    Lru.TouchedWellFormed(s, q, map[]);
    BlobStore.TouchBytes(s, q);
    assert q !in s.entries ==> s.entries - {q} == s.entries;
  }

  /** The input it brings is held afterwards, with what was held of request r before. */
  lemma InputKept(l: Limits, c: Caches, d: Delivery, outbox: set<Message>, r: RequestId)
    requires Tidy(l, c) && BlobStore.StoredBytes(c.mirror) + InputSize(d) <= l.mirrorBytes
    ensures var u := Taken(l, c, d, outbox, r);
      && Lru.WellFormed(u.mirror) && BlobStore.StoredBytes(u.mirror) <= BlobStore.StoredBytes(c.mirror) + InputSize(d)
      && Less(BlobsIn(c.mirror, r), BlobsIn(u.mirror, r))
      && (d.Arrive? && d.msg.Mirror? && Comes(d, outbox, r) ==>
          BlobStore.Slot(d.msg.key, d.msg.position) in BlobsIn(u.mirror, d.msg.request))
  {
    hide BlobStore.Step, BlobStore.StoredBytes, Lru.WellFormed, AllHold, PushStep;
    if Comes(d, outbox, r) {
      match d
      case Arrive(msg) =>
        if msg.Mirror? {
          PutKept(c.mirror, msg.request, BlobStore.Slot(msg.key, msg.position), msg.blob, l.mirrorBytes, 0, r);
        }
      case Over(q) =>
        RemovalKept(c.mirror, q, r);
    }
  }

  /** In replicate mode the column is held verbatim. */
  lemma ColumnKept(l: Limits, c: Caches, d: Delivery, outbox: set<Message>, r: RequestId)
    requires Tidy(l, c) && BlobStore.StoredBytes(c.replica) + ColumnSize(d) <= l.replicaBytes && l.mode == Replicate
    ensures var u := Taken(l, c, d, outbox, r);
      && Lru.WellFormed(u.replica)
      && BlobStore.StoredBytes(u.replica) <= BlobStore.StoredBytes(c.replica) + ColumnSize(d)
      && Less(BlobsIn(c.replica, r), BlobsIn(u.replica, r))
      && (d.Arrive? && d.msg.KvPush? && Comes(d, outbox, r) ==>
          BlobStore.Slot(d.msg.key, d.msg.slot) in BlobsIn(u.replica, d.msg.request))
  {
    hide BlobStore.Step, BlobStore.StoredBytes, Lru.WellFormed, AllHold, PushStep;
    if Comes(d, outbox, r) {
      match d
      case Arrive(msg) =>
        if msg.KvPush? {
          PutKept(c.replica, msg.request, BlobStore.Slot(msg.key, msg.slot), msg.column, l.replicaBytes, 1, r);
        }
      case Over(q) =>
        RemovalKept(c.replica, q, r);
    }
  }

  /** The stages that have contributed to a slot. */
  ghost function Contributors(c: Caches, r: RequestId, slot: int): set<StageKey> {
    Keys(ContributionsAt(LogsIn(c, r), slot))
  }

  /** In the other modes its stage is among the slot's contributors. */
  lemma PushKept(l: Limits, c: Caches, d: Delivery, outbox: set<Message>, r: RequestId)
    requires Tidy(l, c) && ParityBytes(c) + l.k * ColumnSize(d) <= l.parityBytes && l.mode != Replicate
    ensures var u := Taken(l, c, d, outbox, r);
      && AllHold(u.parity.entries, u.logs, l.k) && ParityBytes(u) <= ParityBytes(c) + l.k * ColumnSize(d)
      && (forall slot :: Contributors(c, r, slot) <= Contributors(u, r, slot))
      && (d.Arrive? && d.msg.KvPush? && Comes(d, outbox, r) ==>
          d.msg.key in Contributors(u, d.msg.request, d.msg.slot))
  {
    if Comes(d, outbox, r) {
      match d
      case Arrive(msg) =>
        if msg.KvPush? {
          PushFolded(l, c, msg.request, msg.slot, Contribution(msg.key, RankOf(l.coeff, msg.key), msg.column), r);
        }
      case Over(q) =>
        TouchedHolds(c.parity, c.logs, l.k, q, LogsIn(c, q)) by {
          LoggedSlots(c.parity, c.logs, l.k, q);
        }
        if q in c.parity.entries {
          Lru.TotalRemove(c.parity.entries, RequestBytes, q);
        } else {
          assert c.parity.entries - {q} == c.parity.entries;
        }
    }
  }

  lemma PushFolded(l: Limits, c: Caches, q: RequestId, slot: nat, push: Contribution, r: RequestId)
    requires Tidy(l, c) && ParityBytes(c) + l.k * |push.column| <= l.parityBytes
    ensures var u := Pushed(l, c, q, slot, push);
      && AllHold(u.parity.entries, u.logs, l.k) && ParityBytes(u) <= ParityBytes(c) + l.k * |push.column|
      && push.key in Contributors(u, q, slot)
      && forall s :: Contributors(c, r, s) <= Contributors(u, r, s)
  {
    var logs := LogsIn(c, q);
    LoggedSlots(c.parity, c.logs, l.k, q);
    PushHolds(c.parity, c.logs, q, slot, push, l.k, l.parityBytes, logs);
    PushFits(c.parity, c.logs, q, slot, push.key, push.column, Scaled(push), l.k, l.parityBytes);
    PushIsLogged(logs, slot, push);
    forall s
      ensures Contributors(c, r, s) <= Contributors(Pushed(l, c, q, slot, push), r, s)
    {
      KeysStay(logs, slot, push, s);
    }
  }

  lemma KeysStay(logs: Logs, slot: int, push: Contribution, s: int)
    ensures var u := PushLog(logs, slot, push, push.key in Keys(ContributionsAt(logs, slot)));
      Keys(ContributionsAt(logs, s)) <= Keys(ContributionsAt(u, s))
  {
    var cs := ContributionsAt(logs, s);
    forall x | x in Keys(cs)
      ensures x in Keys(cs + [push])
    {
      var d :| d in cs && d.key == x;
      assert d in cs + [push];
    }
  }

  // ---------- a row of deliveries ----------

  /** The request's input is among them. */
  ghost predicate BringsInput(ds: seq<Delivery>, outbox: set<Message>, r: RequestId, slot: BlobStore.Slot) {
    exists msg :: msg in outbox && Arrive(msg) in ds && msg.Mirror? && msg.request == r
                  && slot == BlobStore.Slot(msg.key, msg.position)
  }

  ghost predicate BringsColumn(ds: seq<Delivery>, outbox: set<Message>, r: RequestId, key: StageKey, slot: nat) {
    exists msg :: msg in outbox && Arrive(msg) in ds && msg.KvPush? && msg.request == r
                  && key == msg.key && slot == msg.slot
  }

  lemma TakenTidy(l: Limits, c: Caches, d: Delivery, outbox: set<Message>, r: RequestId)
    requires Tidy(l, c)
    ensures Tidy(l, Taken(l, c, d, outbox, r))
  {
    if Comes(d, outbox, r) {
      match d
      case Arrive(msg) =>
        RecordedTidy(l, c, msg);
      case Over(q) =>
        Lru.TouchedWellFormed(c.mirror, q, map[]);
        Lru.TouchedWellFormed(c.replica, q, map[]);
        LoggedSlots(c.parity, c.logs, l.k, q);
        TouchedHolds(c.parity, c.logs, l.k, q, LogsIn(c, q));
    }
  }

  lemma RecordedTidy(l: Limits, c: Caches, msg: Message)
    requires Tidy(l, c)
    ensures Tidy(l, Recorded(l, c, msg))
  {
    match msg
    case Mirror(q, key, position, blob) =>
      StepWellFormed(c.mirror, q, BlobStore.Slot(key, position), blob, l.mirrorBytes, 0);
    case KvPush(q, key, slot, column) =>
      if l.mode == Replicate {
        StepWellFormed(c.replica, q, BlobStore.Slot(key, slot), column, l.replicaBytes, 1);
      } else {
        LoggedSlots(c.parity, c.logs, l.k, q);
        PushHolds(c.parity, c.logs, q, slot, Contribution(key, RankOf(l.coeff, key), column), l.k, l.parityBytes,
          LogsIn(c, q));
      }
  }

  lemma StepWellFormed(s: Lru.Store<BlobStore.Slots>, r: RequestId, slot: BlobStore.Slot, blob: Bytes, cap: nat,
      keep: nat)
    requires Lru.WellFormed(s)
    ensures Lru.WellFormed(BlobStore.Step(s, BlobStore.Put(r, slot, blob), cap, keep))
  {
    var t := Lru.Touched(s, r, map[]);
    Lru.TouchedWellFormed(s, r, map[]);
    Lru.EvictedOutcome(Lru.Updated(t, r, t.entries[r][slot := blob]), BlobStore.RequestBytes, cap, keep);
  }

  /** With room for all inputs in a row of deliveries, all are held afterwards, with what was held before. */
  lemma {:induction false} InputsKept(l: Limits, c: Caches, ds: seq<Delivery>, outbox: set<Message>, r: RequestId)
    requires Tidy(l, c) && BlobStore.StoredBytes(c.mirror) + InputBytes(ds) <= l.mirrorBytes
    ensures var u := AllTaken(l, c, ds, outbox, r);
      && Tidy(l, u) && BlobStore.StoredBytes(u.mirror) <= BlobStore.StoredBytes(c.mirror) + InputBytes(ds)
      && Less(BlobsIn(c.mirror, r), BlobsIn(u.mirror, r))
      && forall slot :: BringsInput(ds, outbox, r, slot) ==> slot in BlobsIn(u.mirror, r)
  {
    hide Taken, BlobStore.StoredBytes, Tidy;
    if ds != [] {
      var n := |ds| - 1;
      var before := AllTaken(l, c, ds[..n], outbox, r);
      InputsKept(l, c, ds[..n], outbox, r);
      InputKept(l, before, ds[n], outbox, r);
      TakenTidy(l, before, ds[n], outbox, r);
      assert forall d :: d in ds ==> d in ds[..n] || d == ds[n];
      forall slot | BringsInput(ds, outbox, r, slot) && !BringsInput(ds[..n], outbox, r, slot)
        ensures slot in BlobsIn(Taken(l, before, ds[n], outbox, r).mirror, r)
      {}
    }
  }

  /** So are all columns, in replicate mode. */
  lemma {:induction false} ColumnsKept(l: Limits, c: Caches, ds: seq<Delivery>, outbox: set<Message>, r: RequestId)
    requires Tidy(l, c) && BlobStore.StoredBytes(c.replica) + ColumnBytes(ds) <= l.replicaBytes && l.mode == Replicate
    ensures var u := AllTaken(l, c, ds, outbox, r);
      && Tidy(l, u) && BlobStore.StoredBytes(u.replica) <= BlobStore.StoredBytes(c.replica) + ColumnBytes(ds)
      && Less(BlobsIn(c.replica, r), BlobsIn(u.replica, r))
      && forall key, slot: nat :: BringsColumn(ds, outbox, r, key, slot) ==>
           BlobStore.Slot(key, slot) in BlobsIn(u.replica, r)
  {
    hide Taken, BlobStore.StoredBytes, Tidy;
    if ds != [] {
      var n := |ds| - 1;
      var before := AllTaken(l, c, ds[..n], outbox, r);
      ColumnsKept(l, c, ds[..n], outbox, r);
      ColumnKept(l, before, ds[n], outbox, r);
      TakenTidy(l, before, ds[n], outbox, r);
      assert forall d :: d in ds ==> d in ds[..n] || d == ds[n];
      forall key, slot: nat | BringsColumn(ds, outbox, r, key, slot) && !BringsColumn(ds[..n], outbox, r, key, slot)
        ensures BlobStore.Slot(key, slot) in BlobsIn(Taken(l, before, ds[n], outbox, r).replica, r)
      {}
    }
  }

  /** And in the other modes every column's stage is among the contributors to its slot. */
  lemma {:induction false} PushesKept(l: Limits, c: Caches, ds: seq<Delivery>, outbox: set<Message>, r: RequestId)
    requires Tidy(l, c) && ParityBytes(c) + l.k * ColumnBytes(ds) <= l.parityBytes && l.mode != Replicate
    ensures var u := AllTaken(l, c, ds, outbox, r);
      && Tidy(l, u) && ParityBytes(u) <= ParityBytes(c) + l.k * ColumnBytes(ds)
      && (forall slot :: Contributors(c, r, slot) <= Contributors(u, r, slot))
      && forall key, slot: nat :: BringsColumn(ds, outbox, r, key, slot) ==> key in Contributors(u, r, slot)
  {
    hide Taken, ParityBytes, Contributors;
    if ds != [] {
      var n := |ds| - 1;
      var before := AllTaken(l, c, ds[..n], outbox, r);
      assert l.k * ColumnBytes(ds) == l.k * ColumnBytes(ds[..n]) + l.k * ColumnSize(ds[n]);
      PushesKept(l, c, ds[..n], outbox, r);
      PushKept(l, before, ds[n], outbox, r);
      TakenTidy(l, before, ds[n], outbox, r);
      assert forall d :: d in ds ==> d in ds[..n] || d == ds[n];
      forall key, slot: nat | BringsColumn(ds, outbox, r, key, slot) && !BringsColumn(ds[..n], outbox, r, key, slot)
        ensures key in Contributors(Taken(l, before, ds[n], outbox, r), r, slot)
      {}
    }
  }
}
