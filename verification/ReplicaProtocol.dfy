/**
 Why the replication gates are exact: complete up to the last slot the victim held and of
 exactly that length, the stored bytes are the victim's columns, all of them and no others.
 */
module ReplicaProtocol {
  import opened Types
  import opened ByteStrings
  import opened KvLayout
  import opened Reference
  import opened Protocol
  import opened BlobStore

  lemma {:induction false} BoundOf(s: set<nat>) returns (top: nat)
    ensures forall x :: x in s ==> x < top
    decreases |s|
  {
    if s == {} {
      top := 0;
    } else {
      var x :| x in s;
      var rest := BoundOf(s - {x});
      top := if x < rest then rest else x + 1;
      assert forall y :: y in s ==> y == x || y in s - {x};
    }
  }

  /** The stored columns joined up to k are the first k fault-free columns. */
  lemma {:induction false} JoinedIsTrue(t: Task, p: nat, v: nat, m: Slots, k: nat)
    requires t.Valid() && 0 < v < t.Stages() && ReplicaSound(t, m) && k <= SlotsBefore(t.job, p)
    requires forall q :: 0 <= q < k ==> Slot(t.job.keys[v], q) in m
    ensures k <= |Before(t.job, p, v)| && Joined(m, t.job.keys[v], 0, k) == Flat(Before(t.job, p, v)[..k])
    decreases k
  {
    BeforeShape(t.job, t.geometry, p, v);
    var kv, key := Before(t.job, p, v), t.job.keys[v];
    if k > 0 {
      JoinedIsTrue(t, p, v, m, k - 1);
      StageOfKey(t, v);
      assert ColumnSound(t, Slot(key, k - 1), m[Slot(key, k - 1)]);
      TrueColumnIs(t, p, v, k - 1);
      assert kv[..k] == kv[..k - 1] + [kv[k - 1]];
      FlatAppend(kv[..k - 1], [kv[k - 1]]);
      assert Flat([kv[k - 1]]) == kv[k - 1] + Flat([]);
    }
  }

  ghost predicate JoinOf(m: Slots, key: StageKey, stored: Bytes) {
    forall top: nat :: (forall p :: p in Positions(m, key) ==> p < top) ==> stored == Joined(m, key, 0, top)
  }

  /**
   Completeness up to the last slot and the byte-length check force the stored positions to
   be exactly those the victim held, and the bytes to be its columns.
   */
  lemma {:induction false} ReplicaExact(t: Task, p: nat, v: nat, m: Slots, stored: Bytes)
    requires t.Valid() && 0 < v < t.Stages() && ReplicaSound(t, m) && JoinOf(m, t.job.keys[v], stored)
    requires forall q :: 0 <= q < SlotsBefore(t.job, p) ==> Slot(t.job.keys[v], q) in m
    requires |stored| == SlotsBefore(t.job, p) * t.geometry.SlotBytes(t.job.keys[v])
    ensures forall q: nat :: q in Positions(m, t.job.keys[v]) <==> q < SlotsBefore(t.job, p)
    ensures Split(stored, SlotsBefore(t.job, p), t.geometry.SlotBytes(t.job.keys[v])) == Before(t.job, p, v)
  {
    var n, key, w := SlotsBefore(t.job, p), t.job.keys[v], t.geometry.SlotBytes(t.job.keys[v]);
    StageOfKey(t, v);
    ColumnsSized(t, v, m);
    var top := BoundOf(Positions(m, key));
    CompleteAndSized(m, key, n, w, top);
    JoinedWhole(t, p, v, m);
  }

  /** Conversely, stored columns that are exactly the victim's have exactly that length. */
  lemma ReplicaWhole(t: Task, p: nat, v: nat, m: Slots, stored: Bytes)
    requires t.Valid() && 0 < v < t.Stages() && ReplicaSound(t, m) && JoinOf(m, t.job.keys[v], stored)
    requires forall q: nat :: q in Positions(m, t.job.keys[v]) <==> q < SlotsBefore(t.job, p)
    ensures |stored| == SlotsBefore(t.job, p) * t.geometry.SlotBytes(t.job.keys[v])
  {
    PositionsAre(m, t.job.keys[v]);
    assert forall q :: 0 <= q < SlotsBefore(t.job, p) ==> q in Positions(m, t.job.keys[v]);
    JoinedWhole(t, p, v, m);
  }

  lemma ColumnsSized(t: Task, v: nat, m: Slots)
    requires t.Valid() && 0 < v < t.Stages() && ReplicaSound(t, m)
    ensures forall slot :: slot in m && slot.key == t.job.keys[v] ==> |m[slot]| == t.geometry.SlotBytes(t.job.keys[v])
  {
    StageOfKey(t, v);
    forall slot | slot in m && slot.key == t.job.keys[v]
      ensures |m[slot]| == t.geometry.SlotBytes(t.job.keys[v])
    {
      assert ColumnSound(t, slot, m[slot]);
      TrueColumnSize(t, v, slot.position);
    }
  }

  lemma {:induction false} JoinedWhole(t: Task, p: nat, v: nat, m: Slots)
    requires t.Valid() && 0 < v < t.Stages() && ReplicaSound(t, m)
    requires forall q :: 0 <= q < SlotsBefore(t.job, p) ==> Slot(t.job.keys[v], q) in m
    ensures var w := t.geometry.SlotBytes(t.job.keys[v]);
      var joined := Joined(m, t.job.keys[v], 0, SlotsBefore(t.job, p));
      |joined| == SlotsBefore(t.job, p) * w && Split(joined, SlotsBefore(t.job, p), w) == Before(t.job, p, v)
  {
    var kv := Before(t.job, p, v);
    JoinedIsTrue(t, p, v, m, SlotsBefore(t.job, p));
    BeforeShape(t.job, t.geometry, p, v);
    assert kv[..|kv|] == kv;
    SplitFlat(kv, t.geometry.SlotBytes(t.job.keys[v]));
  }
}
