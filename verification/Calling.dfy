/**
 One call of a request's next position: its head input is mirrored, the head is called, and
 the chain does the rest, completing the position or failing at the first stage that is down.
 */
module Calling {
  import opened Types
  import opened ByteStrings
  import opened Reference
  import opened Workforce
  import opened Chains
  import opened ExecutionPlans
  import opened Protocol
  import opened Rewiring
  import opened Rebuild
  import opened Gateway
  import opened Delivering
  import BlobStore

  // ---------- the head's own input ----------

  ghost predicate RestMirrors(t: Task, p: nat, m: BlobStore.Slots) {
    if p == 0 then MirrorsSound(t, 0, 0, m) else MirrorsSound(t, p - 1, t.Stages(), m)
  }

  ghost function WithHeadInput(t: Task, p: nat, m: BlobStore.Slots): BlobStore.Slots {
    BlobStore.Delivered(m, BlobStore.Put(t.request, HeadSlot(t, p), In(t.job, p, 0)), t.request)
  }

  /** Mirroring the head's own input, unless the request is evicted by it. */
  lemma HeadInputArrives(t: Task, p: nat, m: BlobStore.Slots, n: BlobStore.Slots)
    requires t.Valid() && RestMirrors(t, p, m) && (n == map[] || n == WithHeadInput(t, p, m))
    ensures MirrorsSound(t, p, 0, n)
  {
    if n != map[] {
      HeadInputSound(t, p, m);
      HeadInputClosed(t, p, m);
    }
  }

  lemma HeadInputSound(t: Task, p: nat, m: BlobStore.Slots)
    requires t.Valid() && RestMirrors(t, p, m)
    ensures forall x :: x in WithHeadInput(t, p, m) ==> MirrorSound(t, p, 0, x, WithHeadInput(t, p, m)[x])
  {
    MirrorsNext(t, p, m);
    HeadSlotSound(t, p);
  }

  lemma HeadInputClosed(t: Task, p: nat, m: BlobStore.Slots)
    requires t.Valid() && RestMirrors(t, p, m)
    ensures forall q: nat :: q < p && HeadSlot(t, q) in WithHeadInput(t, p, m) ==>
      HeadSlot(t, q + 1) in WithHeadInput(t, p, m)
  {
    hide MirrorsSound, MirrorSound;
    MirrorsNext(t, p, m);
  }

  lemma {:induction false} HeadSlotSound(t: Task, p: nat)
    requires t.Valid()
    ensures MirrorSound(t, p, 0, HeadSlot(t, p), In(t.job, p, 0))
  {
    StageOfKey(t, 0);
  }

  lemma MirrorsNext(t: Task, p: nat, m: BlobStore.Slots)
    requires RestMirrors(t, p, m)
    ensures forall x :: x in m ==> MirrorSound(t, p, 0, x, m[x])
    ensures forall q: nat :: q + 1 < p && HeadSlot(t, q) in m ==> HeadSlot(t, q + 1) in m
  {
    forall x | x in m
      ensures MirrorSound(t, p, 0, x, m[x])
    {
      assert if p == 0 then MirrorSound(t, 0, 0, x, m[x]) else MirrorSound(t, p - 1, t.Stages(), x, m[x]);
    }
  }

  /** What is known between two positions is sound at the start of the next one. */
  lemma RestLater(t: Task, p: nat, s: Snapshot)
    requires RestSound(t, p, s)
    ensures OutboxSound(t, p, 0, s.world.outbox) && ParitySound(t, p, 0, s.parity) && ReplicaSound(t, s.replica)
    ensures RestMirrors(t, p, s.mirrors)
  {
    if p > 0 {
      forall slot | slot in s.parity
        ensures LogSound(t, p, 0, slot, s.parity[slot])
      {
        assert LogSound(t, p - 1, t.Stages(), slot, s.parity[slot]);
        forall c | c in s.parity[slot]
          ensures ContributionSound(t, p, 0, slot, c)
        {
          assert ContributionSound(t, p - 1, t.Stages(), slot, c);
        }
      }
      forall msg | msg in s.world.outbox
        ensures MessageSound(t, p, 0, msg)
      {
        assert MessageSound(t, p - 1, t.Stages(), msg);
      }
    }
  }

  // ---------- the call ----------

  /** Position p is about to be called: its head input is mirrored. */
  ghost predicate Called(t: Task, p: nat, s: Snapshot, wired: Placement) {
    Running(t, s, wired) && KvIs(s.world, t, HoldsOf(wired), p, 0) && Sound(t, p, 0, s)
  }

  ghost function NextDown(p: nat, w: World, wired: Placement): nat {
    FirstDown(w, HoldsOf(wired), 0, p)
  }

  lemma {:induction false} CalledReady(t: Task, p: nat, s: Snapshot, wired: Placement)
    requires Called(t, p, s, wired)
    ensures PassReady(t, s.world, HoldsOf(wired), 0, In(t.job, p, 0), p) && HoldsOf(wired)[0..] == HoldsOf(wired)
    ensures |wired| == t.Stages() > 0 && HoldsOf(wired)[0] == Held(wired[0].device, wired[0].Key())
    ensures wired[0].Key() == t.job.keys[0]
  {
    PlanHoldsDistinct(t, wired);
    var hs := HoldsOf(wired);
    forall j | 0 <= j < |hs|
      ensures HoldsBefore(s.world, t, hs[j], p, j)
    {
      assert HoldsBefore(s.world, t, hs[j], Done(p, 0, j), j);
    }
  }

  /** A call along the wired chain leaves everything off it without KV. */
  lemma {:induction false} SpareStays(t: Task, s: Snapshot, wired: Placement, m: Model, pushKv: bool, call: Call)
    requires t.Valid() && WorldValid(s.world) && SameRanges(wired, t.placement) && wired != []
    requires PlanOk(t, s.plans) && Lags(t, s.plans, wired) && Spare(t, s, wired) && call.request == t.request
    ensures Spare(t, s.(world := ChainCall(s.world, m, pushKv, HoldsOf(wired), call).0), wired)
  {
    var u := s.(world := ChainCall(s.world, m, pushKv, HoldsOf(wired), call).0);
    forall h
      ensures SpareAt(t, u, wired, h)
    {
      assert SpareAt(t, s, wired, h);
      if h !in HoldsOf(wired) {
        ElsewhereSame(s.world, m, pushKv, HoldsOf(wired), call, h);
      }
    }
    forall i | 0 <= i < |wired|
      ensures DriftsEmpty(t, u, wired, i)
    {
      assert DriftsEmpty(t, s, wired, i) && LagsAt(t, s.plans, wired, i) && LawfulAt(s.plans, i);
      if s.plans.plan[i] != wired[i] {
        PlaceOffChain(t, wired, i, s.plans.plan[i]);
        ElsewhereSame(s.world, m, pushKv, HoldsOf(wired), call, HoldsOf(s.plans.plan)[i]);
      }
    }
  }

  /** A call that gets through completes the position. */
  lemma {:induction false} CallThrough(t: Task, p: nat, s: Snapshot, wired: Placement, pushKv: bool)
    requires Called(t, p, s, wired) && HoldsOf(wired) != [] && NextDown(p, s.world, wired) == t.Stages()
    ensures var (u, reply) := ChainCall(s.world, t.job.model, pushKv, HoldsOf(wired), StepCall(t, In(t.job, p, 0), p));
      Answers(t, p, reply) && Completed(t, p, s.(world := u), wired) && Undisturbed(s.world, u)
  {
    hide PlanOk, Lags, Spare, Linked, MirrorsSound, ParitySound, ReplicaSound, RegularAt;
    var hs := HoldsOf(wired);
    CalledReady(t, p, s, wired);
    CallAdvances(t, s.world, pushKv, hs, 0, In(t.job, p, 0), p);
    CallCrashesNobody(t, s.world, pushKv, hs, 0, In(t.job, p, 0), p);
    SpareStays(t, s, wired, t.job.model, pushKv, StepCall(t, In(t.job, p, 0), p));
    var u := ChainCall(s.world, t.job.model, pushKv, hs, StepCall(t, In(t.job, p, 0), p)).0;
    SoundLater(t, p, 0, t.Stages(), s);
    StillWired(t, s.world, u, wired);
  }

  lemma StillWired(t: Task, w: World, u: World, wired: Placement)
    requires Wired(t, w, wired) && OnlyRan(w, u)
    ensures Wired(t, u, wired)
  {
    LinkedFewer(w.nextHops, w.alive, u.alive, HoldsOf(wired));
    forall i | 0 <= i < |wired|
      ensures LoadedAt(u, HoldsOf(wired)[i])
    {
      StillLoaded(w, u, HoldsOf(wired)[i]);
    }
  }

  /** A call that fails blames the stage that is down, and leaves the others as they should be. */
  lemma {:induction false} CallFails(t: Task, p: nat, s: Snapshot, wired: Placement, pushKv: bool)
    requires Called(t, p, s, wired) && HoldsOf(wired) != [] && NextDown(p, s.world, wired) < t.Stages()
    ensures var (u, reply) := ChainCall(s.world, t.job.model, pushKv, HoldsOf(wired), StepCall(t, In(t.job, p, 0), p));
      var v := NextDown(p, s.world, wired);
      reply.Unavailable? && Blames(t, v, wired, wired[0], reply.trailer) && Stricken(t, p, v, s.(world := u), wired)
  {
    hide PlanOk, Lags, Spare, Linked, MirrorsSound, ParitySound, ReplicaSound, RegularAt;
    var hs, v := HoldsOf(wired), NextDown(p, s.world, wired);
    CalledReady(t, p, s, wired);
    CallAdvances(t, s.world, pushKv, hs, 0, In(t.job, p, 0), p);
    SpareStays(t, s, wired, t.job.model, pushKv, StepCall(t, In(t.job, p, 0), p));
    var (u, reply) := ChainCall(s.world, t.job.model, pushKv, hs, StepCall(t, In(t.job, p, 0), p));
    SoundLater(t, p, 0, v, s);
    StillWired(t, s.world, u, wired);
    assert LoadedAt(u, hs[v]) && !Available(u, hs[v]);
    OthersKept(t, p, v, s, wired, u);
  }

  lemma OthersKept(t: Task, p: nat, v: nat, s: Snapshot, wired: Placement, u: World)
    requires KvIs(s.world, t, HoldsOf(wired), p, 0) && Wired(t, u, wired) && v < t.Stages() == |wired|
    requires forall j :: 0 <= j < v ==> HoldsBefore(u, t, HoldsOf(wired)[j], p + 1, j)
    requires forall j :: v <= j < |wired| ==>
      KvAt(u, HoldsOf(wired)[j], t.request) == KvAt(s.world, HoldsOf(wired)[j], t.request)
    ensures forall i :: 0 <= i < t.Stages() && i != v ==> KeptAt(t, p, v, s.(world := u), wired, i)
  {
    forall i | 0 <= i < t.Stages() && i != v
      ensures KeptAt(t, p, v, s.(world := u), wired, i)
    {
      assert HoldsBefore(s.world, t, HoldsOf(wired)[i], Done(p, 0, i), i) && LoadedAt(u, HoldsOf(wired)[i]);
    }
  }

  /** What the call of a position comes to: done everywhere, or stopped at the first stage that is down. */
  ghost predicate CallOutcome(t: Task, p: nat, w: World, u: Snapshot, wired: Placement, reply: Reply) {
    var v := NextDown(p, w, wired);
    if v == t.Stages() then Answers(t, p, reply) && Completed(t, p, u, wired) && Undisturbed(w, u.world)
    else
      && reply.Unavailable? && wired != [] && Blames(t, v, wired, wired[0], reply.trailer)
      && Stricken(t, p, v, u, wired)
  }

  lemma {:induction false} CallComesTo(t: Task, p: nat, s: Snapshot, wired: Placement, pushKv: bool)
    requires Called(t, p, s, wired) && HoldsOf(wired) != [] && WorldValid(s.world)
    ensures var (u, reply) := ChainCall(s.world, t.job.model, pushKv, HoldsOf(wired), StepCall(t, In(t.job, p, 0), p));
      CallOutcome(t, p, s.world, s.(world := u), wired, reply)
  {
    CalledReady(t, p, s, wired);
    if NextDown(p, s.world, wired) == t.Stages() {
      CallThrough(t, p, s, wired, pushKv);
    } else {
      CallFails(t, p, s, wired, pushKv);
    }
  }

  /** Mirroring the head's input is all that stands between ready and called. */
  lemma ReadyIsCalled(t: Task, p: nat, s: Snapshot, wired: Placement, mirrors: BlobStore.Slots)
    requires Ready(t, p, s, wired)
    ensures t.Valid() && RestMirrors(t, p, s.mirrors) && t.Stages() > 0
    ensures MirrorsSound(t, p, 0, mirrors) ==> Called(t, p, s.(mirrors := mirrors), wired)
  {
    hide MirrorsSound, ParitySound, OutboxSound, Wired, Lags;
    assert InDetail(t);
    RestLater(t, p, s);
    var u := s.(mirrors := mirrors);
    forall h
      ensures SpareAt(t, u, wired, h)
    {
      assert SpareAt(t, s, wired, h);
    }
    forall i | 0 <= i < |wired|
      ensures DriftsEmpty(t, u, wired, i)
    {
      assert DriftsEmpty(t, s, wired, i);
    }
  }

  /** Every stage behind the head that the call reaches alive mirrors its input. */
  lemma {:induction false} InputSent(t: Task, p: nat, s: Snapshot, wired: Placement, pushKv: bool, j: nat)
    requires Ready(t, p, s, wired) && WorldValid(s.world) && HoldsOf(wired) != [] && 0 < j < t.Stages() == |wired|
    requires j <= NextDown(p, s.world, wired) && wired[j].device in s.world.alive
    ensures Mirror(t.request, t.job.keys[j], p, In(t.job, p, j)) in
      ChainCall(s.world, t.job.model, pushKv, HoldsOf(wired), StepCall(t, In(t.job, p, 0), p)).0.outbox
  {
    ReadyIsCalled(t, p, s, wired, map[]);
    CalledReady(t, p, s.(mirrors := map[]), wired);
    var hs := HoldsOf(wired);
    var q := PassOf(t, s.world, pushKv, hs, 0, In(t.job, p, 0), p);
    var v := NextDown(p, s.world, wired);
    PassIsReference(t, s.world, pushKv, hs, 0, In(t.job, p, 0), p, j);
    ChainOutcome(q, s.world);
    assert hs[j].key == KeysOf(hs)[j];
    StageOfKey(t, j);
    assert MirrorSent(q, s.world, v, j, MirrorOf(q, j));
  }

  /** A failed call takes only the failed stage's device down. */
  lemma {:induction false} OthersLive(t: Task, p: nat, s: Snapshot, wired: Placement, pushKv: bool)
    requires Ready(t, p, s, wired) && WorldValid(s.world) && HoldsOf(wired) != []
    requires NextDown(p, s.world, wired) < t.Stages() == |wired|
    ensures var u := ChainCall(s.world, t.job.model, pushKv, HoldsOf(wired), StepCall(t, In(t.job, p, 0), p)).0;
      OnlyRan(s.world, u) && s.world.alive - {wired[NextDown(p, s.world, wired)].device} <= u.alive
  {
    ReadyIsCalled(t, p, s, wired, map[]);
    CalledReady(t, p, s.(mirrors := map[]), wired);
    var q := PassOf(t, s.world, pushKv, HoldsOf(wired), 0, In(t.job, p, 0), p);
    PassIsReference(t, s.world, pushKv, HoldsOf(wired), 0, In(t.job, p, 0), p, 0);
    ChainOutcome(q, s.world);
    OnlyVictimDies(q, s.world);
  }

  // ---------- on the gateway ----------

  /** Mirror the head's input where the coordinator is its source. */
  method PrimeMirror(gw: RequestGateway, r: RequestId, key: StageKey, p: nat, blob: Bytes, ghost t: Task)
    requires gw.Valid() && t.Valid() && r == t.request && key == t.job.keys[0] && blob == In(t.job, p, 0)
    requires RestMirrors(t, p, gw.cache.Held(r))
    modifies gw.cache
    ensures gw.Valid() && MirrorsSound(t, p, 0, gw.cache.Held(r))
    ensures gw.Snap(r) == old(gw.Snap(r)).(mirrors := gw.cache.Held(r))
    ensures gw.cache.State() ==
      BlobStore.Step(old(gw.cache.State()), BlobStore.Put(r, BlobStore.Slot(key, p), blob), gw.cache.maxBytes, 0)
  {
    ghost var s, m := gw.cache.State(), gw.cache.Held(r);
    var added := gw.cache.Put(r, key, p, blob);
    HeldAfter(s, BlobStore.Put(r, BlobStore.Slot(key, p), blob), gw.cache.maxBytes, 0, r);
    HeadInputArrives(t, p, m, gw.cache.Held(r));
    gw.OnlyCachesMoved(r);
  }

  /** The call itself. */
  method InvokeHead(fleet: Fleet, r: RequestId, head: Stage, p: nat, blob: Bytes, ghost t: Task, ghost wired: Placement,
      ghost s: Snapshot) returns (reply: Reply)
    requires fleet.Valid() && OnFleet(t, fleet) && r == t.request && fleet.State() == s.world && Called(t, p, s, wired)
    requires wired != [] && head == wired[0] && blob == In(t.job, p, 0)
    modifies fleet.Repr()
    ensures fleet.Valid() && WorldValid(s.world)
    ensures (fleet.State(), reply) ==
      ChainCall(s.world, t.job.model, fleet.pushKv, HoldsOf(wired), StepCall(t, In(t.job, p, 0), p))
  {
    CalledReady(t, p, s, wired);
    assert StepCall(t, blob, p) == Call(r, blob, p == 0, p, false);
    reply := fleet.RunStage(Held(head.device, head.Key()), Call(r, blob, p == 0, p, false), HoldsOf(wired));
  }

  /** Mirror the head's input and call the head; the chain does the rest. */
  method CallHead(gw: RequestGateway, r: RequestId, head: Stage, p: nat, blob: Bytes, ghost t: Task,
      ghost wired: Placement)
    returns (reply: Reply)
    requires gw.Valid() && gw.Serves(t) && r == t.request && Ready(t, p, gw.Snap(r), wired)
    requires wired != [] && head == wired[0] && blob == In(t.job, p, 0)
    modifies gw.fleet.Repr(), gw.cache
    ensures gw.Valid() && gw.plans.State() == old(gw.plans.State()) && WorldValid(old(gw.fleet.State()))
    ensures CallOutcome(t, p, old(gw.fleet.State()), gw.Snap(r), wired, reply)
    ensures gw.cache.State() ==
      BlobStore.Step(old(gw.cache.State()), BlobStore.Put(r, BlobStore.Slot(head.Key(), p), blob), gw.cache.maxBytes, 0)
    ensures (gw.fleet.State(), reply) ==
      ChainCall(old(gw.fleet.State()), t.job.model, gw.fleet.pushKv, HoldsOf(wired), StepCall(t, In(t.job, p, 0), p))
  {
    hide CallOutcome, Called, RestMirrors, MirrorsSound;
    ghost var s := gw.Snap(r);
    ReadyIsCalled(t, p, s, wired, s.mirrors);
    assert head.Key() == t.job.keys[0] by {
      HeadKey(t, p, s, wired);
    }
    PrimeMirror(gw, r, head.Key(), p, blob, t);
    ghost var c := gw.Snap(r);
    ReadyIsCalled(t, p, s, wired, c.mirrors);
    label primed:
    reply := InvokeHead(gw.fleet, r, head, p, blob, t, wired, c);
    gw.OnlyFleetMoved@primed(r);
    CallComesTo(t, p, c, wired, gw.fleet.pushKv);
  }

  lemma HeadKey(t: Task, p: nat, s: Snapshot, wired: Placement)
    requires Ready(t, p, s, wired) && wired != []
    ensures t.Stages() > 0 && wired[0].Key() == t.job.keys[0]
  {
    assert InDetail(t);
    PlanHoldsDistinct(t, wired);
  }
}
