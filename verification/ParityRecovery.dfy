/**
 Zero-forward recovery: the victims' KV reconstructed from the parity blobs and the
 survivors' KV, behind gates that fail before anything is touched.
 */
module ParityRecovery {
  import opened Wrappers
  import opened Types
  import opened ByteStrings
  import opened KvLayout
  import opened Reference
  import opened Workers
  import opened Workforce
  import opened Chains
  import opened ExecutionPlans
  import opened Protocol
  import opened ParityFold
  import opened KvParity
  import opened KvReconstruction
  import opened ParityProtocol
  import opened Rewiring
  import opened Reentry
  import opened Rebuild

  // ---------- survivors ----------

  /** The survivors among the first n plan stages. */
  ghost predicate SurvivorsUpTo(t: Task, p: nat, v: nat, lost: set<nat>, surv: seq<Fetched>, idx: seq<nat>, n: nat) {
    && |idx| == |surv|
    && (forall j :: 0 <= j < |surv| ==> SurvivorAt(t, p, v, surv[j], idx[j]) && idx[j] !in lost && idx[j] < n)
    && (forall j, k :: 0 <= j < k < |idx| ==> idx[j] < idx[k])
    && (forall i :: 0 < i < n && i !in lost ==> i in idx)
  }

  lemma LeastStep(surv: seq<Fetched>, g: Geometry, j: nat, least: nat, count: nat)
    requires j < |surv| && (j > 0 ==> LeastCount(surv[..j], g, least))
    requires WholeSlots(surv[j], g) && count == SlotCount(surv[j], g)
    ensures LeastCount(surv[..j + 1], g, if j == 0 || count < least then count else least)
  {
    var a, b := surv[..j], surv[..j + 1];
    assert b[j] == surv[j] && forall i :: 0 <= i < j ==> b[i] == a[i];
    if j > 0 && count >= least {
      var i :| 0 <= i < |a| && WholeSlots(a[i], g) && least == SlotCount(a[i], g);
      assert b[i] == a[i];
    }
  }

  /** Survivors' columns, the shared slot count and the input to resume with: all gates passed. */
  datatype Rescue = Rescue(surv: seq<Fetched>, slots: nat, input: Bytes)

  /** Every stage of the parity group contributed to the slot. */
  ghost predicate SlotComplete(t: Task, logs: Logs, slot: nat) {
    slot in logs && |Keys(logs[slot])| + 1 == |t.placement|
  }

  ghost predicate AllComplete(t: Task, logs: Logs, n: nat) {
    forall slot :: 0 <= slot < n ==> SlotComplete(t, logs, slot)
  }

  /** What passing the gates means: every shared slot is complete, and there are as many as were lost. */
  ghost predicate RescueSound(t: Task, p: nat, v: nat, lost: set<nat>, logs: Logs, e: nat, rescue: Rescue,
      idx: seq<nat>) {
    && ParitySound(t, p, v, logs)
    && Survivors(t, p, v, lost, rescue.surv, idx) && LeastCount(rescue.surv, t.geometry, rescue.slots)
    && rescue.slots == SlotsBefore(t.job, p) > 0
    && AllComplete(t, logs, rescue.slots)
    && e < t.Stages() && rescue.input == In(t.job, p, e)
  }

  /** A rescue comes after the prefill, has every slot, and resumes with the fault-free input. */
  lemma {:induction false} RescueGives(t: Task, p: nat, v: nat, lost: set<nat>, logs: Logs, e: nat, rescue: Rescue,
      idx: seq<nat>)
    requires RescueSound(t, p, v, lost, logs, e, rescue, idx)
    ensures p > 0 && e < t.Stages() && rescue.slots == SlotsBefore(t.job, p) && rescue.input == In(t.job, p, e)
  {}

  // ---------- two victims ----------

  /** Exactly the stages x < y of the parity group are dead. */
  ghost predicate OnlyDead(t: Task, dead: set<DeviceId>, x: nat, y: nat) {
    && 0 < x < y < t.Stages() <= |t.placement|
    && forall i :: 0 < i < t.Stages() ==> (t.placement[i].device in dead <==> i == x || i == y)
  }

  /**
   Re-entering the chain at the upstream victim is sound: no live stage lies between it
   and the stage the failed call stopped at.
   */
  predicate Reenterable(x: nat, y: nat, v: nat) {
    v == x || (v == y && y == x + 1)
  }

  /** Both victims' KV is back. */
  ghost predicate RebuiltBoth(t: Task, w: World, u: World, hs: seq<Held>, x: nat, y: nat, p: nat) {
    && x < |hs| == t.Stages() && y < |hs| && WorldValid(u) && Undisturbed(w, u) && u.outbox == w.outbox
    && (forall h :: h != hs[x] && h != hs[y] ==> KvAt(u, h, t.request) == KvAt(w, h, t.request))
    && (p > 0 ==> HoldsBefore(u, t, hs[x], p, x) && HoldsBefore(u, t, hs[y], p, y))
  }

  /** The dead stages of the parity group and where they are placed, in layer order. */
  ghost predicate DeadGroup(placement: Placement, dead: set<DeviceId>, stages: seq<Stage>, at: seq<nat>, n: nat)
    requires n <= |placement|
  {
    && |at| == |stages|
    && (forall j :: 0 <= j < |at| ==> at[j] < n && placement[at[j]] == stages[j])
    && (forall j :: 0 <= j < |at| ==> stages[j].start > 1 && stages[j].device in dead)
    && (forall j, k :: 0 <= j < k < |at| ==> at[j] < at[k])
    && (forall i :: 0 <= i < n && placement[i].start > 1 && placement[i].device in dead ==> i in at)
  }

  lemma DeadPair(t: Task, s: Plans, dead: seq<Stage>, at: seq<nat>)
    requires t.Valid() && s.placement == t.placement && DeadGroup(s.placement, s.dead, dead, at, |s.placement|)
    requires |at| == 2
    ensures OnlyDead(t, s.dead, at[0], at[1]) && dead[0] == t.placement[at[0]] && dead[1] == t.placement[at[1]]
  {
    StageOfKey(t, at[0]);
    forall i | 0 < i < t.Stages()
      ensures t.placement[i].device in s.dead <==> i == at[0] || i == at[1]
    {
      StageOfKey(t, i);
      assert at == [at[0], at[1]];
      assert t.placement[at[0]] == dead[0] && t.placement[at[1]] == dead[1];
    }
  }

  lemma RebuiltTwice(t: Task, w: World, m: World, u: World, hs: seq<Held>, x: nat, y: nat, p: nat)
    requires x < |hs| && y < |hs| && hs[x] != hs[y] && RebuiltAlone(t, w, m, hs, x, p)
    requires RebuiltAlone(t, m, u, hs, y, p)
    ensures RebuiltBoth(t, w, u, hs, x, y, p)
  {
    forall h | h != hs[x] && h != hs[y]
      ensures KvAt(u, h, t.request) == KvAt(w, h, t.request)
    {
      assert KvAt(m, h, t.request) == KvAt(w, h, t.request);
    }
    assert KvAt(u, hs[x], t.request) == KvAt(m, hs[x], t.request);
  }

  /** All stages but the two victims run where they are wired. */
  ghost predicate OthersStand(plan: Placement, wired: Placement, x: nat, y: nat) {
    |plan| == |wired| && forall i :: 0 <= i < |plan| && i != x && i != y ==> plan[i] == wired[i]
  }

  /** What the stages that were not rebuilt hold when the chain is re-entered. */
  lemma BothOthers(t: Task, p: nat, v: nat, s: Snapshot, wired: Placement, mid: World, x: nat, y: nat, i: nat)
    requires Substituted(t, p, v, s, wired) && |s.plans.plan| == |wired| == t.Stages()
    requires OthersStand(s.plans.plan, wired, x, y)
    requires x < t.Stages() && y < t.Stages() && v in {x, y} && i < t.Stages() && i != x && i != y
    requires RebuiltBoth(t, s.world, mid, HoldsOf(s.plans.plan), x, y, p)
    ensures HoldsBefore(mid, t, HoldsOf(s.plans.plan)[i], Done(p, v, i), i) && LoadedAt(mid, HoldsOf(s.plans.plan)[i])
  {
    StrickenShape(t, p, v, s, wired);
    var hs := HoldsOf(s.plans.plan);
    assert hs[i] != hs[x] && hs[i] != hs[y];
    SettledAt(t, p, v, s, wired, i);
    StillLoaded(s.world, mid, hs[i]);
  }

  lemma {:induction false} BothReady(t: Task, p: nat, v: nat, s: Snapshot, wired: Placement, mid: World, x: nat, y: nat)
    requires Substituted(t, p, v, s, wired) && p > 0 && |s.plans.plan| == |wired| == t.Stages()
    requires OthersStand(s.plans.plan, wired, x, y) && x < y < t.Stages() && Reenterable(x, y, v)
    requires RebuiltBoth(t, s.world, mid, HoldsOf(s.plans.plan), x, y, p)
    ensures PlanReady(t, p, x, s.(world := mid), In(t.job, p, x))
  {
    var hs := HoldsOf(s.plans.plan);
    forall i | 0 <= i < |hs|
      ensures HoldsBefore(mid, t, hs[i], if i < x then p + 1 else p, i) && (i < x ==> LoadedAt(mid, hs[i]))
    {
      if i != x && i != y {
        BothOthers(t, p, v, s, wired, mid, x, y, i);
      }
    }
    assert hs[x] in hs && hs[y] in hs;
    ReadyWhenRebuilt(t, p, v, x, s, wired, mid);
  }

  /**
   The exact outcome of re-entering at the upstream one of two rebuilt victims: fault-free
   exactly if no stage between it and the failure has done the position already.
   */
  lemma BothOutcome(t: Task, p: nat, v: nat, s: Snapshot, wired: Placement, mid: World, u: World, pushKv: bool, x: nat,
      y: nat, reply: Reply)
    requires Substituted(t, p, v, s, wired) && p > 0 && |s.plans.plan| == |wired| == t.Stages() && v in {x, y}
    requires OthersStand(s.plans.plan, wired, x, y) && x < y < t.Stages()
    requires RebuiltBoth(t, s.world, mid, HoldsOf(s.plans.plan), x, y, p)
    requires LiveRun(t, p, x, mid, u, pushKv, HoldsOf(s.plans.plan), reply) && !reply.Unavailable?
    ensures Reenterable(x, y, v) ==> Answers(t, p, reply) && Completed(t, p, s.(world := u), s.plans.plan)
    ensures !Reenterable(x, y, v) ==> !KvIs(u, t, HoldsOf(s.plans.plan), p, t.Stages())
  {
    if Reenterable(x, y, v) {
      BothReady(t, p, v, s, wired, mid, x, y);
      PlanPass(t, p, x, s.(world := mid), In(t.job, p, x), pushKv);
    } else {
      DoneTwice(t, p, v, s, wired, mid, u, pushKv, x, y, reply);
    }
  }

  /** The stage behind the upstream victim does the position twice. */
  lemma DoneTwice(t: Task, p: nat, v: nat, s: Snapshot, wired: Placement, mid: World, u: World, pushKv: bool, x: nat,
      y: nat, reply: Reply)
    requires Substituted(t, p, v, s, wired) && p > 0 && |s.plans.plan| == |wired| == t.Stages() && v == y
    requires OthersStand(s.plans.plan, wired, x, y) && x + 1 < y < t.Stages()
    requires RebuiltBoth(t, s.world, mid, HoldsOf(s.plans.plan), x, y, p)
    requires LiveRun(t, p, x, mid, u, pushKv, HoldsOf(s.plans.plan), reply) && !reply.Unavailable?
    ensures !HoldsBefore(u, t, HoldsOf(s.plans.plan)[x + 1], p + 1, x + 1)
  {
    hide Stricken, Linked, RegularAt, Regular, Pipeline, In, Before;
    var z, hs := x + 1, HoldsOf(s.plans.plan);
    StrickenShape(t, p, v, s, wired);
    BothOthers(t, p, v, s, wired, mid, x, y, z);
    BeforeShape(t.job, t.geometry, p, z);
    BeforeShape(t.job, t.geometry, p + 1, z);
    GetsThrough(mid, t.job.model, pushKv, hs, x, StepCall(t, In(t.job, p, x), p));
    WrongStaysWrong(t, mid, pushKv, hs, x, p, z);
  }

  // ---------- gates ----------

  /** The stage's worker answers and has KV of the request. */
  ghost predicate Fetchable(w: World, h: Held, r: RequestId) {
    h.device in w.alive && h.device in w.runners && CacheKey(r, h.key) in w.runners[h.device].kv
  }

  ghost predicate AllFetchable(t: Task, w: World, hs: seq<Held>, lost: set<nat>, n: nat) {
    n <= |hs| && forall i :: 0 < i < n && i !in lost ==> Fetchable(w, hs[i], t.request)
  }

  /** What a fetched buffer says of the plan stage it came from. */
  ghost predicate FetchedFrom(t: Task, s: Snapshot, i: nat, f: Fetched) {
    && i < t.Stages() == |s.plans.plan| && f.key == t.job.keys[i]
    && var kv := KvAt(s.world, HoldsOf(s.plans.plan)[i], t.request);
      && Sized(kv, f.key, t.geometry) && f.buf == SlotMajorToLayerMajor(kv, t.geometry.Lanes(f.key), t.geometry.row)
  }

  method FetchOne(fleet: Fleet, stage: Stage, r: RequestId, ghost t: Task, ghost i: nat, ghost s: Snapshot)
      returns (f: Option<Fetched>)
    requires fleet.Valid() && OnFleet(t, fleet) && r == t.request && fleet.State() == s.world
    requires i < t.Stages() == |s.plans.plan| && stage == s.plans.plan[i] && stage.Key() == t.job.keys[i]
    ensures f.Some? ==> FetchedFrom(t, s, i, f.value)
    ensures f.Some? <==> Fetchable(s.world, HoldsOf(s.plans.plan)[i], r)
  {
    assert HoldsOf(s.plans.plan)[i] == Held(stage.device, stage.Key());
    var buf := fleet.FetchKv(Held(stage.device, stage.Key()), r);
    f := if buf.None? then None else Some(Fetched(stage.Key(), buf.value));
  }

  /** What has been gathered from the first n plan stages. */
  ghost predicate Gathered(t: Task, s: Snapshot, lost: set<nat>, surv: seq<Fetched>, idx: seq<nat>, n: nat) {
    forall u {:trigger InDetail(u)} :: InDetail(u) ==> GatheredTo(t, s, lost, surv, idx, n)
  }

  ghost predicate GatheredTo(t: Task, s: Snapshot, lost: set<nat>, surv: seq<Fetched>, idx: seq<nat>, n: nat) {
    && |idx| == |surv| && AllFetchable(t, s.world, HoldsOf(s.plans.plan), lost, n)
    && (forall j :: 0 <= j < |surv| ==> FetchedFrom(t, s, idx[j], surv[j]) && idx[j] !in lost && 0 < idx[j] < n)
    && (forall j, k :: 0 <= j < k < |idx| ==> idx[j] < idx[k])
    && (forall i :: 0 < i < n && i !in lost ==> i in idx)
  }

  lemma GatherNext(t: Task, s: Snapshot, lost: set<nat>, surv: seq<Fetched>, idx: seq<nat>, n: nat, f: Option<Fetched>)
    requires Gathered(t, s, lost, surv, idx, n) && n < |HoldsOf(s.plans.plan)|
    requires if f.None? then n == 0 || n in lost
      else && FetchedFrom(t, s, n, f.value) && n > 0 && n !in lost
           && Fetchable(s.world, HoldsOf(s.plans.plan)[n], t.request)
    ensures if f.None? then Gathered(t, s, lost, surv, idx, n + 1)
      else Gathered(t, s, lost, surv + [f.value], idx + [n], n + 1)
  {
    assert InDetail(t);
    if f.Some? {
      forall i | 0 < i < n + 1 && i !in lost
        ensures i in idx + [n]
      {
        assert i < n ==> i in idx;
      }
    }
  }

  /** Whether a plan stage is one to fetch from: not the head, and not lost. */
  lemma ToFetch(t: Task, s: Plans, lostKeys: set<StageKey>, lost: set<nat>, i: nat)
    requires t.Valid() && PlanOk(t, s) && i < t.Stages()
    requires forall i :: 0 <= i < t.Stages() ==> (t.job.keys[i] in lostKeys <==> i in lost)
    ensures |s.plan| == t.Stages() && s.plan[i].Key() == t.job.keys[i]
    ensures s.plan[i].start > 1 && s.plan[i].Key() !in lostKeys <==> i > 0 && i !in lost
  {
    PlanShape(t, s);
    StageOfKey(t, i);
  }

  /** Fetch the KV of every non-head stage outside the lost ranges; all or none. */
  method FetchSurvivors(fleet: Fleet, plan: Placement, lostKeys: set<StageKey>, r: RequestId, ghost t: Task,
      ghost lost: set<nat>, ghost s: Snapshot) returns (surv: Option<seq<Fetched>>, ghost idx: seq<nat>)
    requires fleet.Valid() && OnFleet(t, fleet) && r == t.request && fleet.State() == s.world && plan == s.plans.plan
    requires t.Valid() && PlanOk(t, s.plans) && |plan| == t.Stages()
    requires forall i :: 0 <= i < t.Stages() ==> (t.job.keys[i] in lostKeys <==> i in lost)
    ensures surv.Some? ==> Gathered(t, s, lost, surv.value, idx, t.Stages())
    ensures surv.Some? <==> AllFetchable(t, s.world, HoldsOf(s.plans.plan), lost, t.Stages())
  {
    var fetched: seq<Fetched> := [];
    idx := [];
    assert Gathered(t, s, lost, fetched, idx, 0);
    for i := 0 to |plan|
      invariant fleet.Valid() && fleet.State() == s.world && Gathered(t, s, lost, fetched, idx, i)
    {
      ToFetch(t, s.plans, lostKeys, lost, i);
      if plan[i].start > 1 && plan[i].Key() !in lostKeys {
        var f := FetchOne(fleet, plan[i], r, t, i, s);
        if f.None? {
          return None, [];
        }
        GatherNext(t, s, lost, fetched, idx, i, f);
        fetched, idx := fetched + [f.value], idx + [i];
      } else {
        GatherNext(t, s, lost, fetched, idx, i, None);
      }
    }
    surv := Some(fetched);
    AllGathered(t, s, lost, fetched, idx);
  }

  lemma AllGathered(t: Task, s: Snapshot, lost: set<nat>, surv: seq<Fetched>, idx: seq<nat>)
    requires Gathered(t, s, lost, surv, idx, t.Stages())
    ensures AllFetchable(t, s.world, HoldsOf(s.plans.plan), lost, t.Stages())
  {
    assert InDetail(t);
  }

  /** Whole buffers, none empty, no two more than one slot apart. */
  ghost predicate Aligned(surv: seq<Fetched>, g: Geometry) {
    && (forall j :: 0 <= j < |surv| ==> WholeSlots(surv[j], g) && SlotCount(surv[j], g) > 0)
    && forall j, k :: 0 <= j < |surv| && 0 <= k < |surv| ==> SlotCount(surv[j], g) <= SlotCount(surv[k], g) + 1
  }

  /** The slots all survivors share, if their buffers are whole and at most one slot apart. */
  method SharedSlots(surv: seq<Fetched>, g: Geometry) returns (n: Option<nat>)
    requires surv != []
    ensures n.Some? ==> n.value > 0 && LeastCount(surv, g, n.value)
    ensures n.Some? <==> Aligned(surv, g)
  {
    var least: nat, most: nat := 0, 0;
    for j := 0 to |surv|
      invariant j > 0 ==> LeastCount(surv[..j], g, least)
      invariant forall i :: 0 <= i < j ==> WholeSlots(surv[i], g) && least <= SlotCount(surv[i], g) <= most
      invariant j > 0 ==> exists i :: 0 <= i < j && SlotCount(surv[i], g) == most
      invariant j > 0 ==> exists i :: 0 <= i < j && SlotCount(surv[i], g) == least
    {
      var size := g.SlotBytes(surv[j].key);
      if size == 0 || |surv[j].buf| % size != 0 {
        assert !WholeSlots(surv[j], g);
        return None;
      }
      assert WholeSlots(surv[j], g);
      var count := SlotCount(surv[j], g);
      LeastStep(surv, g, j, least, count);
      least := if j == 0 || count < least then count else least;
      most := if j == 0 || count > most then count else most;
    }
    assert surv[..|surv|] == surv;
    n := if most - least > 1 || least == 0 then None else Some(least);
  }

  /** Whether every slot has all its contributors. */
  method SlotsComplete(parity: ParityCache, r: RequestId, n: nat, ghost t: Task) returns (ok: bool)
    requires parity.Valid() && |t.placement| == parity.numStages + 1
    ensures ok <==> AllComplete(t, parity.LogOf(r), n)
  {
    for slot := 0 to n
      invariant forall i :: 0 <= i < slot ==> SlotComplete(t, parity.LogOf(r), i)
    {
      if r in parity.entries {
        parity.EntryHolds(r, slot);
      }
      var complete := parity.IsComplete(r, slot);
      if !complete {
        assert !SlotComplete(t, parity.LogOf(r), slot);
        return false;
      }
    }
    ok := true;
  }

  /** The slots all survivors share: those of position p - 1, if one of them has yet to do p. */
  ghost function SharedCount(t: Task, p: nat, v: nat, lost: set<nat>): nat {
    if exists i :: v < i < t.Stages() && i !in lost then SlotsBefore(t.job, p) else SlotsBefore(t.job, p + 1)
  }

  /** Every non-head stage that is not lost runs where it is wired. */
  ghost predicate SurvivorsStand(t: Task, plan: Placement, wired: Placement, lost: set<nat>) {
    |plan| == |wired| == t.Stages() && forall i :: 0 < i < t.Stages() && i !in lost ==> plan[i] == wired[i]
  }

  /**
   The gates: every survivor answers and runs where it is wired, there is one, they share
   slots, and every shared slot is complete.
   */
  ghost predicate GatesOpen(t: Task, p: nat, v: nat, lost: set<nat>, s: Snapshot, wired: Placement) {
    && AllFetchable(t, s.world, HoldsOf(s.plans.plan), lost, t.Stages())
    && (exists i :: 0 < i < t.Stages() && i !in lost)
    && SurvivorsStand(t, s.plans.plan, wired, lost) && SharedCount(t, p, v, lost) > 0
    && AllComplete(t, s.parity, SharedCount(t, p, v, lost))
  }

  /** Open gates for two victims mean that every other stage runs where it is wired. */
  lemma GatesStand(t: Task, p: nat, v: nat, x: nat, y: nat, s: Snapshot, wired: Placement)
    requires Stricken(t, p, v, s, wired) && 0 < |t.placement| == t.Stages() && t.placement[0].device !in s.plans.dead
    requires GatesOpen(t, p, v, {x, y}, s, wired)
    ensures OthersStand(s.plans.plan, wired, x, y)
  {
    assert InDetail(t);
    assert LagsAt(t, s.plans, wired, 0) && LawfulAt(s.plans, 0);
  }

  /** A survivor that runs where it is wired has the columns it should; one that does not has none. */
  lemma SurvivorStands(t: Task, p: nat, v: nat, s: Snapshot, wired: Placement, f: Fetched, i: nat)
    requires Stricken(t, p, v, s, wired) && 0 < i < t.Stages() == |wired| == |s.plans.plan|
    requires FetchedFrom(t, s, i, f) && Fetchable(s.world, HoldsOf(s.plans.plan)[i], t.request)
    ensures s.plans.plan[i] == wired[i] ==> i != v && SurvivorAt(t, p, v, f, i)
    ensures s.plans.plan[i] != wired[i] ==> WholeSlots(f, t.geometry) && SlotCount(f, t.geometry) == 0
  {
    assert InDetail(t);
    if s.plans.plan[i] != wired[i] {
      DriftedAt(t, p, v, s, wired, i);
      ExportedBytes(t, i, f, []);
    } else {
      assert i != v;
      SettledAt(t, p, v, s, wired, i);
    }
  }

  /** Buffers that are aligned come from survivors that all run where they are wired. */
  lemma AlignedStand(t: Task, p: nat, v: nat, lost: set<nat>, s: Snapshot, wired: Placement, surv: seq<Fetched>,
      idx: seq<nat>)
    requires Stricken(t, p, v, s, wired) && t.Valid() && v < t.Stages() == |wired| == |s.plans.plan|
    requires Gathered(t, s, lost, surv, idx, t.Stages())
    requires Aligned(surv, t.geometry) || SurvivorsStand(t, s.plans.plan, wired, lost)
    ensures SurvivorsStand(t, s.plans.plan, wired, lost) && (v in lost || v == 0)
    ensures SurvivorsUpTo(t, p, v, lost, surv, idx, t.Stages())
  {
    assert InDetail(t);
    forall j | 0 <= j < |surv|
      ensures s.plans.plan[idx[j]] == wired[idx[j]] && idx[j] != v && SurvivorAt(t, p, v, surv[j], idx[j])
    {
      SurvivorStands(t, p, v, s, wired, surv[j], idx[j]);
    }
  }

  /** Where the protocol leaves the survivors, each has the slots of the positions it has done. */
  ghost predicate CountsAre(t: Task, p: nat, v: nat, surv: seq<Fetched>, idx: seq<nat>) {
    |idx| == |surv| && forall j :: 0 <= j < |surv| ==>
      WholeSlots(surv[j], t.geometry) && SlotCount(surv[j], t.geometry) == SlotsBefore(t.job, Done(p, v, idx[j]))
  }

  lemma SurvivorCounts(t: Task, p: nat, v: nat, lost: set<nat>, surv: seq<Fetched>, idx: seq<nat>, n: nat)
    requires t.Valid() && SurvivorsUpTo(t, p, v, lost, surv, idx, n)
    ensures CountsAre(t, p, v, surv, idx)
  {
    forall j | 0 <= j < |surv|
      ensures WholeSlots(surv[j], t.geometry)
      ensures SlotCount(surv[j], t.geometry) == SlotsBefore(t.job, Done(p, v, idx[j]))
    {
      SurvivorShape(t, p, v, surv[j], idx[j]);
    }
  }

  /** The least count, and whether all counts are aligned, depend on whether a survivor has yet to do p. */
  lemma SurvivorsAlign(t: Task, p: nat, v: nat, lost: set<nat>, surv: seq<Fetched>, idx: seq<nat>)
    requires CountsAre(t, p, v, surv, idx) && surv != [] && v !in idx
    requires forall i :: i in idx <==> 0 < i < t.Stages() && i !in lost
    requires v in lost || v == 0
    ensures Aligned(surv, t.geometry) <==> SharedCount(t, p, v, lost) > 0
    ensures forall n :: LeastCount(surv, t.geometry, n) ==> n == SharedCount(t, p, v, lost)
  {
    var k := SharedCount(t, p, v, lost);
    SomeSurvivorHas(t, p, v, lost, surv, idx);
    var j :| 0 <= j < |surv| && SlotCount(surv[j], t.geometry) == k;
    forall i | 0 <= i < |surv|
      ensures k <= SlotCount(surv[i], t.geometry) && (k > 0 ==> SlotCount(surv[i], t.geometry) <= k + 1)
    {
      assert idx[i] in idx;
    }
  }

  lemma SomeSurvivorHas(t: Task, p: nat, v: nat, lost: set<nat>, surv: seq<Fetched>, idx: seq<nat>)
    requires CountsAre(t, p, v, surv, idx) && surv != [] && v !in idx
    requires forall i :: i in idx <==> 0 < i < t.Stages() && i !in lost
    ensures exists j :: 0 <= j < |surv| && SlotCount(surv[j], t.geometry) == SharedCount(t, p, v, lost)
  {
    if i :| v < i < t.Stages() && i !in lost {
      assert i in idx;
      var j :| 0 <= j < |idx| && idx[j] == i;
      assert SlotCount(surv[j], t.geometry) == SlotsBefore(t.job, p);
    } else {
      assert idx[0] in idx && idx[0] < v;
      assert SlotCount(surv[0], t.geometry) == SlotsBefore(t.job, p + 1);
    }
  }

  /** What gathered buffers are worth: aligned exactly if the survivors stand and share slots. */
  lemma GatheredAlign(t: Task, p: nat, v: nat, lost: set<nat>, s: Snapshot, wired: Placement, surv: seq<Fetched>,
      idx: seq<nat>)
    requires Stricken(t, p, v, s, wired) && Gathered(t, s, lost, surv, idx, t.Stages()) && surv != []
    ensures Aligned(surv, t.geometry) <==>
      SurvivorsStand(t, s.plans.plan, wired, lost) && SharedCount(t, p, v, lost) > 0
    ensures Aligned(surv, t.geometry) ==> SurvivorsUpTo(t, p, v, lost, surv, idx, t.Stages()) && (v in lost || v == 0)
    ensures Aligned(surv, t.geometry) ==>
      forall n :: LeastCount(surv, t.geometry, n) ==> n == SharedCount(t, p, v, lost)
    ensures exists i :: 0 < i < t.Stages() && i !in lost
  {
    StrickenShape(t, p, v, s, wired);
    assert InDetail(t);
    assert idx[0] !in lost && 0 < idx[0] < t.Stages();
    if Aligned(surv, t.geometry) || SurvivorsStand(t, s.plans.plan, wired, lost) {
      AlignedStand(t, p, v, lost, s, wired, surv, idx);
      SurvivorCounts(t, p, v, lost, surv, idx, t.Stages());
      SurvivorsAlign(t, p, v, lost, surv, idx);
    }
  }

  lemma NobodyGathered(t: Task, s: Snapshot, lost: set<nat>, surv: seq<Fetched>, idx: seq<nat>)
    requires Gathered(t, s, lost, surv, idx, t.Stages())
    ensures surv == [] ==> forall i :: 0 < i < t.Stages() ==> i in lost
  {
    assert InDetail(t);
  }

  /** Survivors reachable and aligned, and every shared slot complete. */
  method AlignedSurvivors(fleet: Fleet, parity: ParityCache, plan: Placement, lostKeys: set<StageKey>, r: RequestId,
      ghost t: Task, ghost p: nat, ghost v: nat, ghost lost: set<nat>, ghost s: Snapshot, ghost wired: Placement)
      returns (surv: seq<Fetched>, n: nat, ghost idx: seq<nat>)
    requires fleet.Valid() && OnFleet(t, fleet) && r == t.request && fleet.State() == s.world && plan == s.plans.plan
    requires Stricken(t, p, v, s, wired) && parity.Valid() && parity.LogOf(r) == s.parity
    requires |t.placement| == parity.numStages + 1
    requires forall i :: 0 <= i < t.Stages() ==> (t.job.keys[i] in lostKeys <==> i in lost)
    ensures n > 0 ==> SurvivorsUpTo(t, p, v, lost, surv, idx, t.Stages()) && LeastCount(surv, t.geometry, n)
    ensures n > 0 ==> (v in lost || v == 0) && AllComplete(t, s.parity, n)
    ensures n > 0 <==> GatesOpen(t, p, v, lost, s, wired)
  {
    hide AllComplete, Aligned, LeastCount, SurvivorsUpTo, SharedCount, SurvivorsStand, AllFetchable;
    StrickenShape(t, p, v, s, wired);
    var fetched;
    fetched, idx := FetchSurvivors(fleet, plan, lostKeys, r, t, lost, s);
    if fetched.None? {
      return [], 0, [];
    }
    NobodyGathered(t, s, lost, fetched.value, idx);
    if fetched.value == [] {
      return [], 0, [];
    }
    GatheredAlign(t, p, v, lost, s, wired, fetched.value, idx);
    var shared := SharedSlots(fetched.value, fleet.geometry);
    if shared.None? {
      return [], 0, [];
    }
    var complete := SlotsComplete(parity, r, shared.value, t);
    if !complete {
      return [], 0, [];
    }
    surv, n := fetched.value, shared.value;
  }

  /** Passed gates mean the least slot count is exactly what the victims held. */
  lemma {:induction false} GatesSuffice(t: Task, p: nat, v: nat, lost: set<nat>, logs: Logs, e: nat, rescue: Rescue,
      idx: seq<nat>)
    requires t.Valid() && 0 < v < t.Stages() && ParitySound(t, p, v, logs)
    requires SurvivorsUpTo(t, p, v, lost, rescue.surv, idx, t.Stages())
    requires LeastCount(rescue.surv, t.geometry, rescue.slots) && rescue.slots > 0
    requires AllComplete(t, logs, rescue.slots)
    requires e < t.Stages() && rescue.input == In(t.job, p, e)
    ensures RescueSound(t, p, v, lost, logs, e, rescue, idx)
  {
    var n := rescue.slots;
    assert SlotComplete(t, logs, n - 1);
    SharedSlotsAreLost(t, p, v, lost, rescue.surv, idx, n, logs[n - 1]);
  }

  /**
   A victim with no survivor behind it always trips the completeness gate: the survivors
   before it are one position ahead, and it never sent the slots of that position.
   */
  lemma LastVictimTripsGate(t: Task, p: nat, v: nat, lost: set<nat>, s: Snapshot, wired: Placement)
    requires t.Valid() && 0 < v < t.Stages() && ParitySound(t, p, v, s.parity)
    requires forall i :: v < i < t.Stages() ==> i in lost
    ensures !GatesOpen(t, p, v, lost, s, wired)
  {
    var n := SharedCount(t, p, v, lost);
    if GatesOpen(t, p, v, lost, s, wired) {
      assert SlotComplete(t, s.parity, n - 1);
      SlotIsHeld(t, p, v, n - 1, s.parity[n - 1], v);
    }
  }

  /** Behind the gates the reconstruction has everything it needs. */
  lemma ReadyToRebuild(parity: ParityCache, coeff: map<StageKey, nat>, t: Task, p: nat, v: nat, lost: seq<nat>, e: nat,
      rescue: Rescue, idx: seq<nat>)
    requires parity.Valid() && Group(t, parity, coeff) && LostOrder(t, lost)
    requires RescueSound(t, p, v, SetOf(lost), parity.LogOf(t.request), e, rescue, idx)
    ensures Rebuildable(parity, t.request, LostStages(t, p, lost), rescue.surv, coeff, rescue.slots, t.geometry)
    ensures forall j :: 0 <= j < |lost| ==> Shaped(LostStage(t, p, lost[j]), rescue.slots, t.geometry)
  {
    var r, n, g, ls := t.request, rescue.slots, t.geometry, LostStages(t, p, lost);
    forall j | 0 <= j < |lost|
      ensures Shaped(LostStage(t, p, lost[j]), n, g)
    {
      LostShaped(t, p, lost[j]);
    }
    forall slot | 0 <= slot < n
      ensures SlotReady(parity, r, ls, KnownOf(rescue.surv, g), coeff, slot)
    {
      assert SlotComplete(t, parity.LogOf(r), slot);
      parity.EntryHolds(r, slot);
      SlotExplained(t, p, v, lost, rescue.surv, idx, coeff, slot, parity.LogAt(r, slot));
    }
  }

  // ---------- reconstruction ----------

  ghost predicate Group(t: Task, parity: ParityCache, coeff: map<StageKey, nat>) {
    t.Valid() && |t.placement| == parity.numStages + 1 && Ranked(t, coeff)
  }

  /** The victim's own KV bytes, from P and the survivors. */
  method ReconstructOne(parity: ParityCache, coeff: map<StageKey, nat>, deadKey: StageKey, rescue: Rescue, g: Geometry,
      r: RequestId, ghost t: Task, ghost p: nat, ghost v: nat, ghost idx: seq<nat>) returns (bytes: Bytes)
    requires Group(t, parity, coeff) && g == t.geometry && r == t.request && 0 < v < t.Stages()
    requires deadKey == t.job.keys[v]
    requires parity.Valid() && RescueSound(t, p, v, {v}, parity.LogOf(r), v, rescue, idx)
    ensures IsExportOf(t, p, v, bytes)
  {
    assert SetOf([v]) == {v};
    ReadyToRebuild(parity, coeff, t, p, v, [v], v, rescue, idx);
    assert LostStages(t, p, [v]) == [LostStage(t, p, v)];
    LostShaped(t, p, v);
    assert [v][0] == v;
    var rebuilt := XorReconstructKv(parity, r, deadKey, rescue.surv, rescue.slots, g, LostStage(t, p, v), coeff);
    bytes := rebuilt.value;
  }

  lemma BothReadyToRebuild(parity: ParityCache, coeff: map<StageKey, nat>, t: Task, p: nat, v: nat, x: nat, y: nat,
      rescue: Rescue, idx: seq<nat>)
    requires parity.Valid() && Group(t, parity, coeff) && 0 < x < y < t.Stages()
    requires RescueSound(t, p, v, {x, y}, parity.LogOf(t.request), x, rescue, idx)
    ensures var ls := [LostStage(t, p, x), LostStage(t, p, y)];
      && Rebuildable(parity, t.request, ls, rescue.surv, coeff, rescue.slots, t.geometry)
      && Shaped(ls[0], rescue.slots, t.geometry) && Shaped(ls[1], rescue.slots, t.geometry)
  {
    hide Rebuildable, Shaped;
    assert SetOf([x, y]) == {x, y};
    ReadyToRebuild(parity, coeff, t, p, v, [x, y], x, rescue, idx);
    assert LostStages(t, p, [x, y]) == [LostStage(t, p, x), LostStage(t, p, y)];
    assert [x, y][0] == x && [x, y][1] == y;
  }

  /** Both victims' KV bytes, from P, Q and the survivors, if their ranks allow it. */
  method ReconstructBoth(parity: ParityCache, coeff: map<StageKey, nat>, xKey: StageKey, yKey: StageKey, rescue: Rescue,
      g: Geometry, r: RequestId, ghost t: Task, ghost p: nat, ghost v: nat, ghost x: nat, ghost y: nat,
      ghost idx: seq<nat>) returns (bytes: Option<(Bytes, Bytes)>)
    requires Group(t, parity, coeff) && g == t.geometry && r == t.request && parity.k == 2 && parity.Valid()
    requires 0 < x < y < t.Stages() && xKey == t.job.keys[x] && yKey == t.job.keys[y]
    requires RescueSound(t, p, v, {x, y}, parity.LogOf(r), x, rescue, idx)
    ensures bytes.Some? <==> (y - x) % 255 != 0
    ensures bytes.Some? ==> IsExportOf(t, p, x, bytes.value.0) && IsExportOf(t, p, y, bytes.value.1)
  {
    hide Rebuildable;
    BothReadyToRebuild(parity, coeff, t, p, v, x, y, rescue, idx);
    var rebuilt := GfReconstructKv(parity, r, xKey, yKey, rescue.surv, rescue.slots, g, coeff,
      LostStage(t, p, x), LostStage(t, p, y));
    bytes := if rebuilt.Success? then Some(rebuilt.value) else None;
  }

  /** Install both victims' KV on the stages that took over. */
  method InstallBoth(fleet: Fleet, xStage: Stage, yStage: Stage, bytes: (Bytes, Bytes), slots: nat, r: RequestId,
      ghost t: Task, ghost p: nat, ghost x: nat, ghost y: nat, ghost hs: seq<Held>) returns (ok: bool)
    requires fleet.Valid() && OnFleet(t, fleet) && r == t.request && t.Valid() && x < y < t.Stages()
    requires DistinctHolds(hs) && KeysOf(hs) == t.job.keys && slots == SlotsBefore(t.job, p)
    requires hs[x] == Held(xStage.device, xStage.Key()) && hs[y] == Held(yStage.device, yStage.Key())
    requires IsExportOf(t, p, x, bytes.0) && IsExportOf(t, p, y, bytes.1)
    modifies fleet.Repr()
    ensures fleet.Valid()
    ensures ok ==> RebuiltBoth(t, old(fleet.State()), fleet.State(), hs, x, y, p)
    ensures ok <==> xStage.device in old(fleet.alive) && yStage.device in old(fleet.alive)
  {
    ghost var w := fleet.State();
    ok := InstallOn(fleet, xStage, bytes.0, slots, r, t, p, x, hs);
    if !ok {
      return false;
    }
    ghost var m := fleet.State();
    ok := InstallOn(fleet, yStage, bytes.1, slots, r, t, p, y, hs);
    if ok {
      RebuiltTwice(t, w, m, fleet.State(), hs, x, y, p);
    }
  }

  /** Reconstruct both victims and install them. */
  method RebuildBoth(fleet: Fleet, parity: ParityCache, coeff: map<StageKey, nat>, xStage: Stage, yStage: Stage,
      rescue: Rescue, r: RequestId, ghost t: Task, ghost p: nat, ghost v: nat, ghost x: nat, ghost y: nat,
      ghost idx: seq<nat>, ghost hs: seq<Held>) returns (ok: bool)
    requires fleet.Valid() && OnFleet(t, fleet) && r == t.request && Group(t, parity, coeff) && parity.k == 2
    requires parity.Valid()
    requires 0 < x < y < t.Stages() && RescueSound(t, p, v, {x, y}, parity.LogOf(r), x, rescue, idx)
    requires DistinctHolds(hs) && KeysOf(hs) == t.job.keys
    requires hs[x] == Held(xStage.device, xStage.Key()) && hs[y] == Held(yStage.device, yStage.Key())
    requires xStage.Key() == t.job.keys[x] && yStage.Key() == t.job.keys[y]
    modifies fleet.Repr()
    ensures fleet.Valid()
    ensures ok ==> RebuiltBoth(t, old(fleet.State()), fleet.State(), hs, x, y, p)
    ensures ok <==> xStage.device in old(fleet.alive) && yStage.device in old(fleet.alive) && (y - x) % 255 != 0
  {
    var slots := rescue.slots;
    var bytes := ReconstructBoth(parity, coeff, xStage.Key(), yStage.Key(), rescue, fleet.geometry, r, t, p, v, x, y,
      idx);
    if bytes.None? {
      return false;
    }
    ok := InstallBoth(fleet, xStage, yStage, bytes.value, slots, r, t, p, x, y, hs);
  }

  /** Both victims were rebuilt, and position p entered the chain at the upstream one. */
  ghost predicate ReenteredBoth(t: Task, p: nat, x: nat, y: nat, w: World, mid: World, u: World, pushKv: bool,
      hs: seq<Held>,
      res: Result<Reply, GatewayError>) {
    && WorldValid(u) && x < y < |hs| == t.Stages()
    && (res.Success? <==> AllUp(w, hs, x, p) && (y - x) % 255 != 0)
    && (res.Success? ==>
        && RebuiltBoth(t, w, mid, hs, x, y, p) && LiveRun(t, p, x, mid, u, pushKv, hs, res.value)
        && !res.value.Unavailable?)
  }

  /** Reconstruct both victims, install them and re-enter the chain at the upstream one. */
  method ResumeDouble(fleet: Fleet, parity: ParityCache, coeff: map<StageKey, nat>, xStage: Stage, yStage: Stage,
      rescue: Rescue, p: nat, r: RequestId, ghost t: Task, ghost v: nat, ghost x: nat, ghost y: nat,
      ghost idx: seq<nat>, ghost hs: seq<Held>) returns (res: Result<Reply, GatewayError>, ghost mid: World)
    requires fleet.Valid() && OnFleet(t, fleet) && r == t.request && Linked(fleet.nextHops, fleet.alive, hs)
    requires Group(t, parity, coeff) && parity.k == 2 && parity.Valid()
    requires RescueSound(t, p, v, {x, y}, parity.LogOf(r), x, rescue, idx)
    requires 0 < x < y < t.Stages() && DistinctHolds(hs) && KeysOf(hs) == t.job.keys
    requires hs[x] == Held(xStage.device, xStage.Key()) && hs[y] == Held(yStage.device, yStage.Key())
    requires xStage.Key() == t.job.keys[x] && yStage.Key() == t.job.keys[y]
    modifies fleet.Repr()
    ensures fleet.Valid() && ReenteredBoth(t, p, x, y, old(fleet.State()), mid, fleet.State(), fleet.pushKv, hs, res)
  {
    ghost var w := fleet.State();
    var input := rescue.input;
    assert input == In(t.job, p, x);
    var ok := RebuildBoth(fleet, parity, coeff, xStage, yStage, rescue, r, t, p, v, x, y, idx, hs);
    mid := fleet.State();
    if !ok {
      assert Down(w, hs[x], p) || Down(w, hs[y], p) || (y - x) % 255 == 0;
      return Failure(RuntimeError), mid;
    }
    SameUp(w, mid, hs, x, p);
    res := RunLive(fleet, xStage, input, p, r, t, x, hs);
  }
}
