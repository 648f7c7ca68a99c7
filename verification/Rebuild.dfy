/**
 Rebuilding a lost stage on the device that took it over, and running the failed position
 live from there: by replaying its mirrored inputs, or by installing its KV bytes. The
 request's snapshot s is a value; only the fleet changes.
 */
module Rebuild {
  import opened Wrappers
  import opened Types
  import opened ByteStrings
  import opened KvLayout
  import opened Reference
  import opened Workers
  import opened Workforce
  import opened Chains
  import opened ExecutionPlans
  import opened Protocol
  import opened Rewiring
  import opened Reentry

  ghost predicate OnFleet(t: Task, fleet: Fleet) {
    fleet.model == t.job.model && fleet.geometry == t.geometry
  }

  /** The victim's backup is promoted and the plan is wired. */
  ghost predicate Substituted(t: Task, p: nat, v: nat, s: Snapshot, wired: Placement) {
    Stricken(t, p, v, s, wired) && Linked(s.world.nextHops, s.world.alive, HoldsOf(s.plans.plan))
  }

  lemma StrickenShape(t: Task, p: nat, v: nat, s: Snapshot, wired: Placement)
    requires Stricken(t, p, v, s, wired)
    ensures t.Valid() && PlanOk(t, s.plans) && v < t.Stages() == |wired| == |s.plans.plan|
    ensures s.plans.placement == t.placement && s.plans.recovery == t.recovery && |t.placement| == t.Stages()
    ensures DistinctHolds(HoldsOf(s.plans.plan)) && KeysOf(HoldsOf(s.plans.plan)) == t.job.keys
    ensures Sound(t, p, v, s) && SameRanges(wired, t.placement)
  {
    assert InDetail(t);
    PlanShape(t, s.plans);
  }

  /** Whatever is off the plan and not declared dead holds nothing of the request. */
  lemma OffPlanClean(t: Task, p: nat, v: nat, s: Snapshot, wired: Placement)
    requires Stricken(t, p, v, s, wired)
    ensures OffPlan(t, s)
  {
    assert InDetail(t);
    forall h
      ensures OffPlanAt(t, s, h)
    {
      assert SpareAt(t, s, wired, h);
      if h !in HoldsOf(s.plans.plan) && h in HoldsOf(wired) {
        var i :| 0 <= i < |wired| && HoldsOf(wired)[i] == h;
        assert LagsAt(t, s.plans, wired, i);
        assert HoldsOf(s.plans.plan)[i] in HoldsOf(s.plans.plan);
      }
    }
  }

  // ---------- whole-chain replay ----------

  /** Positions 0..i-1 have been replayed through the whole plan. */
  ghost predicate Replayed(t: Task, p: nat, i: nat, s: Snapshot, last: Reply) {
    forall u {:trigger InDetail(u)} :: InDetail(u) ==> ReplayedTo(t, p, i, s, last)
  }

  ghost predicate ReplayedTo(t: Task, p: nat, i: nat, s: Snapshot, last: Reply) {
    var w, hs := s.world, HoldsOf(s.plans.plan);
    && t.Valid() && PlanOk(t, s.plans) && WorldValid(w) && Linked(w.nextHops, w.alive, hs)
    && OutboxSound(t, p, t.Stages(), w.outbox) && OffPlan(t, s)
    && (i > 0 ==> KvIs(w, t, hs, i, 0) && Answers(t, i - 1, last) && forall j :: 0 <= j < |hs| ==> LoadedAt(w, hs[j]))
  }

  lemma {:induction false} ReplayStep(t: Task, p: nat, i: nat, s: Snapshot, last: Reply, pushKv: bool, blob: Bytes)
    requires Replayed(t, p, i, s, last) && i <= p && blob == In(t.job, i, 0)
    requires HoldsOf(s.plans.plan) != [] && WorldValid(s.world)
    ensures var (u, reply) := ChainCall(s.world, t.job.model, pushKv, HoldsOf(s.plans.plan), StepCall(t, blob, i));
      && (!reply.Unavailable? ==> Replayed(t, p, i + 1, s.(world := u), reply) && Undisturbed(s.world, u))
      && (!reply.Unavailable? <==> AllUp(s.world, HoldsOf(s.plans.plan), 0, i))
  {
    assert InDetail(t);
    var w, hs := s.world, HoldsOf(s.plans.plan);
    PlanShape(t, s.plans);
    assert hs[0..] == hs;
    assert i > 0 ==> forall j :: 0 <= j < |hs| ==> HoldsBefore(w, t, hs[j], Done(i, 0, j), j);
    ReplayPass(t, p, i, w, hs, pushKv, blob);
    OffPlanStays(t, s, t.job.model, pushKv, hs, StepCall(t, blob, i));
  }

  lemma {:induction false} ReplayPass(t: Task, p: nat, i: nat, w: World, hs: seq<Held>, pushKv: bool, blob: Bytes)
    requires PassReady(t, w, hs, 0, blob, i) && i <= p && Linked(w.nextHops, w.alive, hs)
    requires OutboxSound(t, p, t.Stages(), w.outbox)
    ensures var (u, reply) := ChainCall(w, t.job.model, pushKv, hs, StepCall(t, blob, i));
      && (!reply.Unavailable? <==> AllUp(w, hs, 0, i))
      && (!reply.Unavailable? ==>
          && Undisturbed(w, u) && WorldValid(u) && Linked(u.nextHops, u.alive, hs)
          && OutboxSound(t, p, t.Stages(), u.outbox) && KvIs(u, t, hs, i + 1, 0) && Answers(t, i, reply)
          && forall j :: 0 <= j < |hs| ==> LoadedAt(u, hs[j]))
  {
    hide RegularAt, ChainCall;
    assert hs[0..] == hs;
    GetsThrough(w, t.job.model, pushKv, hs, 0, StepCall(t, blob, i));
    if AllUp(w, hs, 0, i) {
      var (u, reply) := ChainCall(w, t.job.model, pushKv, hs, StepCall(t, blob, i));
      CallAdvances(t, w, pushKv, hs, 0, blob, i);
      LinkedFewer(w.nextHops, w.alive, u.alive, hs);
      forall j | 0 <= j < |hs|
        ensures HoldsBefore(u, t, hs[j], Done(i + 1, 0, j), j) && LoadedAt(u, hs[j])
      {
        assert !Down(w, hs[j], i);
      }
    }
  }

  lemma ReplayedCompletes(t: Task, p: nat, s: Snapshot, last: Reply)
    requires Replayed(t, p, p + 1, s, last) && MirrorsSound(t, p, t.Stages(), s.mirrors)
    requires ReplicaSound(t, s.replica) && ParitySound(t, p, t.Stages(), s.parity)
    ensures Answers(t, p, last) && Completed(t, p, s, s.plans.plan)
  {
    assert InDetail(t);
    var hs := HoldsOf(s.plans.plan);
    forall i | 0 <= i < |hs|
      ensures HoldsBefore(s.world, t, hs[i], p + 1, i)
    {
      assert HoldsBefore(s.world, t, hs[i], Done(p + 1, 0, i), i);
    }
    PlanCompleted(t, p, s);
  }

  // ---------- one stage alone ----------

  /** The lost stage was rebuilt alone; nothing else moved. */
  ghost predicate RebuiltAlone(t: Task, w: World, u: World, hs: seq<Held>, v: nat, q: nat) {
    && v < |hs| == t.Stages() && WorldValid(u) && Undisturbed(w, u) && u.outbox == w.outbox
    && (forall h :: h != hs[v] ==> KvAt(u, h, t.request) == KvAt(w, h, t.request))
    && (q > 0 ==> HoldsBefore(u, t, hs[v], q, v))
  }

  lemma RebuildStep(t: Task, w0: World, w: World, pushKv: bool, hs: seq<Held>, v: nat, blob: Bytes, q: nat)
    requires t.Valid() && WorldValid(w) && DistinctHolds(hs) && KeysOf(hs) == t.job.keys
    requires RebuiltAlone(t, w0, w, hs, v, q) && blob == In(t.job, q, v)
    ensures var (u, reply) := ChainCall(w, t.job.model, pushKv, [hs[v]], Call(t.request, blob, q == 0, q, true));
      && (!reply.Unavailable? ==> RebuiltAlone(t, w0, u, hs, v, q + 1))
      && (!reply.Unavailable? <==> Available(w0, hs[v]))
  {
    assert hs[v].device in w0.runners ==> SameLoads(w0.runners[hs[v].device], w.runners[hs[v].device]);
    ReplayAlone(t, w, pushKv, hs, v, blob, q);
  }

  /**
   The lost stage was rebuilt, and position p entered the chain there with its fault-free
   input: what the fleet went through from w to u, by way of mid, if that succeeded.
   */
  ghost predicate Reentered(t: Task, p: nat, v: nat, w: World, mid: World, u: World, pushKv: bool, hs: seq<Held>,
      res: Result<Reply, GatewayError>) {
    && WorldValid(u) && v < |hs| == t.Stages() && (res.Success? <==> AllUp(w, hs, v, p))
    && (res.Success? ==> RebuiltAlone(t, w, mid, hs, v, p) && LiveRun(t, p, v, mid, u, pushKv, hs, res.value))
  }

  /** Position p was run from stage e on. */
  ghost predicate LiveRun(t: Task, p: nat, e: nat, w: World, u: World, pushKv: bool, hs: seq<Held>, reply: Reply)
    requires e < |hs| == t.Stages() && WorldValid(w)
  {
    (u, reply) == ChainCall(w, t.job.model, pushKv, hs[e..], StepCall(t, In(t.job, p, e), p))
  }

  /** Each plan stage holds what position p needs of it when the chain is entered at stage e. */
  ghost predicate KvReady(t: Task, p: nat, e: nat, u: World, hs: seq<Held>) {
    |hs| == t.Stages() && forall i :: 0 <= i < |hs| ==>
      && (p > 0 || i < e ==> HoldsBefore(u, t, hs[i], if i < e then p + 1 else p, i))
      && (i < e ==> LoadedAt(u, hs[i]))
  }

  /** KV that only a rebuilt plan stage gained is on the plan. */
  lemma RebuiltClean(t: Task, s: Snapshot, u: World, w: World)
    requires OffPlan(t, s.(world := w))
    requires forall h :: h !in HoldsOf(s.plans.plan) ==> KvAt(u, h, t.request) == KvAt(w, h, t.request)
    ensures OffPlan(t, s.(world := u))
  {
    forall h
      ensures OffPlanAt(t, s.(world := u), h)
    {
      assert OffPlanAt(t, s.(world := w), h);
    }
  }

  lemma {:induction false} ReadyWhenRebuilt(t: Task, p: nat, v: nat, e: nat, s: Snapshot, wired: Placement, u: World)
    requires Substituted(t, p, v, s, wired) && e < t.Stages() && WorldValid(u)
    requires Undisturbed(s.world, u) && u.outbox == s.world.outbox && KvReady(t, p, e, u, HoldsOf(s.plans.plan))
    requires forall h :: h !in HoldsOf(s.plans.plan) ==> KvAt(u, h, t.request) == KvAt(s.world, h, t.request)
    ensures PlanReady(t, p, e, s.(world := u), In(t.job, p, e))
  {
    StrickenShape(t, p, v, s, wired);
    OffPlanClean(t, p, v, s, wired);
    RebuiltClean(t, s, u, s.world);
    SoundLater(t, p, v, t.Stages(), s);
  }

  /** Where the plan stage stands where it is wired, it is as the failed call left it. */
  lemma SettledAt(t: Task, p: nat, v: nat, s: Snapshot, wired: Placement, i: nat)
    requires Stricken(t, p, v, s, wired) && i < t.Stages() == |wired| == |s.plans.plan| && i != v
    requires s.plans.plan[i] == wired[i]
    ensures HoldsBefore(s.world, t, HoldsOf(s.plans.plan)[i], Done(p, v, i), i)
    ensures LoadedAt(s.world, HoldsOf(s.plans.plan)[i])
  {
    assert InDetail(t);
    assert KeptAt(t, p, v, s, wired, i);
  }

  /** Where it stands elsewhere, its KV is gone. */
  lemma DriftedAt(t: Task, p: nat, v: nat, s: Snapshot, wired: Placement, i: nat)
    requires Stricken(t, p, v, s, wired) && i < t.Stages() == |wired| == |s.plans.plan|
    requires s.plans.plan[i] != wired[i]
    ensures KvAt(s.world, HoldsOf(s.plans.plan)[i], t.request) == []
  {
    assert InDetail(t);
    assert DriftsEmpty(t, s, wired, i);
  }

  /** With every other stage settled, position p can be run live from the rebuilt stage on. */
  lemma {:induction false} RebuiltReady(t: Task, p: nat, v: nat, s: Snapshot, wired: Placement, u: World)
    requires Substituted(t, p, v, s, wired) && Settled(p, v, s.plans.plan, wired)
    requires RebuiltAlone(t, s.world, u, HoldsOf(s.plans.plan), v, p)
    ensures PlanReady(t, p, v, s.(world := u), In(t.job, p, v))
  {
    StrickenShape(t, p, v, s, wired);
    var hs := HoldsOf(s.plans.plan);
    forall i | 0 <= i < |hs|
      ensures p > 0 || i < v ==> HoldsBefore(u, t, hs[i], if i < v then p + 1 else p, i)
      ensures i < v ==> LoadedAt(u, hs[i])
    {
      if i != v && (p > 0 || i < v) {
        SettledAt(t, p, v, s, wired, i);
        StillLoaded(s.world, u, hs[i]);
      }
    }
    assert forall h :: h !in hs ==> h != hs[v];
    ReadyWhenRebuilt(t, p, v, v, s, wired, u);
  }

  lemma StillLoaded(w: World, u: World, h: Held)
    requires OnlyRan(w, u) && LoadedAt(w, h)
    ensures LoadedAt(u, h)
  {
    assert SameLoads(w.runners[h.device], u.runners[h.device]);
  }

  /** The bytes stage v would have exported before position p. */
  ghost predicate IsExportOf(t: Task, p: nat, v: nat, bytes: Bytes) {
    && t.Valid() && v < t.Stages() && Sized(Before(t.job, p, v), t.job.keys[v], t.geometry)
    && bytes == SlotMajorToLayerMajor(Before(t.job, p, v), t.geometry.Lanes(t.job.keys[v]), t.geometry.row)
  }

  lemma {:induction false} ExportShape(t: Task, p: nat, v: nat, bytes: Bytes)
    requires IsExportOf(t, p, v, bytes)
    ensures |Before(t.job, p, v)| == SlotsBefore(t.job, p)
    ensures |bytes| == t.geometry.Lanes(t.job.keys[v]) * (SlotsBefore(t.job, p) * t.geometry.row)
  {
    BeforeShape(t.job, t.geometry, p, v);
    ExportedKvInstalls(Before(t.job, p, v), t.job.keys[v], t.geometry);
  }

  lemma StageOfKeys(t: Task, v: nat)
    requires t.Valid() && v < t.Stages()
    ensures forall i :: 0 <= i < t.Stages() ==> (t.job.keys[i] == t.job.keys[v] <==> i == v)
  {
    forall i | 0 <= i < t.Stages()
      ensures t.job.keys[i] == t.job.keys[v] <==> i == v
    {
      StageOfKey(t, i);
      StageOfKey(t, v);
    }
  }

  /** Installing the lost stage's exported KV rebuilds exactly that stage. */
  lemma {:induction false} LoadedKvRebuilds(t: Task, p: nat, w: World, u: World, hs: seq<Held>, v: nat, bytes: Bytes)
    requires t.Valid() && WorldValid(w) && DistinctHolds(hs) && KeysOf(hs) == t.job.keys && v < |hs|
    requires hs[v].device in w.runners && Sized(Before(t.job, p, v), hs[v].key, t.geometry)
    requires bytes == SlotMajorToLayerMajor(Before(t.job, p, v), t.geometry.Lanes(hs[v].key), t.geometry.row)
    requires |bytes| == t.geometry.Lanes(hs[v].key) * (|Before(t.job, p, v)| * t.geometry.row)
    requires u == OnRunner(w, hs[v].device, w.runners[hs[v].device].(kv :=
      w.runners[hs[v].device].kv[CacheKey(t.request, hs[v].key) :=
        LayerMajorToSlots(bytes, t.geometry.Lanes(hs[v].key), |Before(t.job, p, v)|, t.geometry.row)]))
    ensures RebuiltAlone(t, w, u, hs, v, p)
  {
    ExportedKvInstalls(Before(t.job, p, v), hs[v].key, t.geometry);
  }

  /** The victim's stored KV in export order, its slot count and the input to resume with. */
  datatype Replicated = Replicated(bytes: Bytes, slots: nat, input: Bytes)

  ghost predicate ReplicatedSound(t: Task, p: nat, v: nat, stored: Replicated) {
    && IsExportOf(t, p, v, stored.bytes) && stored.slots == SlotsBefore(t.job, p) && stored.input == In(t.job, p, v)
  }

  // ---------- what re-entering at the victim comes to ----------

  /**
   The exact outcome of a rebuild that got through: fault-free if the other stages run where
   they are wired, and otherwise not, as soon as the prompt has a token.
   */
  lemma ReentryOutcome(t: Task, p: nat, v: nat, s: Snapshot, wired: Placement, mid: World, u: World, pushKv: bool,
      reply: Reply)
    requires Substituted(t, p, v, s, wired) && v < |s.plans.plan| == t.Stages()
    requires RebuiltAlone(t, s.world, mid, HoldsOf(s.plans.plan), v, p)
    requires LiveRun(t, p, v, mid, u, pushKv, HoldsOf(s.plans.plan), reply) && !reply.Unavailable?
    ensures Settled(p, v, s.plans.plan, wired) ==> Answers(t, p, reply) && Completed(t, p, s.(world := u), s.plans.plan)
    ensures !Settled(p, v, s.plans.plan, wired) && PastLength(t.job) > 0 ==>
      !KvIs(u, t, HoldsOf(s.plans.plan), p, t.Stages())
  {
    StrickenShape(t, p, v, s, wired);
    if Settled(p, v, s.plans.plan, wired) {
      RebuiltReady(t, p, v, s, wired, mid);
      PlanPass(t, p, v, s.(world := mid), In(t.job, p, v), pushKv);
    } else if PastLength(t.job) > 0 {
      var i :| 0 <= i < t.Stages() && i != v && s.plans.plan[i] != wired[i] && (p > 0 || i < v);
      DriftedAt(t, p, v, s, wired, i);
      UnsettledIsWrong(t, p, v, s, mid, u, pushKv, i, reply);
    }
  }

  /** A stage that ought to have KV and has none does not get it by the pass. */
  lemma UnsettledIsWrong(t: Task, p: nat, v: nat, s: Snapshot, mid: World, u: World, pushKv: bool, i: nat, reply: Reply)
    requires t.Valid() && PlanOk(t, s.plans) && v < t.Stages() == |s.plans.plan| && i < t.Stages() && i != v
    requires PastLength(t.job) > 0 && (p > 0 || i < v) && KvAt(s.world, HoldsOf(s.plans.plan)[i], t.request) == []
    requires RebuiltAlone(t, s.world, mid, HoldsOf(s.plans.plan), v, p)
    requires LiveRun(t, p, v, mid, u, pushKv, HoldsOf(s.plans.plan), reply) && !reply.Unavailable?
    ensures !HoldsBefore(u, t, HoldsOf(s.plans.plan)[i], p + 1, i)
  {
    var hs := HoldsOf(s.plans.plan);
    PlanShape(t, s.plans);
    assert hs[i] != hs[v];
    assert KvAt(mid, hs[i], t.request) == [];
    if i < v {
      assert hs[i] !in hs[v..] by {
        forall j | v <= j < |hs|
          ensures hs[j] != hs[i]
        {}
      }
      ElsewhereSame(mid, t.job.model, pushKv, hs[v..], StepCall(t, In(t.job, p, v), p), hs[i]);
      LostKvIsWrong(t, u, hs[i], p + 1, i);
    } else {
      GetsThrough(mid, t.job.model, pushKv, hs, v, StepCall(t, In(t.job, p, v), p));
      LostKvIsWrong(t, mid, hs[i], p, i);
      WrongStaysWrong(t, mid, pushKv, hs, v, p, i);
    }
  }

  // ---------- on the workers ----------

  /** Promote the dead devices' backups and rewire; what is known of the request still holds. */
  method PromoteKeeping(fleet: Fleet, plan: Placement, recovery: RecoveryTable, dead: seq<DeviceId>, ghost t: Task,
      ghost p: nat, ghost v: nat, ghost s: Snapshot, ghost wired: Placement) returns (res: Result<(), GatewayError>)
    requires fleet.Valid() && fleet.State() == s.world && plan == s.plans.plan && Stricken(t, p, v, s, wired)
    modifies fleet.Repr()
    ensures fleet.Valid() && OnlyRewired(s.world, fleet.State())
    ensures Stricken(t, p, v, s.(world := fleet.State()), wired)
    ensures res.Success? <==> forall i :: 0 <= i < |dead| ==> Promotable(s.world, recovery, dead[i])
    ensures res.Success? ==> Substituted(t, p, v, s.(world := fleet.State()), wired)
  {
    StrickenShape(t, p, v, s, wired);
    res := PromoteAndRewire(fleet, plan, recovery, dead);
    RewiredKeeps(t, p, v, s, wired, fleet.State());
  }

  method ReplayPosition(fleet: Fleet, head: Stage, blob: Bytes, i: nat, r: RequestId, ghost t: Task, ghost p: nat,
      ghost s: Snapshot, ghost previous: Reply) returns (last: Reply)
    requires fleet.Valid() && OnFleet(t, fleet) && r == t.request && fleet.State() == s.world
    requires Replayed(t, p, i, s, previous) && i <= p && blob == In(t.job, i, 0)
    requires HoldsOf(s.plans.plan) != [] && HoldsOf(s.plans.plan)[0] == Held(head.device, head.Key())
    modifies fleet.Repr()
    ensures fleet.Valid()
    ensures !last.Unavailable? ==> Replayed(t, p, i + 1, s.(world := fleet.State()), last)
    ensures !last.Unavailable? ==>
      Alike(s.world, fleet.State(), HoldsOf(s.plans.plan)) && Unharmed(s.world, fleet.State())
    ensures !last.Unavailable? <==> AllUp(s.world, HoldsOf(s.plans.plan), 0, i)
  {
    ReplayLinked(t, p, i, s, previous);
    ReplayStep(t, p, i, s, previous, fleet.pushKv, blob);
    assert StepCall(t, blob, i) == Call(r, blob, i == 0, i, false);
    last := fleet.RunStage(Held(head.device, head.Key()), Call(r, blob, i == 0, i, false), HoldsOf(s.plans.plan));
    if !last.Unavailable? {
      UndisturbedAlike(s.world, fleet.State(), HoldsOf(s.plans.plan));
    }
  }

  /** The chain can run the same positions in both. */
  ghost predicate Alike(w: World, u: World, hs: seq<Held>) {
    forall q {:trigger AlikeAt(w, u, hs, q)} :: AlikeAt(w, u, hs, q)
  }

  ghost predicate AlikeAt(w: World, u: World, hs: seq<Held>, q: nat) {
    AllUp(w, hs, 0, q) <==> AllUp(u, hs, 0, q)
  }

  lemma UndisturbedAlike(w: World, u: World, hs: seq<Held>)
    requires Undisturbed(w, u)
    ensures Alike(w, u, hs)
  {
    forall q
      ensures AlikeAt(w, u, hs, q)
    {
      SameUp(w, u, hs, 0, q);
    }
  }

  lemma AlikeStep(w: World, v: World, u: World, hs: seq<Held>)
    requires Alike(w, v, hs) && Alike(v, u, hs)
    ensures Alike(w, u, hs)
  {
    forall q
      ensures AlikeAt(w, u, hs, q)
    {
      assert AlikeAt(w, v, hs, q) && AlikeAt(v, u, hs, q);
    }
  }

  lemma ReplayLinked(t: Task, p: nat, i: nat, s: Snapshot, last: Reply)
    requires Replayed(t, p, i, s, last)
    ensures Linked(s.world.nextHops, s.world.alive, HoldsOf(s.plans.plan))
  {
    assert InDetail(t);
  }

  /** Every stage can run every position before n. */
  ghost predicate UpThrough(w: World, hs: seq<Held>, n: nat) {
    forall q :: 0 <= q < n ==> AllUp(w, hs, 0, q)
  }

  /** Run a history through the chain from its head, position by position. */
  method ReplayHistory(fleet: Fleet, head: Stage, history: seq<Bytes>, r: RequestId, ghost t: Task, ghost p: nat,
      ghost s: Snapshot) returns (last: Reply)
    requires fleet.Valid() && OnFleet(t, fleet) && r == t.request && history != [] && |history| <= p + 1
    requires forall q :: 0 <= q < |history| ==> history[q] == In(t.job, q, 0)
    requires fleet.State() == s.world && Replayed(t, p, 0, s, Unavailable(None))
    requires HoldsOf(s.plans.plan) != [] && HoldsOf(s.plans.plan)[0] == Held(head.device, head.Key())
    modifies fleet.Repr()
    ensures fleet.Valid()
    ensures !last.Unavailable? ==>
      Replayed(t, p, |history|, s.(world := fleet.State()), last) && Unharmed(s.world, fleet.State())
    ensures !last.Unavailable? <==> UpThrough(s.world, HoldsOf(s.plans.plan), |history|)
  {
    last := Unavailable(None);
    ghost var hs := HoldsOf(s.plans.plan);
    for i := 0 to |history|
      invariant fleet.Valid() && Replayed(t, p, i, s.(world := fleet.State()), last) && (i > 0 ==> !last.Unavailable?)
      invariant Alike(s.world, fleet.State(), hs) && UpThrough(s.world, hs, i) && Unharmed(s.world, fleet.State())
    {
      ghost var v := fleet.State();
      assert AlikeAt(s.world, v, hs, i);
      last := ReplayPosition(fleet, head, history[i], i, r, t, p, s.(world := v), last);
      if last.Unavailable? {
        return;
      }
      AlikeStep(s.world, v, fleet.State(), hs);
    }
  }

  /** Replay the head's whole history on the current plan: afterwards position p is done everywhere. */
  method ReplayAndFinish(fleet: Fleet, head: Stage, history: seq<Bytes>, r: RequestId, ghost t: Task, ghost p: nat,
      ghost s: Snapshot) returns (res: Result<Reply, GatewayError>)
    requires fleet.Valid() && OnFleet(t, fleet) && r == t.request && fleet.State() == s.world && |history| == p + 1
    requires t.Valid() && PlanOk(t, s.plans) && s.plans.plan != [] && head == s.plans.plan[0] && OffPlan(t, s)
    requires Sound(t, p, t.Stages(), s) && Linked(s.world.nextHops, s.world.alive, HoldsOf(s.plans.plan))
    requires forall q :: 0 <= q < |history| ==> history[q] == In(t.job, q, 0)
    modifies fleet.Repr()
    ensures fleet.Valid()
    ensures res.Success? ==> Answers(t, p, res.value) && Completed(t, p, s.(world := fleet.State()), s.plans.plan)
    ensures res.Success? ==> Unharmed(s.world, fleet.State())
    ensures res.Success? <==> UpThrough(s.world, HoldsOf(s.plans.plan), p + 1)
  {
    var last := ReplayHistory(fleet, head, history, r, t, p, s);
    if last.Unavailable? {
      return Failure(RpcError);
    }
    ReplayedCompletes(t, p, s.(world := fleet.State()), last);
    res := Success(last);
  }

  /** The plan's stage for a layer range. */
  method FindInPlan(plan: Placement, key: StageKey) returns (stage: Option<Stage>)
    ensures stage.None? ==> forall i :: 0 <= i < |plan| ==> plan[i].Key() != key
    ensures stage.Some? ==> stage.value.Key() == key && stage.value in plan
  {
    for i := 0 to |plan|
      invariant forall j :: 0 <= j < i ==> plan[j].Key() != key
    {
      if plan[i].Key() == key {
        return Some(plan[i]);
      }
    }
    stage := None;
  }

  /** The plan stage that now serves stage v's range. */
  method BackupStage(plan: Placement, key: StageKey, ghost t: Task, ghost v: nat, ghost s: Plans) returns (stage: Stage)
    requires t.Valid() && PlanOk(t, s) && plan == s.plan && v < t.Stages() && key == t.job.keys[v]
    ensures stage.Key() == key && v < |plan| && HoldsOf(plan)[v] == Held(stage.device, key)
  {
    PlanShape(t, s);
    var found := FindInPlan(plan, key);
    assert plan[v].Key() == key;
    StageOfKeys(t, v);
    stage := found.value;
  }

  /** Replay positions 0..p-1 into one stage alone, without forwarding. */
  method RebuildStage(fleet: Fleet, stage: Stage, history: seq<Bytes>, p: nat, r: RequestId, ghost t: Task,
      ghost v: nat,
      ghost hs: seq<Held>) returns (ok: bool)
    requires fleet.Valid() && OnFleet(t, fleet) && t.Valid() && r == t.request && p <= |history|
    requires DistinctHolds(hs) && KeysOf(hs) == t.job.keys && v < |hs| && hs[v] == Held(stage.device, stage.Key())
    requires forall q :: 0 <= q < |history| ==> history[q] == In(t.job, q, v)
    modifies fleet.Repr()
    ensures fleet.Valid()
    ensures ok ==> RebuiltAlone(t, old(fleet.State()), fleet.State(), hs, v, p)
    ensures ok <==> p == 0 || Available(old(fleet.State()), hs[v])
  {
    for q := 0 to p
      invariant fleet.Valid() && RebuiltAlone(t, old(fleet.State()), fleet.State(), hs, v, q)
      invariant q > 0 ==> Available(old(fleet.State()), hs[v])
    {
      RebuildStep(t, old(fleet.State()), fleet.State(), fleet.pushKv, hs, v, history[q], q);
      var reply := fleet.RunStage(Held(stage.device, stage.Key()), Call(r, history[q], q == 0, q, true), [hs[v]]);
      if reply.Unavailable? {
        return false;
      }
    }
    ok := true;
  }

  /** Run position p live from stage e on. */
  method RunLive(fleet: Fleet, stage: Stage, blob: Bytes, p: nat, r: RequestId, ghost t: Task, ghost e: nat,
      ghost hs: seq<Held>) returns (res: Result<Reply, GatewayError>)
    requires fleet.Valid() && OnFleet(t, fleet) && r == t.request && e < |hs| == t.Stages() && DistinctHolds(hs)
    requires Linked(fleet.nextHops, fleet.alive, hs) && hs[e] == Held(stage.device, stage.Key())
    requires blob == In(t.job, p, e)
    modifies fleet.Repr()
    ensures fleet.Valid() && WorldValid(old(fleet.State()))
    ensures res.Success? <==> AllUp(old(fleet.State()), hs, e, p)
    ensures res.Success? ==> LiveRun(t, p, e, old(fleet.State()), fleet.State(), fleet.pushKv, hs, res.value)
    ensures res.Success? ==> !res.value.Unavailable?
  {
    GetsThrough(fleet.State(), fleet.model, fleet.pushKv, hs, e, StepCall(t, blob, p));
    LinkedFewer(fleet.nextHops, fleet.alive, fleet.alive, hs);
    var reply := fleet.RunStage(Held(stage.device, stage.Key()), Call(r, blob, p == 0, p, false), hs[e..]);
    res := if reply.Unavailable? then Failure(RpcError) else Success(reply);
  }

  /** A rebuilt stage changes nothing about who can run. */
  lemma StillUp(t: Task, w: World, u: World, hs: seq<Held>, v: nat, p: nat)
    requires RebuiltAlone(t, w, u, hs, v, p)
    ensures AllUp(u, hs, v, p) <==> AllUp(w, hs, v, p)
    ensures AllUp(w, hs, v, p) ==> Available(w, hs[v])
  {
    SameUp(w, u, hs, v, p);
    if AllUp(w, hs, v, p) {
      assert !Down(w, hs[v], p);
    }
  }

  /** Surgical: positions 0..p-1 into the backup alone, then p live. */
  method RebuildAndRun(fleet: Fleet, stage: Stage, history: seq<Bytes>, p: nat, r: RequestId, ghost t: Task,
      ghost v: nat,
      ghost hs: seq<Held>) returns (res: Result<Reply, GatewayError>, ghost mid: World)
    requires fleet.Valid() && OnFleet(t, fleet) && t.Valid() && r == t.request
    requires Linked(fleet.nextHops, fleet.alive, hs)
    requires DistinctHolds(hs) && KeysOf(hs) == t.job.keys && v < |hs| && hs[v] == Held(stage.device, stage.Key())
    requires p < |history| && forall q :: 0 <= q < |history| ==> history[q] == In(t.job, q, v)
    modifies fleet.Repr()
    ensures fleet.Valid()
    ensures Reentered(t, p, v, old(fleet.State()), mid, fleet.State(), fleet.pushKv, hs, res)
    ensures res.Success? ==> !res.value.Unavailable?
  {
    ghost var w := fleet.State();
    var rebuilt := RebuildStage(fleet, stage, history, p, r, t, v, hs);
    mid := fleet.State();
    if !rebuilt {
      assert Down(w, hs[v], p);
      return Failure(RpcError), mid;
    }
    StillUp(t, w, mid, hs, v, p);
    res := RunLive(fleet, stage, history[p], p, r, t, v, hs);
  }

  /** Install a lost stage's exported KV on the stage that took over. */
  method InstallOn(fleet: Fleet, backup: Stage, bytes: Bytes, slots: nat, r: RequestId, ghost t: Task, ghost p: nat,
      ghost v: nat, ghost hs: seq<Held>) returns (ok: bool)
    requires fleet.Valid() && OnFleet(t, fleet) && r == t.request && t.Valid() && v < t.Stages()
    requires DistinctHolds(hs) && KeysOf(hs) == t.job.keys && hs[v] == Held(backup.device, backup.Key())
    requires IsExportOf(t, p, v, bytes) && slots == SlotsBefore(t.job, p)
    modifies fleet.Repr()
    ensures fleet.Valid()
    ensures ok ==> RebuiltAlone(t, old(fleet.State()), fleet.State(), hs, v, p)
    ensures ok <==> backup.device in old(fleet.alive)
  {
    ghost var w := fleet.State();
    assert hs[v].key == KeysOf(hs)[v];
    ExportShape(t, p, v, bytes);
    ok := fleet.LoadKv(Held(backup.device, backup.Key()), r, bytes, slots);
    if ok {
      LoadedKvRebuilds(t, p, w, fleet.State(), hs, v, bytes);
    }
  }

  /** Install the lost stage's KV, then run position p live from it. */
  method InstallAndRun(fleet: Fleet, stage: Stage, bytes: Bytes, slots: nat, input: Bytes, p: nat, r: RequestId,
      ghost t: Task, ghost v: nat, ghost hs: seq<Held>) returns (res: Result<Reply, GatewayError>, ghost mid: World)
    requires fleet.Valid() && OnFleet(t, fleet) && t.Valid() && r == t.request
    requires Linked(fleet.nextHops, fleet.alive, hs)
    requires DistinctHolds(hs) && KeysOf(hs) == t.job.keys && v < |hs| && hs[v] == Held(stage.device, stage.Key())
    requires IsExportOf(t, p, v, bytes) && slots == SlotsBefore(t.job, p) && input == In(t.job, p, v)
    modifies fleet.Repr()
    ensures fleet.Valid()
    ensures Reentered(t, p, v, old(fleet.State()), mid, fleet.State(), fleet.pushKv, hs, res)
    ensures res.Success? ==> !res.value.Unavailable?
  {
    ghost var w := fleet.State();
    var ok := InstallOn(fleet, stage, bytes, slots, r, t, p, v, hs);
    mid := fleet.State();
    if !ok {
      assert Down(w, hs[v], p);
      return Failure(RpcError), mid;
    }
    StillUp(t, w, mid, hs, v, p);
    res := RunLive(fleet, stage, input, p, r, t, v, hs);
  }
}
