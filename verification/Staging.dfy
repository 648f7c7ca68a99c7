/**
 What concrete runs are put together from: idle workers are hired and deployed, the prefill
 gets through, messages reach the coordinator, and a stage fails.
 */
module Staging {
  import opened Wrappers
  import opened Types
  import opened ByteStrings
  import opened Reference
  import opened Workers
  import opened Workforce
  import opened Chains
  import opened ExecutionPlans
  import opened ParityFold
  import opened KvParity
  import opened KvReconstruction
  import opened Protocol
  import opened Rebuild
  import opened ParityRecovery
  import opened Gateway
  import opened Delivering
  import opened Calling
  import opened Intervals
  import opened Generation
  import opened Deployment
  import opened EndToEnd
  import opened HeadReports
  import BlobStore
  import Lru

  // ---------- the stage ----------

  ghost predicate EverybodyUp(t: Task, w: World) {
    forall i :: 0 <= i < |t.placement| ==> t.placement[i].device in w.alive
  }

  /** Every device of the placement is up, and no crash is due. */
  ghost predicate AllWell(t: Task, w: World) {
    w.faults == {} && EverybodyUp(t, w)
  }

  /** Every stage's backup waits on its host. */
  ghost predicate BackupsStand(t: Task, w: World) {
    forall i :: 0 <= i < |t.placement| ==> BackedUp(w, t.recovery, t.placement[i])
  }

  lemma BackupsStay(t: Task, w: World, u: World)
    requires BackupsStand(t, w) && OnlyRan(w, u)
    ensures BackupsStand(t, u)
  {
    forall i | 0 <= i < |t.placement|
      ensures BackedUp(u, t.recovery, t.placement[i])
    {
      var s := t.placement[i];
      assert BackedUp(w, t.recovery, s);
      if s.device in t.recovery && t.recovery[s.device] in w.runners {
        assert SameLoads(w.runners[t.recovery[s.device]], u.runners[t.recovery[s.device]]);
      }
    }
  }

  /** A gateway that serves the request, with every backup in its place. */
  ghost predicate Equipped(gw: RequestGateway, t: Task)
    reads gw.Repr()
  {
    gw.Valid() && gw.Serves(t) && BackupsStand(t, gw.fleet.State())
  }

  // ---------- hiring and deploying ----------

  ghost predicate Idle(runner: StageRunner, t: Task)
    reads runner
  {
    && runner.Valid() && runner.model == t.job.model && runner.geometry == t.geometry
    && runner.State() == Runner({}, map[], {}, false, map[])
  }

  /** Fresh workers, one for every device of the placement. */
  method Hire(t: Task, pushKv: bool) returns (fleet: Fleet)
    requires t.Valid()
    ensures fresh(fleet) && fresh(fleet.Repr()) && fleet.Valid() && OnFleet(t, fleet) && fleet.pushKv == pushKv
    ensures AllWell(t, fleet.State()) && Unheard(fleet.State(), t.request) && HostsUp(fleet.State(), t.recovery)
  {
    hide Regular, StageRunner.Valid;
    var hired: map<DeviceId, StageRunner> := map[];
    for i := 0 to |t.placement|
      invariant forall d :: d in hired ==> fresh(hired[d]) && Idle(hired[d], t)
      invariant forall d, e :: d in hired && e in hired && d != e ==> hired[d] != hired[e]
      invariant forall j :: 0 <= j < i ==> t.placement[j].device in hired
    {
      var runner := new StageRunner(t.job.model, t.geometry);
      hired := hired[t.placement[i].device := runner];
    }
    fleet := new Fleet(hired, t.job.model, t.geometry, pushKv);
    IdleUnheard(fleet.State(), t.request);
  }

  lemma IdleUnheard(w: World, r: RequestId)
    requires w.outbox == {} && forall d :: d in w.runners ==> w.runners[d].kv == map[]
    ensures Unheard(w, r)
  {
    forall h
      ensures KvAt(w, h, r) == []
    {}
  }

  lemma StillWell(t: Task, w: World, u: World)
    requires AllWell(t, w) && OnlyLoaded(w, u)
    ensures AllWell(t, u)
  {}

  /** They are deployed, each device with the backups it is to hold. */
  method Staff(t: Task, pushKv: bool) returns (fleet: Fleet)
    requires t.Valid()
    ensures fresh(fleet) && fresh(fleet.Repr()) && fleet.Valid() && OnFleet(t, fleet) && fleet.pushKv == pushKv
    ensures AllWell(t, fleet.State()) && BackupsStand(t, fleet.State()) && Unheard(fleet.State(), t.request)
    ensures Deployed(fleet.State(), t.placement, t.recovery, true)
  {
    hide Unheard, Fleet.Valid, OnlyLoaded, Regular, BackedUp;
    fleet := Hire(t, pushKv);
    ghost var w := fleet.State();
    var deployed := Deploy(fleet, t.placement, t.recovery, true);
    StillUnheard(w, fleet.State(), t.request);
    StillWell(t, w, fleet.State());
  }

  method Begin(t: Task, mode: Mode, parityK: nat, pushKv: bool, bytes: nat) returns (gw: RequestGateway)
    requires t.Valid() && (parityK == 1 || parityK == 2)
    ensures fresh(gw) && fresh(gw.Repr()) && gw.mode == mode && gw.parity.k == parityK && gw.fleet.pushKv == pushKv
    ensures Equipped(gw, t) && AllWell(t, gw.fleet.State()) && Ready(t, 0, gw.Snap(t.request), t.placement)
    ensures gw.plans.State() == Plans(t.placement, t.recovery, {}, t.placement)
    ensures gw.cache.State() == Lru.Store([], map[]) && gw.cache.maxBytes == bytes && gw.parity.entries == map[]
  {
    hide Unheard, Deployed, Fleet.Valid, AllWell, BackupsStand, RequestGateway.Valid, Regular;
    var fleet := Staff(t, pushKv);
    gw := Open(mode, fleet, parityK, bytes, bytes, bytes, t.placement, t.recovery, t, true);
  }

  // ---------- who is up ----------

  /** A stage whose device is alive and for which no crash is due is up. */
  lemma StageIsUp(t: Task, p: nat, s: Snapshot, i: nat)
    requires Ready(t, p, s, t.placement) && i < |t.placement| && t.placement[i].device in s.world.alive
    requires Fault(HoldsOf(t.placement)[i], p) !in s.world.faults
    ensures !Down(s.world, HoldsOf(t.placement)[i], p)
  {
    ReadyParts(t, p, s, t.placement);
    assert LoadedAt(s.world, HoldsOf(t.placement)[i]);
  }

  /** While all is well, every stage is up. */
  lemma WellIsUp(t: Task, p: nat, s: Snapshot)
    requires Ready(t, p, s, t.placement) && AllWell(t, s.world)
    ensures NextDown(p, s.world, t.placement) == t.Stages() == |t.placement|
  {
    ReadyParts(t, p, s, t.placement);
    forall i | 0 <= i < |t.placement|
      ensures !Down(s.world, HoldsOf(t.placement)[i], p)
    {
      StageIsUp(t, p, s, i);
    }
  }

  /** A crash is due at stage v and nowhere else. */
  ghost predicate CrashDue(t: Task, p: nat, v: nat, w: World) {
    v < |t.placement| && EverybodyUp(t, w) && w.faults == {Fault(HoldsOf(t.placement)[v], p)}
  }

  /** The call will stop there. */
  lemma CrashIsNext(t: Task, p: nat, v: nat, s: Snapshot)
    requires Ready(t, p, s, t.placement) && CrashDue(t, p, v, s.world)
    ensures NextDown(p, s.world, t.placement) == v < t.Stages() == |t.placement|
  {
    ReadyParts(t, p, s, t.placement);
    PlanHoldsDistinct(t, t.placement);
    var hs := HoldsOf(t.placement);
    forall i | 0 <= i < v
      ensures !Down(s.world, hs[i], p)
    {
      StageIsUp(t, p, s, i);
    }
    assert Down(s.world, hs[v], p);
  }

  // ---------- what a call sends ----------

  /** The inputs of the stages behind the head, up to stage v, are on their way to the coordinator. */
  ghost predicate InputsSent(t: Task, p: nat, v: nat, outbox: set<Message>) {
    forall j {:trigger t.job.keys[j]} :: 0 < j <= v && j < t.Stages() ==>
      Mirror(t.request, t.job.keys[j], p, In(t.job, p, j)) in outbox
  }

  lemma {:induction false} CallSendsInputs(t: Task, p: nat, s: Snapshot, pushKv: bool)
    requires Ready(t, p, s, t.placement) && WorldValid(s.world) && EverybodyUp(t, s.world)
    requires HoldsOf(t.placement) != []
    ensures InputsSent(t, p, NextDown(p, s.world, t.placement),
      ChainCall(s.world, t.job.model, pushKv, HoldsOf(t.placement), StepCall(t, In(t.job, p, 0), p)).0.outbox)
  {
    hide ChainCall, In, KvIs, Wired;
    ReadyParts(t, p, s, t.placement);
    forall j: nat | 0 < j <= NextDown(p, s.world, t.placement) && j < t.Stages()
      ensures Mirror(t.request, t.job.keys[j], p, In(t.job, p, j)) in
        ChainCall(s.world, t.job.model, pushKv, HoldsOf(t.placement), StepCall(t, In(t.job, p, 0), p)).0.outbox
    {
      InputSent(t, p, s, t.placement, pushKv, j);
    }
  }

  /** So are the prompt's KV columns, if workers ship them. */
  ghost predicate ColumnsSent(t: Task, outbox: set<Message>) {
    forall j, slot {:trigger TrueColumn(t.job, j, slot)} :: 0 < j < t.Stages() && 0 <= slot < PastLength(t.job) ==>
      KvPush(t.request, t.job.keys[j], slot, TrueColumn(t.job, j, slot)) in outbox
  }

  lemma PrefillSendsColumns(t: Task, s: Snapshot)
    requires Ready(t, 0, s, t.placement) && WorldValid(s.world) && AllWell(t, s.world) && HoldsOf(t.placement) != []
    ensures ColumnsSent(t,
      ChainCall(s.world, t.job.model, true, HoldsOf(t.placement), StepCall(t, In(t.job, 0, 0), 0)).0.outbox)
  {
    hide ChainCall, In;
    ReadyIsCalled(t, 0, s, t.placement, map[]);
    CalledReady(t, 0, s.(mirrors := map[]), t.placement);
    WellIsUp(t, 0, s);
    CallPushes(t, s.world, true, HoldsOf(t.placement), 0, In(t.job, 0, 0), 0);
    forall j, slot | 0 < j < t.Stages() && 0 <= slot < PastLength(t.job)
      ensures KvPush(t.request, t.job.keys[j], slot, TrueColumn(t.job, j, slot)) == ColumnPush(t, j, slot)
    {
      assert AddedAt(t, 0, slot);
    }
  }

  // ---------- the calls ----------

  lemma {:induction false} PrefillOutcome(t: Task, s: Snapshot, u: Snapshot, pushKv: bool, reply: Reply)
    requires Ready(t, 0, s, t.placement) && AllWell(t, s.world) && BackupsStand(t, s.world) && WorldValid(s.world)
    requires HoldsOf(t.placement) != []
    requires (u.world, reply) ==
      ChainCall(s.world, t.job.model, pushKv, HoldsOf(t.placement), StepCall(t, In(t.job, 0, 0), 0))
    requires CallOutcome(t, 0, s.world, u, t.placement, reply)
    ensures Ready(t, 1, u, t.placement) && AllWell(t, u.world) && BackupsStand(t, u.world)
    ensures InputsSent(t, 0, t.Stages(), u.world.outbox) && (pushKv ==> ColumnsSent(t, u.world.outbox))
  {
    hide Task.Valid, Ready, Completed, FirstDown, Answers, InputsSent, ColumnsSent, ChainCall, In, BackupsStand;
    WellIsUp(t, 0, s);
    CallSendsInputs(t, 0, s, pushKv);
    if pushKv {
      PrefillSendsColumns(t, s);
    }
    BackupsStay(t, s.world, u.world);
    NextReady(t, 0, u, t.placement);
  }

  /** The prefill gets through. */
  method Prefill(gw: RequestGateway, t: Task, blob: Bytes)
    requires Equipped(gw, t) && AllWell(t, gw.fleet.State()) && Ready(t, 0, gw.Snap(t.request), t.placement)
    requires gw.plans.plan == t.placement && t.placement != [] && blob == In(t.job, 0, 0)
    modifies gw.fleet.Repr(), gw.cache
    ensures Equipped(gw, t) && AllWell(t, gw.fleet.State()) && Ready(t, 1, gw.Snap(t.request), t.placement)
    ensures gw.plans.State() == old(gw.plans.State())
    ensures InputsSent(t, 0, t.Stages(), gw.fleet.outbox) && (gw.fleet.pushKv ==> ColumnsSent(t, gw.fleet.outbox))
    ensures gw.cache.State() == BlobStore.Step(old(gw.cache.State()),
      BlobStore.Put(t.request, BlobStore.Slot(t.placement[0].Key(), 0), blob), gw.cache.maxBytes, 0)
  {
    hide BackupsStand, Fleet.Valid, Group, Task.Valid, AllWell, CallOutcome, BlobStore.Step, Ready, In, InputsSent,
      ColumnsSent;
    ghost var s := gw.Snap(t.request);
    var reply := CallHead(gw, t.request, gw.plans.plan[0], 0, blob, t, t.placement);
    PrefillOutcome(t, s, gw.Snap(t.request), gw.fleet.pushKv, reply);
  }

  /** What is known once the call has failed at stage v. */
  ghost predicate Failing(t: Task, p: nat, v: nat, s: Snapshot) {
    && Stricken(t, p, v, s, t.placement) && BackupsStand(t, s.world) && v < |t.placement|
    && s.world.faults <= {Fault(HoldsOf(t.placement)[v], p)}
    && forall i :: 0 <= i < |t.placement| && i != v ==> t.placement[i].device in s.world.alive
  }

  lemma {:induction false} FailureOutcome(t: Task, p: nat, v: nat, s: Snapshot, u: Snapshot, pushKv: bool, reply: Reply)
    requires Ready(t, p, s, t.placement) && CrashDue(t, p, v, s.world) && WorldValid(s.world)
    requires BackupsStand(t, s.world) && HoldsOf(t.placement) != []
    requires (u.world, reply) ==
      ChainCall(s.world, t.job.model, pushKv, HoldsOf(t.placement), StepCall(t, In(t.job, p, 0), p))
    requires CallOutcome(t, p, s.world, u, t.placement, reply)
    ensures Failing(t, p, v, u) && InputsSent(t, p, v, u.world.outbox) && reply.Unavailable?
    ensures Blames(t, v, t.placement, t.placement[0], reply.trailer)
  {
    hide ChainCall, In, Stricken, InputsSent, BackupsStand, FirstDown;
    ReadyParts(t, p, s, t.placement);
    CrashIsNext(t, p, v, s);
    CallSendsInputs(t, p, s, pushKv);
    OthersLive(t, p, s, t.placement, pushKv);
    BackupsStay(t, s.world, u.world);
    forall i | 0 <= i < |t.placement| && i != v
      ensures t.placement[i].device != t.placement[v].device
    {
      assert Apart(t.placement, i, v) && Apart(t.placement, v, i);
    }
  }

  /** Stage v crashes when it is called. */
  method FailAt(gw: RequestGateway, t: Task, p: nat, blob: Bytes, ghost v: nat) returns (trailer: Option<StageKey>)
    requires Equipped(gw, t) && CrashDue(t, p, v, gw.fleet.State()) && Ready(t, p, gw.Snap(t.request), t.placement)
    requires gw.plans.plan != [] && t.placement != [] && gw.plans.plan[0] == t.placement[0] && blob == In(t.job, p, 0)
    modifies gw.fleet.Repr(), gw.cache
    ensures Equipped(gw, t) && Failing(t, p, v, gw.Snap(t.request)) && InputsSent(t, p, v, gw.fleet.outbox)
    ensures gw.plans.State() == old(gw.plans.State()) && Blames(t, v, t.placement, t.placement[0], trailer)
    ensures gw.cache.State() == BlobStore.Step(old(gw.cache.State()),
      BlobStore.Put(t.request, BlobStore.Slot(t.placement[0].Key(), p), blob), gw.cache.maxBytes, 0)
  {
    hide Fleet.Valid, Group, Task.Valid, CallOutcome, BlobStore.Step, Ready, In, InputsSent, Failing, CrashDue,
      Blames, BackupsStand;
    ghost var s := gw.Snap(t.request);
    var reply := CallHead(gw, t.request, gw.plans.plan[0], p, blob, t, t.placement);
    FailureOutcome(t, p, v, s, gw.Snap(t.request), gw.fleet.pushKv, reply);
    FailingBacked(t, p, v, gw.Snap(t.request));
    trailer := reply.trailer;
  }

  lemma FailingBacked(t: Task, p: nat, v: nat, s: Snapshot)
    requires Failing(t, p, v, s)
    ensures BackupsStand(t, s.world) && Standing(t, p, Some(v), s, t.placement)
  {}

  /** What the caches take in takes nothing away from it. */
  lemma FailingStands(t: Task, p: nat, v: nat, s: Snapshot, u: Snapshot)
    requires Failing(t, p, v, s) && Standing(t, p, Some(v), u, t.placement) && u.world == s.world
    ensures Failing(t, p, v, u)
  {}

  // ---------- what reaches the coordinator ----------

  /** A message with a stage's input arrives, and there is room for it. */
  method Relay(gw: RequestGateway, msg: Message, ghost t: Task, ghost p: nat, ghost v: Option<nat>)
    requires Equipped(gw, t) && Standing(t, p, v, gw.Snap(t.request), t.placement)
    requires msg.Mirror? && msg.request == t.request && msg in gw.fleet.outbox
    requires BlobStore.StoredBytes(gw.cache.State()) + |msg.blob| <= gw.cache.maxBytes
    modifies gw.cache
    ensures Equipped(gw, t) && Standing(t, p, v, gw.Snap(t.request), t.placement)
    ensures gw.Snap(t.request) == old(gw.Snap(t.request)).(mirrors := gw.cache.Held(t.request))
    ensures old(gw.cache.Held(t.request)).Keys + {BlobStore.Slot(msg.key, msg.position)} <=
      gw.cache.Held(t.request).Keys
    ensures BlobStore.StoredBytes(gw.cache.State()) <= old(BlobStore.StoredBytes(gw.cache.State())) + |msg.blob|
  {
    hide Standing, BackupsStand, MessageSound, Fleet.Valid, ReplicaSound, ParitySound, MirrorsSound,
      BlobStore.StoredBytes, BlobStore.Step, Task.Valid;
    ghost var s := gw.Snap(t.request);
    StandingSound(t, p, v, s, t.placement);
    assert MessageSound(t, KnownPosition(p, v), KnownStages(t, p, v), msg);
    BlobStore.PutFits(gw.cache.State(), t.request, BlobStore.Slot(msg.key, msg.position), msg.blob,
      gw.cache.maxBytes, 0);
    RecordMirror(gw, msg, t, KnownPosition(p, v), KnownStages(t, p, v));
    gw.OnlyCachesMoved(t.request);
    DeliveredStands(t, p, v, s, gw.Snap(t.request), t.placement);
  }

  lemma PushedKeys(logs: Logs, slot: int, c: Contribution)
    ensures var u := PushLog(logs, slot, c, c.key in Keys(ContributionsAt(logs, slot)));
      Keys(ContributionsAt(u, slot)) == Keys(ContributionsAt(logs, slot)) + {c.key}
  {
    var cs := ContributionsAt(logs, slot);
    forall x
      ensures x in Keys(cs + [c]) <==> x in Keys(cs) + {c.key}
    {
      assert c in cs + [c];
      if x in Keys(cs) {
        var d :| d in cs && d.key == x;
        assert d in cs + [c];
      }
    }
  }

  /** A message with a KV column arrives and is folded into the parity blobs of its slot. */
  method RelayColumn(gw: RequestGateway, msg: Message, ghost t: Task, ghost p: nat, ghost v: Option<nat>)
    requires Equipped(gw, t) && Standing(t, p, v, gw.Snap(t.request), t.placement)
    requires msg.KvPush? && msg.request == t.request && msg in gw.fleet.outbox
    modifies gw.parity
    ensures Equipped(gw, t) && Standing(t, p, v, gw.Snap(t.request), t.placement)
    ensures gw.Snap(t.request) == old(gw.Snap(t.request)).(parity := gw.parity.LogOf(t.request))
    ensures Keys(gw.parity.LogAt(t.request, msg.slot)) ==
      old(Keys(gw.parity.LogAt(t.request, msg.slot))) + {msg.key}
  {
    hide Standing, BackupsStand, MessageSound, Fleet.Valid, ReplicaSound, ParitySound, MirrorsSound, Task.Valid;
    ghost var s := gw.Snap(t.request);
    StandingSound(t, p, v, s, t.placement);
    assert MessageSound(t, KnownPosition(p, v), KnownStages(t, p, v), msg);
    PushedKeys(gw.parity.LogOf(t.request), msg.slot, Contribution(msg.key, RankOf(gw.coeff, msg.key), msg.column));
    RecordParity(gw, msg, t, KnownPosition(p, v), KnownStages(t, p, v));
    gw.OnlyCachesMoved(t.request);
    DeliveredStands(t, p, v, s, gw.Snap(t.request), t.placement);
  }
}
