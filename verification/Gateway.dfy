/**
 The request gateway: when a stage of the chain fails, it declares the device dead, promotes
 its backup, rewires the chain and rebuilds what was lost. For every recovery it is settled
 when it fails, and whether the state and the answer it leaves are the fault-free ones.
 */
module Gateway {
  import opened Wrappers
  import opened Types
  import opened ByteStrings
  import opened KvLayout
  import opened Reference
  import opened Workforce
  import opened Chains
  import opened ExecutionPlans
  import opened ActivationMirror
  import opened Lru
  import opened KvReplica
  import opened KvParity
  import opened ParityProtocol
  import opened ReplicaProtocol
  import opened Protocol
  import opened Rewiring
  import opened Rebuild
  import opened ParityRecovery
  import opened Recoverability
  import BlobStore

  datatype Mode = FullReplay | Surgical | Replicate | Parity

  /** The order of the parity ranks: non-head stages by first layer, then as listed. */
  predicate RanksBefore(placement: Placement, a: nat, b: nat)
    requires a < |placement| && b < |placement|
  {
    && placement[a].start > 1
    && (placement[a].start < placement[b].start || (placement[a].start == placement[b].start && a < b))
  }

  function EarlierNonHead(placement: Placement, i: nat, n: nat): nat
    requires i < |placement| && n <= |placement|
  {
    if n == 0 then 0
    else EarlierNonHead(placement, i, n - 1) + (if RanksBefore(placement, n - 1, i) then 1 else 0)
  }

  /** Stage i is a non-head stage and no later one among the first n has its range. */
  ghost predicate LastOfRange(placement: Placement, i: nat, n: nat)
    requires i < n <= |placement|
  {
    placement[i].start > 1 && forall j :: i < j < n ==> placement[j].Key() != placement[i].Key()
  }

  ghost predicate RankedAmong(placement: Placement, coeff: map<StageKey, nat>, n: nat)
    requires n <= |placement|
  {
    forall i :: 0 <= i < n && LastOfRange(placement, i, n) ==>
      placement[i].Key() in coeff && coeff[placement[i].Key()] == EarlierNonHead(placement, i, |placement|)
  }

  /** The 0-based rank of every non-head range by its first layer. */
  method RankNonHead(placement: Placement) returns (coeff: map<StageKey, nat>)
    ensures RankedAmong(placement, coeff, |placement|)
  {
    coeff := map[];
    for i := 0 to |placement|
      invariant RankedAmong(placement, coeff, i)
    {
      ghost var before := coeff;
      if placement[i].start > 1 {
        var rank := 0;
        for n := 0 to |placement|
          invariant rank == EarlierNonHead(placement, i, n)
        {
          if RanksBefore(placement, n, i) {
            rank := rank + 1;
          }
        }
        coeff := coeff[placement[i].Key() := rank];
      }
      forall a | 0 <= a < i && LastOfRange(placement, a, i + 1)
        ensures LastOfRange(placement, a, i) && coeff[placement[a].Key()] == before[placement[a].Key()]
      {}
    }
  }

  lemma {:induction false} EarlierIsIndex(t: Task, i: nat, n: nat)
    requires t.Valid() && 0 < i < t.Stages() && n <= t.Stages()
    ensures EarlierNonHead(t.placement, i, n) == if n == 0 then 0 else if n <= i then n - 1 else i - 1
  {
    if n > 0 {
      EarlierIsIndex(t, i, n - 1);
      StageOfKey(t, n - 1);
      assert Follows(t.placement, n - 1) && Follows(t.placement, i);
      if n - 1 < i {
        RangesIncrease(t.placement, n - 1, i);
      } else if n - 1 > i {
        RangesIncrease(t.placement, i, n - 1);
      }
    }
  }

  /** On a pipeline the rank of stage i is i - 1. */
  lemma NonHeadRanked(t: Task, coeff: map<StageKey, nat>)
    requires t.Valid()
    requires RankedAmong(t.placement, coeff, |t.placement|)
    ensures Ranked(t, coeff)
  {
    forall i | 0 < i < t.Stages()
      ensures t.job.keys[i] in coeff && coeff[t.job.keys[i]] == i - 1
    {
      EarlierIsIndex(t, i, t.Stages());
      LastOnPipeline(t, i);
    }
  }

  lemma LastOnPipeline(t: Task, i: nat)
    requires t.Valid() && 0 < i < t.Stages()
    ensures LastOfRange(t.placement, i, |t.placement|)
  {
    StageOfKeys(t, i);
    StageOfKey(t, i);
    assert t.job.keys[i] == t.placement[i].Key();
    forall j | i < j < |t.placement|
      ensures t.placement[j].Key() != t.placement[i].Key()
    {
      assert t.job.keys[j] == t.placement[j].Key();
    }
  }

  class RequestGateway {
    const mode: Mode
    const fleet: Fleet
    const plans: ExecutionPlan
    const cache: ActivationCache
    const parity: ParityCache
    const replica: ReplicaCache
    /** Rank of each non-head range, fixed when the gateway is built. */
    const coeff: map<StageKey, nat>

    ghost function Repr(): set<object> {
      {plans, cache, parity, replica} + fleet.Repr()
    }

    ghost predicate Valid()
      reads Repr()
    {
      && fleet.Valid() && plans.Valid() && cache.Valid() && parity.Valid() && replica.Valid()
      && plans !in fleet.Repr() && cache !in fleet.Repr() && parity !in fleet.Repr() && replica !in fleet.Repr()
    }

    /** Everything there is about one request. */
    ghost function Snap(r: RequestId): Snapshot
      reads Repr()
    {
      Snapshot(fleet.State(), plans.State(), cache.Held(r), replica.Held(r), parity.LogOf(r))
    }

    /** Work on the fleet, and reads of the mirror cache, leave the rest of the snapshot alone. */
    twostate lemma OnlyFleetMoved(r: RequestId)
      requires old(Valid()) && fleet.Valid() && cache.Valid() && cache.Held(r) == old(cache.Held(r))
      requires unchanged(plans) && unchanged(parity) && unchanged(replica)
      ensures Valid() && Snap(r) == old(Snap(r)).(world := fleet.State())
    {}

    twostate lemma OnlyMirrorRead(r: RequestId)
      requires old(Valid()) && cache.Valid() && cache.Held(r) == old(cache.Held(r))
      requires unchanged(plans) && unchanged(parity) && unchanged(replica) && unchanged(fleet.Repr())
      ensures Valid() && Snap(r) == old(Snap(r))
    {
      assert fleet.State() == old(fleet.State());
    }

    /** What the caches take in leaves workers and plans alone. */
    twostate lemma OnlyCachesMoved(r: RequestId)
      requires old(Valid()) && cache.Valid() && parity.Valid() && replica.Valid()
      requires unchanged(plans) && unchanged(fleet.Repr())
      ensures Valid()
      ensures Snap(r) ==
        old(Snap(r)).(mirrors := cache.Held(r), replica := replica.Held(r), parity := parity.LogOf(r))
    {
      assert fleet.State() == old(fleet.State());
    }

    /** The gateway was built for the request's placement, model and KV geometry. */
    ghost predicate Serves(t: Task) {
      OnFleet(t, fleet) && Group(t, parity, coeff)
    }

    /** A gateway for a fresh placement: the parity group is every stage but the head. */
    constructor (mode: Mode, fleet: Fleet, placement: Placement, recovery: RecoveryTable, parityK: nat,
        mirrorBytes: nat, parityBytes: nat, replicaBytes: nat)
      requires fleet.Valid() && (parityK == 1 || parityK == 2)
      ensures Valid() && this.mode == mode && this.fleet == fleet && parity.k == parityK
      ensures fresh(plans) && fresh(cache) && fresh(parity) && fresh(replica)
      ensures plans.State() == Plans(placement, recovery, {}, placement)
      ensures cache.State() == Store([], map[]) && cache.maxBytes == mirrorBytes
      ensures replica.entries == map[] && parity.entries == map[]
      ensures RankedAmong(placement, coeff, |placement|)
      ensures parity.numStages == if placement == [] then 0 else |placement| - 1
    {
      hide Fleet.Valid;
      assert forall o :: o in fleet.Repr() ==> allocated(o);
      var ranks := RankNonHead(placement);
      this.mode, this.fleet := mode, fleet;
      plans := new ExecutionPlan(placement, recovery);
      cache := new ActivationCache(mirrorBytes);
      parity := new ParityCache(if placement == [] then 0 else |placement| - 1, parityBytes, parityK);
      replica := new ReplicaCache(replicaBytes);
      coeff := ranks;
    }

    // ---------- blame ----------

    /** The placement stage that a relayed range names; without a usable one, the head. */
    method AttributeChainFailure(head: Stage, trailer: Option<StageKey>) returns (stage: Stage)
      ensures trailer.None? ==> stage == head
      ensures trailer.Some? ==>
        || (stage == head && forall i :: 0 <= i < |plans.placement| ==> plans.placement[i].Key() != trailer.value)
        || (exists i :: (0 <= i < |plans.placement| && stage == plans.placement[i] && stage.Key() == trailer.value
                         && forall j :: 0 <= j < i ==> plans.placement[j].Key() != trailer.value))
    {
      if trailer.None? {
        return head;
      }
      for i := 0 to |plans.placement|
        invariant forall j :: 0 <= j < i ==> plans.placement[j].Key() != trailer.value
      {
        if plans.placement[i].Key() == trailer.value {
          return plans.placement[i];
        }
      }
      stage := head;
    }

    /** Attribution finds the true victim: the stage whose range was relayed, or the head called. */
    method FindVictim(head: Stage, trailer: Option<StageKey>, ghost t: Task, ghost p: nat, ghost v: nat,
        ghost wired: Placement) returns (stage: Stage)
      requires Valid() && Stricken(t, p, v, Snap(t.request), wired) && Blames(t, v, wired, head, trailer)
      ensures v < |wired| == |t.placement| == t.Stages() && stage.device == VictimDevice(t, wired, v)
      ensures stage.Key() == t.job.keys[v] && (stage.start == 1 <==> v == 0) && (v > 0 ==> stage == t.placement[v])
    {
      StrickenShape(t, p, v, Snap(t.request), wired);
      StageOfKey(t, v);
      assert Follows(t.placement, v);
      stage := AttributeChainFailure(head, trailer);
      if v > 0 {
        assert plans.placement[v].Key() == t.job.keys[v];
        forall i | 0 <= i < |plans.placement| && i != v
          ensures plans.placement[i].Key() != t.job.keys[v]
        {
          StageOfKey(t, i);
        }
      }
    }

    /** Declare the victim dead, unless the failure detector was faster. */
    method DeclareVictim(dead: Stage, ghost t: Task, ghost p: nat, ghost v: nat, ghost wired: Placement)
      returns (r: Result<(), GatewayError>)
      requires Valid() && Stricken(t, p, v, Snap(t.request), wired)
      requires v < |wired| == |t.placement| && dead.device == VictimDevice(t, wired, v)
      modifies plans
      ensures Valid() && Snap(t.request) == WithoutVictim(t, old(Snap(t.request)), wired, v)
      ensures r.Success? <==> Declarable(old(plans.State()), dead.device)
      ensures r.Success? ==> Stricken(t, p, v, Snap(t.request), wired)
      ensures r.Success? ==> |plans.plan| == |old(plans.plan)| &&
                             forall i :: 0 <= i < |plans.plan| && i != v ==> plans.plan[i] == old(plans.plan[i])
    {
      ghost var s := Snap(t.request);
      if dead.device in plans.dead {
        return Success(());
      }
      var marked := plans.MarkDead(dead.device);
      assert Snap(t.request) == Declared(s, dead.device);
      if marked.Failure? {
        return Failure(NoRecoveryError);
      }
      VictimDeclared(t, p, v, s, wired);
      r := Success(());
    }

    // ---------- promotion and wiring ----------

    /** Promote backups and rewire, keeping what is known of the request. */
    method Promote(r: RequestId, dead: seq<DeviceId>, ghost t: Task, ghost p: nat, ghost v: nat, ghost wired: Placement)
      returns (res: Result<(), GatewayError>)
      requires Valid() && r == t.request && Stricken(t, p, v, Snap(r), wired)
      modifies fleet.Repr()
      ensures Valid() && Snap(r) == old(Snap(r)).(world := fleet.State())
      ensures OnlyRewired(old(fleet.State()), fleet.State())
      ensures res.Success? <==> forall i :: 0 <= i < |dead| ==> Promotable(old(fleet.State()), plans.recovery, dead[i])
      ensures res.Success? ==> Substituted(t, p, v, Snap(r), wired)
    {
      res := PromoteKeeping(fleet, plans.plan, plans.recovery, dead, t, p, v, Snap(r), wired);
      OnlyFleetMoved(r);
    }

    /** Attribute the failure, declare the victim dead, promote its backup and rewire. */
    method SubstituteVictim(r: RequestId, head: Stage, trailer: Option<StageKey>, ghost t: Task, ghost p: nat,
        ghost v: nat, ghost wired: Placement) returns (dead: Result<Stage, GatewayError>)
      requires Valid() && r == t.request && Stricken(t, p, v, Snap(r), wired) && Blames(t, v, wired, head, trailer)
      modifies fleet.Repr(), plans
      ensures Valid() && v < |wired| == |t.placement| == t.Stages()
      ensures dead.Success? <==> Substitutable(t, old(Snap(r)), wired, v)
      ensures dead.Success? ==> dead.value.Key() == t.job.keys[v] && OnlyRewired(old(fleet.State()), fleet.State())
      ensures dead.Success? ==> Snap(r) == WithoutVictim(t, old(Snap(r)), wired, v).(world := fleet.State())
      ensures dead.Success? ==> Substituted(t, p, v, Snap(r), wired)
      ensures dead.Success? ==> (Settled(p, v, plans.plan, wired) <==> Settled(p, v, old(plans.plan), wired))
    {
      hide Settled, Promotable, Declarable;
      ghost var plan := plans.plan;
      var victim := FindVictim(head, trailer, t, p, v, wired);
      var marked := DeclareVictim(victim, t, p, v, wired);
      if marked.Failure? {
        return Failure(marked.error);
      }
      SettledStays(p, v, plan, plans.plan, wired);
      assert [victim.device][0] == victim.device;
      var promoted := Promote(r, [victim.device], t, p, v, wired);
      dead := if promoted.Failure? then Failure(promoted.error) else Success(victim);
    }

    // ---------- full replay ----------

    /** The mirrored inputs of a stage, from position 0 on: the fault-free ones. */
    method ReadHistory(r: RequestId, key: StageKey, ghost t: Task, ghost p: nat, ghost v: nat, ghost i: nat)
      returns (h: seq<Bytes>)
      requires Valid() && t.Valid() && i < t.Stages() && key == t.job.keys[i] && r == t.request
      requires MirrorsSound(t, p, v, cache.Held(r))
      modifies cache
      ensures Valid() && Snap(r) == old(Snap(r))
      ensures forall q :: 0 <= q < |h| ==> h[q] == In(t.job, q, i)
      ensures i > v ==> |h| <= p
      ensures i == 0 && h != [] ==> |h| == p + 1
      ensures |h| > p <==> MirroredUpTo(Snap(r), key, p)
      ensures h == [] <==> BlobStore.Slot(key, 0) !in Snap(r).mirrors
    {
      ghost var m := cache.Held(r);
      h := cache.GetHistory(r, key);
      HistoryIsTrue(t, p, v, m, i, h);
      OnlyMirrorRead(r);
    }

    /** The mirrored input of a stage at the failed position, if its history reaches that far. */
    method MirroredInput(r: RequestId, key: StageKey, p: nat, ghost t: Task, ghost v: nat, ghost e: nat)
      returns (input: Option<Bytes>)
      requires Valid() && r == t.request && t.Valid() && MirrorsSound(t, p, v, cache.Held(r))
      requires e < t.Stages() && key == t.job.keys[e]
      modifies cache
      ensures Valid() && Snap(r) == old(Snap(r))
      ensures input.Some? ==> input.value == In(t.job, p, e) && e <= v
      ensures input.Some? <==> MirroredUpTo(Snap(r), key, p)
    {
      var history := ReadHistory(r, key, t, p, v, e);
      input := if |history| <= p then None else Some(history[p]);
    }

    /** Replay the head's whole input history through the rewired chain. */
    method ReplayThroughChain(r: RequestId, head: Stage, ghost t: Task, ghost p: nat)
      returns (res: Result<Reply, GatewayError>)
      requires Valid() && Serves(t) && r == t.request && t.Valid() && PlanOk(t, plans.State()) && OffPlan(t, Snap(r))
      requires plans.plan != [] && head == plans.plan[0] && Sound(t, p, t.Stages(), Snap(r))
      requires Linked(fleet.State().nextHops, fleet.State().alive, HoldsOf(plans.plan))
      modifies fleet.Repr(), cache
      ensures Valid() && plans.State() == old(plans.State()) && (res.Success? ==> Faithful(t, p, res.value, Snap(r)))
      ensures res.Success? <==> Replayable(t, p, old(Snap(r)))
      ensures res.Success? ==> Unharmed(old(fleet.State()), fleet.State())
    {
      ghost var s := Snap(r);
      PlanShape(t, s.plans);
      var history := ReadHistory(r, head.Key(), t, p, t.Stages(), 0);
      if history == [] {
        return Failure(RuntimeError);
      }
      res := ReplayAndFinish(fleet, head, history, r, t, p, s);
      OnlyFleetMoved(r);
    }

    /** Drop the survivors' KV and rebuild the whole request from the head's history. */
    method ReplayAll(r: RequestId, ghost t: Task, ghost p: nat, ghost v: nat, ghost wired: Placement)
      returns (res: Result<Recovery, GatewayError>)
      requires Valid() && Serves(t) && r == t.request && Substituted(t, p, v, Snap(r), wired)
      modifies fleet.Repr(), cache
      ensures Valid() && plans.State() == old(plans.State())
      ensures res.Success? ==> res.value.path == Replay && Faithful(t, p, res.value.reply, Snap(r))
      ensures res.Success? <==> Replayable(t, p, old(Snap(r)))
      ensures res.Success? ==> Unharmed(old(fleet.State()), fleet.State())
    {
      ghost var s := Snap(r);
      StrickenShape(t, p, v, s, wired);
      OffPlanClean(t, p, v, s, wired);
      SoundLater(t, p, v, t.Stages(), s);
      EvictedReplays(t, p, s, fleet.alive - plans.dead, r);
      EvictedClean(t, s, fleet.alive - plans.dead, r);
      EvictKvForRequest(fleet, plans.dead, r);
      OnlyFleetMoved(r);
      var replayed := ReplayThroughChain(r, plans.plan[0], t, p);
      res := if replayed.Failure? then Failure(replayed.error) else Success(Recovery(replayed.value, Replay));
    }

    /** Full replay: right whatever else the plan has substituted meanwhile. */
    method RecoverFullReplay(r: RequestId, head: Stage, trailer: Option<StageKey>, ghost t: Task, ghost p: nat,
        ghost v: nat, ghost wired: Placement) returns (res: Result<Recovery, GatewayError>)
      requires Valid() && Serves(t) && r == t.request && Stricken(t, p, v, Snap(r), wired)
      requires Blames(t, v, wired, head, trailer)
      modifies fleet.Repr(), plans, cache
      ensures Valid() && ReplaysFrom(t, p, v, old(Snap(r)), wired, res, Snap(r))
    {
      ghost var s := Snap(r);
      var dead := SubstituteVictim(r, head, trailer, t, p, v, wired);
      if dead.Failure? {
        return Failure(dead.error);
      }
      RewiredResumes(t, p, v, WithoutVictim(t, s, wired, v), fleet.State());
      res := ReplayAll(r, t, p, v, wired);
    }

    // ---------- surgical recovery ----------

    /**
     Surgical recovery: rebuild only the backup's KV from the victim's mirrored inputs and run
     the failed position from there; with a gap in the mirror, replay everything. A rebuild
     is right exactly if the plan still runs every other stage where it was wired.
     */
    method RecoverSurgical(r: RequestId, head: Stage, trailer: Option<StageKey>, p: nat, ghost t: Task, ghost v: nat,
        ghost wired: Placement) returns (res: Result<Recovery, GatewayError>, ghost mid: World)
      requires Valid() && Serves(t) && r == t.request && Stricken(t, p, v, Snap(r), wired)
      requires Blames(t, v, wired, head, trailer)
      modifies fleet.Repr(), plans, cache
      ensures Valid() && RecoversFrom(t, p, v, old(Snap(r)), wired, res, Snap(r))
      ensures res.Success? ==>
        v < |wired| == |t.placement| && plans.State() == WithoutVictim(t, old(Snap(r)), wired, v).plans
      ensures res.Success? && res.value.path == Rebuild ==>
        Rerun(t, p, v, old(fleet.State()), mid, fleet.State(), fleet.pushKv, HoldsOf(plans.plan), res.value.reply)
    {
      hide Judged, Rerun;
      ghost var s := Snap(r);
      mid := s.world;
      var dead := SubstituteVictim(r, head, trailer, t, p, v, wired);
      if dead.Failure? {
        return Failure(dead.error), mid;
      }
      ghost var w := fleet.State();
      res, mid := RebuildFromMirror(r, dead.value.Key(), p, t, v, wired);
      SubstitutedRecovers(t, p, v, s, wired, w, res, Snap(r));
      if res.Success? && res.value.path == Rebuild {
        RewiredReruns(t, p, v, s.world, w, mid, fleet.State(), fleet.pushKv, HoldsOf(plans.plan), res.value.reply);
      }
    }

    /** The surgical rebuild once the backup is promoted and wired. */
    method RebuildFromMirror(r: RequestId, deadKey: StageKey, p: nat, ghost t: Task, ghost v: nat,
        ghost wired: Placement)
      returns (res: Result<Recovery, GatewayError>, ghost mid: World)
      requires Valid() && Serves(t) && r == t.request && Substituted(t, p, v, Snap(r), wired)
      requires v < t.Stages() && deadKey == t.job.keys[v]
      modifies fleet.Repr(), cache
      ensures Valid() && plans.State() == old(plans.State()) && (res.Success? <==> Resumable(t, p, v, old(Snap(r))))
      ensures res.Success? ==> Unharmed(old(fleet.State()), fleet.State())
      ensures res.Success? ==> Judged(t, p, v, old(plans.plan), wired, res.value, Snap(r))
      ensures res.Success? ==> res.value.path == if MirroredUpTo(old(Snap(r)), deadKey, p) then Rebuild else Replay
      ensures res.Success? && res.value.path == Rebuild ==>
        Rerun(t, p, v, old(fleet.State()), mid, fleet.State(), fleet.pushKv, HoldsOf(plans.plan), res.value.reply)
    {
      ghost var s := Snap(r);
      StrickenShape(t, p, v, s, wired);
      var history := ReadHistory(r, deadKey, t, p, v, v);
      if |history| <= p {
        res := ReplayAll(r, t, p, v, wired);
        mid := s.world;
        return;
      }
      res, mid := RebuildFromHistory(r, deadKey, history, p, t, v, wired);
    }

    /** With the victim's inputs at hand: rebuild its backup, and run the failed position from there. */
    method RebuildFromHistory(r: RequestId, deadKey: StageKey, history: seq<Bytes>, p: nat, ghost t: Task, ghost v: nat,
        ghost wired: Placement) returns (res: Result<Recovery, GatewayError>, ghost mid: World)
      requires Valid() && Serves(t) && r == t.request && Substituted(t, p, v, Snap(r), wired)
      requires v < t.Stages() && deadKey == t.job.keys[v]
      requires p < |history| && forall q :: 0 <= q < |history| ==> history[q] == In(t.job, q, v)
      modifies fleet.Repr()
      ensures Valid() && plans.State() == old(plans.State())
      ensures res.Success? <==> AllUp(old(fleet.State()), HoldsOf(plans.plan), v, p)
      ensures res.Success? ==> Unharmed(old(fleet.State()), fleet.State())
      ensures res.Success? ==> res.value.path == Rebuild && Judged(t, p, v, old(plans.plan), wired, res.value, Snap(r))
      ensures res.Success? ==>
        Rerun(t, p, v, old(fleet.State()), mid, fleet.State(), fleet.pushKv, HoldsOf(plans.plan), res.value.reply)
    {
      hide Reentered, Judged, Rerun, AllUp;
      ghost var s := Snap(r);
      StrickenShape(t, p, v, s, wired);
      ghost var hs := HoldsOf(s.plans.plan);
      var stage := BackupStage(plans.plan, deadKey, t, v, s.plans);
      assert Snap(r) == s;
      var rebuilt;
      rebuilt, mid := RebuildAndRun(fleet, stage, history, p, r, t, v, hs);
      OnlyFleetMoved(r);
      RebuildJudged(t, p, v, s, wired, mid, fleet.State(), fleet.pushKv, rebuilt);
      res := if rebuilt.Failure? then Failure(rebuilt.error) else Success(Recovery(rebuilt.value, Rebuild));
    }

    // ---------- replication ----------

    /** Install a victim's KV bytes on the promoted backup and run position p live from it. */
    method ResumeWith(r: RequestId, deadKey: StageKey, bytes: Bytes, slots: nat, input: Bytes, p: nat, ghost t: Task,
        ghost v: nat, ghost wired: Placement) returns (res: Result<Recovery, GatewayError>)
      requires Valid() && Serves(t) && r == t.request && Substituted(t, p, v, Snap(r), wired)
      requires v < t.Stages() && deadKey == t.job.keys[v]
      requires IsExportOf(t, p, v, bytes) && slots == SlotsBefore(t.job, p) && input == In(t.job, p, v)
      modifies fleet.Repr()
      ensures Valid() && plans.State() == old(plans.State())
      ensures res.Success? <==> AllUp(old(fleet.State()), HoldsOf(plans.plan), v, p)
      ensures res.Success? ==> Unharmed(old(fleet.State()), fleet.State())
      ensures res.Success? ==> res.value.path == Rebuild && Judged(t, p, v, old(plans.plan), wired, res.value, Snap(r))
    {
      hide Reentered, Judged, Rerun, AllUp, IsExportOf;
      ghost var s := Snap(r);
      StrickenShape(t, p, v, s, wired);
      ghost var hs := HoldsOf(s.plans.plan);
      var stage := BackupStage(plans.plan, deadKey, t, v, s.plans);
      assert Snap(r) == s;
      var resumed; ghost var mid;
      resumed, mid := InstallAndRun(fleet, stage, bytes, slots, input, p, r, t, v, hs);
      OnlyFleetMoved(r);
      RebuildJudged(t, p, v, s, wired, mid, fleet.State(), fleet.pushKv, resumed);
      res := if resumed.Failure? then Failure(resumed.error) else Success(Recovery(resumed.value, Rebuild));
    }

    /** The victim's own stored columns, if every slot up to the last one it held is there. */
    method StoredColumns(r: RequestId, key: StageKey, n: nat) returns (stored: Option<Bytes>)
      ensures stored.Some? <==> n > 0 && forall q :: 0 <= q < n ==> BlobStore.Slot(key, q) in replica.Held(r)
      ensures stored.Some? ==> JoinOf(replica.Held(r), key, stored.value)
    {
      if n < 1 {
        return None;
      }
      var complete := replica.IsComplete(r, key, n - 1);
      if !complete {
        return None;
      }
      assert BlobStore.Slot(key, 0) in replica.Held(r);
      BlobStore.PositionsAre(replica.Held(r), key);
      stored := replica.GetStageKv(r, key);
    }

    /** The gates of replicate recovery: stored columns complete, input mirrored, length exact. */
    method PassReplicaGates(r: RequestId, deadKey: StageKey, pastLength: nat, p: nat, ghost t: Task, ghost v: nat)
      returns (stored: Option<Replicated>)
      requires Valid() && Serves(t) && r == t.request && t.Valid() && 0 < v < t.Stages() && deadKey == t.job.keys[v]
      requires MirrorsSound(t, p, v, cache.Held(r)) && ReplicaSound(t, replica.Held(r))
      requires pastLength == PastLength(t.job)
      modifies cache
      ensures Valid() && Snap(r) == old(Snap(r))
      ensures stored.Some? ==> ReplicatedSound(t, p, v, stored.value) && MirroredUpTo(Snap(r), deadKey, p)
      ensures stored.Some? <==> ReplicaGatesOpen(t, p, v, Snap(r))
    {
      hide Group, MirrorsSound, ReplicaSound, MirroredUpTo;
      var g := fleet.geometry;
      var n := if p >= 1 then pastLength + p - 1 else 0;
      ghost var s, m := Snap(r), replica.Held(r);
      var columns := StoredColumns(r, deadKey, n);
      assert Snap(r) == s;
      if columns.None? {
        return None;
      }
      var input := MirroredInput(r, deadKey, p, t, v, v);
      BlobStore.PositionsAre(m, deadKey);
      if input.None? || |columns.value| != n * g.SlotBytes(deadKey) {
        if ReplicaGatesOpen(t, p, v, Snap(r)) {
          ReplicaWhole(t, p, v, m, columns.value);
        }
        return None;
      }
      ReplicaExact(t, p, v, m, columns.value);
      BeforeShape(t.job, t.geometry, p, v);
      var bytes := SlotMajorToLayerMajor(Split(columns.value, n, g.SlotBytes(deadKey)), g.Lanes(deadKey), g.row);
      stored := Some(Replicated(bytes, n, input.value));
    }

    /** Full-KV-replication recovery, with the surgical one behind every gate. */
    method RecoverReplicate(r: RequestId, head: Stage, trailer: Option<StageKey>, pastLength: nat, p: nat,
        ghost t: Task, ghost v: nat, ghost wired: Placement) returns (res: Result<Recovery, GatewayError>)
      requires Valid() && Serves(t) && r == t.request && Stricken(t, p, v, Snap(r), wired)
      requires Blames(t, v, wired, head, trailer) && pastLength == PastLength(t.job)
      modifies fleet.Repr(), plans, cache
      ensures Valid() && RecoversFrom(t, p, v, old(Snap(r)), wired, res, Snap(r))
    {
      hide RecoversFrom, Declarable;
      ghost var s, mid := Snap(r), fleet.State();
      var dead := FindVictim(head, trailer, t, p, v, wired);
      if dead.start == 1 {
        res, mid := RecoverSurgical(r, head, trailer, p, t, v, wired);
        return;
      }
      var marked := DeclareVictim(dead, t, p, v, wired);
      if marked.Failure? {
        res := Failure(marked.error);
        Undeclarable(t, p, v, s, wired, res, Snap(r));
        return;
      }
      res := RebuildFromReplica(r, head, trailer, dead, pastLength, p, t, v, wired);
      DeclaredRecovers(t, p, v, s, wired, res, Snap(r));
    }

    /** The replicate rebuild once the victim is declared: stored columns if the gates pass, else surgical. */
    method RebuildFromReplica(r: RequestId, head: Stage, trailer: Option<StageKey>, dead: Stage, pastLength: nat,
        p: nat,
        ghost t: Task, ghost v: nat, ghost wired: Placement) returns (res: Result<Recovery, GatewayError>)
      requires Valid() && Serves(t) && r == t.request && Stricken(t, p, v, Snap(r), wired)
      requires Blames(t, v, wired, head, trailer) && pastLength == PastLength(t.job)
      requires 0 < v < t.Stages() == |t.placement| && dead == t.placement[v] && dead.device in plans.dead
      modifies fleet.Repr(), plans, cache
      ensures Valid() && RecoversFrom(t, p, v, old(Snap(r)), wired, res, Snap(r))
    {
      hide Promotable, Fleet.Valid, Faithful, Settled;
      ghost var s, mid := Snap(r), fleet.State();
      StrickenShape(t, p, v, s, wired);
      var stored := PassReplicaGates(r, dead.Key(), pastLength, p, t, v);
      if stored.None? {
        res, mid := RecoverSurgical(r, head, trailer, p, t, v, wired);
        return;
      }
      AlreadyDeclared(t, p, v, s, wired);
      assert [dead.device][0] == dead.device;
      var promoted := Promote(r, [dead.device], t, p, v, wired);
      if promoted.Failure? {
        return Failure(promoted.error);
      }
      RewiredUp(s.world, fleet.State(), HoldsOf(s.plans.plan), v, p);
      res := ResumeWith(r, dead.Key(), stored.value.bytes, stored.value.slots, stored.value.input, p, t, v, wired);
    }

    // ---------- parity recovery ----------

    /**
     The gates of parity recovery: aligned survivors, complete slots, and the input of the
     stage to re-enter at mirrored. Nothing is changed.
     */
    method PassGates(r: RequestId, lostKeys: set<StageKey>, upKey: StageKey, p: nat, ghost t: Task, ghost v: nat,
        ghost lost: set<nat>, ghost e: nat, ghost wired: Placement)
      returns (rescue: Option<Rescue>, ghost idx: seq<nat>)
      requires Valid() && Serves(t) && r == t.request && Stricken(t, p, v, Snap(r), wired)
      requires forall i :: 0 <= i < t.Stages() ==> (t.job.keys[i] in lostKeys <==> i in lost)
      requires 0 < e < t.Stages() && upKey == t.job.keys[e]
      modifies cache
      ensures Valid() && Snap(r) == old(Snap(r))
      ensures rescue.Some? ==> v in lost && e <= v && RescueSound(t, p, v, lost, parity.LogOf(r), e, rescue.value, idx)
      ensures rescue.Some? <==> GatesOpen(t, p, v, lost, Snap(r), wired) && MirroredUpTo(Snap(r), upKey, p)
    {
      StrickenShape(t, p, v, Snap(r), wired);
      var surv, n;
      surv, n, idx := AlignedSurvivors(fleet, parity, plans.plan, lostKeys, r, t, p, v, lost, Snap(r), wired);
      if n == 0 {
        return None, [];
      }
      var input := MirroredInput(r, upKey, p, t, v, e);
      if input.None? {
        return None, [];
      }
      rescue := Some(Rescue(surv, n, input.value));
      GatesSuffice(t, p, v, lost, parity.LogOf(r), e, rescue.value, idx);
    }

    /** One victim by P, with the surgical recovery behind every gate. */
    method RecoverSingle(r: RequestId, head: Stage, trailer: Option<StageKey>, p: nat, ghost t: Task, ghost v: nat,
        ghost wired: Placement) returns (res: Result<Recovery, GatewayError>)
      requires Valid() && Serves(t) && r == t.request && Stricken(t, p, v, Snap(r), wired)
      requires Blames(t, v, wired, head, trailer)
      modifies fleet.Repr(), plans, cache
      ensures Valid() && RecoversFrom(t, p, v, old(Snap(r)), wired, res, Snap(r))
    {
      hide RecoversFrom, Declarable;
      ghost var s, mid := Snap(r), fleet.State();
      var dead := FindVictim(head, trailer, t, p, v, wired);
      if dead.start == 1 {
        res, mid := RecoverSurgical(r, head, trailer, p, t, v, wired);
        return;
      }
      var marked := DeclareVictim(dead, t, p, v, wired);
      if marked.Failure? {
        res := Failure(marked.error);
        Undeclarable(t, p, v, s, wired, res, Snap(r));
        return;
      }
      res := RebuildFromParity(r, head, trailer, dead, p, t, v, wired);
      DeclaredRecovers(t, p, v, s, wired, res, Snap(r));
    }

    /** The parity rebuild once the victim is declared: from P if the gates pass, else surgical. */
    method RebuildFromParity(r: RequestId, head: Stage, trailer: Option<StageKey>, dead: Stage, p: nat, ghost t: Task,
        ghost v: nat, ghost wired: Placement) returns (res: Result<Recovery, GatewayError>)
      requires Valid() && Serves(t) && r == t.request && Stricken(t, p, v, Snap(r), wired)
      requires Blames(t, v, wired, head, trailer)
      requires 0 < v < t.Stages() == |t.placement| && dead == t.placement[v] && dead.device in plans.dead
      modifies fleet.Repr(), plans, cache
      ensures Valid() && RecoversFrom(t, p, v, old(Snap(r)), wired, res, Snap(r))
    {
      ghost var s, mid := Snap(r), fleet.State();
      StrickenShape(t, p, v, s, wired);
      StageOfKeys(t, v);
      var rescue; ghost var idx;
      rescue, idx := PassGates(r, {dead.Key()}, dead.Key(), p, t, v, {v}, v, wired);
      if rescue.None? {
        res, mid := RecoverSurgical(r, head, trailer, p, t, v, wired);
        return;
      }
      AlreadyDeclared(t, p, v, s, wired);
      res := WithParity(r, dead, rescue.value, p, t, v, wired, idx);
    }

    /** Past the gates: promote, reconstruct, install, run live. */
    method WithParity(r: RequestId, dead: Stage, rescue: Rescue, p: nat, ghost t: Task, ghost v: nat,
        ghost wired: Placement, ghost idx: seq<nat>) returns (res: Result<Recovery, GatewayError>)
      requires Valid() && Serves(t) && r == t.request && Stricken(t, p, v, Snap(r), wired)
      requires 0 < v < t.Stages() == |t.placement| && dead == t.placement[v] && dead.Key() == t.job.keys[v]
      requires RescueSound(t, p, v, {v}, parity.LogOf(r), v, rescue, idx)
      modifies fleet.Repr()
      ensures Valid() && plans.State() == old(plans.State())
      ensures res.Success? <==> (Promotable(old(fleet.State()), plans.recovery, dead.device) &&
                                 AllUp(old(fleet.State()), HoldsOf(plans.plan), v, p))
      ensures res.Success? ==> Unharmed(old(fleet.State()), fleet.State())
      ensures res.Success? ==> res.value.path == Rebuild && Judged(t, p, v, old(plans.plan), wired, res.value, Snap(r))
    {
      hide Substituted, AllUp, RescueSound, Judged, Promotable, Group, Fleet.Valid;
      ghost var w := fleet.State();
      assert [dead.device][0] == dead.device;
      RescueGives(t, p, v, {v}, parity.LogOf(r), v, rescue, idx);
      var promoted := Promote(r, [dead.device], t, p, v, wired);
      if promoted.Failure? {
        return Failure(promoted.error);
      }
      RewiredUp(w, fleet.State(), HoldsOf(plans.plan), v, p);
      var bytes := ReconstructOne(parity, coeff, dead.Key(), rescue, fleet.geometry, r, t, p, v, idx);
      res := ResumeWith(r, dead.Key(), bytes, rescue.slots, rescue.input, p, t, v, wired);
    }

    /** Past the gates: promote both backups, reconstruct and install both, run live. */
    method WithBoth(r: RequestId, xDead: Stage, yDead: Stage, rescue: Rescue, p: nat, x: nat, y: nat, ghost t: Task,
        ghost v: nat, ghost wired: Placement, ghost idx: seq<nat>) returns (res: Result<Recovery, GatewayError>)
      requires Valid() && Serves(t) && r == t.request && Stricken(t, p, v, Snap(r), wired) && parity.k == 2
      requires 0 < x < y < t.Stages() == |t.placement| && v in {x, y}
      requires RescueSound(t, p, v, {x, y}, parity.LogOf(r), x, rescue, idx)
      requires xDead == t.placement[x] && yDead == t.placement[y] && OthersStand(plans.plan, wired, x, y)
      modifies fleet.Repr()
      ensures Valid() && ReentersFrom(t, p, v, old(Snap(r)), wired, x, y, res, Snap(r))
    {
      hide Substituted, AllUp, RescueSound, OthersStand, Judged, Promotable, ReranBoth;
      ghost var s := Snap(r);
      var both := [xDead.device, yDead.device];
      assert both[0] == xDead.device && both[1] == yDead.device;
      StrickenShape(t, p, v, s, wired);
      var promoted := Promote(r, both, t, p, v, wired);
      if promoted.Failure? {
        return Failure(promoted.error);
      }
      RewiredUp(s.world, fleet.State(), HoldsOf(s.plans.plan), x, p);
      ghost var w := fleet.State();
      res := ReenterAtUpstream(r, xDead.Key(), yDead.Key(), rescue, p, x, y, t, v, wired, idx);
      if res.Success? {
        RewiredReransBoth(t, p, x, y, s.world, w, fleet.State(), HoldsOf(s.plans.plan), res.value.reply);
      }
    }

    /** Both backups promoted: reconstruct and install both, and run live from the upstream one. */
    method ReenterAtUpstream(r: RequestId, xKey: StageKey, yKey: StageKey, rescue: Rescue, p: nat, x: nat, y: nat,
        ghost t: Task, ghost v: nat, ghost wired: Placement, ghost idx: seq<nat>)
      returns (res: Result<Recovery, GatewayError>)
      requires Valid() && Serves(t) && r == t.request && Substituted(t, p, v, Snap(r), wired) && parity.k == 2
      requires 0 < x < y < t.Stages() && v in {x, y} && RescueSound(t, p, v, {x, y}, parity.LogOf(r), x, rescue, idx)
      requires xKey == t.job.keys[x] && yKey == t.job.keys[y] && OthersStand(plans.plan, wired, x, y)
      modifies fleet.Repr()
      ensures Valid() && plans.State() == old(plans.State())
      ensures res.Success? <==> AllUp(old(fleet.State()), HoldsOf(plans.plan), x, p) && (y - x) % 255 != 0
      ensures res.Success? ==> Unharmed(old(fleet.State()), fleet.State())
      ensures res.Success? ==>
        res.value.path == Reentry(x, y) && Judged(t, p, v, old(plans.plan), wired, res.value, Snap(r))
      ensures res.Success? ==>
        ReranBoth(t, p, x, y, old(fleet.State()), fleet.State(), HoldsOf(plans.plan), res.value.reply)
    {
      hide ReranBoth, ReenteredBoth, AllUp, RescueSound, OthersStand, Judged;
      ghost var s := Snap(r);
      StrickenShape(t, p, v, s, wired);
      ghost var hs := HoldsOf(s.plans.plan);
      RescueGives(t, p, v, {x, y}, parity.LogOf(r), x, rescue, idx);
      var xStage := BackupStage(plans.plan, xKey, t, x, s.plans);
      var yStage := BackupStage(plans.plan, yKey, t, y, s.plans);
      assert Snap(r) == s;
      var resumed; ghost var mid;
      resumed, mid := ResumeDouble(fleet, parity, coeff, xStage, yStage, rescue, p, r, t, v, x, y, idx, hs);
      OnlyFleetMoved(r);
      BothJudged(t, p, v, s, wired, mid, fleet.State(), fleet.pushKv, x, y, resumed);
      res := if resumed.Failure? then Failure(resumed.error) else Success(Recovery(resumed.value, Reentry(x, y)));
    }

    /** Two victims from P + Q. None when a gate trips; then nothing has been touched. */
    method TryParityDouble(r: RequestId, xDead: Stage, yDead: Stage, p: nat, x: nat, y: nat, ghost t: Task,
        ghost v: nat,
        ghost wired: Placement) returns (out: Option<Result<Recovery, GatewayError>>)
      requires Valid() && Serves(t) && r == t.request && Stricken(t, p, v, Snap(r), wired) && parity.k == 2
      requires 0 < x < y < t.Stages() == |t.placement| && xDead == t.placement[x] && yDead == t.placement[y]
      requires t.placement[0].device !in plans.dead
      modifies fleet.Repr(), cache
      ensures Valid() && (out.Some? <==> DoubleGatesOpen(t, p, v, x, y, old(Snap(r)), wired))
      ensures out.None? ==> Snap(r) == old(Snap(r))
      ensures out.Some? ==> ReentersFrom(t, p, v, old(Snap(r)), wired, x, y, out.value, Snap(r))
    {
      hide RescueSound, Judged, BothResumable, OnlyRewired, GatesOpen, OthersStand, ReranBoth;
      ghost var s := Snap(r);
      StrickenShape(t, p, v, s, wired);
      StageOfKeys(t, x);
      StageOfKeys(t, y);
      var rescue; ghost var idx;
      rescue, idx := PassGates(r, {xDead.Key(), yDead.Key()}, xDead.Key(), p, t, v, {x, y}, x, wired);
      if rescue.None? {
        return None;
      }
      GatesStand(t, p, v, x, y, s, wired);
      var res := WithBoth(r, xDead, yDead, rescue.value, p, x, y, t, v, wired, idx);
      out := Some(res);
    }

    /** The dead stages of the parity group, in layer order. */
    method DeadNonHead() returns (stages: seq<Stage>, at: seq<nat>)
      ensures DeadGroup(plans.placement, plans.dead, stages, at, |plans.placement|)
    {
      stages, at := [], [];
      for i := 0 to |plans.placement|
        invariant DeadGroup(plans.placement, plans.dead, stages, at, i)
      {
        var stage := plans.placement[i];
        if stage.start > 1 && stage.device in plans.dead {
          stages, at := stages + [stage], at + [i];
        }
      }
    }

    /**
     Parity recovery. With k = 2 and exactly two dead stages in the group it goes by the
     dead set instead of the blame; every gate that trips leads to the surgical recovery.
     */
    method RecoverParity(r: RequestId, head: Stage, trailer: Option<StageKey>, p: nat, ghost t: Task, ghost v: nat,
        ghost wired: Placement) returns (res: Result<Recovery, GatewayError>)
      requires Valid() && Serves(t) && r == t.request && Stricken(t, p, v, Snap(r), wired)
      requires Blames(t, v, wired, head, trailer)
      modifies fleet.Repr(), plans, cache
      ensures Valid()
      ensures ParityRecovers(t, p, v, old(Snap(r)), wired, parity.k, res, Snap(r))
    {
      hide RecoversFrom, ReentersFrom, DoubleGatesOpen, PairRescued, DeadGroup, Fleet.Valid;
      ghost var s, mid := Snap(r), fleet.State();
      StrickenShape(t, p, v, s, wired);
      if parity.k == 2 && plans.placement[0].device !in plans.dead {
        var dead, at := DeadNonHead();
        assert Snap(r) == s;
        DeadPairOrNone(t, p, v, s, wired, dead, at);
        if |dead| == 2 {
          var tried := TryParityDouble(r, dead[0], dead[1], p, at[0], at[1], t, v, wired);
          if tried.Some? {
            return tried.value;
          }
        }
        if |dead| >= 2 {
          res, mid := RecoverSurgical(r, head, trailer, p, t, v, wired);
          return;
        }
      } else {
        NoPair(t, p, v, s, wired, parity.k, [], []);
      }
      res := RecoverSingle(r, head, trailer, p, t, v, wired);
    }

    // ---------- the recovery driver ----------

    /**
     Recovery from a failed call of position p, in any mode and from any state a failed call
     can leave: exactly when it succeeds, by which path, and whether the answer and the state
     it leaves are the fault-free ones.
     */
    method RecoverFromChainFailure(r: RequestId, head: Stage, trailer: Option<StageKey>, pastLength: nat, p: nat,
        ghost t: Task, ghost v: nat, ghost wired: Placement) returns (res: Result<Recovery, GatewayError>)
      requires Valid() && Serves(t) && r == t.request && Stricken(t, p, v, Snap(r), wired)
      requires Blames(t, v, wired, head, trailer) && pastLength == PastLength(t.job)
      modifies fleet.Repr(), plans, cache
      ensures Valid() && (res.Success? ==> Judged(t, p, v, old(plans.plan), wired, res.value, Snap(r)))
      ensures mode == FullReplay ==> ReplaysFrom(t, p, v, old(Snap(r)), wired, res, Snap(r))
      ensures mode in {Surgical, Replicate} ==> RecoversFrom(t, p, v, old(Snap(r)), wired, res, Snap(r))
      ensures mode == Parity ==> ParityRecovers(t, p, v, old(Snap(r)), wired, parity.k, res, Snap(r))
    {
      match mode
      case Replicate => res := RecoverReplicate(r, head, trailer, pastLength, p, t, v, wired);
      case Parity => res := RecoverParity(r, head, trailer, p, t, v, wired);
      case Surgical =>
        ghost var mid;
        res, mid := RecoverSurgical(r, head, trailer, p, t, v, wired);
      case FullReplay => res := RecoverFullReplay(r, head, trailer, t, p, v, wired);
    }
  }
}
