/** From a deployment to generated tokens: the pieces put together. */
module EndToEnd {
  import opened Wrappers
  import opened Types
  import opened Reference
  import opened Workforce
  import opened Chains
  import opened ExecutionPlans
  import opened Protocol
  import opened Rebuild
  import opened Gateway
  import opened Delivering
  import opened Keeping
  import opened Intervals
  import opened Deployment
  import opened OneVictim
  import opened Generation
  import BlobStore
  import Lru

  /** Nobody has heard of the request: no worker holds KV of it, and no message is about it. */
  ghost predicate Unheard(w: World, r: RequestId) {
    && (forall h {:trigger KvAt(w, h, r)} :: KvAt(w, h, r) == [])
    && forall msg :: msg in w.outbox ==> msg.request != r
  }

  lemma StillUnheard(w: World, u: World, r: RequestId)
    requires Unheard(w, r) && OnlyLoaded(w, u)
    ensures Unheard(u, r)
  {
    forall h
      ensures KvAt(u, h, r) == []
    {
      assert KvAt(w, h, r) == [];
      assert h.device in w.runners ==> KeptOrLost(w.runners[h.device], u.runners[h.device]);
    }
  }

  /** A deployed placement is ready for any request nobody has heard of. */
  lemma DeployedIsReady(t: Task, s: Snapshot, eager: bool)
    requires t.Valid() && WorldValid(s.world) && Deployed(s.world, t.placement, t.recovery, eager)
    requires s.plans == Plans(t.placement, t.recovery, {}, t.placement) && Unheard(s.world, t.request)
    requires s.mirrors == map[] && s.replica == map[] && s.parity == map[]
    ensures Ready(t, 0, s, t.placement)
  {
    PlanIsSound(t.placement, t.recovery, {});
    forall i | 0 <= i < |t.placement|
      ensures LoadedAt(s.world, HoldsOf(t.placement)[i])
      ensures HoldsBefore(s.world, t, HoldsOf(t.placement)[i], Done(0, 0, i), i)
      ensures LawfulAt(s.plans, i) && LagsAt(t, s.plans, t.placement, i) && DriftsEmpty(t, s, t.placement, i)
    {
      assert PrimaryAt(s.world, t.placement[i]);
      assert KvAt(s.world, HoldsOf(t.placement)[i], t.request) == [];
    }
    forall h
      ensures SpareAt(t, s, t.placement, h)
    {
      assert KvAt(s.world, h, t.request) == [];
    }
  }

  /** Build the gateway for a deployed placement. */
  method Open(mode: Mode, fleet: Fleet, parityK: nat, mirrorBytes: nat, parityBytes: nat, replicaBytes: nat,
      placement: Placement, recovery: RecoveryTable, ghost t: Task, ghost eager: bool) returns (gw: RequestGateway)
    requires fleet.Valid() && (parityK == 1 || parityK == 2) && t.Valid() && OnFleet(t, fleet)
    requires placement == t.placement && recovery == t.recovery && Deployed(fleet.State(), placement, recovery, eager)
    requires Unheard(fleet.State(), t.request)
    ensures fresh(gw) && fresh(gw.Repr() - fleet.Repr()) && gw.fleet == fleet && gw.mode == mode
    ensures gw.plans.State() == Plans(placement, recovery, {}, placement)
    ensures gw.cache.State() == Lru.Store([], map[]) && gw.cache.maxBytes == mirrorBytes
    ensures gw.parity.k == parityK && gw.parity.entries == map[]
    ensures gw.Valid() && gw.Serves(t) && InProgress(gw, t, [], placement)
    ensures fleet.State() == old(fleet.State())
  {
    hide Deployed, Unheard, Ready;
    gw := new RequestGateway(mode, fleet, placement, recovery, parityK, mirrorBytes, parityBytes, replicaBytes);
    NonHeadRanked(t, gw.coeff);
    DeployedIsReady(t, gw.Snap(t.request), eager);
    NothingYet(t.job);
  }

  lemma {:induction false} SurvivesDeployed(gw: RequestGateway, t: Task, schedule: nat -> Interval, steps: nat,
      w: World, eager: bool)
    requires gw.Valid() && t.Valid() && Deployed(gw.fleet.State(), t.placement, t.recovery, eager)
    requires gw.plans.State() == Plans(t.placement, t.recovery, {}, t.placement) && OnlyLoaded(w, gw.fleet.State())
    requires gw.cache.State() == Lru.Store([], map[])
    requires forall i :: 0 <= i < |t.placement| ==> t.placement[i].device in gw.fleet.alive
    ensures (eager && (exists c :: Dispensable(t, c, schedule, w)) &&
             Traffic(t, schedule, steps) <= gw.cache.maxBytes) ==>
      OneConcerned(LimitsOf(gw), t, schedule, steps, Everything(gw), t.placement)
  {
    hide OneConcerned, Deployed, Tidy;
    if eager && (exists c :: Dispensable(t, c, schedule, w)) && Traffic(t, schedule, steps) <= gw.cache.maxBytes {
      var c: nat :| Dispensable(t, c, schedule, w);
      ValidIsTidy(gw, t.request);
      DeployedSurvives(LimitsOf(gw), t, c, schedule, steps, Everything(gw));
    }
  }

  ghost predicate AllAlive(w: World, placement: Placement, recovery: RecoveryTable) {
    HostsUp(w, recovery) && forall i :: 0 <= i < |placement| ==> placement[i].device in w.alive
  }

  /** A deployed chain all of whose workers are up and meant to stay so is healthy. */
  lemma DeployedIsHealthy(t: Task, w: World, eager: bool)
    requires t.Valid() && Deployed(w, t.placement, t.recovery, eager) && w.faults == {}
    requires forall i :: 0 <= i < |t.placement| ==> t.placement[i].device in w.alive
    ensures Healthy(w, t.placement)
  {
    var hs := HoldsOf(t.placement);
    forall q: nat
      ensures AllUp(w, hs, 0, q)
    {
      forall j | 0 <= j < |hs|
        ensures !Down(w, hs[j], q)
      {
        assert PrimaryAt(w, t.placement[j]);
      }
    }
  }

  /** All that goes wrong concerns the device of stage c, whose backup is on a worker that is up. */
  ghost predicate Dispensable(t: Task, c: nat, schedule: nat -> Interval, w: World) {
    && Covered(t, c) && Host(t, c) in w.alive && (forall f :: f in w.faults ==> f.at.device == Device(t, c))
    && forall n :: ConcernedAt(t, c, schedule, n)
  }

  /** After an eager deployment that is enough to do without it. */
  lemma {:induction false} DeployedSurvives(l: Limits, t: Task, c: nat, schedule: nat -> Interval, steps: nat,
      start: Situation)
    requires t.Valid() && WorldValid(start.world) && Deployed(start.world, t.placement, t.recovery, true)
    requires start.plans == Plans(t.placement, t.recovery, {}, t.placement)
    requires forall i :: 0 <= i < |t.placement| ==> t.placement[i].device in start.world.alive
    requires Dispensable(t, c, schedule, start.world) && Tidy(l, start.caches)
    requires start.caches.mirror == Lru.Store([], map[]) && Traffic(t, schedule, steps) <= l.mirrorBytes
    ensures OneConcerned(l, t, schedule, steps, start, t.placement)
  {
    assert BackedUp(start.world, t.recovery, t.placement[c]);
    assert BlobStore.StoredBytes(start.caches.mirror) == 0;
    assert Survivable(l, t, c, schedule, steps, start, t.placement);
  }

  /**
   Deploy onto workers in any state, open a gateway in any mode, and generate under any
   schedule of crashes, reports and deliveries: only fault-free tokens, and all of them
   unless a failed deployment, an error or a chain out of step with the plan ends it early.
   The last cannot happen if the reports spare the stages, or under full replay the head;
   and while every worker stays up and the head is spared, nothing ends it early. Neither does
   anything after an eager deployment, if one device behind the head is all that crashes or is
   reported, its backup's worker stays up, and the mirror has room.
   */
  method DeployAndGenerate(mode: Mode, fleet: Fleet, parityK: nat, mirrorBytes: nat, parityBytes: nat,
      replicaBytes: nat, placement: Placement, recovery: RecoveryTable, eager: bool, r: RequestId, prompt: string,
      maxTokens: int, eos: Option<Token>, schedule: nat -> Interval, ghost t: Task)
      returns (tokens: seq<Token>, ending: Option<Ending>)
    requires fleet.Valid() && (parityK == 1 || parityK == 2) && t.Valid() && OnFleet(t, fleet)
    requires placement == t.placement && recovery == t.recovery && r == t.request && prompt == t.job.prompt
    requires Unheard(fleet.State(), r)
    modifies fleet.Repr()
    ensures IsPrefix(t.job, tokens)
    ensures ending == Some(Finished) ==> IsGeneration(t.job, tokens, maxTokens, eos)
    ensures (forall n :: StagesSpared(t, schedule, n)) ==> ending != Some(Astray)
    ensures mode == FullReplay && (forall n :: HeadSpared(t, schedule, n)) ==> ending != Some(Astray)
    ensures ((forall n :: Uneventful(t, schedule, n)) && old(fleet.faults) == {} &&
             AllAlive(old(fleet.State()), placement, recovery)) ==> ending == Some(Finished)
    ensures (eager && AllAlive(old(fleet.State()), placement, recovery) &&
             (exists c :: Dispensable(t, c, schedule, old(fleet.State()))) &&
             Traffic(t, schedule, Steps(maxTokens)) <= mirrorBytes) ==> ending == Some(Finished)
  {
    hide Unheard, Deployed, IsGeneration, Healthy, Fleet.Valid, InProgress, HeadSpared, StagesSpared, Uneventful,
      RequestGateway.Valid, RequestGateway.Serves, OnlyLoaded, OneConcerned, Dispensable;
    ghost var w := fleet.State();
    var deployed := Deploy(fleet, placement, recovery, eager);
    if deployed.Failure? {
      NothingYet(t.job);
      return [], None;
    }
    StillUnheard(w, fleet.State(), r);
    if fleet.faults == {} {
      DeployedIsHealthy(t, fleet.State(), eager);
    }
    var gw := Open(mode, fleet, parityK, mirrorBytes, parityBytes, replicaBytes, placement, recovery, t, eager);
    SurvivesDeployed(gw, t, schedule, Steps(maxTokens), w, eager);
    var end;
    tokens, end := GenerateStreaming(gw, r, prompt, maxTokens, eos, schedule, placement, t);
    ending := Some(end);
  }
}
