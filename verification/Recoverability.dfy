/**
 When a recovery succeeds, and when a recovery that succeeds is right: conditions on what is
 known when the failure is noticed.
 */
module Recoverability {
  import opened Wrappers
  import opened Types
  import opened Reference
  import opened Workforce
  import opened Chains
  import opened ExecutionPlans
  import opened Protocol
  import opened Rewiring
  import opened Rebuild
  import opened ParityRecovery
  import BlobStore

  // ---------- success ----------

  /** A plan without the victim exists, and its backup can take over. */
  ghost predicate Substitutable(t: Task, s: Snapshot, wired: Placement, v: nat) {
    && v < |wired| == |t.placement|
    && Declarable(s.plans, VictimDevice(t, wired, v))
    && Promotable(s.world, s.plans.recovery, VictimDevice(t, wired, v))
  }

  /** The snapshot once the victim is declared dead. */
  ghost function WithoutVictim(t: Task, s: Snapshot, wired: Placement, v: nat): Snapshot
    requires v < |wired| == |t.placement|
  {
    Declared(s, VictimDevice(t, wired, v))
  }

  ghost predicate MirroredUpTo(s: Snapshot, key: StageKey, p: nat) {
    forall q :: 0 <= q <= p ==> BlobStore.Slot(key, q) in s.mirrors
  }

  /** The victim's inputs are mirrored and exactly the slots it held are stored. */
  ghost predicate ReplicaGatesOpen(t: Task, p: nat, v: nat, s: Snapshot) {
    && v < |t.job.keys| && SlotsBefore(t.job, p) > 0 && MirroredUpTo(s, t.job.keys[v], p)
    && forall q: nat :: BlobStore.Slot(t.job.keys[v], q) in s.replica <==> q < SlotsBefore(t.job, p)
  }

  /** The whole chain of the plan can replay every position up to p, from a mirrored head input. */
  ghost predicate Replayable(t: Task, p: nat, s: Snapshot) {
    |t.job.keys| > 0 && HeadSlot(t, 0) in s.mirrors && UpThrough(s.world, HoldsOf(s.plans.plan), p + 1)
  }

  /** Stage v can be rebuilt from its mirrored inputs, and p be run from it on; or else everything can be replayed. */
  ghost predicate Resumable(t: Task, p: nat, v: nat, s: Snapshot) {
    v < |t.job.keys| &&
    if MirroredUpTo(s, t.job.keys[v], p) then AllUp(s.world, HoldsOf(s.plans.plan), v, p) else Replayable(t, p, s)
  }

  /** Exactly when surgical recovery, and every strategy that falls back to it, succeeds. */
  ghost predicate SurgicallyRecoverable(t: Task, p: nat, v: nat, s: Snapshot, wired: Placement) {
    Substitutable(t, s, wired, v) && Resumable(t, p, v, WithoutVictim(t, s, wired, v))
  }

  ghost predicate ReplayRecoverable(t: Task, p: nat, v: nat, s: Snapshot, wired: Placement) {
    Substitutable(t, s, wired, v) && Replayable(t, p, WithoutVictim(t, s, wired, v))
  }

  /**
   Both victims' backups can take over, their columns can be solved for, and the stages from
   the upstream one on are up.
   */
  ghost predicate BothResumable(t: Task, p: nat, x: nat, y: nat, s: Snapshot) {
    && x < y < |s.plans.placement| && AllUp(s.world, HoldsOf(s.plans.plan), x, p) && (y - x) % 255 != 0
    && Promotable(s.world, s.plans.recovery, s.plans.placement[x].device)
    && Promotable(s.world, s.plans.recovery, s.plans.placement[y].device)
  }

  lemma RewiredResumes(t: Task, p: nat, v: nat, s: Snapshot, u: World)
    requires OnlyRewired(s.world, u)
    ensures Replayable(t, p, s.(world := u)) <==> Replayable(t, p, s)
    ensures Resumable(t, p, v, s.(world := u)) <==> Resumable(t, p, v, s)
  {
    var hs := HoldsOf(s.plans.plan);
    RewiredUp(s.world, u, hs, v, p);
    forall q | 0 <= q < p + 1
      ensures AllUp(u, hs, 0, q) <==> AllUp(s.world, hs, 0, q)
    {
      RewiredUp(s.world, u, hs, 0, q);
    }
  }

  lemma EvictedReplays(t: Task, p: nat, s: Snapshot, ds: set<DeviceId>, r: RequestId)
    ensures Replayable(t, p, s.(world := EvictedOn(s.world, ds, r))) <==> Replayable(t, p, s)
  {
    var hs := HoldsOf(s.plans.plan);
    forall q | 0 <= q < p + 1
      ensures AllUp(EvictedOn(s.world, ds, r), hs, 0, q) <==> AllUp(s.world, hs, 0, q)
    {
      EvictedUp(s.world, ds, r, hs, 0, q);
    }
  }

  lemma EvictedClean(t: Task, s: Snapshot, ds: set<DeviceId>, r: RequestId)
    requires OffPlan(t, s)
    ensures OffPlan(t, s.(world := EvictedOn(s.world, ds, r)))
  {
    forall h
      ensures OffPlanAt(t, s.(world := EvictedOn(s.world, ds, r)), h)
    {
      assert OffPlanAt(t, s, h);
    }
  }

  /** Declaring the victim in advance does not change whether recovery succeeds. */
  lemma DeclaredTwice(t: Task, p: nat, v: nat, s: Snapshot, wired: Placement)
    requires 0 < v < |wired| == |t.placement| && Declarable(s.plans, VictimDevice(t, wired, v))
    ensures var u := WithoutVictim(t, s, wired, v);
      && WithoutVictim(t, u, wired, v) == u && VictimDevice(t, wired, v) in u.plans.dead
      && (SurgicallyRecoverable(t, p, v, u, wired) <==> SurgicallyRecoverable(t, p, v, s, wired))
  {}

  /** With the victim declared and its inputs mirrored, recovery hangs on the backup and the stages from it on. */
  lemma AlreadyDeclared(t: Task, p: nat, v: nat, s: Snapshot, wired: Placement)
    requires 0 < v < |wired| == |t.placement| == |t.job.keys| && t.placement[v].device in s.plans.dead
    requires MirroredUpTo(s, t.job.keys[v], p)
    ensures SurgicallyRecoverable(t, p, v, s, wired) <==>
      Promotable(s.world, s.plans.recovery, t.placement[v].device) && AllUp(s.world, HoldsOf(s.plans.plan), v, p)
  {
    assert WithoutVictim(t, s, wired, v) == s;
  }

  // ---------- and rightly ----------

  /** How a recovery got its answer: by replaying all, by rebuilding one stage, or two of them. */
  datatype Path = Replay | Rebuild | Reentry(x: nat, y: nat)

  datatype Recovery = Recovery(reply: Reply, path: Path)

  /**
   A condition the gateway could check: a full replay is always right, a rebuild if the plan
   runs all other stages where they were wired, a double one if no stage that did the
   position lies between the upstream victim and the failure.
   */
  predicate Right(path: Path, p: nat, v: nat, plan: Placement, wired: Placement) {
    match path
    case Replay => true
    case Rebuild => Settled(p, v, plan, wired)
    case Reentry(x, y) => Reenterable(x, y, v)
  }

  /** Position p is answered and done everywhere on the current plan. */
  ghost predicate Faithful(t: Task, p: nat, reply: Reply, s: Snapshot) {
    Answers(t, p, reply) && Completed(t, p, s, s.plans.plan)
  }

  /** The state after a recovery is the fault-free one if it was right, and otherwise it is not. */
  ghost predicate Judged(t: Task, p: nat, v: nat, plan: Placement, wired: Placement, rec: Recovery, u: Snapshot) {
    && (Right(rec.path, p, v, plan, wired) ==> Faithful(t, p, rec.reply, u))
    && (!Right(rec.path, p, v, plan, wired) && PastLength(t.job) > 0 ==>
        !KvIs(u.world, t, HoldsOf(u.plans.plan), p, t.Stages()))
  }

  /** A recovery from one victim declares it dead, if nobody has, and harms nobody else. */
  ghost predicate OnlyDeclared(t: Task, v: nat, s: Snapshot, wired: Placement, u: Snapshot) {
    v < |wired| == |t.placement| && u.plans == WithoutVictim(t, s, wired, v).plans && Unharmed(s.world, u.world)
  }

  /** The outcome of every recovery from one victim: a rebuild if the victim's inputs are mirrored, else a replay. */
  ghost predicate RecoversFrom(t: Task, p: nat, v: nat, s: Snapshot, wired: Placement, res: Result<Recovery,
      GatewayError>,
      u: Snapshot) {
    && (res.Success? <==> SurgicallyRecoverable(t, p, v, s, wired))
    && (res.Success? ==> v < |t.job.keys| && Judged(t, p, v, s.plans.plan, wired, res.value, u) &&
                         res.value.path == if MirroredUpTo(s, t.job.keys[v], p) then Rebuild else Replay)
    && (res.Success? ==> OnlyDeclared(t, v, s, wired, u))
  }

  ghost predicate ReplaysFrom(t: Task, p: nat, v: nat, s: Snapshot, wired: Placement, res: Result<Recovery,
      GatewayError>,
      u: Snapshot) {
    && (res.Success? <==> ReplayRecoverable(t, p, v, s, wired))
    && (res.Success? ==> res.value.path == Replay && Faithful(t, p, res.value.reply, u))
    && (res.Success? ==> OnlyDeclared(t, v, s, wired, u))
  }

  /**
   What a double rebuild that got through went through: both victims' KV as of before p, the
   other stages' as it was, and the run from the upstream victim on.
   */
  ghost predicate RerunBoth(t: Task, p: nat, x: nat, y: nat, w: World, mid: World, u: World, pushKv: bool,
      hs: seq<Held>, reply: Reply) {
    && x < y < |hs| == t.Stages() && WorldValid(mid) && LiveRun(t, p, x, mid, u, pushKv, hs, reply)
    && !reply.Unavailable? && DistinctHolds(hs) && KeysOf(hs) == t.job.keys
    && (p > 0 ==> HoldsBefore(mid, t, hs[x], p, x) && HoldsBefore(mid, t, hs[y], p, y))
    && forall i :: 0 <= i < |hs| && i != x && i != y ==> KvAt(mid, hs[i], t.request) == KvAt(w, hs[i], t.request)
  }

  ghost predicate ReranBoth(t: Task, p: nat, x: nat, y: nat, w: World, u: World, hs: seq<Held>, reply: Reply) {
    exists mid, pushKv :: RerunBoth(t, p, x, y, w, mid, u, pushKv, hs, reply)
  }

  ghost predicate ReentersFrom(t: Task, p: nat, v: nat, s: Snapshot, wired: Placement, x: nat, y: nat,
      res: Result<Recovery, GatewayError>, u: Snapshot) {
    && (res.Success? <==> BothResumable(t, p, x, y, s))
    && (res.Success? ==> res.value.path == Reentry(x, y) && Judged(t, p, v, s.plans.plan, wired, res.value, u))
    && (res.Success? ==> ReranBoth(t, p, x, y, s.world, u.world, HoldsOf(s.plans.plan), res.value.reply))
    && (res.Success? ==> u.plans == s.plans && Unharmed(s.world, u.world))
  }

  /** Whether the other stages stand does not depend on the victim's declaration. */
  lemma SettledStays(p: nat, v: nat, plan: Placement, next: Placement, wired: Placement)
    requires |next| == |plan| && forall i :: 0 <= i < |plan| && i != v ==> next[i] == plan[i]
    ensures Settled(p, v, next, wired) <==> Settled(p, v, plan, wired)
  {}

  /** A recovery that begins by substituting the victim comes to what it comes to from there. */
  lemma SubstitutedRecovers(t: Task, p: nat, v: nat, s: Snapshot, wired: Placement, w: World,
      res: Result<Recovery, GatewayError>, u: Snapshot)
    requires Substitutable(t, s, wired, v) && v < |t.job.keys| && OnlyRewired(s.world, w)
    requires var d := WithoutVictim(t, s, wired, v).(world := w);
      && (Settled(p, v, d.plans.plan, wired) <==> Settled(p, v, s.plans.plan, wired))
      && (res.Success? <==> Resumable(t, p, v, d))
      && (res.Success? ==> Judged(t, p, v, d.plans.plan, wired, res.value, u) &&
                           res.value.path == if MirroredUpTo(d, t.job.keys[v], p) then Rebuild else Replay)
      && (res.Success? ==> u.plans == d.plans && Unharmed(w, u.world))
    ensures RecoversFrom(t, p, v, s, wired, res, u)
  {
    RewiredResumes(t, p, v, WithoutVictim(t, s, wired, v), w);
  }

  /**
   What a rebuild that got through went through: the other stages' KV as it was, and the run
   from stage v on.
   */
  ghost predicate Rerun(t: Task, p: nat, v: nat, w: World, mid: World, u: World, pushKv: bool, hs: seq<Held>,
      reply: Reply) {
    && v < |hs| == t.Stages() && WorldValid(mid) && LiveRun(t, p, v, mid, u, pushKv, hs, reply)
    && !reply.Unavailable? && DistinctHolds(hs) && KeysOf(hs) == t.job.keys
    && (p > 0 ==> HoldsBefore(mid, t, hs[v], p, v))
    && forall i :: 0 <= i < |hs| && i != v ==> KvAt(mid, hs[i], t.request) == KvAt(w, hs[i], t.request)
  }

  /** What a rebuild comes to. */
  lemma RebuildJudged(t: Task, p: nat, v: nat, s: Snapshot, wired: Placement, mid: World, u: World, pushKv: bool,
      res: Result<Reply, GatewayError>)
    requires Substituted(t, p, v, s, wired) && (res.Success? ==> !res.value.Unavailable?)
    requires Reentered(t, p, v, s.world, mid, u, pushKv, HoldsOf(s.plans.plan), res)
    ensures res.Success? <==> AllUp(s.world, HoldsOf(s.plans.plan), v, p)
    ensures res.Success? ==> Judged(t, p, v, s.plans.plan, wired, Recovery(res.value, Rebuild), s.(world := u))
    ensures res.Success? ==> Rerun(t, p, v, s.world, mid, u, pushKv, HoldsOf(s.plans.plan), res.value)
    ensures res.Success? ==> Unharmed(s.world, u)
  {
    StrickenShape(t, p, v, s, wired);
    if res.Success? {
      ReentryOutcome(t, p, v, s, wired, mid, u, pushKv, res.value);
      GetsThrough(mid, t.job.model, pushKv, HoldsOf(s.plans.plan), v, StepCall(t, In(t.job, p, v), p));
      forall i | 0 <= i < t.Stages() && i != v
        ensures HoldsOf(s.plans.plan)[i] != HoldsOf(s.plans.plan)[v]
      {}
    }
  }

  /** What a double rebuild comes to. */
  lemma BothJudged(t: Task, p: nat, v: nat, s: Snapshot, wired: Placement, mid: World, u: World, pushKv: bool, x: nat,
      y: nat, res: Result<Reply, GatewayError>)
    requires Substituted(t, p, v, s, wired) && p > 0 && v in {x, y} && OthersStand(s.plans.plan, wired, x, y)
    requires ReenteredBoth(t, p, x, y, s.world, mid, u, pushKv, HoldsOf(s.plans.plan), res)
    ensures res.Success? <==> AllUp(s.world, HoldsOf(s.plans.plan), x, p) && (y - x) % 255 != 0
    ensures res.Success? ==> Judged(t, p, v, s.plans.plan, wired, Recovery(res.value, Reentry(x, y)), s.(world := u))
    ensures res.Success? ==> ReranBoth(t, p, x, y, s.world, u, HoldsOf(s.plans.plan), res.value)
    ensures res.Success? ==> Unharmed(s.world, u)
  {
    StrickenShape(t, p, v, s, wired);
    if res.Success? {
      GetsThrough(mid, t.job.model, pushKv, HoldsOf(s.plans.plan), x, StepCall(t, In(t.job, p, x), p));
      BothOutcome(t, p, v, s, wired, mid, u, pushKv, x, y, res.value);
      BothReran(t, p, x, y, s.world, mid, u, pushKv, HoldsOf(s.plans.plan), res.value);
    }
  }

  lemma BothReran(t: Task, p: nat, x: nat, y: nat, w: World, mid: World, u: World, pushKv: bool, hs: seq<Held>,
      reply: Reply)
    requires x < y < |hs| == t.Stages() && RebuiltBoth(t, w, mid, hs, x, y, p)
    requires LiveRun(t, p, x, mid, u, pushKv, hs, reply) && !reply.Unavailable?
    requires DistinctHolds(hs) && KeysOf(hs) == t.job.keys
    ensures ReranBoth(t, p, x, y, w, u, hs, reply)
  {
    hide LiveRun;
    forall i | 0 <= i < |hs| && i != x && i != y
      ensures hs[i] != hs[x] && hs[i] != hs[y]
    {}
    assert RerunBoth(t, p, x, y, w, mid, u, pushKv, hs, reply);
  }

  /** Wiring and promotions do not show in it. */
  lemma RewiredReruns(t: Task, p: nat, v: nat, w0: World, w: World, mid: World, u: World, pushKv: bool, hs: seq<Held>,
      reply: Reply)
    requires OnlyRewired(w0, w) && Rerun(t, p, v, w, mid, u, pushKv, hs, reply)
    ensures Rerun(t, p, v, w0, mid, u, pushKv, hs, reply)
  {}

  lemma RewiredReransBoth(t: Task, p: nat, x: nat, y: nat, w0: World, w: World, u: World, hs: seq<Held>, reply: Reply)
    requires OnlyRewired(w0, w) && ReranBoth(t, p, x, y, w, u, hs, reply)
    ensures ReranBoth(t, p, x, y, w0, u, hs, reply)
  {
    hide LiveRun;
    var mid, pushKv :| RerunBoth(t, p, x, y, w, mid, u, pushKv, hs, reply);
    assert RerunBoth(t, p, x, y, w0, mid, u, pushKv, hs, reply);
  }

  /** P + Q recovery has all it needs for victims x < y. */
  ghost predicate DoubleGatesOpen(t: Task, p: nat, v: nat, x: nat, y: nat, s: Snapshot, wired: Placement) {
    x < |t.job.keys| && GatesOpen(t, p, v, {x, y}, s, wired) && MirroredUpTo(s, t.job.keys[x], p)
  }

  /** P + Q recovery is attempted for victims x < y, and passes its gates. */
  ghost predicate PairRescued(t: Task, p: nat, v: nat, x: nat, y: nat, s: Snapshot, wired: Placement, k: nat) {
    && k == 2 && t.placement != [] && t.placement[0].device !in s.plans.dead && OnlyDead(t, s.plans.dead, x, y)
    && DoubleGatesOpen(t, p, v, x, y, s, wired)
  }

  /** The outcome of a parity recovery: from P + Q if that is attempted and passes its gates, else from one victim. */
  ghost predicate ParityRecovers(t: Task, p: nat, v: nat, s: Snapshot, wired: Placement, k: nat,
      res: Result<Recovery, GatewayError>, u: Snapshot) {
    && ((forall x, y :: !PairRescued(t, p, v, x, y, s, wired, k)) ==> RecoversFrom(t, p, v, s, wired, res, u))
    && forall x, y :: PairRescued(t, p, v, x, y, s, wired, k) ==> ReentersFrom(t, p, v, s, wired, x, y, res, u)
  }

  /** At most one pair of stages is the dead one, and its gates decide. */
  lemma OnlyPair(t: Task, p: nat, v: nat, x: nat, y: nat, s: Snapshot, wired: Placement, k: nat)
    requires OnlyDead(t, s.plans.dead, x, y)
    ensures forall a, b :: PairRescued(t, p, v, a, b, s, wired, k) ==> a == x && b == y
    ensures PairRescued(t, p, v, x, y, s, wired, k) <==>
      k == 2 && t.placement[0].device !in s.plans.dead && DoubleGatesOpen(t, p, v, x, y, s, wired)
  {
    forall a: nat, b: nat | OnlyDead(t, s.plans.dead, a, b)
      ensures a == x && b == y
    {
      assert t.placement[a].device in s.plans.dead && t.placement[b].device in s.plans.dead;
      assert t.placement[x].device in s.plans.dead && t.placement[y].device in s.plans.dead;
    }
  }

  /** Unless P + Q is kept, the head alive and exactly two stages of the group dead, there is no pair. */
  lemma NoPair(t: Task, p: nat, v: nat, s: Snapshot, wired: Placement, k: nat, dead: seq<Stage>, at: seq<nat>)
    requires t.Valid() && s.plans.placement == t.placement
    requires k != 2 || t.placement[0].device in s.plans.dead ||
      (|at| != 2 && DeadGroup(t.placement, s.plans.dead, dead, at, |t.placement|))
    ensures forall a, b :: !PairRescued(t, p, v, a, b, s, wired, k)
  {
    if k == 2 && t.placement[0].device !in s.plans.dead {
      forall a: nat, b: nat
        ensures !OnlyDead(t, s.plans.dead, a, b)
      {
        if 0 < a < b < t.Stages() {
          NotTwo(t, s.plans.dead, dead, at, a, b);
        }
      }
    }
  }

  lemma NotTwo(t: Task, dead: set<DeviceId>, stages: seq<Stage>, at: seq<nat>, a: nat, b: nat)
    requires t.Valid() && 0 < a < b < t.Stages() && |at| != 2 && DeadGroup(t.placement, dead, stages, at, |t.placement|)
    ensures !OnlyDead(t, dead, a, b)
  {
    forall j | 0 <= j < |at|
      ensures 0 < at[j] < t.Stages() && t.placement[at[j]].device in dead
    {
      StageOfKey(t, at[j]);
    }
    StageOfKey(t, a);
    StageOfKey(t, b);
    if |at| > 2 {
      assert at[0] < at[1] < at[2];
    } else {
      assert !(a in at && b in at);
    }
  }

  /** What the dead stages of the group say about the pair: two make it, any other number means there is none. */
  lemma DeadPairOrNone(t: Task, p: nat, v: nat, s: Snapshot, wired: Placement, dead: seq<Stage>, at: seq<nat>)
    requires t.Valid() && s.plans.placement == t.placement && t.placement[0].device !in s.plans.dead
    requires DeadGroup(t.placement, s.plans.dead, dead, at, |t.placement|)
    ensures |at| == |dead|
    ensures |at| != 2 ==> forall a, b :: !PairRescued(t, p, v, a, b, s, wired, 2)
    ensures |at| == 2 ==>
      && 0 < at[0] < at[1] < t.Stages() && dead[0] == t.placement[at[0]] && dead[1] == t.placement[at[1]]
      && (PairRescued(t, p, v, at[0], at[1], s, wired, 2) <==> DoubleGatesOpen(t, p, v, at[0], at[1], s, wired))
      && forall a, b :: PairRescued(t, p, v, a, b, s, wired, 2) ==> a == at[0] && b == at[1]
  {
    if |at| == 2 {
      DeadPair(t, s.plans, dead, at);
      OnlyPair(t, p, v, at[0], at[1], s, wired, 2);
    } else {
      NoPair(t, p, v, s, wired, 2, dead, at);
    }
  }

  /** Nothing is recovered from a death that cannot be declared. */
  lemma Undeclarable(t: Task, p: nat, v: nat, s: Snapshot, wired: Placement, res: Result<Recovery, GatewayError>,
      u: Snapshot)
    requires v < |wired| == |t.placement| && !Declarable(s.plans, VictimDevice(t, wired, v)) && res.Failure?
    ensures RecoversFrom(t, p, v, s, wired, res, u)
  {}

  /** A recovery that begins by declaring the victim comes to what it comes to from there. */
  lemma DeclaredRecovers(t: Task, p: nat, v: nat, s: Snapshot, wired: Placement, res: Result<Recovery, GatewayError>,
      u: Snapshot)
    requires 0 < v < |wired| == |t.placement| && Declarable(s.plans, VictimDevice(t, wired, v))
    requires var next := WithoutVictim(t, s, wired, v).plans.plan;
      |next| == |s.plans.plan| && forall i :: 0 <= i < |s.plans.plan| && i != v ==> next[i] == s.plans.plan[i]
    requires RecoversFrom(t, p, v, WithoutVictim(t, s, wired, v), wired, res, u)
    ensures RecoversFrom(t, p, v, s, wired, res, u)
  {
    DeclaredTwice(t, p, v, s, wired);
    SettledStays(p, v, s.plans.plan, WithoutVictim(t, s, wired, v).plans.plan, wired);
  }

  /** While the plan is the chain, a failed stage has no backup left that a pair could be rebuilt with. */
  lemma UnmovedPairIsLost(t: Task, p: nat, v: nat, x: nat, y: nat, s: Snapshot, wired: Placement, k: nat)
    requires Stricken(t, p, v, s, wired) && s.plans.plan == wired && PairRescued(t, p, v, x, y, s, wired, k)
    ensures !BothResumable(t, p, x, y, s)
  {
    UpstreamReached(t, p, v, x, s, wired);
    assert InDetail(t);
    assert Down(s.world, HoldsOf(wired)[v], p);
  }

  lemma UnmovedHasNoPair(t: Task, p: nat, v: nat, s: Snapshot, wired: Placement, k: nat,
      res: Result<Recovery, GatewayError>, u: Snapshot)
    requires Stricken(t, p, v, s, wired) && s.plans.plan == wired && ParityRecovers(t, p, v, s, wired, k, res, u)
    requires res.Success?
    ensures !res.value.path.Reentry?
  {
    forall x: nat, y: nat
      ensures !PairRescued(t, p, v, x, y, s, wired, k)
    {
      if PairRescued(t, p, v, x, y, s, wired, k) {
        UnmovedPairIsLost(t, p, v, x, y, s, wired, k);
      }
    }
  }

  /** The plan is the chain, and some report has left no other. */
  ghost predicate Stuck(s: Plans, wired: Placement) {
    s.plan == wired && !Viable(s.placement, s.recovery, s.dead)
  }

  /** From there nothing is recovered: the victim cannot be declared, or the plan still names it. */
  lemma StuckIsLost(t: Task, p: nat, v: nat, s: Snapshot, wired: Placement)
    requires Stricken(t, p, v, s, wired) && Stuck(s.plans, wired)
    ensures !SurgicallyRecoverable(t, p, v, s, wired) && !ReplayRecoverable(t, p, v, s, wired)
  {
    assert InDetail(t);
    var d := VictimDevice(t, wired, v);
    if Viable(s.plans.placement, s.plans.recovery, s.plans.dead + {d}) {
      ViableMonotone(s.plans.placement, s.plans.recovery, s.plans.dead, s.plans.dead + {d});
    }
    forall q
      ensures Down(s.world, HoldsOf(wired)[v], q)
    {}
    if d in s.plans.dead {
      assert WithoutVictim(t, s, wired, v) == s;
      assert !AllUp(s.world, HoldsOf(wired), v, p) && !AllUp(s.world, HoldsOf(wired), 0, 0);
    }
  }

  /** A stage whose input at p is mirrored was reached by p. */
  lemma UpstreamReached(t: Task, p: nat, v: nat, x: nat, s: Snapshot, wired: Placement)
    requires Stricken(t, p, v, s, wired) && x < t.Stages() && MirroredUpTo(s, t.job.keys[x], p)
    ensures x <= v < t.Stages() == |wired|
  {
    StrickenShape(t, p, v, s, wired);
    StageOfKey(t, x);
    var slot := BlobStore.Slot(t.job.keys[x], p);
    assert MirrorSound(t, p, v, slot, s.mirrors[slot]);
  }
}
