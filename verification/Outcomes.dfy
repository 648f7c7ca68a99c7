/**
 What becomes of one position, as a function of everything there is before it: whether the
 call gets through, whether a failed one is recovered, and whether rightly.
 */
module Outcomes {
  import opened Wrappers
  import opened Types
  import opened Reference
  import opened Workforce
  import opened Chains
  import opened Protocol
  import opened Rewiring
  import opened ParityRecovery
  import opened Recoverability
  import opened Gateway
  import opened Delivering
  import opened Calling
  import opened Intervals
  import BlobStore

  // ---------- a recovery ----------

  /** Two dead stages of the group, and the gates to rebuild them from P and Q are open. */
  ghost predicate Paired(t: Task, p: nat, v: nat, s: Snapshot, wired: Placement, k: nat) {
    exists x, y :: PairRescued(t, p, v, x, y, s, wired, k)
  }

  /** Exactly when a recovery succeeds. */
  ghost predicate Recoverable(mode: Mode, k: nat, t: Task, p: nat, v: nat, s: Snapshot, wired: Placement) {
    match mode
    case FullReplay => ReplayRecoverable(t, p, v, s, wired)
    case Surgical => SurgicallyRecoverable(t, p, v, s, wired)
    case Replicate => SurgicallyRecoverable(t, p, v, s, wired)
    case Parity =>
      && (!Paired(t, p, v, s, wired, k) ==> SurgicallyRecoverable(t, p, v, s, wired))
      && forall x, y :: PairRescued(t, p, v, x, y, s, wired, k) ==> BothResumable(t, p, x, y, s)
  }

  /** Exactly when the success of a recovery from one victim is right. */
  ghost predicate RebuiltRightly(t: Task, p: nat, v: nat, s: Snapshot, wired: Placement) {
    v < t.Stages() && (MirroredUpTo(s, t.job.keys[v], p) ==> Settled(p, v, s.plans.plan, wired))
  }

  /** Exactly when the success of a recovery is right. */
  ghost predicate Rightly(mode: Mode, k: nat, t: Task, p: nat, v: nat, s: Snapshot, wired: Placement) {
    match mode
    case FullReplay => true
    case Surgical => RebuiltRightly(t, p, v, s, wired)
    case Replicate => RebuiltRightly(t, p, v, s, wired)
    case Parity =>
      && (!Paired(t, p, v, s, wired, k) ==> RebuiltRightly(t, p, v, s, wired))
      && forall x, y :: PairRescued(t, p, v, x, y, s, wired, k) ==> Reenterable(x, y, v)
  }

  /** What the gateway's recovery promises in each mode, put together. */
  ghost predicate RecoveredIn(mode: Mode, k: nat, t: Task, p: nat, v: nat, s: Snapshot, wired: Placement,
      rec: Result<Recovery, GatewayError>, u: Snapshot) {
    && (mode == FullReplay ==> ReplaysFrom(t, p, v, s, wired, rec, u))
    && (mode in {Surgical, Replicate} ==> RecoversFrom(t, p, v, s, wired, rec, u))
    && (mode == Parity ==> ParityRecovers(t, p, v, s, wired, k, rec, u))
  }

  lemma RecoveredExactly(mode: Mode, k: nat, t: Task, p: nat, v: nat, s: Snapshot, wired: Placement,
      rec: Result<Recovery, GatewayError>, u: Snapshot)
    requires RecoveredIn(mode, k, t, p, v, s, wired, rec, u)
    ensures rec.Success? <==> Recoverable(mode, k, t, p, v, s, wired)
    ensures rec.Success? ==>
      && (Right(rec.value.path, p, v, s.plans.plan, wired) <==> Rightly(mode, k, t, p, v, s, wired))
      && Unharmed(s.world, u.world)
      && (mode == Parity && Paired(t, p, v, s, wired, k) ==> u.plans == s.plans)
      && (!(mode == Parity && Paired(t, p, v, s, wired, k)) ==> OnlyDeclared(t, v, s, wired, u))
  {
    hide SurgicallyRecoverable, ReplayRecoverable, BothResumable, PairRescued, MirroredUpTo, Settled, Judged, ReranBoth;
    if mode == Parity && Paired(t, p, v, s, wired, k) {
      var x, y :| PairRescued(t, p, v, x, y, s, wired, k);
      assert ReentersFrom(t, p, v, s, wired, x, y, rec, u);
      forall a, b | PairRescued(t, p, v, a, b, s, wired, k)
        ensures ReentersFrom(t, p, v, s, wired, a, b, rec, u)
      {}
    }
  }

  // ---------- a position ----------

  /** What a call of position p leaves: its head input is mirrored, and the chain has run as far as it is up. */
  ghost function CalledIn(l: Limits, e: Situation, t: Task, p: nat, wired: Placement, pushKv: bool): Situation
    requires WorldValid(e.world) && wired != []
  {
    Situation(
      ChainCall(e.world, t.job.model, pushKv, HoldsOf(wired), StepCall(t, In(t.job, p, 0), p)).0,
      e.plans,
      e.caches.(mirror := BlobStore.Step(e.caches.mirror,
        BlobStore.Put(t.request, HeadSlot(t, p), In(t.job, p, 0)), l.mirrorBytes, 0)))
  }

  /** What a recovery begins from, if the call fails. */
  ghost function FailedIn(l: Limits, e: Situation, t: Task, p: nat, wired: Placement, pushKv: bool, after: Moves):
      Snapshot
    requires WorldValid(e.world) && wired != []
  {
    About(Elapsed(l, CalledIn(l, e, t, p, wired, pushKv), after, t.request), t.request)
  }

  /** Exactly when position p is run: its call gets through, or is recovered. */
  ghost predicate Runs(l: Limits, e: Situation, t: Task, p: nat, wired: Placement, pushKv: bool, after: Moves)
    requires WorldValid(e.world) && wired != []
  {
    var v := NextDown(p, e.world, wired);
    v == t.Stages() || Recoverable(l.mode, l.k, t, p, v, FailedIn(l, e, t, p, wired, pushKv, after), wired)
  }

  /** Exactly when it is run rightly, if it is run. */
  ghost predicate RunsRightly(l: Limits, e: Situation, t: Task, p: nat, wired: Placement, pushKv: bool, after: Moves)
    requires WorldValid(e.world) && wired != []
  {
    var v := NextDown(p, e.world, wired);
    v == t.Stages() || Rightly(l.mode, l.k, t, p, v, FailedIn(l, e, t, p, wired, pushKv, after), wired)
  }

  /** What a position that was run leaves: what the call left, or after a recovery a chain that is the plan. */
  ghost predicate Leaves(l: Limits, e: Situation, t: Task, p: nat, wired: Placement, pushKv: bool, after: Moves,
      u: Situation, chain: Placement)
    requires WorldValid(e.world) && wired != []
  {
    var v := NextDown(p, e.world, wired);
    if v == t.Stages() then
      u == CalledIn(l, e, t, p, wired, pushKv) && Undisturbed(e.world, u.world) && chain == wired
    else
      var s := FailedIn(l, e, t, p, wired, pushKv, after);
      && chain == u.plans.plan && Unharmed(s.world, u.world)
      && (if l.mode == Parity && Paired(t, p, v, s, wired, l.k) then u.plans == s.plans
          else v < |wired| == |t.placement| && u.plans == WithoutVictim(t, s, wired, v).plans)
  }

  /** Exactly when a step is done: the plan still begins with the chain's head, and position p is run rightly. */
  ghost predicate StepDone(l: Limits, e: Situation, t: Task, p: nat, wired: Placement, pushKv: bool, iv: Interval) {
    var b := Elapsed(l, e, iv.before, t.request);
    && WorldValid(b.world) && SameHead(b.plans.plan, wired)
    && Runs(l, b, t, p, wired, pushKv, iv.after) && RunsRightly(l, b, t, p, wired, pushKv, iv.after)
  }

  /** The plan and the chain begin with the same stage. */
  predicate SameHead(plan: Placement, chain: Placement) {
    plan != [] && chain != [] && plan[0] == chain[0]
  }
}
