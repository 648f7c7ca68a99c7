/**
 Failure-aware execution plans: which device runs each layer range for a given set of dead
 devices, and the plan state the gateway keeps while devices die, come back or are replaced.
 */
module ExecutionPlans {
  import opened Wrappers
  import opened Types

  datatype PlanError = NoRecovery(device: DeviceId)

  /** The stage's device is alive, or its backup exists and is alive. */
  predicate StageViable(s: Stage, recovery: RecoveryTable, dead: set<DeviceId>) {
    s.device !in dead || (s.device in recovery && recovery[s.device] !in dead)
  }

  predicate Viable(placement: Placement, recovery: RecoveryTable, dead: set<DeviceId>) {
    forall i :: 0 <= i < |placement| ==> StageViable(placement[i], recovery, dead)
  }

  function Served(s: Stage, recovery: RecoveryTable, dead: set<DeviceId>): Stage
    requires StageViable(s, recovery, dead)
  {
    if s.device in dead then s.(device := recovery[s.device]) else s
  }

  /** The placement with every dead stage handed to its backup. */
  function PlanOf(placement: Placement, recovery: RecoveryTable, dead: set<DeviceId>): (plan: Placement)
    requires Viable(placement, recovery, dead)
    ensures |plan| == |placement|
    ensures forall i :: 0 <= i < |plan| ==> plan[i] == Served(placement[i], recovery, dead)
  {
    seq(|placement|, i requires 0 <= i < |placement| => Served(placement[i], recovery, dead))
  }

  ghost predicate SameRanges(a: Placement, b: Placement) {
    |a| == |b| && forall i :: 0 <= i < |a| ==> a[i].Key() == b[i].Key()
  }

  method BuildExecutionPlan(placement: Placement, recovery: RecoveryTable, dead: set<DeviceId>)
    returns (r: Result<Placement, PlanError>)
    ensures r.Success? <==> Viable(placement, recovery, dead)
    ensures r.Success? ==> r.value == PlanOf(placement, recovery, dead)
    ensures r.Failure? ==>
      exists i :: (0 <= i < |placement| && r.error.device == placement[i].device
                   && !StageViable(placement[i], recovery, dead) && Viable(placement[..i], recovery, dead))
  {
    var plan: Placement := [];
    for i := 0 to |placement|
      invariant |plan| == i
      invariant forall j :: 0 <= j < i ==>
        StageViable(placement[j], recovery, dead) && plan[j] == Served(placement[j], recovery, dead)
    {
      var stage := placement[i];
      if stage.device !in dead {
        plan := plan + [stage];
      } else if stage.device !in recovery || recovery[stage.device] in dead {
        return Failure(NoRecovery(stage.device));
      } else {
        plan := plan + [Stage(stage.start, stage.end, recovery[stage.device])];
      }
    }
    r := Success(plan);
  }

  /** A plan keeps every layer range in order and names no dead device. */
  lemma PlanIsSound(placement: Placement, recovery: RecoveryTable, dead: set<DeviceId>)
    requires Viable(placement, recovery, dead)
    ensures SameRanges(PlanOf(placement, recovery, dead), placement)
    ensures forall s :: s in PlanOf(placement, recovery, dead) ==> s.device !in dead
    ensures dead == {} ==> PlanOf(placement, recovery, dead) == placement
  {
    var plan := PlanOf(placement, recovery, dead);
    forall i | 0 <= i < |plan|
      ensures plan[i].Key() == placement[i].Key() && plan[i].device !in dead
    {
      assert StageViable(placement[i], recovery, dead);
    }
  }

  /** Fewer dead devices never make a viable plan infeasible. */
  lemma ViableMonotone(placement: Placement, recovery: RecoveryTable, fewer: set<DeviceId>, dead: set<DeviceId>)
    requires fewer <= dead && Viable(placement, recovery, dead)
    ensures Viable(placement, recovery, fewer)
  {
    forall i | 0 <= i < |placement|
      ensures StageViable(placement[i], recovery, fewer)
    {
      assert StageViable(placement[i], recovery, dead);
    }
  }

  ghost predicate Apart(placement: Placement, i: int, j: int) {
    0 <= i < j < |placement| ==> placement[i].device != placement[j].device
  }

  ghost predicate DistinctDevices(placement: Placement) {
    forall i, j {:trigger Apart(placement, i, j)} :: Apart(placement, i, j)
  }

  /** R^-1: the devices each host backs up, each listed once. */
  method InverseRecovery(recovery: RecoveryTable) returns (inverse: map<DeviceId, seq<DeviceId>>)
    ensures forall k, j :: k in inverse && j in inverse[k] <==> j in recovery && recovery[j] == k
    ensures forall k, a, b :: k in inverse && 0 <= a < b < |inverse[k]| ==> inverse[k][a] != inverse[k][b]
    ensures forall k :: k in inverse ==> inverse[k] != []
  {
    inverse := map[];
    var rest := recovery.Keys;
    while rest != {}
      invariant rest <= recovery.Keys
      invariant forall k, j :: k in inverse && j in inverse[k] <==> j in recovery && j !in rest && recovery[j] == k
      invariant forall k, a, b :: k in inverse && 0 <= a < b < |inverse[k]| ==> inverse[k][a] != inverse[k][b]
      invariant forall k :: k in inverse ==> inverse[k] != []
    {
      var j :| j in rest;
      var k := recovery[j];
      inverse := inverse[k := (if k in inverse then inverse[k] else []) + [j]];
      rest := rest - {j};
    }
  }

  // ---------- the plan state over time ----------

  datatype Plans = Plans(placement: Placement, recovery: RecoveryTable, dead: set<DeviceId>, plan: Placement)

  datatype PlanEvent =
    | MarkDead(device: DeviceId)
    | MarkAlive(device: DeviceId)
    | Rebind(placement: Placement, recovery: RecoveryTable)

  /** Rebuild the plan for a dead set; it is left as it was when no plan exists. */
  ghost function Replanned(s: Plans, dead: set<DeviceId>): Plans {
    Plans(s.placement, s.recovery, dead,
      if Viable(s.placement, s.recovery, dead) then PlanOf(s.placement, s.recovery, dead) else s.plan)
  }

  ghost function PlanStep(s: Plans, e: PlanEvent): Plans {
    match e
    case MarkDead(d) => if d in s.dead then s else Replanned(s, s.dead + {d})
    case MarkAlive(d) => if d in s.dead then Replanned(s, s.dead - {d}) else s
    case Rebind(p, r) => Plans(p, r, {}, p)
  }

  ghost function PlanRun(s: Plans, es: seq<PlanEvent>): Plans {
    if es == [] then s else PlanStep(PlanRun(s, es[..|es| - 1]), es[|es| - 1])
  }

  /** The plan runs the placement's ranges in order, and is the right one whenever one exists. */
  ghost predicate PlansValid(s: Plans) {
    && SameRanges(s.plan, s.placement)
    && (Viable(s.placement, s.recovery, s.dead) ==> s.plan == PlanOf(s.placement, s.recovery, s.dead))
  }

  /** The invariant of every run, calls that raise included. */
  lemma {:induction false} PlanInvariant(placement: Placement, recovery: RecoveryTable, es: seq<PlanEvent>)
    ensures var s := PlanRun(Plans(placement, recovery, {}, placement), es);
      && PlansValid(s)
      && (Viable(s.placement, s.recovery, s.dead) ==> forall t :: t in s.plan ==> t.device !in s.dead)
  {
    if es == [] {
      PlanIsSound(placement, recovery, {});
    } else {
      PlanInvariant(placement, recovery, es[..|es| - 1]);
      var s := PlanRun(Plans(placement, recovery, {}, placement), es[..|es| - 1]);
      PlanStepSound(s, es[|es| - 1]);
      var t := PlanStep(s, es[|es| - 1]);
      if Viable(t.placement, t.recovery, t.dead) {
        PlanIsSound(t.placement, t.recovery, t.dead);
      }
    }
  }

  lemma PlanStepSound(s: Plans, e: PlanEvent)
    requires PlansValid(s)
    ensures PlansValid(PlanStep(s, e))
  {
    var t := PlanStep(s, e);
    if Viable(t.placement, t.recovery, t.dead) {
      PlanIsSound(t.placement, t.recovery, t.dead);
    }
  }

  class ExecutionPlan {
    var placement: Placement
    var recovery: RecoveryTable
    var dead: set<DeviceId>
    var plan: Placement

    ghost function State(): Plans
      reads this
    {
      Plans(placement, recovery, dead, plan)
    }

    ghost predicate Valid()
      reads this
    {
      PlansValid(State())
    }

    constructor (placement: Placement, recovery: RecoveryTable)
      ensures Valid() && State() == Plans(placement, recovery, {}, placement)
    {
      this.placement, this.recovery, dead, plan := placement, recovery, {}, placement;
      new;
      PlanIsSound(placement, recovery, {});
    }

    /** True if newly dead; fails when no plan exists, with the device still recorded as dead. */
    method MarkDead(device: DeviceId) returns (r: Result<bool, PlanError>)
      requires Valid()
      modifies this
      ensures Valid() && State() == PlanStep(old(State()), PlanEvent.MarkDead(device))
      ensures placement == old(placement) && recovery == old(recovery) && dead == old(dead) + {device}
      ensures plan ==
        if device !in old(dead) && Viable(placement, recovery, dead) then PlanOf(placement, recovery, dead)
        else old(plan)
      ensures r.Failure? <==> device !in old(dead) && !Viable(placement, recovery, dead)
      ensures r.Success? ==> (r.value <==> device !in old(dead))
    {
      PlanStepSound(State(), PlanEvent.MarkDead(device));
      if device in dead {
        return Success(false);
      }
      dead := dead + {device};
      var built := BuildExecutionPlan(placement, recovery, dead);
      match built
      case Failure(e) => return Failure(e);
      case Success(p) =>
        plan := p;
        r := Success(true);
    }

    /** The reverse; fails when the smaller dead set still admits no plan. */
    method MarkAlive(device: DeviceId) returns (r: Result<bool, PlanError>)
      requires Valid()
      modifies this
      ensures Valid() && State() == PlanStep(old(State()), PlanEvent.MarkAlive(device))
      ensures placement == old(placement) && recovery == old(recovery) && dead == old(dead) - {device}
      ensures plan ==
        if device in old(dead) && Viable(placement, recovery, dead) then PlanOf(placement, recovery, dead)
        else old(plan)
      ensures r.Failure? <==> device in old(dead) && !Viable(placement, recovery, dead)
      ensures r.Success? ==> (r.value <==> device in old(dead))
    {
      PlanStepSound(State(), PlanEvent.MarkAlive(device));
      if device !in dead {
        return Success(false);
      }
      dead := dead - {device};
      var built := BuildExecutionPlan(placement, recovery, dead);
      match built
      case Failure(e) => return Failure(e);
      case Success(p) =>
        plan := p;
        r := Success(true);
    }

    /** Adopt a new placement and recovery table; the old dead set is dropped. */
    method RebindPlan(placement: Placement, recovery: RecoveryTable)
      requires Valid()
      modifies this
      ensures Valid() && State() == PlanStep(old(State()), Rebind(placement, recovery))
      ensures this.placement == placement && this.recovery == recovery && dead == {} && plan == placement
    {
      PlanStepSound(State(), Rebind(placement, recovery));
      this.placement, this.recovery, dead := placement, recovery, {};
      PlanIsSound(placement, recovery, {});
      var built := BuildExecutionPlan(placement, recovery, {});
      plan := built.value;
    }
  }

  /**
   A revival cannot fail while the current dead set is viable: the device gets its stage back,
   and no other stage moves ...
   */
  lemma RevivalFromViable(s: Plans, d: DeviceId)
    requires PlansValid(s) && Viable(s.placement, s.recovery, s.dead)
    ensures var u := PlanStep(s, MarkAlive(d));
      && Viable(u.placement, u.recovery, u.dead) && |u.plan| == |s.plan| == |s.placement|
      && forall i :: 0 <= i < |s.placement| ==>
         u.plan[i] == if s.placement[i].device == d then s.placement[i] else s.plan[i]
  {
    ViableMonotone(s.placement, s.recovery, s.dead - {d}, s.dead);
  }

  /** ... but it can after a device died whose loss left no plan: a and its backup b stay dead. */
  lemma RevivalCanFail()
    ensures var s := PlanRun(
        Plans([Stage(1, 1, "a"), Stage(2, 2, "b"), Stage(3, 3, "c")],
              map["a" := "b", "b" := "c", "c" := "a"], {}, [Stage(1, 1, "a"), Stage(2, 2, "b"), Stage(3, 3, "c")]),
        [MarkDead("a"), MarkDead("b"), MarkDead("c")]);
      "c" in s.dead && !Viable(s.placement, s.recovery, PlanStep(s, MarkAlive("c")).dead)
  {
    var p := [Stage(1, 1, "a"), Stage(2, 2, "b"), Stage(3, 3, "c")];
    var r := map["a" := "b", "b" := "c", "c" := "a"];
    var es := [MarkDead("a"), MarkDead("b"), MarkDead("c")];
    var s := Plans(p, r, {}, p);
    assert es[..2] == [MarkDead("a"), MarkDead("b")] && es[..2][..1] == [MarkDead("a")];
    var s1, s2 := PlanStep(s, MarkDead("a")), PlanStep(PlanStep(s, MarkDead("a")), MarkDead("b"));
    assert PlanRun(s, [MarkDead("a")]) == s1;
    assert PlanRun(s, es[..2]) == s2;
    var t := PlanStep(s2, MarkDead("c"));
    assert PlanRun(s, es) == t && t.dead == {"a", "b", "c"};
    assert t.dead - {"c"} == {"a", "b"};
    assert !StageViable(p[0], r, {"a", "b"});
  }
}
