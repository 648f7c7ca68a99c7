/** The solver proper: filling the tables, backtracking, and the single-shot solution. */
module Solver {
  import opened Wrappers
  import opened Types
  import opened Cluster
  import opened MemoryCheck
  import opened RecoveryTables
  import opened Scheduling
  import opened CostModel

  /** The two errors the program raises itself, and the one of a lookup in an empty fleet. */
  datatype SolveError = NoFeasibleSolution | NoRecoverySolution | IndexError

  type Table = array2<(Cost, Cost)>

  ghost predicate Sized(p: Problem, A: Table, choice: array2<int>) {
    && A.Length0 == choice.Length0 == p.L() + 1 && A.Length1 == choice.Length1 == p.M() + 1
  }

  ghost predicate Filled(p: Problem, A: Table, choice: array2<int>, y: nat, n: nat)
    requires p.Valid() && Sized(p, A, choice) && y <= p.L() && n <= p.M()
    reads A, choice
  {
    var c := CellAt(p, y, n);
    A[y, n] == (c.sum, c.max) && choice[y, n] == c.split
  }

  ghost predicate ColumnFilled(p: Problem, A: Table, choice: array2<int>, n: nat, end: nat)
    requires p.Valid() && Sized(p, A, choice) && n <= p.M() && end <= p.L() + 1
    reads A, choice
  {
    forall y {:trigger Filled(p, A, choice, y, n)} :: 0 <= y < end ==> Filled(p, A, choice, y, n)
  }

  ghost predicate ColumnDone(p: Problem, A: Table, choice: array2<int>, n: nat)
    requires p.Valid() && Sized(p, A, choice) && n <= p.M()
    reads A, choice
  {
    ColumnFilled(p, A, choice, n, p.L() + 1)
  }

  ghost predicate Blank(A: Table, choice: array2<int>, n: nat, from: nat)
    requires n < A.Length1 && A.Length0 == choice.Length0 && A.Length1 == choice.Length1
    reads A, choice
  {
    forall y :: from <= y < A.Length0 ==> A[y, n] == (Infinite, Infinite) && choice[y, n] == -1
  }

  /** Cells with fewer layers than devices are never reached. */
  lemma {:induction false} TooFewLayers(p: Problem, y: nat, n: nat)
    requires p.Valid() && y <= p.L() && n <= p.M() && y < n
    ensures CellAt(p, y, n) == Unreached()
  {}

  method StageTimeWithInterference(spec: ClusterSpec, device: DeviceId, start: nat, end: nat) returns (t: Cost)
    requires InRange(spec.layers, start, end)
    ensures t == StageTime(spec, device, start, end)
  {
    t := EstimateRecomputeTime(spec.layers, start, end, device);
    t := Scaled(t, Interference(spec));
  }

  /** Whether layers l+1..y may go to the n-th device, and at what cost. */
  method TryStage(p: Problem, n: nat, l: nat, y: nat) returns (cost: Option<Cost>)
    requires p.Valid() && 1 <= n <= p.M() && l < y <= p.L()
    ensures cost == if StageOk(p, n, l, y) then Some(StageCost(p.spec, n, l, y)) else None
  {
    var d := p.spec.devices[n - 1];
    var fits := CheckMemory(d, l + 1, y, p.recovery, p.reference, p.spec.layers, p.spec.eagerBackup);
    if !fits.value {
      return None;
    }
    var c := StageTimeWithInterference(p.spec, d.id, l + 1, y);
    if n > 1 {
      c := Plus(c, CommTime(p.spec, p.spec.devices[n - 2].id, d.id));
    }
    cost := if Below(Cap(p.spec), c) then None else Some(c);
  }

  /** The first device alone, for every number of layers. */
  method FillFirst(p: Problem, A: Table, choice: array2<int>)
    requires p.Valid() && Sized(p, A, choice) && Blank(A, choice, 1, 0)
    modifies A
    ensures ColumnDone(p, A, choice, 1)
    ensures old(ColumnDone(p, A, choice, 0)) ==> ColumnDone(p, A, choice, 0)
    ensures forall m :: 2 <= m <= p.M() && old(Blank(A, choice, m, 0)) ==> Blank(A, choice, m, 0)
  {
    TooFewLayers(p, 0, 1);
    for y := 1 to p.L() + 1
      invariant ColumnFilled(p, A, choice, 1, y) && Blank(A, choice, 1, y)
      invariant forall z, n :: 0 <= z <= p.L() && 0 <= n <= p.M() && n != 1 ==> A[z, n] == old(A[z, n])
    {
      var t := TryStage(p, 1, 0, y);
      label Before:
      if t.Some? {
        A[y, 1] := (t.value, t.value);
      }
      forall z | 0 <= z < y + 1
        ensures Filled(p, A, choice, z, 1)
      {
        assert z < y ==> old@Before(Filled(p, A, choice, z, 1));
      }
    }
    if old(ColumnDone(p, A, choice, 0)) {
      forall z | 0 <= z <= p.L()
        ensures Filled(p, A, choice, z, 0)
      {
        assert old(Filled(p, A, choice, z, 0));
      }
    }
  }

  /** One cell: every split, keeping the first of the best. */
  method FillCell(p: Problem, A: Table, choice: array2<int>, y: nat, n: nat)
    requires p.Valid() && Sized(p, A, choice) && 2 <= n <= p.M() && n <= y <= p.L()
    requires ColumnFilled(p, A, choice, n - 1, p.L() + 1)
    requires A[y, n] == (Infinite, Infinite) && choice[y, n] == -1
    modifies A, choice
    ensures Filled(p, A, choice, y, n)
    ensures forall z, m :: 0 <= z <= p.L() && 0 <= m <= p.M() && (z, m) != (y, n) ==>
      A[z, m] == old(A[z, m]) && choice[z, m] == old(choice[z, m])
  {
    for split := n - 1 to y
      invariant A[y, n] == (BestSplit(p, y, n, split).sum, BestSplit(p, y, n, split).max)
      invariant choice[y, n] == BestSplit(p, y, n, split).split
      invariant forall z, m :: 0 <= z <= p.L() && 0 <= m <= p.M() && (z, m) != (y, n) ==>
        A[z, m] == old(A[z, m]) && choice[z, m] == old(choice[z, m])
    {
      assert old(Filled(p, A, choice, split, n - 1));
      var prev := A[split, n - 1];
      if prev.0.Infinite? || prev.1.Infinite? {
        continue;
      }
      var cost := TryStage(p, n, split, y);
      if cost.None? {
        continue;
      }
      var sum, max := Plus(prev.0, cost.value), MaxOf(prev.1, cost.value);
      if Below(RankOf(p.spec.objective, sum, max), RankOf(p.spec.objective, A[y, n].0, A[y, n].1)) {
        A[y, n], choice[y, n] := (sum, max), split;
      }
    }
  }

  method FillColumn(p: Problem, A: Table, choice: array2<int>, n: nat)
    requires p.Valid() && Sized(p, A, choice) && 2 <= n <= p.M() && Blank(A, choice, n, 0)
    requires ColumnDone(p, A, choice, n - 1)
    modifies A, choice
    ensures ColumnDone(p, A, choice, n)
    ensures forall m :: 0 <= m <= p.M() && m != n && old(ColumnDone(p, A, choice, m)) ==> ColumnDone(p, A, choice, m)
    ensures forall m :: 0 <= m <= p.M() && m != n && old(Blank(A, choice, m, 0)) ==> Blank(A, choice, m, 0)
  {
    var y := if n <= p.L() + 1 then n else p.L() + 1;
    FewLayersFilled(p, A, choice, n, y);
    while y <= p.L()
      invariant n <= y || y == p.L() + 1
      invariant y <= p.L() + 1 && ColumnFilled(p, A, choice, n, y) && Blank(A, choice, n, y)
      invariant forall z, m :: 0 <= z <= p.L() && 0 <= m <= p.M() && m != n ==>
        A[z, m] == old(A[z, m]) && choice[z, m] == old(choice[z, m])
      invariant ColumnFilled(p, A, choice, n - 1, p.L() + 1)
    {
      FillOne(p, A, choice, y, n);
      y := y + 1;
    }
    forall m | 0 <= m <= p.M() && m != n && old(ColumnDone(p, A, choice, m))
      ensures ColumnDone(p, A, choice, m)
    {
      forall z | 0 <= z <= p.L()
        ensures Filled(p, A, choice, z, m)
      {
        assert old(Filled(p, A, choice, z, m));
      }
    }
  }

  lemma FewLayersFilled(p: Problem, A: Table, choice: array2<int>, n: nat, y: nat)
    requires p.Valid() && Sized(p, A, choice) && n <= p.M() && Blank(A, choice, n, 0) && y <= n && y <= p.L() + 1
    ensures ColumnFilled(p, A, choice, n, y)
  {
    forall z | 0 <= z < y
      ensures Filled(p, A, choice, z, n)
    {
      TooFewLayers(p, z, n);
    }
  }

  /** One more cell of a column. */
  method FillOne(p: Problem, A: Table, choice: array2<int>, y: nat, n: nat)
    requires p.Valid() && Sized(p, A, choice) && 2 <= n <= p.M() && n <= y <= p.L()
    requires ColumnFilled(p, A, choice, n - 1, p.L() + 1) && ColumnFilled(p, A, choice, n, y) && Blank(A, choice, n, y)
    modifies A, choice
    ensures ColumnFilled(p, A, choice, n - 1, p.L() + 1) && ColumnFilled(p, A, choice, n, y + 1)
    ensures Blank(A, choice, n, y + 1)
    ensures forall z, m :: 0 <= z <= p.L() && 0 <= m <= p.M() && m != n ==>
      A[z, m] == old(A[z, m]) && choice[z, m] == old(choice[z, m])
  {
    ghost var m := n - 1;
    FillCell(p, A, choice, y, n);
    forall z | 0 <= z <= p.L()
      ensures Filled(p, A, choice, z, m)
    {
      assert old(Filled(p, A, choice, z, m));
    }
    forall z | 0 <= z < y
      ensures Filled(p, A, choice, z, n)
    {
      assert old(Filled(p, A, choice, z, n));
    }
  }

  ghost predicate TableFilled(p: Problem, A: Table, choice: array2<int>, end: nat)
    requires p.Valid() && Sized(p, A, choice) && end <= p.M() + 1
    reads A, choice
  {
    forall n :: 0 <= n < end ==> ColumnDone(p, A, choice, n)
  }

  /** Both tables, all cells: A[y, n] ranks the best way for layers 1..y on n devices, choice its split. */
  method Forward(p: Problem) returns (A: Table, choice: array2<int>)
    requires p.Valid()
    ensures fresh(A) && fresh(choice) && Sized(p, A, choice) && TableFilled(p, A, choice, p.M() + 1)
  {
    A := new (Cost, Cost)[p.L() + 1, p.M() + 1]((_, _) => (Infinite, Infinite));
    choice := new int[p.L() + 1, p.M() + 1]((_, _) => -1);
    A[0, 0] := (Finite(0.0), Finite(0.0));
    assert ColumnDone(p, A, choice, 0) by {
      forall y | 0 <= y <= p.L()
        ensures Filled(p, A, choice, y, 0)
      {}
    }
    FillFirst(p, A, choice);
    for n := 2 to p.M() + 1
      invariant TableFilled(p, A, choice, n)
      invariant forall m :: n <= m <= p.M() ==> Blank(A, choice, m, 0)
    {
      assert ColumnDone(p, A, choice, n - 1);
      FillColumn(p, A, choice, n);
    }
  }

  // ---------- backtracking ----------

  function StageAt(spec: ClusterSpec, ends: seq<nat>, i: nat): Stage
    requires i < |ends| && i < |spec.devices|
  {
    Stage(StartOf(ends, i) + 1, ends[i], spec.devices[i].id)
  }

  /** The placement a partition stands for. */
  function PlacementOf(spec: ClusterSpec, ends: seq<nat>): (placement: Placement)
    requires |ends| <= |spec.devices|
    ensures |placement| == |ends| && forall i :: 0 <= i < |ends| ==> placement[i] == StageAt(spec, ends, i)
  {
    seq(|ends|, i requires 0 <= i < |ends| => StageAt(spec, ends, i))
  }

  lemma PlacementCovers(spec: ClusterSpec, ends: seq<nat>)
    requires |spec.devices| > 0 && IsPartition(ends, |spec.devices|, |spec.layers|)
    ensures Covers(PlacementOf(spec, ends), spec.devices, |spec.layers|)
    ensures Ranged(PlacementOf(spec, ends), spec.layers)
  {
    var psi := PlacementOf(spec, ends);
    forall i | 0 <= i < |psi|
      ensures Continues(psi, spec.devices, i) && InRange(spec.layers, psi[i].start, psi[i].end)
    {
      EndsGrow(ends, |spec.devices|, |spec.layers|, i);
      StageContinues(spec, ends, i);
    }
  }

  lemma StageContinues(spec: ClusterSpec, ends: seq<nat>, i: nat)
    requires |ends| == |spec.devices| && i < |ends| && StartOf(ends, i) < ends[i] <= |spec.layers|
    ensures var psi := PlacementOf(spec, ends);
      Continues(psi, spec.devices, i) && InRange(spec.layers, psi[i].start, psi[i].end)
  {
    var psi := PlacementOf(spec, ends);
    assert psi[i] == StageAt(spec, ends, i);
    assert i > 0 ==> psi[i - 1] == StageAt(spec, ends, i - 1);
  }

  /** Backtracking stands at (y, n); what it has still to read off is the path of that cell. */
  ghost predicate Remaining(p: Problem, ends: seq<nat>, y: nat, n: nat) {
    && p.Valid() && 1 <= n <= p.M() == |ends| && y <= p.L() && CellAt(p, y, n).sum.Finite?
    && ends[..n] == Path(p, y, n) && ends[n - 1] == y
  }

  lemma {:induction false} PathEnds(p: Problem, y: nat, n: nat)
    requires p.Valid() && 1 <= n <= p.M() && y <= p.L() && CellAt(p, y, n).sum.Finite?
    ensures Path(p, y, n)[n - 1] == y
  {}

  lemma RemainingStep(p: Problem, ends: seq<nat>, y: nat, n: nat)
    requires Remaining(p, ends, y, n) && n > 1
    ensures var l := CellAt(p, y, n).split;
      && 0 <= l < y && Remaining(p, ends, l, n - 1)
      && StageAt(p.spec, ends, n - 1) == Stage(l + 1, y, p.spec.devices[n - 1].id)
  {
    CellFinite(p, y, n);
    var l := CellAt(p, y, n).split;
    PathEnds(p, l, n - 1);
    assert ends[..n] == Path(p, l, n - 1) + [y];
    assert ends[..n - 1] == ends[..n][..n - 1] == Path(p, l, n - 1);
    assert ends[n - 2] == ends[..n - 1][n - 2];
  }

  lemma TargetStep(spec: ClusterSpec, ends: seq<nat>, n: nat)
    requires 1 <= n <= |ends| <= |spec.devices|
    ensures PlacementOf(spec, ends)[n - 1..] == [StageAt(spec, ends, n - 1)] + PlacementOf(spec, ends)[n..]
    ensures n == 1 ==> PlacementOf(spec, ends)[0..] == PlacementOf(spec, ends)
  {}

  /** Read the splits back into stages; it never fails where the last cell was reached. */
  method Backtrack(p: Problem, A: Table, choice: array2<int>) returns (r: Result<Placement, SolveError>)
    requires p.Valid() && Sized(p, A, choice) && TableFilled(p, A, choice, p.M() + 1)
    requires CellAt(p, p.L(), p.M()).sum.Finite?
    ensures r == Success(PlacementOf(p.spec, Path(p, p.L(), p.M())))
  {
    ghost var ends := Path(p, p.L(), p.M());
    PathEnds(p, p.L(), p.M());
    assert ends[..p.M()] == ends;
    var stages: Placement := [];
    var y: nat, n: nat := p.L(), p.M();
    while n > 1
      invariant Remaining(p, ends, y, n) && stages == PlacementOf(p.spec, ends)[n..]
    {
      ReadSplit(p, A, choice, y, n);
      RemainingStep(p, ends, y, n);
      var split := choice[y, n];
      if split < 0 {
        return Failure(NoFeasibleSolution);
      }
      TargetStep(p.spec, ends, n);
      stages := [Stage(split + 1, y, p.spec.devices[n - 1].id)] + stages;
      y, n := split, n - 1;
    }
    TargetStep(p.spec, ends, 1);
    stages := [Stage(1, y, p.spec.devices[0].id)] + stages;
    r := Success(stages);
  }

  lemma {:induction false} ReadSplit(p: Problem, A: Table, choice: array2<int>, y: nat, n: nat)
    requires p.Valid() && Sized(p, A, choice) && TableFilled(p, A, choice, p.M() + 1) && y <= p.L() && n <= p.M()
    ensures choice[y, n] == CellAt(p, y, n).split && A[y, n] == (CellAt(p, y, n).sum, CellAt(p, y, n).max)
  {
    assert ColumnDone(p, A, choice, n) && Filled(p, A, choice, y, n);
  }

  // ---------- the service-level target ----------

  /** Stage i is not empty, fits its device beside the backups there, and in throughput mode meets the target. */
  ghost predicate ServableStage(spec: ClusterSpec, recovery: RecoveryTable, reference: Placement, ends: seq<nat>,
      i: nat)
    requires Ranged(reference, spec.layers) && i < |ends| == |spec.devices|
  {
    var start := StartOf(ends, i);
    && start < ends[i] <= |spec.layers|
    && LayerBytes(spec.layers, start + 1, ends[i]) +
         (if spec.eagerBackup then BackupBurden(spec.devices[i].id, recovery, reference, spec.layers) else 0)
       <= (if spec.devices[i].freeMemory != 0 then spec.devices[i].freeMemory else spec.devices[i].totalMemory)
    && (exists time ::
        StageTakes(spec, i, start, ends[i], time) && (spec.objective.Throughput? ==> time <= spec.tbtSlo))
  }

  /** One such stage per device, in order, and all layers covered. */
  ghost predicate Servable(spec: ClusterSpec, recovery: RecoveryTable, reference: Placement, ends: seq<nat>)
    requires Ranged(reference, spec.layers)
  {
    && |ends| == |spec.devices| > 0 && ends[|ends| - 1] == |spec.layers|
    && forall i {:trigger ServableStage(spec, recovery, reference, ends, i)} :: 0 <= i < |ends| ==>
        ServableStage(spec, recovery, reference, ends, i)
  }

  lemma StageInTime(p: Problem, ends: seq<nat>, i: nat)
    requires p.Valid() && i < |ends| == p.M() && StartOf(ends, i) < ends[i] <= p.L()
    ensures FeasibleStage(p, ends, i) <==> ServableStage(p.spec, p.recovery, p.reference, ends, i)
  {
    hide StageCost, StageTakes, LayerBytes, BackupBurden;
    forall time
      ensures StageCost(p.spec, i + 1, StartOf(ends, i), ends[i]) == Finite(time) <==>
        StageTakes(p.spec, i, StartOf(ends, i), ends[i], time)
    {
      CostIsTime(p.spec, i, StartOf(ends, i), ends[i], time);
    }
    var cost := StageCost(p.spec, i + 1, StartOf(ends, i), ends[i]);
    assert cost.Finite? ==> StageTakes(p.spec, i, StartOf(ends, i), ends[i], cost.value);
  }

  /** These are the partitions the program chooses from. */
  lemma FeasibleIsServable(p: Problem, ends: seq<nat>)
    requires p.Valid()
    ensures FeasiblePartition(p, ends) <==> Servable(p.spec, p.recovery, p.reference, ends)
  {
    if |ends| == p.M() {
      forall i | 0 <= i < |ends|
        ensures FeasibleStage(p, ends, i) <==> ServableStage(p.spec, p.recovery, p.reference, ends, i)
      {
        if StartOf(ends, i) < ends[i] <= p.L() {
          StageInTime(p, ends, i);
        }
      }
      if Servable(p.spec, p.recovery, p.reference, ends) {
        forall i | 0 <= i < |ends|
          ensures StartOf(ends, i) < ends[i]
        {
          assert ServableStage(p.spec, p.recovery, p.reference, ends, i);
        }
      }
    }
  }

  /** In throughput mode the slowest of the first n stages meets the target. */
  lemma {:induction false} SlowestMeetsTarget(p: Problem, ends: seq<nat>, n: nat)
    requires p.Valid() && 1 <= n <= |ends| == p.M() && Feasible(p, ends, n) && p.spec.objective.Throughput?
    ensures Bounded(p.spec, ends, n) && MaxCost(p.spec, ends, n).Finite?
    ensures MaxCost(p.spec, ends, n).value <= p.spec.tbtSlo
  {
    FeasibleBounded(p, ends, n);
    assert FeasibleStage(p, ends, n - 1);
    if n > 1 {
      SlowestMeetsTarget(p, ends, n - 1);
    }
  }

  /** The same problem with another target. */
  function Retargeted(p: Problem, slo: real): Problem {
    p.(spec := p.spec.(tbtSlo := slo))
  }

  /** In the other modes the target plays no part in any cell. */
  lemma {:induction false} TargetIgnored(p: Problem, slo: real, y: nat, n: nat)
    requires p.Valid() && !p.spec.objective.Throughput? && y <= p.L() && n <= p.M()
    ensures CellAt(Retargeted(p, slo), y, n) == CellAt(p, y, n)
    decreases n, p.L() + 1
  {
    if n > 1 {
      TargetIgnoredBySplits(p, slo, y, n, y);
    }
  }

  lemma {:induction false} TargetIgnoredBySplits(p: Problem, slo: real, y: nat, n: nat, hi: nat)
    requires p.Valid() && !p.spec.objective.Throughput? && hi <= y <= p.L() && 2 <= n <= p.M()
    ensures BestSplit(Retargeted(p, slo), y, n, hi) == BestSplit(p, y, n, hi)
    decreases n, hi
  {
    if hi > n - 1 {
      TargetIgnoredBySplits(p, slo, y, n, hi - 1);
      TargetIgnored(p, slo, hi - 1, n - 1);
    }
  }

  lemma {:induction false} TargetIgnoredOnPath(p: Problem, slo: real, y: nat, n: nat)
    requires p.Valid() && !p.spec.objective.Throughput? && 1 <= n <= p.M() && y <= p.L() && CellAt(p, y, n).sum.Finite?
    ensures CellAt(Retargeted(p, slo), y, n).sum.Finite? && Path(Retargeted(p, slo), y, n) == Path(p, y, n)
    decreases n
  {
    CellFinite(p, y, n);
    TargetIgnored(p, slo, y, n);
    if n > 1 {
      TargetIgnoredOnPath(p, slo, CellAt(p, y, n).split, n - 1);
    }
  }

  // ---------- the single-shot solution ----------

  datatype DpResult = DpResult(placement: Placement, recovery: RecoveryTable, maxStageTime: real, sumStageTime: real)

  ghost predicate FeasiblePartition(p: Problem, ends: seq<nat>)
    requires p.Valid()
  {
    IsPartition(ends, p.M(), p.L()) && Feasible(p, ends, p.M())
  }

  /** The partition's costs, and what the objective makes of them. */
  ghost function PartitionRank(p: Problem, ends: seq<nat>): Cost
    requires p.Valid() && FeasiblePartition(p, ends)
  {
    FeasibleBounded(p, ends, p.M());
    RankOf(p.spec.objective, SumOf(p.spec, ends, p.M()), MaxCost(p.spec, ends, p.M()))
  }

  /** The result stands for a feasible partition and carries its true costs. */
  ghost predicate Realizes(p: Problem, res: DpResult, ends: seq<nat>)
    requires p.Valid()
  {
    && FeasiblePartition(p, ends) && Bounded(p.spec, ends, p.M())
    && res.placement == PlacementOf(p.spec, ends) && res.recovery == p.recovery
    && SumOf(p.spec, ends, p.M()) == Finite(res.sumStageTime)
    && MaxCost(p.spec, ends, p.M()) == Finite(res.maxStageTime)
  }

  /** What the last cell says about all partitions. */
  lemma {:induction false} LastCell(p: Problem)
    requires p.Valid()
    ensures CellAt(p, p.L(), p.M()).sum.Finite? <==> exists ends :: FeasiblePartition(p, ends)
    ensures CellAt(p, p.L(), p.M()).sum.Finite? ==> FeasiblePartition(p, Path(p, p.L(), p.M()))
    ensures CellAt(p, p.L(), p.M()).sum.Finite? && Decomposable(p.spec.objective) ==>
      forall ends :: FeasiblePartition(p, ends) ==>
        !Below(PartitionRank(p, ends), PartitionRank(p, Path(p, p.L(), p.M())))
  {
    if CellAt(p, p.L(), p.M()).sum.Finite? {
      CellIsPath(p, p.L(), p.M());
      assert FeasiblePartition(p, Path(p, p.L(), p.M()));
    }
    forall ends | FeasiblePartition(p, ends)
      ensures CellAt(p, p.L(), p.M()).sum.Finite?
      ensures Decomposable(p.spec.objective) ==>
        !Below(PartitionRank(p, ends),
          RankOf(p.spec.objective, CellAt(p, p.L(), p.M()).sum, CellAt(p, p.L(), p.M()).max))
    {
      CellIsOptimal(p, ends, p.M(), p.L());
    }
  }

  /** The dynamic program with a fixed recovery table and reference placement. */
  method SolveProblem(p: Problem) returns (r: Result<DpResult, SolveError>)
    requires p.Valid()
    ensures r == Solved(p)
  {
    var A, choice := Forward(p);
    ReadSplit(p, A, choice, p.L(), p.M());
    CellFinite(p, p.L(), p.M());
    var last := A[p.L(), p.M()];
    if last.0.Infinite? || last.1.Infinite? {
      return Failure(NoFeasibleSolution);
    }
    var placement := Backtrack(p, A, choice);
    r := Success(DpResult(placement.value, p.recovery, last.1.value, last.0.value));
  }

  function SolutionOf(p: Problem): DpResult
    requires p.Valid() && CellAt(p, p.L(), p.M()).sum.Finite?
  {
    var c := CellAt(p, p.L(), p.M());
    CellFinite(p, p.L(), p.M());
    DpResult(PlacementOf(p.spec, Path(p, p.L(), p.M())), p.recovery, c.max.value, c.sum.value)
  }

  /** What the program comes to. */
  function Solved(p: Problem): Result<DpResult, SolveError>
    requires p.Valid()
  {
    if CellAt(p, p.L(), p.M()).sum.Finite? then Success(SolutionOf(p)) else Failure(NoFeasibleSolution)
  }

  /** Outside throughput mode it comes to the same for every target. */
  lemma TargetOnlyInThroughput(p: Problem, slo: real)
    requires p.Valid() && !p.spec.objective.Throughput?
    ensures Solved(Retargeted(p, slo)) == Solved(p)
  {
    TargetIgnored(p, slo, p.L(), p.M());
    if CellAt(p, p.L(), p.M()).sum.Finite? {
      var ends := Path(p, p.L(), p.M());
      CellFinite(p, p.L(), p.M());
      CellIsPath(p, p.L(), p.M());
      TargetIgnoredOnPath(p, slo, p.L(), p.M());
      assert PlacementOf(Retargeted(p, slo).spec, ends) == PlacementOf(p.spec, ends);
    }
  }

  /** In throughput mode no stage of it is slower than the target. */
  lemma {:induction false} SolutionMeetsTarget(p: Problem)
    requires p.Valid() && p.spec.objective.Throughput? && CellAt(p, p.L(), p.M()).sum.Finite?
    ensures SolutionOf(p).maxStageTime <= p.spec.tbtSlo
  {
    CellIsPath(p, p.L(), p.M());
    SlowestMeetsTarget(p, Path(p, p.L(), p.M()), p.M());
  }

  lemma {:induction false} SolutionRealizes(p: Problem)
    requires p.Valid() && CellAt(p, p.L(), p.M()).sum.Finite?
    ensures Realizes(p, SolutionOf(p), Path(p, p.L(), p.M()))
  {
    CellFinite(p, p.L(), p.M());
    CellIsPath(p, p.L(), p.M());
  }

  lemma StagesTimed(spec: ClusterSpec, ends: seq<nat>, times: seq<real>)
    requires IsPartition(ends, |spec.devices|, |spec.layers|) && |times| == |ends| == |spec.devices|
    requires forall i :: 0 <= i < |ends| ==> ends[i] <= |spec.layers|
    requires forall i :: 0 <= i < |ends| ==> StageCost(spec, i + 1, StartOf(ends, i), ends[i]) == Finite(times[i])
    ensures Timed(spec, PlacementOf(spec, ends), times)
  {
    hide StageCost, StageTakes, IsPartition;
    var psi := PlacementOf(spec, ends);
    forall i | 0 <= i < |times|
      ensures TimedStage(spec, psi[i], i, times[i])
    {
      EndsGrow(ends, |spec.devices|, |spec.layers|, i);
      CostIsTime(spec, i, StartOf(ends, i), ends[i], times[i]);
    }
  }

  /** The costs of a full partition are the times its stages take. */
  lemma CostsAreTimes(spec: ClusterSpec, ends: seq<nat>, sum: real, max: real)
    requires IsPartition(ends, |spec.devices|, |spec.layers|) && Bounded(spec, ends, |ends|)
    requires SumOf(spec, ends, |ends|) == Finite(sum) && MaxCost(spec, ends, |ends|) == Finite(max)
    ensures HasTimes(spec, PlacementOf(spec, ends), sum, max)
  {
    hide StageCost, SumOf, MaxCost, Timed, TotalOf;
    var times := PrefixTimes(spec, ends, |ends|);
    StagesTimed(spec, ends, times);
  }

  lemma PartitionNeedsLayers(p: Problem, ends: seq<nat>)
    requires p.Valid() && FeasiblePartition(p, ends)
    ensures p.L() >= p.M()
  {
    EndsGrow(ends, p.M(), p.L(), p.M() - 1);
  }

  lemma ServableOrNot(p: Problem)
    requires p.Valid()
    ensures (exists e :: FeasiblePartition(p, e)) <==> exists e :: Servable(p.spec, p.recovery, p.reference, e)
  {
    forall e
      ensures FeasiblePartition(p, e) <==> Servable(p.spec, p.recovery, p.reference, e)
    {
      FeasibleIsServable(p, e);
    }
  }

  /** With fewer layers than devices there is nothing to choose from. */
  lemma TooFewToSolve(p: Problem)
    requires p.Valid() && p.L() < p.M()
    ensures Solved(p) == Failure(NoFeasibleSolution)
    ensures forall e :: !Servable(p.spec, p.recovery, p.reference, e)
  {
    TooFewLayers(p, p.L(), p.M());
    ServableOrNot(p);
    if exists e :: FeasiblePartition(p, e) {
      var e :| FeasiblePartition(p, e);
      PartitionNeedsLayers(p, e);
    }
  }

  /**
   The single-shot solver: it fails exactly when no ordered partition into one non-empty
   stage per device fits the devices, has known costs, and in throughput mode meets the
   target with every stage; otherwise it returns one with its true costs, and in throughput
   and latency mode none is better.
   */
  method Solve(spec: ClusterSpec, recovery: RecoveryTable, reference: Option<Placement>)
    returns (r: Result<DpResult, SolveError>, ghost p: Problem, ghost ends: seq<nat>)
    requires spec.objective.Blended? ==> spec.objective.alpha > 0.0
    requires reference.Some? ==> Ranged(reference.value, spec.layers)
    ensures p.spec == spec && p.recovery == recovery && (reference.Some? ==> p.reference == reference.value)
    ensures reference.None? && 0 < |spec.devices| <= |spec.layers| ==>
      p.reference == EvenSplit(spec.devices, |spec.layers|)
    ensures spec.devices == [] ==> r.Failure?
    ensures spec.devices != [] ==> p.Valid() && r == Solved(p)
    ensures spec.devices != [] ==> (r.Failure? <==> forall e :: !Servable(spec, recovery, p.reference, e))
    ensures r.Success? && spec.objective.Throughput? ==> r.value.maxStageTime <= spec.tbtSlo
    ensures r.Success? ==> p.Valid() && Realizes(p, r.value, ends)
    ensures r.Success? ==> HasTimes(spec, r.value.placement, r.value.sumStageTime, r.value.maxStageTime)
    ensures r.Success? && Decomposable(spec.objective) ==>
      forall e :: FeasiblePartition(p, e) ==> !Below(PartitionRank(p, e), PartitionRank(p, ends))
  {
    ends := [];
    var given := if reference.Some? then reference.value else [];
    p := Problem(spec, recovery, given);
    if |spec.layers| == 0 || |spec.devices| == 0 || |spec.layers| < |spec.devices| {
      if spec.devices != [] {
        TooFewToSolve(p);
      }
      return Failure(NoFeasibleSolution), p, [];
    }
    if reference.None? {
      given := UniformPlacement(spec.devices, |spec.layers|);
      UniformRanged(given, spec);
    }
    var problem := Problem(spec, recovery, given);
    p := problem;
    LastCell(p);
    ServableOrNot(p);
    r := SolveProblem(problem);
    if r.Success? {
      ends := Path(p, p.L(), p.M());
      SolutionRealizes(p);
      CostsAreTimes(spec, ends, r.value.sumStageTime, r.value.maxStageTime);
      if spec.objective.Throughput? {
        SolutionMeetsTarget(p);
      }
    }
  }

  // ---------- the round-robin reference ----------

  /** The first layer of stage i when the first `extra` stages have base + 1 layers and the others base. */
  function Cursor(base: nat, extra: nat, i: nat): nat
    decreases i
  {
    if i == 0 then 1 else Cursor(base, extra, i - 1) + base + if i - 1 < extra then 1 else 0
  }

  lemma {:induction false} CursorClosed(base: nat, extra: nat, i: nat)
    ensures Cursor(base, extra, i) == 1 + i * base + if i < extra then i else extra
    decreases i
  {
    if i > 0 {
      CursorClosed(base, extra, i - 1);
      assert i * base == (i - 1) * base + base;
    }
  }

  function UniformStage(devices: seq<DeviceProfile>, base: nat, extra: nat, i: nat): Stage
    requires i < |devices| && (base > 0 || i < extra)
  {
    Stage(Cursor(base, extra, i), Cursor(base, extra, i + 1) - 1, devices[i].id)
  }

  lemma {:induction false} CursorEnds(layers: nat, M: nat)
    requires M > 0
    ensures Cursor(layers / M, layers % M, M) == layers + 1 && layers % M < M
    ensures M <= layers ==> layers / M > 0
  {
    CursorClosed(layers / M, layers % M, M);
    assert M * (layers / M) + layers % M == layers;
  }

  lemma {:induction false} CursorMonotone(base: nat, extra: nat, i: nat, j: nat)
    requires i <= j
    ensures 1 <= Cursor(base, extra, i) <= Cursor(base, extra, j)
    decreases j
  {
    if j > 0 {
      CursorMonotone(base, extra, if i < j then i else i - 1, j - 1);
    }
  }

  /** The even split of the layers over all devices. */
  function EvenSplit(devices: seq<DeviceProfile>, layers: nat): (placement: Placement)
    requires 0 < |devices| <= layers
    ensures |placement| == |devices|
  {
    var base, extra := layers / |devices|, layers % |devices|;
    CursorEnds(layers, |devices|);
    seq(|devices|, i requires 0 <= i < |devices| => UniformStage(devices, base, extra, i))
  }

  /** floor(L / M) layers each, one more for the first devices; devices without layers are skipped. */
  method UniformPlacement(devices: seq<DeviceProfile>, layers: nat) returns (placement: Placement)
    ensures devices == [] || layers == 0 ==> placement == []
    ensures 0 < |devices| <= layers ==> Covers(placement, devices, layers) && placement == EvenSplit(devices, layers)
    ensures 0 < |devices| ==> forall i :: 0 <= i < |placement| ==>
      placement[i].end - placement[i].start + 1 == layers / |devices| + if i < layers % |devices| then 1 else 0
    ensures forall s :: s in placement ==> 1 <= s.start <= s.end <= layers
  {
    var M := |devices|;
    if M == 0 || layers == 0 {
      return [];
    }
    var base, extra := layers / M, layers % M;
    placement := [];
    var cursor := 1;
    for i := 0 to M
      invariant cursor == Cursor(base, extra, i)
      invariant |placement| == if base > 0 || i < extra then i else extra
      invariant forall k :: 0 <= k < |placement| ==> placement[k] == UniformStage(devices, base, extra, k)
    {
      var count := base + if i < extra then 1 else 0;
      if count == 0 {
        continue;
      }
      placement := placement + [Stage(cursor, cursor + count - 1, devices[i].id)];
      cursor := cursor + count;
    }
    CursorEnds(layers, M);
    UniformCovers(devices, layers, placement);
  }

  lemma UniformCovers(devices: seq<DeviceProfile>, layers: nat, placement: Placement)
    requires |devices| > 0 && layers > 0
    requires var base, extra := layers / |devices|, layers % |devices|;
      && |placement| == (if base > 0 then |devices| else extra) && extra < |devices|
      && forall k :: 0 <= k < |placement| ==> placement[k] == UniformStage(devices, base, extra, k)
    ensures |devices| <= layers ==> Covers(placement, devices, layers)
    ensures forall i :: 0 <= i < |placement| ==>
      placement[i].end - placement[i].start + 1 == layers / |devices| + if i < layers % |devices| then 1 else 0
    ensures forall s :: s in placement ==> 1 <= s.start <= s.end <= layers
  {
    CursorEnds(layers, |devices|);
    SplitCovers(devices, layers / |devices|, layers % |devices|, layers, placement);
  }

  lemma {:induction false} SplitCovers(devices: seq<DeviceProfile>, base: nat, extra: nat, layers: nat,
      placement: Placement)
    requires |placement| == (if base > 0 then |devices| else extra) && extra < |devices|
    requires forall k :: 0 <= k < |placement| ==> placement[k] == UniformStage(devices, base, extra, k)
    requires Cursor(base, extra, |devices|) == layers + 1
    ensures base > 0 ==> Covers(placement, devices, layers)
    ensures forall i :: 0 <= i < |placement| ==>
      placement[i].end - placement[i].start + 1 == base + if i < extra then 1 else 0
    ensures forall s :: s in placement ==> 1 <= s.start <= s.end <= layers
  {
    forall k | 0 <= k < |placement|
      ensures placement[k].end - placement[k].start + 1 == base + if k < extra then 1 else 0
      ensures 1 <= placement[k].start <= placement[k].end <= layers
    {
      CursorMonotone(base, extra, 0, k);
      CursorMonotone(base, extra, k + 1, |devices|);
    }
    if base > 0 {
      forall k | 0 <= k < |placement|
        ensures Continues(placement, devices, k)
      {
        assert k > 0 ==> placement[k - 1] == UniformStage(devices, base, extra, k - 1);
      }
      assert placement[|devices| - 1] == UniformStage(devices, base, extra, |devices| - 1);
    }
  }

  lemma UniformRanged(placement: Placement, spec: ClusterSpec)
    requires forall s :: s in placement ==> 1 <= s.start <= s.end <= |spec.layers|
    ensures Ranged(placement, spec.layers)
  {}
}
