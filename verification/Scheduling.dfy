/**
 The recovery-aware dynamic program: cell (y, n) holds the best way found to run layers
 1..y on the first n devices, and the split that leads there.
 */
module Scheduling {
  import opened Types
  import opened Cluster
  import opened MemoryCheck
  import opened RecoveryTables

  /** Sum and maximum of the stage costs so far, and where the last stage starts. */
  datatype Cell = Cell(sum: Cost, max: Cost, split: int)

  function Unreached(): Cell {
    Cell(Infinite, Infinite, -1)
  }

  /** A cluster, the recovery table held fixed, and the placement whose stages the backups weigh. */
  datatype Problem = Problem(spec: ClusterSpec, recovery: RecoveryTable, reference: Placement) {
    ghost predicate Valid() {
      && Ranged(reference, spec.layers) && |spec.devices| > 0
      && (spec.objective.Blended? ==> spec.objective.alpha > 0.0)
    }

    function L(): nat { |spec.layers| }

    function M(): nat { |spec.devices| }
  }

  function RankOf(objective: Objective, sum: Cost, max: Cost): Cost {
    match objective
    case Throughput => max
    case Latency => sum
    case Blended(alpha) => if sum.Finite? && max.Finite? then Finite(sum.value + alpha * max.value) else Infinite
  }

  // ---------- stage costs ----------

  function Scaled(base: Cost, factor: real): Cost {
    if base.Infinite? then base else Finite(base.value * factor)
  }

  /** How much queueing for worker threads inflates a stage. */
  function Interference(spec: ClusterSpec): real {
    if spec.targetConcurrency <= 1 || spec.threadPool <= 0 || |spec.devices| <= 0 then 1.0
    else
      var load := (spec.targetConcurrency * |spec.devices|) as real / spec.threadPool as real;
      if load > 1.0 then load else 1.0
  }

  function StageTime(spec: ClusterSpec, device: DeviceId, start: nat, end: nat): Cost
    requires 1 <= start && end <= |spec.layers|
  {
    Scaled(ComputeTime(spec.layers, start, end, device), Interference(spec))
  }

  function CommTime(spec: ClusterSpec, src: DeviceId, dst: DeviceId): Cost {
    var lat := if (src, dst) in spec.network.latency then spec.network.latency[(src, dst)] else 0.0;
    if (src, dst) !in spec.network.bandwidth || spec.network.bandwidth[(src, dst)] <= 0.0 then Infinite
    else Finite(spec.activationBytes as real / spec.network.bandwidth[(src, dst)] + lat + spec.hopOverhead)
  }

  /** The cost of layers l+1..y on the n-th device; the first stage's input is local. */
  function StageCost(spec: ClusterSpec, n: nat, l: nat, y: nat): Cost
    requires 1 <= n <= |spec.devices| && y <= |spec.layers|
  {
    var t := StageTime(spec, spec.devices[n - 1].id, l + 1, y);
    if n == 1 then t else Plus(t, CommTime(spec, spec.devices[n - 2].id, spec.devices[n - 1].id))
  }

  /** The service-level cap on one stage; only throughput mode has one. */
  function Cap(spec: ClusterSpec): Cost {
    if spec.objective.Throughput? then Finite(spec.tbtSlo) else Infinite
  }

  /** Layers l+1..y may go to the n-th device: they fit beside its backups and meet the cap. */
  predicate StageOk(p: Problem, n: nat, l: nat, y: nat)
    requires Ranged(p.reference, p.spec.layers) && 1 <= n <= p.M() && l < y <= p.L()
  {
    && Fits(p.spec.devices[n - 1], l + 1, y, p.recovery, p.reference, p.spec.layers, p.spec.eagerBackup)
    && !Below(Cap(p.spec), StageCost(p.spec, n, l, y))
  }

  // ---------- the table as a function ----------

  /** The cell reached from (l, n - 1) by giving layers l+1..y to the n-th device. */
  function Extended(p: Problem, prev: Cell, n: nat, l: nat, y: nat): Cell
    requires 1 <= n <= p.M() && y <= p.L()
  {
    var c := StageCost(p.spec, n, l, y);
    Cell(Plus(prev.sum, c), MaxOf(prev.max, c), l)
  }

  function CellAt(p: Problem, y: nat, n: nat): Cell
    requires Ranged(p.reference, p.spec.layers) && y <= p.L() && n <= p.M()
    decreases n, p.L() + 1
  {
    if n == 0 then if y == 0 then Cell(Finite(0.0), Finite(0.0), -1) else Unreached()
    else if n == 1 then
      if y > 0 && StageOk(p, 1, 0, y) then Cell(StageCost(p.spec, 1, 0, y), StageCost(p.spec, 1, 0, y), -1)
      else Unreached()
    else BestSplit(p, y, n, y)
  }

  /** The best of the splits n-1 <= l < hi, the first among equals. */
  function BestSplit(p: Problem, y: nat, n: nat, hi: nat): Cell
    requires Ranged(p.reference, p.spec.layers) && hi <= y <= p.L() && 2 <= n <= p.M()
    decreases n, hi
  {
    if hi <= n - 1 then Unreached()
    else
      var best, prev := BestSplit(p, y, n, hi - 1), CellAt(p, hi - 1, n - 1);
      if prev.sum.Finite? && prev.max.Finite? && StageOk(p, n, hi - 1, y) then
        Better(p.spec.objective, best, Extended(p, prev, n, hi - 1, y))
      else best
  }

  function Better(objective: Objective, best: Cell, c: Cell): Cell {
    if Below(RankOf(objective, c.sum, c.max), RankOf(objective, best.sum, best.max)) then c else best
  }

  // ---------- partitions ----------

  /** The last layers of n consecutive non-empty stages that cover 1..y. */
  ghost predicate IsPartition(ends: seq<nat>, n: nat, y: nat) {
    && |ends| == n > 0 && ends[n - 1] == y
    && forall i {:trigger StartOf(ends, i)} :: 0 <= i < n ==> StartOf(ends, i) < ends[i]
  }

  /** The layer before stage i. */
  function StartOf(ends: seq<nat>, i: nat): nat
    requires i < |ends|
  {
    if i == 0 then 0 else ends[i - 1]
  }

  lemma {:induction false} EndsGrow(ends: seq<nat>, n: nat, y: nat, i: nat)
    requires IsPartition(ends, n, y) && i < n
    ensures i < ends[i] <= y
    ensures i > 0 ==> ends[i - 1] < ends[i]
    decreases n
  {
    assert StartOf(ends, n - 1) < ends[n - 1];
    if n > 1 {
      PartitionPrefix(ends, n, y);
      if i < n - 1 {
        EndsGrow(ends[..n - 1], n - 1, ends[n - 2], i);
      } else {
        EndsGrow(ends[..n - 1], n - 1, ends[n - 2], i - 1);
      }
    }
  }

  lemma PartitionPrefix(ends: seq<nat>, n: nat, y: nat)
    requires IsPartition(ends, n, y) && n > 1
    ensures IsPartition(ends[..n - 1], n - 1, ends[n - 2]) && ends[n - 2] < y
  {
    assert StartOf(ends, n - 1) < ends[n - 1];
    var before := ends[..n - 1];
    forall i | 0 <= i < n - 1
      ensures StartOf(before, i) < before[i]
    {
      assert StartOf(ends, i) < ends[i];
    }
  }

  /** Every stage is allowed and has a finite cost. */
  ghost predicate Feasible(p: Problem, ends: seq<nat>, n: nat)
    requires Ranged(p.reference, p.spec.layers) && n <= |ends| && n <= p.M()
  {
    forall i :: 0 <= i < n ==> FeasibleStage(p, ends, i)
  }

  ghost predicate FeasibleStage(p: Problem, ends: seq<nat>, i: nat)
    requires Ranged(p.reference, p.spec.layers) && i < |ends| && i < p.M()
  {
    && StartOf(ends, i) < ends[i] <= p.L() && StageOk(p, i + 1, StartOf(ends, i), ends[i])
    && StageCost(p.spec, i + 1, StartOf(ends, i), ends[i]).Finite?
  }

  ghost predicate Bounded(spec: ClusterSpec, ends: seq<nat>, n: nat) {
    n <= |ends| && n <= |spec.devices| && forall i :: 0 <= i < n ==> ends[i] <= |spec.layers|
  }

  lemma FeasibleBounded(p: Problem, ends: seq<nat>, n: nat)
    requires Ranged(p.reference, p.spec.layers) && n <= |ends| && n <= p.M() && Feasible(p, ends, n)
    ensures Bounded(p.spec, ends, n)
  {
    forall i | 0 <= i < n
      ensures ends[i] <= p.L()
    {
      assert FeasibleStage(p, ends, i);
    }
  }

  /** Sum and maximum of the first n stage costs. */
  ghost function SumOf(spec: ClusterSpec, ends: seq<nat>, n: nat): Cost
    requires Bounded(spec, ends, n)
  {
    if n == 0 then Finite(0.0)
    else if n == 1 then StageCost(spec, 1, 0, ends[0])
    else Plus(SumOf(spec, ends, n - 1), StageCost(spec, n, ends[n - 2], ends[n - 1]))
  }

  ghost function MaxCost(spec: ClusterSpec, ends: seq<nat>, n: nat): Cost
    requires Bounded(spec, ends, n)
  {
    if n == 0 then Finite(0.0)
    else if n == 1 then StageCost(spec, 1, 0, ends[0])
    else MaxOf(MaxCost(spec, ends, n - 1), StageCost(spec, n, ends[n - 2], ends[n - 1]))
  }

  // ---------- soundness: what a cell stands for ----------

  /** A split that was chosen is in range and leads to a reached cell, of which this one is the extension. */
  lemma {:induction false} SplitIsReal(p: Problem, y: nat, n: nat, hi: nat)
    requires p.Valid() && hi <= y <= p.L() && 2 <= n <= p.M()
    ensures var c := BestSplit(p, y, n, hi);
      (c == Unreached() || (n - 1 <= c.split < hi && ReachedBy(p, c, y, n, c.split)))
    decreases hi
  {
    if hi > n - 1 {
      SplitIsReal(p, y, n, hi - 1);
    }
  }

  ghost predicate ReachedBy(p: Problem, c: Cell, y: nat, n: nat, l: nat)
    requires Ranged(p.reference, p.spec.layers) && y <= p.L() && 2 <= n <= p.M() && l < y
  {
    var prev := CellAt(p, l, n - 1);
    && prev.sum.Finite? && prev.max.Finite? && StageOk(p, n, l, y) && StageCost(p.spec, n, l, y).Finite?
    && c == Extended(p, prev, n, l, y)
  }

  /** Sum and maximum are finite together. */
  lemma {:induction false} CellFinite(p: Problem, y: nat, n: nat)
    requires p.Valid() && y <= p.L() && n <= p.M()
    ensures CellAt(p, y, n).sum.Finite? <==> CellAt(p, y, n).max.Finite?
    ensures n > 1 && CellAt(p, y, n).sum.Finite? ==>
      n - 1 <= CellAt(p, y, n).split < y && ReachedBy(p, CellAt(p, y, n), y, n, CellAt(p, y, n).split)
    ensures n >= 1 && CellAt(p, y, n).sum.Finite? ==> y >= n
  {
    if n > 1 {
      SplitIsReal(p, y, n, y);
    }
  }

  /** The partition that backtracking from (y, n) reads off the splits. */
  function Path(p: Problem, y: nat, n: nat): (ends: seq<nat>)
    requires p.Valid() && 1 <= n <= p.M() && y <= p.L() && CellAt(p, y, n).sum.Finite?
    ensures |ends| == n
    decreases n
  {
    CellFinite(p, y, n);
    if n == 1 then [y] else Path(p, CellAt(p, y, n).split, n - 1) + [y]
  }

  /**
   Every reached cell is exactly the sum and the maximum of the stage costs of the feasible
   partition that backtracking reaches from it.
   */
  lemma {:induction false} CellIsPath(p: Problem, y: nat, n: nat)
    requires p.Valid() && 1 <= n <= p.M() && y <= p.L() && CellAt(p, y, n).sum.Finite?
    ensures var ends := Path(p, y, n);
      && IsPartition(ends, n, y) && Feasible(p, ends, n)
      && Bounded(p.spec, ends, n)
      && SumOf(p.spec, ends, n) == CellAt(p, y, n).sum && MaxCost(p.spec, ends, n) == CellAt(p, y, n).max
    decreases n
  {
    CellFinite(p, y, n);
    var ends := Path(p, y, n);
    if n > 1 {
      var l := CellAt(p, y, n).split;
      CellIsPath(p, l, n - 1);
      PathExtends(p, y, n, l, Path(p, l, n - 1), ends);
    }
  }

  lemma PathExtends(p: Problem, y: nat, n: nat, l: nat, before: seq<nat>, ends: seq<nat>)
    requires p.Valid() && 2 <= n <= p.M() && l < y <= p.L() && ends == before + [y]
    requires IsPartition(before, n - 1, l) && Feasible(p, before, n - 1) && Bounded(p.spec, before, n - 1)
    requires StageOk(p, n, l, y) && StageCost(p.spec, n, l, y).Finite?
    ensures IsPartition(ends, n, y) && Feasible(p, ends, n) && Bounded(p.spec, ends, n)
    ensures SumOf(p.spec, ends, n) == Plus(SumOf(p.spec, before, n - 1), StageCost(p.spec, n, l, y))
    ensures MaxCost(p.spec, ends, n) == MaxOf(MaxCost(p.spec, before, n - 1), StageCost(p.spec, n, l, y))
  {
    ExtendedFeasible(p, y, n, l, before, ends);
    assert before[..n - 1] == ends[..n - 1];
    CostsOfPrefix(p.spec, before, ends, n - 1);
    assert ends[n - 2] == l && ends[n - 1] == y;
  }

  lemma ExtendedFeasible(p: Problem, y: nat, n: nat, l: nat, before: seq<nat>, ends: seq<nat>)
    requires p.Valid() && 2 <= n <= p.M() && l < y <= p.L() && ends == before + [y]
    requires IsPartition(before, n - 1, l) && Feasible(p, before, n - 1)
    requires StageOk(p, n, l, y) && StageCost(p.spec, n, l, y).Finite?
    ensures IsPartition(ends, n, y) && Feasible(p, ends, n) && Bounded(p.spec, ends, n)
  {
    forall i | 0 <= i < n
      ensures StartOf(ends, i) < ends[i] && FeasibleStage(p, ends, i)
    {
      if i < n - 1 {
        SamePrefixStage(p, before, ends, i);
        assert FeasibleStage(p, before, i);
      } else {
        assert StartOf(ends, i) == l;
      }
    }
    FeasibleBounded(p, ends, n);
  }

  lemma SamePrefixStage(p: Problem, before: seq<nat>, ends: seq<nat>, i: nat)
    requires p.Valid() && i < |before| && i < p.M() && before <= ends
    ensures StartOf(ends, i) == StartOf(before, i) && ends[i] == before[i]
    ensures FeasibleStage(p, ends, i) <==> FeasibleStage(p, before, i)
  {}

  lemma {:induction false} CostsOfPrefix(spec: ClusterSpec, a: seq<nat>, b: seq<nat>, n: nat)
    requires n <= |a| && n <= |b| && a[..n] == b[..n] && Bounded(spec, a, n)
    ensures Bounded(spec, b, n)
    ensures SumOf(spec, a, n) == SumOf(spec, b, n) && MaxCost(spec, a, n) == MaxCost(spec, b, n)
  {
    forall i | 0 <= i < n
      ensures b[i] == a[i]
    {
      assert a[..n][i] == b[..n][i];
    }
    if n > 0 {
      assert a[..n - 1] == a[..n][..n - 1] && b[..n - 1] == b[..n][..n - 1];
      CostsOfPrefix(spec, a, b, n - 1);
    }
  }

  // ---------- completeness and optimality ----------

  lemma NotBelowTransitive(a: Cost, b: Cost, c: Cost)
    requires !Below(a, b) && !Below(b, c)
    ensures !Below(a, c)
  {}

  /** The chosen split ranks no worse than any other allowed one, and better than any before it. */
  lemma {:induction false} BestSplitIsBest(p: Problem, y: nat, n: nat, hi: nat, l: nat)
    requires p.Valid() && hi <= y <= p.L() && 2 <= n <= p.M() && n - 1 <= l < hi
    requires CellAt(p, l, n - 1).sum.Finite? && StageOk(p, n, l, y) && StageCost(p.spec, n, l, y).Finite?
    ensures var c, d := BestSplit(p, y, n, hi), Extended(p, CellAt(p, l, n - 1), n, l, y);
      && c.sum.Finite?
      && !Below(RankOf(p.spec.objective, d.sum, d.max), RankOf(p.spec.objective, c.sum, c.max))
      && (l < c.split ==> Below(RankOf(p.spec.objective, c.sum, c.max), RankOf(p.spec.objective, d.sum, d.max)))
    decreases hi
  {
    hide StageOk, CellAt, StageCost;
    CellFinite(p, l, n - 1);
    SplitIsReal(p, y, n, hi - 1);
    if l < hi - 1 {
      BestSplitIsBest(p, y, n, hi - 1, l);
    }
  }

  ghost predicate Decomposable(objective: Objective) {
    objective.Throughput? || objective.Latency?
  }

  lemma RankMonotone(objective: Objective, a: Cell, b: Cell, c: Cost)
    requires Decomposable(objective) && c.Finite? && a.sum.Finite? && a.max.Finite? && b.sum.Finite? && b.max.Finite?
    requires !Below(RankOf(objective, a.sum, a.max), RankOf(objective, b.sum, b.max))
    ensures !Below(RankOf(objective, Plus(a.sum, c), MaxOf(a.max, c)),
      RankOf(objective, Plus(b.sum, c), MaxOf(b.max, c)))
  {}

  /** The cell is reached, and in throughput and latency mode the first n stages rank no better than it. */
  ghost predicate NoBetter(p: Problem, ends: seq<nat>, n: nat)
    requires Ranged(p.reference, p.spec.layers) && 1 <= n && Bounded(p.spec, ends, n)
  {
    var c, sum, max := CellAt(p, ends[n - 1], n), SumOf(p.spec, ends, n), MaxCost(p.spec, ends, n);
    && c.sum.Finite? && c.max.Finite? && sum.Finite? && max.Finite?
    && (Decomposable(p.spec.objective) ==>
        !Below(RankOf(p.spec.objective, sum, max), RankOf(p.spec.objective, c.sum, c.max)))
  }

  /**
   A cell is reached whenever a feasible partition exists, in every mode; and in throughput
   and latency mode no feasible partition ranks better than it.
   */
  lemma {:induction false} CellIsOptimal(p: Problem, ends: seq<nat>, n: nat, y: nat)
    requires p.Valid() && 1 <= n <= p.M() && y <= p.L() && IsPartition(ends, n, y) && Feasible(p, ends, n)
    ensures Bounded(p.spec, ends, n) && NoBetter(p, ends, n)
    decreases n
  {
    FeasibleBounded(p, ends, n);
    assert FeasibleStage(p, ends, n - 1);
    if n > 1 {
      var before := ends[..n - 1];
      PartitionPrefix(ends, n, y);
      FeasiblePrefix(p, before, ends, n - 1);
      CellIsOptimal(p, before, n - 1, ends[n - 2]);
      assert before[..n - 1] == ends[..n - 1];
      CostsOfPrefix(p.spec, before, ends, n - 1);
      OptimalStep(p, ends, n, y);
    }
  }

  lemma FeasiblePrefix(p: Problem, before: seq<nat>, ends: seq<nat>, n: nat)
    requires p.Valid() && n <= |before| && n < |ends| && n < p.M() && before <= ends && Feasible(p, ends, n + 1)
    ensures Feasible(p, before, n)
  {
    forall i | 0 <= i < n
      ensures FeasibleStage(p, before, i)
    {
      assert FeasibleStage(p, ends, i);
      SamePrefixStage(p, before, ends, i);
    }
  }

  lemma OptimalStep(p: Problem, ends: seq<nat>, n: nat, y: nat)
    requires p.Valid() && 2 <= n <= p.M() && y <= p.L() && IsPartition(ends, n, y) && FeasibleStage(p, ends, n - 1)
    requires Bounded(p.spec, ends, n) && Bounded(p.spec, ends, n - 1) && NoBetter(p, ends, n - 1)
    ensures NoBetter(p, ends, n)
  {
    var l, obj := ends[n - 2], p.spec.objective;
    var prev, c := CellAt(p, l, n - 1), StageCost(p.spec, n, l, y);
    var d := Extended(p, prev, n, l, y);
    EndsGrow(ends, n, y, n - 2);
    EndsGrow(ends, n, y, n - 1);
    BestSplitIsBest(p, y, n, y, l);
    CellFinite(p, y, n);
    if Decomposable(obj) {
      RankMonotone(obj, Cell(SumOf(p.spec, ends, n - 1), MaxCost(p.spec, ends, n - 1), -1), prev, c);
      NotBelowTransitive(RankOf(obj, SumOf(p.spec, ends, n), MaxCost(p.spec, ends, n)), RankOf(obj, d.sum, d.max),
        RankOf(obj, CellAt(p, y, n).sum, CellAt(p, y, n).max));
    }
  }
}
