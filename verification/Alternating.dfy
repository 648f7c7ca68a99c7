/**
 The alternating optimization of recovery table and placement: derive the table from the
 placement, solve for a placement with the table held fixed, and repeat until nothing
 changes; the best self-consistent placement on the way is the fallback.
 */
module Alternating {
  import opened Wrappers
  import opened Types
  import opened Cluster
  import opened MemoryCheck
  import opened RecoveryTables
  import opened Scheduling
  import opened CostModel
  import opened Solver

  datatype IterationLog = IterationLog(iteration: nat, maxStageTime: real, selfConsistent: bool, psiChanged: bool,
    rChanged: bool, sumStageTime: real)

  datatype AlternatingResult = AlternatingResult(placement: Placement, recovery: RecoveryTable, maxStageTime: real,
    iterations: nat, converged: bool, history: seq<IterationLog>, sumStageTime: real)

  ghost predicate SpecValid(spec: ClusterSpec) {
    spec.devices != [] && DistinctIds(spec.devices) && (spec.objective.Blended? ==> spec.objective.alpha > 0.0)
  }

  // ---------- one iteration as a function ----------

  /** What one iteration derives from the previous placement. */
  datatype Iteration = Iteration(recovery: RecoveryTable, placement: Placement, sum: real, max: real)

  function TableFor(spec: ClusterSpec, psi: Placement): Result<RecoveryTable, TableError>
    requires Ranged(psi, spec.layers)
  {
    if spec.backupPlacement then RecoveryTableOf(spec, psi) else Success(map[])
  }

  function IterationOf(spec: ClusterSpec, previous: Placement): Result<Iteration, SolveError>
    requires SpecValid(spec) && Ranged(previous, spec.layers)
  {
    match TableFor(spec, previous)
    case Failure(_) => Failure(NoRecoverySolution)
    case Success(r) =>
      var p := Problem(spec, r, previous);
      match Solved(p)
      case Failure(e) => Failure(e)
      case Success(s) => Success(Iteration(r, s.placement, s.sumStageTime, s.maxStageTime))
  }

  /** Every stage fits its own device together with the backups the placement itself implies. */
  ghost predicate SelfConsistent(spec: ClusterSpec, psi: Placement, recovery: RecoveryTable)
    requires Ranged(psi, spec.layers)
  {
    forall i :: 0 <= i < |psi| && i < |spec.devices| ==> FitsOwn(spec, psi, recovery, i)
  }

  ghost predicate FitsOwn(spec: ClusterSpec, psi: Placement, recovery: RecoveryTable, i: nat)
    requires Ranged(psi, spec.layers) && i < |psi| && i < |spec.devices|
  {
    assert psi[i] in psi;
    Fits(spec.devices[i], psi[i].start, psi[i].end, recovery, psi, spec.layers, spec.eagerBackup)
  }

  /** Every iterate is a full cover, with the times that its stages take. */
  lemma IterationCovers(spec: ClusterSpec, previous: Placement)
    requires SpecValid(spec) && Ranged(previous, spec.layers) && IterationOf(spec, previous).Success?
    ensures var it := IterationOf(spec, previous).value;
      && Covers(it.placement, spec.devices, |spec.layers|) && Ranged(it.placement, spec.layers)
      && HasTimes(spec, it.placement, it.sum, it.max)
  {
    var p := Problem(spec, TableFor(spec, previous).value, previous);
    SolutionRealizes(p);
    CellIsPath(p, p.L(), p.M());
    PlacementCovers(spec, Path(p, p.L(), p.M()));
    var it := IterationOf(spec, previous).value;
    CostsAreTimes(spec, Path(p, p.L(), p.M()), it.sum, it.max);
  }

  /** In throughput mode no stage of an iterate is slower than the service-level target. */
  lemma IterationMeetsTarget(spec: ClusterSpec, previous: Placement)
    requires SpecValid(spec) && Ranged(previous, spec.layers) && IterationOf(spec, previous).Success?
    ensures spec.objective.Throughput? ==> IterationOf(spec, previous).value.max <= spec.tbtSlo
  {
    if spec.objective.Throughput? {
      SolutionMeetsTarget(Problem(spec, TableFor(spec, previous).value, previous));
    }
  }

  /** A fixed point is self-consistent: the program has already checked it against itself. */
  lemma FixedPointConsistent(spec: ClusterSpec, it: Iteration)
    requires SpecValid(spec) && Ranged(it.placement, spec.layers) && IterationOf(spec, it.placement) == Success(it)
    ensures SelfConsistent(spec, it.placement, it.recovery)
  {
    var p := Problem(spec, it.recovery, it.placement);
    var ends := Path(p, p.L(), p.M());
    CellIsPath(p, p.L(), p.M());
    forall i | 0 <= i < |it.placement| && i < |spec.devices|
      ensures FitsOwn(spec, it.placement, it.recovery, i)
    {
      assert FeasibleStage(p, ends, i);
      assert it.placement[i] == StageAt(spec, ends, i);
    }
  }

  // ---------- the self check ----------

  /** The device of an id, the last one listed, as in a dictionary. */
  function LastById(devices: seq<DeviceProfile>, id: DeviceId): (found: Option<DeviceProfile>)
    ensures found.Some? ==> found.value in devices && found.value.id == id
    ensures found.None? ==> forall d :: d in devices ==> d.id != id
  {
    if devices == [] then None
    else if devices[|devices| - 1].id == id then Some(devices[|devices| - 1])
    else LastById(devices[..|devices| - 1], id)
  }

  method DeviceById(devices: seq<DeviceProfile>, id: DeviceId) returns (found: Option<DeviceProfile>)
    ensures found == LastById(devices, id)
  {
    found := None;
    for i := 0 to |devices|
      invariant found == LastById(devices[..i], id)
    {
      assert devices[..i + 1][..i] == devices[..i];
      if devices[i].id == id {
        found := Some(devices[i]);
      }
    }
    assert devices[..|devices|] == devices;
  }

  /** The stage's device is known and holds the stage together with the backups the placement implies. */
  ghost predicate FitsThere(spec: ClusterSpec, psi: Placement, recovery: RecoveryTable, i: nat)
    requires Ranged(psi, spec.layers) && i < |psi|
  {
    assert psi[i] in psi;
    var device := LastById(spec.devices, psi[i].device);
    device.Some? &&
    Fits(device.value, psi[i].start, psi[i].end, recovery, psi, spec.layers, spec.eagerBackup)
  }

  /** The first stage that is not known to fit is on a device nobody knows. */
  ghost predicate MissingDevice(spec: ClusterSpec, psi: Placement, recovery: RecoveryTable)
    requires Ranged(psi, spec.layers)
  {
    exists i :: 0 <= i < |psi| && LastById(spec.devices, psi[i].device).None? &&
      forall k :: 0 <= k < i ==> FitsThere(spec, psi, recovery, k)
  }

  /** Any placement against itself, stage by stage; nothing, if a stage's device is not found. */
  method MemorySelfCheck(spec: ClusterSpec, psi: Placement, recovery: RecoveryTable) returns (ok: Option<bool>)
    requires Ranged(psi, spec.layers)
    ensures ok.None? <==> MissingDevice(spec, psi, recovery)
    ensures ok == Some(true) <==> forall i :: 0 <= i < |psi| ==> FitsThere(spec, psi, recovery, i)
  {
    for i := 0 to |psi|
      invariant forall k :: 0 <= k < i ==> FitsThere(spec, psi, recovery, k)
    {
      assert psi[i] in psi;
      var device := DeviceById(spec.devices, psi[i].device);
      if device.None? {
        assert !FitsThere(spec, psi, recovery, i);
        return None;
      }
      var fits := CheckMemory(device.value, psi[i].start, psi[i].end, recovery, psi, spec.layers, spec.eagerBackup);
      if !fits.value {
        assert !FitsThere(spec, psi, recovery, i) && device == LastById(spec.devices, psi[i].device);
        forall j | 0 <= j < |psi| && LastById(spec.devices, psi[j].device).None?
          ensures exists k :: 0 <= k < j && !FitsThere(spec, psi, recovery, k)
        {
          assert FitsThere(spec, psi, recovery, j) ==> false;
          assert j >= i && j != i;
        }
        return Some(false);
      }
    }
    forall i | 0 <= i < |psi|
      ensures LastById(spec.devices, psi[i].device).Some?
    {
      assert FitsThere(spec, psi, recovery, i);
    }
    ok := Some(true);
  }

  /** Of a placement with stage i on device i the check finds every device, and means self-consistency. */
  lemma CheckedIsConsistent(spec: ClusterSpec, psi: Placement, recovery: RecoveryTable)
    requires SpecValid(spec) && Covers(psi, spec.devices, |spec.layers|) && Ranged(psi, spec.layers)
    ensures !MissingDevice(spec, psi, recovery)
    ensures SelfConsistent(spec, psi, recovery) <==> forall i :: 0 <= i < |psi| ==> FitsThere(spec, psi, recovery, i)
  {
    forall i | 0 <= i < |psi|
      ensures LastById(spec.devices, psi[i].device) == Some(spec.devices[i])
      ensures FitsThere(spec, psi, recovery, i) <==> FitsOwn(spec, psi, recovery, i)
    {
      assert Continues(psi, spec.devices, i) && spec.devices[i] in spec.devices;
    }
  }

  // ---------- the run of iterations ----------

  ghost function PreviousOf(seed: Placement, trace: seq<Iteration>, i: nat): Placement
    requires i <= |trace|
  {
    if i == 0 then seed else trace[i - 1].placement
  }

  /** Each iterate is derived from the one before, the first from the seed. */
  ghost predicate IsTrace(spec: ClusterSpec, seed: Placement, trace: seq<Iteration>)
    requires SpecValid(spec)
  {
    Ranged(seed, spec.layers) && forall i {:trigger Derived(spec, seed, trace, i)} :: 0 <= i < |trace| ==>
      Derived(spec, seed, trace, i)
  }

  ghost predicate Derived(spec: ClusterSpec, seed: Placement, trace: seq<Iteration>, i: nat)
    requires SpecValid(spec) && i < |trace|
  {
    var previous := PreviousOf(seed, trace, i);
    && Ranged(previous, spec.layers) && IterationOf(spec, previous) == Success(trace[i])
    && Covers(trace[i].placement, spec.devices, |spec.layers|) && Ranged(trace[i].placement, spec.layers)
    && HasTimes(spec, trace[i].placement, trace[i].sum, trace[i].max)
  }

  ghost predicate Consistent(spec: ClusterSpec, it: Iteration) {
    Ranged(it.placement, spec.layers) && SelfConsistent(spec, it.placement, it.recovery)
  }

  function RankIt(spec: ClusterSpec, sum: real, max: real): Cost {
    RankOf(spec.objective, Finite(sum), Finite(max))
  }

  /** The b-th iterate is self-consistent, ranks least among those that are, and is the first to do so. */
  ghost predicate IsBest(spec: ClusterSpec, trace: seq<Iteration>, b: nat) {
    && b < |trace| && Consistent(spec, trace[b])
    && forall i :: 0 <= i < |trace| && Consistent(spec, trace[i]) ==>
      && !Below(RankIt(spec, trace[i].sum, trace[i].max), RankIt(spec, trace[b].sum, trace[b].max))
      && (i < b ==> Below(RankIt(spec, trace[b].sum, trace[b].max), RankIt(spec, trace[i].sum, trace[i].max)))
  }

  ghost predicate NoneConsistent(spec: ClusterSpec, trace: seq<Iteration>) {
    forall i :: 0 <= i < |trace| ==> !Consistent(spec, trace[i])
  }

  /** What is logged of each iteration. */
  ghost predicate IsHistory(spec: ClusterSpec, seed: Placement, trace: seq<Iteration>, history: seq<IterationLog>) {
    |history| == |trace| && forall i {:trigger Logged(spec, seed, trace, history, i)} :: 0 <= i < |trace| ==>
      Logged(spec, seed, trace, history, i)
  }

  ghost predicate Logged(spec: ClusterSpec, seed: Placement, trace: seq<Iteration>, history: seq<IterationLog>,
      i: nat) {
    i < |trace| && i < |history| &&
    history[i] ==
      IterationLog(i + 1, trace[i].max, Consistent(spec, trace[i]), trace[i].placement != PreviousOf(seed, trace, i),
      i == 0 || trace[i].recovery != trace[i - 1].recovery, trace[i].sum)
  }

  /** The fallback's copy with the full history; the sum of stage times is not carried over. */
  function ReplaceHistory(best: AlternatingResult, history: seq<IterationLog>): AlternatingResult {
    AlternatingResult(best.placement, best.recovery, best.maxStageTime, best.iterations, false, history, 0.0)
  }

  /**
   The seed: the given or round-robin placement, unless it admits no table and the cost-only
   program has an answer.
   */
  function SeedOf(spec: ClusterSpec, start: Placement): Placement
    requires SpecValid(spec) && Ranged(start, spec.layers)
  {
    var p := Problem(spec, map[], start);
    if spec.backupPlacement && RecoveryTableOf(spec, start).Failure? && CellAt(p, p.L(), p.M()).sum.Finite?
    then SolutionOf(p).placement
    else start
  }

  lemma SeedRanged(spec: ClusterSpec, start: Placement)
    requires SpecValid(spec) && Ranged(start, spec.layers)
    ensures Ranged(SeedOf(spec, start), spec.layers)
  {
    var p := Problem(spec, map[], start);
    if CellAt(p, p.L(), p.M()).sum.Finite? {
      CellIsPath(p, p.L(), p.M());
      PlacementCovers(spec, Path(p, p.L(), p.M()));
    }
  }

  /** The cheapest placement of a seed's layers, were there no backups to hold. */
  ghost predicate CheapestAlone(spec: ClusterSpec, start: Placement, ends: seq<nat>)
    requires SpecValid(spec) && Ranged(start, spec.layers)
  {
    var p := Problem(spec, map[], start);
    && Servable(spec, map[], start, ends) && FeasiblePartition(p, ends)
    && (Decomposable(spec.objective) ==>
        forall e :: FeasiblePartition(p, e) ==> !Below(PartitionRank(p, e), PartitionRank(p, ends)))
  }

  /**
   A start with a recovery table, or that needs none, is the seed; without a table the cheapest
   placement that has no backups to hold takes its place, if there is any.
   */
  lemma SeedRepair(spec: ClusterSpec, start: Placement)
    requires SpecValid(spec) && Ranged(start, spec.layers)
    ensures !spec.backupPlacement || RecoveryTableOf(spec, start).Success? ==> SeedOf(spec, start) == start
    ensures (forall e :: !Servable(spec, map[], start, e)) ==> SeedOf(spec, start) == start
    ensures spec.backupPlacement && RecoveryTableOf(spec, start).Failure? ==>
      forall f :: Servable(spec, map[], start, f) ==>
        exists e :: CheapestAlone(spec, start, e) && SeedOf(spec, start) == PlacementOf(spec, e)
  {
    var p := Problem(spec, map[], start);
    LastCell(p);
    ServableOrNot(p);
    if CellAt(p, p.L(), p.M()).sum.Finite? {
      FeasibleIsServable(p, Path(p, p.L(), p.M()));
      assert CheapestAlone(spec, start, Path(p, p.L(), p.M()));
    }
  }

  method RepairSeed(spec: ClusterSpec, start: Placement) returns (seed: Placement)
    requires SpecValid(spec) && Ranged(start, spec.layers)
    ensures seed == SeedOf(spec, start) && Ranged(seed, spec.layers)
  {
    SeedRanged(spec, start);
    seed := start;
    if spec.backupPlacement {
      var table := DetermineRecoveryTable(spec, start);
      if table.Failure? {
        var solved := SolveProblem(Problem(spec, map[], start));
        if solved.Success? {
          seed := solved.value.placement;
        }
      }
    }
  }

  /** One iteration: the table of the previous placement, then the program with it. */
  method Iterate(spec: ClusterSpec, previous: Placement) returns (it: Result<Iteration, SolveError>)
    requires SpecValid(spec) && Ranged(previous, spec.layers)
    ensures it == IterationOf(spec, previous)
  {
    var table: RecoveryTable := map[];
    if spec.backupPlacement {
      var determined := DetermineRecoveryTable(spec, previous);
      if determined.Failure? {
        return Failure(NoRecoverySolution);
      }
      table := determined.value;
    }
    var solved := SolveProblem(Problem(spec, table, previous));
    if solved.Failure? {
      return Failure(NoFeasibleSolution);
    }
    it := Success(Iteration(table, solved.value.placement, solved.value.sumStageTime, solved.value.maxStageTime));
  }

  lemma TraceGrows(spec: ClusterSpec, seed: Placement, trace: seq<Iteration>, it: Iteration)
    requires SpecValid(spec) && IsTrace(spec, seed, trace)
    requires Ranged(PreviousOf(seed, trace, |trace|), spec.layers)
    requires IterationOf(spec, PreviousOf(seed, trace, |trace|)) == Success(it)
    ensures IsTrace(spec, seed, trace + [it])
  {
    hide HasTimes, Covers, IterationOf;
    IterationCovers(spec, PreviousOf(seed, trace, |trace|));
    forall i | 0 <= i < |trace + [it]|
      ensures Derived(spec, seed, trace + [it], i)
    {
      if i < |trace| {
        assert Derived(spec, seed, trace, i);
      }
    }
  }

  lemma HistoryGrows(spec: ClusterSpec, seed: Placement, trace: seq<Iteration>, history: seq<IterationLog>,
      it: Iteration,
      entry: IterationLog)
    requires IsHistory(spec, seed, trace, history)
    requires entry ==
      IterationLog(|trace| + 1, it.max, Consistent(spec, it), it.placement != PreviousOf(seed, trace, |trace|),
      |trace| == 0 || it.recovery != trace[|trace| - 1].recovery, it.sum)
    ensures IsHistory(spec, seed, trace + [it], history + [entry])
  {
    forall i | 0 <= i < |trace + [it]|
      ensures Logged(spec, seed, trace + [it], history + [entry], i)
    {
      if i < |trace| {
        assert Logged(spec, seed, trace, history, i);
      }
    }
  }

  /** What the fallback remembers of the best self-consistent iterate so far. */
  ghost predicate BestSoFar(spec: ClusterSpec, trace: seq<Iteration>, best: Option<AlternatingResult>) {
    match best
    case None => NoneConsistent(spec, trace)
    case Some(a) =>
      && 0 < a.iterations <= |trace| && IsBest(spec, trace, a.iterations - 1)
      && var it := trace[a.iterations - 1];
        a.placement == it.placement && a.recovery == it.recovery && a.maxStageTime == it.max && a.sumStageTime == it.sum
  }

  lemma BestGrows(spec: ClusterSpec, trace: seq<Iteration>, best: Option<AlternatingResult>, it: Iteration,
      entered: AlternatingResult)
    requires BestSoFar(spec, trace, best)
    requires entered.iterations == |trace| + 1 && entered.placement == it.placement && entered.recovery == it.recovery
    requires entered.maxStageTime == it.max && entered.sumStageTime == it.sum
    ensures var wins := Consistent(spec, it) && (best.None? ||
        Below(RankIt(spec, it.sum, it.max), RankIt(spec, best.value.sumStageTime, best.value.maxStageTime)));
      BestSoFar(spec, trace + [it], if wins then Some(entered) else best)
  {
    var next := trace + [it];
    assert forall i :: 0 <= i < |trace| ==> next[i] == trace[i];
  }

  // ---------- the alternation ----------

  /** The i-th iterate repeats the one before it, table and placement. */
  predicate Repeats(trace: seq<Iteration>, i: nat)
    requires i < |trace|
  {
    i > 0 && trace[i].recovery == trace[i - 1].recovery && trace[i].placement == trace[i - 1].placement
  }

  ghost predicate NeverRepeats(trace: seq<Iteration>, end: nat)
    requires end <= |trace|
  {
    forall i :: 0 <= i < end ==> !Repeats(trace, i)
  }

  /** Why the alternation stopped: a repeat, a step that has no answer, or the bound. */
  ghost predicate Stopped(spec: ClusterSpec, seed: Placement, trace: seq<Iteration>, maxIterations: nat)
    requires SpecValid(spec) && IsTrace(spec, seed, trace)
  {
    var previous := PreviousOf(seed, trace, |trace|);
    || |trace| == maxIterations
    || (Ranged(previous, spec.layers) && IterationOf(spec, previous).Failure?)
  }

  /** A converged answer: the last iterate, which table and program map to itself. */
  ghost predicate IsFixedPoint(spec: ClusterSpec, trace: seq<Iteration>, a: AlternatingResult)
    requires SpecValid(spec)
  {
    && |trace| > 1 && a.iterations == |trace| && a.converged && Repeats(trace, |trace| - 1)
    && var it := trace[|trace| - 1];
      && a.placement == it.placement && a.recovery == it.recovery && a.maxStageTime == it.max
      && a.sumStageTime == it.sum
      && Ranged(a.placement, spec.layers) && IterationOf(spec, a.placement) == Success(it) && Consistent(spec, it)
  }

  /** A fallback answer: the best self-consistent iterate, without its sum of stage times. */
  ghost predicate IsFallback(spec: ClusterSpec, trace: seq<Iteration>, a: AlternatingResult) {
    && !a.converged && a.sumStageTime == 0.0 && 0 < a.iterations <= |trace| && IsBest(spec, trace, a.iterations - 1)
    && var it := trace[a.iterations - 1];
      a.placement == it.placement && a.recovery == it.recovery && a.maxStageTime == it.max
  }

  /** Every answer covers the layers, fits memory with its own backups, and reports its true slowest stage. */
  ghost predicate SoundAnswer(spec: ClusterSpec, a: AlternatingResult) {
    && Covers(a.placement, spec.devices, |spec.layers|) && Ranged(a.placement, spec.layers)
    && SelfConsistent(spec, a.placement, a.recovery)
    && exists sum :: HasTimes(spec, a.placement, sum, a.maxStageTime)
  }

  lemma IterateIsSound(spec: ClusterSpec, seed: Placement, trace: seq<Iteration>, i: nat, a: AlternatingResult)
    requires SpecValid(spec) && IsTrace(spec, seed, trace) && i < |trace| && Consistent(spec, trace[i])
    requires a.placement == trace[i].placement && a.recovery == trace[i].recovery && a.maxStageTime == trace[i].max
    ensures SoundAnswer(spec, a)
  {
    assert Derived(spec, seed, trace, i);
    assert HasTimes(spec, a.placement, trace[i].sum, a.maxStageTime);
  }

  /** A repeat is a fixed point of table and program, and there memory is already known to suffice. */
  lemma RepeatIsFixed(spec: ClusterSpec, seed: Placement, trace: seq<Iteration>, i: nat)
    requires SpecValid(spec) && IsTrace(spec, seed, trace) && i < |trace| && Repeats(trace, i)
    ensures var it := trace[i];
      && Ranged(it.placement, spec.layers) && IterationOf(spec, it.placement) == Success(it) && Consistent(spec, it)
  {
    assert Derived(spec, seed, trace, i);
    FixedPointConsistent(spec, trace[i]);
  }

  /**
   A placement that its own iteration returns is repeated for good: the next iterate is the
   same, and so converges.
   */
  lemma UnchangedPlacementConverges(spec: ClusterSpec, seed: Placement, trace: seq<Iteration>, i: nat)
    requires SpecValid(spec) && IsTrace(spec, seed, trace) && i + 1 < |trace|
    requires trace[i].placement == PreviousOf(seed, trace, i)
    ensures Repeats(trace, i + 1) && trace[i + 1] == trace[i]
  {
    assert Derived(spec, seed, trace, i) && Derived(spec, seed, trace, i + 1);
  }

  method LogOf(spec: ClusterSpec, ghost seed: Placement, ghost trace: seq<Iteration>, previous: Placement,
      previousTable: Option<RecoveryTable>, it: Iteration, i: nat, consistent: bool) returns (entry: IterationLog)
    requires i == |trace| && previous == PreviousOf(seed, trace, i) && (consistent <==> Consistent(spec, it))
    requires previousTable == if i == 0 then None else Some(trace[i - 1].recovery)
    ensures entry ==
      IterationLog(|trace| + 1, it.max, Consistent(spec, it), it.placement != PreviousOf(seed, trace, |trace|),
      |trace| == 0 || it.recovery != trace[|trace| - 1].recovery, it.sum)
  {
    entry := IterationLog(i + 1, it.max, consistent,
      it.placement != previous, previousTable != Some(it.recovery), it.sum);
  }

  /** Where the alternation starts: the given placement, or the even split. */
  function FirstPlacement(spec: ClusterSpec, initial: Option<Placement>): (start: Placement)
    requires |spec.layers| >= |spec.devices|
    ensures initial.Some? ==> start == initial.value
    ensures initial.None? ==> |start| == |spec.devices|
  {
    match initial
    case Some(psi) => psi
    case None => if spec.devices == [] then [] else EvenSplit(spec.devices, |spec.layers|)
  }

  /** Without a placement to start from it is an even one: all layers in order, and no stage two layers longer. */
  lemma StartsEvenly(spec: ClusterSpec)
    requires 0 < |spec.devices| <= |spec.layers|
    ensures var start, M, L := FirstPlacement(spec, None), |spec.devices|, |spec.layers|;
      && Covers(start, spec.devices, L)
      && forall i :: 0 <= i < M ==> start[i].end - start[i].start + 1 == L / M + if i < L % M then 1 else 0
  {
    CursorEnds(|spec.layers|, |spec.devices|);
    UniformCovers(spec.devices, |spec.layers|, FirstPlacement(spec, None));
  }

  /** What has been tried and remembered after some iterations without a repeat. */
  ghost predicate Progress(spec: ClusterSpec, seed: Placement, trace: seq<Iteration>, history: seq<IterationLog>,
      best: Option<AlternatingResult>)
    requires SpecValid(spec)
  {
    && IsTrace(spec, seed, trace) && Ranged(PreviousOf(seed, trace, |trace|), spec.layers)
    && IsHistory(spec, seed, trace, history) && BestSoFar(spec, trace, best)
  }

  /** The outcome of an alternation that has explored the given trace. */
  ghost predicate Answered(spec: ClusterSpec, seed: Placement, trace: seq<Iteration>, maxIterations: nat,
      r: Result<AlternatingResult, SolveError>)
    requires SpecValid(spec)
  {
    && IsTrace(spec, seed, trace) && |trace| <= maxIterations
    && match r
      case Success(a) =>
        && SoundAnswer(spec, a) && IsHistory(spec, seed, trace, a.history)
        && (if a.converged then IsFixedPoint(spec, trace, a) && NeverRepeats(trace, |trace| - 1)
            else && IsFallback(spec, trace, a) && NeverRepeats(trace, |trace|)
                 && Stopped(spec, seed, trace, maxIterations))
      case Failure(e) =>
        && NoneConsistent(spec, trace) && Stopped(spec, seed, trace, maxIterations)
        && (|trace| < maxIterations ==> IterationOf(spec, PreviousOf(seed, trace, |trace|)) == Failure(e))
        && (|trace| == maxIterations ==> e == NoFeasibleSolution)
  }

  /** The answer once nothing more can be tried. */
  method FallBack(spec: ClusterSpec, ghost seed: Placement, ghost trace: seq<Iteration>, history: seq<IterationLog>,
      best: Option<AlternatingResult>, ghost maxIterations: nat, error: SolveError)
    returns (r: Result<AlternatingResult, SolveError>)
    requires SpecValid(spec) && Progress(spec, seed, trace, history, best) && |trace| <= maxIterations
    requires NeverRepeats(trace, |trace|) && Stopped(spec, seed, trace, maxIterations)
    requires |trace| < maxIterations ==> IterationOf(spec, PreviousOf(seed, trace, |trace|)) == Failure(error)
    requires |trace| == maxIterations ==> error == NoFeasibleSolution
    ensures Answered(spec, seed, trace, maxIterations, r)
  {
    if best.None? {
      return Failure(error);
    }
    r := Success(ReplaceHistory(best.value, history));
    IterateIsSound(spec, seed, trace, best.value.iterations - 1, r.value);
  }

  method EnterBest(spec: ClusterSpec, ghost trace: seq<Iteration>, best: Option<AlternatingResult>, it: Iteration,
      entered: AlternatingResult, consistent: bool) returns (next: Option<AlternatingResult>)
    requires SpecValid(spec) && BestSoFar(spec, trace, best) && (consistent <==> Consistent(spec, it))
    requires entered.iterations == |trace| + 1 && entered.placement == it.placement && entered.recovery == it.recovery
    requires entered.maxStageTime == it.max && entered.sumStageTime == it.sum
    ensures BestSoFar(spec, trace + [it], next)
  {
    BestGrows(spec, trace, best, it, entered);
    next := best;
    if consistent && (best.None? ||
        Below(RankIt(spec, it.sum, it.max), RankIt(spec, best.value.sumStageTime, best.value.maxStageTime)))
    {
      next := Some(entered);
    }
  }

  method CheckIterate(spec: ClusterSpec, it: Iteration) returns (consistent: bool)
    requires SpecValid(spec) && Covers(it.placement, spec.devices, |spec.layers|) && Ranged(it.placement, spec.layers)
    ensures consistent <==> Consistent(spec, it)
  {
    hide Covers, FitsThere;
    CheckedIsConsistent(spec, it.placement, it.recovery);
    var checked := MemorySelfCheck(spec, it.placement, it.recovery);
    consistent := checked.value;
  }

  method Alternate(spec: ClusterSpec, seed: Placement, maxIterations: nat)
    returns (r: Result<AlternatingResult, SolveError>, ghost trace: seq<Iteration>)
    requires SpecValid(spec) && Ranged(seed, spec.layers)
    ensures Answered(spec, seed, trace, maxIterations, r)
  {
    hide IterationOf, HasTimes, Covers, SelfConsistent;
    trace := [];
    var previous := seed;
    var previousTable: Option<RecoveryTable> := None;
    var history: seq<IterationLog> := [];
    var best: Option<AlternatingResult> := None;
    for i := 0 to maxIterations
      invariant i == |trace| && previous == PreviousOf(seed, trace, i)
      invariant previousTable == if i == 0 then None else Some(trace[i - 1].recovery)
      invariant Progress(spec, seed, trace, history, best) && NeverRepeats(trace, |trace|)
    {
      var iterated := Iterate(spec, previous);
      if iterated.Failure? {
        r := FallBack(spec, seed, trace, history, best, maxIterations, iterated.error);
        return;
      }
      var it := iterated.value;
      IterationCovers(spec, previous);
      var consistent := CheckIterate(spec, it);
      var entry := LogOf(spec, seed, trace, previous, previousTable, it, i, consistent);
      HistoryGrows(spec, seed, trace, history, it, entry);
      history := history + [entry];
      var entered := AlternatingResult(it.placement, it.recovery, it.max, i + 1, false, history, it.sum);
      best := EnterBest(spec, trace, best, it, entered, consistent);
      TraceGrows(spec, seed, trace, it);
      ghost var before := trace;
      trace := trace + [it];
      assert NeverRepeats(trace, i) by {
        assert forall k :: 0 <= k < i ==> Repeats(trace, k) == Repeats(before, k);
      }
      assert i > 0 ==> trace[i - 1] == before[i - 1];
      if previousTable == Some(it.recovery) && it.placement == previous && consistent {
        RepeatIsFixed(spec, seed, trace, i);
        r := Success(entered.(converged := true));
        IterateIsSound(spec, seed, trace, i, r.value);
        return;
      }
      assert !Repeats(trace, i) by {
        if Repeats(trace, i) {
          RepeatIsFixed(spec, seed, trace, i);
        }
      }
      previous, previousTable := it.placement, Some(it.recovery);
    }
    r := FallBack(spec, seed, trace, history, best, maxIterations, NoFeasibleSolution);
  }

  /** The answer of the alternating search from its start: none with fewer layers than devices. */
  ghost predicate IsAnswer(spec: ClusterSpec, initial: Option<Placement>, maxIterations: nat,
      r: Result<AlternatingResult, SolveError>)
    requires DistinctIds(spec.devices) && (spec.objective.Blended? ==> spec.objective.alpha > 0.0)
  {
    if |spec.layers| < |spec.devices| then r == Failure(NoFeasibleSolution)
    else
      var start := FirstPlacement(spec, initial);
      && Ranged(start, spec.layers)
      && (if spec.devices == [] then r == Failure(ErrorWithoutDevices(maxIterations))
          else exists trace :: Answered(spec, SeedOf(spec, start), trace, maxIterations, r))
  }

  // ---------- the contract determines the answer ----------

  lemma {:induction false} TracesAgree(spec: ClusterSpec, seed: Placement, t: seq<Iteration>, u: seq<Iteration>, i: nat)
    requires SpecValid(spec) && IsTrace(spec, seed, t) && IsTrace(spec, seed, u) && i < |t| && i < |u|
    ensures t[i] == u[i]
  {
    hide HasTimes, Covers, IterationOf;
    assert Derived(spec, seed, t, i) && Derived(spec, seed, u, i);
    if i > 0 {
      TracesAgree(spec, seed, t, u, i - 1);
    }
  }

  /** Only the last iterate of an answered alternation can be a repeat. */
  lemma RepeatIsLast(spec: ClusterSpec, seed: Placement, u: seq<Iteration>, maxIterations: nat,
      q: Result<AlternatingResult, SolveError>, i: nat)
    requires SpecValid(spec) && Answered(spec, seed, u, maxIterations, q) && i < |u| && Repeats(u, i)
    ensures i + 1 == |u|
  {
    RepeatIsFixed(spec, seed, u, i);
  }

  /** A trace that went on had not stopped. */
  lemma WentOn(spec: ClusterSpec, seed: Placement, t: seq<Iteration>, u: seq<Iteration>, maxIterations: nat)
    requires SpecValid(spec) && IsTrace(spec, seed, t) && IsTrace(spec, seed, u) && |u| <= maxIterations
    requires |t| < |u| && t == u[..|t|]
    ensures !Stopped(spec, seed, t, maxIterations)
  {
    assert Derived(spec, seed, u, |t|);
  }

  lemma CommonPrefix(spec: ClusterSpec, seed: Placement, t: seq<Iteration>, u: seq<Iteration>)
    requires SpecValid(spec) && IsTrace(spec, seed, t) && IsTrace(spec, seed, u) && |t| <= |u|
    ensures t == u[..|t|]
  {
    forall i | 0 <= i < |t|
      ensures t[i] == u[i]
    {
      TracesAgree(spec, seed, t, u, i);
    }
  }

  /** An alternation that stopped cannot also have gone on. */
  lemma StoppedForGood(spec: ClusterSpec, seed: Placement, t: seq<Iteration>, u: seq<Iteration>, maxIterations: nat,
      r: Result<AlternatingResult, SolveError>, q: Result<AlternatingResult, SolveError>)
    requires SpecValid(spec) && Answered(spec, seed, t, maxIterations, r) && Answered(spec, seed, u, maxIterations, q)
    requires |t| <= |u|
    ensures t == u
  {
    CommonPrefix(spec, seed, t, u);
    if r.Success? && r.value.converged {
      var last := |t| - 1;
      RepeatIsLast(spec, seed, u, maxIterations, q, last);
    } else if |t| < |u| {
      WentOn(spec, seed, t, u, maxIterations);
    }
  }

  lemma SameHistory(spec: ClusterSpec, seed: Placement, trace: seq<Iteration>, h: seq<IterationLog>,
      g: seq<IterationLog>)
    requires IsHistory(spec, seed, trace, h) && IsHistory(spec, seed, trace, g)
    ensures h == g
  {
    forall i | 0 <= i < |trace|
      ensures h[i] == g[i]
    {
      assert Logged(spec, seed, trace, h, i) && Logged(spec, seed, trace, g, i);
    }
  }

  /** One trace and one answer meet the contract: nothing about the outcome is left open. */
  lemma AnswerIsUnique(spec: ClusterSpec, seed: Placement, t: seq<Iteration>, u: seq<Iteration>, maxIterations: nat,
      r: Result<AlternatingResult, SolveError>, q: Result<AlternatingResult, SolveError>)
    requires SpecValid(spec) && Answered(spec, seed, t, maxIterations, r) && Answered(spec, seed, u, maxIterations, q)
    ensures t == u && r == q
  {
    hide HasTimes, Covers, IterationOf, SelfConsistent;
    if |t| <= |u| {
      StoppedForGood(spec, seed, t, u, maxIterations, r, q);
    } else {
      StoppedForGood(spec, seed, u, t, maxIterations, q, r);
    }
    if r.Success? && q.Success? {
      SameHistory(spec, seed, t, r.value.history, q.value.history);
    }
  }

  lemma IsAnswerUnique(spec: ClusterSpec, initial: Option<Placement>, maxIterations: nat,
      r: Result<AlternatingResult, SolveError>, q: Result<AlternatingResult, SolveError>)
    requires DistinctIds(spec.devices) && (spec.objective.Blended? ==> spec.objective.alpha > 0.0)
    requires IsAnswer(spec, initial, maxIterations, r) && IsAnswer(spec, initial, maxIterations, q)
    ensures r == q
  {
    if |spec.layers| >= |spec.devices| > 0 {
      var seed := SeedOf(spec, FirstPlacement(spec, initial));
      var t :| Answered(spec, seed, t, maxIterations, r);
      var u :| Answered(spec, seed, u, maxIterations, q);
      AnswerIsUnique(spec, seed, t, u, maxIterations, r, q);
    }
  }

  /** Every answer was an iterate, so in throughput mode none is slower than the target. */
  lemma AnswerMeetsTarget(spec: ClusterSpec, initial: Option<Placement>, maxIterations: nat, a: AlternatingResult)
    requires DistinctIds(spec.devices) && spec.objective.Throughput?
    requires IsAnswer(spec, initial, maxIterations, Success(a))
    ensures a.maxStageTime <= spec.tbtSlo
  {
    hide HasTimes, Covers, IterationOf, SelfConsistent;
    var seed := SeedOf(spec, FirstPlacement(spec, initial));
    var trace :| Answered(spec, seed, trace, maxIterations, Success(a));
    assert Derived(spec, seed, trace, a.iterations - 1);
    IterationMeetsTarget(spec, PreviousOf(seed, trace, a.iterations - 1));
  }

  /** The same specification with another target. */
  function WithTarget(spec: ClusterSpec, slo: real): ClusterSpec {
    spec.(tbtSlo := slo)
  }

  /** In the other modes an iteration comes to the same for every target. */
  lemma IterationIgnoresTarget(spec: ClusterSpec, slo: real, previous: Placement)
    requires SpecValid(spec) && !spec.objective.Throughput? && Ranged(previous, spec.layers)
    ensures IterationOf(WithTarget(spec, slo), previous) == IterationOf(spec, previous)
  {
    if spec.backupPlacement {
      TableIgnoresTarget(spec, slo, previous);
    }
    if TableFor(spec, previous).Success? {
      var p := Problem(spec, TableFor(spec, previous).value, previous);
      TargetOnlyInThroughput(p, slo);
      assert Retargeted(p, slo) == Problem(WithTarget(spec, slo), p.recovery, previous);
    }
  }

  /**
   The alternating search. Every answer covers all layers, fits memory under the backups its
   own table implies, and reports its true slowest stage; a converged one is a fixed point,
   a fallback one ranks least among the self-consistent iterates; and it fails only when no
   iterate was self-consistent. In throughput mode every stage of it meets the target.
   */
  method SolveAlternating(spec: ClusterSpec, initial: Option<Placement>, maxIterations: nat)
    returns (r: Result<AlternatingResult, SolveError>)
    requires DistinctIds(spec.devices) && (spec.objective.Blended? ==> spec.objective.alpha > 0.0)
    requires initial.Some? ==> Ranged(initial.value, spec.layers)
    ensures IsAnswer(spec, initial, maxIterations, r)
    ensures r.Success? && spec.objective.Throughput? ==> r.value.maxStageTime <= spec.tbtSlo
  {
    if |spec.layers| < |spec.devices| {
      return Failure(NoFeasibleSolution);
    }
    var start: Placement;
    if initial.Some? {
      start := initial.value;
    } else {
      start := UniformPlacement(spec.devices, |spec.layers|);
      UniformRanged(start, spec);
    }
    assert start == FirstPlacement(spec, initial);
    if spec.devices == [] {
      r := NoDevices(spec, start, maxIterations);
      return;
    }
    var seed := RepairSeed(spec, start);
    ghost var trace: seq<Iteration>;
    r, trace := Alternate(spec, seed, maxIterations);
    if r.Success? && spec.objective.Throughput? {
      AnswerMeetsTarget(spec, initial, maxIterations, r.value);
    }
  }

  /** Without devices every iteration that is begun looks for the first device. */
  function ErrorWithoutDevices(maxIterations: nat): SolveError {
    if maxIterations > 0 then IndexError else NoFeasibleSolution
  }

  /** There is nothing to back up, so a table is found; but the program's first row needs a first device. */
  method NoDevices(spec: ClusterSpec, start: Placement, maxIterations: nat) returns (r: Result<AlternatingResult,
      SolveError>)
    requires spec.devices == [] && Ranged(start, spec.layers)
    ensures r == Failure(ErrorWithoutDevices(maxIterations))
  {
    if maxIterations == 0 {
      return Failure(NoFeasibleSolution);
    }
    if spec.backupPlacement {
      var table := DetermineRecoveryTable(spec, start);
      assert table == Success(map[]);
    }
    r := Failure(IndexError);
  }
}
