/**
 A cluster on which the outer search does not return the best answer: in latency mode every
 fallback answer counts as free, so a slow order of the devices is kept before a fast one.
 */
module Misranking {
  import opened Wrappers
  import opened Types
  import opened Cluster
  import opened MemoryCheck
  import opened RecoveryTables
  import opened Scheduling
  import opened CostModel
  import opened Solver
  import opened Alternating
  import opened DeviceOrders
  import opened OrderSearch

  /** One iteration cannot repeat another: every answer is a fallback, and reports a sum of zero. */
  lemma OneIterationFallsBack(spec: ClusterSpec, initial: Option<Placement>, maxIterations: nat, a: AlternatingResult)
    requires Searchable(spec) && spec.devices != [] && maxIterations <= 1
    requires IsAnswer(spec, initial, maxIterations, Success(a))
    ensures !a.converged && a.sumStageTime == 0.0
  {
    var seed := SeedOf(spec, FirstPlacement(spec, initial));
    var trace :| Answered(spec, seed, trace, maxIterations, Success(a));
  }

  // ---------- the cluster ----------

  const FIRST := DeviceProfile("a", 10, 0, 1.0)

  const SECOND := DeviceProfile("bb", 10, 0, 1.0)

  const LAYER := LayerProfile(1, map["a" := 1.0, "bb" := 1.0])

  /** Two equal devices and two equal layers; the link is slow from the first to the second, and fast back. */
  function Lopsided(): ClusterSpec {
    ClusterSpec([FIRST, SECOND], [LAYER, LAYER],
      Network(map[("a", "bb") := 1.0, ("bb", "a") := 1.0], map[("a", "bb") := 5.0]),
      1.0, 0, false, false, [], Latency, 0.0, 1, 1, 0.0)
  }

  predicate IsPair(order: seq<DeviceProfile>) {
    order == [FIRST, SECOND] || order == [SECOND, FIRST]
  }

  function Ordered(order: seq<DeviceProfile>): ClusterSpec {
    Lopsided().(devices := order)
  }

  /** One second for each layer, and the link's latency. */
  function TrueSum(order: seq<DeviceProfile>): real {
    if order == [FIRST, SECOND] then 7.0 else 2.0
  }

  lemma NamesDiffer()
    ensures FIRST.id != SECOND.id
  {
    assert |FIRST.id| == 1 && |SECOND.id| == 2;
  }

  lemma LayerTime(d: DeviceId, i: nat)
    requires i < 2 && (d == "a" || d == "bb")
    ensures ComputeTime(Lopsided().layers, i + 1, i + 1, d) == Finite(1.0)
  {
    var layers := Lopsided().layers;
    assert layers[i] == LAYER && d in LAYER.computeTime && LAYER.computeTime[d] == 1.0;
    assert ComputeTime(layers, i + 1, i, d) == Finite(0.0);
  }

  /** A layer takes a second wherever it runs. */
  lemma LayerCost(order: seq<DeviceProfile>, i: nat)
    requires IsPair(order) && i < 2
    ensures StageTime(Ordered(order), order[i].id, i + 1, i + 1) == Finite(1.0)
  {
    LayerTime(order[i].id, i);
    assert Interference(Ordered(order)) == 1.0;
  }

  lemma LinkCost(order: seq<DeviceProfile>)
    requires IsPair(order)
    ensures CommTime(Ordered(order), order[0].id, order[1].id) == Finite(TrueSum(order) - 2.0)
  {
    NamesDiffer();
    var net := Lopsided().network;
    assert net.bandwidth[(order[0].id, order[1].id)] == 1.0;
    if order == [FIRST, SECOND] {
      assert net.latency[("a", "bb")] == 5.0;
    } else {
      assert order[0] == SECOND && order != [FIRST, SECOND];
      assert ("bb", "a") !in net.latency;
    }
  }

  /** What the stages of the one partition there is cost. */
  lemma PairCosts(order: seq<DeviceProfile>)
    requires IsPair(order)
    ensures StageCost(Ordered(order), 1, 0, 1) == Finite(1.0)
    ensures StageCost(Ordered(order), 2, 1, 2) == Finite(TrueSum(order) - 1.0)
  {
    hide StageTime, CommTime, TrueSum;
    LayerCost(order, 0);
    LayerCost(order, 1);
    LinkCost(order);
  }

  lemma PairSum(order: seq<DeviceProfile>)
    requires IsPair(order)
    ensures Bounded(Ordered(order), [1, 2], 2) && SumOf(Ordered(order), [1, 2], 2) == Finite(TrueSum(order))
  {
    hide StageCost, TrueSum;
    PairCosts(order);
    assert SumOf(Ordered(order), [1, 2], 1) == StageCost(Ordered(order), 1, 0, 1);
  }

  /** One layer fits on either device, whatever the others hold. */
  lemma LayerFits(order: seq<DeviceProfile>, recovery: RecoveryTable, psi: Placement, i: nat)
    requires IsPair(order) && i < 2 && Ranged(psi, Lopsided().layers)
    ensures Fits(order[i], i + 1, i + 1, recovery, psi, Lopsided().layers, false)
  {
    var layers := Lopsided().layers;
    assert LayerBytes(layers, i + 1, i + 1) == LayerBytes(layers, i + 1, i) + 1;
  }

  lemma PairFeasible(order: seq<DeviceProfile>, p: Problem, i: nat)
    requires IsPair(order) && Ranged(p.reference, Lopsided().layers) && p.spec == Ordered(order) && i < 2
    ensures StartOf([1, 2], i) == i && FeasibleStage(p, [1, 2], i)
  {
    hide StageCost, Fits, TrueSum;
    PairCosts(order);
    LayerFits(order, p.recovery, p.reference, i);
  }

  /** The program finds the partition, from any reference. */
  lemma PairSolved(order: seq<DeviceProfile>, previous: Placement)
    requires IsPair(order) && Ranged(previous, Lopsided().layers)
    ensures SpecValid(Ordered(order)) && IterationOf(Ordered(order), previous).Success?
  {
    hide StageCost, Fits, FeasibleStage, CellAt, SumOf, MaxCost, TrueSum, Path, PlacementOf;
    NamesDiffer();
    var p := Problem(Ordered(order), map[], previous);
    PairFeasible(order, p, 0);
    PairFeasible(order, p, 1);
    assert StartOf([1, 2], 0) < [1, 2][0] && StartOf([1, 2], 1) < [1, 2][1];
    CellIsOptimal(p, [1, 2], 2, 2);
  }

  /** Every placement that covers both layers with both devices gives each of them one. */
  lemma OneLayerEach(order: seq<DeviceProfile>, psi: Placement)
    requires IsPair(order) && Covers(psi, order, 2)
    ensures psi == PlacementOf(Ordered(order), [1, 2])
    ensures psi == [Stage(1, 1, order[0].id), Stage(2, 2, order[1].id)]
  {
    assert Continues(psi, order, 0) && Continues(psi, order, 1);
    var ends: seq<nat> := [1, 2];
    assert StageAt(Ordered(order), ends, 0) == psi[0] && StageAt(Ordered(order), ends, 1) == psi[1];
  }

  /** That takes the link's latency and a second for each layer. */
  lemma PairTimes(order: seq<DeviceProfile>, sum: real, max: real)
    requires IsPair(order) && HasTimes(Ordered(order), PlacementOf(Ordered(order), [1, 2]), sum, max)
    ensures sum == TrueSum(order)
  {
    hide SumOf, MaxCost, TrueSum, HasTimes, StageCost;
    var spec := Ordered(order);
    PairSum(order);
    var times := PrefixTimes(spec, [1, 2], 2);
    assert IsPartition([1, 2], 2, 2) by {
      assert StartOf([1, 2], 0) == 0 && StartOf([1, 2], 1) == 1;
    }
    CostsAreTimes(spec, [1, 2], TrueSum(order), MaxCost(spec, [1, 2], 2).value);
    TimesAreUnique(spec, PlacementOf(spec, [1, 2]), sum, max, TrueSum(order), MaxCost(spec, [1, 2], 2).value);
  }

  lemma PairConsistent(order: seq<DeviceProfile>, it: Iteration)
    requires IsPair(order) && Covers(it.placement, order, 2) && Ranged(it.placement, Lopsided().layers)
    requires it.placement[0] == Stage(1, 1, order[0].id) && it.placement[1] == Stage(2, 2, order[1].id)
    ensures Consistent(Ordered(order), it)
  {
    forall i | 0 <= i < 2
      ensures FitsOwn(Ordered(order), it.placement, it.recovery, i)
    {
      LayerFits(order, it.recovery, it.placement, i);
    }
  }

  /** With one iteration either order is answered by its one placement, and reported to cost nothing. */
  lemma PairAnswered(order: seq<DeviceProfile>, r: Result<AlternatingResult, SolveError>)
    requires IsPair(order) && Searchable(Ordered(order)) && IsAnswer(Ordered(order), None, 1, r)
    ensures r.Success? && !r.value.converged && r.value.sumStageTime == 0.0
    ensures HasTimes(Ordered(order), r.value.placement, TrueSum(order), r.value.maxStageTime)
    ensures r.value.placement == [Stage(1, 1, order[0].id), Stage(2, 2, order[1].id)]
  {
    hide IterationOf, HasTimes, SelfConsistent, TrueSum, EvenSplit;
    var spec := Ordered(order);
    var seed := SeedOf(spec, FirstPlacement(spec, None));
    var trace: seq<Iteration> :| Answered(spec, seed, trace, 1, r);
    if trace == [] {
      PairSolved(order, PreviousOf(seed, trace, 0));
    } else {
      assert Derived(spec, seed, trace, 0);
      OneLayerEach(order, trace[0].placement);
      PairTimes(order, trace[0].sum, trace[0].max);
      PairConsistent(order, trace[0]);
    }
  }

  // ---------- the search ----------

  lemma PrefixedOne(x: DeviceProfile, tail: seq<DeviceProfile>)
    ensures Prefixed(x, [tail]) == [[x] + tail]
  {}

  lemma {:induction false} OrdersOfPair(ds: seq<DeviceProfile>)
    requires ds == [FIRST, SECOND]
    ensures Permutations(ds) == [[FIRST, SECOND], [SECOND, FIRST]]
  {
    assert Without(ds, 0) == [SECOND] && Without(ds, 1) == [FIRST];
    SingletonOrder(FIRST);
    SingletonOrder(SECOND);
    PrefixedOne(FIRST, [SECOND]);
    PrefixedOne(SECOND, [FIRST]);
    assert [FIRST] + [SECOND] == [FIRST, SECOND] && [SECOND] + [FIRST] == [SECOND, FIRST];
    assert PermutationsFrom(ds, 2) == [];
    assert PermutationsFrom(ds, 1) == [[SECOND, FIRST]];
  }

  lemma SingletonOrder(d: DeviceProfile)
    ensures Permutations([d]) == [[d]]
  {
    assert Without([d], 0) == [] && Permutations<DeviceProfile>([]) == [[]];
    PrefixedOne(d, []);
    assert [d] + [] == [d];
    assert PermutationsFrom([d], 1) == [];
  }

  lemma {:induction false} AllOfBoth(ds: seq<DeviceProfile>)
    requires ds == [FIRST, SECOND]
    ensures Combinations(ds, 2) == [ds]
  {
    assert ds[1..] == [SECOND] && [SECOND][1..] == [];
    PrefixedOne(SECOND, []);
    assert [SECOND] + [] == [SECOND];
    assert Combinations([SECOND], 1) == [[SECOND]];
    assert Combinations<DeviceProfile>([], 1) == [] && Combinations<DeviceProfile>([], 2) == [];
    assert Combinations([SECOND], 2) == [];
    PrefixedOne(FIRST, [SECOND]);
    assert [FIRST] + [SECOND] == ds;
  }

  lemma TwoOrders()
    ensures SearchedOrders(Lopsided(), true) == [[FIRST, SECOND], [SECOND, FIRST]]
  {
    hide Permutations, Combinations;
    var ds := [FIRST, SECOND];
    OrdersOfPair(ds);
    AllOfBoth(ds);
    assert OrdersOf([ds], 1) == OrdersOf([ds], 0) + Permutations(ds);
    assert OrdersOfSizes(ds, 2, 3) == OrdersOfSizes(ds, 2, 2) + OrdersOf([ds], 1);
  }

  /** Both orders rank and score the same. */
  lemma NeitherBeats(order: seq<DeviceProfile>, a: AlternatingResult)
    requires IsPair(order) && a.sumStageTime == 0.0
    requires a.placement == [Stage(1, 1, order[0].id), Stage(2, 2, order[1].id)]
    ensures CandidateOf(Lopsided(), Attempt(order, Success(a))) == Some(OrderSearch.Candidate(order, a, 0.0, 2.0))
  {
    NamesDiffer();
    var ds := Lopsided().devices;
    assert ds[..1] == [FIRST];
    assert ThroughputOf(ds, FIRST.id) == 1.0 && ThroughputOf(ds, SECOND.id) == 1.0;
    assert a.placement[..1] == [Stage(1, 1, order[0].id)] && a.placement[..1][..0] == [];
    assert ScoreOf(ds, a.placement[..1]) == 1.0;
  }

  /**
   The search over subsets with one iteration each returns the slow order's answer, of true
   sum seven, although the fast order's, of true sum two, was among its attempts.
   */
  lemma SlowOrderKept(tried: seq<Attempt>, r: Result<AlternatingResult, SolveError>)
    requires Searchable(Lopsided()) && IsSearch(Lopsided(), true, None, 1, tried, r)
    ensures |tried| == 2 && tried[0].answer == r && tried[0].order == [FIRST, SECOND]
    ensures tried[1].order == [SECOND, FIRST]
    ensures r.Success? && HasTimes(Ordered(tried[0].order), r.value.placement, 7.0, r.value.maxStageTime)
    ensures tried[1].answer.Success?
    ensures HasTimes(Ordered(tried[1].order), tried[1].answer.value.placement, 2.0, tried[1].answer.value.maxStageTime)
  {
    hide HasTimes, SearchedOrders, IsAnswer, CandidateOf, TrueSum;
    TwoOrders();
    assert Attempted(Lopsided(), None, 1, tried, 0) && Attempted(Lopsided(), None, 1, tried, 1);
    PairAnswered([FIRST, SECOND], tried[0].answer);
    PairAnswered([SECOND, FIRST], tried[1].answer);
    NeitherBeats([FIRST, SECOND], tried[0].answer.value);
    NeitherBeats([SECOND, FIRST], tried[1].answer.value);
    FirstOfEqualsKept(tried);
    TrueSums();
  }

  lemma TrueSums()
    ensures TrueSum([FIRST, SECOND]) == 7.0 && TrueSum([SECOND, FIRST]) == 2.0
  {
    NamesDiffer();
    assert [SECOND, FIRST][0] != [FIRST, SECOND][0];
  }

  /** Of two candidates with the same rank and score the first is kept. */
  lemma FirstOfEqualsKept(tried: seq<Attempt>)
    requires |tried| == 2 && CandidateOf(Lopsided(), tried[0]).Some? && CandidateOf(Lopsided(), tried[1]).Some?
    requires CandidateOf(Lopsided(), tried[0]).value.rank == CandidateOf(Lopsided(), tried[1]).value.rank
    requires CandidateOf(Lopsided(), tried[0]).value.score == CandidateOf(Lopsided(), tried[1]).value.score
    ensures OutcomeOf(Lopsided(), tried) == tried[0].answer
  {
    var spec := Lopsided();
    var a, b := CandidateOf(spec, tried[0]).value, CandidateOf(spec, tried[1]).value;
    assert tried[..1] == [tried[0]] && tried[..1][..0] == [];
    assert Candidates(spec, tried[..1]) == [a];
    assert Candidates(spec, tried) == [a, b];
    assert [a, b][..1] == [a] && [a][..0] == [];
    assert Retained([a]) == Some(a);
  }

  /** And that is what the scheduler answers. */
  method Misled() returns (r: Result<AlternatingResult, SolveError>)
    ensures r.Success? && !r.value.converged && r.value.placement == [Stage(1, 1, "a"), Stage(2, 2, "bb")]
    ensures HasTimes(Ordered([FIRST, SECOND]), r.value.placement, 7.0, r.value.maxStageTime)
  {
    NamesDiffer();
    var scheduler := new Scheduler(Lopsided());
    ghost var tried;
    r, tried := scheduler.SolveAlternatingBestOrder(8, true, None, 1);
    SlowOrderKept(tried, r);
    assert Attempted(Lopsided(), None, 1, tried, 0);
    PairAnswered([FIRST, SECOND], r);
  }
}
