/**
 The outer search over device subsets and orders: every candidate pipeline is solved by the
 alternation, and a fold with a tolerance keeps the best of the answers.
 */
module DeviceOrders {
  // ---------- subsets and orders, in the order they are enumerated ----------

  function Prefixed<T>(x: T, tails: seq<seq<T>>): (r: seq<seq<T>>)
    ensures |r| == |tails| && forall i :: 0 <= i < |r| ==> r[i] == [x] + tails[i]
  {
    seq(|tails|, i requires 0 <= i < |tails| => [x] + tails[i])
  }

  lemma PrefixedMember<T>(x: T, tails: seq<seq<T>>, o: seq<T>)
    ensures o in Prefixed(x, tails) <==> o != [] && o[0] == x && o[1..] in tails
  {
    if o != [] && o[0] == x && o[1..] in tails {
      var i :| 0 <= i < |tails| && tails[i] == o[1..];
      assert Prefixed(x, tails)[i] == o;
    }
  }

  /** All subsequences of length k, those with the first element first. */
  function Combinations<T>(s: seq<T>, k: nat): seq<seq<T>> {
    if k == 0 then [[]]
    else if s == [] then []
    else Prefixed(s[0], Combinations(s[1..], k - 1)) + Combinations(s[1..], k)
  }

  function Without<T>(s: seq<T>, i: nat): (r: seq<T>)
    requires i < |s|
    ensures |r| == |s| - 1 && multiset(s) == multiset(r) + multiset{s[i]}
  {
    assert s == s[..i] + [s[i]] + s[i + 1..];
    s[..i] + s[i + 1..]
  }

  /** All orders of s, those with the earlier first element first. */
  function Permutations<T>(s: seq<T>): seq<seq<T>>
    decreases |s|, |s| + 1
  {
    if s == [] then [[]] else PermutationsFrom(s, 0)
  }

  function PermutationsFrom<T>(s: seq<T>, i: nat): seq<seq<T>>
    requires i <= |s|
    decreases |s|, |s| - i
  {
    if i == |s| then []
    else Prefixed(s[i], Permutations(Without(s, i))) + PermutationsFrom(s, i + 1)
  }

  lemma RestDecides<T>(s: seq<T>, j: nat, o: seq<T>)
    requires j < |s| && o != [] && o[0] == s[j]
    ensures multiset(o) == multiset(s) <==> multiset(o[1..]) == multiset(Without(s, j))
  {
    var rest, others := multiset(o[1..]), multiset(Without(s, j));
    assert o == [o[0]] + o[1..];
    assert multiset(o) == rest + multiset{s[j]};
    assert multiset(s) == others + multiset{s[j]};
    assert rest + multiset{s[j]} - multiset{s[j]} == rest && others + multiset{s[j]} - multiset{s[j]} == others;
  }

  lemma FirstOccurs<T>(s: seq<T>, o: seq<T>) returns (j: nat)
    requires o != [] && multiset(o) == multiset(s)
    ensures j < |s| && s[j] == o[0]
  {
    assert o[0] in multiset(s);
    j :| 0 <= j < |s| && s[j] == o[0];
  }

  lemma {:induction false} PermutationsSound<T>(s: seq<T>, o: seq<T>)
    requires o in Permutations(s)
    ensures multiset(o) == multiset(s)
    decreases |s|, |s| + 1
  {
    if s != [] {
      PermutationsFromSound(s, 0, o);
    }
  }

  lemma {:induction false} PermutationsFromSound<T>(s: seq<T>, i: nat, o: seq<T>)
    requires i <= |s| && o in PermutationsFrom(s, i)
    ensures multiset(o) == multiset(s)
    decreases |s|, |s| - i
  {
    PrefixedMember(s[i], Permutations(Without(s, i)), o);
    if o in Prefixed(s[i], Permutations(Without(s, i))) {
      PermutationsSound(Without(s, i), o[1..]);
      RestDecides(s, i, o);
    } else {
      PermutationsFromSound(s, i + 1, o);
    }
  }

  lemma {:induction false} PermutationsComplete<T>(s: seq<T>, o: seq<T>)
    requires multiset(o) == multiset(s)
    ensures o in Permutations(s)
    decreases |s|
  {
    assert |multiset(o)| == |o| && |multiset(s)| == |s|;
    if s != [] {
      var j := FirstOccurs(s, o);
      RestDecides(s, j, o);
      PermutationsComplete(Without(s, j), o[1..]);
      PrefixedMember(s[j], Permutations(Without(s, j)), o);
      FromEarlier(s, 0, j, o);
    }
  }

  lemma {:induction false} FromEarlier<T>(s: seq<T>, i: nat, j: nat, o: seq<T>)
    requires i <= j < |s| && o in Prefixed(s[j], Permutations(Without(s, j)))
    ensures o in PermutationsFrom(s, i)
    decreases j - i
  {
    if i < j {
      FromEarlier(s, i + 1, j, o);
    }
  }

  predicate NoRepeats<T(==)>(s: seq<T>) {
    forall i, j :: 0 <= i < j < |s| ==> s[i] != s[j]
  }

  lemma {:induction false} CountInDistinct<T>(s: seq<T>, x: T)
    requires NoRepeats(s)
    ensures multiset(s)[x] == if x in s then 1 else 0
  {
    if s != [] {
      CountInDistinct(s[1..], x);
      assert s == [s[0]] + s[1..];
    }
  }

  lemma CountDecides<T>(s: seq<T>)
    requires forall x :: multiset(s)[x] <= 1
    ensures NoRepeats(s)
  {
    forall i, j | 0 <= i < j < |s|
      ensures s[i] != s[j]
    {
      assert s == s[..i] + [s[i]] + s[i + 1..];
      assert multiset(s)[s[i]] == multiset(s[..i])[s[i]] + 1 + multiset(s[i + 1..])[s[i]];
      assert s[j] == s[i + 1..][j - i - 1];
    }
  }

  /** The elements of s that occur in o, in the order of s. */
  function Chosen<T(==)>(s: seq<T>, o: seq<T>): seq<T> {
    if s == [] then [] else if s[0] in o then [s[0]] + Chosen(s[1..], o) else Chosen(s[1..], o)
  }

  lemma {:induction false} ChosenMembers<T>(s: seq<T>, o: seq<T>)
    requires NoRepeats(s)
    ensures forall x :: x in Chosen(s, o) <==> x in s && x in o
    ensures NoRepeats(Chosen(s, o)) && Chosen(s, o) in Combinations(s, |Chosen(s, o)|)
  {
    if s != [] {
      ChosenMembers(s[1..], o);
      assert forall x :: x in s <==> x == s[0] || x in s[1..];
      var c := Chosen(s, o);
      if s[0] in o {
        assert c[1..] == Chosen(s[1..], o);
        PrefixedMember(s[0], Combinations(s[1..], |c| - 1), c);
      }
    }
  }

  lemma {:induction false} CombinationIsPart<T>(s: seq<T>, k: nat, c: seq<T>)
    requires NoRepeats(s) && c in Combinations(s, k)
    ensures |c| == k && NoRepeats(c) && forall x :: x in c ==> x in s
  {
    if k > 0 {
      PrefixedMember(s[0], Combinations(s[1..], k - 1), c);
      if c in Prefixed(s[0], Combinations(s[1..], k - 1)) {
        CombinationIsPart(s[1..], k - 1, c[1..]);
        assert forall i :: 0 < i < |c| ==> c[i] in c[1..] && c[i] == c[1..][i - 1];
        assert s[0] !in s[1..];
      } else {
        CombinationIsPart(s[1..], k, c);
      }
    }
  }

  // ---------- the whole search space ----------

  /** The orders of the first n subsets. */
  function OrdersOf<T>(subsets: seq<seq<T>>, n: nat): seq<seq<T>>
    requires n <= |subsets|
  {
    if n == 0 then [] else OrdersOf(subsets, n - 1) + Permutations(subsets[n - 1])
  }

  /** The orders of all subsets whose size is at least lo and less than hi, smaller subsets first. */
  function OrdersOfSizes<T>(s: seq<T>, lo: nat, hi: nat): seq<seq<T>>
    decreases hi
  {
    if hi <= lo then []
    else OrdersOfSizes(s, lo, hi - 1) + OrdersOf(Combinations(s, hi - 1), |Combinations(s, hi - 1)|)
  }

  lemma {:induction false} OrdersOfMember<T>(subsets: seq<seq<T>>, n: nat, o: seq<T>)
    requires n <= |subsets|
    ensures o in OrdersOf(subsets, n) <==> exists i :: 0 <= i < n && multiset(subsets[i]) == multiset(o)
  {
    if n > 0 {
      var m := n - 1;
      OrdersOfMember(subsets, m, o);
      if o in Permutations(subsets[m]) {
        PermutationsSound(subsets[m], o);
      }
      if multiset(subsets[m]) == multiset(o) {
        PermutationsComplete(subsets[m], o);
      }
    }
  }

  /** A pipeline of distinct devices of the fleet. */
  predicate IsOrder<T(==)>(s: seq<T>, o: seq<T>) {
    NoRepeats(o) && forall x :: x in o ==> x in s
  }

  lemma {:induction false} OrderIsEnumerated<T>(s: seq<T>, k: nat, o: seq<T>)
    requires NoRepeats(s)
    ensures var subsets := Combinations(s, k);
      o in OrdersOf(subsets, |subsets|) <==> IsOrder(s, o) && |o| == k
  {
    var subsets := Combinations(s, k);
    OrdersOfMember(subsets, |subsets|, o);
    if o in OrdersOf(subsets, |subsets|) {
      var i :| 0 <= i < |subsets| && multiset(subsets[i]) == multiset(o);
      CombinationIsPart(s, k, subsets[i]);
      SameElements(subsets[i], o);
    }
    if IsOrder(s, o) && |o| == k {
      var c := Chosen(s, o);
      ChosenMembers(s, o);
      SameCounts(c, o);
    }
  }

  lemma SameElements<T>(c: seq<T>, o: seq<T>)
    requires NoRepeats(c) && multiset(c) == multiset(o)
    ensures |c| == |o| && NoRepeats(o) && forall x :: x in o <==> x in c
  {
    assert |multiset(c)| == |c| && |multiset(o)| == |o|;
    forall x
      ensures multiset(o)[x] <= 1
    {
      CountInDistinct(c, x);
    }
    CountDecides(o);
    forall x
      ensures x in o <==> x in c
    {
      assert x in o <==> x in multiset(o);
    }
  }

  lemma SameCounts<T>(c: seq<T>, o: seq<T>)
    requires NoRepeats(c) && NoRepeats(o) && forall x :: x in o <==> x in c
    ensures multiset(c) == multiset(o) && |c| == |o|
  {
    forall x
      ensures multiset(c)[x] == multiset(o)[x]
    {
      CountInDistinct(c, x);
      CountInDistinct(o, x);
    }
    assert |multiset(c)| == |c| && |multiset(o)| == |o|;
  }

  lemma MemberOfSum<T>(a: seq<T>, b: seq<T>, x: T)
    ensures x in a + b <==> x in a || x in b
  {}

  /** The search space is exactly the pipelines of distinct devices of the admitted sizes. */
  lemma {:induction false} SearchSpace<T>(s: seq<T>, lo: nat, hi: nat, o: seq<T>)
    requires NoRepeats(s)
    ensures o in OrdersOfSizes(s, lo, hi) <==> IsOrder(s, o) && lo <= |o| < hi
    decreases hi
  {
    if lo < hi {
      var k := hi - 1;
      var last := OrdersOf(Combinations(s, k), |Combinations(s, k)|);
      SearchSpace(s, lo, k, o);
      OrderIsEnumerated(s, k, o);
      MemberOfSum(OrdersOfSizes(s, lo, k), last, o);
      assert OrdersOfSizes(s, lo, hi) == OrdersOfSizes(s, lo, k) + last;
    }
  }
}

/** The choice among the candidates' answers, and the scheduler that makes it. */
module OrderSearch {
  import opened Wrappers
  import opened Types
  import opened Cluster
  import opened RecoveryTables
  import opened CostModel
  import opened Solver
  import opened Alternating
  import opened DeviceOrders

  /** Ranks closer than this are a tie. */
  const TOLERANCE: real := 0.000000001

  /** A pipeline that was tried and what the alternation answered. */
  datatype Attempt = Attempt(order: seq<DeviceProfile>, answer: Result<AlternatingResult, SolveError>)

  datatype Candidate = Candidate(order: seq<DeviceProfile>, result: AlternatingResult, rank: real, score: real)

  // ---------- the fold over the candidates ----------

  function Gap(a: real, b: real): real {
    if a < b then b - a else a - b
  }

  predicate Beats(c: Candidate, best: Option<Candidate>) {
    best.None? || c.rank < best.value.rank - TOLERANCE
    || (Gap(c.rank, best.value.rank) < TOLERANCE && c.score > best.value.score)
  }

  /** What is kept after all candidates so far. */
  function Retained(cs: seq<Candidate>): (best: Option<Candidate>)
    ensures best.None? <==> cs == []
    ensures best.Some? ==> best.value in cs
  {
    if cs == [] then None
    else
      var n := |cs| - 1;
      var before := Retained(cs[..n]);
      if Beats(cs[n], before) then Some(cs[n]) else before
  }

  /** The retained rank drifts from the least rank by less than the tolerance per further candidate. */
  lemma {:induction false} DriftBound(cs: seq<Candidate>, i: nat)
    requires i < |cs|
    ensures Retained(cs).value.rank <= cs[i].rank + (|cs| - 1) as real * TOLERANCE
  {
    var n := |cs| - 1;
    if n > 0 {
      var before := Retained(cs[..n]).value;
      if i < n {
        DriftBound(cs[..n], i);
        assert before.rank <= cs[i].rank + (n - 1) as real * TOLERANCE;
      }
      assert n as real * TOLERANCE == (n - 1) as real * TOLERANCE + TOLERANCE;
      assert (n - 1) as real * TOLERANCE >= 0.0;
    }
  }

  /** Candidates whose ranks and scores rise together, each rank less than the tolerance above the one before. */
  function Staircase(c: Candidate, step: real, t: nat): (cs: seq<Candidate>)
    ensures |cs| == t && forall i :: 0 <= i < t ==> cs[i].rank == i as real * step && cs[i].score == i as real
  {
    seq(t, i => c.(rank := i as real * step, score := i as real))
  }

  lemma StaircaseStep(c: Candidate, step: real, t: nat)
    requires t > 1 && 0.0 <= step < TOLERANCE
    ensures var cs := Staircase(c, step, t);
      Beats(cs[t - 1], Some(cs[t - 2])) && cs[..t - 1] == Staircase(c, step, t - 1)
  {
    assert (t - 1) as real * step == (t - 2) as real * step + step;
  }

  /** The bound is tight: a staircase of t steps drifts by (t - 1) steps, for every step below the tolerance. */
  lemma {:induction false} DriftIsReal(c: Candidate, step: real, t: nat)
    requires t > 0 && 0.0 <= step < 0.000000001
    ensures Staircase(c, step, t)[0].rank == 0.0
    ensures Retained(Staircase(c, step, t)) == Some(Staircase(c, step, t)[t - 1])
    ensures Staircase(c, step, t)[t - 1].rank == (t - 1) as real * step
  {
    assert 0 as real * step == 0.0;
    if t > 1 {
      DriftIsReal(c, step, t - 1);
      StaircaseStep(c, step, t);
    }
  }

  /** Two candidates the tolerance tells apart, or whose ranks are equal. */
  predicate Apart(a: Candidate, b: Candidate) {
    a.rank == b.rank || Gap(a.rank, b.rank) > TOLERANCE
  }

  /**
   Where no two ranks differ by a tolerance or less, the answer is exactly the least rank, with
   the best score there.
   */
  lemma {:induction false} ExactWithoutNearTies(cs: seq<Candidate>)
    requires cs != [] && forall a, b :: a in cs && b in cs ==> Apart(a, b)
    ensures var best := Retained(cs).value;
      forall a :: a in cs ==> best.rank <= a.rank && (a.rank == best.rank ==> a.score <= best.score)
  {
    var n := |cs| - 1;
    var last := cs[n];
    assert forall a :: a in cs <==> a in cs[..n] || a == last by {
      assert cs == cs[..n] + [last];
    }
    if n > 0 {
      ExactWithoutNearTies(cs[..n]);
      assert Apart(last, Retained(cs[..n]).value);
    }
  }

  // ---------- a candidate ----------

  /** The throughput of a device, zero if unknown. */
  function ThroughputOf(devices: seq<DeviceProfile>, d: DeviceId): real {
    if devices == [] then 0.0
    else
      var last := devices[|devices| - 1];
      if last.id == d then last.throughput else ThroughputOf(devices[..|devices| - 1], d)
  }

  /** Layers weighted by the speed of the device they run on. */
  function ScoreOf(devices: seq<DeviceProfile>, psi: Placement): real {
    if psi == [] then 0.0
    else
      var last := psi[|psi| - 1];
      ScoreOf(devices, psi[..|psi| - 1]) + ThroughputOf(devices, last.device) * (last.end - last.start + 1) as real
  }

  /** A known device counts with its own throughput, an unknown one with none. */
  lemma {:induction false} KnownThroughput(devices: seq<DeviceProfile>, d: DeviceId)
    ensures DistinctIds(devices) ==> forall e :: e in devices && e.id == d ==> ThroughputOf(devices, d) == e.throughput
    ensures (forall e :: e in devices ==> e.id != d) ==> ThroughputOf(devices, d) == 0.0
  {
    if devices != [] {
      var n := |devices| - 1;
      KnownThroughput(devices[..n], d);
      assert devices == devices[..n] + [devices[n]];
      assert forall e :: e in devices <==> e in devices[..n] || e == devices[n];
      if DistinctIds(devices) {
        forall e | e in devices[..n]
          ensures e.id != devices[n].id
        {}
      }
    }
  }

  /** Every layer adds the throughput of the device it runs on, the first of a stage and each further one. */
  lemma {:induction false} ScorePerLayer(devices: seq<DeviceProfile>, psi: Placement, start: nat, end: nat, d: DeviceId)
    requires start <= end
    ensures ScoreOf(devices, psi + [Stage(start, start, d)]) == ScoreOf(devices, psi) + ThroughputOf(devices, d)
    ensures ScoreOf(devices, psi + [Stage(start, end + 1, d)]) ==
      ScoreOf(devices, psi + [Stage(start, end, d)]) + ThroughputOf(devices, d)
  {
    var n, each := end - start + 1, ThroughputOf(devices, d);
    assert (psi + [Stage(start, end, d)])[..|psi|] == psi && (psi + [Stage(start, end + 1, d)])[..|psi|] == psi;
    assert (psi + [Stage(start, start, d)])[..|psi|] == psi;
    assert (n + 1) as real == n as real + 1.0;
    assert each * (n as real + 1.0) == each * n as real + each;
  }

  function Charged(spec: ClusterSpec, order: seq<DeviceProfile>, a: AlternatingResult): real {
    RankIt(spec, a.sumStageTime, a.maxStageTime).value + spec.stagePenalty * |order| as real
  }

  /**
   Of two answers with the same times each device more costs one penalty: with a positive
   one the shorter pipeline ranks first, and by more than a tolerance it beats the longer.
   */
  lemma ShorterRanksFirst(spec: ClusterSpec, short: Attempt, long: Attempt)
    requires short.answer.Success? && long.answer.Success? && |short.order| < |long.order|
    requires short.answer.value.sumStageTime == long.answer.value.sumStageTime
    requires short.answer.value.maxStageTime == long.answer.value.maxStageTime
    ensures var a, b := CandidateOf(spec, short).value, CandidateOf(spec, long).value;
      && b.rank - a.rank == (|long.order| - |short.order|) as real * spec.stagePenalty
      && (spec.stagePenalty > 0.0 ==> a.rank < b.rank)
      && (spec.stagePenalty > TOLERANCE ==> Beats(a, Some(b)) && !Beats(b, Some(a)))
  {
    var n, k := |short.order|, |long.order| - |short.order|;
    PenaltyPerDevice(spec.stagePenalty, n, k);
    assert |long.order| == n + k;
  }

  lemma PenaltyPerDevice(penalty: real, n: nat, k: nat)
    requires k > 0
    ensures penalty * (n + k) as real - penalty * n as real == k as real * penalty
    ensures penalty >= 0.0 ==> k as real * penalty >= penalty
  {
    assert (n + k) as real == n as real + k as real;
    assert penalty >= 0.0 ==> (k - 1) as real * penalty >= 0.0;
    assert k as real * penalty == (k - 1) as real * penalty + penalty;
  }

  ghost predicate Searchable(spec: ClusterSpec) {
    DistinctIds(spec.devices) && (spec.objective.Blended? ==> spec.objective.alpha > 0.0)
  }

  lemma OrderKeepsIds(devices: seq<DeviceProfile>, order: seq<DeviceProfile>)
    requires DistinctIds(devices) && IsOrder(devices, order)
    ensures DistinctIds(order)
  {
    forall i, j | 0 <= i < j < |order|
      ensures order[i].id != order[j].id
    {
      assert order[i] in devices && order[j] in devices;
      var a :| 0 <= a < |devices| && devices[a] == order[i];
      var b :| 0 <= b < |devices| && devices[b] == order[j];
      assert a < b || b < a;
    }
  }

  ghost function OnOrder(spec: ClusterSpec, order: seq<DeviceProfile>): (s: ClusterSpec)
    requires Searchable(spec) && IsOrder(spec.devices, order)
    ensures Searchable(s)
  {
    OrderKeepsIds(spec.devices, order);
    spec.(devices := order)
  }

  /** In throughput mode every attempt's answer meets the service-level target. */
  lemma AttemptMeetsTarget(spec: ClusterSpec, initial: Option<Placement>, maxIterations: nat, tried: seq<Attempt>,
      i: nat)
    requires Searchable(spec) && spec.objective.Throughput? && Attempts(spec, initial, maxIterations, tried)
    requires i < |tried| && tried[i].answer.Success?
    ensures tried[i].answer.value.maxStageTime <= spec.tbtSlo
  {
    assert Attempted(spec, initial, maxIterations, tried, i);
    AnswerMeetsTarget(OnOrder(spec, tried[i].order), initial, maxIterations, tried[i].answer.value);
  }

  /** So does the answer of the search. */
  lemma SearchMeetsTarget(spec: ClusterSpec, subsetSearch: bool, initial: Option<Placement>, maxIterations: nat,
      tried: seq<Attempt>, r: Result<AlternatingResult, SolveError>)
    requires Searchable(spec) && spec.objective.Throughput? && r.Success?
    requires IsSearch(spec, subsetSearch, initial, maxIterations, tried, r)
    ensures r.value.maxStageTime <= spec.tbtSlo
  {
    SearchBound(spec, tried);
    var b :| 0 <= b < |tried| && tried[b].answer == r;
    AttemptMeetsTarget(spec, initial, maxIterations, tried, b);
  }

  /** What one attempt contributes: nothing if the alternation failed. */
  function CandidateOf(spec: ClusterSpec, t: Attempt): Option<Candidate> {
    match t.answer
    case Failure(_) => None
    case Success(a) => Some(Candidate(t.order, a, Charged(spec, t.order, a), ScoreOf(spec.devices, a.placement)))
  }

  /** The contributions of a run of attempts, in its order. */
  function Candidates(spec: ClusterSpec, tried: seq<Attempt>): seq<Candidate> {
    if tried == [] then []
    else
      var n := |tried| - 1;
      var before := Candidates(spec, tried[..n]);
      match CandidateOf(spec, tried[n])
      case None => before
      case Some(c) => before + [c]
  }

  lemma {:induction false} CandidateWasTried(spec: ClusterSpec, tried: seq<Attempt>, c: Candidate)
    ensures c in Candidates(spec, tried) <==> exists i :: 0 <= i < |tried| && CandidateOf(spec, tried[i]) == Some(c)
  {
    if tried != [] {
      var n := |tried| - 1;
      CandidateWasTried(spec, tried[..n], c);
      assert CandidateOf(spec, tried[n]) == Some(c) ==> c in Candidates(spec, tried);
    }
  }

  /** Every attempt holds the alternation's answer on its pipeline. */
  ghost predicate Attempts(spec: ClusterSpec, initial: Option<Placement>, maxIterations: nat, tried: seq<Attempt>)
    requires Searchable(spec)
  {
    forall i {:trigger Attempted(spec, initial, maxIterations, tried, i)} :: 0 <= i < |tried| ==>
      Attempted(spec, initial, maxIterations, tried, i)
  }

  ghost predicate Attempted(spec: ClusterSpec, initial: Option<Placement>, maxIterations: nat, tried: seq<Attempt>,
      i: nat)
    requires Searchable(spec) && i < |tried|
  {
    && IsOrder(spec.devices, tried[i].order)
    && IsAnswer(OnOrder(spec, tried[i].order), initial, maxIterations, tried[i].answer)
  }

  lemma OneMoreAttempt(spec: ClusterSpec, initial: Option<Placement>, maxIterations: nat, tried: seq<Attempt>,
      t: Attempt)
    requires Searchable(spec) && Attempts(spec, initial, maxIterations, tried) && IsOrder(spec.devices, t.order)
    requires IsAnswer(OnOrder(spec, t.order), initial, maxIterations, t.answer)
    ensures Attempts(spec, initial, maxIterations, tried + [t])
  {
    var all := tried + [t];
    forall i | 0 <= i < |all|
      ensures Attempted(spec, initial, maxIterations, all, i)
    {
      if i < |tried| {
        assert Attempted(spec, initial, maxIterations, tried, i);
        assert all[i] == tried[i];
      }
    }
  }

  /** The answers are determined: two runs over the same pipelines agree. */
  lemma AttemptsAgree(spec: ClusterSpec, initial: Option<Placement>, maxIterations: nat, t: seq<Attempt>,
      u: seq<Attempt>)
    requires Searchable(spec) && Attempts(spec, initial, maxIterations, t) && Attempts(spec, initial, maxIterations, u)
    requires |t| == |u| && forall i :: 0 <= i < |t| ==> t[i].order == u[i].order
    ensures t == u
  {
    forall i | 0 <= i < |t|
      ensures t[i] == u[i]
    {
      assert Attempted(spec, initial, maxIterations, t, i) && Attempted(spec, initial, maxIterations, u, i);
      IsAnswerUnique(OnOrder(spec, t[i].order), initial, maxIterations, t[i].answer, u[i].answer);
    }
  }

  /** The sizes of pipeline that are tried, from the smallest; the full fleet only, unless subsets are searched. */
  function SmallestSize(spec: ClusterSpec, subsetSearch: bool): nat {
    if subsetSearch then 2 else |spec.devices|
  }

  function SearchedOrders(spec: ClusterSpec, subsetSearch: bool): seq<seq<DeviceProfile>> {
    OrdersOfSizes(spec.devices, SmallestSize(spec, subsetSearch), |spec.devices| + 1)
  }

  /** The attempts follow the given list of pipelines. */
  ghost predicate Follow(tried: seq<Attempt>, orders: seq<seq<DeviceProfile>>) {
    |tried| == |orders| && forall i :: 0 <= i < |tried| ==> tried[i].order == orders[i]
  }

  /** A complete search: its attempts, and the retained candidate's answer. */
  ghost predicate IsSearch(spec: ClusterSpec, subsetSearch: bool, initial: Option<Placement>, maxIterations: nat,
      tried: seq<Attempt>, r: Result<AlternatingResult, SolveError>)
    requires Searchable(spec)
  {
    && Attempts(spec, initial, maxIterations, tried) && Follow(tried, SearchedOrders(spec, subsetSearch))
    && r == OutcomeOf(spec, tried)
  }

  /** An attempt ended in the one error that the search does not catch. */
  ghost predicate Aborted(tried: seq<Attempt>) {
    exists i :: 0 <= i < |tried| && tried[i].answer == Failure(IndexError)
  }

  /** The retained candidate's answer, or the error. */
  ghost function OutcomeOf(spec: ClusterSpec, tried: seq<Attempt>): Result<AlternatingResult, SolveError> {
    match Retained(Candidates(spec, tried))
    case None => Failure(if Aborted(tried) then IndexError else NoFeasibleSolution)
    case Some(c) => Success(c.result)
  }

  /** That error needs an empty fleet, tried as a whole. */
  lemma {:induction false} AbortsOnEmptyFleet(spec: ClusterSpec, subsetSearch: bool, initial: Option<Placement>,
      maxIterations: nat, tried: seq<Attempt>)
    requires Searchable(spec) && Attempts(spec, initial, maxIterations, tried)
    requires Follow(tried, SearchedOrders(spec, subsetSearch))
    ensures Aborted(tried) <==> spec.devices == [] && !subsetSearch && maxIterations > 0
    ensures Aborted(tried) ==> Candidates(spec, tried) == []
  {
    hide IsAnswer, CandidateOf, SearchedOrders;
    NoCandidates(spec, tried);
    if spec.devices == [] {
      EmptyFleetOrders(spec, subsetSearch);
      if tried != [] {
        assert Attempted(spec, initial, maxIterations, tried, 0);
        WithoutDevice(OnOrder(spec, tried[0].order), initial, maxIterations, tried[0].answer);
      }
    } else {
      forall i | 0 <= i < |tried|
        ensures tried[i].answer != Failure(IndexError)
      {
        assert Attempted(spec, initial, maxIterations, tried, i);
        EveryPipelineIsTried(spec, subsetSearch, tried, tried[i].order);
        NeverWithoutDevice(OnOrder(spec, tried[i].order), initial, maxIterations, tried[i].answer);
      }
    }
  }

  lemma EmptyFleetOrders(spec: ClusterSpec, subsetSearch: bool)
    requires spec.devices == []
    ensures SearchedOrders(spec, subsetSearch) == if subsetSearch then [] else [[]]
  {
    if !subsetSearch {
      assert Combinations<DeviceProfile>([], 0) == [[]] && Permutations<DeviceProfile>([]) == [[]];
      assert OrdersOf([[]], 1) == OrdersOf([[]], 0) + Permutations<DeviceProfile>([]);
    }
  }

  lemma WithoutDevice(spec: ClusterSpec, initial: Option<Placement>, maxIterations: nat,
      r: Result<AlternatingResult, SolveError>)
    requires Searchable(spec) && spec.devices == [] && IsAnswer(spec, initial, maxIterations, r)
    ensures r == Failure(ErrorWithoutDevices(maxIterations))
  {}

  /** With a device there is a first device. */
  lemma NeverWithoutDevice(spec: ClusterSpec, initial: Option<Placement>, maxIterations: nat,
      r: Result<AlternatingResult, SolveError>)
    requires Searchable(spec) && spec.devices != [] && IsAnswer(spec, initial, maxIterations, r)
    ensures r != Failure(IndexError)
  {}

  /** The search has one outcome: its attempts and its answer are determined by its inputs. */
  lemma SearchIsUnique(spec: ClusterSpec, subsetSearch: bool, initial: Option<Placement>, maxIterations: nat,
      t: seq<Attempt>, u: seq<Attempt>, r: Result<AlternatingResult, SolveError>,
      q: Result<AlternatingResult, SolveError>)
    requires Searchable(spec) && IsSearch(spec, subsetSearch, initial, maxIterations, t, r)
    requires IsSearch(spec, subsetSearch, initial, maxIterations, u, q)
    ensures t == u && r == q
  {
    AttemptsAgree(spec, initial, maxIterations, t, u);
  }

  // ---------- what the search promises ----------

  /** The pipelines tried are exactly those of distinct devices whose number is admitted. */
  lemma EveryPipelineIsTried(spec: ClusterSpec, subsetSearch: bool, tried: seq<Attempt>, o: seq<DeviceProfile>)
    requires Searchable(spec) && Follow(tried, SearchedOrders(spec, subsetSearch))
    ensures (exists i :: 0 <= i < |tried| && tried[i].order == o) <==>
      IsOrder(spec.devices, o) && SmallestSize(spec, subsetSearch) <= |o| <= |spec.devices|
  {
    assert NoRepeats(spec.devices);
    SearchSpace(spec.devices, SmallestSize(spec, subsetSearch), |spec.devices| + 1, o);
    var orders := SearchedOrders(spec, subsetSearch);
    assert forall i :: 0 <= i < |tried| ==> tried[i].order == orders[i];
    if o in orders {
      var i :| 0 <= i < |orders| && orders[i] == o;
      assert tried[i].order == o;
    }
  }

  /**
   The search fails exactly when every attempt failed; otherwise it returns an attempt's
   answer whose rank no attempt undercuts by more than the drift the tolerance allows.
   */
  lemma SearchBound(spec: ClusterSpec, tried: seq<Attempt>)
    ensures var r := OutcomeOf(spec, tried);
      && (r.Failure? <==> forall i :: 0 <= i < |tried| ==> tried[i].answer.Failure?)
      && (r.Success? ==> (exists b :: 0 <= b < |tried| && tried[b].answer == r &&
                                      WithinDrift(spec, tried, Charged(spec, tried[b].order, r.value))))
  {
    NoCandidates(spec, tried);
    if Candidates(spec, tried) != [] {
      var best := Retained(Candidates(spec, tried)).value;
      CandidateWasTried(spec, tried, best);
      var b :| 0 <= b < |tried| && CandidateOf(spec, tried[b]) == Some(best);
      RetainedIsWithin(spec, tried, best);
      assert tried[b].answer == Success(best.result) && best.rank == Charged(spec, tried[b].order, best.result);
    }
  }

  lemma {:induction false} NoCandidates(spec: ClusterSpec, tried: seq<Attempt>)
    ensures Candidates(spec, tried) == [] <==> forall i :: 0 <= i < |tried| ==> tried[i].answer.Failure?
  {
    if tried != [] {
      NoCandidates(spec, tried[..|tried| - 1]);
    }
  }

  /** No attempt ranks below the given rank by more than a nanosecond for each further candidate. */
  ghost predicate WithinDrift(spec: ClusterSpec, tried: seq<Attempt>, rank: real) {
    forall i :: 0 <= i < |tried| && tried[i].answer.Success? ==>
      rank <= Charged(spec, tried[i].order, tried[i].answer.value) +
        (|Candidates(spec, tried)| - 1) as real * 0.000000001
  }

  lemma {:induction false} RetainedIsWithin(spec: ClusterSpec, tried: seq<Attempt>, best: Candidate)
    requires Retained(Candidates(spec, tried)) == Some(best)
    ensures WithinDrift(spec, tried, best.rank)
  {
    var cs := Candidates(spec, tried);
    forall i | 0 <= i < |tried| && tried[i].answer.Success?
      ensures best.rank <= Charged(spec, tried[i].order, tried[i].answer.value) + (|cs| - 1) as real * TOLERANCE
    {
      var c := CandidateOf(spec, tried[i]).value;
      CandidateWasTried(spec, tried, c);
      var k :| 0 <= k < |cs| && cs[k] == c;
      DriftBound(cs, k);
    }
  }

  /**
   A fleet of one device: searching subsets tries nothing and always fails, since the smallest
   subset has two devices; searching only the full fleet answers as the alternation does.
   */
  lemma LoneDevice(spec: ClusterSpec, initial: Option<Placement>, maxIterations: nat, t: seq<Attempt>, u: seq<Attempt>,
      subsets: Result<AlternatingResult, SolveError>, full: Result<AlternatingResult, SolveError>)
    requires Searchable(spec) && |spec.devices| == 1
    requires IsSearch(spec, true, initial, maxIterations, t, subsets)
    requires IsSearch(spec, false, initial, maxIterations, u, full)
    ensures subsets == Failure(NoFeasibleSolution) && t == []
    ensures full.Success? ==> IsAnswer(spec, initial, maxIterations, full)
    ensures full.Failure? ==> exists e :: IsAnswer(spec, initial, maxIterations, Failure(e))
  {
    assert spec.devices == [spec.devices[0]];
    EveryPipelineIsTried(spec, false, u, spec.devices);
    var k :| 0 <= k < |u| && u[k].order == spec.devices;
    SearchBound(spec, u);
    var b := k;
    if full.Success? {
      b :| 0 <= b < |u| && u[b].answer == full;
    }
    assert Attempted(spec, initial, maxIterations, u, b);
    EveryPipelineIsTried(spec, false, u, u[b].order);
    assert u[b].order[0] in spec.devices;
    assert u[b].order == spec.devices && OnOrder(spec, spec.devices) == spec;
  }

  // ---------- which ranks are true ----------

  /** An answer that converged reports its true sum; a fallback reports zero. */
  lemma ReportedSum(spec: ClusterSpec, initial: Option<Placement>, maxIterations: nat, a: AlternatingResult, sum: real)
    requires Searchable(spec) && spec.devices != [] && IsAnswer(spec, initial, maxIterations, Success(a))
    requires HasTimes(spec, a.placement, sum, a.maxStageTime)
    ensures a.sumStageTime == if a.converged then sum else 0.0
  {
    var seed := SeedOf(spec, FirstPlacement(spec, initial));
    var trace :| Answered(spec, seed, trace, maxIterations, Success(a));
    if a.converged {
      assert Derived(spec, seed, trace, |trace| - 1);
      TimesAreUnique(spec, a.placement, a.sumStageTime, a.maxStageTime, sum, a.maxStageTime);
    }
  }

  lemma RankMoves(spec: ClusterSpec, s: real, t: real, max: real)
    ensures RankIt(spec, s, max) == RankIt(spec, t, max) <==> spec.objective.Throughput? || s == t
  {}

  /**
   An answer is ranked by its true times if and only if it converged, only the slowest stage
   counts, or its sum is zero.
   */
  lemma RankIsTrueIff(spec: ClusterSpec, initial: Option<Placement>, maxIterations: nat, a: AlternatingResult,
      sum: real)
    requires Searchable(spec) && spec.devices != [] && IsAnswer(spec, initial, maxIterations, Success(a))
    requires HasTimes(spec, a.placement, sum, a.maxStageTime)
    ensures RankIt(spec, a.sumStageTime, a.maxStageTime) == RankIt(spec, sum, a.maxStageTime)
      <==> a.converged || spec.objective.Throughput? || sum == 0.0
  {
    ReportedSum(spec, initial, maxIterations, a, sum);
    RankMoves(spec, a.sumStageTime, sum, a.maxStageTime);
  }

  /**
   In latency mode without a stage penalty an attempt that fell back, whatever its true sum,
   beats every attempt that converged on a true sum above the tolerance.
   */
  lemma FallbackBeatsConverged(spec: ClusterSpec, initial: Option<Placement>, maxIterations: nat, tried: seq<Attempt>,
      f: nat, c: nat, fallbackSum: real, convergedSum: real)
    requires Searchable(spec) && spec.objective.Latency? && spec.stagePenalty == 0.0
    requires Attempts(spec, initial, maxIterations, tried) && f < |tried| && c < |tried|
    requires tried[f].order != [] && tried[f].answer.Success? && !tried[f].answer.value.converged
    requires tried[c].order != [] && tried[c].answer.Success? && tried[c].answer.value.converged
    requires HasTrueSum(spec, tried[f], fallbackSum) && HasTrueSum(spec, tried[c], convergedSum)
    requires convergedSum > TOLERANCE
    ensures var fallback, converged := CandidateOf(spec, tried[f]).value, CandidateOf(spec, tried[c]).value;
      Beats(fallback, Some(converged)) && !Beats(converged, Some(fallback))
  {
    hide HasTimes;
    assert Attempted(spec, initial, maxIterations, tried, f) && Attempted(spec, initial, maxIterations, tried, c);
    ReportedSum(OnOrder(spec, tried[f].order), initial, maxIterations, tried[f].answer.value, fallbackSum);
    ReportedSum(OnOrder(spec, tried[c].order), initial, maxIterations, tried[c].answer.value, convergedSum);
  }

  /** The true sum of stage times of an attempt's answer, on the pipeline it was made for. */
  ghost predicate HasTrueSum(spec: ClusterSpec, t: Attempt, sum: real) {
    t.answer.Success? &&
    HasTimes(spec.(devices := t.order), t.answer.value.placement, sum, t.answer.value.maxStageTime)
  }

  // ---------- the search ----------

  ghost predicate AllOrders(devices: seq<DeviceProfile>, orders: seq<seq<DeviceProfile>>) {
    forall o {:trigger IsOrder(devices, o)} :: o in orders ==> IsOrder(devices, o)
  }

  lemma {:induction false} SubsetOrders(devices: seq<DeviceProfile>, k: nat, i: nat)
    requires DistinctIds(devices) && i < |Combinations(devices, k)|
    ensures AllOrders(devices, Permutations(Combinations(devices, k)[i]))
  {
    var c := Combinations(devices, k)[i];
    assert NoRepeats(devices);
    CombinationIsPart(devices, k, c);
    forall o | o in Permutations(c)
      ensures IsOrder(devices, o)
    {
      PermutationsSound(c, o);
      SameElements(c, o);
    }
  }

  lemma NextSubset<T>(done: seq<seq<T>>, subsets: seq<seq<T>>, i: nat)
    requires i < |subsets|
    ensures done + OrdersOf(subsets, i) + Permutations(subsets[i]) == done + OrdersOf(subsets, i + 1)
  {}

  lemma NextSize<T>(s: seq<T>, lo: nat, k: nat)
    requires lo <= k
    ensures OrdersOfSizes(s, lo, k + 1) == OrdersOfSizes(s, lo, k) + OrdersOf(Combinations(s, k), |Combinations(s, k)|)
  {}

  lemma {:induction false} NoSizes<T>(s: seq<T>, lo: nat, hi: nat)
    ensures hi <= lo ==> OrdersOfSizes(s, lo, hi) == []
  {}

  lemma FollowMore(tried: seq<Attempt>, done: seq<seq<DeviceProfile>>, orders: seq<seq<DeviceProfile>>, i: nat,
      answer: Result<AlternatingResult, SolveError>)
    requires i < |orders| && Follow(tried, done + orders[..i])
    ensures Follow(tried + [Attempt(orders[i], answer)], done + orders[..i + 1])
  {}

  lemma FollowEnds<T>(done: seq<T>, orders: seq<T>)
    ensures done + orders[..0] == done && done + orders[..|orders|] == done + orders
  {}

  lemma {:induction false} OneMoreCandidate(spec: ClusterSpec, tried: seq<Attempt>, t: Attempt)
    ensures var before, c := Retained(Candidates(spec, tried)), CandidateOf(spec, t);
      Retained(Candidates(spec, tried + [t])) == if c.Some? && Beats(c.value, before) then c else before
  {
    assert (tried + [t])[..|tried|] == tried;
    var cs, c := Candidates(spec, tried), CandidateOf(spec, t);
    if c.Some? {
      assert (cs + [c.value])[..|cs|] == cs;
    }
  }

  method SolveOn(ghost whole: ClusterSpec, ghost tried: seq<Attempt>, ghost order: seq<DeviceProfile>,
      spec: ClusterSpec,
      initial: Option<Placement>, maxIterations: nat) returns (solved: Result<AlternatingResult, SolveError>)
    requires Searchable(whole) && IsOrder(whole.devices, order) && spec == whole.(devices := order)
    requires initial.Some? ==> Ranged(initial.value, whole.layers)
    requires Attempts(whole, initial, maxIterations, tried)
    ensures Attempts(whole, initial, maxIterations, tried + [Attempt(order, solved)])
  {
    OrderKeepsIds(whole.devices, order);
    solved := SolveAlternating(spec, initial, maxIterations);
    assert spec == OnOrder(whole, order);
    OneMoreAttempt(whole, initial, maxIterations, tried, Attempt(order, solved));
  }

  /** The solver and the specification it works on, which the search swaps for every candidate and puts back. */
  class Scheduler {
    var spec: ClusterSpec

    constructor (spec: ClusterSpec)
      ensures this.spec == spec
    {
      this.spec := spec;
    }

    /** All but the devices is as given, and those are the last ones tried. */
    ghost predicate Swapped(whole: ClusterSpec, tried: seq<Attempt>)
      reads this
    {
      && spec.(devices := whole.devices) == whole
      && spec.devices == if tried == [] then whole.devices else tried[|tried| - 1].order
    }

    /** One candidate: solve it on its own devices, and keep its answer if it beats the best so far. */
    method TryOrder(ghost whole: ClusterSpec, ghost tried: seq<Attempt>, devices: seq<DeviceProfile>,
        order: seq<DeviceProfile>, initial: Option<Placement>, maxIterations: nat, best: Option<Candidate>)
      returns (next: Option<Candidate>, ghost answer: Result<AlternatingResult, SolveError>)
      requires Searchable(whole) && IsOrder(whole.devices, order)
      requires Swapped(whole, tried) && devices == whole.devices
      requires initial.Some? ==> Ranged(initial.value, whole.layers)
      requires Attempts(whole, initial, maxIterations, tried) && best == Retained(Candidates(whole, tried))
      modifies this
      ensures Swapped(whole, tried + [Attempt(order, answer)])
      ensures Attempts(whole, initial, maxIterations, tried + [Attempt(order, answer)])
      ensures next == Retained(Candidates(whole, tried + [Attempt(order, answer)]))
    {
      spec := spec.(devices := order);
      var solved := SolveOn(whole, tried, order, spec, initial, maxIterations);
      answer := solved;
      OneMoreCandidate(whole, tried, Attempt(order, answer));
      var c := CandidateOf(spec.(devices := devices), Attempt(order, solved));
      next := if c.Some? && Beats(c.value, best) then c else best;
    }

    /** All orders of one subset. */
    method TryOrders(ghost whole: ClusterSpec, ghost tried: seq<Attempt>, ghost done: seq<seq<DeviceProfile>>,
        devices: seq<DeviceProfile>, orders: seq<seq<DeviceProfile>>, initial: Option<Placement>, maxIterations: nat,
        best: Option<Candidate>) returns (next: Option<Candidate>, ghost all: seq<Attempt>)
      requires Searchable(whole) && AllOrders(whole.devices, orders)
      requires Swapped(whole, tried) && devices == whole.devices
      requires initial.Some? ==> Ranged(initial.value, whole.layers)
      requires Attempts(whole, initial, maxIterations, tried) && best == Retained(Candidates(whole, tried))
      requires Follow(tried, done)
      modifies this
      ensures Swapped(whole, all) && Follow(all, done + orders)
      ensures Attempts(whole, initial, maxIterations, all) && next == Retained(Candidates(whole, all))
    {
      next, all := best, tried;
      FollowEnds(done, orders);
      for i := 0 to |orders|
        invariant Swapped(whole, all) && Follow(all, done + orders[..i])
        invariant Attempts(whole, initial, maxIterations, all) && next == Retained(Candidates(whole, all))
      {
        ghost var answer: Result<AlternatingResult, SolveError>;
        next, answer := TryOrder(whole, all, devices, orders[i], initial, maxIterations, next);
        FollowMore(all, done, orders, i, answer);
        all := all + [Attempt(orders[i], answer)];
      }
    }

    /** All subsets of one size. */
    method TrySubsets(ghost whole: ClusterSpec, ghost tried: seq<Attempt>, ghost done: seq<seq<DeviceProfile>>,
        devices: seq<DeviceProfile>, k: nat, initial: Option<Placement>, maxIterations: nat, best: Option<Candidate>)
      returns (next: Option<Candidate>, ghost all: seq<Attempt>)
      requires Searchable(whole) && Swapped(whole, tried) && devices == whole.devices
      requires initial.Some? ==> Ranged(initial.value, whole.layers)
      requires Attempts(whole, initial, maxIterations, tried) && best == Retained(Candidates(whole, tried))
      requires Follow(tried, done)
      modifies this
      ensures Swapped(whole, all)
      ensures Follow(all, done + OrdersOf(Combinations(devices, k), |Combinations(devices, k)|))
      ensures Attempts(whole, initial, maxIterations, all) && next == Retained(Candidates(whole, all))
    {
      next, all := best, tried;
      var subsets := Combinations(devices, k);
      for i := 0 to |subsets|
        invariant Swapped(whole, all) && Follow(all, done + OrdersOf(subsets, i))
        invariant Attempts(whole, initial, maxIterations, all) && next == Retained(Candidates(whole, all))
      {
        SubsetOrders(devices, k, i);
        NextSubset(done, subsets, i);
        var orders := Permutations(subsets[i]);
        next, all := TryOrders(whole, all, done + OrdersOf(subsets, i), devices, orders, initial, maxIterations, next);
      }
    }

    /** All sizes from the smallest to the whole fleet. */
    method TrySizes(ghost whole: ClusterSpec, devices: seq<DeviceProfile>, smallest: nat, initial: Option<Placement>,
        maxIterations: nat) returns (best: Option<Candidate>, ghost tried: seq<Attempt>)
      requires Searchable(whole) && spec == whole && devices == whole.devices
      requires initial.Some? ==> Ranged(initial.value, whole.layers)
      modifies this
      ensures Swapped(whole, tried) && Follow(tried, OrdersOfSizes(devices, smallest, |devices| + 1))
      ensures Attempts(whole, initial, maxIterations, tried) && best == Retained(Candidates(whole, tried))
    {
      hide Combinations, OrdersOf;
      best, tried := None, [];
      var k := smallest;
      NoSizes(devices, smallest, k);
      while k <= |devices|
        invariant smallest <= k <= |devices| + 1 || k == smallest
        invariant Swapped(whole, tried) && Follow(tried, OrdersOfSizes(devices, smallest, k))
        invariant Attempts(whole, initial, maxIterations, tried) && best == Retained(Candidates(whole, tried))
      {
        NextSize(devices, smallest, k);
        best, tried := TrySubsets(whole, tried, OrdersOfSizes(devices, smallest, k), devices, k, initial,
          maxIterations, best);
        k := k + 1;
      }
      NoSizes(devices, smallest, |devices| + 1);
    }

    /**
     Every admitted subset in every order, keeping the best answer; too large a fleet is solved
     in its given order. The specification is the same afterwards, whatever the outcome: the
     one error that leaves a swapped one behind needs an empty fleet, where it is the same.
     */
    method SolveAlternatingBestOrder(maxSearchDevices: nat, subsetSearch: bool, initial: Option<Placement>,
        maxIterations: nat)
      returns (r: Result<AlternatingResult, SolveError>, ghost tried: seq<Attempt>)
      requires Searchable(spec) && (initial.Some? ==> Ranged(initial.value, spec.layers))
      modifies this
      ensures spec == old(spec)
      ensures maxSearchDevices < |spec.devices| ==> IsAnswer(spec, initial, maxIterations, r)
      ensures maxSearchDevices >= |spec.devices| ==> IsSearch(spec, subsetSearch, initial, maxIterations, tried, r)
      ensures r.Success? && spec.objective.Throughput? ==> r.value.maxStageTime <= spec.tbtSlo
    {
      tried := [];
      if maxSearchDevices < |spec.devices| {
        r := SolveAlternating(spec, initial, maxIterations);
        return;
      }
      ghost var whole := spec;
      var devices := spec.devices;
      var best: Option<Candidate>;
      best, tried := TrySizes(whole, devices, SmallestSize(spec, subsetSearch), initial, maxIterations);
      AbortsOnEmptyFleet(whole, subsetSearch, initial, maxIterations, tried);
      if devices == [] && !subsetSearch && maxIterations > 0 {
        assert tried != [] && Attempted(whole, initial, maxIterations, tried, |tried| - 1);
        return Failure(IndexError), tried;
      }
      spec := spec.(devices := devices);
      r := if best.None? then Failure(NoFeasibleSolution) else Success(best.value.result);
      if r.Success? && spec.objective.Throughput? {
        SearchMeetsTarget(spec, subsetSearch, initial, maxIterations, tried, r);
      }
    }
  }
}
