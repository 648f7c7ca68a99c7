/** What the scheduler's costs are made of, in the quantities of the cluster themselves. */
module CostModel {
  import opened Types
  import opened Cluster
  import opened RecoveryTables
  import opened Scheduling

  // ---------- moving bytes ----------

  function LatencyOf(net: Network, src: DeviceId, dst: DeviceId): real {
    if (src, dst) in net.latency then net.latency[(src, dst)] else 0.0
  }

  /** The link can be used, and what is left of the time after its latency moves the bytes. */
  predicate Crosses(net: Network, bytes: nat, src: DeviceId, dst: DeviceId, time: real) {
    && (src, dst) in net.bandwidth && net.bandwidth[(src, dst)] > 0.0
    && (time - LatencyOf(net, src, dst)) * net.bandwidth[(src, dst)] == bytes as real
  }

  /** A download runs from the device that holds the stage to the one that is to take it over. */
  lemma DownloadCrosses(net: Network, bytes: nat, dst: DeviceId, src: DeviceId, time: real)
    ensures EstimateDownloadTime(net, bytes, dst, src) == Finite(time) <==> Crosses(net, bytes, src, dst, time)
  {
    if (src, dst) in net.bandwidth && net.bandwidth[(src, dst)] > 0.0 {
      Quotient(bytes as real, net.bandwidth[(src, dst)], time - LatencyOf(net, src, dst));
    }
  }

  /** A hop moves one activation, and takes its overhead on top. */
  lemma HopCrosses(spec: ClusterSpec, src: DeviceId, dst: DeviceId, wire: real)
    ensures CommTime(spec, src, dst) == Finite(wire + spec.hopOverhead) <==>
      Crosses(spec.network, spec.activationBytes, src, dst, wire)
  {
    if (src, dst) in spec.network.bandwidth && spec.network.bandwidth[(src, dst)] > 0.0 {
      Quotient(spec.activationBytes as real, spec.network.bandwidth[(src, dst)],
        wire - LatencyOf(spec.network, src, dst));
    }
  }

  lemma Quotient(a: real, b: real, q: real)
    requires b > 0.0
    ensures a / b == q <==> q * b == a
  {}

  // ---------- running layers ----------

  /** The device runs the layers one after the other, each in the time it was measured to need, and then is done. */
  predicate Executes(layers: seq<LayerProfile>, start: nat, end: nat, device: DeviceId, time: real)
    requires 1 <= start && end <= |layers|
    decreases end + 1 - start
  {
    if start > end then time == 0.0
    else
      && device in layers[start - 1].computeTime
      && Executes(layers, start + 1, end, device, time - layers[start - 1].computeTime[device])
  }

  lemma {:induction false} FirstLayerApart(layers: seq<LayerProfile>, start: nat, end: nat, device: DeviceId)
    requires 1 <= start <= end <= |layers|
    ensures ComputeTime(layers, start, end, device) ==
      Plus(ComputeTime(layers, start, start, device), ComputeTime(layers, start + 1, end, device))
    decreases end
  {
    if start < end {
      FirstLayerApart(layers, start, end - 1, device);
    }
  }

  lemma {:induction false} WorkExecutes(layers: seq<LayerProfile>, start: nat, end: nat, device: DeviceId, time: real)
    requires 1 <= start && end <= |layers|
    ensures ComputeTime(layers, start, end, device) == Finite(time) <==> Executes(layers, start, end, device, time)
    decreases end + 1 - start
  {
    if start <= end {
      FirstLayerApart(layers, start, end, device);
      var t := layers[start - 1].computeTime;
      assert ComputeTime(layers, start, start - 1, device) == Finite(0.0);
      if device in t {
        WorkExecutes(layers, start + 1, end, device, time - t[device]);
      }
    }
  }

  // ---------- sharing the workers' threads ----------

  /** Slowed down by this factor, the threads keep up with every stage of every concurrent request. */
  predicate KeepsUp(spec: ClusterSpec, factor: real) {
    && factor >= 1.0
    && (spec.targetConcurrency > 1 && spec.threadPool > 0 ==>
        factor * spec.threadPool as real >= (spec.targetConcurrency * |spec.devices|) as real)
  }

  /** Stages are slowed down by the least such factor. */
  lemma LeastSlowdown(spec: ClusterSpec)
    ensures KeepsUp(spec, Interference(spec))
    ensures forall f :: KeepsUp(spec, f) ==> Interference(spec) <= f
  {
    if spec.targetConcurrency > 1 && spec.threadPool > 0 {
      var calls, pool := (spec.targetConcurrency * |spec.devices|) as real, spec.threadPool as real;
      NoCalls(spec.targetConcurrency, |spec.devices|);
      AtLeastQuotient(calls, pool, Interference(spec));
      forall f | KeepsUp(spec, f)
        ensures Interference(spec) <= f
      {
        AtLeastQuotient(calls, pool, f);
      }
    }
  }

  lemma AtLeastQuotient(a: real, b: real, f: real)
    requires b > 0.0
    ensures f * b >= a <==> f >= a / b
  {
    var q := a / b;
    Quotient(a, b, q);
    assert f * b - q * b == (f - q) * b;
  }

  lemma NoCalls(concurrency: int, devices: nat)
    ensures devices == 0 ==> concurrency * devices == 0
  {}

  // ---------- a stage ----------

  /** Device i runs layers l+1..y in this time, were it not for the others. */
  predicate Works(spec: ClusterSpec, i: nat, l: nat, y: nat, time: real)
    requires i < |spec.devices| && y <= |spec.layers|
  {
    Executes(spec.layers, l + 1, y, spec.devices[i].id, time)
  }

  /** Device i has its input this long after the device before it is done; the first one has it at once. */
  predicate Arrives(spec: ClusterSpec, i: nat, time: real)
    requires i < |spec.devices|
  {
    if i == 0 then time == 0.0
    else
      Crosses(spec.network, spec.activationBytes, spec.devices[i - 1].id, spec.devices[i].id, time - spec.hopOverhead)
  }

  function Slowed(spec: ClusterSpec, work: real): real {
    work * Interference(spec)
  }

  /** Device i runs layers l+1..y, slowed down by the shared threads, after its input has reached it. */
  ghost predicate StageTakes(spec: ClusterSpec, i: nat, l: nat, y: nat, time: real)
    requires i < |spec.devices| && y <= |spec.layers|
  {
    exists work :: Works(spec, i, l, y, work) && Arrives(spec, i, time - Slowed(spec, work))
  }

  lemma CostIsTime(spec: ClusterSpec, i: nat, l: nat, y: nat, time: real)
    requires i < |spec.devices| && y <= |spec.layers|
    ensures StageCost(spec, i + 1, l, y) == Finite(time) <==> StageTakes(spec, i, l, y, time)
  {
    hide ComputeTime, Executes, Interference, CommTime, Crosses;
    var base := ComputeTime(spec.layers, l + 1, y, spec.devices[i].id);
    forall work
      ensures Works(spec, i, l, y, work) <==> base == Finite(work)
    {
      WorkExecutes(spec.layers, l + 1, y, spec.devices[i].id, work);
    }
    if base.Finite? {
      var slowed := Slowed(spec, base.value);
      assert StageTime(spec, spec.devices[i].id, l + 1, y) == Finite(slowed);
      if i > 0 {
        HopCrosses(spec, spec.devices[i - 1].id, spec.devices[i].id, time - slowed - spec.hopOverhead);
      }
      assert StageCost(spec, i + 1, l, y) == Finite(time) <==> Arrives(spec, i, time - slowed);
      assert Works(spec, i, l, y, base.value);
    } else {
      assert StageTime(spec, spec.devices[i].id, l + 1, y) == Infinite;
    }
  }

  // ---------- a placement ----------

  ghost function TotalOf(times: seq<real>): real {
    if times == [] then 0.0 else TotalOf(times[..|times| - 1]) + times[|times| - 1]
  }

  ghost predicate TimedStage(spec: ClusterSpec, s: Stage, i: nat, time: real)
    requires i < |spec.devices|
  {
    InRange(spec.layers, s.start, s.end) && StageTakes(spec, i, s.start - 1, s.end, time)
  }

  /** Stage i of the placement takes times[i]. */
  ghost predicate Timed(spec: ClusterSpec, psi: Placement, times: seq<real>) {
    && |times| == |psi| == |spec.devices|
    && forall i :: 0 <= i < |times| ==> TimedStage(spec, psi[i], i, times[i])
  }

  /** The stages' times add up to the sum, and the slowest of them takes the maximum. */
  ghost predicate HasTimes(spec: ClusterSpec, psi: Placement, sum: real, max: real) {
    exists times :: Timed(spec, psi, times) && TotalOf(times) == sum && max in times &&
      forall i :: 0 <= i < |times| ==> times[i] <= max
  }

  lemma {:induction false} PrefixTimes(spec: ClusterSpec, ends: seq<nat>, n: nat) returns (times: seq<real>)
    requires 1 <= n && Bounded(spec, ends, n) && SumOf(spec, ends, n).Finite?
    ensures |times| == n && MaxCost(spec, ends, n).Finite? && TotalOf(times) == SumOf(spec, ends, n).value
    ensures MaxCost(spec, ends, n).value in times
    ensures forall i :: 0 <= i < n ==>
      times[i] <= MaxCost(spec, ends, n).value && StageCost(spec, i + 1, StartOf(ends, i), ends[i]) == Finite(times[i])
    decreases n
  {
    var last := StageCost(spec, n, StartOf(ends, n - 1), ends[n - 1]);
    if n == 1 {
      times := [last.value];
      assert TotalOf([]) == 0.0;
    } else {
      var before := PrefixTimes(spec, ends, n - 1);
      times := before + [last.value];
      assert times[..n - 1] == before && times[n - 1] == last.value;
    }
  }

  /** A placement takes one sum and one maximum. */
  lemma TimesAreUnique(spec: ClusterSpec, psi: Placement, s: real, m: real, s': real, m': real)
    requires HasTimes(spec, psi, s, m) && HasTimes(spec, psi, s', m')
    ensures s == s' && m == m'
  {
    hide StageTakes;
    var t :| Timed(spec, psi, t) && TotalOf(t) == s && m in t && forall i :: 0 <= i < |t| ==> t[i] <= m;
    var u :| Timed(spec, psi, u) && TotalOf(u) == s' && m' in u && forall i :: 0 <= i < |u| ==> u[i] <= m';
    forall i | 0 <= i < |t|
      ensures t[i] == u[i]
    {
      assert TimedStage(spec, psi[i], i, t[i]) && TimedStage(spec, psi[i], i, u[i]);
      CostIsTime(spec, i, psi[i].start - 1, psi[i].end, t[i]);
      CostIsTime(spec, i, psi[i].start - 1, psi[i].end, u[i]);
    }
    assert t == u;
  }
}
