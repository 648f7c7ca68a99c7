/** The cluster as the scheduler sees it, and costs that may be infinite. */
module Cluster {
  import opened Types

  // ---------- costs ----------

  datatype Cost = Finite(value: real) | Infinite

  function Plus(a: Cost, b: Cost): Cost {
    if a.Infinite? || b.Infinite? then Infinite else Finite(a.value + b.value)
  }

  /** Strictly less; nothing is less than itself, not even infinity. */
  predicate Below(a: Cost, b: Cost) {
    a.Finite? && (b.Infinite? || a.value < b.value)
  }

  function MaxOf(a: Cost, b: Cost): Cost {
    if Below(a, b) then b else a
  }

  // ---------- the specification ----------

  datatype DeviceProfile = DeviceProfile(id: DeviceId, totalMemory: nat, freeMemory: nat, throughput: real) {
    /** Reported free memory, or the total where none was reported. */
    function Budget(): nat {
      if freeMemory != 0 then freeMemory else totalMemory
    }
  }

  datatype LayerProfile = LayerProfile(memory: nat, computeTime: map<DeviceId, real>)

  type Link = (DeviceId, DeviceId)

  datatype Network = Network(bandwidth: map<Link, real>, latency: map<Link, real>)

  datatype Objective = Throughput | Latency | Blended(alpha: real)

  datatype ClusterSpec = ClusterSpec(
    devices: seq<DeviceProfile>,
    layers: seq<LayerProfile>,
    network: Network,
    tbtSlo: real,
    activationBytes: nat,
    eagerBackup: bool,
    backupPlacement: bool,
    backupHosts: seq<DeviceProfile>,
    objective: Objective,
    hopOverhead: real,
    targetConcurrency: int,
    threadPool: int,
    stagePenalty: real)

  // ---------- layer ranges ----------

  predicate InRange(layers: seq<LayerProfile>, start: nat, end: nat) {
    1 <= start <= end <= |layers|
  }

  /** The bytes of layers start..end, 1-based and inclusive; none if start > end. */
  function LayerBytes(layers: seq<LayerProfile>, start: nat, end: nat): nat
    requires 1 <= start && end <= |layers|
    decreases end
  {
    if end < start then 0 else LayerBytes(layers, start, end - 1) + layers[end - 1].memory
  }

  /** Each layer counts with its own size, whichever end the sum is taken from. */
  lemma {:induction false} FirstLayerBytes(layers: seq<LayerProfile>, start: nat, end: nat)
    requires 1 <= start && end <= |layers|
    ensures LayerBytes(layers, start, end) ==
      if start <= end then layers[start - 1].memory + LayerBytes(layers, start + 1, end) else 0
    decreases end
  {
    if start < end {
      FirstLayerBytes(layers, start, end - 1);
    }
  }

  predicate Ranged(placement: Placement, layers: seq<LayerProfile>) {
    forall s :: s in placement ==> InRange(layers, s.start, s.end)
  }

  /** Stage i is non-empty, on device i, and starts where the previous one ended. */
  ghost predicate Continues(placement: Placement, devices: seq<DeviceProfile>, i: nat)
    requires i < |placement| == |devices|
  {
    && placement[i].device == devices[i].id && placement[i].start <= placement[i].end
    && placement[i].start == if i == 0 then 1 else placement[i - 1].end + 1
  }

  /** Consecutive layer ranges from 1 to L, stage i on device i. */
  ghost predicate Covers(placement: Placement, devices: seq<DeviceProfile>, L: nat) {
    && |placement| == |devices| > 0 && placement[|placement| - 1].end == L
    && forall i {:trigger Continues(placement, devices, i)} :: 0 <= i < |placement| ==> Continues(placement, devices, i)
  }
}

/** What a device must hold: its own stage, and with eager backups the stages it backs up. */
module MemoryCheck {
  import opened Wrappers
  import opened Types
  import opened Cluster

  datatype RangeError = InvalidRange(start: nat, end: nat)

  method StageSelfMemory(layers: seq<LayerProfile>, start: nat, end: nat) returns (r: Result<nat, RangeError>)
    ensures r.Failure? <==> !InRange(layers, start, end)
    ensures r.Success? ==> r.value == LayerBytes(layers, start, end)
  {
    if start < 1 || end > |layers| || start > end {
      return Failure(InvalidRange(start, end));
    }
    var total := 0;
    for i := start to end + 1
      invariant total == LayerBytes(layers, start, i - 1)
    {
      total := total + layers[i - 1].memory;
    }
    r := Success(total);
  }

  /** The bytes of all stages of the given devices. */
  function BytesOf(owners: set<DeviceId>, placement: Placement, layers: seq<LayerProfile>): nat
    requires Ranged(placement, layers)
  {
    if placement == [] then 0
    else
      BytesOf(owners, placement[..|placement| - 1], layers) +
      var s := placement[|placement| - 1]; if s.device in owners then LayerBytes(layers, s.start, s.end) else 0
  }

  function Sources(node: DeviceId, recovery: RecoveryTable): set<DeviceId> {
    set j | j in recovery && recovery[j] == node
  }

  /** What `node` reserves: the stages of every device it backs up. */
  function BackupBurden(node: DeviceId, recovery: RecoveryTable, placement: Placement, layers: seq<LayerProfile>): nat
    requires Ranged(placement, layers)
  {
    BytesOf(Sources(node, recovery), placement, layers)
  }

  lemma {:induction false} BytesOfOneMore(owners: set<DeviceId>, d: DeviceId, placement: Placement,
      layers: seq<LayerProfile>)
    requires Ranged(placement, layers) && d !in owners
    ensures BytesOf(owners + {d}, placement, layers) ==
      BytesOf(owners, placement, layers) + BytesOf({d}, placement, layers)
  {
    if placement != [] {
      BytesOfOneMore(owners, d, placement[..|placement| - 1], layers);
    }
  }

  lemma {:induction false} BytesOfNobody(placement: Placement, layers: seq<LayerProfile>)
    requires Ranged(placement, layers)
    ensures BytesOf({}, placement, layers) == 0
  {
    if placement != [] {
      BytesOfNobody(placement[..|placement| - 1], layers);
    }
  }

  method BackupMemoryFor(node: DeviceId, recovery: RecoveryTable, placement: Placement, layers: seq<LayerProfile>)
    returns (total: nat)
    requires Ranged(placement, layers)
    ensures total == BackupBurden(node, recovery, placement, layers)
  {
    var sources := set j | j in recovery && recovery[j] == node;
    BytesOfNobody(placement, layers);
    total := 0;
    var rest := sources;
    assert sources - rest == {};
    while rest != {}
      invariant rest <= sources
      invariant total == BytesOf(sources - rest, placement, layers)
      decreases rest
    {
      var j :| j in rest;
      assert sources - (rest - {j}) == (sources - rest) + {j};
      BytesOfOneMore(sources - rest, j, placement, layers);
      var own := 0;
      assert placement[..0] == [];
      for i := 0 to |placement|
        invariant own == BytesOf({j}, placement[..i], layers)
      {
        assert placement[..i + 1][..i] == placement[..i];
        if placement[i].device == j {
          var bytes := StageSelfMemory(layers, placement[i].start, placement[i].end);
          own := own + bytes.value;
        }
      }
      assert placement[..|placement|] == placement;
      total := total + own;
      rest := rest - {j};
    }
    assert sources - {} == sources;
  }

  /** The range fits on the device together with what it must reserve. */
  predicate Fits(node: DeviceProfile, start: nat, end: nat, recovery: RecoveryTable, placement: Placement,
      layers: seq<LayerProfile>, eager: bool)
    requires InRange(layers, start, end) && Ranged(placement, layers)
  {
    LayerBytes(layers, start, end) + (if eager then BackupBurden(node.id, recovery, placement, layers) else 0)
      <= node.Budget()
  }

  method CheckMemory(node: DeviceProfile, start: nat, end: nat, recovery: RecoveryTable, placement: Placement,
      layers: seq<LayerProfile>, eager: bool) returns (r: Result<bool, RangeError>)
    requires Ranged(placement, layers)
    ensures r.Failure? <==> !InRange(layers, start, end)
    ensures r.Success? ==> (r.value <==> Fits(node, start, end, recovery, placement, layers, eager))
  {
    var own := StageSelfMemory(layers, start, end);
    if own.Failure? {
      return Failure(own.error);
    }
    if !eager {
      return Success(own.value <= node.Budget());
    }
    var backup := BackupMemoryFor(node.id, recovery, placement, layers);
    r := Success(own.value + backup <= node.Budget());
  }
}
