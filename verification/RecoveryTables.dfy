/** The greedy choice of a backup host for every stage owner. */
module RecoveryTables {
  import opened Wrappers
  import opened Types
  import opened Cluster
  import opened MemoryCheck
  import opened ExecutionPlans

  datatype TableError = NoBackup(device: DeviceId)

  // ---------- cost estimates ----------

  function EstimateDownloadTime(net: Network, bytes: nat, dst: DeviceId, src: DeviceId): Cost {
    var lat := if (src, dst) in net.latency then net.latency[(src, dst)] else 0.0;
    if (src, dst) !in net.bandwidth || net.bandwidth[(src, dst)] <= 0.0 then Infinite
    else Finite(bytes as real / net.bandwidth[(src, dst)] + lat)
  }

  /** The sum of the layers' times on a device; infinite if one is not measured. */
  function ComputeTime(layers: seq<LayerProfile>, start: nat, end: nat, device: DeviceId): Cost
    requires 1 <= start && end <= |layers|
    decreases end
  {
    if end < start then Finite(0.0)
    else
      var t := layers[end - 1].computeTime;
      Plus(ComputeTime(layers, start, end - 1, device), if device in t then Finite(t[device]) else Infinite)
  }

  method EstimateRecomputeTime(layers: seq<LayerProfile>, start: nat, end: nat, device: DeviceId) returns (total: Cost)
    requires InRange(layers, start, end)
    ensures total == ComputeTime(layers, start, end, device)
  {
    var sum := 0.0;
    for i := start to end + 1
      invariant ComputeTime(layers, start, i - 1, device) == Finite(sum)
    {
      var t := layers[i - 1].computeTime;
      if device !in t {
        UnmeasuredStays(layers, start, i, end, device);
        return Infinite;
      }
      sum := sum + t[device];
    }
    total := Finite(sum);
  }

  lemma {:induction false} UnmeasuredStays(layers: seq<LayerProfile>, start: nat, mid: nat, end: nat, device: DeviceId)
    requires 1 <= start <= mid <= end <= |layers| && ComputeTime(layers, start, mid, device) == Infinite
    ensures ComputeTime(layers, start, end, device) == Infinite
    decreases end
  {
    if mid < end {
      UnmeasuredStays(layers, start, mid, end - 1, device);
    }
  }

  // ---------- the table as a function ----------

  /** Hosts by id: the configured ones, or else the pipeline's, followed by pipeline devices not among them. */
  function Hosts(spec: ClusterSpec): seq<DeviceProfile> {
    Distinct(spec.backupHosts + spec.devices)
  }

  function Ids(ds: seq<DeviceProfile>): set<DeviceId> {
    set d | d in ds :: d.id
  }

  /** The first profile of every id, in order. */
  function Distinct(ds: seq<DeviceProfile>): (hs: seq<DeviceProfile>)
    ensures Ids(hs) == Ids(ds)
    ensures forall i, j :: 0 <= i < j < |hs| ==> hs[i].id != hs[j].id
  {
    if ds == [] then []
    else
      var rest, d := Distinct(ds[..|ds| - 1]), ds[|ds| - 1];
      IdsAppend(ds[..|ds| - 1], d);
      IdsAppend(rest, d);
      KnownId(rest, d);
      assert ds == ds[..|ds| - 1] + [d];
      if d.id in Ids(rest) then rest else rest + [d]
  }

  lemma IdsAppend(ds: seq<DeviceProfile>, d: DeviceProfile)
    ensures Ids(ds + [d]) == Ids(ds) + {d.id}
  {
    assert d in ds + [d];
    forall x | x in Ids(ds)
      ensures x in Ids(ds + [d])
    {
      var e :| e in ds && e.id == x;
      assert e in ds + [d];
    }
  }

  lemma KnownId(ds: seq<DeviceProfile>, d: DeviceProfile)
    ensures d.id !in Ids(ds) ==> forall i :: 0 <= i < |ds| ==> ds[i].id != d.id
  {
    forall i | 0 <= i < |ds|
      ensures ds[i].id in Ids(ds)
    {
      assert ds[i] in ds;
    }
  }

  /** The stage of a device: the last one listed, as in a dictionary. */
  function StageOn(placement: Placement, d: DeviceId): Option<Stage> {
    if placement == [] then None
    else if placement[|placement| - 1].device == d then Some(placement[|placement| - 1])
    else StageOn(placement[..|placement| - 1], d)
  }

  lemma {:induction false} StageOnIn(placement: Placement, d: DeviceId)
    ensures StageOn(placement, d).Some? ==>
      StageOn(placement, d).value in placement && StageOn(placement, d).value.device == d
    ensures StageOn(placement, d).None? ==> forall s :: s in placement ==> s.device != d
  {
    if placement != [] {
      StageOnIn(placement[..|placement| - 1], d);
      assert placement == placement[..|placement| - 1] + [placement[|placement| - 1]];
    }
  }

  function SelfBytes(spec: ClusterSpec, placement: Placement, d: DeviceId): nat
    requires Ranged(placement, spec.layers)
  {
    StageOnIn(placement, d);
    match StageOn(placement, d)
    case Some(s) => LayerBytes(spec.layers, s.start, s.end)
    case None => 0
  }

  function Reserved(reserved: map<DeviceId, nat>, d: DeviceId): nat {
    if d in reserved then reserved[d] else 0
  }

  /** The host still has room for `bytes` beside its own stage and, with eager backups, what it already reserved. */
  predicate HasRoom(spec: ClusterSpec, placement: Placement, reserved: map<DeviceId, nat>, k: DeviceProfile, bytes: nat)
    requires Ranged(placement, spec.layers)
  {
    SelfBytes(spec, placement, k.id) + (if spec.eagerBackup then Reserved(reserved, k.id) else 0) + bytes <= k.Budget()
  }

  function BackupCost(spec: ClusterSpec, s: Stage, k: DeviceId): Cost
    requires InRange(spec.layers, s.start, s.end)
  {
    Plus(EstimateDownloadTime(spec.network, LayerBytes(spec.layers, s.start, s.end), k, s.device),
         ComputeTime(spec.layers, s.start, s.end, k))
  }

  predicate Candidate(spec: ClusterSpec, placement: Placement, reserved: map<DeviceId, nat>, s: Stage, k: DeviceProfile)
    requires Ranged(placement, spec.layers) && InRange(spec.layers, s.start, s.end)
  {
    k.id != s.device && HasRoom(spec, placement, reserved, k, LayerBytes(spec.layers, s.start, s.end))
  }

  function CostTo(spec: ClusterSpec, s: Stage, best: Option<DeviceId>): Cost
    requires InRange(spec.layers, s.start, s.end)
  {
    if best.Some? then BackupCost(spec, s, best.value) else Infinite
  }

  /** The cheapest of the first n hosts with room, the earliest among equals. */
  function BestHost(spec: ClusterSpec, placement: Placement, reserved: map<DeviceId, nat>, s: Stage,
      hosts: seq<DeviceProfile>, n: nat): Option<DeviceId>
    requires Ranged(placement, spec.layers) && InRange(spec.layers, s.start, s.end) && n <= |hosts|
  {
    if n == 0 then None
    else
      var best := BestHost(spec, placement, reserved, s, hosts, n - 1);
      var k := hosts[n - 1];
      if Candidate(spec, placement, reserved, s, k) && Below(BackupCost(spec, s, k.id), CostTo(spec, s, best))
      then Some(k.id) else best
  }

  /**
   What is chosen has room, is not the owner itself and costs the least, and less than any host
   before it; nothing is chosen only if nothing can be.
   */
  lemma {:induction false} BestHostIsBest(spec: ClusterSpec, placement: Placement, reserved: map<DeviceId, nat>,
      s: Stage, hosts: seq<DeviceProfile>, n: nat)
    requires Ranged(placement, spec.layers) && InRange(spec.layers, s.start, s.end) && n <= |hosts|
    ensures var best := BestHost(spec, placement, reserved, s, hosts, n);
      && (best.Some? ==>
          exists i :: (0 <= i < n && hosts[i].id == best.value && Candidate(spec, placement, reserved, s, hosts[i])
                                      && BackupCost(spec, s, hosts[i].id).Finite?
                                      && forall k :: 0 <= k < i && Candidate(spec, placement, reserved, s, hosts[k]) ==>
                                         Below(BackupCost(spec, s, hosts[i].id), BackupCost(spec, s, hosts[k].id))))
      && (forall i :: 0 <= i < n && Candidate(spec, placement, reserved, s, hosts[i]) ==>
          !Below(BackupCost(spec, s, hosts[i].id), CostTo(spec, s, best)))
  {
    if n > 0 {
      BestHostIsBest(spec, placement, reserved, s, hosts, n - 1);
    }
  }

  /** The table and the running reservations. */
  datatype Assignment = Assignment(table: RecoveryTable, reserved: map<DeviceId, nat>)

  /** The assignments of the first n devices. */
  function Assign(spec: ClusterSpec, placement: Placement, n: nat): Result<Assignment, TableError>
    requires Ranged(placement, spec.layers) && n <= |spec.devices|
  {
    if n == 0 then Success(Assignment(map[], map[]))
    else
      match Assign(spec, placement, n - 1)
      case Failure(e) => Failure(e)
      case Success(a) => AssignOne(spec, placement, a, spec.devices[n - 1].id)
  }

  function AssignOne(spec: ClusterSpec, placement: Placement, a: Assignment, j: DeviceId):
      Result<Assignment, TableError>
    requires Ranged(placement, spec.layers)
  {
    StageOnIn(placement, j);
    match StageOn(placement, j)
    case None => Success(a)
    case Some(s) =>
      var hosts := Hosts(spec);
      match BestHost(spec, placement, a.reserved, s, hosts, |hosts|)
      case None => Failure(NoBackup(j))
      case Some(k) =>
        Success(Assignment(a.table[j := k],
          a.reserved[k := Reserved(a.reserved, k) + LayerBytes(spec.layers, s.start, s.end)]))
  }

  function RecoveryTableOf(spec: ClusterSpec, placement: Placement): Result<RecoveryTable, TableError>
    requires Ranged(placement, spec.layers)
  {
    match Assign(spec, placement, |spec.devices|)
    case Failure(e) => Failure(e)
    case Success(a) => Success(a.table)
  }

  /** The service-level target plays no part in the table. */
  lemma {:induction false} TableIgnoresTarget(spec: ClusterSpec, slo: real, placement: Placement)
    requires Ranged(placement, spec.layers)
    ensures RecoveryTableOf(spec.(tbtSlo := slo), placement) == RecoveryTableOf(spec, placement)
  {
    AssignIgnoresTarget(spec, slo, placement, |spec.devices|);
  }

  lemma {:induction false} AssignIgnoresTarget(spec: ClusterSpec, slo: real, placement: Placement, n: nat)
    requires Ranged(placement, spec.layers) && n <= |spec.devices|
    ensures Assign(spec.(tbtSlo := slo), placement, n) == Assign(spec, placement, n)
  {
    if n > 0 {
      AssignIgnoresTarget(spec, slo, placement, n - 1);
      if Assign(spec, placement, n - 1).Success? && StageOn(placement, spec.devices[n - 1].id).Some? {
        StageOnIn(placement, spec.devices[n - 1].id);
        HostIgnoresTarget(spec, slo, placement, Assign(spec, placement, n - 1).value.reserved,
          StageOn(placement, spec.devices[n - 1].id).value, Hosts(spec), |Hosts(spec)|);
      }
    }
  }

  lemma {:induction false} HostIgnoresTarget(spec: ClusterSpec, slo: real, placement: Placement,
      reserved: map<DeviceId, nat>, s: Stage, hosts: seq<DeviceProfile>, n: nat)
    requires Ranged(placement, spec.layers) && InRange(spec.layers, s.start, s.end) && n <= |hosts|
    ensures BestHost(spec.(tbtSlo := slo), placement, reserved, s, hosts, n) ==
      BestHost(spec, placement, reserved, s, hosts, n)
  {
    if n > 0 {
      HostIgnoresTarget(spec, slo, placement, reserved, s, hosts, n - 1);
    }
  }

  // ---------- the greedy method ----------

  /** The configured hosts, or without any the pipeline's, then every pipeline device not yet listed; each id once. */
  method ListHosts(spec: ClusterSpec) returns (hosts: seq<DeviceProfile>)
    ensures hosts == Hosts(spec)
  {
    var all := if spec.backupHosts != [] then spec.backupHosts else spec.devices;
    assert spec.backupHosts + spec.devices[..0] == spec.backupHosts;
    for i := 0 to |spec.devices|
      invariant if spec.backupHosts == [] then all == spec.devices
        else Distinct(all) == Distinct(spec.backupHosts + spec.devices[..i])
    {
      var d := spec.devices[i];
      ghost var known := spec.backupHosts + spec.devices[..i];
      assert spec.backupHosts + spec.devices[..i + 1] == known + [d];
      assert (known + [d])[..|known|] == known && (all + [d])[..|all|] == all && d in spec.devices;
      if !exists h :: h in all && h.id == d.id {
        all := all + [d];
      }
    }
    assert [] + spec.devices == spec.devices && spec.devices[..|spec.devices|] == spec.devices;
    hosts := DropRepeated(all);
  }

  /** The first profile of every id. */
  method DropRepeated(ds: seq<DeviceProfile>) returns (hs: seq<DeviceProfile>)
    ensures hs == Distinct(ds)
  {
    hs := [];
    var seen: set<DeviceId> := {};
    for i := 0 to |ds|
      invariant hs == Distinct(ds[..i]) && seen == Ids(hs)
    {
      assert ds[..i + 1] == ds[..i] + [ds[i]];
      if ds[i].id !in seen {
        IdsAppend(hs, ds[i]);
        hs, seen := hs + [ds[i]], seen + {ds[i].id};
      }
    }
    assert ds[..|ds|] == ds;
  }

  /** The cheapest host with room, scanning the hosts in order. */
  method ChooseHost(spec: ClusterSpec, placement: Placement, reserved: map<DeviceId, nat>, s: Stage,
      hosts: seq<DeviceProfile>) returns (best: Option<DeviceId>)
    requires Ranged(placement, spec.layers) && InRange(spec.layers, s.start, s.end)
    ensures best == BestHost(spec, placement, reserved, s, hosts, |hosts|)
  {
    var bytes := LayerBytes(spec.layers, s.start, s.end);
    var bestCost := Infinite;
    best := None;
    for n := 0 to |hosts|
      invariant best == BestHost(spec, placement, reserved, s, hosts, n) && bestCost == CostTo(spec, s, best)
    {
      var k := hosts[n];
      if k.id == s.device {
        continue;
      }
      var free: int := k.Budget() - SelfBytes(spec, placement, k.id);
      if spec.eagerBackup {
        free := free - Reserved(reserved, k.id);
      }
      if free < bytes {
        continue;
      }
      var recompute := EstimateRecomputeTime(spec.layers, s.start, s.end, k.id);
      var cost := Plus(EstimateDownloadTime(spec.network, bytes, k.id, s.device), recompute);
      if Below(cost, bestCost) {
        bestCost, best := cost, Some(k.id);
      }
    }
  }

  method DetermineRecoveryTable(spec: ClusterSpec, placement: Placement) returns (r: Result<RecoveryTable, TableError>)
    requires Ranged(placement, spec.layers)
    ensures r == RecoveryTableOf(spec, placement)
  {
    var hosts := ListHosts(spec);
    var table: RecoveryTable, reserved: map<DeviceId, nat> := map[], map[];
    for n := 0 to |spec.devices|
      invariant Assign(spec, placement, n) == Success(Assignment(table, reserved))
    {
      var j := spec.devices[n].id;
      StageOnIn(placement, j);
      var stage := StageOn(placement, j);
      if stage.Some? {
        var best := ChooseHost(spec, placement, reserved, stage.value, hosts);
        if best.None? {
          FailureStays(spec, placement, n + 1, |spec.devices|);
          return Failure(NoBackup(j));
        }
        var bytes := LayerBytes(spec.layers, stage.value.start, stage.value.end);
        table, reserved := table[j := best.value], reserved[best.value := Reserved(reserved, best.value) + bytes];
      }
    }
    r := Success(table);
  }

  lemma {:induction false} FailureStays(spec: ClusterSpec, placement: Placement, m: nat, n: nat)
    requires Ranged(placement, spec.layers) && m <= n <= |spec.devices| && Assign(spec, placement, m).Failure?
    ensures Assign(spec, placement, n) == Assign(spec, placement, m)
    decreases n
  {
    if m < n {
      FailureStays(spec, placement, m, n - 1);
    }
  }

  // ---------- what the table guarantees ----------

  ghost predicate DistinctIds(ds: seq<DeviceProfile>) {
    forall i, j :: 0 <= i < j < |ds| ==> ds[i].id != ds[j].id
  }

  /** With one stage per device, a device's stages are its stage. */
  lemma {:induction false} OwnBytes(spec: ClusterSpec, placement: Placement, d: DeviceId)
    requires Ranged(placement, spec.layers) && DistinctDevices(placement)
    ensures BytesOf({d}, placement, spec.layers) == SelfBytes(spec, placement, d)
  {
    if placement != [] {
      var n := |placement| - 1;
      forall i, j
        ensures Apart(placement[..n], i, j)
      {
        assert Apart(placement, i, j);
      }
      OwnBytes(spec, placement[..n], d);
      if placement[n].device == d {
        forall s | s in placement[..n]
          ensures s.device != d
        {
          var i :| 0 <= i < n && placement[i] == s;
          assert Apart(placement, i, n);
        }
        StageOnIn(placement[..n], d);
      }
    }
  }

  lemma BurdenGrows(spec: ClusterSpec, placement: Placement, table: RecoveryTable, j: DeviceId, k: DeviceId,
      x: DeviceId)
    requires Ranged(placement, spec.layers) && DistinctDevices(placement) && j !in table
    ensures BackupBurden(x, table[j := k], placement, spec.layers) ==
      BackupBurden(x, table, placement, spec.layers) + if x == k then SelfBytes(spec, placement, j) else 0
  {
    if x == k {
      assert Sources(x, table[j := k]) == Sources(x, table) + {j};
      BytesOfOneMore(Sources(x, table), j, placement, spec.layers);
      OwnBytes(spec, placement, j);
    } else {
      assert Sources(x, table[j := k]) == Sources(x, table);
    }
  }

  ghost predicate HostFits(spec: ClusterSpec, placement: Placement, table: RecoveryTable, h: DeviceProfile)
    requires Ranged(placement, spec.layers)
  {
    SelfBytes(spec, placement, h.id) + BackupBurden(h.id, table, placement, spec.layers) <= h.Budget()
  }

  /** Every stage owner among the first n devices has a backup on another host, and no chosen host is over-committed. */
  ghost predicate TableSound(spec: ClusterSpec, placement: Placement, a: Assignment, n: nat)
    requires Ranged(placement, spec.layers) && n <= |spec.devices|
  {
    && (forall j :: j in a.table <==> OwnerAmong(spec, placement, n, j))
    && (forall j :: j in a.table ==> a.table[j] != j && a.table[j] in Ids(Hosts(spec)))
    && (forall k :: Reserved(a.reserved, k) == BackupBurden(k, a.table, placement, spec.layers))
    && (spec.eagerBackup ==>
        forall h :: h in Hosts(spec) && h.id in a.table.Values ==> HostFits(spec, placement, a.table, h))
  }

  lemma {:induction false} ChosenHost(spec: ClusterSpec, placement: Placement, reserved: map<DeviceId, nat>, s: Stage,
      h: DeviceProfile)
    requires Ranged(placement, spec.layers) && InRange(spec.layers, s.start, s.end) && h in Hosts(spec)
    requires BestHost(spec, placement, reserved, s, Hosts(spec), |Hosts(spec)|) == Some(h.id)
    ensures Candidate(spec, placement, reserved, s, h)
  {
    var hosts := Hosts(spec);
    BestHostIsBest(spec, placement, reserved, s, hosts, |hosts|);
    var i :| 0 <= i < |hosts| && hosts[i].id == h.id && Candidate(spec, placement, reserved, s, hosts[i]);
    var k :| 0 <= k < |hosts| && hosts[k] == h;
    assert i == k;
  }

  lemma ChosenExists(spec: ClusterSpec, placement: Placement, reserved: map<DeviceId, nat>, s: Stage, k: DeviceId)
      returns (h: DeviceProfile)
    requires Ranged(placement, spec.layers) && InRange(spec.layers, s.start, s.end)
    requires BestHost(spec, placement, reserved, s, Hosts(spec), |Hosts(spec)|) == Some(k)
    ensures h in Hosts(spec) && h.id == k && Candidate(spec, placement, reserved, s, h)
  {
    var hosts := Hosts(spec);
    BestHostIsBest(spec, placement, reserved, s, hosts, |hosts|);
    var i :| 0 <= i < |hosts| && hosts[i].id == k && Candidate(spec, placement, reserved, s, hosts[i]);
    h := hosts[i];
  }

  /**
   The running reservation of every host is exactly what the backups assigned so far
   weigh on it, so a host with room for one more never holds more than it can: its own
   stage and all its backups fit.
   */
  lemma {:induction false} GreedyNeverOvercommits(spec: ClusterSpec, placement: Placement, n: nat)
    requires Ranged(placement, spec.layers) && DistinctDevices(placement) && DistinctIds(spec.devices)
    requires n <= |spec.devices| && Assign(spec, placement, n).Success?
    ensures TableSound(spec, placement, Assign(spec, placement, n).value, n)
  {
    if n == 0 {
      forall k
        ensures BackupBurden(k, map[], placement, spec.layers) == 0
      {
        assert Sources(k, map[]) == {};
        BytesOfNobody(placement, spec.layers);
      }
    } else {
      var a := Assign(spec, placement, n - 1).value;
      GreedyNeverOvercommits(spec, placement, n - 1);
      StepKeepsTable(spec, placement, n, a);
    }
  }

  /** The stage owners among the first n devices. */
  ghost predicate OwnerAmong(spec: ClusterSpec, placement: Placement, n: nat, j: DeviceId)
    requires n <= |spec.devices|
  {
    StageOn(placement, j).Some? && exists i :: 0 <= i < n && spec.devices[i].id == j
  }

  lemma NotYetOwner(spec: ClusterSpec, placement: Placement, n: nat)
    requires 0 < n <= |spec.devices| && DistinctIds(spec.devices)
    ensures !OwnerAmong(spec, placement, n - 1, spec.devices[n - 1].id)
  {}

  lemma {:induction false} OneMoreOwner(spec: ClusterSpec, placement: Placement, n: nat, x: DeviceId)
    requires 0 < n <= |spec.devices|
    ensures OwnerAmong(spec, placement, n, x) <==>
      OwnerAmong(spec, placement, n - 1, x) || (x == spec.devices[n - 1].id && StageOn(placement, x).Some?)
  {
    if OwnerAmong(spec, placement, n - 1, x) {
      var i :| 0 <= i < n - 1 && spec.devices[i].id == x;
      assert 0 <= i < n;
    }
  }

  lemma StepKeepsTable(spec: ClusterSpec, placement: Placement, n: nat, a: Assignment)
    requires Ranged(placement, spec.layers) && DistinctDevices(placement) && DistinctIds(spec.devices)
    requires 0 < n <= |spec.devices| && TableSound(spec, placement, a, n - 1)
    requires AssignOne(spec, placement, a, spec.devices[n - 1].id).Success?
    ensures TableSound(spec, placement, AssignOne(spec, placement, a, spec.devices[n - 1].id).value, n)
  {
    hide BestHost, HostFits, BackupBurden, OwnerAmong, Hosts, SelfBytes, LayerBytes, Reserved, Ids;
    var j := spec.devices[n - 1].id;
    var b := AssignOne(spec, placement, a, j).value;
    NotYetOwner(spec, placement, n);
    assert j !in a.table;
    forall x
      ensures OwnerAmong(spec, placement, n, x) <==>
        OwnerAmong(spec, placement, n - 1, x) || (x == j && StageOn(placement, x).Some?)
    {
      OneMoreOwner(spec, placement, n, x);
    }
    StageOnIn(placement, j);
    if StageOn(placement, j).Some? {
      ChoiceKeepsTable(spec, placement, a, b, j, StageOn(placement, j).value, b.table[j]);
    }
  }

  lemma {:induction false} ChoiceKeepsTable(spec: ClusterSpec, placement: Placement, a: Assignment, b: Assignment,
      j: DeviceId, s: Stage, k: DeviceId)
    requires Ranged(placement, spec.layers) && DistinctDevices(placement) && j !in a.table && s in placement
    requires s.device == j
    requires StageOn(placement, j) == Some(s)
    requires BestHost(spec, placement, a.reserved, s, Hosts(spec), |Hosts(spec)|) == Some(k)
    requires forall x :: Reserved(a.reserved, x) == BackupBurden(x, a.table, placement, spec.layers)
    requires spec.eagerBackup ==>
      forall h :: h in Hosts(spec) && h.id in a.table.Values ==> HostFits(spec, placement, a.table, h)
    requires b.table == a.table[j := k]
    requires b.reserved == a.reserved[k := Reserved(a.reserved, k) + LayerBytes(spec.layers, s.start, s.end)]
    ensures k != j && k in Ids(Hosts(spec))
    ensures forall x :: Reserved(b.reserved, x) == BackupBurden(x, b.table, placement, spec.layers)
    ensures spec.eagerBackup ==>
      forall h :: h in Hosts(spec) && h.id in b.table.Values ==> HostFits(spec, placement, b.table, h)
  {
    var host := ChosenExists(spec, placement, a.reserved, s, k);
    forall x
      ensures Reserved(b.reserved, x) == BackupBurden(x, b.table, placement, spec.layers)
    {
      BurdenGrows(spec, placement, a.table, j, k, x);
    }
    if spec.eagerBackup {
      forall h | h in Hosts(spec) && h.id in b.table.Values
        ensures HostFits(spec, placement, b.table, h)
      {
        BurdenGrows(spec, placement, a.table, j, k, h.id);
        if h.id == k {
          ChosenHost(spec, placement, a.reserved, s, h);
        } else {
          var x :| x in b.table && b.table[x] == h.id;
          assert a.table[x] == h.id;
        }
      }
    }
  }

  /** The table exists exactly when every owner, in turn, finds a host with room at finite cost. */
  lemma {:induction false} TableFails(spec: ClusterSpec, placement: Placement, n: nat)
    requires Ranged(placement, spec.layers) && n <= |spec.devices|
    ensures Assign(spec, placement, n).Failure? <==> exists m :: 0 <= m < n && Stuck(spec, placement, m)
  {
    if n > 0 {
      TableFails(spec, placement, n - 1);
      if Assign(spec, placement, n - 1).Success? {
        var a, j := Assign(spec, placement, n - 1).value, spec.devices[n - 1].id;
        StageOnIn(placement, j);
        if StageOn(placement, j).Some? {
          BestHostIsBest(spec, placement, a.reserved, StageOn(placement, j).value, Hosts(spec), |Hosts(spec)|);
        }
        assert Stuck(spec, placement, n - 1) <==> Assign(spec, placement, n).Failure?;
      } else {
        var m :| 0 <= m < n - 1 && Stuck(spec, placement, m);
        assert Stuck(spec, placement, m);
      }
    }
  }

  /** Device m has a stage, and no other host with room can take it at finite cost. */
  ghost predicate Stuck(spec: ClusterSpec, placement: Placement, m: nat)
    requires Ranged(placement, spec.layers) && m < |spec.devices|
  {
    var j := spec.devices[m].id;
    StageOnIn(placement, j);
    && Assign(spec, placement, m).Success?
    && StageOn(placement, j).Some?
    && var s := StageOn(placement, j).value;
      forall k :: k in Hosts(spec) && Candidate(spec, placement, Assign(spec, placement, m).value.reserved, s, k) ==>
        BackupCost(spec, s, k.id).Infinite?
  }
}
