/** Whom the recovery table makes a device's backup, in the quantities of the cluster. */
module BackupChoice {
  import opened Wrappers
  import opened Types
  import opened Cluster
  import opened MemoryCheck
  import opened RecoveryTables
  import opened CostModel
  import opened ExecutionPlans

  // ---------- the hosts ----------

  ghost predicate First(ds: seq<DeviceProfile>, n: nat) {
    n < |ds| && forall i :: 0 <= i < n ==> ds[i].id != ds[n].id
  }

  /** hs lists, in order, exactly the profiles of ds whose id has not occurred before. */
  ghost predicate ListsFirsts(ds: seq<DeviceProfile>, hs: seq<DeviceProfile>, at: seq<nat>) {
    && |at| == |hs| && (forall n: nat :: n in at <==> First(ds, n))
    && (forall i :: 0 <= i < |at| ==> at[i] < |ds| && hs[i] == ds[at[i]])
    && forall i, j :: 0 <= i < j < |at| ==> at[i] < at[j]
  }

  lemma {:induction false} DistinctFirsts(ds: seq<DeviceProfile>) returns (at: seq<nat>)
    ensures ListsFirsts(ds, Distinct(ds), at)
  {
    at := [];
    if ds != [] {
      var n := |ds| - 1;
      at := DistinctFirsts(ds[..n]);
      assert forall i: nat :: First(ds[..n], i) <==> i < n && First(ds, i);
      if First(ds, n) {
        at := at + [n];
        assert ds[n].id !in Ids(ds[..n]);
      } else {
        var i :| 0 <= i < n && ds[i].id == ds[n].id;
        assert ds[i] in ds[..n];
      }
    }
  }

  /** The configured hosts come before the pipeline's devices, and no id is listed twice. */
  lemma HostsInOrder(spec: ClusterSpec) returns (at: seq<nat>)
    ensures ListsFirsts(spec.backupHosts + spec.devices, Hosts(spec), at)
  {
    at := DistinctFirsts(spec.backupHosts + spec.devices);
  }

  // ---------- who may be chosen ----------

  /** The host's memory holds the stage beside its own and, with eager backups, those the table already gives it. */
  predicate RoomFor(spec: ClusterSpec, placement: Placement, table: RecoveryTable, s: Stage, h: DeviceProfile)
    requires Ranged(placement, spec.layers) && InRange(spec.layers, s.start, s.end)
  {
    BytesOf({h.id}, placement, spec.layers) + LayerBytes(spec.layers, s.start, s.end) +
      (if spec.eagerBackup then BackupBurden(h.id, table, placement, spec.layers) else 0)
      <= if h.freeMemory != 0 then h.freeMemory else h.totalMemory
  }

  /** The host downloads the stage's layers from their owner and runs them. */
  ghost predicate TakesOver(spec: ClusterSpec, s: Stage, host: DeviceId, time: real)
    requires InRange(spec.layers, s.start, s.end)
  {
    exists download ::
      && Crosses(spec.network, LayerBytes(spec.layers, s.start, s.end), s.device, host, download)
      && Executes(spec.layers, s.start, s.end, host, time - download)
  }

  lemma CostToTakeOver(spec: ClusterSpec, s: Stage, host: DeviceId, time: real)
    requires InRange(spec.layers, s.start, s.end)
    ensures BackupCost(spec, s, host) == Finite(time) <==> TakesOver(spec, s, host, time)
  {
    hide Executes, Crosses, ComputeTime, EstimateDownloadTime, LayerBytes;
    var bytes := LayerBytes(spec.layers, s.start, s.end);
    var fetched := EstimateDownloadTime(spec.network, bytes, host, s.device);
    forall download
      ensures Crosses(spec.network, bytes, s.device, host, download) <==> fetched == Finite(download)
    {
      DownloadCrosses(spec.network, bytes, host, s.device, download);
    }
    if fetched.Finite? {
      WorkExecutes(spec.layers, s.start, s.end, host, time - fetched.value);
      assert Crosses(spec.network, bytes, s.device, host, fetched.value);
    }
  }

  ghost predicate Eligible(spec: ClusterSpec, placement: Placement, table: RecoveryTable, s: Stage, h: DeviceProfile,
      time: real)
    requires Ranged(placement, spec.layers) && InRange(spec.layers, s.start, s.end)
  {
    h.id != s.device && RoomFor(spec, placement, table, s, h) && TakesOver(spec, s, h.id, time)
  }

  /** Host i takes the stage over sooner than any before it, and no later than any at all. */
  ghost predicate Soonest(spec: ClusterSpec, placement: Placement, table: RecoveryTable, s: Stage, i: nat, time: real)
    requires Ranged(placement, spec.layers) && InRange(spec.layers, s.start, s.end)
  {
    && i < |Hosts(spec)| && Eligible(spec, placement, table, s, Hosts(spec)[i], time)
    && forall k, other :: 0 <= k < |Hosts(spec)| && Eligible(spec, placement, table, s, Hosts(spec)[k], other) ==>
        time <= other && (k < i ==> time < other)
  }

  // ---------- the choice ----------

  /**
   With the backups of the devices before it assigned, a device with a stage gets the first of
   the hosts that have room and take it over soonest; there is none, and no table, exactly if
   no other host has room for it and can fetch and run it at all.
   */
  lemma GreedyChoice(spec: ClusterSpec, placement: Placement, n: nat, s: Stage)
    requires Ranged(placement, spec.layers) && DistinctDevices(placement) && DistinctIds(spec.devices)
    requires 0 < n <= |spec.devices| && Assign(spec, placement, n - 1).Success?
    requires s in placement && s.device == spec.devices[n - 1].id
    ensures var before, next := Assign(spec, placement, n - 1).value.table, Assign(spec, placement, n);
      && (next.Failure? ==>
          && next.error == NoBackup(s.device)
          && forall h, time :: h in Hosts(spec) ==> !Eligible(spec, placement, before, s, h, time))
      && (next.Success? ==>
          exists i: nat, time :: (Soonest(spec, placement, before, s, i, time)
                                  && next.value.table == before[s.device := Hosts(spec)[i].id]))
  {
    hide Hosts, BestHost, BackupCost, TakesOver, RoomFor, HasRoom, LayerBytes;
    var a := Assign(spec, placement, n - 1).value;
    GreedyNeverOvercommits(spec, placement, n - 1);
    OneStage(placement, s);
    var hosts := Hosts(spec);
    forall h, time
      ensures Eligible(spec, placement, a.table, s, h, time) <==>
        Candidate(spec, placement, a.reserved, s, h) && BackupCost(spec, s, h.id) == Finite(time)
    {
      RoomIsLeft(spec, placement, a, s, h);
      CostToTakeOver(spec, s, h.id, time);
    }
    BestHostIsBest(spec, placement, a.reserved, s, hosts, |hosts|);
    var best := BestHost(spec, placement, a.reserved, s, hosts, |hosts|);
    if best.Some? {
      var i :| 0 <= i < |hosts| && hosts[i].id == best.value && Candidate(spec, placement, a.reserved, s, hosts[i])
        && BackupCost(spec, s, hosts[i].id).Finite?
        && forall k :: 0 <= k < i && Candidate(spec, placement, a.reserved, s, hosts[k]) ==>
           Below(BackupCost(spec, s, hosts[i].id), BackupCost(spec, s, hosts[k].id));
      assert Soonest(spec, placement, a.table, s, i, BackupCost(spec, s, hosts[i].id).value);
    }
  }

  /** A device's stage is the one listed for it. */
  lemma {:induction false} OneStage(placement: Placement, s: Stage)
    requires DistinctDevices(placement) && s in placement
    ensures StageOn(placement, s.device) == Some(s)
  {
    StageOnIn(placement, s.device);
    var x := StageOn(placement, s.device).value;
    var i :| 0 <= i < |placement| && placement[i] == s;
    var k :| 0 <= k < |placement| && placement[k] == x;
    assert Apart(placement, i, k) && Apart(placement, k, i);
  }

  lemma RoomIsLeft(spec: ClusterSpec, placement: Placement, a: Assignment, s: Stage, h: DeviceProfile)
    requires Ranged(placement, spec.layers) && InRange(spec.layers, s.start, s.end) && DistinctDevices(placement)
    requires Reserved(a.reserved, h.id) == BackupBurden(h.id, a.table, placement, spec.layers)
    ensures RoomFor(spec, placement, a.table, s, h) <==>
      HasRoom(spec, placement, a.reserved, h, LayerBytes(spec.layers, s.start, s.end))
  {
    OwnBytes(spec, placement, h.id);
  }

  /** A device without a stage needs no backup. */
  lemma NothingToBackUp(spec: ClusterSpec, placement: Placement, n: nat)
    requires Ranged(placement, spec.layers) && 0 < n <= |spec.devices|
    requires forall s :: s in placement ==> s.device != spec.devices[n - 1].id
    ensures Assign(spec, placement, n) == Assign(spec, placement, n - 1)
  {
    StageOnIn(placement, spec.devices[n - 1].id);
  }
}
