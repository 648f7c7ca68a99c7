/**
 Deploying a placement: primaries, then the chain, then the backups; and why every viable
 plan can then be run.
 */
module Deployment {
  import opened Wrappers
  import opened Types
  import opened Workers
  import opened Workforce
  import opened Chains
  import opened ExecutionPlans
  import opened Protocol
  import opened Rewiring

  datatype DeployError = NoPlacement | Unreachable

  // ---------- what each phase establishes ----------

  /** The device runs its range, and no KV is left on it. */
  ghost predicate PrimaryAt(w: World, s: Stage) {
    && s.device in w.runners && s.Key() in w.runners[s.device].stages
    && w.runners[s.device].kv == map[]
  }

  /** The host has the device's range loaded and registered as its backup. */
  ghost predicate BackupAt(w: World, host: DeviceId, s: Stage) {
    && host in w.runners && s.Key() in w.runners[host].stages
    && s.Key() in w.runners[host].backupFor && w.runners[host].backupFor[s.Key()] == s.device
  }

  /** Loading and wiring kill nobody and send nothing, and lose KV rather than make any. */
  ghost predicate OnlyLoaded(w: World, u: World) {
    && u.alive == w.alive && u.faults == w.faults && u.outbox == w.outbox && u.runners.Keys == w.runners.Keys
    && forall d :: d in w.runners ==> KeptOrLost(w.runners[d], u.runners[d])
  }

  ghost predicate KeptOrLost(r: Runner, s: Runner) {
    s.kv == r.kv || s.kv == map[]
  }

  ghost predicate PrimariesAt(w: World, placement: Placement, n: nat)
    requires n <= |placement|
  {
    forall i :: 0 <= i < n ==> PrimaryAt(w, placement[i])
  }

  ghost predicate Deployed(w: World, placement: Placement, recovery: RecoveryTable, eager: bool) {
    && placement != [] && PrimariesAt(w, placement, |placement|)
    && Linked(w.nextHops, w.alive, HoldsOf(placement))
    && w.runners[placement[|placement| - 1].device].hasHead
    && (eager ==> forall i :: 0 <= i < |placement| ==> BackedUp(w, recovery, placement[i]))
  }

  /** The stage's backup is on its host, if the host is known to the coordinator. */
  ghost predicate BackedUp(w: World, recovery: RecoveryTable, s: Stage) {
    s.device in recovery && recovery[s.device] in w.runners ==> BackupAt(w, recovery[s.device], s)
  }

  /** Its range is all that the device of stage i has loaded. */
  ghost predicate BareAt(w: World, placement: Placement, i: nat)
    requires i < |placement|
  {
    && placement[i].device in w.runners
    && var r := w.runners[placement[i].device];
      r.stages == {placement[i].Key()} && r.backupFor == map[] && r.promoted == {}
  }

  ghost predicate AllBare(w: World, placement: Placement, n: nat)
    requires n <= |placement|
  {
    forall i :: 0 <= i < n ==> BareAt(w, placement, i)
  }

  /** Beside its range the device of stage i has loaded what the table makes it the backup for, and nothing else. */
  ghost predicate PlannedAt(w: World, placement: Placement, recovery: RecoveryTable, i: nat)
    requires i < |placement|
  {
    var d := placement[i].device;
    && d in w.runners
    && var r := w.runners[d];
      && r.stages == {placement[i].Key()} + r.backupFor.Keys && r.promoted == {}
      && forall k :: k in r.backupFor ==> HasBackup(placement, recovery, Stage(k.start, k.end, r.backupFor[k]), d)
  }

  ghost predicate HasBackup(placement: Placement, recovery: RecoveryTable, s: Stage, host: DeviceId) {
    s in placement && s.device in recovery && recovery[s.device] == host
  }

  ghost predicate AllPlanned(w: World, placement: Placement, recovery: RecoveryTable) {
    forall i :: 0 <= i < |placement| ==> PlannedAt(w, placement, recovery, i)
  }

  lemma BareIsPlanned(w: World, placement: Placement, recovery: RecoveryTable)
    requires AllBare(w, placement, |placement|)
    ensures AllPlanned(w, placement, recovery)
  {
    forall i | 0 <= i < |placement|
      ensures PlannedAt(w, placement, recovery, i)
    {
      assert BareAt(w, placement, i);
    }
  }

  lemma BareLoads(w: World, placement: Placement, i: nat)
    requires DistinctDevices(placement) && i < |placement| && AllBare(w, placement, i)
    requires placement[i].device in w.runners
    ensures AllBare(OnRunner(w, placement[i].device,
      PrimaryLoaded(w.runners[placement[i].device], placement[i].Key())),
      placement, i + 1)
  {
    var u := OnRunner(w, placement[i].device, PrimaryLoaded(w.runners[placement[i].device], placement[i].Key()));
    forall k | 0 <= k < i
      ensures BareAt(u, placement, k)
    {
      assert BareAt(w, placement, k) && Apart(placement, k, i);
    }
  }

  /** A backup that the table assigns leaves the devices with what is planned. */
  lemma PlannedLoads(w: World, placement: Placement, recovery: RecoveryTable, host: DeviceId, s: Stage)
    requires AllPlanned(w, placement, recovery) && host in w.runners && HasBackup(placement, recovery, s, host)
    ensures AllPlanned(OnRunner(w, host, BackupLoaded(w.runners[host], s.Key(), s.device)), placement, recovery)
  {
    var u := OnRunner(w, host, BackupLoaded(w.runners[host], s.Key(), s.device));
    forall i | 0 <= i < |placement|
      ensures PlannedAt(u, placement, recovery, i)
    {
      assert PlannedAt(w, placement, recovery, i);
    }
  }

  lemma PrimaryLoads(w: World, placement: Placement, i: nat)
    requires DistinctDevices(placement) && i < |placement| && PrimariesAt(w, placement, i)
    requires placement[i].device in w.runners
    ensures PrimariesAt(OnRunner(w, placement[i].device,
      PrimaryLoaded(w.runners[placement[i].device], placement[i].Key())),
      placement, i + 1)
  {
    var u := OnRunner(w, placement[i].device, PrimaryLoaded(w.runners[placement[i].device], placement[i].Key()));
    forall k | 0 <= k < i
      ensures PrimaryAt(u, placement[k])
    {
      assert PrimaryAt(w, placement[k]) && Apart(placement, k, i);
    }
  }

  /** Loading a backup takes nothing away. */
  lemma BackupLoads(w: World, placement: Placement, recovery: RecoveryTable, host: DeviceId, s: Stage)
    requires host in w.runners && PrimariesAt(w, placement, |placement|)
    ensures var u := OnRunner(w, host, BackupLoaded(w.runners[host], s.Key(), s.device));
      && PrimariesAt(u, placement, |placement|) && BackupAt(u, host, s)
      && (forall d :: d in w.runners ==> u.runners[d].hasHead == w.runners[d].hasHead)
      && (forall h, x: Stage :: BackupAt(w, h, x) && x.Key() != s.Key() ==> BackupAt(u, h, x))
  {
    var u := OnRunner(w, host, BackupLoaded(w.runners[host], s.Key(), s.device));
    forall i | 0 <= i < |placement|
      ensures PrimaryAt(u, placement[i])
    {
      assert PrimaryAt(w, placement[i]);
    }
  }

  // ---------- the phases ----------

  method LoadPrimaries(fleet: Fleet, placement: Placement) returns (ok: bool)
    requires fleet.Valid() && DistinctDevices(placement)
    modifies fleet.Repr()
    ensures fleet.Valid() && OnlyLoaded(old(fleet.State()), fleet.State())
    ensures ok ==> PrimariesAt(fleet.State(), placement, |placement|) && AllBare(fleet.State(), placement, |placement|)
    ensures ok <==> forall i :: 0 <= i < |placement| ==> placement[i].device in fleet.alive
  {
    for i := 0 to |placement|
      invariant fleet.Valid() && OnlyLoaded(old(fleet.State()), fleet.State())
      invariant PrimariesAt(fleet.State(), placement, i) && AllBare(fleet.State(), placement, i)
      invariant forall k :: 0 <= k < i ==> placement[k].device in fleet.alive
    {
      ghost var w := fleet.State();
      ok := fleet.LoadPrimary(Held(placement[i].device, placement[i].Key()));
      if !ok {
        return;
      }
      PrimaryLoads(w, placement, i);
      BareLoads(w, placement, i);
    }
    ok := true;
  }

  /** Tell every stage its successor; the tail gets the head modules and no successor. */
  method WireChain(fleet: Fleet, placement: Placement) returns (ok: bool)
    requires fleet.Valid() && placement != [] && DistinctHolds(HoldsOf(placement))
    requires PrimariesAt(fleet.State(), placement, |placement|) && AllBare(fleet.State(), placement, |placement|)
    modifies fleet.Repr()
    ensures fleet.Valid() && OnlyLoaded(old(fleet.State()), fleet.State())
    ensures ok ==> PrimariesAt(fleet.State(), placement, |placement|) && AllBare(fleet.State(), placement, |placement|)
    ensures ok ==> Linked(fleet.nextHops, fleet.alive, HoldsOf(placement))
    ensures ok ==> fleet.State().runners[placement[|placement| - 1].device].hasHead
    ensures (forall i :: 0 <= i < |placement| ==> placement[i].device in fleet.alive) ==> ok
  {
    hide PrimariesAt, AllBare;
    ghost var w, hs := fleet.State(), HoldsOf(placement);
    for i := 0 to |placement| - 1
      invariant fleet.Valid() && OnlyLoaded(old(fleet.State()), fleet.State())
      invariant fleet.RunnerStates() == old(fleet.RunnerStates())
      invariant forall k :: 0 <= k < i ==> WiredUpTo(fleet.nextHops, fleet.alive, hs, k)
    {
      ghost var before := fleet.nextHops;
      var next := Held(placement[i + 1].device, placement[i + 1].Key());
      assert next == hs[i + 1];
      ok := fleet.SetNextHop(Held(placement[i].device, placement[i].Key()), Some(next));
      if !ok {
        return;
      }
      WireOneMore(before, fleet.nextHops, fleet.alive, hs, i);
    }
    SameRunners(w, fleet.State(), placement);
    ok := WireTail(fleet, placement);
  }

  /** What is loaded does not depend on how it is wired. */
  lemma SameRunners(w: World, u: World, placement: Placement)
    requires PrimariesAt(w, placement, |placement|) && AllBare(w, placement, |placement|) && u.runners == w.runners
    ensures PrimariesAt(u, placement, |placement|) && AllBare(u, placement, |placement|)
  {
    forall i | 0 <= i < |placement|
      ensures PrimaryAt(u, placement[i]) && BareAt(u, placement, i)
    {
      assert PrimaryAt(w, placement[i]) && BareAt(w, placement, i);
    }
  }

  method WireTail(fleet: Fleet, placement: Placement) returns (ok: bool)
    requires fleet.Valid() && placement != [] && DistinctHolds(HoldsOf(placement))
    requires PrimariesAt(fleet.State(), placement, |placement|) && AllBare(fleet.State(), placement, |placement|)
    requires forall k :: 0 <= k < |placement| - 1 ==> WiredUpTo(fleet.nextHops, fleet.alive, HoldsOf(placement), k)
    modifies fleet.Repr()
    ensures fleet.Valid() && OnlyLoaded(old(fleet.State()), fleet.State())
    ensures ok ==> PrimariesAt(fleet.State(), placement, |placement|) && AllBare(fleet.State(), placement, |placement|)
    ensures ok ==> Linked(fleet.nextHops, fleet.alive, HoldsOf(placement))
    ensures ok ==> fleet.State().runners[placement[|placement| - 1].device].hasHead
    ensures ok <==> placement[|placement| - 1].device in fleet.alive
  {
    hide PrimariesAt, AllBare, Linked, WiredUpTo, OnlyLoaded;
    ghost var w, hs := fleet.State(), HoldsOf(placement);
    var tail := placement[|placement| - 1];
    OnlyLoadedSame(w);
    ok := fleet.LoadHead(tail.device);
    if !ok {
      return;
    }
    ghost var u := fleet.State();
    var cleared := fleet.SetNextHop(Held(tail.device, tail.Key()), None);
    assert fleet.State() == u.(nextHops := fleet.nextHops);
    WireOneMore(w.nextHops, fleet.nextHops, fleet.alive, hs, |placement| - 1);
    AllWired(fleet.nextHops, fleet.alive, hs);
    HeadLoads(w, placement, tail.device, fleet.nextHops);
  }

  lemma OnlyLoadedSame(w: World)
    ensures OnlyLoaded(w, w)
  {}

  lemma HeadLoads(w: World, placement: Placement, d: DeviceId, nextHops: map<Held, Held>)
    requires PrimariesAt(w, placement, |placement|) && AllBare(w, placement, |placement|) && d in w.runners
    ensures var u := OnRunner(w, d, w.runners[d].(hasHead := true)).(nextHops := nextHops);
      OnlyLoaded(w, u) && PrimariesAt(u, placement, |placement|) && AllBare(u, placement, |placement|)
  {
    var u := OnRunner(w, d, w.runners[d].(hasHead := true)).(nextHops := nextHops);
    forall i | 0 <= i < |placement|
      ensures PrimaryAt(u, placement[i]) && BareAt(u, placement, i)
    {
      assert PrimaryAt(w, placement[i]) && BareAt(w, placement, i);
    }
  }

  /** The stages whose owner is among the devices served so far are backed up. */
  ghost predicate BackedUpFor(w: World, placement: Placement, recovery: RecoveryTable, served: set<DeviceId>) {
    forall i :: 0 <= i < |placement| && placement[i].device in served ==> BackedUp(w, recovery, placement[i])
  }

  /** What the primaries and the wiring established. */
  ghost predicate ChainAt(w: World, placement: Placement) {
    && placement != [] && PrimariesAt(w, placement, |placement|)
    && Linked(w.nextHops, w.alive, HoldsOf(placement))
    && w.runners[placement[|placement| - 1].device].hasHead
  }

  lemma BackupServes(w: World, placement: Placement, recovery: RecoveryTable, served: set<DeviceId>, i: nat)
    requires ChainAt(w, placement) && BackedUpFor(w, placement, recovery, served) && DistinctHolds(HoldsOf(placement))
    requires DistinctKeys(placement) && i < |placement| && placement[i].device in recovery
    requires recovery[placement[i].device] in w.runners && DistinctDevices(placement)
    ensures var host := recovery[placement[i].device];
      var u := OnRunner(w, host, BackupLoaded(w.runners[host], placement[i].Key(), placement[i].device));
      ChainAt(u, placement) && BackedUpFor(u, placement, recovery, served + {placement[i].device})
  {
    var host := recovery[placement[i].device];
    var u := OnRunner(w, host, BackupLoaded(w.runners[host], placement[i].Key(), placement[i].device));
    BackupLoads(w, placement, recovery, host, placement[i]);
    forall k | 0 <= k < |placement| && placement[k].device in served + {placement[i].device}
      ensures BackedUp(u, recovery, placement[k])
    {
      if k != i {
        assert Apart(placement, k, i) && Apart(placement, i, k);
        assert BackedUp(w, recovery, placement[k]);
      }
    }
  }

  ghost predicate DistinctKeys(placement: Placement) {
    forall i, j :: 0 <= i < j < |placement| ==> placement[i].Key() != placement[j].Key()
  }

  lemma ServedWithoutStage(w: World, placement: Placement, recovery: RecoveryTable, served: set<DeviceId>, d: DeviceId)
    requires BackedUpFor(w, placement, recovery, served)
    requires d !in recovery || recovery[d] !in w.runners ||
      forall i :: 0 <= i < |placement| ==> placement[i].device != d
    ensures BackedUpFor(w, placement, recovery, served + {d})
  {
    forall k | 0 <= k < |placement| && placement[k].device in served + {d}
      ensures BackedUp(w, recovery, placement[k])
    {
      assert placement[k].device in served ==> BackedUp(w, recovery, placement[k]);
    }
  }

  ghost function Members(s: seq<DeviceId>): set<DeviceId> {
    set d | d in s
  }

  lemma MembersGrow(s: seq<DeviceId>, n: nat)
    requires n < |s|
    ensures Members(s[..n + 1]) == Members(s[..n]) + {s[n]}
  {
    assert s[..n + 1] == s[..n] + [s[n]];
  }

  /** The devices whose backup host has been dealt with. */
  ghost function ServedBy(recovery: RecoveryTable, rest: set<DeviceId>): set<DeviceId> {
    set j | j in recovery && recovery[j] !in rest
  }

  lemma HostServed(recovery: RecoveryTable, rest: set<DeviceId>, host: DeviceId, sources: seq<DeviceId>)
    requires host in rest && forall j :: j in sources <==> j in recovery && recovery[j] == host
    ensures ServedBy(recovery, rest - {host}) == ServedBy(recovery, rest) + Members(sources)
  {}

  method StageOfDevice(placement: Placement, d: DeviceId) returns (i: nat)
    ensures i <= |placement| && (i < |placement| ==> placement[i].device == d)
    ensures i == |placement| ==> forall k :: 0 <= k < |placement| ==> placement[k].device != d
  {
    i := 0;
    while i < |placement| && placement[i].device != d
      invariant i <= |placement| && forall k :: 0 <= k < i ==> placement[k].device != d
    {
      i := i + 1;
    }
  }

  /** One backup: the stage of the device it is for, if that has one. */
  method LoadBackupFor(fleet: Fleet, host: DeviceId, source: DeviceId, placement: Placement, recovery: RecoveryTable,
      ghost served: set<DeviceId>) returns (ok: bool)
    requires fleet.Valid() && ChainAt(fleet.State(), placement)
    requires BackedUpFor(fleet.State(), placement, recovery, served)
    requires DistinctHolds(HoldsOf(placement)) && DistinctKeys(placement) && DistinctDevices(placement)
    requires source in recovery && recovery[source] == host && AllPlanned(fleet.State(), placement, recovery)
    modifies fleet.Repr()
    ensures fleet.Valid() && OnlyLoaded(old(fleet.State()), fleet.State())
    ensures ok ==> ChainAt(fleet.State(), placement)
    ensures ok ==> BackedUpFor(fleet.State(), placement, recovery, served + {source})
    ensures ok ==> AllPlanned(fleet.State(), placement, recovery)
    ensures host in fleet.alive ==> ok
  {
    hide ChainAt, BackedUpFor, AllPlanned;
    ghost var w := fleet.State();
    var i := StageOfDevice(placement, source);
    assert fleet.State() == w;
    if i == |placement| {
      ServedWithoutStage(w, placement, recovery, served, source);
      return true;
    }
    ok := fleet.LoadBackup(Held(host, placement[i].Key()), source);
    if ok {
      BackupServes(w, placement, recovery, served, i);
      PlannedLoads(w, placement, recovery, host, placement[i]);
    }
  }

  /** One host's backups: the stage of every device it backs up that has one. */
  method LoadBackupsOn(fleet: Fleet, host: DeviceId, sources: seq<DeviceId>, placement: Placement,
      recovery: RecoveryTable,
      ghost served: set<DeviceId>) returns (ok: bool)
    requires fleet.Valid() && ChainAt(fleet.State(), placement)
    requires BackedUpFor(fleet.State(), placement, recovery, served)
    requires DistinctHolds(HoldsOf(placement)) && DistinctKeys(placement) && DistinctDevices(placement)
    requires forall j :: j in sources ==> j in recovery && recovery[j] == host
    requires AllPlanned(fleet.State(), placement, recovery)
    modifies fleet.Repr()
    ensures fleet.Valid() && OnlyLoaded(old(fleet.State()), fleet.State())
    ensures ok ==> ChainAt(fleet.State(), placement)
    ensures ok ==> BackedUpFor(fleet.State(), placement, recovery, served + Members(sources))
    ensures ok ==> AllPlanned(fleet.State(), placement, recovery)
    ensures host in fleet.alive ==> ok
  {
    hide ChainAt, BackedUpFor, AllPlanned, Fleet.Valid;
    assert served + Members(sources[..0]) == served;
    for a := 0 to |sources|
      invariant fleet.Valid() && OnlyLoaded(old(fleet.State()), fleet.State()) && ChainAt(fleet.State(), placement)
      invariant BackedUpFor(fleet.State(), placement, recovery, served + Members(sources[..a]))
      invariant AllPlanned(fleet.State(), placement, recovery)
    {
      MembersGrow(sources, a);
      assert served + Members(sources[..a + 1]) == served + Members(sources[..a]) + {sources[a]};
      ok := LoadBackupFor(fleet, host, sources[a], placement, recovery, served + Members(sources[..a]));
      if !ok {
        return;
      }
    }
    assert sources[..|sources|] == sources;
    ok := true;
  }

  /** Every backup host the coordinator can reach at all answers. */
  ghost predicate HostsUp(w: World, recovery: RecoveryTable) {
    forall j :: j in recovery && recovery[j] in w.runners ==> recovery[j] in w.alive
  }

  /** Every host's backups; a host without an address is skipped. */
  method LoadBackups(fleet: Fleet, placement: Placement, recovery: RecoveryTable) returns (ok: bool)
    requires fleet.Valid() && ChainAt(fleet.State(), placement)
    requires DistinctHolds(HoldsOf(placement)) && DistinctKeys(placement) && DistinctDevices(placement)
    requires AllPlanned(fleet.State(), placement, recovery)
    modifies fleet.Repr()
    ensures fleet.Valid() && OnlyLoaded(old(fleet.State()), fleet.State())
    ensures ok ==> Deployed(fleet.State(), placement, recovery, true) && AllPlanned(fleet.State(), placement, recovery)
    ensures HostsUp(fleet.State(), recovery) ==> ok
  {
    hide ChainAt, Deployed, BackedUpFor, AllPlanned;
    var inverse := InverseRecovery(recovery);
    var rest := inverse.Keys;
    NobodyServed(fleet.State(), placement, recovery, rest);
    while rest != {}
      invariant fleet.Valid() && OnlyLoaded(old(fleet.State()), fleet.State()) && rest <= inverse.Keys
      invariant ChainAt(fleet.State(), placement) && AllPlanned(fleet.State(), placement, recovery)
      invariant BackedUpFor(fleet.State(), placement, recovery, ServedBy(recovery, rest))
      decreases rest
    {
      var host :| host in rest;
      HostServed(recovery, rest, host, inverse[host]);
      if host in fleet.runners.Keys {
        ok := LoadBackupsOn(fleet, host, inverse[host], placement, recovery, ServedBy(recovery, rest));
        if !ok {
          assert inverse[host][0] in inverse[host];
          return;
        }
      } else {
        UnknownHost(fleet.State(), placement, recovery, ServedBy(recovery, rest), inverse[host], host);
      }
      rest := rest - {host};
    }
    assert ServedBy(recovery, {}) == set j | j in recovery;
    AllServed(fleet.State(), placement, recovery);
    ok := true;
  }

  lemma UnknownHost(w: World, placement: Placement, recovery: RecoveryTable, served: set<DeviceId>,
      sources: seq<DeviceId>, host: DeviceId)
    requires BackedUpFor(w, placement, recovery, served) && host !in w.runners
    requires forall j :: j in sources ==> j in recovery && recovery[j] == host
    ensures BackedUpFor(w, placement, recovery, served + Members(sources))
  {
    forall k | 0 <= k < |placement| && placement[k].device in served + Members(sources)
      ensures BackedUp(w, recovery, placement[k])
    {
      assert placement[k].device in served ==> BackedUp(w, recovery, placement[k]);
    }
  }

  lemma NobodyServed(w: World, placement: Placement, recovery: RecoveryTable, hosts: set<DeviceId>)
    requires forall j :: j in recovery ==> recovery[j] in hosts
    ensures BackedUpFor(w, placement, recovery, ServedBy(recovery, hosts))
  {
    assert ServedBy(recovery, hosts) == {};
  }

  lemma AllServed(w: World, placement: Placement, recovery: RecoveryTable)
    requires ChainAt(w, placement)
    requires BackedUpFor(w, placement, recovery, set j | j in recovery)
    ensures Deployed(w, placement, recovery, true)
  {
    forall i | 0 <= i < |placement|
      ensures BackedUp(w, recovery, placement[i])
    {}
  }

  lemma PipelineDistinct(placement: Placement)
    requires Pipeline(placement)
    ensures DistinctKeys(placement) && DistinctHolds(HoldsOf(placement))
  {
    forall i, j | 0 <= i < j < |placement|
      ensures placement[i].Key() != placement[j].Key() && HoldsOf(placement)[i] != HoldsOf(placement)[j]
    {
      assert Follows(placement, i);
      RangesIncrease(placement, i, j);
    }
  }

  /** Primaries, then the chain, then, unless backups are lazy, the backups. */
  method Deploy(fleet: Fleet, placement: Placement, recovery: RecoveryTable, eager: bool)
    returns (r: Result<(), DeployError>)
    requires fleet.Valid() && (placement == [] || Pipeline(placement))
    modifies fleet.Repr()
    ensures fleet.Valid() && OnlyLoaded(old(fleet.State()), fleet.State())
    ensures r == Failure(NoPlacement) <==> placement == []
    ensures r.Success? ==> Deployed(fleet.State(), placement, recovery, eager)
    ensures r.Success? ==> AllPlanned(fleet.State(), placement, recovery)
    ensures r.Success? && !eager ==> AllBare(fleet.State(), placement, |placement|)
    ensures r.Success? ==> forall i :: 0 <= i < |placement| ==> placement[i].device in fleet.alive
    ensures (placement != [] && (forall i :: 0 <= i < |placement| ==> placement[i].device in fleet.alive) &&
             HostsUp(fleet.State(), recovery)) ==> r.Success?
  {
    if placement == [] {
      return Failure(NoPlacement);
    }
    PipelineDistinct(placement);
    var ok := LoadPrimaries(fleet, placement);
    if !ok {
      return Failure(Unreachable);
    }
    ok := WireChain(fleet, placement);
    if !ok {
      return Failure(Unreachable);
    }
    BareIsPlanned(fleet.State(), placement, recovery);
    if eager {
      ok := LoadBackups(fleet, placement, recovery);
    }
    r := if ok then Success(()) else Failure(Unreachable);
  }

  // ---------- every viable plan can be run ----------

  /** The chain reached by following next hops from h, for at most n steps. */
  ghost function Walk(nextHops: map<Held, Held>, h: Held, n: nat): seq<Held>
    decreases n
  {
    if n == 0 || h !in nextHops then [h] else [h] + Walk(nextHops, nextHops[h], n - 1)
  }

  /** On a wired plan that is alive, the walk from stage i visits the rest in order and stops. */
  lemma {:induction false} WalkFollows(nextHops: map<Held, Held>, alive: set<DeviceId>, hs: seq<Held>, i: nat, n: nat)
    requires Linked(nextHops, alive, hs) && i < |hs| && |hs| - i <= n
    requires forall k :: 0 <= k < |hs| ==> hs[k].device in alive
    ensures Walk(nextHops, hs[i], n) == hs[i..]
    decreases |hs| - i
  {
    if i + 1 < |hs| {
      WalkFollows(nextHops, alive, hs, i + 1, n - 1);
      assert hs[i..] == [hs[i]] + hs[i + 1..];
    } else {
      assert hs[i..] == [hs[i]];
    }
  }

  /** Every backup host of a placed device is known to the coordinator. */
  ghost predicate HostsKnown(w: World, placement: Placement, recovery: RecoveryTable) {
    forall i :: 0 <= i < |placement| && placement[i].device in recovery ==> recovery[placement[i].device] in w.runners
  }

  /** Each stage of a viable plan is loaded where the plan runs it, and a dead one's backup can be promoted. */
  lemma PlanIsLoaded(w: World, placement: Placement, recovery: RecoveryTable, dead: set<DeviceId>, i: nat)
    requires Deployed(w, placement, recovery, true) && HostsKnown(w, placement, recovery)
    requires Viable(placement, recovery, dead) && i < |placement|
    ensures LoadedAt(w, HoldsOf(PlanOf(placement, recovery, dead))[i])
    ensures placement[i].device in dead ==>
      placement[i].Key() in BackupsFor(w.runners[recovery[placement[i].device]], placement[i].device)
  {
    assert PrimaryAt(w, placement[i]) && StageViable(placement[i], recovery, dead);
    assert placement[i].device in recovery ==> BackedUp(w, recovery, placement[i]);
  }

  /** The dead devices that had a stage, in plan order. */
  method DeadOwners(placement: Placement, dead: set<DeviceId>) returns (ds: seq<DeviceId>)
    ensures forall d :: d in ds ==> exists i :: 0 <= i < |placement| && placement[i].device == d && d in dead
  {
    ds := [];
    for i := 0 to |placement|
      invariant forall d :: d in ds ==> exists k :: 0 <= k < i && placement[k].device == d && d in dead
    {
      if placement[i].device in dead {
        ds := ds + [placement[i].device];
      }
    }
  }

  /**
   After an eager deployment every viable dead set has a plan that runs: each promotion
   finds its backup, each stage is loaded where the plan puts it, and after rewiring the
   chain visits the plan in order and stops at its tail, a device with two stages included.
   */
  method ActivatePlan(fleet: Fleet, placement: Placement, recovery: RecoveryTable, dead: set<DeviceId>)
    returns (r: Result<Placement, GatewayError>)
    requires fleet.Valid() && Pipeline(placement) && Deployed(fleet.State(), placement, recovery, true)
    requires HostsKnown(fleet.State(), placement, recovery)
    requires OnlyDeadAreDown(fleet.State(), dead)
    modifies fleet.Repr()
    ensures fleet.Valid() && (r.Success? <==> Viable(placement, recovery, dead))
    ensures r.Success? ==> r.value == PlanOf(placement, recovery, dead)
    ensures r.Success? ==> forall i :: 0 <= i < |placement| ==> Available(fleet.State(), HoldsOf(r.value)[i])
    ensures r.Success? ==> Walk(fleet.nextHops, HoldsOf(r.value)[0], |placement|) == HoldsOf(r.value)
  {
    hide Linked, Walk, Deployed, HostsKnown, OnlyDeadAreDown, OnlyRewired, Fleet.Valid;
    var built := BuildExecutionPlan(placement, recovery, dead);
    if built.Failure? {
      return Failure(NoRecoveryError);
    }
    var plan := built.value;
    var owners := DeadOwners(placement, dead);
    ghost var w, hs := fleet.State(), HoldsOf(plan);
    PlanDistinct(placement, recovery, dead);
    OwnersPromotable(w, placement, recovery, dead, owners);
    r := Failure(NoRecoveryError);
    var wired := PromoteAndRewire(fleet, plan, recovery, owners);
    PlanIsAvailable(w, fleet.State(), placement, recovery, dead);
    WalkFollows(fleet.nextHops, fleet.alive, hs, 0, |placement|);
    assert hs[0..] == hs;
    r := Success(plan);
  }

  ghost predicate OnlyDeadAreDown(w: World, dead: set<DeviceId>) {
    forall d :: d in w.runners && d !in dead ==> d in w.alive
  }

  /** Every dead owner's backup can be promoted. */
  lemma OwnersPromotable(w: World, placement: Placement, recovery: RecoveryTable, dead: set<DeviceId>,
      owners: seq<DeviceId>)
    requires Deployed(w, placement, recovery, true) && HostsKnown(w, placement, recovery)
    requires Viable(placement, recovery, dead) && OnlyDeadAreDown(w, dead)
    requires forall d :: d in owners ==> exists i :: 0 <= i < |placement| && placement[i].device == d && d in dead
    ensures forall i :: 0 <= i < |owners| ==> Promotable(w, recovery, owners[i])
  {
    forall i | 0 <= i < |owners|
      ensures Promotable(w, recovery, owners[i])
    {
      assert owners[i] in owners;
      var k :| 0 <= k < |placement| && placement[k].device == owners[i] && owners[i] in dead;
      PlanIsLoaded(w, placement, recovery, dead, k);
      assert StageViable(placement[k], recovery, dead);
    }
  }

  /** Every stage of the plan can run where the plan puts it. */
  lemma PlanIsAvailable(w: World, u: World, placement: Placement, recovery: RecoveryTable, dead: set<DeviceId>)
    requires Deployed(w, placement, recovery, true) && HostsKnown(w, placement, recovery) && OnlyRewired(w, u)
    requires Viable(placement, recovery, dead) && OnlyDeadAreDown(w, dead)
    ensures forall i :: 0 <= i < |placement| ==> Available(u, HoldsOf(PlanOf(placement, recovery, dead))[i])
  {
    forall i | 0 <= i < |placement|
      ensures Available(u, HoldsOf(PlanOf(placement, recovery, dead))[i])
    {
      var h := HoldsOf(PlanOf(placement, recovery, dead))[i];
      PlanIsLoaded(w, placement, recovery, dead, i);
      assert StageViable(placement[i], recovery, dead) && h.device !in dead;
      assert SameWork(w.runners[h.device], u.runners[h.device]);
    }
  }

  lemma PlanDistinct(placement: Placement, recovery: RecoveryTable, dead: set<DeviceId>)
    requires Pipeline(placement) && Viable(placement, recovery, dead)
    ensures DistinctHolds(HoldsOf(PlanOf(placement, recovery, dead)))
  {
    PlanIsSound(placement, recovery, dead);
    PipelineDistinct(placement);
    var plan := PlanOf(placement, recovery, dead);
    forall i, j | 0 <= i < j < |plan|
      ensures HoldsOf(plan)[i] != HoldsOf(plan)[j]
    {
      assert plan[i].Key() == placement[i].Key() && plan[j].Key() == placement[j].Key();
    }
  }
}
