/**
 What happens around a call: devices crash, devices are reported dead, and messages arrive, in
 any number and at any time; and what it leaves of the request.
 */
module Intervals {
  import opened Wrappers
  import opened Types
  import opened Workforce
  import opened ExecutionPlans
  import opened Protocol
  import opened Rewiring
  import opened Recoverability
  import opened Gateway
  import opened Delivering

  // ---------- what the environment does ----------

  /** Devices crash or will crash when called, devices are reported dead, and messages arrive. */
  datatype Moves = Moves(crashed: set<DeviceId>, armed: set<Fault>, deliveries: seq<Delivery>, reports: seq<DeviceId>)

  /** The environment before a position is called, and between its failure and its recovery. */
  datatype Interval = Interval(before: Moves, after: Moves)

  ghost function Disturbed(s: Snapshot, m: Moves): Snapshot {
    s.(world := s.world.(alive := s.world.alive - m.crashed, faults := s.world.faults + m.armed))
  }

  /** The plans after a row of reports. */
  ghost function Reported(s: Plans, ds: seq<DeviceId>): Plans {
    if ds == [] then s else PlanStep(Reported(s, ds[..|ds| - 1]), PlanEvent.MarkDead(ds[|ds| - 1]))
  }

  function Named(ds: seq<DeviceId>): set<DeviceId> {
    set d | d in ds
  }

  /** All of them are recorded, whether they leave a plan or not. */
  lemma {:induction false} AllRecorded(s: Plans, ds: seq<DeviceId>)
    ensures var u := Reported(s, ds);
      u.placement == s.placement && u.recovery == s.recovery && u.dead == s.dead + Named(ds)
  {
    if ds != [] {
      AllRecorded(s, ds[..|ds| - 1]);
      assert ds == ds[..|ds| - 1] + [ds[|ds| - 1]];
      assert Named(ds) == Named(ds[..|ds| - 1]) + {ds[|ds| - 1]};
    }
  }

  lemma {:induction false} ReportsKeepPlans(t: Task, s: Plans, ds: seq<DeviceId>)
    requires t.Valid() && PlanOk(t, s)
    ensures PlanOk(t, Reported(s, ds))
  {
    if ds != [] {
      ReportsKeepPlans(t, s, ds[..|ds| - 1]);
      PlanOkStep(t, Reported(s, ds[..|ds| - 1]), ds[|ds| - 1]);
    }
  }

  /** The reports do not take stage i off its device: they do not name it, or its loss leaves no plan. */
  ghost predicate KeepsStage(t: Task, ds: seq<DeviceId>, i: nat)
    requires i < |t.placement|
  {
    t.placement[i].device in ds ==> !Viable(t.placement, t.recovery, {t.placement[i].device})
  }

  lemma {:induction false} ReportsElsewhere(t: Task, s: Plans, ds: seq<DeviceId>, i: nat)
    requires t.Valid() && PlanOk(t, s) && i < |t.placement| && KeepsStage(t, ds, i)
    ensures PlanOk(t, Reported(s, ds)) && i < |s.plan| == |Reported(s, ds).plan| == |t.placement|
    ensures Reported(s, ds).plan[i] == s.plan[i]
  {
    if ds != [] {
      ReportsElsewhere(t, s, ds[..|ds| - 1], i);
      var u, d := Reported(s, ds[..|ds| - 1]), ds[|ds| - 1];
      PlanOkStep(t, u, d);
      if d == t.placement[i].device && Viable(t.placement, t.recovery, u.dead + {d}) {
        ViableMonotone(t.placement, t.recovery, {d}, u.dead + {d});
      }
    }
  }

  /** They take no stage off its device. */
  ghost predicate KeepsStages(t: Task, ds: seq<DeviceId>) {
    forall i :: 0 <= i < |t.placement| ==> KeepsStage(t, ds, i)
  }

  /** Reports of devices without a stage, or without which there is no plan, leave the plan as it is. */
  lemma {:induction false} ReportsOfOthers(t: Task, s: Plans, ds: seq<DeviceId>)
    requires t.Valid() && PlanOk(t, s) && KeepsStages(t, ds)
    ensures Reported(s, ds).plan == s.plan && PlanOk(t, Reported(s, ds))
  {
    forall i | 0 <= i < |t.placement|
      ensures |s.plan| == |Reported(s, ds).plan| == |t.placement| && Reported(s, ds).plan[i] == s.plan[i]
    {
      ReportsElsewhere(t, s, ds, i);
    }
    ReportsElsewhere(t, s, ds, 0);
  }

  /** A report that leaves no plan leaves the plan as it is. */
  lemma ReportSticks(t: Task, s: Plans, d: DeviceId)
    requires t.Valid() && PlanOk(t, s) && !Viable(s.placement, s.recovery, s.dead + {d})
    ensures PlanOk(t, PlanStep(s, PlanEvent.MarkDead(d))) && Stuck(PlanStep(s, PlanEvent.MarkDead(d)), s.plan)
  {
    PlanOkStep(t, s, d);
  }

  /** So does every report after it. */
  lemma {:induction false} StuckStays(t: Task, s: Plans, ds: seq<DeviceId>, wired: Placement)
    requires t.Valid() && PlanOk(t, s) && Stuck(s, wired)
    ensures PlanOk(t, Reported(s, ds)) && Stuck(Reported(s, ds), wired)
  {
    if ds != [] {
      StuckStays(t, s, ds[..|ds| - 1], wired);
      var u, d := Reported(s, ds[..|ds| - 1]), ds[|ds| - 1];
      if Viable(u.placement, u.recovery, u.dead + {d}) {
        ViableMonotone(u.placement, u.recovery, u.dead, u.dead + {d});
      }
      ReportSticks(t, u, d);
    }
  }

  // ---------- it takes nothing away ----------

  /** Between two calls, or with position p failed at stage v. */
  ghost predicate Standing(t: Task, p: nat, v: Option<nat>, s: Snapshot, wired: Placement) {
    match v
    case None => Ready(t, p, s, wired)
    case Some(i) => Stricken(t, p, i, s, wired)
  }

  /** The position whose statements the caches may hold: the one before, or the failed one. */
  function KnownPosition(p: nat, v: Option<nat>): nat {
    if v.None? && p > 0 then p - 1 else p
  }

  function KnownStages(t: Task, p: nat, v: Option<nat>): nat {
    match v
    case None => if p == 0 then 0 else t.Stages()
    case Some(i) => i
  }

  /** The parts of a chain's health that a snapshot's caches have no part in. */
  lemma SpareOf(t: Task, s: Snapshot, u: Snapshot, wired: Placement)
    requires Spare(t, s, wired) && u.plans == s.plans
    requires forall h :: KvAt(u.world, h, t.request) == KvAt(s.world, h, t.request)
    ensures Spare(t, u, wired)
  {
    forall h
      ensures SpareAt(t, u, wired, h)
    {
      assert SpareAt(t, s, wired, h);
    }
    forall i | 0 <= i < |wired|
      ensures DriftsEmpty(t, u, wired, i)
    {
      assert DriftsEmpty(t, s, wired, i);
    }
  }

  /** Crashes, and crashes to come, take nothing away from the devices that stay. */
  lemma DisturbedStands(t: Task, p: nat, v: Option<nat>, s: Snapshot, wired: Placement, m: Moves)
    requires Standing(t, p, v, s, wired)
    ensures Standing(t, p, v, Disturbed(s, m), wired)
  {
    hide PlanOk, Lags, Spare, OutboxSound, MirrorsSound, ReplicaSound, ParitySound;
    assert InDetail(t);
    var u := Disturbed(s, m);
    SpareOf(t, s, u, wired);
    if v.None? {
      LinkedFewer(s.world.nextHops, s.world.alive, u.world.alive, HoldsOf(wired));
      forall i | 0 <= i < |wired|
        ensures LoadedAt(u.world, HoldsOf(wired)[i]) && HoldsBefore(u.world, t, HoldsOf(wired)[i], Done(p, 0, i), i)
      {
        assert LoadedAt(s.world, HoldsOf(wired)[i]) && HoldsBefore(s.world, t, HoldsOf(wired)[i], Done(p, 0, i), i);
      }
    } else {
      forall i | 0 <= i < t.Stages() && i != v.value
        ensures KeptAt(t, p, v.value, u, wired, i)
      {
        assert KeptAt(t, p, v.value, s, wired, i);
      }
    }
  }

  /** Neither does any report. */
  lemma DeclaredStands(t: Task, p: nat, v: Option<nat>, s: Snapshot, wired: Placement, d: DeviceId)
    requires Standing(t, p, v, s, wired)
    ensures Standing(t, p, v, Declared(s, d), wired)
  {
    hide PlanOk, Lags, Spare, OutboxSound, MirrorsSound, ReplicaSound, ParitySound;
    assert InDetail(t);
    DeclaredKeeps(t, s, wired, d);
    if v.Some? {
      forall i | 0 <= i < t.Stages() && i != v.value
        ensures KeptAt(t, p, v.value, Declared(s, d), wired, i)
      {
        assert KeptAt(t, p, v.value, s, wired, i);
      }
    }
  }

  /** Nor what the caches take in. */
  lemma DeliveredStands(t: Task, p: nat, v: Option<nat>, s: Snapshot, u: Snapshot, wired: Placement)
    requires Standing(t, p, v, s, wired) && u.world == s.world && u.plans == s.plans
    requires Sound(t, KnownPosition(p, v), KnownStages(t, p, v), u)
    ensures Standing(t, p, v, u, wired)
  {
    assert InDetail(t);
    SpareOf(t, s, u, wired);
    if v.Some? {
      forall i | 0 <= i < t.Stages() && i != v.value
        ensures KeptAt(t, p, v.value, u, wired, i)
      {
        assert KeptAt(t, p, v.value, s, wired, i);
      }
    }
  }

  lemma StandingSound(t: Task, p: nat, v: Option<nat>, s: Snapshot, wired: Placement)
    requires Standing(t, p, v, s, wired)
    ensures t.Valid() && PlanOk(t, s.plans) && Sound(t, KnownPosition(p, v), KnownStages(t, p, v), s)
    ensures |wired| == |s.plans.plan| == |t.placement| == t.Stages() > 0
  {
    assert InDetail(t);
    PlanShape(t, s.plans);
  }

  /** Devices crash and faults are armed. */
  method Crash(gw: RequestGateway, m: Moves, ghost r: RequestId)
    requires gw.Valid()
    modifies gw.fleet`alive, gw.fleet`faults
    ensures gw.Valid() && gw.Snap(r) == Disturbed(old(gw.Snap(r)), m)
  {
    gw.fleet.Disturb(m.crashed, m.armed);
  }

  /** The failure detector reports a device: it is recorded, and an error is swallowed. */
  method ReportDead(gw: RequestGateway, d: DeviceId, ghost r: RequestId)
    requires gw.Valid()
    modifies gw.plans
    ensures gw.Valid() && gw.Snap(r) == Declared(old(gw.Snap(r)), d)
  {
    var marked := gw.plans.MarkDead(d);
  }

  method ReportAll(gw: RequestGateway, ds: seq<DeviceId>, r: RequestId, ghost t: Task, ghost p: nat,
      ghost v: Option<nat>,
      ghost wired: Placement)
    requires gw.Valid() && r == t.request && Standing(t, p, v, gw.Snap(r), wired)
    modifies gw.plans
    ensures gw.Valid() && Standing(t, p, v, gw.Snap(r), wired)
    ensures gw.Snap(r) == old(gw.Snap(r)).(plans := Reported(old(gw.plans.State()), ds))
  {
    hide Standing;
    ghost var s := gw.Snap(r);
    for i := 0 to |ds|
      invariant gw.Valid() && Standing(t, p, v, gw.Snap(r), wired)
      invariant gw.Snap(r) == s.(plans := Reported(s.plans, ds[..i]))
    {
      assert ds[..i + 1][..i] == ds[..i];
      DeclaredStands(t, p, v, gw.Snap(r), wired, ds[i]);
      ReportDead(gw, ds[i], r);
    }
    assert ds[..|ds|] == ds;
  }

  method DeliverAll(gw: RequestGateway, ds: seq<Delivery>, r: RequestId, ghost t: Task, ghost p: nat,
      ghost v: Option<nat>,
      ghost wired: Placement)
    requires gw.Valid() && gw.Serves(t) && r == t.request && Standing(t, p, v, gw.Snap(r), wired)
    modifies gw.cache, gw.parity, gw.replica
    ensures gw.Valid() && Standing(t, p, v, gw.Snap(r), wired)
    ensures gw.Snap(r).world == old(gw.Snap(r).world) && gw.Snap(r).plans == old(gw.Snap(r).plans)
    ensures CachesOf(gw) == AllTaken(LimitsOf(gw), old(CachesOf(gw)), ds, gw.fleet.outbox, r)
  {
    hide Standing, Sound, AllTaken;
    ghost var s := gw.Snap(r);
    StandingSound(t, p, v, s, wired);
    IngestAll(gw, ds, r, t, KnownPosition(p, v), KnownStages(t, p, v));
    DeliveredStands(t, p, v, s, gw.Snap(r), wired);
  }

  // ---------- everything there is ----------

  /** Workers, plan, and all that the three caches hold, of whatever request. */
  datatype Situation = Situation(world: World, plans: Plans, caches: Caches)

  ghost function Everything(gw: RequestGateway): Situation
    reads gw.Repr()
  {
    Situation(gw.fleet.State(), gw.plans.State(), CachesOf(gw))
  }

  /** What of it concerns one request. */
  ghost function About(e: Situation, r: RequestId): Snapshot {
    Snapshot(e.world, e.plans, BlobsIn(e.caches.mirror, r), BlobsIn(e.caches.replica, r), LogsIn(e.caches, r))
  }

  lemma AboutIsSnap(gw: RequestGateway, r: RequestId)
    ensures About(Everything(gw), r) == gw.Snap(r)
  {}

  /** Crashes first, then what arrives, then the reports. */
  ghost function Elapsed(l: Limits, e: Situation, m: Moves, r: RequestId): Situation {
    Situation(
      e.world.(alive := e.world.alive - m.crashed, faults := e.world.faults + m.armed),
      Reported(e.plans, m.reports),
      AllTaken(l, e.caches, m.deliveries, e.world.outbox, r))
  }

  /** All that happens at one time. */
  method Happen(gw: RequestGateway, m: Moves, r: RequestId, ghost t: Task, ghost p: nat, ghost v: Option<nat>,
      ghost wired: Placement)
    requires gw.Valid() && gw.Serves(t) && r == t.request && Standing(t, p, v, gw.Snap(r), wired)
    modifies gw.fleet`alive, gw.fleet`faults, gw.plans, gw.cache, gw.parity, gw.replica
    ensures gw.Valid() && Standing(t, p, v, gw.Snap(r), wired)
    ensures gw.Snap(r).world == Disturbed(old(gw.Snap(r)), m).world
    ensures gw.Snap(r).plans == Reported(old(gw.Snap(r).plans), m.reports)
    ensures Everything(gw) == Elapsed(LimitsOf(gw), old(Everything(gw)), m, r)
    ensures gw.fleet.alive == old(gw.fleet.alive) - m.crashed && gw.fleet.faults == old(gw.fleet.faults) + m.armed
    ensures gw.plans.dead == old(gw.plans.dead) + Named(m.reports)
  {
    hide Standing, AllTaken, Fleet.Valid;
    AllRecorded(gw.plans.State(), m.reports);
    DisturbedStands(t, p, v, gw.Snap(r), wired, m);
    Crash(gw, m, r);
    DeliverAll(gw, m.deliveries, r, t, p, v, wired);
    ReportAll(gw, m.reports, r, t, p, v, wired);
  }
}
