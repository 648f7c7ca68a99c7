/**
 Bringing the wired chain in line with the plan: promotions, next hops and evictions on
 the workers, none of which disturbs what the stages that stay hold.
 */
module Rewiring {
  import opened Wrappers
  import opened Types
  import opened Workers
  import opened Workforce
  import opened Chains
  import opened ExecutionPlans
  import opened Protocol

  /** NoRecoveryError from the plan, RpcError from a worker, RuntimeError from the gateway itself. */
  datatype GatewayError = NoRecoveryError | RpcError | RuntimeError

  /** Only wiring and promotions differ. */
  ghost predicate OnlyRewired(w: World, u: World) {
    && u.alive == w.alive && u.faults == w.faults && u.outbox == w.outbox && u.runners.Keys == w.runners.Keys
    && forall d :: d in w.runners ==> SameWork(w.runners[d], u.runners[d])
  }

  ghost predicate SameWork(r: Runner, s: Runner) {
    r.stages == s.stages && r.backupFor == s.backupFor && r.hasHead == s.hasHead && r.kv == s.kv
  }

  /** The current plan serves the request's ranges in order, each stage on a place of its own. */
  lemma PlanShape(t: Task, s: Plans)
    requires t.Valid() && PlanOk(t, s)
    ensures |s.plan| == t.Stages() && DistinctHolds(HoldsOf(s.plan)) && KeysOf(HoldsOf(s.plan)) == t.job.keys
    ensures forall i :: 0 <= i < |s.plan| ==> s.plan[i].Key() == t.job.keys[i]
  {
    PlanHoldsDistinct(t, s.plan);
  }

  // ---------- devices declared dead ----------

  ghost function Declared(s: Snapshot, d: DeviceId): Snapshot {
    s.(plans := PlanStep(s.plans, PlanEvent.MarkDead(d)))
  }

  /** The device is recorded as dead already, or its loss leaves a plan. */
  ghost predicate Declarable(s: Plans, d: DeviceId) {
    d in s.dead || Viable(s.placement, s.recovery, s.dead + {d})
  }

  /** Any declaration keeps the chain's relation to the plan, and the rest of the fleet free of KV. */
  lemma DeclaredKeeps(t: Task, s: Snapshot, wired: Placement, d: DeviceId)
    requires t.Valid() && PlanOk(t, s.plans) && SameRanges(wired, t.placement)
    requires Lags(t, s.plans, wired) && Spare(t, s, wired)
    ensures var u := Declared(s, d); PlanOk(t, u.plans) && Lags(t, u.plans, wired) && Spare(t, u, wired)
  {
    PlanOkStep(t, s.plans, d);
    var u := Declared(s, d);
    forall i | 0 <= i < |wired|
      ensures LagsAt(t, u.plans, wired, i) && DriftsEmpty(t, u, wired, i)
    {
      assert LagsAt(t, s.plans, wired, i) && LawfulAt(s.plans, i) && DriftsEmpty(t, s, wired, i);
      if u.plans.plan[i] != s.plans.plan[i] {
        PlaceOffChain(t, wired, i, u.plans.plan[i]);
        assert SpareAt(t, s, wired, HoldsOf(u.plans.plan)[i]);
      }
    }
    forall h
      ensures SpareAt(t, u, wired, h)
    {
      assert SpareAt(t, s, wired, h);
    }
  }

  /** A stage's other place is not on the chain. */
  lemma PlaceOffChain(t: Task, wired: Placement, i: nat, other: Stage)
    requires t.Valid() && SameRanges(wired, t.placement) && i < |wired|
    requires other.Key() == t.placement[i].Key() && other.device != wired[i].device
    ensures Held(other.device, other.Key()) !in HoldsOf(wired)
  {
    forall j | 0 <= j < |wired|
      ensures HoldsOf(wired)[j] != Held(other.device, other.Key())
    {
      StageOfKey(t, i);
      StageOfKey(t, j);
      assert wired[j].Key() == t.job.keys[j];
    }
  }

  /** The device that is declared dead when stage v fails: the called head's, or the one the stage was placed on. */
  function VictimDevice(t: Task, wired: Placement, v: nat): DeviceId
    requires v < |wired| == |t.placement|
  {
    if v == 0 then wired[0].device else t.placement[v].device
  }

  /** Declaring the victim dead moves its stage to the backup and no other. */
  lemma VictimDeclared(t: Task, p: nat, v: nat, s: Snapshot, wired: Placement)
    requires Stricken(t, p, v, s, wired) && v < |wired| == |t.placement|
    requires Declarable(s.plans, VictimDevice(t, wired, v))
    ensures var u := Declared(s, VictimDevice(t, wired, v));
      && Stricken(t, p, v, u, wired) && |u.plans.plan| == |s.plans.plan|
      && forall i :: 0 <= i < |s.plans.plan| && i != v ==> u.plans.plan[i] == s.plans.plan[i]
  {
    assert InDetail(t);
    var d := VictimDevice(t, wired, v);
    var u := Declared(s, d);
    DeclaredKeeps(t, s, wired, d);
    PlanOkStep(t, s.plans, d);
    if v == 0 && wired[0] != t.placement[0] {
      assert LagsAt(t, s.plans, wired, 0) && LawfulAt(s.plans, 0);
      assert !StageViable(t.placement[0], t.recovery, s.plans.dead + {d});
    }
    forall i | 0 <= i < |s.plans.plan| && i != v
      ensures u.plans.plan[i] == s.plans.plan[i] && KeptAt(t, p, v, u, wired, i)
    {
      assert KeptAt(t, p, v, s, wired, i);
      assert Apart(t.placement, i, v) && Apart(t.placement, v, i);
    }
  }

  // ---------- wiring ----------

  ghost predicate WiredUpTo(nextHops: map<Held, Held>, alive: set<DeviceId>, hs: seq<Held>, k: nat)
    requires k < |hs|
  {
    hs[k].device in alive ==>
      if k + 1 < |hs| then hs[k] in nextHops && nextHops[hs[k]] == hs[k + 1] else hs[k] !in nextHops
  }

  lemma WireOneMore(before: map<Held, Held>, after: map<Held, Held>, alive: set<DeviceId>, hs: seq<Held>, i: nat)
    requires DistinctHolds(hs) && i < |hs|
    requires forall k :: 0 <= k < i ==> WiredUpTo(before, alive, hs, k)
    requires after == if hs[i].device !in alive then before
      else if i + 1 < |hs| then before[hs[i] := hs[i + 1]] else before - {hs[i]}
    ensures forall k :: 0 <= k <= i ==> WiredUpTo(after, alive, hs, k)
  {
    forall k | 0 <= k < i
      ensures WiredUpTo(after, alive, hs, k)
    {
      assert WiredUpTo(before, alive, hs, k) && hs[k] != hs[i];
    }
  }

  lemma AllWired(nextHops: map<Held, Held>, alive: set<DeviceId>, hs: seq<Held>)
    requires forall k :: 0 <= k < |hs| ==> WiredUpTo(nextHops, alive, hs, k)
    ensures Linked(nextHops, alive, hs)
  {
    forall k | 0 <= k < |hs| - 1 && hs[k].device in alive
      ensures hs[k] in nextHops && nextHops[hs[k]] == hs[k + 1]
    {
      assert WiredUpTo(nextHops, alive, hs, k);
    }
    assert hs != [] ==> WiredUpTo(nextHops, alive, hs, |hs| - 1);
  }

  /** The workers after a request's KV was dropped on the given devices. */
  ghost function EvictedOn(w: World, ds: set<DeviceId>, r: RequestId): World {
    w.(runners := map d | d in w.runners :: if d in ds then RequestEvicted(w.runners[d], r) else w.runners[d])
  }

  /** The given devices hold nothing of the request, and everything else is as it was. */
  ghost predicate ForgottenOn(w: World, u: World, ds: set<DeviceId>, r: RequestId) {
    && u == w.(runners := u.runners) && u.runners.Keys == w.runners.Keys
    && forall d :: d in w.runners ==> RunnerForgot(w.runners[d], u.runners[d], d in ds, r)
  }

  ghost predicate RunnerForgot(x: Runner, y: Runner, forgets: bool, r: RequestId) {
    && y == x.(kv := y.kv)
    && (forall c :: c in y.kv <==> c in x.kv && !(forgets && c.request == r))
    && forall c :: c in y.kv ==> y.kv[c] == x.kv[c]
  }

  lemma EvictedIsForgotten(w: World, ds: set<DeviceId>, r: RequestId)
    ensures ForgottenOn(w, EvictedOn(w, ds, r), ds, r)
  {}

  lemma EvictOneMore(w: World, ds: set<DeviceId>, rest: set<DeviceId>, d: DeviceId, r: RequestId)
    requires ds <= w.runners.Keys && d in rest
    ensures var u := EvictedOn(w, ds - rest, r);
      EvictedOn(w, ds - (rest - {d}), r) == if d in ds then OnRunner(u, d, RequestEvicted(u.runners[d], r)) else u
  {
    var u := EvictedOn(w, ds - rest, r);
    var next := if d in ds then OnRunner(u, d, RequestEvicted(u.runners[d], r)) else u;
    assert EvictedOn(w, ds - (rest - {d}), r).runners == next.runners;
  }

  /** Wiring and promotions do not disturb what is known. */
  lemma RewiredKeeps(t: Task, p: nat, v: nat, s: Snapshot, wired: Placement, u: World)
    requires Stricken(t, p, v, s, wired) && OnlyRewired(s.world, u)
    ensures Stricken(t, p, v, s.(world := u), wired)
  {
    hide PlanOk, Lags, OutboxSound, MirrorsSound, ReplicaSound, ParitySound;
    assert InDetail(t);
    forall i | 0 <= i < t.Stages() && i != v
      ensures KeptAt(t, p, v, s.(world := u), wired, i)
    {
      assert KeptAt(t, p, v, s, wired, i);
    }
    forall h
      ensures SpareAt(t, s.(world := u), wired, h)
    {
      assert SpareAt(t, s, wired, h);
    }
    forall i | 0 <= i < |wired|
      ensures DriftsEmpty(t, s.(world := u), wired, i)
    {
      assert DriftsEmpty(t, s, wired, i);
    }
  }

  /** Wiring and promotions do not change who can run. */
  lemma RewiredUp(w: World, u: World, hs: seq<Held>, i: nat, p: nat)
    requires OnlyRewired(w, u)
    ensures AllUp(u, hs, i, p) <==> AllUp(w, hs, i, p)
  {
    forall j | i <= j < |hs|
      ensures Down(u, hs[j], p) <==> Down(w, hs[j], p)
    {
      var d := hs[j].device;
      assert d in w.runners ==> SameWork(w.runners[d], u.runners[d]);
    }
  }

  /** Neither does dropping KV. */
  lemma EvictedUp(w: World, ds: set<DeviceId>, r: RequestId, hs: seq<Held>, i: nat, p: nat)
    ensures AllUp(EvictedOn(w, ds, r), hs, i, p) <==> AllUp(w, hs, i, p)
  {
    forall j | i <= j < |hs|
      ensures Down(EvictedOn(w, ds, r), hs[j], p) <==> Down(w, hs[j], p)
    {}
  }

  // ---------- on the workers ----------

  /** Re-issue every next hop of the plan; unreachable workers are skipped. */
  method RewireChain(fleet: Fleet, plan: Placement)
    requires fleet.Valid() && DistinctHolds(HoldsOf(plan))
    modifies fleet`nextHops
    ensures fleet.Valid() && Linked(fleet.nextHops, fleet.alive, HoldsOf(plan))
  {
    ghost var hs := HoldsOf(plan);
    for i := 0 to |plan|
      invariant fleet.Valid()
      invariant forall k :: 0 <= k < i ==> WiredUpTo(fleet.nextHops, fleet.alive, hs, k)
    {
      var next := None;
      if i + 1 < |plan| {
        next := Some(Held(plan[i + 1].device, plan[i + 1].Key()));
      }
      assert Held(plan[i].device, plan[i].Key()) == hs[i] && (next.Some? ==> next.value == hs[i + 1]);
      ghost var before := fleet.nextHops;
      var wired := fleet.SetNextHop(Held(plan[i].device, plan[i].Key()), next);
      WireOneMore(before, fleet.nextHops, fleet.alive, hs, i);
    }
    AllWired(fleet.nextHops, fleet.alive, hs);
  }

  /** The device's backup host is alive and holds a backup for it. */
  ghost predicate Promotable(w: World, recovery: RecoveryTable, d: DeviceId) {
    && d in recovery && recovery[d] in w.alive && recovery[d] in w.runners
    && BackupsFor(w.runners[recovery[d]], d) != {}
  }

  /** Promote the backups of the given devices, in order, up to the first one that cannot be. */
  method PromoteAll(fleet: Fleet, recovery: RecoveryTable, dead: seq<DeviceId>) returns (ok: bool)
    requires fleet.Valid()
    modifies fleet.Repr()
    ensures fleet.Valid() && OnlyRewired(old(fleet.State()), fleet.State())
    ensures ok <==> forall i :: 0 <= i < |dead| ==> Promotable(old(fleet.State()), recovery, dead[i])
  {
    for i := 0 to |dead|
      invariant fleet.Valid() && OnlyRewired(old(fleet.State()), fleet.State())
      invariant forall j :: 0 <= j < i ==> Promotable(old(fleet.State()), recovery, dead[j])
    {
      if dead[i] !in recovery {
        return false;
      }
      var promoted := fleet.PromoteBackup(recovery[dead[i]], dead[i]);
      if !promoted {
        return false;
      }
    }
    ok := true;
  }

  /** Promote the backups of the given devices, in order, and then wire the plan. */
  method PromoteAndRewire(fleet: Fleet, plan: Placement, recovery: RecoveryTable, dead: seq<DeviceId>)
    returns (r: Result<(), GatewayError>)
    requires fleet.Valid() && DistinctHolds(HoldsOf(plan))
    modifies fleet.Repr()
    ensures fleet.Valid() && OnlyRewired(old(fleet.State()), fleet.State())
    ensures r.Success? ==> Linked(fleet.nextHops, fleet.alive, HoldsOf(plan))
    ensures r.Success? ==> forall i :: 0 <= i < |dead| ==> dead[i] in recovery && recovery[dead[i]] in old(fleet.alive)
    ensures r.Success? <==> forall i :: 0 <= i < |dead| ==> Promotable(old(fleet.State()), recovery, dead[i])
  {
    hide Linked, Fleet.Valid;
    var ok := PromoteAll(fleet, recovery, dead);
    if !ok {
      return Failure(RuntimeError);
    }
    ghost var w := fleet.State();
    RewireChain(fleet, plan);
    assert fleet.State() == w.(nextHops := fleet.nextHops);
    r := Success(());
  }

  /** Drop a request's KV on every device not known dead; unreachable ones are ignored. */
  method EvictKvForRequest(fleet: Fleet, dead: set<DeviceId>, r: RequestId)
    requires fleet.Valid()
    modifies fleet.Repr()
    ensures fleet.Valid()
    ensures fleet.State() == EvictedOn(old(fleet.State()), old(fleet.alive) - dead, r)
    ensures ForgottenOn(old(fleet.State()), fleet.State(), old(fleet.alive) - dead, r)
  {
    ghost var w, ds := fleet.State(), fleet.alive - dead;
    var rest := fleet.runners.Keys;
    assert EvictedOn(w, ds - rest, r).runners == w.runners;
    while rest != {}
      invariant fleet.Valid() && rest <= fleet.runners.Keys
      invariant fleet.State() == EvictedOn(w, ds - rest, r)
      decreases rest
    {
      var d :| d in rest;
      EvictOneMore(w, ds, rest, d, r);
      rest := rest - {d};
      if d !in dead {
        fleet.EvictRequest(d, r);
      }
    }
    assert ds - rest == ds;
    EvictedIsForgotten(w, ds, r);
  }
}
