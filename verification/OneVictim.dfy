/**
 One device that runs a stage behind the head may crash, or be due to, or be reported dead, at
 any time and rightly or not; all others stay up. As long as its backup is in place and the
 mirror has room, every position is run: by the chain as it was wired, or, once the device has
 been missed, after a recovery, by the chain with the backup.
 */
module OneVictim {
  import opened Types
  import opened Reference
  import opened Workers
  import opened Workforce
  import opened Chains
  import opened ExecutionPlans
  import opened Protocol
  import opened Rebuild
  import opened ParityRecovery
  import opened Recoverability
  import opened Gateway
  import opened Delivering
  import opened Keeping
  import opened Calling
  import opened Intervals
  import opened Outcomes
  import opened Deployment
  import BlobStore

  // ---------- the device and its backup ----------

  function Device(t: Task, c: nat): DeviceId
    requires c < |t.placement|
  {
    t.placement[c].device
  }

  /** Stage c, behind the head, has a backup on another device. */
  ghost predicate Covered(t: Task, c: nat) {
    0 < c < |t.placement| && Device(t, c) in t.recovery && t.recovery[Device(t, c)] != Device(t, c)
  }

  function Host(t: Task, c: nat): DeviceId
    requires c < |t.placement| && Device(t, c) in t.recovery
  {
    t.recovery[Device(t, c)]
  }

  /** The placement with stage c on its backup. */
  function Moved(t: Task, c: nat): Placement
    requires c < |t.placement| && Device(t, c) in t.recovery
  {
    t.placement[c := t.placement[c].(device := Host(t, c))]
  }

  /** A device that neither runs a stage nor backs up stage c. */
  ghost predicate Aside(t: Task, c: nat, d: DeviceId)
    requires c < |t.placement| && Device(t, c) in t.recovery
  {
    d != Host(t, c) && forall i :: 0 <= i < |t.placement| ==> t.placement[i].device != d
  }

  /** Only the device crashes, and only it, or a device that stands aside, is reported. */
  ghost predicate Concerns(t: Task, c: nat, m: Moves)
    requires c < |t.placement| && Device(t, c) in t.recovery
  {
    && m.crashed <= {Device(t, c)} && (forall f :: f in m.armed ==> f.at.device == Device(t, c))
    && forall d :: d in m.reports ==> d == Device(t, c) || Aside(t, c, d)
  }

  ghost predicate ConcernedAt(t: Task, c: nat, schedule: nat -> Interval, n: nat) {
    Covered(t, c) && Concerns(t, c, schedule(n).before) && Concerns(t, c, schedule(n).after)
  }

  // ---------- what stays ----------

  /** Every other stage's device and the backup's are alive, and no crash is due elsewhere. */
  ghost predicate OthersUp(t: Task, c: nat, w: World)
    requires Covered(t, c)
  {
    && Host(t, c) in w.alive && (forall f :: f in w.faults ==> f.at.device == Device(t, c))
    && forall i :: 0 <= i < |t.placement| && i != c ==> t.placement[i].device in w.alive
  }

  ghost predicate DeadAside(t: Task, c: nat, s: Plans)
    requires Covered(t, c)
  {
    forall d :: d in s.dead ==> d == Device(t, c) || Aside(t, c, d)
  }

  lemma StillViable(t: Task, c: nat, dead: set<DeviceId>)
    requires t.Valid() && Covered(t, c) && forall d :: d in dead ==> d == Device(t, c) || Aside(t, c, d)
    ensures Viable(t.placement, t.recovery, dead)
    ensures Device(t, c) in dead ==> PlanOf(t.placement, t.recovery, dead) == Moved(t, c)
    ensures Device(t, c) !in dead ==> PlanOf(t.placement, t.recovery, dead) == t.placement
  {
    forall i | 0 <= i < |t.placement|
      ensures StageViable(t.placement[i], t.recovery, dead) && (i != c ==> t.placement[i].device !in dead)
    {
      assert Apart(t.placement, i, c) && Apart(t.placement, c, i);
    }
  }

  /** The plan is the placement, with stage c on its backup exactly if its device was declared dead. */
  lemma PlanIs(t: Task, c: nat, s: Plans)
    requires t.Valid() && PlanOk(t, s) && Covered(t, c) && DeadAside(t, c, s)
    ensures s.plan == if Device(t, c) in s.dead then Moved(t, c) else t.placement
  {
    StillViable(t, c, s.dead);
  }

  /** Reports that concern the device alone. */
  lemma {:induction false} ReportsStayAside(t: Task, c: nat, s: Plans, m: Moves)
    requires t.Valid() && PlanOk(t, s) && Covered(t, c) && DeadAside(t, c, s) && Concerns(t, c, m)
    ensures PlanOk(t, Reported(s, m.reports)) && DeadAside(t, c, Reported(s, m.reports))
    ensures s.dead <= Reported(s, m.reports).dead
  {
    ReportsKeepPlans(t, s, m.reports);
    AllRecorded(s, m.reports);
  }

  // ---------- a recovery ----------

  /** Everything a recovery of stage c needs: the others up and loaded, the backup in place, the head's history. */
  ghost predicate Prepared(t: Task, c: nat, s: Snapshot)
    requires Covered(t, c)
  {
    && t.Valid() && WorldValid(s.world) && PlanOk(t, s.plans) && DeadAside(t, c, s.plans) && OthersUp(t, c, s.world)
    && BackupAt(s.world, Host(t, c), t.placement[c])
    && (forall i :: 0 <= i < |t.placement| && i != c ==> LoadedAt(s.world, HoldsOf(t.placement)[i]))
    && HeadSlot(t, 0) in s.mirrors
  }

  /** With the backup in its place every stage is up. */
  lemma MovedIsUp(t: Task, c: nat, w: World, q: nat)
    requires t.Valid() && Covered(t, c) && WorldValid(w) && OthersUp(t, c, w)
    requires LoadedAt(w, HoldsOf(Moved(t, c))[c])
    requires forall i :: 0 <= i < |t.placement| && i != c ==> LoadedAt(w, HoldsOf(t.placement)[i])
    ensures AllUp(w, HoldsOf(Moved(t, c)), 0, q)
  {
    var hs := HoldsOf(Moved(t, c));
    forall i | 0 <= i < |hs|
      ensures !Down(w, hs[i], q)
    {
      assert Apart(t.placement, i, c) && Apart(t.placement, c, i);
      assert i != c ==> hs[i] == HoldsOf(t.placement)[i] && LoadedAt(w, hs[i]);
    }
  }

  lemma VictimGone(t: Task, c: nat, s: Snapshot)
    requires Covered(t, c) && Prepared(t, c, s)
    ensures var u := WithoutVictim(t, s, t.placement, c);
      && PlanOk(t, u.plans) && DeadAside(t, c, u.plans) && Device(t, c) in u.plans.dead && u.plans.plan == Moved(t, c)
      && Substitutable(t, s, t.placement, c)
  {
    PlanOkStep(t, s.plans, Device(t, c));
    StillViable(t, c, s.plans.dead + {Device(t, c)});
    PlanIs(t, c, WithoutVictim(t, s, t.placement, c).plans);
    assert t.placement[c].Key() in BackupsFor(s.world.runners[Host(t, c)], Device(t, c));
  }

  /** It succeeds in every mode, and rightly. */
  lemma VictimRecovers(mode: Mode, k: nat, t: Task, p: nat, c: nat, s: Snapshot)
    requires Covered(t, c) && Prepared(t, c, s)
    ensures Recoverable(mode, k, t, p, c, s, t.placement) && Rightly(mode, k, t, p, c, s, t.placement)
    ensures !Paired(t, p, c, s, t.placement, k)
  {
    hide Prepared;
    PreparedParts(t, c, s);
    VictimGone(t, c, s);
    var d := WithoutVictim(t, s, t.placement, c);
    forall q
      ensures AllUp(d.world, HoldsOf(d.plans.plan), 0, q)
    {
      MovedIsUp(t, c, s.world, q);
    }
    assert Resumable(t, p, c, d) && Replayable(t, p, d) by {
      assert AllUp(d.world, HoldsOf(d.plans.plan), 0, p);
    }
    OnlyOneDead(t, p, c, s, k);
    PlanIs(t, c, s.plans);
  }

  lemma PreparedParts(t: Task, c: nat, s: Snapshot)
    requires Covered(t, c) && Prepared(t, c, s)
    ensures t.Valid() && WorldValid(s.world) && PlanOk(t, s.plans) && DeadAside(t, c, s.plans)
    ensures OthersUp(t, c, s.world) && LoadedAt(s.world, HoldsOf(Moved(t, c))[c]) && HeadSlot(t, 0) in s.mirrors
    ensures forall i :: 0 <= i < |t.placement| && i != c ==> LoadedAt(s.world, HoldsOf(t.placement)[i])
  {}

  /** One dead stage is no pair. */
  lemma OnlyOneDead(t: Task, p: nat, c: nat, s: Snapshot, k: nat)
    requires t.Valid() && Covered(t, c) && DeadAside(t, c, s.plans)
    ensures !Paired(t, p, c, s, t.placement, k)
  {
    forall x: nat, y: nat
      ensures !PairRescued(t, p, c, x, y, s, t.placement, k)
    {
      if OnlyDead(t, s.plans.dead, x, y) {
        TwoDead(t, c, s.plans.dead, x, y);
      }
    }
  }

  lemma TwoDead(t: Task, c: nat, dead: set<DeviceId>, x: nat, y: nat)
    requires t.Valid() && Covered(t, c) && OnlyDead(t, dead, x, y)
    ensures exists d :: d in dead && d != Device(t, c) && !Aside(t, c, d)
  {
    assert Apart(t.placement, x, y);
    var d := if x == c then t.placement[y].device else t.placement[x].device;
    assert Apart(t.placement, x, c) && Apart(t.placement, c, x);
    assert d in dead;
  }

  // ---------- one step ----------

  /** The bytes that step n brings into the mirror: what arrives, and the head's own input. */
  ghost function StepBytes(t: Task, n: nat, iv: Interval): nat {
    InputBytes(iv.before.deliveries) + |In(t.job, n, 0)| + InputBytes(iv.after.deliveries)
  }

  ghost function Traffic(t: Task, schedule: nat -> Interval, n: nat): nat {
    if n == 0 then 0 else Traffic(t, schedule, n - 1) + StepBytes(t, n - 1, schedule(n - 1))
  }

  lemma {:induction false} TrafficGrows(t: Task, schedule: nat -> Interval, n: nat, m: nat)
    requires n <= m
    ensures Traffic(t, schedule, n) <= Traffic(t, schedule, m)
    decreases m
  {
    if n < m {
      TrafficGrows(t, schedule, n, m - 1);
    }
  }

  /** Nothing has been missed yet: the chain is the placement, and the mirror has the head's first input. */
  ghost predicate Unmissed(l: Limits, t: Task, c: nat, n: nat, e: Situation, chain: Placement)
    requires Covered(t, c)
  {
    && chain == t.placement && BackupAt(e.world, Host(t, c), t.placement[c]) && Tidy(l, e.caches)
    && (n > 0 ==> HeadSlot(t, 0) in BlobsIn(e.caches.mirror, t.request))
  }

  /** The device was missed: the chain runs stage c on its backup. */
  ghost predicate Missed(t: Task, c: nat, e: Situation, chain: Placement)
    requires Covered(t, c)
  {
    chain == Moved(t, c) && Device(t, c) in e.plans.dead
  }

  /** What holds between two steps. */
  ghost predicate Bearing(l: Limits, t: Task, c: nat, n: nat, e: Situation, chain: Placement) {
    && Covered(t, c) && OthersUp(t, c, e.world) && DeadAside(t, c, e.plans)
    && (Unmissed(l, t, c, n, e, chain) || Missed(t, c, e, chain))
  }

  lemma DeviceAlone(t: Task, c: nat)
    requires t.Valid() && Covered(t, c)
    ensures forall i :: 0 <= i < |t.placement| && i != c ==> t.placement[i].device != Device(t, c)
    ensures t.placement[c].device != Moved(t, c)[c].device && t.placement != Moved(t, c)
  {
    forall i | 0 <= i < |t.placement| && i != c
      ensures t.placement[i].device != Device(t, c)
    {
      assert Apart(t.placement, i, c) && Apart(t.placement, c, i);
    }
  }

  /** What happens to the device alone changes nothing of that. */
  lemma BearsMoves(l: Limits, t: Task, c: nat, n: nat, e: Situation, m: Moves, chain: Placement)
    requires t.Valid() && PlanOk(t, e.plans) && Bearing(l, t, c, n, e, chain) && Concerns(t, c, m)
    requires BlobStore.StoredBytes(e.caches.mirror) + InputBytes(m.deliveries) <= l.mirrorBytes || chain == Moved(t, c)
    ensures var u := Elapsed(l, e, m, t.request);
      && PlanOk(t, u.plans) && Bearing(l, t, c, n, u, chain)
      && (chain != Moved(t, c) ==>
          BlobStore.StoredBytes(u.caches.mirror) <= BlobStore.StoredBytes(e.caches.mirror) + InputBytes(m.deliveries))
  {
    hide BlobStore.StoredBytes, AllTaken, Tidy, PlanOk;
    ReportsStayAside(t, c, e.plans, m);
    DeviceAlone(t, c);
    if chain != Moved(t, c) {
      InputsKept(l, e.caches, m.deliveries, e.world.outbox, t.request);
    }
  }

  /** The plan still begins with the chain's head. */
  lemma SameHeadStill(l: Limits, t: Task, c: nat, n: nat, e: Situation, chain: Placement)
    requires t.Valid() && PlanOk(t, e.plans) && Bearing(l, t, c, n, e, chain)
    ensures SameHead(e.plans.plan, chain)
  {
    PlanIs(t, c, e.plans);
  }

  /** No stage but c can be down, and after the recovery none. */
  lemma OnlyVictimDown(l: Limits, t: Task, c: nat, n: nat, e: Situation, chain: Placement)
    requires Ready(t, n, About(e, t.request), chain) && Bearing(l, t, c, n, e, chain)
    ensures t.Valid() && WorldValid(e.world) && PlanOk(t, e.plans) && |chain| == t.Stages() == |t.placement|
    ensures NextDown(n, e.world, chain) in {c, t.Stages()}
    ensures Missed(t, c, e, chain) && chain != t.placement ==> NextDown(n, e.world, chain) == t.Stages()
    ensures forall i :: 0 <= i < |t.placement| && i != c ==> LoadedAt(e.world, HoldsOf(t.placement)[i])
  {
    assert InDetail(t);
    var hs := HoldsOf(chain);
    forall i | 0 <= i < |hs|
      ensures LoadedAt(e.world, hs[i]) && (i != c ==> hs[i] == HoldsOf(t.placement)[i])
    {}
    if Missed(t, c, e, chain) {
      MovedIsUp(t, c, e.world, n);
    }
    forall i | 0 <= i < |hs| && i != c
      ensures !Down(e.world, hs[i], n)
    {
      assert Apart(t.placement, i, c) && Apart(t.placement, c, i);
    }
  }

  /** A failed call leaves everything prepared. */
  lemma {:induction false} FailurePrepared(l: Limits, t: Task, c: nat, n: nat, e: Situation, pushKv: bool, after: Moves)
    requires Ready(t, n, About(e, t.request), t.placement) && Bearing(l, t, c, n, e, t.placement)
    requires Unmissed(l, t, c, n, e, t.placement) && WorldValid(e.world) && NextDown(n, e.world, t.placement) == c
    requires Concerns(t, c, after)
    requires BlobStore.StoredBytes(e.caches.mirror) + |In(t.job, n, 0)| + InputBytes(after.deliveries) <= l.mirrorBytes
    ensures Prepared(t, c, FailedIn(l, e, t, n, t.placement, pushKv, after))
  {
    hide ChainCall, BlobStore.StoredBytes, BlobStore.Step, Ready, PlanOk, AllTaken, OthersUp, Elapsed, Tidy, In;
    OnlyVictimDown(l, t, c, n, e, t.placement);
    CallBorne(l, t, c, n, e, pushKv);
    var u := CalledIn(l, e, t, n, t.placement, pushKv);
    HeadMirrored(l, t, c, n, e, pushKv);
    BearsMoves(l, t, c, n + 1, u, after, t.placement);
    ElapsedWorld(l, u, after, t.request);
  }

  lemma ElapsedWorld(l: Limits, e: Situation, m: Moves, r: RequestId)
    ensures Elapsed(l, e, m, r).world.runners == e.world.runners && Elapsed(l, e, m, r).world.alive <= e.world.alive
  {}

  /** The call itself: the others stay up, and what they have loaded stays loaded. */
  lemma CallBorne(l: Limits, t: Task, c: nat, n: nat, e: Situation, pushKv: bool)
    requires Ready(t, n, About(e, t.request), t.placement) && Covered(t, c) && OthersUp(t, c, e.world)
    requires BackupAt(e.world, Host(t, c), t.placement[c]) && WorldValid(e.world)
    requires NextDown(n, e.world, t.placement) == c
    ensures var w := CalledIn(l, e, t, n, t.placement, pushKv).world;
      && WorldValid(w) && OthersUp(t, c, w) && BackupAt(w, Host(t, c), t.placement[c])
      && forall i :: 0 <= i < |t.placement| && LoadedAt(e.world, HoldsOf(t.placement)[i]) ==>
           LoadedAt(w, HoldsOf(t.placement)[i])
  {
    hide ChainCall;
    var s := About(e, t.request);
    assert t.Valid() && |t.placement| == t.Stages() by {
      assert InDetail(t);
    }
    OthersLive(t, n, s, t.placement, pushKv);
    CallKeepsWorld(t, n, s, pushKv);
    var w := CalledIn(l, e, t, n, t.placement, pushKv).world;
    assert SameLoads(e.world.runners[Host(t, c)], w.runners[Host(t, c)]);
    forall i | 0 <= i < |t.placement| && i != c
      ensures t.placement[i].device in w.alive
    {
      assert Apart(t.placement, i, c) && Apart(t.placement, c, i);
    }
    forall i | 0 <= i < |t.placement| && LoadedAt(e.world, HoldsOf(t.placement)[i])
      ensures LoadedAt(w, HoldsOf(t.placement)[i])
    {
      StillLoaded(e.world, w, HoldsOf(t.placement)[i]);
    }
  }

  lemma {:induction false} CallKeepsWorld(t: Task, n: nat, s: Snapshot, pushKv: bool)
    requires Ready(t, n, s, t.placement) && WorldValid(s.world) && t.placement != []
    ensures WorldValid(ChainCall(s.world, t.job.model, pushKv, HoldsOf(t.placement), StepCall(t, In(t.job, n, 0), n)).0)
  {
    ReadyIsCalled(t, n, s, t.placement, map[]);
    CalledReady(t, n, s.(mirrors := map[]), t.placement);
    CallAdvances(t, s.world, pushKv, HoldsOf(t.placement), 0, In(t.job, n, 0), n);
  }

  /** The head's input is mirrored, and the first one still is. */
  lemma {:induction false} HeadMirrored(l: Limits, t: Task, c: nat, n: nat, e: Situation, pushKv: bool)
    requires Covered(t, c) && Unmissed(l, t, c, n, e, t.placement) && WorldValid(e.world)
    requires BlobStore.StoredBytes(e.caches.mirror) + |In(t.job, n, 0)| <= l.mirrorBytes
    ensures var u := CalledIn(l, e, t, n, t.placement, pushKv).caches;
      && Tidy(l, u) && HeadSlot(t, 0) in BlobsIn(u.mirror, t.request)
      && BlobStore.StoredBytes(u.mirror) <= BlobStore.StoredBytes(e.caches.mirror) + |In(t.job, n, 0)|
  {
    hide BlobStore.StoredBytes, BlobStore.Step, In;
    PutKept(e.caches.mirror, t.request, HeadSlot(t, n), In(t.job, n, 0), l.mirrorBytes, 0, t.request);
  }

  /** So every step is done. */
  lemma StepIsDone(l: Limits, t: Task, c: nat, n: nat, e: Situation, chain: Placement, pushKv: bool, iv: Interval)
    requires Ready(t, n, About(Elapsed(l, e, iv.before, t.request), t.request), chain)
    requires t.Valid() && PlanOk(t, e.plans) && Bearing(l, t, c, n, e, chain)
    requires Concerns(t, c, iv.before) && Concerns(t, c, iv.after)
    requires chain != Moved(t, c) ==>
      BlobStore.StoredBytes(e.caches.mirror) + StepBytes(t, n, iv) <= l.mirrorBytes
    ensures StepDone(l, e, t, n, chain, pushKv, iv)
  {
    hide BlobStore.StoredBytes, AllTaken, Elapsed, Ready, Recoverable, Rightly, FailedIn, Prepared, In, Concerns;
    var b := Elapsed(l, e, iv.before, t.request);
    BearsMoves(l, t, c, n, e, iv.before, chain);
    SameHeadStill(l, t, c, n, b, chain);
    OnlyVictimDown(l, t, c, n, b, chain);
    if NextDown(n, b.world, chain) != t.Stages() {
      FailurePrepared(l, t, c, n, b, pushKv, iv.after);
      VictimRecovers(l.mode, l.k, t, n, c, FailedIn(l, b, t, n, chain, pushKv, iv.after));
    }
  }

  /** And what holds between two steps holds again. */
  lemma StepIsBorne(l: Limits, t: Task, c: nat, n: nat, e: Situation, chain: Placement, pushKv: bool, iv: Interval,
      u: Situation, next: Placement)
    requires Ready(t, n, About(Elapsed(l, e, iv.before, t.request), t.request), chain)
    requires t.Valid() && PlanOk(t, e.plans) && Bearing(l, t, c, n, e, chain)
    requires Concerns(t, c, iv.before) && Concerns(t, c, iv.after)
    requires chain != Moved(t, c) ==>
      BlobStore.StoredBytes(e.caches.mirror) + StepBytes(t, n, iv) <= l.mirrorBytes
    requires var b := Elapsed(l, e, iv.before, t.request);
      WorldValid(b.world) && chain != [] && Leaves(l, b, t, n, chain, pushKv, iv.after, u, next)
    ensures Bearing(l, t, c, n + 1, u, next)
    ensures next != Moved(t, c) ==>
      BlobStore.StoredBytes(u.caches.mirror) <= BlobStore.StoredBytes(e.caches.mirror) + StepBytes(t, n, iv)
  {
    hide BlobStore.StoredBytes, AllTaken, Elapsed, Ready, FailedIn, Prepared, In, Concerns, PlanOk, Tidy;
    var b := Elapsed(l, e, iv.before, t.request);
    BearsMoves(l, t, c, n, e, iv.before, chain);
    OnlyVictimDown(l, t, c, n, b, chain);
    if NextDown(n, b.world, chain) == t.Stages() {
      ThroughIsBorne(l, t, c, n, b, chain, pushKv, u);
    } else {
      var s := FailedIn(l, b, t, n, chain, pushKv, iv.after);
      FailurePrepared(l, t, c, n, b, pushKv, iv.after);
      VictimRecovers(l.mode, l.k, t, n, c, s);
      RecoveryIsBorne(l, t, c, n, s, u);
    }
  }

  lemma {:induction false} ThroughIsBorne(l: Limits, t: Task, c: nat, n: nat, b: Situation, chain: Placement,
      pushKv: bool, u: Situation)
    requires WorldValid(b.world) && chain != [] && u == CalledIn(l, b, t, n, chain, pushKv)
    requires Undisturbed(b.world, u.world) && Bearing(l, t, c, n, b, chain)
    requires chain != Moved(t, c) ==>
      BlobStore.StoredBytes(b.caches.mirror) + |In(t.job, n, 0)| <= l.mirrorBytes
    ensures Bearing(l, t, c, n + 1, u, chain)
    ensures chain != Moved(t, c) ==>
      BlobStore.StoredBytes(u.caches.mirror) <= BlobStore.StoredBytes(b.caches.mirror) + |In(t.job, n, 0)|
  {
    hide BlobStore.StoredBytes, BlobStore.Step, ChainCall, In, Tidy;
    if chain != Moved(t, c) {
      HeadMirrored(l, t, c, n, b, pushKv);
      assert SameLoads(b.world.runners[Host(t, c)], u.world.runners[Host(t, c)]);
    }
  }

  lemma RecoveryIsBorne(l: Limits, t: Task, c: nat, n: nat, s: Snapshot, u: Situation)
    requires Covered(t, c) && Prepared(t, c, s) && Unharmed(s.world, u.world) && c < |t.placement|
    requires u.plans == WithoutVictim(t, s, t.placement, c).plans
    ensures Bearing(l, t, c, n + 1, u, u.plans.plan) && u.plans.plan == Moved(t, c)
  {
    VictimGone(t, c, s);
  }

  // ---------- a whole run ----------

  function Steps(maxTokens: int): nat {
    if maxTokens < 1 then 1 else maxTokens
  }

  /** The mirror has room for all that the run brings into it. */
  ghost predicate Roomy(l: Limits, t: Task, schedule: nat -> Interval, steps: nat, start: Situation) {
    BlobStore.StoredBytes(start.caches.mirror) + Traffic(t, schedule, steps) <= l.mirrorBytes
  }

  /** All that goes wrong concerns the device of stage c, and what it takes to do without it is there. */
  ghost predicate Survivable(l: Limits, t: Task, c: nat, schedule: nat -> Interval, steps: nat, start: Situation,
      chain: Placement) {
    && Bearing(l, t, c, 0, start, chain) && (forall n :: ConcernedAt(t, c, schedule, n))
    && Roomy(l, t, schedule, steps, start)
  }

  /** So it is n steps into the run. */
  ghost predicate Surviving(l: Limits, t: Task, c: nat, schedule: nat -> Interval, start: Situation, n: nat,
      e: Situation, chain: Placement) {
    && Bearing(l, t, c, n, e, chain)
    && (chain != Moved(t, c) ==> BlobStore.StoredBytes(e.caches.mirror) <=
                                 BlobStore.StoredBytes(start.caches.mirror) + Traffic(t, schedule, n))
  }

  lemma SurvivesStep(l: Limits, t: Task, c: nat, schedule: nat -> Interval, steps: nat, start: Situation,
      wired: Placement, n: nat, e: Situation, chain: Placement, pushKv: bool, done: bool, u: Situation, next: Placement)
    requires Survivable(l, t, c, schedule, steps, start, wired) && Surviving(l, t, c, schedule, start, n, e, chain)
    requires n < steps && t.Valid() && PlanOk(t, e.plans) && chain != []
    requires Ready(t, n, About(Elapsed(l, e, schedule(n).before, t.request), t.request), chain)
    requires done <==> StepDone(l, e, t, n, chain, pushKv, schedule(n))
    requires done ==>
      Leaves(l, Elapsed(l, e, schedule(n).before, t.request), t, n, chain, pushKv, schedule(n).after, u, next)
    ensures done && Surviving(l, t, c, schedule, start, n + 1, u, next)
  {
    hide BlobStore.StoredBytes, Bearing, Ready, Leaves, StepDone, PlanOk, Elapsed, StepBytes;
    assert ConcernedAt(t, c, schedule, n);
    TrafficGrows(t, schedule, n + 1, steps);
    StepIsDone(l, t, c, n, e, chain, pushKv, schedule(n));
    DoneIsValid(l, e, t, n, chain, pushKv, schedule(n));
    StepIsBorne(l, t, c, n, e, chain, pushKv, schedule(n), u, next);
    MovedStays(l, t, c, n, e, chain, pushKv, schedule(n), u, next);
  }

  lemma DoneIsValid(l: Limits, e: Situation, t: Task, n: nat, chain: Placement, pushKv: bool, iv: Interval)
    requires StepDone(l, e, t, n, chain, pushKv, iv)
    ensures WorldValid(Elapsed(l, e, iv.before, t.request).world)
  {}

  /** Once missed, the device stays missed. */
  lemma MovedStays(l: Limits, t: Task, c: nat, n: nat, e: Situation, chain: Placement, pushKv: bool, iv: Interval,
      u: Situation, next: Placement)
    requires Ready(t, n, About(Elapsed(l, e, iv.before, t.request), t.request), chain)
    requires t.Valid() && PlanOk(t, e.plans) && Bearing(l, t, c, n, e, chain)
    requires Concerns(t, c, iv.before)
    requires chain != Moved(t, c) ==>
      BlobStore.StoredBytes(e.caches.mirror) + StepBytes(t, n, iv) <= l.mirrorBytes
    requires WorldValid(Elapsed(l, e, iv.before, t.request).world) && chain != []
    requires Leaves(l, Elapsed(l, e, iv.before, t.request), t, n, chain, pushKv, iv.after, u, next)
    ensures chain == Moved(t, c) ==> next == Moved(t, c)
  {
    hide BlobStore.StoredBytes, AllTaken, Elapsed, Ready, FailedIn, In, Concerns, PlanOk, Tidy;
    if chain == Moved(t, c) {
      var b := Elapsed(l, e, iv.before, t.request);
      DeviceAlone(t, c);
      BearsMoves(l, t, c, n, e, iv.before, chain);
      OnlyVictimDown(l, t, c, n, b, chain);
    }
  }

  /** Whatever device it is that all concerns. */
  ghost predicate Fares(l: Limits, t: Task, schedule: nat -> Interval, steps: nat, start: Situation, wired: Placement,
      n: nat, e: Situation, chain: Placement) {
    forall c: nat :: Survivable(l, t, c, schedule, steps, start, wired) ==>
      Surviving(l, t, c, schedule, start, n, e, chain)
  }

  ghost predicate OneConcerned(l: Limits, t: Task, schedule: nat -> Interval, steps: nat, start: Situation,
      wired: Placement) {
    exists c: nat :: Survivable(l, t, c, schedule, steps, start, wired)
  }

  lemma FaresAtFirst(l: Limits, t: Task, schedule: nat -> Interval, steps: nat, start: Situation, wired: Placement)
    ensures Fares(l, t, schedule, steps, start, wired, 0, start, wired)
  {}

  lemma FaresOn(l: Limits, t: Task, schedule: nat -> Interval, steps: nat, start: Situation, wired: Placement, n: nat,
      e: Situation, chain: Placement, pushKv: bool, done: bool, u: Situation, next: Placement)
    requires Fares(l, t, schedule, steps, start, wired, n, e, chain)
    requires n < steps && t.Valid() && PlanOk(t, e.plans) && chain != []
    requires Ready(t, n, About(Elapsed(l, e, schedule(n).before, t.request), t.request), chain)
    requires done <==> StepDone(l, e, t, n, chain, pushKv, schedule(n))
    requires done ==>
      Leaves(l, Elapsed(l, e, schedule(n).before, t.request), t, n, chain, pushKv, schedule(n).after, u, next)
    ensures OneConcerned(l, t, schedule, steps, start, wired) ==> done
    ensures done ==> Fares(l, t, schedule, steps, start, wired, n + 1, u, next)
  {
    hide Survivable, Surviving, Ready, StepDone, Leaves, Elapsed, PlanOk;
    forall c: nat | Survivable(l, t, c, schedule, steps, start, wired)
      ensures done && Surviving(l, t, c, schedule, start, n + 1, u, next)
    {
      SurvivesStep(l, t, c, schedule, steps, start, wired, n, e, chain, pushKv, done, u, next);
    }
  }
}
