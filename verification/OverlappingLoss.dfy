/**
 A run that ends in a wrong token: while a stage fails, another one has just been reported
 dead. Surgical recovery rebuilds the failed stage alone and answers through the other
 one's backup, which holds no KV.
 */
module OverlappingLoss {
  import opened Wrappers
  import opened Types
  import opened KvLayout
  import opened Reference
  import opened Workers
  import opened Workforce
  import opened Chains
  import opened ExecutionPlans
  import opened Protocol
  import opened Rewiring
  import opened Rebuild
  import opened ParityRecovery
  import opened Recoverability
  import opened Gateway
  import opened Intervals
  import opened Generation
  import opened Deployment
  import opened Staging
  import opened Tracing
  import BlobStore
  import Lru

  // ---------- the scene ----------

  const LAYERS := [StageKey(1, 1), StageKey(2, 2), StageKey(3, 3)]

  const PLACED := [Stage(1, 1, "a"), Stage(2, 2, "bb"), Stage(3, 3, "ccc")]

  /** Device a backs up both others. */
  const BACKUPS := map["a" := "bb", "bb" := "a", "ccc" := "a"]

  /** Three stages on three devices, running the tracing model. */
  function Scene(): Task {
    Task(Job(TracingModel(), LAYERS, "p"), 1, PLACED, BACKUPS, Geometry(1, 1))
  }

  lemma DevicesDiffer()
    ensures "a" != "bb" && "a" != "ccc" && "bb" != "ccc"
  {
    assert |"a"| == 1 && |"bb"| == 2 && |"ccc"| == 3;
  }

  lemma SceneValid()
    ensures Scene().Valid() && PastLength(Scene().job) == 1 && Scene().Stages() == 3
  {
    var t := Scene();
    TracingRegular();
    assert Follows(t.placement, 0) && Follows(t.placement, 1) && Follows(t.placement, 2);
    DevicesDiffer();
    forall i, j
      ensures Apart(t.placement, i, j)
    {}
  }

  /** The plan with these devices declared dead. */
  function PlansWithout(dead: set<DeviceId>): Plans
    requires Viable(PLACED, BACKUPS, dead)
  {
    Plans(PLACED, BACKUPS, dead, PlanOf(PLACED, BACKUPS, dead))
  }

  /** With the second and the third device dead, device a runs all three stages. */
  lemma PlanWithoutBoth()
    ensures Viable(PLACED, BACKUPS, {"ccc"}) && Viable(PLACED, BACKUPS, {"ccc", "bb"})
    ensures PlanOf(PLACED, BACKUPS, {"ccc"}) == [Stage(1, 1, "a"), Stage(2, 2, "bb"), Stage(3, 3, "a")]
    ensures PlanOf(PLACED, BACKUPS, {"ccc", "bb"}) == [Stage(1, 1, "a"), Stage(2, 2, "a"), Stage(3, 3, "a")]
  {
    DevicesDiffer();
    assert StageViable(PLACED[0], BACKUPS, {"ccc"}) && StageViable(PLACED[1], BACKUPS, {"ccc"});
    assert StageViable(PLACED[2], BACKUPS, {"ccc"}) && StageViable(PLACED[0], BACKUPS, {"ccc", "bb"});
    assert StageViable(PLACED[1], BACKUPS, {"ccc", "bb"}) && StageViable(PLACED[2], BACKUPS, {"ccc", "bb"});
  }

  lemma {:induction false} SceneInputs(p: nat)
    requires p <= 1
    ensures In(Scene().job, p, 0) == [0, 0] && In(Scene().job, p, 1) == [1, p]
  {
    SceneValid();
    TracedIn(Scene(), p, 0);
    TracedIn(Scene(), p, 1);
  }

  /** The second stage's input has arrived for every position up to p. */
  ghost predicate SecondMirrored(gw: RequestGateway, p: nat)
    reads gw.Repr()
  {
    && gw.Valid() && gw.cache.maxBytes == 64 && BlobStore.StoredBytes(gw.cache.State()) <= 4 * (p + 1)
    && forall q :: 0 <= q <= p ==> BlobStore.Slot(LAYERS[1], q) in gw.cache.Held(1)
  }

  // ---------- up to the failure ----------

  lemma NothingStored()
    ensures BlobStore.StoredBytes(Lru.Store([], map[])) == 0
  {}

  /** The prefill gets through. */
  method Prompt() returns (gw: RequestGateway)
    ensures fresh(gw) && fresh(gw.Repr()) && gw.mode == Surgical && gw.cache.maxBytes == 64
    ensures Equipped(gw, Scene()) && AllWell(Scene(), gw.fleet.State()) && Ready(Scene(), 1, gw.Snap(1), PLACED)
    ensures gw.plans.State() == Plans(PLACED, BACKUPS, {}, PLACED) && SecondInput(0) in gw.fleet.outbox
    ensures BlobStore.StoredBytes(gw.cache.State()) <= 2
  {
    hide Fleet.Valid, Group, Task.Valid, AllWell, Ready, BlobStore.Step, BlobStore.StoredBytes, RequestGateway.Valid,
      InputsSent, ColumnsSent, Regular, BackupsStand;
    SceneValid();
    SceneInputs(0);
    NothingStored();
    gw := Begin(Scene(), Surgical, 1, false, 64);
    BlobStore.PutFits(gw.cache.State(), 1, BlobStore.Slot(LAYERS[0], 0), [0, 0], 64, 0);
    Prefill(gw, Scene(), [0, 0]);
    SecondSent(0, 3, gw.fleet.outbox);
  }

  /** The second stage's input of it reaches the coordinator. */
  method Hear(gw: RequestGateway)
    requires Equipped(gw, Scene()) && Ready(Scene(), 1, gw.Snap(1), PLACED) && gw.cache.maxBytes == 64
    requires SecondInput(0) in gw.fleet.outbox && BlobStore.StoredBytes(gw.cache.State()) <= 2
    modifies gw.cache
    ensures Equipped(gw, Scene()) && Ready(Scene(), 1, gw.Snap(1), PLACED) && SecondMirrored(gw, 0)
    ensures gw.fleet.State() == old(gw.fleet.State()) && gw.plans.State() == old(gw.plans.State())
  {
    hide Fleet.Valid, Group, Task.Valid, Ready, Standing, BlobStore.StoredBytes, BackupsStand;
    StandsReady(Scene(), 1, gw.Snap(1), PLACED);
    Relay(gw, SecondInput(0), Scene(), 1, None);
    StandsReady(Scene(), 1, gw.Snap(1), PLACED);
  }

  function SecondInput(p: nat): Message
    requires p <= 1
  {
    Mirror(1, LAYERS[1], p, [1, p])
  }

  lemma SecondSent(p: nat, v: nat, outbox: set<Message>)
    requires p <= 1 <= v && InputsSent(Scene(), p, v, outbox)
    ensures SecondInput(p) in outbox
  {
    SceneInputs(p);
    assert Scene().job.keys[1] == LAYERS[1];
  }

  // ---------- the failure ----------

  /** The second stage is about to crash in the first decode step. */
  function Armed(): Moves {
    Moves({}, {Fault(Held("bb", LAYERS[1]), 1)}, [], [])
  }

  lemma ArmedAndReported(s: Snapshot)
    requires Ready(Scene(), 1, s, PLACED) && s.plans == Plans(PLACED, BACKUPS, {}, PLACED)
    requires AllWell(Scene(), s.world) && Viable(PLACED, BACKUPS, {"ccc"})
    ensures var u := Declared(Disturbed(s, Armed()), "ccc");
      Ready(Scene(), 1, u, PLACED) && u.plans == PlansWithout({"ccc"}) && CrashDue(Scene(), 1, 1, u.world)
  {
    var u := Disturbed(s, Armed());
    StandsReady(Scene(), 1, s, PLACED);
    DisturbedStands(Scene(), 1, None, s, PLACED, Armed());
    DeclaredStands(Scene(), 1, None, u, PLACED, "ccc");
    StandsReady(Scene(), 1, Declared(u, "ccc"), PLACED);
    assert {} + {"ccc"} == {"ccc"};
    assert HoldsOf(PLACED)[1] == Held("bb", LAYERS[1]);
  }

  /** The third device is reported dead, and the second is about to crash. */
  method Strike(gw: RequestGateway)
    requires Equipped(gw, Scene()) && AllWell(Scene(), gw.fleet.State()) && Ready(Scene(), 1, gw.Snap(1), PLACED)
    requires gw.plans.State() == Plans(PLACED, BACKUPS, {}, PLACED) && Viable(PLACED, BACKUPS, {"ccc"})
    requires SecondMirrored(gw, 0)
    modifies gw.fleet`faults, gw.fleet`alive, gw.plans
    ensures Equipped(gw, Scene()) && CrashDue(Scene(), 1, 1, gw.fleet.State()) && Ready(Scene(), 1, gw.Snap(1), PLACED)
    ensures gw.plans.State() == PlansWithout({"ccc"}) && SecondMirrored(gw, 0)
  {
    hide Fleet.Valid, Group, Task.Valid, AllWell, CrashDue, Ready, BlobStore.StoredBytes;
    ArmedAndReported(gw.Snap(1));
    Crash(gw, Armed(), 1);
    ReportDead(gw, "ccc", 1);
  }

  /** The second device crashes when it is called, and its last input arrives. */
  method Fail(gw: RequestGateway) returns (trailer: Option<StageKey>)
    requires Equipped(gw, Scene()) && CrashDue(Scene(), 1, 1, gw.fleet.State()) && Ready(Scene(), 1, gw.Snap(1), PLACED)
    requires Viable(PLACED, BACKUPS, {"ccc"}) && gw.plans.State() == PlansWithout({"ccc"}) && SecondMirrored(gw, 0)
    modifies gw.fleet.Repr(), gw.cache
    ensures Equipped(gw, Scene()) && Failing(Scene(), 1, 1, gw.Snap(1))
    ensures Blames(Scene(), 1, PLACED, PLACED[0], trailer)
    ensures gw.plans.State() == PlansWithout({"ccc"}) && SecondMirrored(gw, 1)
  {
    hide Fleet.Valid, Group, Task.Valid, BlobStore.StoredBytes, BlobStore.Step, Standing, Blames, Viable, Failing,
      CrashDue, Ready, InputsSent;
    SceneInputs(1);
    PlanWithoutBoth();
    BlobStore.PutFits(gw.cache.State(), 1, BlobStore.Slot(LAYERS[0], 1), [0, 0], 64, 0);
    trailer := FailAt(gw, Scene(), 1, [0, 0], 1);
    SecondSent(1, 1, gw.fleet.outbox);
    ghost var f := gw.Snap(1);
    FailingBacked(Scene(), 1, 1, f);
    Relay(gw, SecondInput(1), Scene(), 1, Some(1));
    FailingStands(Scene(), 1, 1, f, gw.Snap(1));
  }

  // ---------- the recovery ----------

  /** The recovery has all it needs to succeed. */
  lemma SceneRecovers(s: Snapshot)
    requires Failing(Scene(), 1, 1, s) && MirroredUpTo(s, LAYERS[1], 1)
    requires Viable(PLACED, BACKUPS, {"ccc"}) && s.plans == PlansWithout({"ccc"})
    ensures SurgicallyRecoverable(Scene(), 1, 1, s, PLACED) && Viable(PLACED, BACKUPS, {"ccc", "bb"})
    ensures WithoutVictim(Scene(), s, PLACED, 1).plans == PlansWithout({"ccc", "bb"})
  {
    PlanWithoutBoth();
    DevicesDiffer();
    assert {"ccc"} + {"bb"} == {"ccc", "bb"};
    var d := WithoutVictim(Scene(), s, PLACED, 1);
    assert InDetail(Scene());
    assert PLACED[0].device == "a" && BackedUp(s.world, BACKUPS, PLACED[1]) && BackedUp(s.world, BACKUPS, PLACED[2]);
    assert LAYERS[1] in BackupsFor(s.world.runners["a"], "bb");
    var hs := HoldsOf(d.plans.plan);
    assert hs[1] == Held("a", LAYERS[1]) && hs[2] == Held("a", LAYERS[2]);
    forall j | 1 <= j < |hs|
      ensures !Down(d.world, hs[j], 1)
    {}
  }

  /** A last stage without KV does not count any slot of its own. */
  lemma BlankAnswer(w: World, mid: World, u: World, pushKv: bool, hs: seq<Held>, reply: Reply)
    requires Rerun(Scene(), 1, 1, w, mid, u, pushKv, hs, reply) && |hs| == 3 && KvAt(mid, hs[2], 1) == []
    ensures reply in {Sampled(TraceSample([3, 2])), Answer([3, 2])}
  {
    hide Task.Valid, Regular, RegularAt, ChainCall, OnlyRan, MessagesOutcome;
    var t := Scene();
    SceneValid();
    SceneInputs(1);
    var q := PassOf(t, mid, pushKv, hs, 1, In(t.job, 1, 1), 1);
    ChainOutcome(q, mid);
    BeforeShape(t.job, t.geometry, 1, 1);
    assert q.bases[1] == Before(t.job, 1, 1) && q.bases[2] == [];
    assert Arriving(q, 2) == TraceOutput(LAYERS[1], q.bases[1], Arriving(q, 1)) == [2, 2];
    assert Arriving(q, 3) == TraceOutput(LAYERS[2], [], Arriving(q, 2)) == [3, 2];
  }

  /** So the recovery's answer is not the fault-free one. */
  lemma SceneAnswersWrongly(s: Snapshot, mid: World, u: World, pushKv: bool, hs: seq<Held>, reply: Reply)
    requires Failing(Scene(), 1, 1, s) && |hs| == 3 && hs[2] == Held("a", LAYERS[2])
    requires Viable(PLACED, BACKUPS, {"ccc"}) && s.plans == PlansWithout({"ccc"})
    requires Rerun(Scene(), 1, 1, s.world, mid, u, pushKv, hs, reply)
    ensures !reply.Unavailable? && !Answers(Scene(), 1, reply)
  {
    hide Task.Valid, LiveRun;
    var t := Scene();
    SceneValid();
    PlanWithoutBoth();
    StrickenShape(t, 1, 1, s, PLACED);
    DevicesDiffer();
    DriftedAt(t, 1, 1, s, PLACED, 2);
    BlankAnswer(s.world, mid, u, pushKv, hs, reply);
    TracedIn(t, 1, 3);
    TracedWrongly(t, 1, [3, 2]);
  }

  /** The second stage is recovered surgically: successfully, and wrongly. */
  method Rescue(gw: RequestGateway, trailer: Option<StageKey>) returns (recovery: Recovery)
    requires Equipped(gw, Scene()) && Failing(Scene(), 1, 1, gw.Snap(1))
    requires Blames(Scene(), 1, PLACED, PLACED[0], trailer) && SecondMirrored(gw, 1)
    requires Viable(PLACED, BACKUPS, {"ccc"}) && gw.plans.State() == PlansWithout({"ccc"})
    modifies gw.Repr()
    ensures recovery.path == Rebuild && !recovery.reply.Unavailable? && !Answers(Scene(), 1, recovery.reply)
  {
    hide Fleet.Valid, Group, Task.Valid, Blames, SurgicallyRecoverable, Judged, Rerun, Failing, Answers, Viable,
      BlobStore.StoredBytes;
    ghost var s := gw.Snap(1);
    SceneRecovers(s);
    FailingStricken(s);
    PlanWithoutBoth();
    var res; ghost var mid;
    res, mid := gw.RecoverSurgical(1, PLACED[0], trailer, 1, Scene(), 1, PLACED);
    recovery := res.value;
    SceneAnswersWrongly(s, mid, gw.fleet.State(), gw.fleet.pushKv, HoldsOf(gw.plans.plan), recovery.reply);
  }

  lemma FailingStricken(s: Snapshot)
    requires Failing(Scene(), 1, 1, s)
    ensures Stricken(Scene(), 1, 1, s, PLACED)
  {}

  /**
   From three idle workers to a wrong token: deployment, prefill, a report of the third
   device, a crash of the second in the first decode step, and its surgical recovery, which
   succeeds.
   */
  method AnswerWrongly() returns (recovery: Recovery)
    ensures recovery.path == Rebuild && !recovery.reply.Unavailable? && !Answers(Scene(), 1, recovery.reply)
  {
    hide Fleet.Valid, Equipped, AllWell, Blames, Failing, Answers, Viable, BlobStore.StoredBytes, CrashDue;
    PlanWithoutBoth();
    var gw := Prompt();
    Hear(gw);
    Strike(gw);
    var trailer := Fail(gw);
    recovery := Rescue(gw, trailer);
  }
}
