/**
 A run in which P + Q recovery answers wrongly: of its two victims the failed call has
 passed the first one, and the live stage between them does the position twice.
 */
module SplitVictims {
  import opened Wrappers
  import opened Types
  import opened ByteStrings
  import opened KvLayout
  import opened Reference
  import opened Workers
  import opened Workforce
  import opened Chains
  import opened ExecutionPlans
  import opened ParityFold
  import opened KvParity
  import opened Protocol
  import opened Rewiring
  import opened Rebuild
  import opened ParityRecovery
  import opened Recoverability
  import opened Gateway
  import opened Intervals
  import opened Generation
  import opened Deployment
  import opened Staging
  import opened Tracing
  import BlobStore
  import Lru

  // ---------- the scene ----------

  const LAYERS := [StageKey(1, 1), StageKey(2, 2), StageKey(3, 3), StageKey(4, 4), StageKey(5, 5)]

  const PLACED := [Stage(1, 1, "a"), Stage(2, 2, "bb"), Stage(3, 3, "ccc"), Stage(4, 4, "dddd"), Stage(5, 5, "eeeee")]

  /** Device a backs up all others. */
  const BACKUPS := map["a" := "bb", "bb" := "a", "ccc" := "a", "dddd" := "a", "eeeee" := "a"]

  /** Five stages on five devices, running the tracing model. */
  function Scene(): Task {
    Task(Job(TracingModel(), LAYERS, "p"), 1, PLACED, BACKUPS, Geometry(1, 1))
  }

  /** The two victims. */
  const DEAD := {"bb", "dddd"}

  /** The plan without them. */
  const MOVED := [Stage(1, 1, "a"), Stage(2, 2, "a"), Stage(3, 3, "ccc"), Stage(4, 4, "a"), Stage(5, 5, "eeeee")]

  lemma DevicesDiffer()
    ensures "a" !in DEAD && "ccc" !in DEAD && "eeeee" !in DEAD && "bb" != "dddd"
    ensures "a" != "ccc" && "a" != "eeeee" && "ccc" != "eeeee"
  {
    assert |"a"| == 1 && |"bb"| == 2 && |"ccc"| == 3 && |"dddd"| == 4 && |"eeeee"| == 5;
  }

  lemma SceneValid()
    ensures Scene().Valid() && PastLength(Scene().job) == 1 && Scene().Stages() == 5
  {
    var t := Scene();
    TracingRegular();
    assert Follows(t.placement, 0) && Follows(t.placement, 1) && Follows(t.placement, 2);
    assert Follows(t.placement, 3) && Follows(t.placement, 4);
    DevicesDiffer();
    forall i, j
      ensures Apart(t.placement, i, j)
    {}
  }

  lemma {:induction false} SceneInputs(p: nat)
    requires p <= 1
    ensures In(Scene().job, p, 0) == [0, 0] && In(Scene().job, p, 1) == [1, p]
  {
    SceneValid();
    TracedIn(Scene(), p, 0);
    TracedIn(Scene(), p, 1);
  }

  /** The prompt's column of a stage. */
  function PromptColumn(j: nat): Bytes
    requires j < 5
  {
    Tracing.Blank(Geometry(1, 1).SlotBytes(LAYERS[j]))
  }

  lemma PromptColumns(j: nat)
    requires j < 5
    ensures TrueColumn(Scene().job, j, 0) == PromptColumn(j)
  {
    SceneValid();
    var t := Scene();
    TracedIn(t, 0, j);
    TrueColumnIs(t, 1, j, 0);
    assert Before(t.job, 1, j) == TraceColumns(LAYERS[j], [], In(t.job, 0, j));
  }

  // ---------- the prefill ----------

  function SecondInput(p: nat): Message
    requires p <= 1
  {
    Mirror(1, LAYERS[1], p, [1, p])
  }

  function FirstColumn(j: nat): Message
    requires j < 5
  {
    KvPush(1, LAYERS[j], 0, PromptColumn(j))
  }

  lemma SecondSent(p: nat, v: nat, outbox: set<Message>)
    requires p <= 1 <= v && InputsSent(Scene(), p, v, outbox)
    ensures SecondInput(p) in outbox
  {
    SceneInputs(p);
    assert Scene().job.keys[1] == LAYERS[1];
  }

  lemma FirstColumnsSent(outbox: set<Message>)
    requires ColumnsSent(Scene(), outbox)
    ensures forall j :: 0 < j < 5 ==> FirstColumn(j) in outbox
  {
    SceneValid();
    forall j | 0 < j < 5
      ensures FirstColumn(j) in outbox
    {
      PromptColumns(j);
    }
  }

  /** The second stage's input has arrived for every position up to p. */
  ghost predicate SecondMirrored(gw: RequestGateway, p: nat)
    reads gw.Repr()
  {
    && gw.Valid() && gw.cache.maxBytes == 64 && BlobStore.StoredBytes(gw.cache.State()) <= 4 * (p + 1)
    && forall q :: 0 <= q <= p ==> BlobStore.Slot(LAYERS[1], q) in gw.cache.Held(1)
  }

  /** The prompt's columns have been folded in for the stages from the second one to before the n-th. */
  ghost predicate Folded(logs: Logs, n: nat)
    requires n <= 5
  {
    Keys(ContributionsAt(logs, 0)) == set j | 0 < j < n :: LAYERS[j]
  }

  lemma NothingStored()
    ensures BlobStore.StoredBytes(Lru.Store([], map[])) == 0 && Folded(map[], 1)
  {}

  /** The prefill gets through. */
  method Prompt() returns (gw: RequestGateway)
    ensures fresh(gw) && fresh(gw.Repr()) && gw.mode == Parity && gw.cache.maxBytes == 64 && gw.parity.k == 2
    ensures Equipped(gw, Scene()) && AllWell(Scene(), gw.fleet.State()) && Ready(Scene(), 1, gw.Snap(1), PLACED)
    ensures gw.plans.State() == Plans(PLACED, BACKUPS, {}, PLACED) && SecondInput(0) in gw.fleet.outbox
    ensures forall j :: 0 < j < 5 ==> FirstColumn(j) in gw.fleet.outbox
    ensures BlobStore.StoredBytes(gw.cache.State()) <= 2 && gw.parity.entries == map[]
  {
    hide Fleet.Valid, Group, Task.Valid, AllWell, Ready, BlobStore.Step, BlobStore.StoredBytes, RequestGateway.Valid,
      InputsSent, ColumnsSent, Regular, BackupsStand, FirstColumn;
    SceneValid();
    SceneInputs(0);
    NothingStored();
    gw := Begin(Scene(), Parity, 2, true, 64);
    BlobStore.PutFits(gw.cache.State(), 1, BlobStore.Slot(LAYERS[0], 0), [0, 0], 64, 0);
    Prefill(gw, Scene(), [0, 0]);
    SecondSent(0, 5, gw.fleet.outbox);
    FirstColumnsSent(gw.fleet.outbox);
  }

  /** The second stage's input of it reaches the coordinator. */
  method Hear(gw: RequestGateway)
    requires Equipped(gw, Scene()) && Ready(Scene(), 1, gw.Snap(1), PLACED) && gw.cache.maxBytes == 64
    requires SecondInput(0) in gw.fleet.outbox && BlobStore.StoredBytes(gw.cache.State()) <= 2
    modifies gw.cache
    ensures Equipped(gw, Scene()) && Ready(Scene(), 1, gw.Snap(1), PLACED) && SecondMirrored(gw, 0)
    ensures gw.fleet.State() == old(gw.fleet.State()) && gw.plans.State() == old(gw.plans.State())
  {
    hide Fleet.Valid, Group, Task.Valid, Ready, Standing, BlobStore.StoredBytes, BackupsStand;
    StandsReady(Scene(), 1, gw.Snap(1), PLACED);
    Relay(gw, SecondInput(0), Scene(), 1, None);
    StandsReady(Scene(), 1, gw.Snap(1), PLACED);
  }

  lemma FoldedNext(logs: Logs, u: Logs, n: nat)
    requires 0 < n < 5 && Folded(logs, n) && Keys(ContributionsAt(u, 0)) == Keys(ContributionsAt(logs, 0)) + {LAYERS[n]}
    ensures Folded(u, n + 1)
  {}

  /** So do the prompt's columns of all stages behind the head. */
  method Gather(gw: RequestGateway)
    requires Equipped(gw, Scene()) && Ready(Scene(), 1, gw.Snap(1), PLACED) && gw.parity.entries == map[]
    requires forall j :: 0 < j < 5 ==> FirstColumn(j) in gw.fleet.outbox
    requires SecondMirrored(gw, 0)
    modifies gw.parity
    ensures Equipped(gw, Scene()) && Ready(Scene(), 1, gw.Snap(1), PLACED) && Folded(gw.Snap(1).parity, 5)
    ensures gw.fleet.State() == old(gw.fleet.State()) && gw.plans.State() == old(gw.plans.State())
    ensures SecondMirrored(gw, 0)
  {
    hide Fleet.Valid, Group, Task.Valid, Ready, Standing, BackupsStand, Folded;
    NothingStored();
    StandsReady(Scene(), 1, gw.Snap(1), PLACED);
    for j := 1 to 5
      invariant Equipped(gw, Scene()) && Standing(Scene(), 1, None, gw.Snap(1), PLACED)
      invariant Folded(gw.parity.LogOf(1), j) && gw.fleet.State() == old(gw.fleet.State())
    {
      ghost var logs := gw.parity.LogOf(1);
      RelayColumn(gw, FirstColumn(j), Scene(), 1, None);
      FoldedNext(logs, gw.parity.LogOf(1), j);
    }
    StandsReady(Scene(), 1, gw.Snap(1), PLACED);
  }

  // ---------- the failure ----------

  /** The fourth stage is about to crash in the first decode step. */
  function Armed(): Moves {
    Moves({}, {Fault(Held("dddd", LAYERS[3]), 1)}, [], [])
  }

  lemma ArmedIsDue(s: Snapshot)
    requires Ready(Scene(), 1, s, PLACED) && AllWell(Scene(), s.world)
    ensures var u := Disturbed(s, Armed()); Ready(Scene(), 1, u, PLACED) && CrashDue(Scene(), 1, 3, u.world)
  {
    StandsReady(Scene(), 1, s, PLACED);
    DisturbedStands(Scene(), 1, None, s, PLACED, Armed());
    StandsReady(Scene(), 1, Disturbed(s, Armed()), PLACED);
    assert HoldsOf(PLACED)[3] == Held("dddd", LAYERS[3]);
  }

  method Arm(gw: RequestGateway)
    requires Equipped(gw, Scene()) && AllWell(Scene(), gw.fleet.State()) && Ready(Scene(), 1, gw.Snap(1), PLACED)
    requires SecondMirrored(gw, 0)
    modifies gw.fleet`faults, gw.fleet`alive
    ensures Equipped(gw, Scene()) && CrashDue(Scene(), 1, 3, gw.fleet.State()) && Ready(Scene(), 1, gw.Snap(1), PLACED)
    ensures SecondMirrored(gw, 0) && gw.Snap(1).parity == old(gw.Snap(1).parity)
    ensures gw.plans.State() == old(gw.plans.State())
  {
    hide Fleet.Valid, Group, Task.Valid, BlobStore.StoredBytes, CrashDue, Ready, AllWell;
    ArmedIsDue(gw.Snap(1));
    Crash(gw, Armed(), 1);
  }

  /** It crashes, and the second stage's input, which passed before, arrives. */
  method Fail(gw: RequestGateway) returns (trailer: Option<StageKey>)
    requires Equipped(gw, Scene()) && CrashDue(Scene(), 1, 3, gw.fleet.State()) && Ready(Scene(), 1, gw.Snap(1), PLACED)
    requires gw.plans.State() == Plans(PLACED, BACKUPS, {}, PLACED) && SecondMirrored(gw, 0)
    modifies gw.fleet.Repr(), gw.cache
    ensures Equipped(gw, Scene()) && Failing(Scene(), 1, 3, gw.Snap(1))
    ensures Blames(Scene(), 3, PLACED, PLACED[0], trailer)
    ensures gw.plans.State() == old(gw.plans.State()) && SecondMirrored(gw, 1)
    ensures gw.Snap(1).parity == old(gw.Snap(1).parity)
  {
    hide Fleet.Valid, Group, Task.Valid, BlobStore.StoredBytes, BlobStore.Step, Standing, Blames, Failing,
      CrashDue, Ready, InputsSent, BackupsStand;
    SceneInputs(1);
    BlobStore.PutFits(gw.cache.State(), 1, BlobStore.Slot(LAYERS[0], 1), [0, 0], 64, 0);
    trailer := FailAt(gw, Scene(), 1, [0, 0], 3);
    SecondSent(1, 3, gw.fleet.outbox);
    ghost var f := gw.Snap(1);
    FailingBacked(Scene(), 1, 3, f);
    Relay(gw, SecondInput(1), Scene(), 1, Some(3));
    FailingStands(Scene(), 1, 3, f, gw.Snap(1));
  }

  /** The second device is down too, and both are reported. */
  ghost predicate Doomed(s: Snapshot) {
    && Stricken(Scene(), 1, 3, s, PLACED) && BackupsStand(Scene(), s.world)
    && {"a", "ccc", "eeeee"} <= s.world.alive && s.world.faults <= {Fault(Held("dddd", LAYERS[3]), 1)}
    && s.plans == Plans(PLACED, BACKUPS, DEAD, MOVED)
  }

  lemma ReportsOfBoth()
    ensures Reported(Plans(PLACED, BACKUPS, {}, PLACED), ["bb", "dddd"]) == Plans(PLACED, BACKUPS, DEAD, MOVED)
  {
    DevicesDiffer();
    var s, ds := Plans(PLACED, BACKUPS, {}, PLACED), ["bb", "dddd"];
    assert ds[..1] == ["bb"] && ds[..1][..0] == [];
    assert StageViable(PLACED[0], BACKUPS, {"bb"}) && StageViable(PLACED[1], BACKUPS, {"bb"});
    assert {} + {"bb"} == {"bb"} && {"bb"} + {"dddd"} == DEAD;
    assert PlanOf(PLACED, BACKUPS, DEAD) == MOVED;
  }

  lemma BothDoomed(s: Snapshot, u: Snapshot)
    requires Failing(Scene(), 1, 3, s) && u.world == Disturbed(s, Moves({"bb"}, {}, [], [])).world
    requires Standing(Scene(), 1, Some(3), u, PLACED) && u.plans == Plans(PLACED, BACKUPS, DEAD, MOVED)
    ensures Doomed(u)
  {
    DevicesDiffer();
    var p := Scene().placement;
    assert p[0].device == "a" && p[2].device == "ccc" && p[4].device == "eeeee";
  }

  method Report(gw: RequestGateway)
    requires Equipped(gw, Scene()) && Failing(Scene(), 1, 3, gw.Snap(1))
    requires gw.plans.State() == Plans(PLACED, BACKUPS, {}, PLACED) && SecondMirrored(gw, 1)
    modifies gw.fleet`faults, gw.fleet`alive, gw.plans
    ensures gw.Valid() && gw.Serves(Scene()) && Doomed(gw.Snap(1)) && SecondMirrored(gw, 1)
    ensures gw.Snap(1).parity == old(gw.Snap(1).parity)
  {
    hide Fleet.Valid, Group, Task.Valid, Failing, Doomed, Standing, BlobStore.StoredBytes;
    ghost var s := gw.Snap(1);
    var down := Moves({"bb"}, {}, [], []);
    FailingBacked(Scene(), 1, 3, s);
    DisturbedStands(Scene(), 1, Some(3), s, PLACED, down);
    ReportsOfBoth();
    Crash(gw, down, 1);
    ReportAll(gw, ["bb", "dddd"], 1, Scene(), 1, Some(3), PLACED);
    BothDoomed(s, gw.Snap(1));
  }

  // ---------- the recovery ----------

  /** The survivors answer, with KV of the request. */
  lemma SurvivorsAnswer(s: Snapshot)
    requires Doomed(s)
    ensures AllFetchable(Scene(), s.world, HoldsOf(MOVED), {1, 3}, 5)
    ensures LoadedAt(s.world, HoldsOf(MOVED)[2]) && LoadedAt(s.world, HoldsOf(MOVED)[4])
  {
    hide Regular, RegularAt, PlanOk, Lags, Spare, OutboxSound, MirrorsSound, ReplicaSound, ParitySound, BackupsStand;
    var t := Scene();
    SceneValid();
    assert InDetail(t);
    assert KeptAt(t, 1, 3, s, PLACED, 2) && KeptAt(t, 1, 3, s, PLACED, 4);
    BeforeShape(t.job, t.geometry, 2, 2);
    BeforeShape(t.job, t.geometry, 1, 4);
  }

  /** The victims' backups can take over. */
  lemma BackupsAnswer(s: Snapshot)
    requires Doomed(s)
    ensures Promotable(s.world, BACKUPS, "bb") && Promotable(s.world, BACKUPS, "dddd")
    ensures LoadedAt(s.world, HoldsOf(MOVED)[1]) && LoadedAt(s.world, HoldsOf(MOVED)[3])
  {
    hide PlanOk, Lags, Spare, OutboxSound, MirrorsSound, ReplicaSound, ParitySound, Task.Valid;
    assert InDetail(Scene());
    assert BackedUp(s.world, BACKUPS, PLACED[1]) && BackedUp(s.world, BACKUPS, PLACED[3]);
    assert LAYERS[1] in BackupsFor(s.world.runners["a"], "bb");
    assert LAYERS[3] in BackupsFor(s.world.runners["a"], "dddd");
  }

  /** So the plan is up from the upstream victim on. */
  lemma MovedIsUp(s: Snapshot)
    requires Doomed(s)
    ensures AllUp(s.world, HoldsOf(MOVED), 1, 1)
  {
    hide Stricken, BackupsStand;
    SurvivorsAnswer(s);
    BackupsAnswer(s);
    DevicesDiffer();
  }

  lemma OnlyBothDead()
    ensures OnlyDead(Scene(), DEAD, 1, 3)
  {
    SceneValid();
    DevicesDiffer();
  }

  lemma SlotIsComplete(logs: Logs)
    requires Folded(logs, 5)
    ensures AllComplete(Scene(), logs, 1)
  {
    var ks := set j | 0 < j < 5 :: LAYERS[j];
    assert ks == {LAYERS[1], LAYERS[2], LAYERS[3], LAYERS[4]};
    assert LAYERS[1] in Keys(ContributionsAt(logs, 0));
    assert |ks| == 4;
  }

  lemma OneShared(lost: set<nat>)
    requires lost == {1, 3}
    ensures SharedCount(Scene(), 1, 3, lost) == 1 && exists i :: 0 < i < Scene().Stages() && i !in lost
  {
    SceneValid();
    var i: nat := 4;
    assert 3 < i < Scene().Stages() && i !in lost;
  }

  /** The gates of P + Q recovery are open, and it has all it needs to succeed. */
  lemma PairRecovers(s: Snapshot)
    requires Doomed(s) && Folded(s.parity, 5) && MirroredUpTo(s, LAYERS[1], 1)
    ensures PairRescued(Scene(), 1, 3, 1, 3, s, PLACED, 2) && BothResumable(Scene(), 1, 1, 3, s)
  {
    SceneValid();
    DevicesDiffer();
    SurvivorsAnswer(s);
    BackupsAnswer(s);
    MovedIsUp(s);
    OnlyBothDead();
    SlotIsComplete(s.parity);
    OneShared({1, 3});
    assert SurvivorsStand(Scene(), MOVED, PLACED, {1, 3});
  }

  /** The stage between the victims counts its slot twice. */
  lemma TwiceCounted(s: Snapshot, mid: World, u: World, pushKv: bool, reply: Reply)
    requires Doomed(s) && RerunBoth(Scene(), 1, 1, 3, s.world, mid, u, pushKv, HoldsOf(MOVED), reply)
    ensures reply in {Sampled(TraceSample([5, 6])), Answer([5, 6])}
  {
    hide Task.Valid, Regular, RegularAt, ChainCall, OnlyRan, MessagesOutcome, Doomed, FlowIn;
    var t, hs := Scene(), HoldsOf(MOVED);
    SceneValid();
    var q := PassOf(t, mid, pushKv, hs, 1, In(t.job, 1, 1), 1);
    ChainOutcome(q, mid);
    BasesBetween(s, mid);
    CountedOn(q);
  }

  /** What arrives behind the last stage from these many slots. */
  lemma CountedOn(q: Pass)
    requires PassValid(q) && q.i == 1 && |q.hs| == 5 && KeysOf(q.hs) == LAYERS && q.model == TracingModel()
    requires |q.bases[1]| == 1 && |q.bases[2]| == 2 && |q.bases[3]| == 1 && |q.bases[4]| == 1
    requires q.call.blob == In(Scene().job, 1, 1)
    ensures Arriving(q, 5) == [5, 6]
  {
    SceneInputs(1);
    assert Arriving(q, 2) == TraceOutput(LAYERS[1], q.bases[1], Arriving(q, 1)) == [2, 2];
    assert Arriving(q, 3) == TraceOutput(LAYERS[2], q.bases[2], Arriving(q, 2)) == [3, 4];
    assert Arriving(q, 4) == TraceOutput(LAYERS[3], q.bases[3], Arriving(q, 3)) == [4, 5];
    assert Arriving(q, 5) == TraceOutput(LAYERS[4], q.bases[4], Arriving(q, 4)) == [5, 6];
  }

  lemma BasesBetween(s: Snapshot, mid: World)
    requires Doomed(s) && HoldsBefore(mid, Scene(), HoldsOf(MOVED)[1], 1, 1)
    requires HoldsBefore(mid, Scene(), HoldsOf(MOVED)[3], 1, 3)
    requires forall i :: 0 <= i < 5 && i != 1 && i != 3 ==>
      KvAt(mid, HoldsOf(MOVED)[i], 1) == KvAt(s.world, HoldsOf(MOVED)[i], 1)
    ensures |KvAt(mid, HoldsOf(MOVED)[1], 1)| == 1 && |KvAt(mid, HoldsOf(MOVED)[2], 1)| == 2
    ensures |KvAt(mid, HoldsOf(MOVED)[3], 1)| == 1 && |KvAt(mid, HoldsOf(MOVED)[4], 1)| == 1
  {
    var t := Scene();
    SceneValid();
    assert InDetail(t);
    assert KeptAt(t, 1, 3, s, PLACED, 2) && KeptAt(t, 1, 3, s, PLACED, 4);
    BeforeShape(t.job, t.geometry, 1, 1);
    BeforeShape(t.job, t.geometry, 2, 2);
    BeforeShape(t.job, t.geometry, 1, 3);
    BeforeShape(t.job, t.geometry, 1, 4);
  }

  lemma PairAnswersWrongly(s: Snapshot, u: World, reply: Reply)
    requires Doomed(s) && ReranBoth(Scene(), 1, 1, 3, s.world, u, HoldsOf(MOVED), reply)
    ensures !reply.Unavailable? && !Answers(Scene(), 1, reply)
  {
    hide Task.Valid, LiveRun, Doomed, Regular, HoldsBefore, KvAt, TracingModel;
    SceneValid();
    var mid, pushKv :| RerunBoth(Scene(), 1, 1, 3, s.world, mid, u, pushKv, HoldsOf(MOVED), reply);
    TwiceCounted(s, mid, u, pushKv, reply);
    TracedIn(Scene(), 1, 5);
    TracedWrongly(Scene(), 1, [5, 6]);
  }

  /** Both are recovered from P and Q: successfully, and wrongly. */
  method Rescue(gw: RequestGateway, trailer: Option<StageKey>) returns (recovery: Recovery)
    requires gw.Valid() && gw.Serves(Scene()) && Doomed(gw.Snap(1)) && gw.mode == Parity && gw.parity.k == 2
    requires Blames(Scene(), 3, PLACED, PLACED[0], trailer) && SecondMirrored(gw, 1) && Folded(gw.Snap(1).parity, 5)
    modifies gw.Repr()
    ensures recovery.path == Reentry(1, 3) && !recovery.reply.Unavailable? && !Answers(Scene(), 1, recovery.reply)
  {
    hide Fleet.Valid, Group, Task.Valid, Blames, Judged, Answers, PairRescued, BothResumable, Folded, ReranBoth,
      BlobStore.StoredBytes;
    ghost var s := gw.Snap(1);
    SceneValid();
    PairRecovers(s);
    var res := gw.RecoverFromChainFailure(1, PLACED[0], trailer, 1, 1, Scene(), 3, PLACED);
    recovery := res.value;
    PairAnswersWrongly(s, gw.fleet.State(), recovery.reply);
  }

  /**
   From five idle workers to a wrong token: deployment, prefill, a crash of the fourth device
   in the first decode step, another one of the second, reports of both, and their recovery
   from P and Q, which succeeds.
   */
  method AnswerWrongly() returns (recovery: Recovery)
    ensures recovery.path == Reentry(1, 3) && !recovery.reply.Unavailable? && !Answers(Scene(), 1, recovery.reply)
  {
    hide Fleet.Valid, Equipped, AllWell, Blames, Failing, Answers, Doomed, BlobStore.StoredBytes, Folded, FirstColumn;
    var gw := Prompt();
    Hear(gw);
    Gather(gw);
    Arm(gw);
    var trailer := Fail(gw);
    Report(gw);
    recovery := Rescue(gw, trailer);
  }
}
