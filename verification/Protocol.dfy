/**
 The recovery protocol's invariants, stated against the fault-free run of the same request:
 what workers hold, what messages say, and what the coordinator's caches may contain when
 the stages before v have done position p and the others have not.
 */
module Protocol {
  import opened Wrappers
  import opened Types
  import opened ByteStrings
  import opened KvLayout
  import opened Reference
  import opened Workforce
  import opened Chains
  import opened ExecutionPlans
  import BlobStore
  import opened ParityFold
  import opened KvParity

  // ---------- the pipeline a request runs on ----------

  /** Layer ranges that follow each other from layer 1, one per device. */
  ghost predicate Pipeline(placement: Placement) {
    && placement != [] && DistinctDevices(placement)
    && (forall i {:trigger Follows(placement, i)} :: 0 <= i < |placement| ==> Follows(placement, i))
  }

  /** Stage i is non-empty and starts where the previous one ended. */
  ghost predicate Follows(placement: Placement, i: nat)
    requires i < |placement|
  {
    && placement[i].start <= placement[i].end
    && placement[i].start == if i == 0 then 1 else placement[i - 1].end + 1
  }

  lemma {:induction false} RangesIncrease(placement: Placement, i: nat, j: nat)
    requires Pipeline(placement) && i < j < |placement|
    ensures placement[i].end < placement[j].start && 1 < placement[j].start
    decreases j
  {
    assert Follows(placement, i) && Follows(placement, j - 1) && Follows(placement, j);
    if i < j - 1 {
      RangesIncrease(placement, i, j - 1);
    } else if i > 0 {
      RangesIncrease(placement, 0, i);
    }
  }

  /** One request: the fault-free job it stands for and where it was placed. */
  datatype Task = Task(job: Job, request: RequestId, placement: Placement, recovery: RecoveryTable,
    geometry: Geometry)
  {
    ghost predicate Valid() {
      && Pipeline(placement) && |job.keys| == |placement|
      && (forall i :: 0 <= i < |placement| ==> job.keys[i] == placement[i].Key())
      && Regular(job.model, geometry) && geometry.Valid()
    }

    function Stages(): nat {
      |job.keys|
    }
  }

  /** The stage a layer range belongs to, or the number of stages. */
  function StageOf(keys: seq<StageKey>, key: StageKey): (i: nat)
    ensures i <= |keys| && (i < |keys| ==> keys[i] == key)
    ensures forall j :: 0 <= j < i ==> keys[j] != key
  {
    if keys == [] || keys[0] == key then 0 else 1 + StageOf(keys[1..], key)
  }

  lemma StageOfKey(t: Task, i: nat)
    requires t.Valid() && i < t.Stages()
    ensures StageOf(t.job.keys, t.job.keys[i]) == i
    ensures t.job.keys[i].start > 1 <==> i > 0
    ensures t.geometry.SlotBytes(t.job.keys[i]) > 0
  {
    var j := StageOf(t.job.keys, t.job.keys[i]);
    assert Follows(t.placement, i) && Follows(t.placement, j);
    if j < i {
      RangesIncrease(t.placement, j, i);
    }
    if i > 0 {
      RangesIncrease(t.placement, 0, i);
    }
    var k := t.job.keys[i];
    Positive(k.end - k.start + 1, 2 * t.geometry.heads);
    Positive(t.geometry.Lanes(k), t.geometry.row);
  }

  lemma Positive(a: int, b: int)
    requires a > 0 && b > 0
    ensures a * b > 0
  {}

  function HoldsOf(plan: Placement): (hs: seq<Held>)
    ensures |hs| == |plan| && forall i :: 0 <= i < |hs| ==> hs[i] == Held(plan[i].device, plan[i].Key())
  {
    seq(|plan|, i requires 0 <= i < |plan| => Held(plan[i].device, plan[i].Key()))
  }

  lemma PlanHoldsDistinct(t: Task, plan: Placement)
    requires t.Valid() && SameRanges(plan, t.placement)
    ensures DistinctHolds(HoldsOf(plan)) && KeysOf(HoldsOf(plan)) == t.job.keys
  {
    forall a, b | 0 <= a < b < |plan|
      ensures HoldsOf(plan)[a] != HoldsOf(plan)[b]
    {
      RangesIncrease(t.placement, a, b);
      assert Follows(t.placement, a);
      assert plan[a].Key() == t.placement[a].Key() && plan[b].Key() == t.placement[b].Key();
    }
  }

  // ---------- progress ----------

  /** Positions stage i has done while position p is under way and stages before v have done it. */
  function Done(p: nat, v: nat, i: nat): nat {
    if i < v then p + 1 else p
  }

  /** The fault-free KV column of stage i at an absolute slot. */
  ghost function TrueColumn(job: Job, i: nat, slot: nat): Bytes
    requires i < |job.keys|
  {
    var kv := Before(job, slot + 2, i);
    if slot < |kv| then kv[slot] else []
  }

  lemma {:induction false} TrueColumnIs(t: Task, p: nat, i: nat, slot: nat)
    requires t.Valid() && i < t.Stages() && slot < SlotsBefore(t.job, p)
    ensures slot < |Before(t.job, p, i)| && Before(t.job, p, i)[slot] == TrueColumn(t.job, i, slot)
  {
    BeforeShape(t.job, t.geometry, p, i);
    BeforeShape(t.job, t.geometry, slot + 2, i);
    if p <= slot + 2 {
      BeforeMonotone(t.job, p, slot + 2, i);
    } else {
      BeforeMonotone(t.job, slot + 2, p, i);
    }
  }

  lemma TrueColumnSize(t: Task, i: nat, slot: nat)
    requires t.Valid() && i < t.Stages()
    ensures |TrueColumn(t.job, i, slot)| == t.geometry.SlotBytes(t.job.keys[i])
  {
    BeforeShape(t.job, t.geometry, slot + 2, i);
  }

  // ---------- messages ----------

  /** A mirror carries the fault-free input, a push a column its stage really has by now. */
  ghost predicate MessageSound(t: Task, p: nat, v: nat, msg: Message) {
    msg.request == t.request ==>
      var i := StageOf(t.job.keys, msg.key);
      && 0 < i < t.Stages()
      && match msg
         case Mirror(_, _, position, blob) => position < Done(p, v + 1, i) && blob == In(t.job, position, i)
         case KvPush(_, _, slot, column) =>
           slot < SlotsBefore(t.job, Done(p, v, i)) && column == TrueColumn(t.job, i, slot)
  }

  ghost predicate OutboxSound(t: Task, p: nat, v: nat, outbox: set<Message>) {
    forall msg :: msg in outbox ==> MessageSound(t, p, v, msg)
  }

  // ---------- the workers' KV ----------

  /** Stage i of the chain holds the fault-free KV before position p. */
  ghost predicate HoldsBefore(w: World, t: Task, h: Held, p: nat, i: nat)
    requires i < t.Stages()
  {
    KvAt(w, h, t.request) == Before(t.job, p, i)
  }

  ghost predicate KvIs(w: World, t: Task, hs: seq<Held>, p: nat, v: nat) {
    |hs| == t.Stages() && forall i :: 0 <= i < |hs| ==> HoldsBefore(w, t, hs[i], Done(p, v, i), i)
  }

  /** The response of the fault-free run: the sampled token, or the activation it is sampled from. */
  ghost predicate Answers(t: Task, p: nat, reply: Reply) {
    reply == Sampled(TokenAt(t.job, p)) || reply == Answer(In(t.job, p, t.Stages()))
  }

  ghost function BasesAt(w: World, hs: seq<Held>, call: Call): (bs: seq<Kv>)
    ensures |bs| == |hs| && forall j :: 0 <= j < |hs| ==> bs[j] == BaseAt(w, hs[j], call)
  {
    seq(|hs|, j requires 0 <= j < |hs| => BaseAt(w, hs[j], call))
  }

  function StepCall(t: Task, blob: Bytes, p: nat): Call {
    Call(t.request, blob, p == 0, p, false)
  }

  /** The stages from i on are ready for position p, and what enters stage i is the fault-free input. */
  ghost predicate PassReady(t: Task, w: World, hs: seq<Held>, i: nat, blob: Bytes, p: nat) {
    && t.Valid() && WorldValid(w) && i < |hs| == t.Stages() && DistinctHolds(hs) && KeysOf(hs) == t.job.keys
    && blob == In(t.job, p, i)
    && (p > 0 ==> forall j :: i <= j < |hs| ==> HoldsBefore(w, t, hs[j], p, j))
  }

  /** The pass of position p from stage i on, as the chain runs it. */
  ghost function PassOf(t: Task, w: World, pushKv: bool, hs: seq<Held>, i: nat, blob: Bytes, p: nat): Pass {
    Pass(t.job.model, pushKv, hs, BasesAt(w, hs, StepCall(t, blob, p)), i, StepCall(t, blob, p))
  }

  lemma {:induction false} PassIsReference(t: Task, w: World, pushKv: bool, hs: seq<Held>, i: nat, blob: Bytes,
      p: nat, j: nat)
    requires PassReady(t, w, hs, i, blob, p) && i <= j <= |hs|
    ensures var q := PassOf(t, w, pushKv, hs, i, blob, p);
      && Starts(q, w) && Arriving(q, j) == In(t.job, p, j)
      && (j < |hs| ==> GrownKv(q, j) == Before(t.job, p + 1, j))
  {
    var q := PassOf(t, w, pushKv, hs, i, blob, p);
    forall s | i <= s < |hs|
      ensures q.bases[s] == Before(t.job, p, s)
    {
      assert p > 0 ==> HoldsBefore(w, t, hs[s], p, s);
    }
    FlowIsReference(t.job, q.bases, p, i, j);
  }

  /**
   A call of position p that enters a ready chain at stage i: the stages before the first
   one down advance to the fault-free KV after p, all others keep theirs, every message is
   sound, and the reply is the fault-free one or blames the stage that is down.
   */
  lemma {:induction false} CallAdvances(t: Task, w: World, pushKv: bool, hs: seq<Held>, i: nat, blob: Bytes, p: nat)
    requires PassReady(t, w, hs, i, blob, p)
    ensures var (u, reply) := ChainCall(w, t.job.model, pushKv, hs[i..], StepCall(t, blob, p));
      var v := FirstDown(w, hs, i, p);
      && WorldValid(u) && OnlyRan(w, u)
      && (forall j :: 0 <= j < |hs| && (j < i || v <= j) ==> KvAt(u, hs[j], t.request) == KvAt(w, hs[j], t.request))
      && (forall j :: i <= j < v ==> HoldsBefore(u, t, hs[j], p + 1, j))
      && (v < |hs| ==> reply == Unavailable(if v == i then None else Some(t.job.keys[v])))
      && (v < |hs| ==> !Available(u, hs[v]))
      && (v == |hs| ==> Answers(t, p, reply))
      && (forall msg :: msg in u.outbox ==> msg in w.outbox || MessageSound(t, p, v, msg))
      && (i < v && v < |hs| && hs[v].device in w.alive ==>
         Mirror(t.request, t.job.keys[v], p, In(t.job, p, v)) in u.outbox)
  {
    hide ChainCall, OnlyRan, RegularAt;
    var q := PassOf(t, w, pushKv, hs, i, blob, p);
    var (u, reply) := ChainCall(w, t.job.model, pushKv, hs[i..], StepCall(t, blob, p));
    var v := FirstDown(w, hs, i, p);
    PassIsReference(t, w, pushKv, hs, i, blob, p, v);
    ChainOutcome(q, w);
    PassKv(t, w, u, pushKv, hs, i, blob, p, v);
    if v < |hs| {
      assert hs[v].key == KeysOf(hs)[v];
      StageOfKey(t, v);
      assert i < v && hs[v].device in w.alive ==> MirrorSent(q, w, v, v, MirrorOf(q, v));
    }
    PassMessagesSound(t, w, u, pushKv, hs, i, blob, p, v);
  }

  /** A call that every stage is up for leaves nobody dead and no crash used up. */
  lemma {:induction false} CallCrashesNobody(t: Task, w: World, pushKv: bool, hs: seq<Held>, i: nat, blob: Bytes,
      p: nat)
    requires PassReady(t, w, hs, i, blob, p) && AllUp(w, hs, i, p)
    ensures var u := ChainCall(w, t.job.model, pushKv, hs[i..], StepCall(t, blob, p)).0; Undisturbed(w, u)
  {
    PassIsReference(t, w, pushKv, hs, i, blob, p, i);
    NobodyCrashes(PassOf(t, w, pushKv, hs, i, blob, p), w);
  }

  lemma PassKv(t: Task, w: World, u: World, pushKv: bool, hs: seq<Held>, i: nat, blob: Bytes, p: nat, v: nat)
    requires PassReady(t, w, hs, i, blob, p) && i <= v <= |hs|
    requires Starts(PassOf(t, w, pushKv, hs, i, blob, p), w)
    requires KvOutcome(PassOf(t, w, pushKv, hs, i, blob, p), w, u, v)
    ensures forall j :: 0 <= j < |hs| && (j < i || v <= j) ==> KvAt(u, hs[j], t.request) == KvAt(w, hs[j], t.request)
    ensures forall j :: i <= j < v ==> HoldsBefore(u, t, hs[j], p + 1, j)
  {
    var q := PassOf(t, w, pushKv, hs, i, blob, p);
    forall j | i <= j < v
      ensures HoldsBefore(u, t, hs[j], p + 1, j)
    {
      PassIsReference(t, w, pushKv, hs, i, blob, p, j);
      assert KvAt(u, hs[j], t.request) == GrownKv(q, j);
    }
  }

  lemma PassMessagesSound(t: Task, w: World, u: World, pushKv: bool, hs: seq<Held>, i: nat, blob: Bytes, p: nat, v: nat)
    requires PassReady(t, w, hs, i, blob, p) && i <= v <= |hs|
    requires MessagesOutcome(PassOf(t, w, pushKv, hs, i, blob, p), w, u, v)
    ensures forall msg :: msg in u.outbox ==> msg in w.outbox || MessageSound(t, p, v, msg)
  {
    var q := PassOf(t, w, pushKv, hs, i, blob, p);
    forall msg | msg in u.outbox && msg !in w.outbox
      ensures MessageSound(t, p, v, msg)
    {
      if j: nat :| MirrorSent(q, w, v, j, msg) {
        PassMirrorSound(t, w, pushKv, hs, i, blob, p, v, j);
      } else {
        var j: nat :| PushSent(q, v, j, msg);
        PassPushSound(t, w, pushKv, hs, i, blob, p, v, j, msg);
      }
    }
  }

  /** A KV column on its way to the coordinator. */
  ghost function ColumnPush(t: Task, j: nat, slot: nat): Message
    requires j < t.Stages()
  {
    KvPush(t.request, t.job.keys[j], slot, TrueColumn(t.job, j, slot))
  }

  /** The slots that position p adds: the whole prompt's at first, then one each. */
  ghost predicate AddedAt(t: Task, p: nat, slot: nat) {
    if p == 0 then slot < PastLength(t.job) else slot == PastLength(t.job) + p - 1
  }

  /**
   Where workers ship KV, every non-head stage that runs position p ships exactly the columns of
   the slots it adds, and nothing else is shipped; elsewhere nothing is.
   */
  lemma {:induction false} CallPushes(t: Task, w: World, pushKv: bool, hs: seq<Held>, i: nat, blob: Bytes, p: nat)
    requires PassReady(t, w, hs, i, blob, p)
    ensures var u := ChainCall(w, t.job.model, pushKv, hs[i..], StepCall(t, blob, p)).0;
      var v := FirstDown(w, hs, i, p);
      && (pushKv ==> forall j, slot :: i <= j < v && 0 < j && 0 <= slot && AddedAt(t, p, slot) ==>
          ColumnPush(t, j, slot) in u.outbox)
      && (forall msg :: msg in u.outbox && msg.KvPush? && msg !in w.outbox ==>
          pushKv && exists j :: i <= j < v && 0 < j && AddedAt(t, p, msg.slot) && msg == ColumnPush(t, j, msg.slot))
  {
    hide ChainCall, OnlyRan, RegularAt;
    var q := PassOf(t, w, pushKv, hs, i, blob, p);
    var u, v := ChainCall(w, t.job.model, pushKv, hs[i..], StepCall(t, blob, p)).0, FirstDown(w, hs, i, p);
    PassIsReference(t, w, pushKv, hs, i, blob, p, i);
    ChainOutcome(q, w);
    forall j: nat, slot: nat | pushKv && i <= j < v && 0 < j && AddedAt(t, p, slot)
      ensures ColumnPush(t, j, slot) in u.outbox
    {
      PushedColumns(t, w, pushKv, hs, i, blob, p, v, j, ColumnPush(t, j, slot));
      assert PushSent(q, v, j, ColumnPush(t, j, slot));
    }
    forall msg | msg in u.outbox && msg.KvPush? && msg !in w.outbox
      ensures pushKv && exists j :: i <= j < v && 0 < j && AddedAt(t, p, msg.slot) && msg == ColumnPush(t, j, msg.slot)
    {
      var j: nat :| PushSent(q, v, j, msg);
      PushedColumns(t, w, pushKv, hs, i, blob, p, v, j, msg);
    }
  }

  /** What stage j ships. */
  lemma PushedColumns(t: Task, w: World, pushKv: bool, hs: seq<Held>, i: nat, blob: Bytes, p: nat, v: nat, j: nat,
      msg: Message)
    requires PassReady(t, w, hs, i, blob, p) && i <= j < v <= |hs| && msg.KvPush?
    ensures PushSent(PassOf(t, w, pushKv, hs, i, blob, p), v, j, msg) <==>
      pushKv && 0 < j && AddedAt(t, p, msg.slot) && msg == ColumnPush(t, j, msg.slot)
  {
    PassIsReference(t, w, pushKv, hs, i, blob, p, j);
    assert hs[j].key == KeysOf(hs)[j];
    StageOfKey(t, j);
    BeforeShape(t.job, t.geometry, p + 1, j);
    if msg.slot < SlotsBefore(t.job, p + 1) {
      TrueColumnIs(t, p + 1, j, msg.slot);
    }
  }

  lemma PassMirrorSound(t: Task, w: World, pushKv: bool, hs: seq<Held>, i: nat, blob: Bytes, p: nat, v: nat, j: nat)
    requires PassReady(t, w, hs, i, blob, p) && i <= j < |hs| && j <= v && hs[j].key.start > 1
    ensures MessageSound(t, p, v, MirrorOf(PassOf(t, w, pushKv, hs, i, blob, p), j))
  {
    PassIsReference(t, w, pushKv, hs, i, blob, p, j);
    assert hs[j].key == KeysOf(hs)[j];
    StageOfKey(t, j);
  }

  lemma PassPushSound(t: Task, w: World, pushKv: bool, hs: seq<Held>, i: nat, blob: Bytes, p: nat, v: nat, j: nat,
      msg: Message)
    requires PassReady(t, w, hs, i, blob, p)
    requires PushSent(PassOf(t, w, pushKv, hs, i, blob, p), v, j, msg)
    ensures MessageSound(t, p, v, msg)
  {
    PassIsReference(t, w, pushKv, hs, i, blob, p, j);
    assert hs[j].key == KeysOf(hs)[j];
    StageOfKey(t, j);
    BeforeShape(t.job, t.geometry, p + 1, j);
    TrueColumnIs(t, p + 1, j, msg.slot);
  }

  // ---------- the coordinator's caches ----------

  /** A mirrored input is the fault-free one, of a stage that was reached. */
  ghost predicate MirrorSound(t: Task, p: nat, v: nat, slot: BlobStore.Slot, blob: Bytes) {
    var i := StageOf(t.job.keys, slot.key);
    i < t.Stages() && slot.position < Done(p, v + 1, i) && blob == In(t.job, slot.position, i)
  }

  /**
   All mirrored inputs are fault-free, and those of the head reach p without a gap from
   the first one held: a history that starts at 0 is complete, otherwise it is empty.
   */
  ghost predicate MirrorsSound(t: Task, p: nat, v: nat, m: BlobStore.Slots) {
    && (forall slot :: slot in m ==> MirrorSound(t, p, v, slot, m[slot]))
    && (forall q: nat :: q < p && HeadSlot(t, q) in m ==> HeadSlot(t, q + 1) in m)
  }

  ghost function HeadSlot(t: Task, q: nat): BlobStore.Slot {
    BlobStore.Slot(if t.Stages() > 0 then t.job.keys[0] else StageKey(0, 0), q)
  }

  /** A replicated column is the fault-free one. */
  ghost predicate ReplicaSound(t: Task, m: BlobStore.Slots) {
    forall slot :: slot in m ==> ColumnSound(t, slot, m[slot])
  }

  ghost predicate ColumnSound(t: Task, slot: BlobStore.Slot, column: Bytes) {
    var i := StageOf(t.job.keys, slot.key);
    0 < i < t.Stages() && column == TrueColumn(t.job, i, slot.position)
  }

  /** A contribution to a parity slot: the fault-free column of a stage that has reached the slot. */
  ghost predicate ContributionSound(t: Task, p: nat, v: nat, slot: int, c: Contribution) {
    var i := StageOf(t.job.keys, c.key);
    && 0 < i < t.Stages() && c.rank == i - 1
    && 0 <= slot < SlotsBefore(t.job, Done(p, v, i)) && c.column == TrueColumn(t.job, i, slot)
  }

  ghost predicate LogSound(t: Task, p: nat, v: nat, slot: int, log: seq<Contribution>) {
    forall c :: c in log ==> ContributionSound(t, p, v, slot, c)
  }

  ghost predicate ParitySound(t: Task, p: nat, v: nat, logs: Logs) {
    forall slot :: slot in logs ==> LogSound(t, p, v, slot, logs[slot])
  }

  // ---------- a snapshot of everything that concerns one request ----------

  /** Workers, plan, and what the three caches hold for the request. */
  datatype Snapshot = Snapshot(
    world: World,
    plans: Plans,
    mirrors: BlobStore.Slots,
    replica: BlobStore.Slots,
    parity: Logs)

  /**
   Plans for the request, whatever devices were declared dead: a stage runs where it was
   placed or on its dead owner's backup, and the plan is the right one whenever one exists.
   Otherwise it lags behind the dead set.
   */
  ghost predicate PlanOk(t: Task, s: Plans) {
    && s.placement == t.placement && s.recovery == t.recovery && PlansValid(s)
    && forall i {:trigger LawfulAt(s, i)} :: 0 <= i < |s.placement| ==> LawfulAt(s, i)
  }

  ghost predicate LawfulAt(s: Plans, i: nat) {
    && i < |s.plan| == |s.placement|
    && (s.plan[i] == s.placement[i] || (
          && s.placement[i].device in s.dead && s.placement[i].device in s.recovery
          && s.plan[i] == s.placement[i].(device := s.recovery[s.placement[i].device])))
  }

  /** Declaring a device dead changes the plan at its own stage at most, and not at all if that leaves no plan. */
  lemma PlanOkStep(t: Task, s: Plans, d: DeviceId)
    requires t.Valid() && PlanOk(t, s)
    ensures var u := PlanStep(s, PlanEvent.MarkDead(d));
      && PlanOk(t, u) && u.dead == s.dead + {d}
      && (forall i :: 0 <= i < |s.placement| && s.placement[i].device != d ==> u.plan[i] == s.plan[i])
      && (d in s.dead || !Viable(s.placement, s.recovery, s.dead + {d}) ==> u.plan == s.plan)
      && (d !in s.dead && Viable(s.placement, s.recovery, s.dead + {d}) ==>
          forall i :: 0 <= i < |s.placement| && s.placement[i].device == d ==>
            u.plan[i].device == s.recovery[d] && u.plan[i].device !in u.dead)
  {
    var u := PlanStep(s, PlanEvent.MarkDead(d));
    PlanStepSound(s, PlanEvent.MarkDead(d));
    assert s.dead + {d} == if d in s.dead then s.dead else s.dead + {d};
    if d !in s.dead && Viable(s.placement, s.recovery, s.dead + {d}) {
      ViableMonotone(s.placement, s.recovery, s.dead, s.dead + {d});
      forall i | 0 <= i < |s.placement|
        ensures LawfulAt(u, i) && (s.placement[i].device != d ==> u.plan[i] == s.plan[i])
        ensures s.placement[i].device == d ==> u.plan[i].device == s.recovery[d] && u.plan[i].device !in u.dead
      {
        assert LawfulAt(s, i) && StageViable(s.placement[i], s.recovery, u.dead);
      }
    } else {
      forall i | 0 <= i < |s.placement|
        ensures LawfulAt(u, i)
      {
        assert LawfulAt(s, i);
      }
    }
  }

  /** Caches and messages speak only of what the stages have done. */
  ghost predicate Sound(t: Task, p: nat, v: nat, s: Snapshot) {
    && OutboxSound(t, p, v, s.world.outbox)
    && MirrorsSound(t, p, v, s.mirrors)
    && ReplicaSound(t, s.replica)
    && ParitySound(t, p, v, s.parity)
  }

  /** Everything loaded and wired along a chain that serves the request's ranges. */
  ghost predicate Wired(t: Task, w: World, wired: Placement) {
    && SameRanges(wired, t.placement)
    && Linked(w.nextHops, w.alive, HoldsOf(wired))
    && forall i :: 0 <= i < |wired| ==> LoadedAt(w, HoldsOf(wired)[i])
  }

  ghost predicate LoadedAt(w: World, h: Held) {
    h.device in w.runners && h.key in w.runners[h.device].stages
  }

  /** The plan has moved on from the wired chain only where a stage's own device was declared dead. */
  ghost predicate Lags(t: Task, s: Plans, wired: Placement) {
    |s.plan| == |wired| == |t.placement| > 0 &&
    forall i {:trigger LagsAt(t, s, wired, i)} :: 0 <= i < |wired| ==> LagsAt(t, s, wired, i)
  }

  ghost predicate LagsAt(t: Task, s: Plans, wired: Placement, i: nat) {
    && i < |s.plan| == |wired| == |t.placement|
    && (wired[i] == s.plan[i] || (wired[i] == t.placement[i] && t.placement[i].device in s.dead))
  }

  /**
   Off the wired chain no device that is not declared dead holds KV of the request, nor does a
   stage the plan has moved.
   */
  ghost predicate Spare(t: Task, s: Snapshot, wired: Placement) {
    && (forall h {:trigger SpareAt(t, s, wired, h)} :: SpareAt(t, s, wired, h))
    && (forall i {:trigger DriftsEmpty(t, s, wired, i)} :: 0 <= i < |wired| ==> DriftsEmpty(t, s, wired, i))
  }

  ghost predicate SpareAt(t: Task, s: Snapshot, wired: Placement, h: Held) {
    h !in HoldsOf(wired) && h.device !in s.plans.dead ==> KvAt(s.world, h, t.request) == []
  }

  ghost predicate DriftsEmpty(t: Task, s: Snapshot, wired: Placement, i: nat) {
    i < |wired| == |s.plans.plan| && s.plans.plan[i] != wired[i] ==>
      KvAt(s.world, HoldsOf(s.plans.plan)[i], t.request) == []
  }

  /**
   Mentioned where one of the predicates below has to be unfolded; everywhere else they are
   passed on whole.
   */
  ghost predicate InDetail(t: Task) { true }

  /** A healthy chain for the request, whatever the plan has become meanwhile. */
  ghost predicate Running(t: Task, s: Snapshot, wired: Placement) {
    && t.Valid() && WorldValid(s.world) && PlanOk(t, s.plans) && Wired(t, s.world, wired) && Lags(t, s.plans, wired)
    && Spare(t, s, wired)
  }

  /** Position p is done by every stage of the wired chain. */
  ghost predicate Completed(t: Task, p: nat, s: Snapshot, wired: Placement) {
    forall u {:trigger InDetail(u)} :: InDetail(u) ==>
      Running(t, s, wired) && KvIs(s.world, t, HoldsOf(wired), p, t.Stages()) && Sound(t, p, t.Stages(), s)
  }

  /** Position p may be started: nothing is known of the request yet, or p - 1 is completed. */
  ghost predicate Ready(t: Task, p: nat, s: Snapshot, wired: Placement) {
    forall u {:trigger InDetail(u)} :: InDetail(u) ==>
      Running(t, s, wired) && KvIs(s.world, t, HoldsOf(wired), p, 0) && RestSound(t, p, s)
  }

  /** What is known between two calls: nothing yet, or what position p - 1 has left. */
  ghost predicate RestSound(t: Task, p: nat, s: Snapshot) {
    if p == 0 then Sound(t, 0, 0, s) else Sound(t, p - 1, t.Stages(), s)
  }

  /** A completed position makes the next one ready. */
  lemma NextReady(t: Task, p: nat, s: Snapshot, wired: Placement)
    requires Completed(t, p, s, wired)
    ensures Ready(t, p + 1, s, wired)
  {
    assert InDetail(t);
    forall i | 0 <= i < |wired|
      ensures HoldsBefore(s.world, t, HoldsOf(wired)[i], Done(p + 1, 0, i), i)
    {
      assert HoldsBefore(s.world, t, HoldsOf(wired)[i], Done(p, t.Stages(), i), i);
    }
  }

  /**
   Position p failed at stage v of the wired chain: the stages before v have done it, the
   others have not, and the failed one's device is gone.
   */
  ghost predicate Stricken(t: Task, p: nat, v: nat, s: Snapshot, wired: Placement) {
    forall u {:trigger InDetail(u)} :: InDetail(u) ==> StrickenAt(t, p, v, s, wired)
  }

  ghost predicate StrickenAt(t: Task, p: nat, v: nat, s: Snapshot, wired: Placement) {
    && t.Valid() && WorldValid(s.world) && PlanOk(t, s.plans) && v < t.Stages() && Sound(t, p, v, s)
    && SameRanges(wired, t.placement) && Lags(t, s.plans, wired) && Spare(t, s, wired)
    && wired[v].device !in s.world.alive
    && forall i {:trigger KeptAt(t, p, v, s, wired, i)} :: 0 <= i < t.Stages() && i != v ==>
        KeptAt(t, p, v, s, wired, i)
  }

  /** Stage i of the wired chain is loaded and holds the KV it should. */
  ghost predicate KeptAt(t: Task, p: nat, v: nat, s: Snapshot, wired: Placement, i: nat) {
    && i < t.Stages() == |wired|
    && HoldsBefore(s.world, t, HoldsOf(wired)[i], Done(p, v, i), i) && LoadedAt(s.world, HoldsOf(wired)[i])
  }

  /** How the failure of stage v shows: the relayed range, or no trailer if the called head itself failed. */
  ghost predicate Blames(t: Task, v: nat, wired: Placement, head: Stage, trailer: Option<StageKey>) {
    && v < t.Stages() == |wired|
    && (if v == 0 then trailer == None && head == wired[0] else trailer == Some(t.job.keys[v]))
  }

  /**
   The plan still runs every stage but the failed one where it is wired. Stages that have
   yet to do the prefill do not matter: they hold no KV.
   */
  predicate Settled(p: nat, v: nat, plan: Placement, wired: Placement) {
    |plan| == |wired| && forall i :: 0 <= i < |plan| && i != v ==> plan[i] == wired[i] || (p == 0 && i > v)
  }

  // ---------- progress only widens what may be said ----------

  lemma SoundLater(t: Task, p: nat, v: nat, u: nat, s: Snapshot)
    requires Sound(t, p, v, s) && v <= u
    ensures Sound(t, p, u, s)
  {
    forall slot | slot in s.mirrors
      ensures MirrorSound(t, p, u, slot, s.mirrors[slot])
    {
      assert MirrorSound(t, p, v, slot, s.mirrors[slot]);
    }
    forall slot | slot in s.parity
      ensures LogSound(t, p, u, slot, s.parity[slot])
    {
      assert LogSound(t, p, v, slot, s.parity[slot]);
      forall c | c in s.parity[slot]
        ensures ContributionSound(t, p, u, slot, c)
      {
        assert ContributionSound(t, p, v, slot, c);
      }
    }
  }

  /** A stage's history is the fault-free inputs; the head's is complete or empty. */
  lemma {:induction false} HistoryIsTrue(t: Task, p: nat, v: nat, m: BlobStore.Slots, i: nat, h: seq<Bytes>)
    requires t.Valid() && i < t.Stages() && MirrorsSound(t, p, v, m) && BlobStore.IsHistory(m, t.job.keys[i], h)
    ensures forall q :: 0 <= q < |h| ==> h[q] == In(t.job, q, i)
    ensures i > v ==> |h| <= p
    ensures i == 0 && h != [] ==> |h| == p + 1
  {
    StageOfKey(t, i);
    forall q | 0 <= q < |h|
      ensures h[q] == In(t.job, q, i) && q < Done(p, v + 1, i)
    {
      var slot := BlobStore.Slot(t.job.keys[i], q);
      assert MirrorSound(t, p, v, slot, m[slot]);
    }
    if h != [] {
      assert h[|h| - 1] == In(t.job, |h| - 1, i);
    }
    assert i == 0 && h != [] ==> HeadSlot(t, |h| - 1) in m;
    assert i == 0 ==> HeadSlot(t, |h|) == BlobStore.Slot(t.job.keys[0], |h|);
  }

  /** A chain stays linked as devices die. */
  lemma LinkedFewer(nextHops: map<Held, Held>, alive: set<DeviceId>, fewer: set<DeviceId>, hs: seq<Held>)
    requires Linked(nextHops, alive, hs) && fewer <= alive
    ensures Linked(nextHops, fewer, hs)
    ensures forall i :: 0 <= i < |hs| ==> Linked(nextHops, fewer, hs[i..])
  {}

  // ---------- runs on the current plan ----------

  /** Off the plan no device that is not declared dead holds KV of the request. */
  ghost predicate OffPlan(t: Task, s: Snapshot) {
    forall h {:trigger OffPlanAt(t, s, h)} :: OffPlanAt(t, s, h)
  }

  ghost predicate OffPlanAt(t: Task, s: Snapshot, h: Held) {
    h !in HoldsOf(s.plans.plan) && h.device !in s.plans.dead ==> KvAt(s.world, h, t.request) == []
  }

  /** A pass of position p over the plan from stage e on, the earlier stages having done it. */
  ghost predicate PlanReady(t: Task, p: nat, e: nat, s: Snapshot, blob: Bytes) {
    && t.Valid() && WorldValid(s.world) && PlanOk(t, s.plans) && e < t.Stages()
    && Sound(t, p, t.Stages(), s) && OffPlan(t, s)
    && Linked(s.world.nextHops, s.world.alive, HoldsOf(s.plans.plan))
    && PassReady(t, s.world, HoldsOf(s.plans.plan), e, blob, p)
    && (forall i :: 0 <= i < e ==>
        HoldsBefore(s.world, t, HoldsOf(s.plans.plan)[i], p + 1, i) && LoadedAt(s.world, HoldsOf(s.plans.plan)[i]))
  }

  /** With every stage done, a plan that is loaded, wired and clean is a healthy chain. */
  lemma PlanCompleted(t: Task, p: nat, s: Snapshot)
    requires t.Valid() && WorldValid(s.world) && PlanOk(t, s.plans) && Sound(t, p, t.Stages(), s) && OffPlan(t, s)
    requires Linked(s.world.nextHops, s.world.alive, HoldsOf(s.plans.plan))
    requires |s.plans.plan| == t.Stages() && forall i :: 0 <= i < t.Stages() ==>
      HoldsBefore(s.world, t, HoldsOf(s.plans.plan)[i], p + 1, i) && LoadedAt(s.world, HoldsOf(s.plans.plan)[i])
    ensures Completed(t, p, s, s.plans.plan)
  {
    var plan := s.plans.plan;
    forall h
      ensures SpareAt(t, s, plan, h)
    {
      assert OffPlanAt(t, s, h);
    }
    assert forall i :: 0 <= i < |plan| ==> LagsAt(t, s.plans, plan, i) && DriftsEmpty(t, s, plan, i);
  }

  lemma {:induction false} OffPlanStays(t: Task, s: Snapshot, m: Model, pushKv: bool, chain: seq<Held>, call: Call)
    requires WorldValid(s.world) && OffPlan(t, s) && chain != [] && call.request == t.request
    requires forall h :: h in chain ==> h in HoldsOf(s.plans.plan)
    ensures OffPlan(t, s.(world := ChainCall(s.world, m, pushKv, chain, call).0))
  {
    var u := s.(world := ChainCall(s.world, m, pushKv, chain, call).0);
    forall h
      ensures OffPlanAt(t, u, h)
    {
      assert OffPlanAt(t, s, h);
      if h !in chain {
        ElsewhereSame(s.world, m, pushKv, chain, call, h);
      }
    }
  }

  /**
   The pass gets through exactly if every stage is up; then p is done everywhere and the answer
   is the fault-free one.
   */
  lemma {:induction false} PlanPass(t: Task, p: nat, e: nat, s: Snapshot, blob: Bytes, pushKv: bool)
    requires PlanReady(t, p, e, s, blob)
    ensures var (u, reply) := ChainCall(s.world, t.job.model, pushKv, HoldsOf(s.plans.plan)[e..], StepCall(t, blob, p));
      && (!reply.Unavailable? ==> Answers(t, p, reply) && Completed(t, p, s.(world := u), s.plans.plan))
      && (!reply.Unavailable? <==> AllUp(s.world, HoldsOf(s.plans.plan), e, p))
  {
    var hs := HoldsOf(s.plans.plan);
    var (u, reply) := ChainCall(s.world, t.job.model, pushKv, hs[e..], StepCall(t, blob, p));
    CallAdvances(t, s.world, pushKv, hs, e, blob, p);
    OffPlanStays(t, s, t.job.model, pushKv, hs[e..], StepCall(t, blob, p));
    if !reply.Unavailable? {
      LinkedFewer(s.world.nextHops, s.world.alive, u.alive, hs);
      forall i | 0 <= i < |hs|
        ensures HoldsBefore(u, t, hs[i], p + 1, i) && LoadedAt(u, hs[i])
      {
        assert i < e ==> HoldsBefore(s.world, t, hs[i], p + 1, i);
        assert i >= e ==> !Down(s.world, hs[i], p);
      }
      PassSound(t, p, e, s, blob, pushKv);
      PlanCompleted(t, p, s.(world := u));
    }
  }

  lemma {:induction false} PassSound(t: Task, p: nat, e: nat, s: Snapshot, blob: Bytes, pushKv: bool)
    requires PlanReady(t, p, e, s, blob) && AllUp(s.world, HoldsOf(s.plans.plan), e, p)
    ensures Sound(t, p, t.Stages(), s.(world := ChainCall(s.world, t.job.model, pushKv, HoldsOf(s.plans.plan)[e..],
      StepCall(t, blob, p)).0))
  {
    CallAdvances(t, s.world, pushKv, HoldsOf(s.plans.plan), e, blob, p);
  }

  /** One position replayed into a stage alone: its KV advances, nothing else changes. */
  lemma ReplayAlone(t: Task, w: World, pushKv: bool, hs: seq<Held>, i: nat, blob: Bytes, q: nat)
    requires t.Valid() && WorldValid(w) && DistinctHolds(hs) && KeysOf(hs) == t.job.keys && i < |hs|
    requires blob == In(t.job, q, i) && (q > 0 ==> HoldsBefore(w, t, hs[i], q, i))
    ensures var (u, reply) := ChainCall(w, t.job.model, pushKv, [hs[i]], Call(t.request, blob, q == 0, q, true));
      && WorldValid(u) && Undisturbed(w, u) && u.outbox == w.outbox
      && (forall h :: h != hs[i] ==> KvAt(u, h, t.request) == KvAt(w, h, t.request))
      && (!reply.Unavailable? ==> HoldsBefore(u, t, hs[i], q + 1, i) && LoadedAt(w, hs[i]))
      && (!reply.Unavailable? <==> Available(w, hs[i]))
  {
    var h, call := hs[i], Call(t.request, blob, q == 0, q, true);
    assert h.key == KeysOf(hs)[i];
    if Available(w, h) {
      assert BaseAt(w, h, call) == Before(t.job, q, i);
      BeforeGrows(t.job, q, i);
      assert [h][0] == h;
    }
  }
}
