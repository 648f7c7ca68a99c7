/**
 The head is declared dead between two calls. The plan then begins with its backup, which
 nobody has wired or given any KV: what the next call comes to, and exactly when that is
 what it should be.
 */
module HeadReports {
  import opened Wrappers
  import opened Types
  import opened ByteStrings
  import opened Reference
  import opened Workforce
  import opened Chains
  import opened ExecutionPlans
  import opened Protocol
  import opened Rewiring
  import opened Reentry
  import opened Gateway
  import opened Calling
  import opened Intervals
  import opened Generation
  import opened Tracing

  /** A chain as next hops make it: one stage after the other from the first one on, up to where a hop is missing. */
  ghost predicate StageWise(t: Task, chain: seq<Held>) {
    0 < |chain| <= t.Stages() && forall k :: 0 <= k < |chain| ==> chain[k].key == t.job.keys[k]
  }

  /** The chain that should be called once the head's place has changed. */
  ghost function WithHead(wired: Placement, h: Held): seq<Held>
    requires wired != []
  {
    HoldsOf(wired)[0 := h]
  }

  /** The backup's next hop is the one the head has. */
  ghost predicate LinkedLikeHead(nextHops: map<Held, Held>, wired: Placement, h: Held) {
    if |wired| <= 1 then h !in nextHops else h in nextHops && nextHops[h] == HoldsOf(wired)[1]
  }

  /** What hops from a place on the wired chain follow that chain to its end. */
  lemma {:induction false} SameWalk(nextHops: map<Held, Held>, alive: set<DeviceId>, hs: seq<Held>, chain: seq<Held>,
      k: nat)
    requires Linked(nextHops, alive, hs) && Linked(nextHops, alive, chain) && k < |chain| && k < |hs|
    requires forall j :: 0 <= j < |chain| ==> chain[j].device in alive
    requires chain[k] == hs[k]
    ensures chain[k..] == hs[k..]
    decreases |chain| - k
  {
    if k + 1 < |chain| {
      assert chain[k] in nextHops;
      assert k + 1 < |hs| && chain[k + 1] == hs[k + 1];
      SameWalk(nextHops, alive, hs, chain, k + 1);
      assert chain[k..] == [chain[k]] + chain[k + 1..] && hs[k..] == [hs[k]] + hs[k + 1..];
    } else {
      assert chain[k] !in nextHops;
      assert k + 1 == |hs|;
    }
  }

  /** The called chain is the right one exactly if the backup is linked like the head. */
  lemma LinkedAsChain(t: Task, w: World, wired: Placement, chain: seq<Held>)
    requires t.Valid() && Wired(t, w, wired) && StageWise(t, chain) && Linked(w.nextHops, w.alive, chain)
    requires forall j :: 0 <= j < |chain| ==> chain[j].device in w.alive
    requires wired != []
    ensures chain == WithHead(wired, chain[0]) <==> LinkedLikeHead(w.nextHops, wired, chain[0])
  {
    var hs, next := HoldsOf(wired), WithHead(wired, chain[0]);
    assert chain[0].device in w.alive;
    if LinkedLikeHead(w.nextHops, wired, chain[0]) {
      if |wired| == 1 {
        assert |chain| == 1;
        assert chain == next;
      } else {
        assert |chain| > 1 && chain[1] == hs[1];
        SameWalk(w.nextHops, w.alive, hs, chain, 1);
        assert chain == [chain[0]] + chain[1..] && next == [chain[0]] + hs[1..];
      }
    }
    if chain == next && |wired| > 1 {
      assert chain[1] == hs[1];
    }
  }

  lemma StageWiseDistinct(t: Task, chain: seq<Held>)
    requires t.Valid() && StageWise(t, chain)
    ensures DistinctHolds(chain)
  {
    forall a, b | 0 <= a < b < |chain|
      ensures chain[a] != chain[b]
    {
      StageOfKey(t, a);
      StageOfKey(t, b);
    }
  }

  /** A stage of the wired chain that the call does not reach does not do the prefill. */
  lemma {:induction false} UnreachedHasNothing(t: Task, w: World, wired: Placement, chain: seq<Held>, m: Model,
      pushKv: bool, call: Call, i: nat)
    requires t.Valid() && WorldValid(w) && i < |wired| == t.Stages() && chain != [] && call.request == t.request
    requires KvIs(w, t, HoldsOf(wired), 0, 0) && PastLength(t.job) > 0
    requires HoldsOf(wired)[i] !in chain
    ensures !HoldsBefore(ChainCall(w, m, pushKv, chain, call).0, t, HoldsOf(wired)[i], 1, i)
  {
    assert HoldsBefore(w, t, HoldsOf(wired)[i], Done(0, 0, i), i);
    ElsewhereSame(w, m, pushKv, chain, call, HoldsOf(wired)[i]);
    LostKvIsWrong(t, ChainCall(w, m, pushKv, chain, call).0, HoldsOf(wired)[i], 1, i);
  }

  /** A backup without KV that runs a decode step ends up with one column. */
  lemma {:induction false} OneColumnIsWrong(t: Task, w: World, chain: seq<Held>, pushKv: bool, p: nat)
    requires t.Valid() && WorldValid(w) && StageWise(t, chain) && p > 0 && PastLength(t.job) > 0
    requires KvAt(w, chain[0], t.request) == [] && AllUp(w, chain, 0, p)
    ensures !HoldsBefore(ChainCall(w, t.job.model, pushKv, chain, StepCall(t, In(t.job, p, 0), p)).0, t, chain[0],
      p + 1, 0)
  {
    var call := StepCall(t, In(t.job, p, 0), p);
    var q := Pass(t.job.model, pushKv, chain, BasesAt(w, chain, call), 0, call);
    StageWiseDistinct(t, chain);
    ChainOutcome(q, w);
    assert chain[0..] == chain && Arriving(q, 0) == call.blob;
    TokensIn(t.job, t.geometry, p, 0);
    assert RegularAt(t.job.model, t.geometry, chain[0].key, [], call.blob);
    assert KvAt(ChainCall(w, t.job.model, pushKv, chain, call).0, chain[0], t.request) == GrownKv(q, 0);
    BeforeShape(t.job, t.geometry, p + 1, 0);
  }

  /** A prefill over a chain of which every stage is up leaves the fault-free KV on it, wherever it runs. */
  lemma {:induction false} PrefillAnywhere(t: Task, w: World, chain: seq<Held>, pushKv: bool)
    requires t.Valid() && WorldValid(w) && StageWise(t, chain) && |chain| == t.Stages() && AllUp(w, chain, 0, 0)
    ensures var (u, reply) := ChainCall(w, t.job.model, pushKv, chain, StepCall(t, In(t.job, 0, 0), 0));
      KvIs(u, t, chain, 0, t.Stages()) && Answers(t, 0, reply)
  {
    StageWiseDistinct(t, chain);
    assert KeysOf(chain) == t.job.keys && chain[0..] == chain;
    CallAdvances(t, w, pushKv, chain, 0, In(t.job, 0, 0), 0);
    var u := ChainCall(w, t.job.model, pushKv, chain, StepCall(t, In(t.job, 0, 0), 0)).0;
    forall i | 0 <= i < |chain|
      ensures HoldsBefore(u, t, chain[i], Done(0, t.Stages(), i), i)
    {}
  }

  /**
   The plan has taken the head away, and a call through its backup gets an answer. The
   chain is then in the fault-free state exactly if this was the prefill and the backup
   happened to be linked like the head.
   */
  lemma {:induction false} HeadReportExact(t: Task, p: nat, s: Snapshot, wired: Placement, chain: seq<Held>,
      pushKv: bool)
    requires Ready(t, p, s, wired) && wired != [] && s.plans.plan != [] && s.plans.plan[0] != wired[0]
    requires StageWise(t, chain) && chain[0] == HoldsOf(s.plans.plan)[0]
    requires Linked(s.world.nextHops, s.world.alive, chain)
    requires AllUp(s.world, chain, 0, p) && PastLength(t.job) > 0 && WorldValid(s.world)
    ensures var (u, reply) := ChainCall(s.world, t.job.model, pushKv, chain, StepCall(t, In(t.job, p, 0), p));
      && !reply.Unavailable?
      && (KvIs(u, t, WithHead(wired, chain[0]), p, t.Stages()) <==>
          p == 0 && LinkedLikeHead(s.world.nextHops, wired, chain[0]))
      && (p == 0 && LinkedLikeHead(s.world.nextHops, wired, chain[0]) ==> Answers(t, p, reply))
  {
    ReadyParts(t, p, s, wired);
    var w, next, call := s.world, WithHead(wired, chain[0]), StepCall(t, In(t.job, p, 0), p);
    StageWiseDistinct(t, chain);
    assert chain[0..] == chain;
    GetsThrough(w, t.job.model, pushKv, chain, 0, call);
    forall j | 0 <= j < |chain|
      ensures chain[j].device in w.alive
    {
      assert !Down(w, chain[j], p);
    }
    LinkedAsChain(t, w, wired, chain);
    var u := ChainCall(w, t.job.model, pushKv, chain, call).0;
    if p > 0 {
      OneColumnIsWrong(t, w, chain, pushKv, p);
      assert !HoldsBefore(u, t, next[0], Done(p, t.Stages(), 0), 0);
    } else if chain == next {
      PrefillAnywhere(t, w, chain, pushKv);
    } else {
      MissingStage(t, w, wired, chain, pushKv);
    }
  }

  lemma ReadyParts(t: Task, p: nat, s: Snapshot, wired: Placement)
    requires Ready(t, p, s, wired)
    ensures t.Valid() && Wired(t, s.world, wired) && KvIs(s.world, t, HoldsOf(wired), p, 0)
    ensures |wired| == t.Stages() == |s.plans.plan| > 0
    ensures s.plans.plan[0] != wired[0] ==> KvAt(s.world, HoldsOf(s.plans.plan)[0], t.request) == []
  {
    ReadyValid(t, p, s, wired);
    assert InDetail(t);
    assert DriftsEmpty(t, s, wired, 0);
  }

  /** A prefill through another chain leaves out a stage of the wired one. */
  lemma {:induction false} MissingStage(t: Task, w: World, wired: Placement, chain: seq<Held>, pushKv: bool)
    requires t.Valid() && WorldValid(w) && |wired| == t.Stages() > 0 && SameRanges(wired, t.placement)
    requires KvIs(w, t, HoldsOf(wired), 0, 0) && PastLength(t.job) > 0
    requires StageWise(t, chain) && chain != WithHead(wired, chain[0])
    ensures !KvIs(ChainCall(w, t.job.model, pushKv, chain, StepCall(t, In(t.job, 0, 0), 0)).0, t,
      WithHead(wired, chain[0]), 0, t.Stages())
  {
    var hs, next := HoldsOf(wired), WithHead(wired, chain[0]);
    var i :| 0 < i < |hs| && (i >= |chain| || chain[i] != hs[i]);
    PlanHoldsDistinct(t, wired);
    assert hs[i] !in chain by {
      forall k | 0 <= k < |chain|
        ensures chain[k] != hs[i]
      {
        assert hs[i].key == KeysOf(hs)[i];
        StageOfKey(t, k);
        StageOfKey(t, i);
      }
    }
    UnreachedHasNothing(t, w, wired, chain, t.job.model, pushKv, StepCall(t, In(t.job, 0, 0), 0), i);
    assert next[i] == hs[i] && Done(0, t.Stages(), i) == 1;
  }

  /** The tracing model on a pipeline whose first and last stage it tells apart. */
  ghost predicate Telling(t: Task) {
    t.job.model == TracingModel() && t.job.keys != [] &&
    ByteOf(t.job.keys[0].end) != ByteOf(t.job.keys[t.Stages() - 1].end)
  }

  /** A backup without next hop answers the call itself: on the tracing model wrongly, at every position. */
  lemma {:induction false} UnlinkedAnswersWrongly(t: Task, p: nat, s: Snapshot, wired: Placement, pushKv: bool)
    requires Ready(t, p, s, wired) && wired != [] && s.plans.plan != [] && s.plans.plan[0] != wired[0]
    requires WorldValid(s.world) && AllUp(s.world, [HoldsOf(s.plans.plan)[0]], 0, p)
    requires Telling(t)
    ensures var reply := ChainCall(s.world, t.job.model, pushKv, [HoldsOf(s.plans.plan)[0]],
      StepCall(t, In(t.job, p, 0), p)).1;
      !reply.Unavailable? && !Answers(t, p, reply)
  {
    ReadyParts(t, p, s, wired);
    var h, w, call := HoldsOf(s.plans.plan)[0], s.world, StepCall(t, In(t.job, p, 0), p);
    HeadPlace(t, p, s, wired);
    assert !Down(w, [h][0], p);
    TokensIn(t.job, t.geometry, p, 0);
    TracedLast(t, p);
    var last := TraceOutput(h.key, BaseAt(w, h, call), call.blob);
    assert last == [ByteOf(h.key.end), ByteOf(|BaseAt(w, h, call)|)];
    TracedWrongly(t, p, last);
  }

  lemma HeadPlace(t: Task, p: nat, s: Snapshot, wired: Placement)
    requires Ready(t, p, s, wired) && s.plans.plan != []
    ensures t.Stages() > 0 && HoldsOf(s.plans.plan)[0].key == t.job.keys[0] && PlanOk(t, s.plans) && t.Valid()
  {
    ReadyValid(t, p, s, wired);
    PlanShape(t, s.plans);
  }

  /** A viable report takes the head off its device. */
  lemma HeadMoves(t: Task, p: nat, s: Snapshot, wired: Placement)
    requires Ready(t, p, s, wired) && t.placement != [] && t.placement[0].device !in s.plans.dead
    requires Viable(s.plans.placement, s.plans.recovery, s.plans.dead + {t.placement[0].device})
    ensures var d := t.placement[0].device; var u := Declared(s, d);
      && Ready(t, p, u, wired) && wired != [] && u.plans.plan != [] && d in t.recovery
      && u.plans.plan[0] == t.placement[0].(device := t.recovery[d]) && u.plans.plan[0] != wired[0]
  {
    var d := t.placement[0].device;
    StandsReady(t, p, s, wired);
    DeclaredStands(t, p, None, s, wired, d);
    StandsReady(t, p, Declared(s, d), wired);
    ReadyValid(t, p, s, wired);
    PlanOkStep(t, s.plans, d);
    assert InDetail(t);
    assert LagsAt(t, s.plans, wired, 0) && LawfulAt(s.plans, 0) && LawfulAt(Declared(s, d).plans, 0);
  }

  /** What a call through the backup comes to, its world being w before and u after. */
  ghost predicate BackupCalled(t: Task, p: nat, w: World, u: World, wired: Placement, chain: seq<Held>, reply: Reply)
    requires wired != [] && chain != []
  {
    && !reply.Unavailable?
    && (KvIs(u, t, WithHead(wired, chain[0]), p, t.Stages()) <==> p == 0 && LinkedLikeHead(w.nextHops, wired, chain[0]))
    && (p == 0 && LinkedLikeHead(w.nextHops, wired, chain[0]) ==> Answers(t, p, reply))
    && (|chain| == 1 && Telling(t) ==> !Answers(t, p, reply))
  }

  lemma {:induction false} BackupCallOutcome(t: Task, p: nat, s: Snapshot, wired: Placement, chain: seq<Held>,
      pushKv: bool)
    requires Ready(t, p, s, wired) && wired != [] && s.plans.plan != [] && s.plans.plan[0] != wired[0]
    requires StageWise(t, chain) && chain[0] == HoldsOf(s.plans.plan)[0]
    requires Linked(s.world.nextHops, s.world.alive, chain)
    requires AllUp(s.world, chain, 0, p) && PastLength(t.job) > 0 && WorldValid(s.world)
    ensures var (u, reply) := ChainCall(s.world, t.job.model, pushKv, chain, StepCall(t, In(t.job, p, 0), p));
      BackupCalled(t, p, s.world, u, wired, chain, reply)
  {
    HeadReportExact(t, p, s, wired, chain, pushKv);
    if |chain| == 1 && Telling(t) {
      assert chain == [HoldsOf(s.plans.plan)[0]];
      UnlinkedAnswersWrongly(t, p, s, wired, pushKv);
    }
  }

  /** The call of the plan's head, its input mirrored before. */
  method CallPlanHead(gw: RequestGateway, r: RequestId, p: nat, blob: Bytes, ghost t: Task, ghost wired: Placement,
      ghost chain: seq<Held>) returns (reply: Reply)
    requires gw.Valid() && gw.Serves(t) && r == t.request && Ready(t, p, gw.Snap(r), wired) && blob == In(t.job, p, 0)
    requires gw.plans.plan != [] && chain != [] && chain[0] == HoldsOf(gw.plans.plan)[0]
    requires Linked(gw.fleet.nextHops, gw.fleet.alive, chain)
    modifies gw.cache, gw.fleet.Repr()
    ensures gw.Valid() && WorldValid(old(gw.fleet.State()))
    ensures (gw.fleet.State(), reply) ==
      ChainCall(old(gw.fleet.State()), t.job.model, gw.fleet.pushKv, chain, StepCall(t, In(t.job, p, 0), p))
  {
    hide RestMirrors, MirrorsSound, Called, Linked;
    var head := gw.plans.plan[0];
    ReadyIsCalled(t, p, gw.Snap(r), wired, gw.Snap(r).mirrors);
    HeadPlace(t, p, gw.Snap(r), wired);
    PrimeMirror(gw, r, head.Key(), p, blob, t);
    assert StepCall(t, blob, p) == Call(r, blob, p == 0, p, false);
    label primed:
    reply := gw.fleet.RunStage(Held(head.device, head.Key()), Call(r, blob, p == 0, p, false), chain);
    gw.OnlyFleetMoved@primed(r);
  }

  /**
   The failure detector reports the head's device between two positions, and the next one is
   called as always: its head input is mirrored and the plan's head is called. Whatever
   answer this gives is right exactly in one case, which the next hops tell; and with a
   backup nobody has wired, it is the backup's own, which the tracing model shows to be
   wrong at every position, whether the backup has the head modules or not.
   */
  method ReportHeadAndCall(gw: RequestGateway, r: RequestId, p: nat, blob: Bytes, ghost t: Task, ghost wired: Placement,
      ghost chain: seq<Held>) returns (reply: Reply)
    requires gw.Valid() && gw.Serves(t) && r == t.request && Ready(t, p, gw.Snap(r), wired) && blob == In(t.job, p, 0)
    requires gw.plans.placement != [] && gw.plans.placement == t.placement && gw.plans.recovery == t.recovery
    requires wired != [] && PastLength(t.job) > 0
    requires t.placement[0].device !in gw.plans.dead
    requires Viable(t.placement, t.recovery, gw.plans.dead + {t.placement[0].device})
    requires StageWise(t, chain) && Linked(gw.fleet.nextHops, gw.fleet.alive, chain)
    requires AllUp(gw.fleet.State(), chain, 0, p)
    requires t.placement[0].device in t.recovery
    requires chain[0] == Held(t.recovery[t.placement[0].device], t.placement[0].Key())
    modifies gw.plans, gw.cache, gw.fleet.Repr()
    ensures gw.Valid() && BackupCalled(t, p, old(gw.fleet.State()), gw.fleet.State(), wired, chain, reply)
  {
    hide Fleet.Valid, LinkedLikeHead, KvIs, Linked, AllUp, Telling, Viable, BackupCalled, PlanOk;
    ghost var s := gw.Snap(r);
    HeadMoves(t, p, s, wired);
    ReportDead(gw, gw.plans.placement[0].device, r);
    ghost var u := gw.Snap(r);
    assert u.world == s.world && chain[0] == HoldsOf(u.plans.plan)[0];
    reply := CallPlanHead(gw, r, p, blob, t, wired, chain);
    BackupCallOutcome(t, p, u, wired, chain, gw.fleet.pushKv);
  }
}
