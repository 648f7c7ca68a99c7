/**
 What one call along a wired chain does, stage by stage: the stages before the first one
 that is down each run once on the KV they held, everything else keeps its KV, and the
 blame that comes back names the stage that is down.
 */
module Chains {
  import opened Wrappers
  import opened Types
  import opened ByteStrings
  import opened Reference
  import opened Workers
  import opened Workforce

  ghost predicate DistinctHolds(hs: seq<Held>) {
    forall a, b :: 0 <= a < b < |hs| ==> hs[a] != hs[b]
  }

  /** A call for this stage at this position fails. */
  ghost predicate Down(w: World, h: Held, position: nat) {
    h.device !in w.alive || Fault(h, position) in w.faults || h.device !in w.runners ||
    h.key !in w.runners[h.device].stages
  }

  /** The first stage from i on that is down, or the end of the chain. */
  ghost function FirstDown(w: World, hs: seq<Held>, i: nat, position: nat): (v: nat)
    requires i <= |hs|
    ensures i <= v <= |hs| && (v < |hs| ==> Down(w, hs[v], position))
    ensures forall j :: i <= j < v ==> !Down(w, hs[j], position)
    decreases |hs| - i
  {
    if i == |hs| || Down(w, hs[i], position) then i else FirstDown(w, hs, i + 1, position)
  }

  lemma {:induction false} FirstDownSame(w: World, u: World, hs: seq<Held>, i: nat, position: nat)
    requires i <= |hs| && forall j :: i <= j < |hs| ==> Down(w, hs[j], position) == Down(u, hs[j], position)
    ensures FirstDown(w, hs, i, position) == FirstDown(u, hs, i, position)
    decreases |hs| - i
  {
    if i < |hs| {
      FirstDownSame(w, u, hs, i + 1, position);
    }
  }

  /** Nothing but KV changes, fewer devices and faults are left and more messages sent. */
  ghost predicate OnlyRan(w: World, u: World) {
    && u.nextHops == w.nextHops && u.alive <= w.alive && u.faults <= w.faults && w.outbox <= u.outbox
    && u.runners.Keys == w.runners.Keys
    && forall d :: d in w.runners ==> SameLoads(w.runners[d], u.runners[d])
  }

  ghost predicate SameLoads(r: Runner, s: Runner) {
    r.stages == s.stages && r.backupFor == s.backupFor && r.promoted == s.promoted && r.hasHead == s.hasHead
  }

  /** Nothing but KV and messages moved: nobody crashed, no crash was used up. */
  ghost predicate Undisturbed(w: World, u: World) {
    OnlyRan(w, u) && u.alive == w.alive && u.faults == w.faults
  }

  /** Nobody crashed, and no crash that is due was used up. */
  ghost predicate Unharmed(w: World, u: World) {
    u.alive == w.alive && u.faults == w.faults
  }

  /** Every stage from i on can run the position. */
  ghost predicate AllUp(w: World, hs: seq<Held>, i: nat, position: nat) {
    forall j :: i <= j < |hs| ==> !Down(w, hs[j], position)
  }

  /** Who is up does not depend on KV. */
  lemma SameUp(w: World, u: World, hs: seq<Held>, i: nat, position: nat)
    requires Undisturbed(w, u)
    ensures AllUp(u, hs, i, position) <==> AllUp(w, hs, i, position)
  {
    forall j | i <= j < |hs|
      ensures Down(u, hs[j], position) <==> Down(w, hs[j], position)
    {
      var d := hs[j].device;
      assert d in w.runners ==> SameLoads(w.runners[d], u.runners[d]);
    }
  }

  /** A call leaves the KV of every place off its chain alone. */
  lemma {:induction false} ElsewhereSame(w: World, m: Model, pushKv: bool, chain: seq<Held>, call: Call, h: Held)
    requires WorldValid(w) && chain != [] && h !in chain
    ensures KvAt(ChainCall(w, m, pushKv, chain, call).0, h, call.request) == KvAt(w, h, call.request)
    decreases |chain|
  {
    var first := chain[0];
    if Available(w, first) && (call.replayOnly || Fault(first, call.position) !in w.faults) {
      var v := Mirrored(w, first, call);
      var t := StageAdvanced(v, m, pushKv, first, call);
      assert KvAt(t, h, call.request) == KvAt(w, h, call.request);
      if !call.replayOnly && |chain| > 1 {
        var out := m.output(first.key, BaseAt(v, first, call), call.blob);
        ElsewhereSame(t, m, pushKv, chain[1..], call.(blob := out), h);
      }
    }
  }

  ghost predicate Available(w: World, h: Held) {
    h.device in w.alive && h.device in w.runners && h.key in w.runners[h.device].stages
  }

  ghost function KeysOf(hs: seq<Held>): (keys: seq<StageKey>)
    ensures |keys| == |hs| && forall j :: 0 <= j < |hs| ==> keys[j] == hs[j].key
  {
    seq(|hs|, j requires 0 <= j < |hs| => hs[j].key)
  }

  /** One pass from stage i on, each stage starting from the KV bases[j]. */
  datatype Pass = Pass(model: Model, pushKv: bool, hs: seq<Held>, bases: seq<Kv>, i: nat, call: Call)

  ghost predicate PassValid(p: Pass) {
    && p.i < |p.hs| == |p.bases| && DistinctHolds(p.hs) && !p.call.replayOnly
  }

  ghost function Arriving(p: Pass, j: nat): Bytes
    requires PassValid(p) && p.i <= j <= |p.hs|
  {
    FlowIn(p.model, KeysOf(p.hs), p.bases, p.i, p.call.blob, j)
  }

  ghost function GrownKv(p: Pass, j: nat): Kv
    requires PassValid(p) && p.i <= j < |p.hs|
  {
    FlowKv(p.model, KeysOf(p.hs), p.bases, p.i, p.call.blob, j)
  }

  ghost function MirrorOf(p: Pass, j: nat): Message
    requires PassValid(p) && p.i <= j < |p.hs|
  {
    Mirror(p.call.request, p.hs[j].key, p.call.position, Arriving(p, j))
  }

  /** Stage j mirrors what reaches it, if it is reached alive. */
  ghost predicate MirrorSent(p: Pass, w: World, v: nat, j: nat, msg: Message) {
    && PassValid(p) && p.i <= j < |p.hs| && j <= v && p.hs[j].key.start > 1 && p.hs[j].device in w.alive
    && msg == MirrorOf(p, j)
  }

  /** Stage j ships a slot it added. */
  ghost predicate PushSent(p: Pass, v: nat, j: nat, msg: Message) {
    && PassValid(p) && p.i <= j < |p.hs| && j < v && p.pushKv && p.hs[j].key.start > 1
    && msg in NewPushes(p.call.request, p.hs[j].key, GrownKv(p, j), p.call.prefill)
  }

  ghost predicate Starts(p: Pass, w: World) {
    && PassValid(p) && WorldValid(w)
    && forall j :: p.i <= j < |p.hs| ==> p.bases[j] == BaseAt(w, p.hs[j], p.call)
  }

  ghost predicate KvOutcome(p: Pass, w: World, u: World, v: nat)
    requires PassValid(p) && p.i <= v <= |p.hs|
  {
    && (forall j :: 0 <= j < |p.hs| && (j < p.i || v <= j) ==>
        KvAt(u, p.hs[j], p.call.request) == KvAt(w, p.hs[j], p.call.request))
    && (forall j :: p.i <= j < v ==> KvAt(u, p.hs[j], p.call.request) == GrownKv(p, j))
  }

  ghost predicate ReplyOutcome(p: Pass, w: World, u: World, v: nat, reply: Reply)
    requires PassValid(p) && p.i <= v <= |p.hs|
  {
    if v == |p.hs| then
      if p.hs[v - 1].device in w.runners && w.runners[p.hs[v - 1].device].hasHead
      then reply == Sampled(p.model.sample(Arriving(p, v)))
      else reply == Answer(Arriving(p, v))
    else
      && reply == Unavailable(if v == p.i then None else Some(p.hs[v].key))
      && (p.hs[v].device !in u.alive || p.hs[v].device !in u.runners ||
          p.hs[v].key !in u.runners[p.hs[v].device].stages)
  }

  ghost predicate MessagesOutcome(p: Pass, w: World, u: World, v: nat)
    requires PassValid(p) && p.i <= v <= |p.hs|
  {
    && (forall msg :: msg in u.outbox ==>
        msg in w.outbox || (exists j :: MirrorSent(p, w, v, j, msg)) || (exists j :: PushSent(p, v, j, msg)))
    && (forall j, msg :: MirrorSent(p, w, v, j, msg) || PushSent(p, v, j, msg) ==> msg in u.outbox)
  }

  // ---------- the induction along the chain ----------

  /** The pass as the next stage continues it. */
  ghost function Rest(p: Pass): (q: Pass)
    requires PassValid(p) && p.i + 1 < |p.hs|
    ensures PassValid(q)
  {
    p.(i := p.i + 1, call := p.call.(blob := p.model.output(p.hs[p.i].key, p.bases[p.i], p.call.blob)))
  }

  lemma RestFlows(p: Pass, j: nat)
    requires PassValid(p) && p.i < j <= |p.hs| && p.i + 1 < |p.hs|
    ensures Arriving(Rest(p), j) == Arriving(p, j)
    ensures j < |p.hs| ==> GrownKv(Rest(p), j) == GrownKv(p, j)
  {
    FlowStep(p.model, KeysOf(p.hs), p.bases, p.i, p.call.blob, j);
  }

  /** What the first stage of a pass changes before it forwards. */
  lemma FirstStage(p: Pass, w: World)
    requires Starts(p, w) && !Down(w, p.hs[p.i], p.call.position)
    ensures var h := p.hs[p.i]; var t := StageAdvanced(Mirrored(w, h, p.call), p.model, p.pushKv, h, p.call);
      && OnlyRan(w, t) && t.alive == w.alive && t.faults == w.faults && WorldValid(t)
      && KvAt(t, h, p.call.request) == GrownKv(p, p.i)
      && (forall j :: 0 <= j < |p.hs| && j != p.i ==>
          && KvAt(t, p.hs[j], p.call.request) == KvAt(w, p.hs[j], p.call.request)
          && BaseAt(t, p.hs[j], p.call) == BaseAt(w, p.hs[j], p.call))
      && t.outbox == w.outbox
         + (if h.key.start > 1 then {MirrorOf(p, p.i)} else {})
         + (if p.pushKv && h.key.start > 1
            then NewPushes(p.call.request, h.key, GrownKv(p, p.i), p.call.prefill) else {})
  {
    var h := p.hs[p.i];
    assert p.bases[p.i] == BaseAt(w, h, p.call);
    assert Arriving(p, p.i) == p.call.blob;
    var t := StageAdvanced(Mirrored(w, h, p.call), p.model, p.pushKv, h, p.call);
    assert KvAt(t, h, p.call.request) == GrownKv(p, p.i);
  }

  lemma FirstMessages(p: Pass, w: World, t: World, v: nat)
    requires Starts(p, w) && p.i < v <= |p.hs| && p.hs[p.i].device in w.alive
    requires t.outbox == w.outbox
      + (if p.hs[p.i].key.start > 1 then {MirrorOf(p, p.i)} else {})
      + (if p.pushKv && p.hs[p.i].key.start > 1
         then NewPushes(p.call.request, p.hs[p.i].key, GrownKv(p, p.i), p.call.prefill)
         else {})
    ensures forall msg :: msg in t.outbox <==>
      msg in w.outbox || MirrorSent(p, w, v, p.i, msg) || PushSent(p, v, p.i, msg)
  {}

  lemma RestMessages(p: Pass, w: World, t: World, v: nat)
    requires PassValid(p) && p.i + 1 < |p.hs| && t.alive == w.alive
    ensures forall j, msg :: j != p.i ==> MirrorSent(Rest(p), t, v, j, msg) == MirrorSent(p, w, v, j, msg)
    ensures forall j, msg :: j != p.i ==> PushSent(Rest(p), v, j, msg) == PushSent(p, v, j, msg)
  {
    forall j: nat, msg | j != p.i
      ensures MirrorSent(Rest(p), t, v, j, msg) == MirrorSent(p, w, v, j, msg)
      ensures PushSent(Rest(p), v, j, msg) == PushSent(p, v, j, msg)
    {
      if p.i < j < |p.hs| {
        RestFlows(p, j);
      }
    }
  }

  lemma MessagesCompose(p: Pass, w: World, t: World, u: World, v: nat)
    requires Starts(p, w) && p.i + 1 < |p.hs| && p.i < v <= |p.hs| && p.hs[p.i].device in w.alive && t.alive == w.alive
    requires forall msg :: msg in t.outbox <==>
      msg in w.outbox || MirrorSent(p, w, v, p.i, msg) || PushSent(p, v, p.i, msg)
    requires t.outbox <= u.outbox && MessagesOutcome(Rest(p), t, u, v)
    ensures MessagesOutcome(p, w, u, v)
  {
    RestMessages(p, w, t, v);
    forall msg | msg in u.outbox && msg !in w.outbox
      ensures (exists j :: MirrorSent(p, w, v, j, msg)) || (exists j :: PushSent(p, v, j, msg))
    {
      if msg !in t.outbox {
        if j: nat :| MirrorSent(Rest(p), t, v, j, msg) {
          assert MirrorSent(p, w, v, j, msg);
        } else {
          var j: nat :| PushSent(Rest(p), v, j, msg);
          assert PushSent(p, v, j, msg);
        }
      }
    }
    forall j: nat, msg | MirrorSent(p, w, v, j, msg) || PushSent(p, v, j, msg)
      ensures msg in u.outbox
    {
      if j == p.i {
        assert msg in t.outbox;
      } else if MirrorSent(p, w, v, j, msg) {
        assert MirrorSent(Rest(p), t, v, j, msg);
      } else {
        assert PushSent(Rest(p), v, j, msg);
      }
    }
  }

  /**
   A call along a chain runs exactly the stages before the first one that is down, each
   once; it sends exactly their mirrors and pushes, and the victim's mirror; the reply is
   the tail's, or blames the stage that is down, whatever its distance from the caller.
   */
  lemma {:induction false} ChainOutcome(p: Pass, w: World)
    requires Starts(p, w)
    ensures var (u, reply) := ChainCall(w, p.model, p.pushKv, p.hs[p.i..], p.call);
      var v := FirstDown(w, p.hs, p.i, p.call.position);
      && WorldValid(u) && OnlyRan(w, u)
      && KvOutcome(p, w, u, v) && ReplyOutcome(p, w, u, v, reply) && MessagesOutcome(p, w, u, v)
    decreases |p.hs| - p.i
  {
    hide ChainCall, StageAdvanced, BaseAt, KvAt, KvOutcome, ReplyOutcome, MessagesOutcome;
    var h, v := p.hs[p.i], FirstDown(w, p.hs, p.i, p.call.position);
    if Down(w, h, p.call.position) {
      DownOutcome(p, w);
    } else {
      var t := StageAdvanced(Mirrored(w, h, p.call), p.model, p.pushKv, h, p.call);
      FirstStage(p, w);
      FirstMessages(p, w, t, v);
      if p.i + 1 == |p.hs| {
        LastOutcome(p, w, t);
      } else {
        RestStarts(p, w, t);
        ChainOutcome(Rest(p), t);
        ChainForwards(p, w, t);
        var (u, reply) := ChainCall(t, p.model, p.pushKv, p.hs[p.i + 1..], Rest(p).call);
        RelayOutcome(p, w, t, u, v, reply);
        KvCompose(p, w, t, u, v);
        MessagesCompose(p, w, t, u, v);
      }
    }
  }

  /** A call gets through exactly if every stage is up, and then leaves nobody dead and no crash used up. */
  lemma {:induction false} GetsThrough(w: World, m: Model, pushKv: bool, hs: seq<Held>, i: nat, call: Call)
    requires WorldValid(w) && DistinctHolds(hs) && i < |hs| && !call.replayOnly
    ensures var (u, reply) := ChainCall(w, m, pushKv, hs[i..], call);
      && WorldValid(u) && OnlyRan(w, u) && (!reply.Unavailable? <==> AllUp(w, hs, i, call.position))
      && (AllUp(w, hs, i, call.position) ==> Undisturbed(w, u))
  {
    var p := Pass(m, pushKv, hs, seq(|hs|, j requires 0 <= j < |hs| => BaseAt(w, hs[j], call)), i, call);
    ChainOutcome(p, w);
    if AllUp(w, hs, i, call.position) {
      NobodyCrashes(p, w);
    }
  }

  /** A call that gets through leaves nobody dead and no crash used up. */
  lemma {:induction false} NobodyCrashes(p: Pass, w: World)
    requires Starts(p, w) && FirstDown(w, p.hs, p.i, p.call.position) == |p.hs|
    ensures var u := ChainCall(w, p.model, p.pushKv, p.hs[p.i..], p.call).0; Undisturbed(w, u)
    decreases |p.hs| - p.i
  {
    hide ChainCall, StageAdvanced, BaseAt;
    var h := p.hs[p.i];
    if p.i + 1 < |p.hs| {
      var t := StageAdvanced(Mirrored(w, h, p.call), p.model, p.pushKv, h, p.call);
      FirstStage(p, w);
      RestStarts(p, w, t);
      NobodyCrashes(Rest(p), t);
      ChainForwards(p, w, t);
    } else {
      LastCrashesNobody(p, w);
    }
  }

  lemma {:induction false} LastCrashesNobody(p: Pass, w: World)
    requires Starts(p, w) && !Down(w, p.hs[p.i], p.call.position) && p.i + 1 == |p.hs|
    ensures var u := ChainCall(w, p.model, p.pushKv, p.hs[p.i..], p.call).0; Undisturbed(w, u)
  {
    FirstStage(p, w);
  }

  /** A call that stops takes nobody down but the stage it stops at. */
  lemma {:induction false} OnlyVictimDies(p: Pass, w: World)
    requires Starts(p, w) && FirstDown(w, p.hs, p.i, p.call.position) < |p.hs|
    ensures var u := ChainCall(w, p.model, p.pushKv, p.hs[p.i..], p.call).0;
      w.alive - {p.hs[FirstDown(w, p.hs, p.i, p.call.position)].device} <= u.alive
    decreases |p.hs| - p.i
  {
    hide ChainCall, StageAdvanced, BaseAt;
    var h := p.hs[p.i];
    if Down(w, h, p.call.position) {
      DownTakesOne(p, w);
    } else {
      var t := StageAdvanced(Mirrored(w, h, p.call), p.model, p.pushKv, h, p.call);
      FirstStage(p, w);
      RestStarts(p, w, t);
      OnlyVictimDies(Rest(p), t);
      ChainForwards(p, w, t);
    }
  }

  lemma {:induction false} DownTakesOne(p: Pass, w: World)
    requires Starts(p, w) && Down(w, p.hs[p.i], p.call.position)
    ensures w.alive - {p.hs[p.i].device} <= ChainCall(w, p.model, p.pushKv, p.hs[p.i..], p.call).0.alive
  {}

  lemma {:induction false} DownOutcome(p: Pass, w: World)
    requires Starts(p, w) && Down(w, p.hs[p.i], p.call.position)
    ensures var (u, reply) := ChainCall(w, p.model, p.pushKv, p.hs[p.i..], p.call);
      && WorldValid(u) && OnlyRan(w, u)
      && KvOutcome(p, w, u, p.i) && ReplyOutcome(p, w, u, p.i, reply) && MessagesOutcome(p, w, u, p.i)
  {
    var h := p.hs[p.i];
    var (u, reply) := ChainCall(w, p.model, p.pushKv, p.hs[p.i..], p.call);
    assert Arriving(p, p.i) == p.call.blob;
    assert h.device in w.alive && h.key.start > 1 ==> MirrorSent(p, w, p.i, p.i, MirrorOf(p, p.i));
    if h.device !in w.alive {
      assert u == w;
    } else if Fault(h, p.call.position) in w.faults {
      assert u == Crashed(Mirrored(w, h, p.call), Fault(h, p.call.position));
    } else {
      assert u == Mirrored(w, h, p.call);
    }
    forall msg | msg in u.outbox && msg !in w.outbox
      ensures exists j :: MirrorSent(p, w, p.i, j, msg)
    {
      assert MirrorSent(p, w, p.i, p.i, msg);
    }
  }

  lemma {:induction false} LastOutcome(p: Pass, w: World, t: World)
    requires Starts(p, w) && !Down(w, p.hs[p.i], p.call.position) && p.i + 1 == |p.hs|
    requires t == StageAdvanced(Mirrored(w, p.hs[p.i], p.call), p.model, p.pushKv, p.hs[p.i], p.call)
    requires forall msg :: msg in t.outbox <==>
      msg in w.outbox || MirrorSent(p, w, p.i + 1, p.i, msg) || PushSent(p, p.i + 1, p.i, msg)
    ensures var (u, reply) := ChainCall(w, p.model, p.pushKv, p.hs[p.i..], p.call);
      u == t && KvOutcome(p, w, u, p.i + 1) && ReplyOutcome(p, w, u, p.i + 1, reply) &&
      MessagesOutcome(p, w, u, p.i + 1)
  {
    FirstStage(p, w);
    assert p.bases[p.i] == BaseAt(w, p.hs[p.i], p.call);
    assert Arriving(p, p.i) == p.call.blob;
    assert Arriving(p, p.i + 1) == p.model.output(p.hs[p.i].key, p.bases[p.i], p.call.blob);
  }

  lemma {:induction false} RestStarts(p: Pass, w: World, t: World)
    requires Starts(p, w) && !Down(w, p.hs[p.i], p.call.position) && p.i + 1 < |p.hs|
    requires t == StageAdvanced(Mirrored(w, p.hs[p.i], p.call), p.model, p.pushKv, p.hs[p.i], p.call)
    ensures Starts(Rest(p), t)
    ensures forall j :: p.i < j < |p.hs| ==> Down(w, p.hs[j], p.call.position) == Down(t, p.hs[j], p.call.position)
    ensures FirstDown(w, p.hs, p.i, p.call.position) == FirstDown(t, p.hs, p.i + 1, p.call.position)
  {
    FirstStage(p, w);
    FirstDownSame(w, t, p.hs, p.i + 1, p.call.position);
    forall j | p.i < j < |p.hs|
      ensures p.bases[j] == BaseAt(t, p.hs[j], Rest(p).call)
    {
      assert p.bases[j] == BaseAt(w, p.hs[j], p.call);
      assert BaseAt(t, p.hs[j], Rest(p).call) == BaseAt(t, p.hs[j], p.call);
    }
  }

  lemma KvCompose(p: Pass, w: World, t: World, u: World, v: nat)
    requires Starts(p, w) && !Down(w, p.hs[p.i], p.call.position) && p.i + 1 < |p.hs| && p.i < v <= |p.hs|
    requires t == StageAdvanced(Mirrored(w, p.hs[p.i], p.call), p.model, p.pushKv, p.hs[p.i], p.call)
    requires KvOutcome(Rest(p), t, u, v)
    ensures KvOutcome(p, w, u, v)
  {
    FirstStage(p, w);
    forall j | p.i <= j < v
      ensures KvAt(u, p.hs[j], p.call.request) == GrownKv(p, j)
    {
      if j > p.i {
        RestFlows(p, j);
      }
    }
  }

  /** A stage that is up runs, forwards, and relays what comes back. */
  lemma {:induction false} ChainForwards(p: Pass, w: World, t: World)
    requires Starts(p, w) && !Down(w, p.hs[p.i], p.call.position) && p.i + 1 < |p.hs|
    requires t == StageAdvanced(Mirrored(w, p.hs[p.i], p.call), p.model, p.pushKv, p.hs[p.i], p.call)
    requires WorldValid(t)
    ensures var (u, reply) := ChainCall(t, p.model, p.pushKv, p.hs[p.i + 1..], Rest(p).call);
      ChainCall(w, p.model, p.pushKv, p.hs[p.i..], p.call) == (u, Relayed(reply, p.hs[p.i + 1].key))
  {
    var h := p.hs[p.i];
    assert p.bases[p.i] == BaseAt(w, h, p.call) == BaseAt(Mirrored(w, h, p.call), h, p.call);
    assert p.hs[p.i..][1..] == p.hs[p.i + 1..];
  }

  lemma RelayOutcome(p: Pass, w: World, t: World, u: World, v: nat, reply: Reply)
    requires Starts(p, w) && p.i + 1 < |p.hs| && p.i < v <= |p.hs| && OnlyRan(w, t) && OnlyRan(t, u)
    requires ReplyOutcome(Rest(p), t, u, v, reply)
    ensures OnlyRan(w, u) && ReplyOutcome(p, w, u, v, Relayed(reply, p.hs[p.i + 1].key))
  {
    RestFlows(p, v);
  }
}
