/**
 The workers of a deployment as the coordinator and their peers reach them: who is alive,
 what each has loaded, how the chain is wired, and the messages sent towards the
 coordinator. A stage call runs its stage and forwards the result along the chain.
 */
module Workforce {
  import opened Wrappers
  import opened Types
  import opened ByteStrings
  import opened KvLayout
  import opened Reference
  import opened Workers

  /** A layer range on the device that runs it. */
  datatype Held = Held(device: DeviceId, key: StageKey)

  /** The device dies when it is called for this range at this position. */
  datatype Fault = Fault(at: Held, position: nat)

  /** What workers send to the coordinator, to arrive at any time, repeatedly or never. */
  datatype Message =
    | Mirror(request: RequestId, key: StageKey, position: nat, blob: Bytes)
    | KvPush(request: RequestId, key: StageKey, slot: nat, column: Bytes)

  /** A failed call names the failed range, unless it is the called worker itself that failed. */
  datatype Reply =
    | Answer(activation: Bytes)
    | Sampled(token: Token)
    | Unavailable(trailer: Option<StageKey>)

  datatype Call = Call(request: RequestId, blob: Bytes, prefill: bool, position: nat, replayOnly: bool)

  datatype World = World(
    runners: map<DeviceId, Runner>,
    alive: set<DeviceId>,
    nextHops: map<Held, Held>,
    faults: set<Fault>,
    outbox: set<Message>)

  ghost predicate WorldValid(w: World) {
    w.alive <= w.runners.Keys
  }

  // ---------- one stage ----------

  ghost function OnRunner(w: World, d: DeviceId, r: Runner): World {
    w.(runners := w.runners[d := r])
  }

  ghost function BaseAt(w: World, h: Held, call: Call): Kv {
    if h.device in w.runners then Base(w.runners[h.device], call.request, h.key, call.prefill) else []
  }

  /** The KV a device holds for one request and range. */
  ghost function KvAt(w: World, h: Held, request: RequestId): Kv {
    if h.device in w.runners then Base(w.runners[h.device], request, h.key, false) else []
  }

  /** The input is mirrored before the stage runs; the first stage's input is the coordinator's own. */
  ghost function Mirrored(w: World, h: Held, call: Call): World {
    if h.key.start > 1 && !call.replayOnly
    then w.(outbox := w.outbox + {Mirror(call.request, h.key, call.position, call.blob)})
    else w
  }

  ghost function Crashed(w: World, f: Fault): World {
    w.(alive := w.alive - {f.at.device}, faults := w.faults - {f})
  }

  /** A run added all slots if it was a prefill, otherwise the last one. */
  function FirstNew(slots: nat, prefill: bool): nat {
    if prefill || slots == 0 then 0 else slots - 1
  }

  ghost function Pushes(request: RequestId, key: StageKey, kv: Kv, first: nat, end: nat): set<Message>
    requires end <= |kv|
  {
    set s: nat | first <= s < end :: KvPush(request, key, s, kv[s])
  }

  ghost function NewPushes(request: RequestId, key: StageKey, kv: Kv, prefill: bool): set<Message> {
    Pushes(request, key, kv, FirstNew(|kv|, prefill), |kv|)
  }

  /** With KV pushes on, a non-head stage that really generated ships its new slots. */
  ghost function KvPushed(w: World, pushKv: bool, h: Held, call: Call): World {
    if pushKv && h.key.start > 1 && !call.replayOnly
    then w.(outbox := w.outbox + NewPushes(call.request, h.key, KvAt(w, h, call.request), call.prefill))
    else w
  }

  /** The stage ran: its KV grew, and the new slots were shipped. */
  ghost function StageAdvanced(w: World, m: Model, pushKv: bool, h: Held, call: Call): World
    requires h.device in w.runners
  {
    KvPushed(OnRunner(w, h.device, StageRan(w.runners[h.device], m, call.request, h.key, call.blob, call.prefill)),
      pushKv, h, call)
  }

  // ---------- a call along a chain ----------

  /** The caller of a failed hop relays the blame it was given, and otherwise blames that hop. */
  function Relayed(reply: Reply, next: StageKey): Reply {
    if reply.Unavailable? && reply.trailer.None? then Unavailable(Some(next)) else reply
  }

  /** A call to the first worker of a chain, and what every worker along it does. */
  ghost function ChainCall(w: World, m: Model, pushKv: bool, chain: seq<Held>, call: Call): (World, Reply)
    requires WorldValid(w) && chain != []
    decreases |chain|, 1
  {
    var h := chain[0];
    if h.device !in w.alive then (w, Unavailable(None))
    else if !call.replayOnly && Fault(h, call.position) in w.faults then
      (Crashed(Mirrored(w, h, call), Fault(h, call.position)), Unavailable(None))
    else Dispatched(Mirrored(w, h, call), m, pushKv, chain, call)
  }

  /** The call past its crash point: run the stage and forward. */
  ghost function Dispatched(w: World, m: Model, pushKv: bool, chain: seq<Held>, call: Call): (World, Reply)
    requires WorldValid(w) && chain != [] && chain[0].device in w.alive
    decreases |chain|, 0
  {
    var h := chain[0];
    var out := m.output(h.key, BaseAt(w, h, call), call.blob);
    if h.key !in w.runners[h.device].stages then (w, Unavailable(None))
    else
      var t := StageAdvanced(w, m, pushKv, h, call);
      if call.replayOnly then (t, Answer(out))
      else if |chain| == 1 then (t, if w.runners[h.device].hasHead then Sampled(m.sample(out)) else Answer(out))
      else
        var (u, reply) := ChainCall(t, m, pushKv, chain[1..], call.(blob := out));
        (u, Relayed(reply, chain[1].key))
  }

  /** Every live worker of the chain forwards to the next one, and the last to nobody. */
  ghost predicate Linked(nextHops: map<Held, Held>, alive: set<DeviceId>, chain: seq<Held>) {
    && (forall k :: 0 <= k < |chain| - 1 && chain[k].device in alive ==>
        chain[k] in nextHops && nextHops[chain[k]] == chain[k + 1])
    && (chain != [] && chain[|chain| - 1].device in alive ==> chain[|chain| - 1] !in nextHops)
  }

  class Fleet {
    const model: Model
    const geometry: Geometry
    /** Whether workers ship their KV columns. */
    const pushKv: bool
    const runners: map<DeviceId, StageRunner>
    var alive: set<DeviceId>
    var nextHops: map<Held, Held>
    var faults: set<Fault>
    var outbox: set<Message>

    ghost function RunnerObjects(): set<object> {
      set d | d in runners :: runners[d]
    }

    ghost function Repr(): set<object> {
      {this} + RunnerObjects()
    }

    ghost function RunnerStates(): map<DeviceId, Runner>
      reads RunnerObjects()
    {
      map d | d in runners :: runners[d].State()
    }

    ghost function State(): World
      reads Repr()
    {
      World(RunnerStates(), alive, nextHops, faults, outbox)
    }

    ghost predicate Valid()
      reads Repr()
    {
      && alive <= runners.Keys
      && (forall d, e :: d in runners && e in runners && d != e ==> runners[d] != runners[e])
      && (forall d :: d in runners ==>
          runners[d].Valid() && runners[d].model == model && runners[d].geometry == geometry)
    }

    constructor (runners: map<DeviceId, StageRunner>, model: Model, geometry: Geometry, pushKv: bool)
      requires forall d, e :: d in runners && e in runners && d != e ==> runners[d] != runners[e]
      requires forall d :: d in runners ==>
        runners[d].Valid() && runners[d].model == model && runners[d].geometry == geometry
      ensures Valid() && this.runners == runners && this.model == model && this.geometry == geometry
      ensures this.pushKv == pushKv
      ensures alive == runners.Keys && nextHops == map[] && faults == {} && outbox == {}
    {
      this.runners, this.model, this.geometry, this.pushKv := runners, model, geometry, pushKv;
      alive, nextHops, faults, outbox := runners.Keys, map[], {}, {};
    }

    /** Work on one runner leaves the others as they were. */
    twostate lemma OneRunner(d: DeviceId)
      requires old(Valid()) && d in runners
      requires forall e :: e in runners && e != d ==> runners[e].State() == old(runners[e].State())
      ensures RunnerStates() == old(RunnerStates())[d := runners[d].State()]
    {}

    method LoadPrimary(h: Held) returns (ok: bool)
      requires Valid()
      modifies Repr()
      ensures Valid() && (ok <==> h.device in old(alive))
      ensures State() ==
        if ok then OnRunner(old(State()), h.device, PrimaryLoaded(old(State()).runners[h.device], h.key))
                         else old(State())
    {
      ok := h.device in alive;
      if ok {
        runners[h.device].LoadPrimary(h.key);
        OneRunner(h.device);
      }
    }

    method LoadBackup(h: Held, owner: DeviceId) returns (ok: bool)
      requires Valid()
      modifies Repr()
      ensures Valid() && (ok <==> h.device in old(alive))
      ensures State() == if ok
        then OnRunner(old(State()), h.device, BackupLoaded(old(State()).runners[h.device], h.key, owner))
        else old(State())
    {
      ok := h.device in alive;
      if ok {
        runners[h.device].LoadBackup(h.key, owner);
        OneRunner(h.device);
      }
    }

    method LoadHead(d: DeviceId) returns (ok: bool)
      requires Valid()
      modifies Repr()
      ensures Valid() && (ok <==> d in old(alive))
      ensures State() == if ok then OnRunner(old(State()), d, old(State()).runners[d].(hasHead := true))
                         else old(State())
    {
      ok := d in alive;
      if ok {
        runners[d].LoadHead();
        OneRunner(d);
      }
    }

    /** Fails if the device is dead or holds no backup for the owner. */
    method PromoteBackup(d: DeviceId, owner: DeviceId) returns (ok: bool)
      requires Valid()
      modifies Repr()
      ensures Valid() && (ok <==> d in old(alive) && BackupsFor(old(State()).runners[d], owner) != {})
      ensures State() == if ok
        then OnRunner(old(State()), d, old(State()).runners[d].(promoted :=
          old(State()).runners[d].promoted + BackupsFor(old(State()).runners[d], owner)))
        else old(State())
    {
      if d !in alive {
        return false;
      }
      var keys := runners[d].PromoteBackup(owner);
      OneRunner(d);
      ok := keys.Success?;
      if !ok {
        assert old(State()).runners[d].promoted + {} == old(State()).runners[d].promoted;
        assert RunnerStates() == old(RunnerStates());
      }
    }

    /** Wire a stage to its successor, or make it the chain's tail. */
    method SetNextHop(h: Held, next: Option<Held>) returns (ok: bool)
      requires Valid()
      modifies this`nextHops
      ensures Valid() && (ok <==> h.device in alive)
      ensures !ok ==> nextHops == old(nextHops)
      ensures ok ==> nextHops == if next.Some? then old(nextHops)[h := next.value] else old(nextHops) - {h}
    {
      ok := h.device in alive;
      if ok {
        nextHops := nextHops - {h};
        if next.Some? {
          nextHops := nextHops[h := next.value];
        }
      }
    }

    /** Drop a request's KV on one worker; an unreachable worker is ignored. */
    method EvictRequest(d: DeviceId, request: RequestId)
      requires Valid()
      modifies Repr()
      ensures Valid()
      ensures State() ==
        if d in old(alive) then OnRunner(old(State()), d, RequestEvicted(old(State()).runners[d], request))
                         else old(State())
    {
      if d in alive {
        runners[d].EvictRequest(request);
        OneRunner(d);
      }
    }

    /** Pull a stage's layer-major KV off its worker. */
    method FetchKv(h: Held, request: RequestId) returns (bytes: Option<Bytes>)
      requires Valid()
      ensures bytes.Some? <==> h.device in alive && CacheKey(request, h.key) in State().runners[h.device].kv
      ensures bytes.Some? ==> Sized(KvAt(State(), h, request), h.key, geometry)
      ensures bytes.Some? ==>
        bytes.value == SlotMajorToLayerMajor(KvAt(State(), h, request), geometry.Lanes(h.key), geometry.row)
    {
      if h.device !in alive {
        return None;
      }
      var exported := runners[h.device].ExportKv(request, h.key);
      bytes := if exported.Success? then Some(exported.value) else None;
    }

    method LoadKv(h: Held, request: RequestId, bytes: Bytes, slots: nat) returns (ok: bool)
      requires Valid()
      modifies Repr()
      ensures Valid()
      ensures ok <==> h.device in old(alive) && |bytes| == geometry.Lanes(h.key) * (slots * geometry.row)
      ensures State() == if ok
        then OnRunner(old(State()), h.device, old(State()).runners[h.device].(kv :=
          old(State()).runners[h.device].kv[CacheKey(request, h.key) :=
            LayerMajorToSlots(bytes, geometry.Lanes(h.key), slots, geometry.row)]))
        else old(State())
    {
      if h.device !in alive {
        return false;
      }
      var installed := runners[h.device].InstallKv(request, h.key, bytes, slots);
      OneRunner(h.device);
      ok := installed.Success?;
      if !ok {
        assert RunnerStates() == old(RunnerStates());
      }
    }

    /** Devices die, and others are about to: the environment's part. */
    method Disturb(crashed: set<DeviceId>, armed: set<Fault>)
      requires Valid()
      modifies this`alive, this`faults
      ensures Valid() && alive == old(alive) - crashed && faults == old(faults) + armed
    {
      alive, faults := alive - crashed, faults + armed;
    }

    /** A stage call: mirror the input, run, push the new KV, forward, relay any blame. */
    method RunStage(h: Held, call: Call, ghost chain: seq<Held>) returns (reply: Reply)
      requires Valid() && chain != [] && chain[0] == h
      requires !call.replayOnly ==> Linked(nextHops, alive, chain)
      modifies Repr()
      ensures Valid() && (State(), reply) == ChainCall(old(State()), model, pushKv, chain, call)
      decreases |chain|, 1
    {
      hide Linked, Dispatched, RunnerStates;
      if h.device !in alive {
        return Unavailable(None);
      }
      if h.key.start > 1 && !call.replayOnly {
        outbox := outbox + {Mirror(call.request, h.key, call.position, call.blob)};
      }
      if !call.replayOnly && Fault(h, call.position) in faults {
        faults, alive := faults - {Fault(h, call.position)}, alive - {h.device};
        return Unavailable(None);
      }
      reply := Dispatch(h, call, chain);
    }

    /** The call past its crash point. */
    method Dispatch(h: Held, call: Call, ghost chain: seq<Held>) returns (reply: Reply)
      requires Valid() && chain != [] && chain[0] == h && h.device in alive
      requires !call.replayOnly ==> Linked(nextHops, alive, chain)
      modifies Repr()
      ensures Valid() && (State(), reply) == Dispatched(old(State()), model, pushKv, chain, call)
      decreases |chain|, 0
    {
      if !call.replayOnly && h !in nextHops && runners[h.device].hasHead {
        assert |chain| == 1;
        var sampled := RunTail(h, call);
        return if sampled.Some? then Sampled(sampled.value) else Unavailable(None);
      }
      var result := RunLocal(h, call);
      if result.None? {
        return Unavailable(None);
      }
      if call.replayOnly || h !in nextHops {
        return Answer(result.value);
      }
      var next := nextHops[h];
      assert next == chain[1] && Linked(nextHops, alive, chain[1..]);
      var forwarded := RunStage(next, call.(blob := result.value), chain[1..]);
      if forwarded.Unavailable? && forwarded.trailer.None? {
        return Unavailable(Some(next.key));
      }
      reply := forwarded;
    }

    /** The stage itself, without a head. */
    method RunLocal(h: Held, call: Call) returns (out: Option<Bytes>)
      requires Valid() && h.device in alive
      modifies Repr()
      ensures Valid() && (out.None? <==> h.key !in old(State()).runners[h.device].stages)
      ensures out.None? ==> State() == old(State())
      ensures out.Some? ==> State() == StageAdvanced(old(State()), model, pushKv, h, call)
      ensures out.Some? ==> out.value == model.output(h.key, BaseAt(old(State()), h, call), call.blob)
    {
      var ran := runners[h.device].Run(call.request, call.blob, h.key, call.prefill);
      OneRunner(h.device);
      if ran.Failure? {
        assert RunnerStates() == old(RunnerStates());
        return None;
      }
      PushKv(h, call);
      out := Some(ran.value);
    }

    /** The chain's tail, sampling the token itself. */
    method RunTail(h: Held, call: Call) returns (token: Option<Token>)
      requires Valid() && h.device in alive && runners[h.device].hasHead
      modifies Repr()
      ensures Valid() && (token.None? <==> h.key !in old(State()).runners[h.device].stages)
      ensures token.None? ==> State() == old(State())
      ensures token.Some? ==> State() == StageAdvanced(old(State()), model, pushKv, h, call)
      ensures token.Some? ==>
        token.value == model.sample(model.output(h.key, BaseAt(old(State()), h, call), call.blob))
    {
      var sampled := runners[h.device].RunTailAndSample(call.request, call.blob, h.key, call.prefill);
      OneRunner(h.device);
      if sampled.Failure? {
        assert RunnerStates() == old(RunnerStates());
        return None;
      }
      PushKv(h, call);
      token := Some(sampled.value);
    }

    /** Ship each newly added slot of a non-head stage that really generated. */
    method PushKv(h: Held, call: Call)
      requires Valid() && h.device in runners && CacheKey(call.request, h.key) in runners[h.device].kv
      modifies this`outbox
      ensures Valid() && State() == KvPushed(old(State()), pushKv, h, call)
    {
      if !pushKv || h.key.start <= 1 || call.replayOnly {
        return;
      }
      ghost var kv := runners[h.device].kv[CacheKey(call.request, h.key)];
      var n := runners[h.device].KvSeqLen(call.request, h.key);
      var s := FirstNew(n, call.prefill);
      assert outbox + Pushes(call.request, h.key, kv, s, s) == outbox;
      while s < n
        invariant FirstNew(n, call.prefill) <= s <= n
        invariant outbox == old(outbox) + Pushes(call.request, h.key, kv, FirstNew(n, call.prefill), s)
      {
        var column := runners[h.device].ExtractKvColumn(call.request, h.key, s);
        outbox := outbox + {KvPush(call.request, h.key, s, column.value)};
        s := s + 1;
      }
    }
  }
}
