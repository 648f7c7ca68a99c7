/**
 Whole generations: prefill and decode steps driven through the chain while devices crash,
 are reported dead, and messages arrive, all at any time.
 */
module Generation {
  import opened Wrappers
  import opened Types
  import opened ByteStrings
  import opened Reference
  import opened Workers
  import opened Workforce
  import opened Chains
  import opened Protocol
  import opened Rewiring
  import opened Rebuild
  import opened Recoverability
  import opened Gateway
  import opened Delivering
  import opened Calling
  import opened Intervals
  import opened Outcomes
  import opened OneVictim

  // ---------- one position ----------

  /** The stage that a failed call blames. */
  method BlamedStage(placement: Placement, trailer: Option<StageKey>, ghost t: Task, ghost v: nat,
      ghost wired: Placement,
      ghost head: Stage) returns (i: nat)
    requires t.Valid() && placement == t.placement && Blames(t, v, wired, head, trailer)
    ensures i == v
  {
    if trailer.None? {
      return 0;
    }
    i := 0;
    StageOfKeys(t, v);
    while i < |placement| && placement[i].Key() != trailer.value
      invariant i <= v
    {
      assert placement[i].Key() == t.job.keys[i];
      i := i + 1;
    }
    assert placement[v].Key() == t.job.keys[v];
  }

  /** The plan's stages do not hold the fault-free KV after position p. */
  ghost predicate Misrun(t: Task, p: nat, u: Snapshot) {
    PastLength(t.job) > 0 ==> !KvIs(u.world, t, HoldsOf(u.plans.plan), p, t.Stages())
  }

  /** A position that was run rightly is answered and done everywhere; one that was not is not. */
  ghost predicate PositionRun(t: Task, p: nat, u: Snapshot, chain: Placement, reply: Reply, right: bool) {
    && (right ==> Answers(t, p, reply) && Completed(t, p, u, chain))
    && (!right ==> Misrun(t, p, u))
  }

  lemma JudgedRun(t: Task, p: nat, v: nat, plan: Placement, wired: Placement, rec: Recovery, u: Snapshot)
    requires Judged(t, p, v, plan, wired, rec, u)
    ensures PositionRun(t, p, u, u.plans.plan, rec.reply, Right(rec.path, p, v, plan, wired))
  {}

  /** Everything from a failed call on: what happens meanwhile, and the recovery. */
  method Recover(gw: RequestGateway, r: RequestId, head: Stage, trailer: Option<StageKey>, pastLength: nat, p: nat,
      after: Moves, wired: Placement, ghost t: Task, ghost v: nat)
      returns (res: Result<Reply, GatewayError>, right: bool)
    requires gw.Valid() && gw.Serves(t) && r == t.request && Stricken(t, p, v, gw.Snap(r), wired)
    requires Blames(t, v, wired, head, trailer) && pastLength == PastLength(t.job)
    modifies gw.Repr()
    ensures gw.Valid()
    ensures res.Success? ==> PositionRun(t, p, gw.Snap(r), gw.plans.plan, res.value, right)
    ensures gw.mode == FullReplay ==> right
    ensures Reported(old(gw.plans.State()), after.reports).plan == wired ==> right
    ensures Stuck(old(gw.plans.State()), wired) ==> res.Failure?
    ensures var s := About(Elapsed(LimitsOf(gw), old(Everything(gw)), after, r), r);
      && (res.Success? <==> Recoverable(gw.mode, gw.parity.k, t, p, v, s, wired))
      && (res.Success? ==>
          (right <==> Rightly(gw.mode, gw.parity.k, t, p, v, s, wired)) && Unharmed(s.world, gw.fleet.State()))
      && (res.Success? ==> if gw.mode == Parity && Paired(t, p, v, s, wired, gw.parity.k)
          then gw.plans.State() == s.plans
          else v < |wired| == |t.placement| && gw.plans.State() == WithoutVictim(t, s, wired, v).plans)
  {
    hide Standing, Judged, PositionRun, ReplaysFrom, RecoversFrom, ParityRecovers, Blames, Stuck, Fleet.Valid,
      Recoverable, Rightly, Elapsed, Paired;
    ghost var s0 := gw.Snap(r);
    StandsStricken(t, p, v, s0, wired);
    Happen(gw, after, r, t, p, Some(v), wired);
    ghost var s := gw.Snap(r);
    AboutIsSnap(gw, r);
    StandsStricken(t, p, v, s, wired);
    StrickenShape(t, p, v, s0, wired);
    StrickenShape(t, p, v, s, wired);
    var plan := gw.plans.plan;
    var i := BlamedStage(gw.plans.placement, trailer, t, v, wired, head);
    assert gw.Snap(r) == s;
    var rec := gw.RecoverFromChainFailure(r, head, trailer, pastLength, p, t, v, wired);
    RecoveredExactly(gw.mode, gw.parity.k, t, p, v, s, wired, rec, gw.Snap(r));
    if Stuck(s0.plans, wired) {
      StuckStays(t, s0.plans, after.reports, wired);
      NoWayOut(gw.mode, t, p, v, s, wired, gw.parity.k, rec, gw.Snap(r));
    }
    if rec.Failure? {
      return Failure(rec.error), true;
    }
    JudgedRun(t, p, v, plan, wired, rec.value, gw.Snap(r));
    RecoveryPath(gw.mode, t, p, v, s, wired, gw.parity.k, rec, gw.Snap(r));
    res, right := Success(rec.value.reply), Right(rec.value.path, p, i, plan, wired);
  }

  lemma StandsStricken(t: Task, p: nat, v: nat, s: Snapshot, wired: Placement)
    ensures Standing(t, p, Some(v), s, wired) <==> Stricken(t, p, v, s, wired)
  {}

  /** While no plan exists, a failure ends in an error, whatever the mode. */
  lemma NoWayOut(mode: Mode, t: Task, p: nat, v: nat, s: Snapshot, wired: Placement, k: nat,
      rec: Result<Recovery, GatewayError>, u: Snapshot)
    requires Stricken(t, p, v, s, wired) && Stuck(s.plans, wired)
    requires mode == FullReplay ==> ReplaysFrom(t, p, v, s, wired, rec, u)
    requires mode in {Surgical, Replicate} ==> RecoversFrom(t, p, v, s, wired, rec, u)
    requires mode == Parity ==> ParityRecovers(t, p, v, s, wired, k, rec, u)
    ensures rec.Failure?
  {
    StuckIsLost(t, p, v, s, wired);
    forall x: nat, y: nat | PairRescued(t, p, v, x, y, s, wired, k)
      ensures !BothResumable(t, p, x, y, s)
    {
      UnmovedPairIsLost(t, p, v, x, y, s, wired, k);
    }
  }

  /** What the mode and an unmoved plan say about the way a recovery went. */
  lemma RecoveryPath(mode: Mode, t: Task, p: nat, v: nat, s: Snapshot, wired: Placement, k: nat,
      rec: Result<Recovery, GatewayError>, u: Snapshot)
    requires Stricken(t, p, v, s, wired) && rec.Success?
    requires mode == FullReplay ==> ReplaysFrom(t, p, v, s, wired, rec, u)
    requires mode in {Surgical, Replicate} ==> RecoversFrom(t, p, v, s, wired, rec, u)
    requires mode == Parity ==> ParityRecovers(t, p, v, s, wired, k, rec, u)
    ensures mode == FullReplay ==> Right(rec.value.path, p, v, s.plans.plan, wired)
    ensures s.plans.plan == wired ==> Right(rec.value.path, p, v, s.plans.plan, wired)
  {
    StrickenShape(t, p, v, s, wired);
    if mode == Parity && s.plans.plan == wired {
      UnmovedHasNoPair(t, p, v, s, wired, k, rec, u);
    }
  }

  /**
   One position: call the head, and on failure recover. Whatever happens meanwhile, the
   position ends in an error or is run, rightly unless the plan had moved on from the chain.
   */
  method RunPipeline(gw: RequestGateway, r: RequestId, pastLength: nat, p: nat, blob: Bytes, after: Moves,
      wired: Placement, ghost t: Task) returns (res: Result<Reply, GatewayError>, chain: Placement, right: bool)
    requires gw.Valid() && gw.Serves(t) && r == t.request && Ready(t, p, gw.Snap(r), wired)
    requires wired != [] && gw.plans.plan != [] && gw.plans.plan[0] == wired[0]
    requires blob == In(t.job, p, 0) && pastLength == PastLength(t.job)
    modifies gw.Repr()
    ensures gw.Valid()
    ensures res.Success? ==> PositionRun(t, p, gw.Snap(r), chain, res.value, right)
    ensures AllUp(old(gw.fleet.State()), HoldsOf(wired), 0, p) ==>
      && res.Success? && right && chain == wired && gw.plans.plan == old(gw.plans.plan)
      && Undisturbed(old(gw.fleet.State()), gw.fleet.State())
    ensures gw.mode == FullReplay ==> right
    ensures chain == gw.plans.plan || (chain == wired && gw.plans.plan == old(gw.plans.plan))
    ensures res.Success? && old(gw.plans.plan) == wired ==>
      chain == gw.plans.plan && (Reported(old(gw.plans.State()), after.reports).plan == wired ==> right)
    ensures res.Success? && Stuck(old(gw.plans.State()), wired) ==>
      right && chain == wired && Stuck(gw.plans.State(), wired)
    ensures WorldValid(old(gw.fleet.State()))
    ensures res.Success? <==> Runs(LimitsOf(gw), old(Everything(gw)), t, p, wired, gw.fleet.pushKv, after)
    ensures res.Success? ==>
      && (right <==> RunsRightly(LimitsOf(gw), old(Everything(gw)), t, p, wired, gw.fleet.pushKv, after))
      && Leaves(LimitsOf(gw), old(Everything(gw)), t, p, wired, gw.fleet.pushKv, after, Everything(gw), chain)
  {
    hide PositionRun, Blames, Stuck, Recoverable, Rightly, Paired, Elapsed, RequestGateway.Valid, Fleet.Valid;
    ghost var s, v := gw.Snap(r), NextDown(p, gw.fleet.State(), wired);
    StandingSound(t, p, None, s, wired);
    UpMeansThrough(t, p, s.world, wired);
    var head := gw.plans.plan[0];
    ghost var e := Everything(gw);
    HeadKey(t, p, s, wired);
    var reply := CallHead(gw, r, head, p, blob, t, wired);
    assert Everything(gw) == CalledIn(LimitsOf(gw), e, t, p, wired, gw.fleet.pushKv);
    chain, right := wired, true;
    if !reply.Unavailable? {
      ThroughIsRun(t, p, s.world, gw.Snap(r), wired, reply);
      return Success(reply), chain, right;
    }
    UnavailableFails(t, p, s.world, gw.Snap(r), wired, reply);
    res, right := Recover(gw, r, head, reply.trailer, pastLength, p, after, wired, t, v);
    chain := gw.plans.plan;
  }

  lemma UpMeansThrough(t: Task, p: nat, w: World, wired: Placement)
    requires |wired| == t.Stages()
    ensures AllUp(w, HoldsOf(wired), 0, p) <==> NextDown(p, w, wired) == t.Stages()
  {}

  lemma ThroughIsRun(t: Task, p: nat, w: World, u: Snapshot, wired: Placement, reply: Reply)
    requires CallOutcome(t, p, w, u, wired, reply) && !reply.Unavailable?
    ensures PositionRun(t, p, u, wired, reply, true) && Undisturbed(w, u.world) && NextDown(p, w, wired) == t.Stages()
  {}

  lemma UnavailableFails(t: Task, p: nat, w: World, u: Snapshot, wired: Placement, reply: Reply)
    requires CallOutcome(t, p, w, u, wired, reply) && reply.Unavailable?
    ensures var v := NextDown(p, w, wired);
      v != t.Stages() && wired != [] && Blames(t, v, wired, wired[0], reply.trailer) && Stricken(t, p, v, u, wired)
  {}

  // ---------- a whole generation ----------

  /** The greedy generation of a fault-free run: up to the first end-of-sequence token or the limit. */
  ghost predicate IsGeneration(job: Job, tokens: seq<Token>, maxTokens: int, eos: Option<Token>) {
    && 0 < |tokens| && IsPrefix(job, tokens)
    && (forall q :: 0 <= q < |tokens| - 1 ==> Some(TokenAt(job, q)) != eos)
    && (|tokens| == 1 || |tokens| <= maxTokens)
    && (|tokens| >= maxTokens || Some(TokenAt(job, |tokens| - 1)) == eos)
  }

  ghost predicate TokenIs(job: Job, tokens: seq<Token>, q: nat) {
    q < |tokens| ==> tokens[q] == TokenAt(job, q)
  }

  ghost predicate IsPrefix(job: Job, tokens: seq<Token>) {
    forall q: nat {:trigger TokenIs(job, tokens, q)} :: TokenIs(job, tokens, q)
  }

  lemma NothingYet(job: Job)
    ensures IsPrefix(job, [])
  {
    forall q: nat
      ensures TokenIs(job, [], q)
    {}
  }

  lemma {:induction false} PrefixGrows(job: Job, tokens: seq<Token>)
    requires IsPrefix(job, tokens)
    ensures IsPrefix(job, tokens + [TokenAt(job, |tokens|)])
  {
    forall q: nat
      ensures TokenIs(job, tokens + [TokenAt(job, |tokens|)], q)
    {
      assert TokenIs(job, tokens, q);
    }
  }

  /** There is only one such token list. */
  lemma GenerationUnique(job: Job, a: seq<Token>, b: seq<Token>, maxTokens: int, eos: Option<Token>)
    requires IsGeneration(job, a, maxTokens, eos) && IsGeneration(job, b, maxTokens, eos)
    ensures a == b
  {
    assert |a| == |b|;
    forall q | 0 <= q < |a|
      ensures a[q] == b[q]
    {
      assert TokenIs(job, a, q) && TokenIs(job, b, q);
    }
  }

  /** Neither the limit nor an end-of-sequence token has been reached before the last token. */
  ghost predicate IsPartial(tokens: seq<Token>, maxTokens: int, eos: Option<Token>) {
    && 0 < |tokens| && (|tokens| == 1 || |tokens| <= maxTokens)
    && forall q :: 0 <= q < |tokens| - 1 ==> Some(tokens[q]) != eos
  }

  lemma PartialGrows(tokens: seq<Token>, next: Token, maxTokens: int, eos: Option<Token>)
    requires IsPartial(tokens, maxTokens, eos) && Some(tokens[|tokens| - 1]) != eos && |tokens| < maxTokens
    ensures IsPartial(tokens + [next], maxTokens, eos)
  {}

  lemma GenerationEnds(job: Job, tokens: seq<Token>, maxTokens: int, eos: Option<Token>)
    requires IsPrefix(job, tokens) && IsPartial(tokens, maxTokens, eos)
    requires Some(tokens[|tokens| - 1]) == eos || |tokens| >= maxTokens
    ensures IsGeneration(job, tokens, maxTokens, eos)
  {
    forall q | 0 <= q < |tokens|
      ensures tokens[q] == TokenAt(job, q)
    {
      assert TokenIs(job, tokens, q);
    }
  }

  function TokenOf(m: Model, reply: Reply): Token {
    match reply
    case Sampled(token) => token
    case Answer(activation) => m.sample(activation)
    case Unavailable(_) => 0
  }

  /** The input of position p: the embedded prompt, or the embedded previous token. */
  function StepInput(m: Model, prompt: string, pastLength: nat, tokens: seq<Token>): Bytes {
    if tokens == [] then m.embedPrompt(prompt)
    else m.embedToken(tokens[|tokens| - 1], pastLength + |tokens| - 1)
  }

  lemma {:induction false} HeadInputIs(job: Job, p: nat)
    ensures In(job, p, 0) == if p == 0 then job.model.embedPrompt(job.prompt)
                             else job.model.embedToken(TokenAt(job, p - 1), PastLength(job) + p - 1)
  {
    hide TokenAt, Before, After;
  }

  lemma {:induction false} StepInputIs(t: Task, tokens: seq<Token>)
    requires IsPrefix(t.job, tokens)
    ensures StepInput(t.job.model, t.job.prompt, PastLength(t.job), tokens) == In(t.job, |tokens|, 0)
  {
    hide In, TokenAt, PastLength;
    HeadInputIs(t.job, |tokens|);
    if tokens != [] {
      assert TokenIs(t.job, tokens, |tokens| - 1);
    }
  }

  lemma {:induction false} AnswerToken(t: Task, p: nat, reply: Reply)
    requires t.Valid() && Answers(t, p, reply)
    ensures TokenOf(t.job.model, reply) == TokenAt(t.job, p)
  {}

  /** The request is |tokens| positions into its fault-free run, on the given chain. */
  ghost predicate InProgress(gw: RequestGateway, t: Task, tokens: seq<Token>, chain: Placement)
    reads gw.Repr()
  {
    gw.Valid() && gw.Serves(t) && Ready(t, |tokens|, gw.Snap(t.request), chain) && IsPrefix(t.job, tokens)
  }

  /**
   How a generation ends here: complete, by an error, or at a point where the plan has moved
   on from the chain so that the code does not notice what it lost.
   */
  datatype Ending = Finished | Raised(error: GatewayError) | Astray

  /** Nobody crashes, nor will, before the call. */
  ghost predicate Quiet(iv: Interval) {
    iv.before.crashed == {} && iv.before.armed == {}
  }

  /** No report before the call takes the head off its device. */
  ghost predicate SparesHead(t: Task, iv: Interval) {
    t.placement != [] ==> KeepsStage(t, iv.before.reports, 0)
  }

  /** Only devices are reported that have no stage, or without which there is no plan. */
  ghost predicate SparesStages(t: Task, iv: Interval) {
    KeepsStages(t, iv.before.reports) && KeepsStages(t, iv.after.reports)
  }

  /** Every stage of the chain is up and stays up. */
  ghost predicate Healthy(w: World, wired: Placement) {
    forall q: nat {:trigger AllUp(w, HoldsOf(wired), 0, q)} :: AllUp(w, HoldsOf(wired), 0, q)
  }

  lemma StaysHealthy(w: World, u: World, wired: Placement, p: nat)
    requires Healthy(w, wired) && (AllUp(w, HoldsOf(wired), 0, p) ==> Undisturbed(w, u))
    ensures Healthy(u, wired)
  {
    forall q: nat
      ensures AllUp(u, HoldsOf(wired), 0, q)
    {
      assert AllUp(w, HoldsOf(wired), 0, q);
      SameUp(w, u, HoldsOf(wired), 0, q);
    }
  }

  /** Position n may be started on a chain with whose head the plan no longer begins. */
  ghost predicate HeadMoved(t: Task, n: nat, s: Snapshot, wired: Placement) {
    Ready(t, n, s, wired) && !SameHead(s.plans.plan, wired)
  }

  /** Where a generation goes astray: the next call would go to a backup, or the last was not run rightly. */
  ghost predicate Lost(t: Task, n: nat, s: Snapshot) {
    Misrun(t, n, s) || exists wired :: HeadMoved(t, n, s, wired)
  }

  /** The position itself, the plan's head being the chain's. */
  method RunPosition(gw: RequestGateway, r: RequestId, prompt: string, tokens: seq<Token>, after: Moves,
      wired: Placement,
      ghost t: Task) returns (res: Result<Token, Ending>, chain: Placement)
    requires InProgress(gw, t, tokens, wired) && r == t.request && prompt == t.job.prompt
    requires SameHead(gw.plans.plan, wired)
    modifies gw.Repr()
    ensures gw.Valid()
    ensures res.Success? ==> InProgress(gw, t, tokens + [res.value], chain) && SameHead(gw.plans.plan, chain)
    ensures res != Failure(Finished) && (res == Failure(Astray) ==> Misrun(t, |tokens|, gw.Snap(r)))
    ensures AllUp(old(gw.fleet.State()), HoldsOf(wired), 0, |tokens|) ==>
      res.Success? && chain == wired && Undisturbed(old(gw.fleet.State()), gw.fleet.State())
    ensures gw.mode == FullReplay ==> res != Failure(Astray)
    ensures old(gw.plans.plan) == wired && res.Success? ==> gw.plans.plan == chain
    ensures old(gw.plans.plan) == wired && Reported(old(gw.plans.State()), after.reports).plan == wired ==>
      res != Failure(Astray)
    ensures Stuck(old(gw.plans.State()), wired) ==>
      res != Failure(Astray) && (res.Success? ==> Stuck(gw.plans.State(), chain))
    ensures WorldValid(old(gw.fleet.State())) && wired != []
    ensures res.Success? <==>
      && Runs(LimitsOf(gw), old(Everything(gw)), t, |tokens|, wired, gw.fleet.pushKv, after)
      && RunsRightly(LimitsOf(gw), old(Everything(gw)), t, |tokens|, wired, gw.fleet.pushKv, after)
    ensures res.Success? ==>
      Leaves(LimitsOf(gw), old(Everything(gw)), t, |tokens|, wired, gw.fleet.pushKv, after, Everything(gw), chain)
  {
    hide Runs, RunsRightly, Leaves, Everything, Misrun, Stuck, Reported, Ready, AllUp, Undisturbed, PositionRun,
      IsPrefix, PlanOk, In, StepInput, Fleet.Valid, Fleet.State, RequestGateway.Valid, RequestGateway.Snap;
    ReadyValid(t, |tokens|, gw.Snap(r), wired);
    StepInputIs(t, tokens);
    var pastLength := gw.fleet.model.tokens(gw.fleet.model.embedPrompt(prompt));
    var blob := StepInput(gw.fleet.model, prompt, pastLength, tokens);
    var reply; var right;
    reply, chain, right := RunPipeline(gw, r, pastLength, |tokens|, blob, after, wired, t);
    if reply.Failure? {
      return Failure(Raised(reply.error)), chain;
    }
    if !right {
      WronglyRun(t, |tokens|, gw.Snap(r), chain, reply.value);
      return Failure(Astray), chain;
    }
    PositionDone(t, tokens, gw.Snap(r), chain, reply.value);
    res := Success(TokenOf(gw.fleet.model, reply.value));
  }

  lemma ReadyValid(t: Task, p: nat, s: Snapshot, wired: Placement)
    requires Ready(t, p, s, wired)
    ensures t.Valid() && |wired| == |s.plans.plan| == t.Stages() == |t.placement| > 0 && PlanOk(t, s.plans)
  {
    StandingSound(t, p, None, s, wired);
  }

  lemma WronglyRun(t: Task, p: nat, u: Snapshot, chain: Placement, reply: Reply)
    requires PositionRun(t, p, u, chain, reply, false)
    ensures Misrun(t, p, u)
  {}

  lemma PositionDone(t: Task, tokens: seq<Token>, u: Snapshot, chain: Placement, reply: Reply)
    requires t.Valid() && IsPrefix(t.job, tokens) && PositionRun(t, |tokens|, u, chain, reply, true)
    ensures Ready(t, |tokens| + 1, u, chain) && IsPrefix(t.job, tokens + [TokenOf(t.job.model, reply)])
    ensures chain != []
  {
    AnswerToken(t, |tokens|, reply);
    PrefixGrows(t.job, tokens);
    NextReady(t, |tokens|, u, chain);
    ReadyValid(t, |tokens| + 1, u, chain);
  }

  /** One prefill or decode step: the environment moves, then the position is run. */
  method Step(gw: RequestGateway, r: RequestId, prompt: string, tokens: seq<Token>, iv: Interval, wired: Placement,
      ghost t: Task) returns (res: Result<Token, Ending>, chain: Placement)
    requires InProgress(gw, t, tokens, wired) && r == t.request && prompt == t.job.prompt
    requires SameHead(gw.plans.plan, wired)
    modifies gw.Repr()
    ensures gw.Valid()
    ensures res.Success? ==> InProgress(gw, t, tokens + [res.value], chain) && SameHead(gw.plans.plan, chain)
    ensures res != Failure(Finished) && (res == Failure(Astray) ==> Lost(t, |tokens|, gw.Snap(r)))
    ensures Quiet(iv) && SparesHead(t, iv) && Healthy(old(gw.fleet.State()), wired) ==>
      res.Success? && chain == wired && Healthy(gw.fleet.State(), wired)
    ensures gw.mode == FullReplay && SparesHead(t, iv) ==> res != Failure(Astray)
    ensures SparesStages(t, iv) && old(gw.plans.plan) == wired ==>
      res != Failure(Astray) && (res.Success? ==> gw.plans.plan == chain)
    ensures Stuck(old(gw.plans.State()), wired) ==>
      res != Failure(Astray) && (res.Success? ==> Stuck(gw.plans.State(), chain))
    ensures Ready(t, |tokens|, About(Elapsed(LimitsOf(gw), old(Everything(gw)), iv.before, r), r), wired)
    ensures res.Success? <==>
      StepDone(LimitsOf(gw), old(Everything(gw)), t, |tokens|, wired, gw.fleet.pushKv, iv)
    ensures res.Success? ==>
      Leaves(LimitsOf(gw), Elapsed(LimitsOf(gw), old(Everything(gw)), iv.before, r), t, |tokens|, wired,
        gw.fleet.pushKv, iv.after, Everything(gw), chain)
  {
    hide Standing, SparesStages, SparesHead, Stuck, AllUp, Undisturbed, Misrun, SameHead, Runs, RunsRightly, Leaves,
      Elapsed;
    ghost var s := gw.Snap(r);
    ReadyValid(t, |tokens|, s, wired);
    StandsReady(t, |tokens|, s, wired);
    Happen(gw, iv.before, r, t, |tokens|, None, wired);
    StandsReady(t, |tokens|, gw.Snap(r), wired);
    AboutIsSnap(gw, r);
    MovesSpare(t, s, iv, wired);
    if !SameHead(gw.plans.plan, wired) {
      assert HeadMoved(t, |tokens|, gw.Snap(r), wired);
      return Failure(Astray), wired;
    }
    res, chain := RunPosition(gw, r, prompt, tokens, iv.after, wired, t);
    if Quiet(iv) && Healthy(s.world, wired) {
      StaysHealthy(s.world, gw.fleet.State(), wired, |tokens|);
    }
  }

  lemma StandsReady(t: Task, p: nat, s: Snapshot, wired: Placement)
    ensures Standing(t, p, None, s, wired) <==> Ready(t, p, s, wired)
  {}

  /** What spared stages, a plan without alternative and quiet intervals leave as it is. */
  lemma MovesSpare(t: Task, s: Snapshot, iv: Interval, wired: Placement)
    requires t.Valid() && PlanOk(t, s.plans) && SameHead(s.plans.plan, wired)
    ensures var u := Reported(s.plans, iv.before.reports);
      && (SparesHead(t, iv) ==> SameHead(u.plan, wired))
      && (SparesStages(t, iv) ==> u.plan == s.plans.plan == Reported(u, iv.after.reports).plan)
      && (Stuck(s.plans, wired) ==> Stuck(u, wired) && SameHead(u.plan, wired))
    ensures Quiet(iv) ==> Disturbed(s, iv.before) == s
  {
    var u := Reported(s.plans, iv.before.reports);
    if SparesStages(t, iv) {
      ReportsOfOthers(t, s.plans, iv.before.reports);
      ReportsOfOthers(t, u, iv.after.reports);
    }
    assert t.placement != [];
    if SparesHead(t, iv) {
      ReportsElsewhere(t, s.plans, iv.before.reports, 0);
    }
    if Stuck(s.plans, wired) {
      StuckStays(t, s.plans, iv.before.reports, wired);
    }
  }

  /** Every stage of the chain is up, nobody crashes, and the head is not reported. */
  ghost predicate Calm(t: Task, schedule: nat -> Interval, w: World, wired: Placement) {
    Healthy(w, wired) && forall n {:trigger Uneventful(t, schedule, n)} :: Uneventful(t, schedule, n)
  }

  ghost predicate Uneventful(t: Task, schedule: nat -> Interval, n: nat) {
    Quiet(schedule(n)) && SparesHead(t, schedule(n))
  }

  ghost predicate HeadSpared(t: Task, schedule: nat -> Interval, n: nat) {
    SparesHead(t, schedule(n))
  }

  ghost predicate StagesSpared(t: Task, schedule: nat -> Interval, n: nat) {
    SparesStages(t, schedule(n))
  }

  /** A whole run: its schedule, how many steps it may have, and what it starts from. */
  datatype Course = Course(limits: Limits, schedule: nat -> Interval, steps: nat, start: Situation, wired: Placement)

  ghost predicate AllSpared(t: Task, k: Course) {
    (forall n :: StagesSpared(t, k.schedule, n)) && k.start.plans.plan == k.wired
  }

  /** What has stayed as it was, n steps into the run. */
  ghost predicate OnCourse(t: Task, k: Course, n: nat, e: Situation, chain: Placement) {
    && (Calm(t, k.schedule, k.start.world, k.wired) ==> chain == k.wired && Healthy(e.world, k.wired))
    && (AllSpared(t, k) ==> e.plans.plan == chain) && (Stuck(k.start.plans, k.wired) ==> Stuck(e.plans, chain))
    && Fares(k.limits, t, k.schedule, k.steps, k.start, k.wired, n, e, chain)
  }

  /** The run may end like this. */
  ghost predicate MayEnd(t: Task, k: Course, ending: Ending) {
    ending.Finished? || (
      && !Calm(t, k.schedule, k.start.world, k.wired)
      && !OneConcerned(k.limits, t, k.schedule, k.steps, k.start, k.wired)
      && (ending.Astray? ==>
          && !AllSpared(t, k) && !Stuck(k.start.plans, k.wired)
          && !(k.limits.mode == FullReplay && forall n :: HeadSpared(t, k.schedule, n))))
  }

  /** One step of a run. */
  method Advance(gw: RequestGateway, r: RequestId, prompt: string, tokens: seq<Token>, iv: Interval, chain: Placement,
      ghost t: Task, ghost k: Course) returns (res: Result<Token, Ending>, next: Placement)
    requires InProgress(gw, t, tokens, chain) && r == t.request && prompt == t.job.prompt
    requires SameHead(gw.plans.plan, chain) && OnCourse(t, k, |tokens|, Everything(gw), chain)
    requires iv == k.schedule(|tokens|) && k.limits == LimitsOf(gw) && |tokens| < k.steps
    modifies gw.Repr()
    ensures gw.Valid()
    ensures res.Success? ==> InProgress(gw, t, tokens + [res.value], next) && SameHead(gw.plans.plan, next)
    ensures res.Success? ==> OnCourse(t, k, |tokens| + 1, Everything(gw), next)
    ensures res.Failure? ==> res.error != Finished && MayEnd(t, k, res.error)
    ensures res == Failure(Astray) ==> Lost(t, |tokens|, gw.Snap(r))
  {
    hide OneConcerned, Fares, StepDone, Leaves, Elapsed, Lost, SparesHead, SparesStages, Quiet, Healthy, SameHead,
      Stuck, Ready, IsPrefix, Fleet.Valid, RequestGateway.Valid;
    ghost var e, n, pushKv := Everything(gw), |tokens|, gw.fleet.pushKv;
    assert Calm(t, k.schedule, k.start.world, k.wired) ==> Uneventful(t, k.schedule, n);
    assert (forall n :: HeadSpared(t, k.schedule, n)) ==> HeadSpared(t, k.schedule, n);
    assert AllSpared(t, k) ==> StagesSpared(t, k.schedule, n);
    ReadyValid(t, n, gw.Snap(r), chain);
    res, next := Step(gw, r, prompt, tokens, iv, chain, t);
    FaresOn(k.limits, t, k.schedule, k.steps, k.start, k.wired, n, e, chain, pushKv, res.Success?, Everything(gw),
      next);
  }

  /**
   A streamed generation under any schedule of crashes, reports and deliveries: every token
   that is yielded is the fault-free one, and if nothing ends it early, the whole list is.
   It cannot go astray if the reports spare the stages, or, under full replay, the head, nor
   once a report has left no plan. It finishes if all stages stay up and the head is spared;
   and it finishes if all crashes and reports concern one device behind the head whose backup
   is in place, and the mirror has room.
   */
  method GenerateTokens(gw: RequestGateway, r: RequestId, prompt: string, maxTokens: int, eos: Option<Token>,
      schedule: nat -> Interval, wired: Placement, ghost t: Task) returns (tokens: seq<Token>, ending: Ending)
    requires InProgress(gw, t, [], wired) && r == t.request && prompt == t.job.prompt && SameHead(gw.plans.plan, wired)
    modifies gw.Repr()
    ensures gw.Valid() && IsPrefix(t.job, tokens)
    ensures ending.Finished? ==> IsGeneration(t.job, tokens, maxTokens, eos)
    ensures ending.Astray? ==> Lost(t, |tokens|, gw.Snap(r))
    ensures Calm(t, schedule, old(gw.fleet.State()), wired) ==> ending.Finished?
    ensures gw.mode == FullReplay && (forall n :: HeadSpared(t, schedule, n)) ==> !ending.Astray?
    ensures (forall n :: StagesSpared(t, schedule, n)) && old(gw.plans.plan) == wired ==> !ending.Astray?
    ensures Stuck(old(gw.plans.State()), wired) ==> !ending.Astray?
    ensures OneConcerned(LimitsOf(gw), t, schedule, Steps(maxTokens), old(Everything(gw)), wired) ==> ending.Finished?
  {
    hide OneConcerned, OnCourse, Lost, HeadSpared, StagesSpared, Calm, SameHead, IsGeneration, Stuck, Ready, IsPrefix,
      Fleet.Valid, RequestGateway.Valid, RequestGateway.Snap;
    ghost var k := Course(LimitsOf(gw), schedule, Steps(maxTokens), Everything(gw), wired);
    CourseBegins(t, k);
    var first, chain := Advance(gw, r, prompt, [], schedule(0), wired, t, k);
    if first.Failure? {
      NothingYet(t.job);
      return [], first.error;
    }
    assert [] + [first.value] == [first.value];
    tokens := [first.value];
    while Some(tokens[|tokens| - 1]) != eos && |tokens| < maxTokens
      invariant InProgress(gw, t, tokens, chain) && SameHead(gw.plans.plan, chain) && IsPartial(tokens, maxTokens, eos)
      invariant OnCourse(t, k, |tokens|, Everything(gw), chain)
      decreases maxTokens - |tokens|
    {
      var next;
      next, chain := Advance(gw, r, prompt, tokens, schedule(|tokens|), chain, t, k);
      if next.Failure? {
        return tokens, next.error;
      }
      PartialGrows(tokens, next.value, maxTokens, eos);
      tokens := tokens + [next.value];
    }
    GenerationEnds(t.job, tokens, maxTokens, eos);
    ending := Finished;
  }

  lemma CourseBegins(t: Task, k: Course)
    ensures OnCourse(t, k, 0, k.start, k.wired)
  {
    FaresAtFirst(k.limits, t, k.schedule, k.steps, k.start, k.wired);
  }

  /** No worker that is up and not declared dead holds any KV of the request. */
  ghost predicate NobodyHolds(w: World, dead: set<DeviceId>, r: RequestId) {
    forall d, key :: d in w.runners && d in w.alive && d !in dead ==> CacheKey(r, key) !in w.runners[d].kv
  }

  /** Forget a request everywhere that can be reached. */
  method EvictEverywhere(gw: RequestGateway, r: RequestId)
    requires gw.Valid()
    modifies gw.Repr()
    ensures gw.Valid() && gw.plans.State() == old(gw.plans.State())
    ensures gw.cache.Held(r) == map[] && gw.replica.Held(r) == map[] && gw.parity.LogOf(r) == map[]
    ensures gw.fleet.State() == EvictedOn(old(gw.fleet.State()), old(gw.fleet.alive) - gw.plans.dead, r)
    ensures NobodyHolds(gw.fleet.State(), gw.plans.dead, r)
  {
    hide EvictedOn;
    EvictCaches(gw, r, r);
    gw.OnlyCachesMoved(r);
    ghost var w := gw.fleet.State();
    EvictKvForRequest(gw.fleet, gw.plans.dead, r);
    ForgottenByAll(w, gw.fleet.State(), gw.plans.dead, r);
  }

  lemma ForgottenByAll(w: World, u: World, dead: set<DeviceId>, r: RequestId)
    requires ForgottenOn(w, u, w.alive - dead, r)
    ensures NobodyHolds(u, dead, r)
  {
    forall d, key | d in u.runners && d in u.alive && d !in dead
      ensures CacheKey(r, key) !in u.runners[d].kv
    {
      assert RunnerForgot(w.runners[d], u.runners[d], d in w.alive - dead, r);
    }
  }

  /** The streamed generation; whatever its end, the coordinator keeps nothing of the request. */
  method GenerateStreaming(gw: RequestGateway, r: RequestId, prompt: string, maxTokens: int, eos: Option<Token>,
      schedule: nat -> Interval, wired: Placement, ghost t: Task) returns (tokens: seq<Token>, ending: Ending)
    requires InProgress(gw, t, [], wired) && r == t.request && prompt == t.job.prompt && SameHead(gw.plans.plan, wired)
    modifies gw.Repr()
    ensures gw.Valid() && IsPrefix(t.job, tokens)
    ensures ending.Finished? ==> IsGeneration(t.job, tokens, maxTokens, eos)
    ensures Calm(t, schedule, old(gw.fleet.State()), wired) ==> ending.Finished?
    ensures gw.mode == FullReplay && (forall n :: HeadSpared(t, schedule, n)) ==> !ending.Astray?
    ensures (forall n :: StagesSpared(t, schedule, n)) && old(gw.plans.plan) == wired ==> !ending.Astray?
    ensures Stuck(old(gw.plans.State()), wired) ==> !ending.Astray?
    ensures OneConcerned(LimitsOf(gw), t, schedule, Steps(maxTokens), old(Everything(gw)), wired) ==> ending.Finished?
    ensures gw.cache.Held(r) == map[] && gw.replica.Held(r) == map[] && gw.parity.LogOf(r) == map[]
    ensures NobodyHolds(gw.fleet.State(), gw.plans.dead, r)
  {
    tokens, ending := GenerateTokens(gw, r, prompt, maxTokens, eos, schedule, wired, t);
    EvictEverywhere(gw, r);
  }
}
