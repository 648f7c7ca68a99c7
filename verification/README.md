# RADP verification

A Dafny model of RADP, which runs a language model as a pipeline of layer ranges over several
devices, chooses placement and backups together, and repairs a crash in mid-generation so that
the client sees the tokens of a fault-free run. The project proves that it does, where it does,
and states exactly where it does not, with runs that show it. `dafny verify dfyconfig.toml`
checks everything.

## How it is built

* **The fault-free run** (`Reference`): a stage is an arbitrary deterministic function of the KV
  it holds and its input, producing new KV columns and an output. Position 0 is the prefill and
  starts from empty KV, every later position appends one column.
* **Workers and chains** (`Workers`, `Fleet`, `Chains`): stage runners are objects whose fields
  change; a call runs down the chain of next hops, and a worker crashes when it is called, after
  it has mirrored its input. `Chains` proves what one call does to everything, for every length.
* **What is known** (`Protocol`, `ParityProtocol`, `ReplicaProtocol`): messages to the coordinator
  form a set from which any may be delivered, at any time, in any order, any number of times, or
  never. The invariant is that everything the coordinator holds is true of the fault-free run,
  and every plan stage's KV is the fault-free KV of the positions it has done.
* **Recovery** (`Rewiring`, `Reentry`, `Rebuild`, `ParityRecovery`, `Recoverability`,
  `Gateway`): full replay, surgical, replicate and parity recovery, with all gates and
  fallbacks, from every state that a failed call can leave, whatever devices have been declared
  dead. For each it is proved exactly when it succeeds and exactly when a success is right; both
  conditions could be checked by the gateway before it starts.
* **Generations** (`Delivering`, `Keeping`, `Calling`, `Intervals`, `Outcomes`, `OneVictim`,
  `Generation`, `Deployment`, `EndToEnd`): prefill and decode under an arbitrary schedule of
  crashes, reports and deliveries, before every call and between its failure and its recovery,
  after a deployment from any worker state. `Intervals` gives the state after everything that can
  happen as a function of the state before, `Outcomes` says from it exactly when a position is
  run and when rightly, and `OneVictim` follows one device through a whole generation: whatever
  happens to it, the generation ends as if nothing had.
* **Where it goes wrong** (`Tracing`, `HeadReports`, `Staging`, `OverlappingLoss`,
  `SplitVictims`): the head reported between calls, and two runs from idle workers to a recovery
  that succeeds with a wrong token.
* **Erasure coding** (`GaloisField` to `Erasures`, `ParityFold`, `KvParity`, `KvReconstruction`,
  `KvLayout`): GF(2^8) with polynomial 0x11d as in section 4 of H. P. Anvin, "The mathematics of
  RAID-6", the P and Q folds, their inversion, and the KV byte layouts.
* **Scheduling** (`Cluster`, `RecoveryTables`, `Scheduling`, `CostModel`, `BackupChoice`,
  `Solver`, `Alternating`, `OrderSearch`, `EnumerationOrder`, `Misranking`): the dynamic program
  over costs that may be infinite, the greedy backup table, the alternating fixed point, and the
  search over device subsets and orders. `CostModel` and `BackupChoice` say what the answers mean
  in seconds and bytes of the cluster, without the functions that compute them.

Lemmas carry `{:induction false}` wherever Dafny would otherwise add an induction hypothesis of
its own, so that every proof stands as it is written.

## Where the code and its documentation disagree

The model follows the code; each point is proved.

* Surgical recovery assumes that the survivors still hold 0..P-1, and promises a full replay
  rather than a silently wrong token (`radp/coordinator/gateway.py:841-860`). With the victim's
  mirror complete it does not check the first: if another stage has been moved to a backup since
  the chain was wired, state and token are wrong. A rebuild is right if and only if the plan
  still runs all other stages where they are wired
  (`Gateway.RequestGateway.RecoverSurgical`, `Rebuild.ReentryOutcome`); replicate recovery and
  parity recovery with one victim behave alike. A run: `OverlappingLoss.AnswerWrongly`.
* With k = 2, recovery goes by the dead set and re-enters at the upstream dead stage even if the
  failed call has passed it; this is right if and only if no stage that has done the position
  lies in between (`ParityRecovery.BothOutcome`). A run: `SplitVictims.AnswerWrongly`.
* A head that the failure detector declares dead between two calls is replaced by a backup that
  nobody has wired. The next call is right exactly if it is the prefill and the backup happens to
  be linked like the head (`HeadReports.HeadReportExact`).
* `mark_alive` can raise although its comment says that a smaller dead set cannot fail
  (`ExecutionPlans.RevivalCanFail`).
* A fallback result of the alternation carries a sum of stage times of 0.0, and the order search
  ranks by it (`OrderSearch.RankIsTrueIff`): on a concrete cluster it keeps an order of latency 7
  over one of latency 2 (`Misranking.SlowOrderKept`).
* With no devices the program for the full fleet ends in an index error instead of reporting that
  there is no solution (`OrderSearch.AbortsOnEmptyFleet`).
* With one device and subset search, which is the default, the order search always fails
  (`OrderSearch.LoneDevice`).

## Assumptions of the generation theorems

* Stages are deterministic and regular: a call appends as many columns of the stage's size as its
  input has tokens, and outputs carry the same number of tokens.
* Any device may crash, and any device may be reported dead, at any time, alive or not. No report
  is filtered. A generation is followed up to the first step at which the plan has moved on from
  the chain in a way the code does not notice: a call that would go to a backup nobody has wired,
  or a recovery that is not right. There the model's generation ends as `Astray`, and it is
  proved that it does so nowhere else and which reports cannot lead there; the code goes on, from
  a state that is not the fault-free one, except for a prefill whose head was moved to a backup
  linked like it. That a state is not the fault-free one supposes a prompt of at least one token.
* That a generation finishes although a device is lost supposes room in the mirror cache for the
  head's inputs and for what is delivered (`OneVictim.Traffic` adds it up): a full cache may evict
  the very request, and then nothing can be replayed. The condition is the same in every mode.
* A worker crashes at the start of a call; calls on one request are atomic.

## Model

| member | source | states |
|---|---|---|
| GeneratorOrder.OrderOfGenerator | radp/coordinator/gf256.py:16-32 | 2 has multiplicative order exactly 255 under shift-and-reduce by 0x11d: no smaller positive power is 1 (and `Power255`: the 255th is) |
| FieldTables.LogExists | radp/coordinator/gf256.py:16-32 | every non-zero byte is exactly one power of 2 below 255, so the log table is total and well defined |
| FieldTables.BuildTables | radp/coordinator/gf256.py:16-32 | the loop that fills the 512-entry exp and 256-entry log arrays yields powers and logarithms of 2 |
| FieldTables.GfMul | radp/coordinator/gf256.py:34-37 | the exp/log product equals shift-and-xor multiplication in GF(2)[x]/0x11d for all bytes, zeros included |
| FieldTables.MulXor | radp/coordinator/gf256.py:34-37 | multiplication distributes over XOR on both sides |
| FieldTables.MulAssociates | radp/coordinator/gf256.py:34-37 | multiplication is associative; with `MulCommutes`, `MulOne` and `GfInv` the table arithmetic is a field |
| FieldTables.MulCommutes | radp/coordinator/gf256.py:34-37 | multiplication is commutative |
| FieldTables.GfPowIsPower | radp/coordinator/gf256.py:40-43 | for every base and every integer exponent: the power of a non-zero base is the repeated product, its negative power the inverse of that, and 0 stays 0, even to the power 0 |
| FieldTables.GfInv | radp/coordinator/gf256.py:46-49 | raises exactly on 0, and otherwise returns the inverse |
| FieldTables.GfMulScalar | radp/coordinator/gf256.py:52-62 | scales every byte of an array, with the shortcuts for 0 and 1 |
| Erasures.SolveTwoErasures | radp/coordinator/gf256.py:65-81 | for byte vectors of any length: raises exactly when x >= y or y - x is a multiple of 255, and otherwise returns the only pair of vectors with the given P and Q |
| KvLayout.TransposesInvert | radp/coordinator/gateway.py:1395-1418 | slot-major to layer-major and the inverse transpose undo each other for every lane count, slot count and row size |
| KvLayout.LayerMajorTransposes | radp/worker/stage_runner.py:245-289 | every layer-major buffer of matching length comes from exactly the columns it is cut into |
| KvLayout.ColumnsReassemble | radp/coordinator/gateway.py:1395-1418 | stacking all extracted columns and transposing gives exactly the exported bytes |
| KvLayout.ExportKv | radp/worker/stage_runner.py:228-243 | export concatenates K and V of every layer, layer by layer, head by head |
| KvLayout.ExtractKvColumn | radp/worker/stage_runner.py:213-226 | extraction returns one slot of every lane in layer, K-before-V, head order, and nothing for a slot that is not there |
| KvLayout.InstallKv | radp/worker/stage_runner.py:245-289 | the offset loop fails exactly on a wrong length, and otherwise builds the one cache whose export is the input |
| KvLayout.ExportInstall | radp/worker/stage_runner.py:228-289 | install after export restores the cache, for all layer counts, heads, slots and row sizes |
| Lru.EvictedIsDropped | radp/coordinator/activation_cache.py:129-135 | the eviction loop drops exactly the n oldest requests, for the least n that makes the bytes fit or leaves only the protected number |
| Lru.EvictedOutcome | radp/coordinator/activation_cache.py:129-135 | what it leaves is whole requests as they were, and within the limit unless only protected ones are left |
| Lru.EvictedKeepsNewest | radp/coordinator/parity_cache.py:102-110 | a loop that protects one request never evicts the one just written |
| BlobStore.RunHoldsFirsts | radp/coordinator/activation_cache.py:54-98 | after any run of puts, reads and evictions over any requests, what a request holds is exactly the first-delivered blobs since it was last absent |
| BlobStore.RunsAgree | radp/coordinator/activation_cache.py:54-98 | two caches with any limits and any histories, evictions included, hold the same of a request whenever the same slots were delivered to both, with true bytes, since each last had nothing of it |
| BlobStore.HistoryUnique | radp/coordinator/activation_cache.py:73-89 | the history is determined: the longest gap-free prefix from position 0 |
| BlobStore.StepOrder | radp/coordinator/activation_cache.py:54-135 | a delivery, new or repeated, and a read that finds something make their request the most recent, and no other two requests change places; only a delivery may push out oldest ones |
| ActivationMirror.ActivationCache.Put | radp/coordinator/activation_cache.py:54-71 | stores once per (stage, position), tells whether it was new, evicts, and keeps the byte count exact and within the limit |
| ActivationMirror.ActivationCache.GetHistory | radp/coordinator/activation_cache.py:73-89 | returns the longest gap-free prefix from position 0 and touches the request in the LRU order |
| KvReplica.ReplicaCache.Keep | radp/coordinator/replica_cache.py:32-44 | stores a column once per (stage, slot); at least the newest request survives eviction |
| KvReplica.ReplicaCache.IsComplete | radp/coordinator/replica_cache.py:56-64 | true exactly when every slot up to the given one is stored |
| KvReplica.ReplicaCache.GetStageKv | radp/coordinator/replica_cache.py:46-54 | joins the stored columns in slot order, None exactly when there are none |
| ParityFold.FoldPermutation | radp/coordinator/parity_cache.py:42-71 | the zero-padded XOR and rank-weighted XOR do not depend on the order in which columns arrive |
| KvParity.PushHolds | radp/coordinator/parity_cache.py:42-71 | one push keeps every slot of every request equal to the fold of its contributors, growth, duplicate and eviction included |
| KvParity.PushOrder | radp/coordinator/parity_cache.py:42-71 | the same recency for pushes into the parity cache |
| KvParity.ParityCache.XorIn | radp/coordinator/parity_cache.py:42-71 | folds a column in once per stage, grows P and Q by zero padding, keeps bytes accounted, never evicts the request just written |
| KvParity.ParityCache.IsComplete | radp/coordinator/parity_cache.py:73-78 | true exactly when as many distinct stages contributed as the group has |
| KvParity.ParityCache.GetParity | radp/coordinator/parity_cache.py:80-85 | P is the XOR of exactly the zero-padded columns of the logged contributors |
| KvParity.ParityCache.GetQParity | radp/coordinator/parity_cache.py:87-93 | Q is the XOR of the columns scaled by 2 to the rank, present exactly with k = 2 |
| KvParity.ParityCache.EvictIfNeeded | radp/coordinator/parity_cache.py:102-110 | afterwards the stored bytes are within the cap or one request remains |
| KvReconstruction.XorReconstructKv | radp/coordinator/gateway.py:1420-1480 | from complete P blobs and the survivors' bytes it returns the victim's exported KV exactly |
| KvReconstruction.TwoLostColumns | radp/coordinator/gateway.py:1482-1542 | of unequal columns, what P and Q leave after the survivors are removed determines both lost columns |
| KvReconstruction.GfReconstructKv | radp/coordinator/gateway.py:1482-1542 | from complete P and Q blobs and the survivors' bytes it returns both victims' exported KV exactly, for any unequal lengths; it fails exactly if there is a slot and the ranks do not differ modulo 255 |
| ExecutionPlans.BuildExecutionPlan | radp/coordinator/recovery_plan.py:29-57 | succeeds exactly when every dead stage owner has a live backup; the error names the first stage that has none |
| ExecutionPlans.PlanIsSound | radp/coordinator/recovery_plan.py:29-57 | a plan keeps the placement's layer ranges pointwise and names no dead device |
| ExecutionPlans.ViableMonotone | radp/coordinator/recovery_plan.py:29-57 | viability survives any shrinking of the dead set |
| ExecutionPlans.InverseRecovery | radp/coordinator/recovery_plan.py:60-65 | lists, for each host, exactly the devices it backs up, each once |
| ExecutionPlans.PlanInvariant | radp/coordinator/gateway.py:217-284 | after any sequence of mark_dead, mark_alive and rebind_plan, raising calls included, ranges equal the placement's, and with a viable dead set the plan is the one built for it and names no dead device |
| ExecutionPlans.ExecutionPlan.MarkDead | radp/coordinator/gateway.py:217-230 | the device is recorded in every case and nothing else of placement, table and dead set changes; raises exactly when newly dead and no plan exists, and then the plan lags |
| ExecutionPlans.ExecutionPlan.MarkAlive | radp/coordinator/gateway.py:232-257 | the device leaves the dead set in every case; raises exactly when the smaller dead set is still not viable, and then the plan lags |
| ExecutionPlans.RevivalCanFail | radp/coordinator/gateway.py:232-257 | mark_alive can raise: a concrete run of three deaths in a ring of backups, against the comment that shrinking the dead set never does |
| ExecutionPlans.RevivalFromViable | radp/coordinator/gateway.py:232-257 | from a viable dead set mark_alive does not raise, puts the revived device back on its own stage and moves no other |
| ExecutionPlans.ExecutionPlan.RebindPlan | radp/coordinator/gateway.py:259-284 | placement and table are the new ones, the dead set is empty and the plan is the placement itself, whatever was dead before |
| Workers.StageRunner.Run | radp/worker/stage_runner.py:303-350 | fails exactly when the range is not loaded; a prefill starts from empty KV, a decode from the KV held, and the new columns are appended |
| Workers.StageRunner.RunTailAndSample | radp/worker/stage_runner.py:352-407 | the same, with the sampled token of the stage output |
| Workers.StageRunner.LoadPrimary | radp/worker/stage_runner.py:88-122 | a new primary is the only range loaded: all stages, backups, promotions and KV of the previous plan are gone, and a loaded head stays |
| Workers.StageRunner.PromoteBackup | radp/worker/stage_runner.py:186-198 | fails exactly when no backup for the owner is loaded, and otherwise records all its ranges as promoted |
| Workers.StageRunner.ExportKv | radp/worker/stage_runner.py:228-243 | a stage's KV columns in the exported byte order |
| Workers.StageRunner.InstallKv | radp/worker/stage_runner.py:245-289 | fails exactly on a wrong length; otherwise the KV is what the bytes encode |
| Workers.ExportedKvInstalls | radp/worker/stage_runner.py:228-289 | KV exported from one worker and installed on another is the same KV |
| Workforce.Fleet.RunStage | radp/worker/server.py:429-471 | a call, with crash, mirror, local run, KV push, forwarding and trailer relay in the order of the source, is the chain function that `Chains.ChainOutcome` characterises |
| Workforce.Fleet.Dispatch | radp/worker/server.py:515-653 | past the crash point: replay-only stops locally, a tail samples if it has the head, any other stage forwards and relays the blame |
| Workforce.Fleet.PushKv | radp/worker/server.py:473-513 | ships the new columns of a non-head stage; which those are is `Protocol.CallPushes` |
| Workforce.Fleet.SetNextHop | radp/worker/server.py:355-386 | sets or clears the successor of a stage on a live worker |
| Chains.ChainOutcome | radp/worker/server.py:515-653 | for chains of every length: exactly the stages before the first one that is down run, once each, on the KV they held; exactly their mirrors and pushes are sent, and the victim's mirror; the trailer names the stage that is down, however far from the caller |
| Reference.FlowIsReference | radp/worker/stage_runner.py:303-350 | a pass over stages that hold the fault-free KV produces the fault-free activations |
| Protocol.CallAdvances | radp/worker/server.py:515-653 | a call of position p makes every stage it reaches hold the fault-free KV after p, says only true things to the coordinator, and answers fault-free or blames the stage that is down |
| Protocol.CallPushes | radp/worker/server.py:473-513 | where workers ship KV, every non-head stage that a call of position p reaches ships exactly the fault-free columns of the slots p adds: all of the prompt at the prefill, the one new slot at a decode; nothing else is shipped, and elsewhere nothing at all |
| Protocol.HistoryIsTrue | radp/coordinator/activation_cache.py:73-89 | under any loss, reordering and duplication, a mirrored history is a prefix of the stage's fault-free inputs, and the head's reaches exactly the current position |
| Protocol.ReplayAlone | radp/worker/server.py:429-471 | a replay-only call advances one stage's KV by one position and changes nothing else anywhere |
| Protocol.PlanPass | radp/coordinator/gateway.py:829-944 | with earlier stages past p and later ones before it, a live run from stage e gets through exactly if all stages from e are up, and then completes p everywhere |
| Reentry.ReentryExact | radp/coordinator/gateway.py:829-944 | re-entering a chain at stage e leaves fault-free KV if and only if all other stages held what they should |
| Rebuild.RebuildAndRun | radp/coordinator/gateway.py:829-944 | replaying 0..p-1 into the backup and running p live succeeds exactly if the stages from the victim on are up; then the backup held the fault-free KV, the other stages what they had, and p ran from there |
| Rebuild.ReentryOutcome | radp/coordinator/gateway.py:829-944 | the exact outcome of that, whatever devices were declared dead: fault-free answer and state if the plan still runs all other stages where they were wired (at position 0 only those before the victim matter), and otherwise not the fault-free state |
| Rebuild.ReplayAndFinish | radp/coordinator/gateway.py:1642-1668 | a full replay succeeds exactly if the whole plan is up at every position, and then answer and all KV are fault-free |
| Rebuild.InstallAndRun | radp/coordinator/gateway.py:1048-1095 | installing the victim's KV bytes and running p live has the same exact outcome |
| ReplicaProtocol.ReplicaExact | radp/coordinator/gateway.py:987-1046 | completeness up to past_length + P - 2 and the length check force the stored slots to be exactly those the victim held, and the bytes to be its columns |
| ReplicaProtocol.ReplicaWhole | radp/coordinator/gateway.py:987-1046 | conversely, exactly those slots stored have exactly that length |
| ParityProtocol.CompleteSlot | radp/coordinator/parity_cache.py:73-78 | a complete slot holds the true column of every non-head stage and nothing else, and every stage has reached it |
| ParityProtocol.SharedSlotsAreLost | radp/coordinator/gateway.py:1250-1297 | behind the completeness gate the least survivor slot count is exactly the victims' slot count |
| ParityProtocol.SlotExplained | radp/coordinator/gateway.py:1420-1542 | a complete slot is the fold of exactly the survivors' and the victims' columns |
| ParityRecovery.GatesSuffice | radp/coordinator/gateway.py:1208-1309 | all gates passed means everything reconstruction needs |
| ParityRecovery.LastVictimTripsGate | radp/coordinator/gateway.py:1278-1297 | a victim without a surviving stage behind it always trips the completeness gate |
| ParityRecovery.FetchSurvivors | radp/coordinator/gateway.py:1208-1287 | fetches every live non-head stage, all or none: it succeeds exactly if each of them answers and holds KV |
| ParityRecovery.SharedSlots | radp/coordinator/gateway.py:1208-1287 | passes exactly when buffers are whole, non-empty and at most one slot apart, and returns the least count |
| ParityRecovery.ReconstructOne | radp/coordinator/gateway.py:1420-1480 | on live caches the reconstruction is the victim's own exported KV before position p |
| ParityRecovery.ReconstructBoth | radp/coordinator/gateway.py:1482-1542 | the same for two victims from P and Q, failing exactly if the ranks do not differ modulo 255 |
| ParityRecovery.AlignedSurvivors | radp/coordinator/gateway.py:1208-1297 | the gates from fetch to completeness open exactly if every survivor answers and runs where it was wired, there is one, they share slots, and every shared slot is complete |
| ParityRecovery.ResumeDouble | radp/coordinator/gateway.py:1544-1640 | past the gates double recovery succeeds exactly if the stages from the upstream victim on are up and the ranks differ modulo 255; then both victims held the fault-free KV again and p ran from the upstream one |
| ParityRecovery.BothOutcome | radp/coordinator/gateway.py:1544-1640 | the exact outcome of that: fault-free answer and state if no stage that had done p lies between the upstream victim and the failure, and otherwise not the fault-free state |
| Rewiring.PromoteAndRewire | radp/coordinator/gateway.py:676-710 | succeeds exactly if every victim's backup host is alive and holds a backup for it; the live part of the plan is then linked in order |
| Rewiring.EvictKvForRequest | radp/coordinator/gateway.py:1670-1690 | one request's KV is gone from exactly the reachable workers not known dead, and nothing else has changed anywhere |
| Gateway.RankNonHead | radp/coordinator/gateway.py:156-176 | the rank of a non-head range is the number of non-head stages that start before it |
| Gateway.RequestGateway.AttributeChainFailure | radp/coordinator/gateway.py:634-674 | the first placement stage with the relayed range; the head without a trailer or a match |
| Gateway.RequestGateway.FindVictim | radp/coordinator/gateway.py:634-674 | in a synchronous chain of any length the stage blamed is exactly the one that failed |
| Gateway.RequestGateway.DeclareVictim | radp/coordinator/gateway.py:676-710 | the victim is recorded as dead; this fails exactly if it was not and no plan is left, and moves no other stage |
| Gateway.RequestGateway.RecoverSurgical | radp/coordinator/gateway.py:829-944 | from every state a failed call can leave: it succeeds exactly when a plan without the victim exists, its backup can be promoted, and the stages that have to run are up (all, at every position, if the victim's mirror has a gap); a replay is then right, and a rebuild if and only if the plan runs the other stages where they were wired |
| Gateway.RequestGateway.RecoverFullReplay | radp/coordinator/gateway.py:712-827 | full replay is right from every such state, with its own exact success condition |
| Gateway.RequestGateway.PassReplicaGates | radp/coordinator/gateway.py:987-1046 | the gates open exactly when the victim's inputs are mirrored up to p and exactly the slots it held are stored |
| Gateway.RequestGateway.RecoverReplicate | radp/coordinator/gateway.py:946-1095 | replicate recovery succeeds, and is right, in exactly the same situations as surgical recovery |
| Gateway.RequestGateway.PassGates | radp/coordinator/gateway.py:1208-1309 | the parity gates open exactly when the survivors are aligned where they were wired, every shared slot is complete and the re-entry input is mirrored; then slot count and input are the victim's |
| Gateway.RequestGateway.RecoverSingle | radp/coordinator/gateway.py:1097-1366 | single parity recovery succeeds, and is right, in exactly the same situations as surgical recovery |
| Gateway.RequestGateway.TryParityDouble | radp/coordinator/gateway.py:1544-1640 | double recovery for any two dead stages: with a gate closed nothing is touched; with all open it succeeds exactly if both backups can be promoted, the ranks differ modulo 255 and the stages from the upstream victim on are up, and is right if and only if no stage that had done p lies in between |
| Gateway.RequestGateway.RecoverParity | radp/coordinator/gateway.py:1160-1181 | dispatch on the dead set: from P + Q if exactly two stages of the group are dead, the head is not, and the gates open; in all other cases exactly as surgical recovery |
| Gateway.RequestGateway.RecoverFromChainFailure | radp/coordinator/gateway.py:712-827 | all four modes, from every state a failed call can leave, for any number of stages: exactly when recovery succeeds, and exactly when the answer and the state it leaves are the fault-free ones |
| Recoverability.StuckIsLost | radp/coordinator/gateway.py:217-230 | after a report that leaves no plan no failure is recovered, by no strategy: the victim cannot be declared, or the plan still names it |
| Recoverability.UnmovedPairIsLost | radp/coordinator/gateway.py:1544-1640 | while the plan is the chain, P + Q recovery that passes its gates fails |
| Calling.CallComesTo | radp/worker/server.py:515-653 | a call of a ready position comes to this: everything fault-free and done if nobody is down, else the blame names the stage that is, and the others hold what they should |
| Calling.CallHead | radp/coordinator/gateway.py:1692-1740 | primes the mirror with the head's input and calls the chain, with that outcome |
| Delivering.Ingest | radp/coordinator/gateway.py:289-331 | one delivery: a worker's input is put into the mirror cache and nothing else changes, a KV column goes to the replica cache in replicate mode and otherwise is folded into the parity with its rank, another request that ends is dropped from all three, and everything held stays true |
| Delivering.IngestAll | radp/coordinator/gateway.py:289-331 | any row of deliveries leaves exactly what recording them one after the other leaves |
| Keeping.InputsKept | radp/coordinator/activation_cache.py:54-71 | with room for them every delivered input is held afterwards, and all that was held before |
| Keeping.ColumnsKept | radp/coordinator/replica_cache.py:32-44 | so is every delivered column, in replicate mode |
| Keeping.PushesKept | radp/coordinator/parity_cache.py:42-71 | and in the other modes every delivered column's stage is a contributor to its slot |
| Intervals.ReportDead | radp/coordinator/server.py:545-563 | a report at any time of any device is recorded, and an error it raises is swallowed |
| Intervals.Happen | radp/coordinator/server.py:545-563 | everything that happens at one time, in any number: workers, plans and caches afterwards are stated as a function of what they were, and what is known of the request stands |
| Intervals.AllRecorded | radp/coordinator/gateway.py:217-230 | every report of a row is recorded, whether it leaves a plan or not |
| Intervals.DeclaredStands | radp/coordinator/gateway.py:217-230 | no report, viable or not, disturbs what is known of the request between calls or after a failed one |
| Intervals.ReportsOfOthers | radp/coordinator/gateway.py:217-230 | any row of reports of devices without a stage, or without which no plan exists, leaves the plan as it is |
| Intervals.StuckStays | radp/coordinator/gateway.py:217-230 | once a report has left no plan, no later one moves the plan |
| Generation.NoWayOut | radp/coordinator/gateway.py:712-827 | and every later failure ends in an error, in every mode |
| Generation.Recover | radp/coordinator/gateway.py:712-827 | a recovery after whatever happened since the call failed: with the state then as a function of the state before and of all that happened, it succeeds if and only if the mode's condition on that state holds (`Recoverable`), is right if and only if the mode's second condition does (`Rightly`), and a success takes nobody else down |
| Outcomes.RecoveredExactly | radp/coordinator/gateway.py:712-827 | what the four modes promise is one condition for success, one for rightness, and the plan and the workers that a success leaves |
| OneVictim.VictimRecovers | radp/coordinator/gateway.py:712-827 | a device behind the head whose backup is in place and up, with the others up and the head's input mirrored, is recovered from in every mode, and rightly |
| Generation.RunPipeline | radp/coordinator/gateway.py:1692-1777 | one position, whatever happens meanwhile: it is run if and only if its call gets through or the recovery's condition on the state after the call and its interval holds, and rightly if and only if the recovery's is right; what a success leaves is stated for workers, plan and chain; anything else is an error |
| OneVictim.StepIsDone | radp/coordinator/gateway.py:1692-1777 | while only that device crashes or is reported and the mirror has room, the next position is run, and rightly, whether the call gets through or fails and is recovered |
| Generation.Step | radp/coordinator/gateway.py:560-632 | one prefill or decode: it yields a token if and only if the plan still begins with the chain's head and the position is run rightly |
| OneVictim.FaresOn | radp/coordinator/gateway.py:401-471 | and so is every position of a generation, before the crash, at it, and after it on the chain with the backup |
| Generation.GenerationUnique | radp/coordinator/gateway.py:401-471 | the fault-free greedy generation is unique, so "the same tokens" has one meaning |
| Generation.GenerateTokens | radp/coordinator/gateway.py:401-471 | under every schedule of crashes, deliveries and reports of any devices, each yielded token is the fault-free one, up to the first step at which the code loses track of a moved plan, and a normal end is the whole fault-free generation; it cannot lose track if the reports spare the stages, or under full replay the head, nor once a report has left no plan; it ends normally if nobody crashes and the head is spared, and also, in every mode, if all crashes and reports concern one device behind the head whose backup is in place and up and the mirror has room for what is sent |
| Generation.GenerateStreaming | radp/coordinator/gateway.py:401-471 | the same, and whatever the end, the coordinator keeps nothing of the request and no worker that is up and not declared dead holds any KV of it |
| Deployment.Deploy | radp/coordinator/server.py:410-509 | from any worker state: primaries, chain, head on the tail, backups on every known host; a placed device has loaded its range, the backups the table gives it, and nothing else; it succeeds if the workers answer |
| Deployment.PlannedLoads | radp/worker/stage_runner.py:124-151 | loading a backup the table assigns leaves every placed device with nothing but its range and assigned backups |
| Deployment.PlanIsLoaded | radp/coordinator/server.py:410-509 | after deployment every stage of every viable plan is loaded where the plan runs it, and its backup can be promoted |
| Deployment.WalkFollows | radp/coordinator/gateway.py:676-710 | following next hops along a wired plan visits it in order and stops at its tail, even if a device appears twice |
| Deployment.ActivatePlan | radp/coordinator/gateway.py:676-710 | promotion and rewiring after deployment succeed exactly for viable dead sets, and the whole plan can then be run |
| EndToEnd.DeployedSurvives | radp/coordinator/server.py:410-509 | an eager deployment puts in place all that doing without one device behind the head takes |
| EndToEnd.DeployAndGenerate | radp/coordinator/server.py:410-509 | deploy on workers in any state, open a gateway in any mode, generate under any schedule, with any number of stages: the same statements; the generation finishes while all workers stay up and the head is spared, and after an eager deployment also if one device behind the head crashes, at any time and in any position, or is reported, its backup's worker stays up, and the mirror has room for the traffic |
| HeadReports.HeadMoves | radp/coordinator/gateway.py:217-230 | a viable report of the head's device puts its backup, which nobody has wired, at the head of the plan |
| HeadReports.HeadReportExact | radp/coordinator/gateway.py:1692-1740 | whatever chain the backup's next hops lead along, the call that gets an answer leaves the fault-free state if and only if this was the prefill and the backup is linked like the head |
| HeadReports.UnlinkedAnswersWrongly | radp/coordinator/gateway.py:1692-1740 | a backup without next hop answers itself, on the tracing model wrongly at every position, with and without the head modules |
| HeadReports.ReportHeadAndCall | radp/coordinator/gateway.py:217-230 | the same run on the gateway: report of the head between two calls, then the next call as the code makes it |
| OverlappingLoss.AnswerWrongly | radp/coordinator/gateway.py:829-944 | a run from three idle workers through deployment, prefill, a report, a crash and surgical recovery, which succeeds with a token that is not the fault-free one |
| SplitVictims.AnswerWrongly | radp/coordinator/gateway.py:1544-1640 | a run from five idle workers through deployment, prefill, two crashes, reports of both and P + Q recovery, which succeeds with a token that is not the fault-free one |
| Tracing.TracedIn | radp/worker/stage_runner.py:303-350 | on the model of these runs the fault-free activation counts the KV slots of all stages passed |
| MemoryCheck.BackupMemoryFor | radp/coordinator/memory_check.py:30-50 | the loop sums exactly the stages of the devices the table assigns to the node |
| MemoryCheck.CheckMemory | radp/coordinator/memory_check.py:52-80 | raises exactly on an invalid range, and otherwise decides own stage plus eager backups against the budget |
| Cluster.FirstLayerBytes | radp/coordinator/memory_check.py:23-28 | a range weighs its first layer and the rest, and an empty one nothing |
| RecoveryTables.EstimateRecomputeTime | radp/coordinator/recovery_table.py:41-54 | sum of the layers' times, infinite exactly if one is not measured |
| CostModel.DownloadCrosses | radp/coordinator/recovery_table.py:23-38 | a download time is finite exactly if the link from holder to host has bandwidth, and then what is left of it after the latency moves exactly the stage's bytes |
| CostModel.WorkExecutes | radp/coordinator/recovery_table.py:41-54 | a recompute time is finite exactly if every layer is measured on the device, and then is what running them one after the other takes |
| RecoveryTables.ListHosts | radp/coordinator/recovery_table.py:77-85 | the three loops that list the hosts: the configured ones or else the pipeline's, then the pipeline devices not yet listed, without repetition |
| BackupChoice.HostsInOrder | radp/coordinator/recovery_table.py:77-85 | the list is, in order, the first profile of every id among configured hosts and then pipeline devices |
| RecoveryTables.BestHostIsBest | radp/coordinator/recovery_table.py:86-149 | the host chosen has room and finite cost, no host with room is cheaper, and every one listed before it is dearer |
| RecoveryTables.DetermineRecoveryTable | radp/coordinator/recovery_table.py:64-149 | the nested loops compute the table function, error included |
| RecoveryTables.GreedyNeverOvercommits | radp/coordinator/recovery_table.py:86-149 | with one stage per device the running reservation always equals the backup burden of the table so far, so every chosen host holds its own stage plus all its backups; the table is total on stage owners and never self-assigns |
| RecoveryTables.TableFails | radp/coordinator/recovery_table.py:86-149 | it fails exactly when at some step every host with room has infinite cost |
| BackupChoice.GreedyChoice | radp/coordinator/recovery_table.py:86-149 | in terms of the specification alone: each stage's backup is the first of the hosts that take it over soonest among those whose memory holds it beside their own stage and, if eager, the backups already given to them; there is none, and no table, exactly if no other host has such room and can fetch and run it at all |
| BackupChoice.NothingToBackUp | radp/coordinator/recovery_table.py:106-110 | a device without a stage gets no backup |
| Scheduling.CellIsPath | radp/coordinator/scheduler.py:492-600 | every finite cell is exactly the sum and maximum of stage costs of the contiguous partition its choices lead to, each stage of which fits and meets the cap |
| Scheduling.CellIsOptimal | radp/coordinator/scheduler.py:492-574 | in throughput and latency mode no feasible partition of the same layers onto the same devices ranks below the cell, and where one exists the cell is finite |
| Solver.Forward | radp/coordinator/scheduler.py:492-574 | the nested loops over the two-dimensional tables fill every cell with the value of the recurrence |
| Solver.Backtrack | radp/coordinator/scheduler.py:576-600 | never fails on a finite final cell, and returns the partition of the choices |
| Solver.LastCell | radp/coordinator/scheduler.py:95-129 | the final cell is finite exactly if a feasible finite-cost partition exists, and then is minimal |
| Scheduling.BestSplitIsBest | radp/coordinator/scheduler.py:536-574 | of equally good splits the first is kept |
| CostModel.HopCrosses | radp/coordinator/scheduler.py:640-661 | a hop takes what moving one activation over the link takes, and its overhead |
| CostModel.LeastSlowdown | radp/coordinator/scheduler.py:615-638 | stages are slowed down by the least factor, at least 1, at which the thread pool keeps up with all stages of all concurrent requests |
| CostModel.CostIsTime | radp/coordinator/scheduler.py:492-574 | a stage cost is finite exactly if there is a time, and then is it: work, slowed down, after the input has arrived from the device before; the first input is local |
| CostModel.TimesAreUnique | radp/coordinator/scheduler.py:492-574 | a placement has one sum and one maximum of such times |
| Solver.CostsAreTimes | radp/coordinator/scheduler.py:95-132 | sum and maximum reported for a partition are those of the times its stages take |
| Solver.FeasibleIsServable | radp/coordinator/scheduler.py:492-574 | the partitions the program chooses from are exactly those that memory, known times and, in throughput mode, the target allow, stated on the specification alone |
| Solver.SlowestMeetsTarget | radp/coordinator/scheduler.py:492-574 | in throughput mode no stage of a feasible partition is slower than the target |
| Solver.TargetOnlyInThroughput | radp/coordinator/scheduler.py:492-574 | in the other modes the program comes to the same for every target |
| Solver.Solve | radp/coordinator/scheduler.py:95-132 | in terms of the specification alone: fails exactly if no partition into one non-empty stage per device fits every device's memory beside its backups, has a known time for every stage, and in throughput mode keeps every stage within the service-level target; otherwise returns one with the times its stages take, none over the target in throughput mode, and minimal in throughput and latency mode |
| Solver.UniformPlacement | radp/coordinator/scheduler.py:688-712 | the round-robin split: all layers in order, sizes differing by at most one, larger ones first |
| Alternating.MemorySelfCheck | radp/coordinator/scheduler.py:469-487 | for any placement within the layers: an error exactly if a device is looked up that does not exist, and otherwise true exactly when every stage fits its own device together with the backups the placement implies |
| Alternating.CheckedIsConsistent | radp/coordinator/scheduler.py:469-487 | on a placement that covers the layers no lookup fails, and the check is self-consistency |
| Alternating.FixedPointConsistent | radp/coordinator/scheduler.py:134-281 | at a fixed point of table and program, self-consistency already holds |
| Alternating.UnchangedPlacementConverges | radp/coordinator/scheduler.py:134-281 | a placement that its own iteration returns is repeated by the next iterate, table included |
| Alternating.SeedRepair | radp/coordinator/scheduler.py:163-190 | the start is kept if it has a table or needs none; without a table the cheapest placement that ignores backups takes its place, if there is any |
| Alternating.StartsEvenly | radp/coordinator/scheduler.py:158-162 | without a given start the alternation begins from the even split |
| Alternating.AnswerMeetsTarget | radp/coordinator/scheduler.py:134-281 | in throughput mode no answer of the alternation is slower than the target |
| Alternating.IterationIgnoresTarget | radp/coordinator/scheduler.py:492-574 | in the other modes an iteration of the alternation, table included, comes to the same for every target |
| Alternating.AnswerIsUnique | radp/coordinator/scheduler.py:134-281 | the contract of the alternation leaves nothing open: one trace and one result meet it |
| Alternating.SolveAlternating | radp/coordinator/scheduler.py:134-281 | every answer covers the layers, fits its own backup burden, reports its true slowest stage and in throughput mode meets the service-level target; converged means a fixed point, a fallback has least rank among self-consistent iterates (the earliest such) and a zero sum; failure means no iterate was self-consistent, with the error of the step that failed, or with no devices the index error of the program |
| DeviceOrders.SearchSpace | radp/coordinator/scheduler.py:399-401 | the orders enumerated are exactly the sequences of distinct devices of the admitted sizes |
| EnumerationOrder.SearchedInOrder | radp/coordinator/scheduler.py:397-401 | the list is strictly ordered: by size, then by the devices chosen, then by their order, always by position in the fleet |
| EnumerationOrder.TriedOnce | radp/coordinator/scheduler.py:397-401 | no pipeline is tried twice |
| OrderSearch.DriftBound | radp/coordinator/scheduler.py:394-436 | after t candidates the retained rank is at most any candidate's plus (t - 1) tolerances |
| OrderSearch.DriftIsReal | radp/coordinator/scheduler.py:394-436 | the bound is tight: for every step below the tolerance a list of t candidates drifts by t - 1 steps |
| OrderSearch.ExactWithoutNearTies | radp/coordinator/scheduler.py:394-436 | without ranks closer than the tolerance the retained candidate has the least rank and, among equals, the best score |
| OrderSearch.SearchBound | radp/coordinator/scheduler.py:286-464 | the search fails exactly when every pipeline tried failed; otherwise it returns the answer of one within a nanosecond per further candidate of all others |
| OrderSearch.ShorterRanksFirst | radp/coordinator/scheduler.py:418-426 | of two answers with equal times each device more costs one penalty: with a positive penalty the shorter pipeline ranks first, and with one above the tolerance it beats the longer |
| OrderSearch.KnownThroughput | radp/coordinator/scheduler.py:347-354 | a known device scores with its own throughput, an unknown one with none |
| OrderSearch.ScorePerLayer | radp/coordinator/scheduler.py:347-354 | every layer adds the throughput of the device it runs on |
| OrderSearch.SearchMeetsTarget | radp/coordinator/scheduler.py:286-464 | in throughput mode the answer of the search meets the target |
| OrderSearch.EveryPipelineIsTried | radp/coordinator/scheduler.py:399-401 | a pipeline is tried exactly if it consists of distinct devices in an admitted number |
| OrderSearch.LoneDevice | radp/coordinator/scheduler.py:330-335 | with a single device the subset search tries nothing and always fails, while the full-fleet search answers as the alternation does |
| OrderSearch.RankIsTrueIff | radp/coordinator/scheduler.py:667-682 | an answer is ranked by its true times if and only if it converged, or only the slowest stage counts, or its sum is zero |
| OrderSearch.FallbackBeatsConverged | radp/coordinator/scheduler.py:667-682 | so in latency mode without a stage penalty any fallback of the search beats any converged answer above the tolerance |
| Misranking.OneIterationFallsBack | radp/coordinator/scheduler.py:134-281 | with one iteration no answer can converge: every success is a fallback with sum 0.0 |
| Misranking.SlowOrderKept | radp/coordinator/scheduler.py:286-464 | on a concrete pair of devices the only search there is keeps the first order tried, of latency 7, over the other one, of latency 2 |
| OrderSearch.SearchIsUnique | radp/coordinator/scheduler.py:286-464 | the contract of the search leaves nothing open: one list of attempts and one result meet it |
| OrderSearch.AbortsOnEmptyFleet | radp/coordinator/scheduler.py:492-574 | the search is aborted by an index error exactly if the full fleet is searched, is empty, and at least one iteration is run; nothing is retained then |
| OrderSearch.Scheduler.SolveAlternatingBestOrder | radp/coordinator/scheduler.py:286-464 | tries every admitted subset in every order on a swapped specification, retains by rank and score, leaves the specification as it was, and in throughput mode returns no answer over the service-level target |

## Left out

- ActivationCache.append: not called by the gateway; it overwrites a slot without refunding its bytes if positions have gaps.
- Asynchronous chain mode, timeouts and hung workers: the code itself says that attribution does not hold there.
- A crash after a stage has forwarded its output: the fault injected by the code is at the start of a call.
- Sampling with temperature and seeds: tokens are a function of the last activation.
- The outer re-prefill of generate(): it restarts a request under the same id; only the streaming form, which has no such retry, is modelled.
- gRPC, addresses, serialization, tokenizers and tensors: bytes, calls and failures only; embedding, head and stage bodies are parameters.
- Concurrent requests: deliveries and evictions of other requests may occur between steps, their KV on the workers does not.
- Generation.RunPipeline: crashes, reports and deliveries happen before a call and between its failure and its recovery, not in the middle of either.
- Generation.GenerateTokens: what the code does after the step at which a generation goes astray is not followed.
- Intervals.ReportDead: the report also promotes the device's backup at its host, which only sets a flag there that nothing reads; that call is omitted. Revivals do not occur within a generation.
- HeadReports.HeadReportExact: the backup's next hops are taken to lead stage by stage from the first one on, as every wiring makes them.
- EndToEnd.DeployAndGenerate: nobody has heard of the request before.
- KvLayout.ExtractKvColumn: item sizes are folded into the row; negative positions are not modelled.
- Workers.StageRunner: KV is kept as columns in slot order; the conversion to per-layer tensors is proved in KvLayout. The primary-range field, which only steers weight loading, is omitted.
- Workforce.Fleet.SetNextHop: next hops are one map for the whole fleet, keyed by device and range.
- KvParity.ParityCache: entries are values in a map; updates of their byte arrays in place are new values.
- Parity after rebind_plan: the number of stages and the ranks are those of the placement at construction.
- Solver.Solve: no optimality is claimed in blended mode, whose rank does not decompose; blended means a positive weight, since with weight 0 the rank of an empty cell is not a number. An unknown mode is not modelled.
- Alternating.SolveAlternating: a widened list of backup hosts is not covered by the self check, which only looks at devices with stages.
- Alternating.ReplaceHistory: the zero sum is modelled as the code has it; only the slowest stage of a fallback is claimed.
- OrderSearch.Scheduler.SolveAlternatingBestOrder: the final check against the service-level target only writes a log line and is omitted.
- Costs are real numbers with an explicit infinity: floating-point rounding is not modelled.
- Weight downloading, heartbeats, profiling, web interface, placement files and experiment drivers.
