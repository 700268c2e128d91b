# orcastork, verified

A Dafny model of the data-driven scheduler orcastork, its lite engine, and the stores, locks, inbox and
archives around them, with proofs of what they promise. `dafny verify dfyconfig.toml` checks everything.

Code that changes things step by step is a class with the same fields and loops; each of its methods is proved
equal to a function on values, and what the system promises is proved about those functions, mostly over whole
runs: sequences of steps in which the environment (running operators, other pods, the clock, producers, crashes)
chooses freely.

| files | subject |
|---|---|
| `Digraph`, `Tarjan`, `LiteGraph`, `CycleRule` | strongly connected components, the dependency graph, the bounded-cycle rule |
| `DataPoints`, `KeyedMerge`, `SessionState` | DataPoints, the keyed merge, revisions, watermarks, deltas |
| `LiteLoop`, `LiteLoopSafety`, `LiteLoopTheorems`, `LiteLoopBounds`, `LiteLoopTermination`, `LiteLoopProgress`, `LiteLoopQuiescence`, `LiteLoopWitnesses`, `LiteLoopConverse`, `LiteLoopScheduling`, `LiteLoopCompletions`, `LiteLoopData` | the gathering loop as a state machine: invariants, exact deltas, real quiescence, conservation, exactly which flows stop, quiescence reached, what each pass and each completion does, and where the data comes from |
| `GatheringLoop` | the same loop in place, proved to take only steps of that machine |
| `DataPointStore`, `MemoryStore`, `Mirror`, `StateMirror`, `StoreHistory`, `StoreFence` | the fenced store, the mirror that refines it, what change sets and the fence mean over any calls |
| `SessionLock`, `MemoryLock`, `FencedPods`, `FencedPodsTheorems`, `FencedPodsLeases` | epochs, leases, fencing and several pods with mirrors over one store |
| `EffectMarks`, `EffectGuard` | side-effect marks under interleaved claims, commits and reverts |
| `RedisStore`, `RedisScripts` | the Redis store as flat hashes, simulating the in-memory one |
| `Inbox`, `MemoryInbox`, `InboxDrain` | at-least-once delivery and the orchestrator's drain |
| `Archive`, `ArchiveFlush`, `ArchiveFlushTheorems`, `ArchiveFence`, `ArchiveAdapters` | the archive's fold and fence, and paged flushes that may die anywhere |
| `TokenBucket`, `BucketSchedule`, `AnyClock`, `RateLimiter` | rate limits, waits, lossless expiry, and clocks that go back |
| `Availability`, `Activation`, `Pruning`, `PruningChains` | capability fixpoints, lazy activation, backward reachability |
| `DurableStore`, `TakeoverGuard`, `TakeoverGuardTheorems` | optimistic concurrency on outputs, and the manager's per-session lock |

Conventions. A class is a name and its method resolution order, so `issubclass` is membership. An identity is a
class and a normalised value. Steps are the stretches between two awaits. Time is an integer in the loop and a
real in the lock and the buckets.

## Hypotheses the code does not give for free

- Fence before rehydrate: a pod reads the store only once the store's fence has reached its epoch. The flow
  fingerprint write (orcastork/orchestrator/orchestrator.py:552-576) does this only when the fingerprint differs.
  `FencedPodsTheorems.FenceFirstIffSafe` shows the hypothesis is exact.
- Termination: no deadline, emissions of declared types, boundedly many for each launch, declared types that form a
  tree as far as emitted types meet them, and permissions that are not withdrawn. Under these a flow stops exactly
  when every cycle of triggers, through `depends_on` and `uses` alike, is broken by an operator the breaker caps or
  one that does not rerun on new data (`LiteLoopConverse.StopsIffSettles`), which `find_cycles` on the graph of
  triggers tells before the session. An accepted flow without `uses` meets it (`LiteLoopTermination.AcceptedSettles`).
  With `uses` acceptance is not enough: those edges trigger reruns but stand outside the cycle check
  (orcastork_lite/graph.py:54-66), and the breaker takes its caps from the dependency graph alone, so even a declared
  cap may not count; `LiteLoopWitnesses.UsesCycleNeverStops` is such a flow.
- Redis `write` judges a batch against the hash read before it (orcastork/adapters/redis/store.py:156-169):
  `RedisStore.WriteAgreesIff` gives the exact condition for agreement, which distinct identities meet.
- Archive rows enter the buffer in sequence order. Without that, `ArchiveFlushTheorems.StaysRightIffSafe` says of
  every reachable state whether reads stay right from there, and `ArchiveFlushTheorems.LateInsertIff` says of the
  first late row, by what is committed and how far flushes in progress have got, whether it does lasting harm.
- Pruning follows operators' data but not capabilities' (orcastork/graph/reachability.py:40-64). Following both keeps
  every sink of every flow (`Pruning.ClosedFlowPreservesSinks`); the code keeps that larger closure exactly when every
  operator that feeds a kept capability is kept (`Pruning.KeepsLeastFlowIff`), as with capabilities that wait for no
  data. This is enough for the sinks, not necessary: a flow that fails it may have another way to them.
- Rate limits: the in-memory limiter keeps its rate on any clock (`AnyClock.MemoryKeepsRate`). The script, which clamps
  a backward step to no time at all and then counts the way forward again, keeps it exactly on readings that never go
  forward again after going back (`AnyClock.RateKeptIff`), although its comment takes clamping to be enough.
- Lossless expiry: the Redis server drops a key only when its time to live has passed on the callers' clock too, since
  the bucket is refilled by the clock they inject and dropped by the server's own.

Where the documentation and the code disagree the model follows the code: the module text of
orcastork/graph/cycles.py asks every cycle to contain an operator, the code asks it of every component;
`CycleRule.DocumentedRuleIff` says exactly when the two agree. The lite loop asks a relaunch to present the same delta
(orcastork_lite/orchestrator.py:561); it does so for data, not for capabilities (`LiteLoopTheorems.RetryDelta`).

## Model

| member | source | states |
|---|---|---|
| Tarjan.FindCycles | orcastork/graph/cycles.py:16-51 | terminates on every finite graph and returns exactly the components that hold a cycle, each once, pairwise disjoint; components are defined by mutual reachability, with no mention of indices or stacks |
| Tarjan.Search.StrongConnect | orcastork/graph/cycles.py:25-46 | one depth-first visit: everything reachable is discovered, every finished component is reported, the low link is the least index reachable through the open stack |
| Tarjan.Search.PopComponent | orcastork/graph/cycles.py:37-46 | the pop loop takes exactly the stack from the node up and leaves the rest |
| Tarjan.RootComponent | orcastork/graph/cycles.py:37-46 | when the low link equals the index, the stack from the node up is exactly a strongly connected component |
| Tarjan.CycleInsideOne | orcastork/graph/cycles.py:16-51 | every closed walk lies wholly inside one returned component |
| Tarjan.SccsDisjoint | orcastork/graph/cycles.py:16-51 | two different cyclic components share no node |
| Tarjan.CyclicSccHasEdges | orcastork/graph/cycles.py:45-46 | the size-or-self-loop test is right: each node of such a component lies on a closed walk of positive length |
| Digraph.OnCycleIff | orcastork/graph/cycles.py:17 | lying on a closed walk is having a successor from which one can come back |
| CycleRule.ValidateAcyclicOrBounded | orcastork_lite/graph.py:116-126 | accepts iff every node on a closed walk is capped when it is an operator and shares its component with some operator; each rejection names an offending component |
| CycleRule.CycleCaps | orcastork_lite/graph.py:129-136 | exactly the capped operators lying on a cycle, each with its own cap |
| CycleRule.DocumentedRuleIff | orcastork/graph/cycles.py:3-6 | every cycle holds an operator and only capped ones iff the code accepts the graph and the capability nodes alone hold no cyclic component, which a caller can compute first |
| CycleRule.CapabilityOnlyCycleAccepted | orcastork/graph/cycles.py:3-6 | declarations whose graph is accepted although a cycle of two capabilities holds no operator, against the documentation: a capped operator shares their component |
| LiteGraph.BuildEdges | orcastork_lite/graph.py:36-51 | an edge for every producer that may feed a consumer and every provider of a required capability, and no other |
| LiteGraph.EdgesByName | orcastork_lite/graph.py:28-51 | an operator has an edge to a consumer iff one of its products and one of the consumer's dependencies are in each other's resolution order, either way round; a capability iff its own order holds a required class |
| LiteGraph.EdgeIffShared | orcastork_lite/graph.py:28-33 | where types form a tree, the edge is there iff some type is both of a kind the operator produces and of a kind the consumer depends on, so nothing emitted can trigger along a missing edge |
| KeyedMerge.MergeMeaning | orcastork_lite/state.py:53-70 | a batch keeps the first observation of an identity, takes the latest time seen, keeps the add stamp and moves the update stamp iff something newer came; order and duplicates included |
| KeyedMerge.LatestIsMaximum | orcastork_lite/state.py:64-66 | the time kept is an upper bound of the batch that is attained |
| KeyedMerge.NoOpIffCovered | orcastork_lite/state.py:68-69 | a merge changes nothing iff every observation is already known at least as fresh: redelivery is idempotent |
| KeyedMerge.CoveredStays | orcastork_lite/state.py:53-70 | merged data stays merged under any later batch |
| KeyedMerge.MergeCovers | orcastork_lite/state.py:53-70 | everything presented is reflected after the merge |
| KeyedMerge.MergeAppend | orcastork_lite/orchestrator.py:495-506 | one merge of all queued emissions is the emissions merged in arrival order |
| KeyedMerge.MergeKeepsStamps | orcastork_lite/state.py:53-70 | stamps never pass the revision and an entry is not updated before it is added |
| SessionState.MergeTellsHistory | orcastork_lite/state.py:53-70 | after every merge the stamps still tell, for each past revision, the view shown then |
| SessionState.DeltaIsExact | orcastork_lite/state.py:81-106 | a delta is the difference between the current view and the view at the watermark, and laid over that view gives the current one |
| SessionState.SessionStore.MergeBatch | orcastork_lite/state.py:53-70 | the loop performs that merge, and reports a change iff some observation was not covered |
| SessionState.SessionStore.AdvanceWatermark | orcastork_lite/state.py:78-79 | sets one watermark and nothing else |
| LiteLoopSafety.StepKeepsInv | orcastork_lite/orchestrator.py:228-347 | every step of the loop and its environment keeps the invariant on running, retry, debounce, breaker, watermark and queue bookkeeping |
| LiteLoopSafety.RunKeepsInv | orcastork_lite/orchestrator.py:228-347 | the invariant holds in every state of every run |
| LiteLoopTheorems.DeltaExactness | orcastork_lite/orchestrator.py:239-256 | in every reachable state the delta an operator would get, and the one each run in flight got, is exact against the view of its last watermark-advancing run, so data merged while it ran is not lost |
| LiteLoopData.SessionIsOneMerge | orcastork_lite/orchestrator.py:495-516 | in every state of every run the session's data is one merge of the seed and of every emission merged so far, in the order sent, however the loop batched them |
| LiteLoopTheorems.RetryDelta | orcastork_lite/orchestrator.py:556-566 | a retry is given again all data its failed run was given, as fresh or fresher, and beyond it just what came since; of capabilities only ones the failed run did not have, never its news again |
| LiteLoopTheorems.WatermarksNeverMoveBack | orcastork_lite/orchestrator.py:546-582 | no watermark ever moves back or disappears |
| LiteLoopTheorems.QuiescenceIsReal | orcastork_lite/orchestrator.py:262-282 | a return without deadline leaves nothing running, queued or armed, every emission merged, and each operator tripped, not ready, or acted on everything that concerns it |
| LiteLoopTheorems.LaunchConservation | orcastork_lite/orchestrator.py:532-606 | launches are completions plus cancellations plus the run in flight; a capped operator launches at most its cap; armed retries are exactly the retry windows, and no lookup misses |
| LiteLoopTermination.BoundedLaunches | orcastork_lite/graph.py:116-136 | with no deadline, declared emissions, stable permissions, and every cycle of triggers broken by a capped or non-rerunning operator, each operator launches at most a number computed from caps, retry budgets and the graph of triggers |
| LiteLoopTermination.AcceptedSettles | orcastork_lite/graph.py:116-136 | an accepted flow without `uses` edges breaks every cycle of triggers: its caps are on each of them |
| LiteLoopTermination.SettlesIff | orcastork_lite/graph.py:80-136 | every cycle of triggers is broken iff the graph of triggers, stopped operators' edges left out, has no cyclic component |
| LiteLoopConverse.StopsIffSettles | orcastork_lite/orchestrator.py:228-293 | launches are bounded over all tame runs iff every cycle of triggers is broken by a capped or non-rerunning operator |
| LiteLoopConverse.GoesRound | orcastork_lite/orchestrator.py:237-281 | a cycle of triggers nothing breaks goes round for ever: with some seed and capabilities, a tame run makes any number of launches |
| LiteLoopConverse.LaunchedAgain | orcastork_lite/orchestrator.py:374-415 | an idle, ready operator with news is launched again, at once or when its coalescing window is over |
| LiteLoopTermination.AncestorsShrink | orcastork_lite/orchestrator.py:425-434 | off the cycles of triggers, a trigger of an operator has strictly fewer ancestors: the order the bound recurses on |
| LiteLoopTermination.RunAccounted | orcastork_lite/orchestrator.py:356-434 | the payment invariant: every launch is paid by new data, a new capability, a retry, or being the first |
| LiteLoopWitnesses.TameRunExists | orcastork_lite/orchestrator.py:243-256 | the hypotheses of the termination results, the accepted graph included, are met by a run that launches and emits |
| LiteLoopWitnesses.TameRetryOnCycle | orcastork_lite/orchestrator.py:546-606 | ... and by a run of a capped operator on a cycle of its own whose failure is to be retried |
| LiteLoopWitnesses.UsesCycleNeverStops | orcastork_lite/graph.py:54-66 | an accepted flow, tame in every way, whose `uses` edge closes a cycle nothing breaks: any number of launches, although its operator declares a cap |
| LiteLoopProgress.BoundedRun | orcastork_lite/orchestrator.py:228-293 | under the same hypotheses passes, drains and waits together are bounded, whatever the environment does |
| LiteLoopProgress.NeverStuck | orcastork_lite/orchestrator.py:262-282 | a loop that has not ended can always go on: plan with what was available, consume, wait out an armed window, or be signalled by a running operator |
| LiteLoopProgress.EndsQuiescent | orcastork_lite/orchestrator.py:262-282 | with no deadline a run that ends, ends quiescent |
| LiteLoopQuiescence.ReachesQuiescence | orcastork_lite/orchestrator.py:228-293 | however a tame run of a flow whose cycles of triggers are broken has gone, it goes on, staying tame, until it quiesces, in at most two steps for each loop step the bound still allows and one more |
| LiteLoopQuiescence.OneLoopStep | orcastork_lite/orchestrator.py:237-281 | ... each time by a pass with what was available, a drain, a window come due, or quiescing, after at most one completion or one wait |
| LiteLoopProgress.PassPlansExactlyDue | orcastork_lite/orchestrator.py:374-415 | a pass plans exactly the operators that may launch: idle, untripped, ready, and their retry due, never run, or rerun window over, each judged at its own clock reading |
| LiteLoopScheduling.PassesAreExact | orcastork_lite/orchestrator.py:237-415 | in every run, every pass: an operator is launched, on the current view, iff it is idle, below its cap, has each dependency and each required capability, and its retry is due, or it never ran, or there is news since the view it last acted on and its window is over; one due later keeps its window, a retry that lost its inputs is a terminal failure, nothing else changes, and the wait ends with the first window or at the deadline |
| LiteLoopScheduling.LaunchedHasInputs | orcastork_lite/scheduling.py:35-39 | in every run whatever a pass launches has merged data of each kind it depends on and an available capability of each kind it requires |
| LiteLoopScheduling.FirstRunIsLaunched | orcastork_lite/orchestrator.py:374-395 | conversely an idle operator below its cap, never run, with no retry armed and with those inputs is launched by the next pass |
| LiteLoopScheduling.ClockIs | orcastork_lite/orchestrator.py:237-285 | in every run time passes only as the clock ticks or a pass reads it |
| LiteLoopScheduling.LeftOnlyPastDeadline | orcastork_lite/orchestrator.py:237-285 | the loop is left for the deadline only when it has passed or cut a run |
| LiteLoopCompletions.CompletionsAreExact | orcastork_lite/orchestrator.py:532-606 | in every run, every drain: a success or last failure moves the watermark to what the run observed and clears the count; a failure is retried, its window armed and its watermark kept, iff the operator's own policy has attempts left and its cap runs; a cut run counts for nothing; others keep their entries |
| LiteLoopCompletions.CutAtTheDeadline | orcastork_lite/orchestrator.py:317-345 | in every run what still runs after the last drain is reported cancelled, and nothing runs on |
| LiteLoopBounds.LaunchOnePaid | orcastork_lite/orchestrator.py:425-434 | launching a planned operator keeps the payment account: its launches stay within what emissions, capabilities and retry budget have paid for |
| GatheringLoop.TakesIsRun | orcastork_lite/orchestrator.py:228-293 | steps taken from the seeded session are a run, so every theorem about runs holds of them |
| GatheringLoop.RunSession | orcastork_lite/orchestrator.py:180-196 | a whole in-place session is a run of the state machine; ended means nothing left in flight |
| GatheringLoop.Orchestrator.Gather | orcastork_lite/orchestrator.py:228-293 | the while loop, driven by any environment, passes only through enabled steps of the state machine |
| GatheringLoop.Orchestrator.OneRound | orcastork_lite/orchestrator.py:237-281 | one turn of the loop body is a sequence of enabled steps that ends at the top, ended, or blocked on a signal |
| GatheringLoop.Orchestrator.Settle | orcastork_lite/orchestrator.py:269-282 | after a pass: consume when signals came, go round when a window is due, block on a quiet operator, stop when nothing is armed |
| GatheringLoop.Orchestrator.DrainRemaining | orcastork_lite/orchestrator.py:317-347 | after the deadline queued completions are recorded before anything is cancelled, late signals after, and nothing stays in flight |
| GatheringLoop.Orchestrator.OnePass | orcastork_lite/orchestrator.py:237-268 | plan, launch, and the wake-up time clipped to the deadline |
| GatheringLoop.Orchestrator.PlanOn | orcastork_lite/orchestrator.py:374-415 | per operator, over the dictionaries: launch, arm or await a window, drop a retry that cannot run, or skip |
| GatheringLoop.Orchestrator.LaunchOperator | orcastork_lite/orchestrator.py:243-261 | records the capabilities and revision seen, starts the run, consumes the window it launched from |
| GatheringLoop.Orchestrator.ConsumeAll | orcastork_lite/orchestrator.py:495-516 | one merge for all queued emissions, then the completions in order |
| GatheringLoop.Orchestrator.RecordCompletion | orcastork_lite/orchestrator.py:532-566 | cut by the deadline, succeeded, retried with the old watermark, or terminally failed |
| GatheringLoop.Orchestrator.FinishRun | orcastork_lite/orchestrator.py:546-566 | counts the run; the watermark advances iff no retry is scheduled |
| GatheringLoop.Orchestrator.RecordFailure | orcastork_lite/orchestrator.py:556-566 | a scheduled retry keeps the armed failure and the watermark, otherwise the failure is terminal |
| GatheringLoop.Orchestrator.RecordTerminalFailure | orcastork_lite/orchestrator.py:568-582 | resets the attempt sequence and advances the watermark to what the run observed |
| GatheringLoop.Orchestrator.ScheduleRetry | orcastork_lite/orchestrator.py:598-606 | arms a window iff the policy has attempts left and the breaker is not tripped |
| GatheringLoop.Orchestrator.DropRetryOf | orcastork_lite/orchestrator.py:382-390 | a retry whose readiness was lost makes its failure terminal |
| GatheringLoop.Orchestrator.CancelAll | orcastork_lite/orchestrator.py:336-347 | whatever still runs is reported cancelled and forgotten |
| GatheringLoop.Orchestrator.RecordCut | orcastork_lite/orchestrator.py:537-545 | a run cut by the deadline flags it and is neither counted nor retried |
| DataPointStore.PutAddedMeaning | orcastork/adapters/memory/store.py:93-96 | resolved additions overwrite their entry with both stamps at the batch revision |
| DataPointStore.PutUpdatedMeaning | orcastork/adapters/memory/store.py:97-104 | resolved updates keep the add stamp, none for an unknown identity |
| DataPointStore.WriteKeepsValid | orcastork/adapters/memory/store.py:57-76 | entries stay keyed by their identity and stamps within the revision |
| StoreHistory.ChangesAreExact | orcastork/adapters/memory/store.py:114-118 | over any calls on any valid store, the change set since the revision of any earlier moment is the difference from the view then: added is exactly what was absent, updated exactly what was there with an older time |
| StoreHistory.RedisChangesAreExact | orcastork/adapters/redis/store.py:230-239 | the same of the hashes in Redis |
| StoreHistory.MirrorChangesAreExact | orcastork/orchestrator/mirror.py:176-200 | the same of a mirror primed for a moment before its rehydration, whatever is written through it |
| StoreHistory.SessionChangesAreExact | orcastork/orchestrator/mirror.py:113-117 | and of a mirror asked for any moment of its own session |
| StoreHistory.RowsAreResolved | orcastork/orchestrator/mirror.py:138-165 | the rows a mirror in step sends are new identities and strictly later observations of known ones, each once |
| StoreFence.RejectedIffSuperseded | orcastork/adapters/memory/store.py:48-55 | after any calls of any kind a call is rejected iff one of them had a higher epoch, and then changes nothing; Redis replies the same |
| StoreFence.FieldsAreLastWritten | orcastork/adapters/memory/store.py:124-182 | after any calls each watermark and the fingerprint are what the last accepted call that wrote them wrote |
| MemoryStore.InMemoryStore.Write | orcastork/adapters/memory/store.py:57-76 | the loop is the specified fenced merge, reply and fence included |
| MemoryStore.InMemoryStore.ApplyResolved | orcastork/adapters/memory/store.py:78-106 | applies both row lists blindly, in order, under the fence |
| MemoryStore.InMemoryStore.ClaimEffect | orcastork/adapters/memory/store.py:131-147 | each of the four claim results, and what it leaves in the mark |
| MemoryStore.InMemoryStore.CommitEffect | orcastork/adapters/memory/store.py:149-155 | only this epoch's own pending mark becomes committed |
| MemoryStore.InMemoryStore.RevertEffect | orcastork/adapters/memory/store.py:157-163 | only this epoch's own pending mark is deleted |
| MemoryStore.InMemoryStore.SetWatermark | orcastork/adapters/memory/store.py:124-129 | a guarded write: stale changes nothing, accepted raises the fence |
| MemoryStore.InMemoryStore.SetFingerprint | orcastork/adapters/memory/store.py:179-182 | a guarded write of the flow fingerprint |
| Mirror.MirrorRefinesStore | orcastork/orchestrator/mirror.py:79-200 | over any session, writing through a rehydrated mirror gives the store, stamps, revision and replies of direct writes, and snapshot, revision and every change set at or past rehydration or primed equal the store's |
| Mirror.WriteThroughIsWrite | orcastork/orchestrator/mirror.py:119-136 | one write through the mirror is one direct write; a fenced-off one touches neither side |
| Mirror.ResolveIsMerge | orcastork/orchestrator/mirror.py:138-165 | resolving a batch, duplicates included, finds exactly what merging it changes, and each outcome carries the value the store holds right after that observation |
| Mirror.RowsAreMerge | orcastork/adapters/memory/store.py:78-106 | applying the resolved rows blindly is merging the batch, and there are none iff it changes nothing |
| Mirror.ReadsAgree | orcastork/orchestrator/mirror.py:105-117 | every change set the mirror answers is the store's, which `StoreHistory` says is the true difference; it refuses exactly the unprimed earlier revisions |
| Mirror.BaselinedAgrees | orcastork/orchestrator/mirror.py:183-200 | a primed split overlaid with local stamps stays exact however much is written later |
| Mirror.PrimeKeepsSync | orcastork/orchestrator/mirror.py:91-103 | priming at any moment captures a split that answers for every change up to rehydration |
| Mirror.RehydrateSyncs | orcastork/orchestrator/mirror.py:79-89 | a fresh copy, with stamps forgotten, is in step |
| StateMirror.SessionStateMirror.Write | orcastork/orchestrator/mirror.py:119-136 | in place: resolve, forward, apply at the returned revision; before rehydration nothing happens |
| StateMirror.SessionStateMirror.Resolve | orcastork/orchestrator/mirror.py:138-165 | the loop over the batch fills the row dictionaries and outcomes as specified |
| StateMirror.SessionStateMirror.Apply | orcastork/orchestrator/mirror.py:167-174 | the local copy takes over the rows |
| StateMirror.SessionStateMirror.ReadChangeSet | orcastork/orchestrator/mirror.py:113-117 | local, baselined, or the error for an unprimed revision, as the function `StoreHistory.MirrorChangesAreExact` is about |
| StateMirror.SessionStateMirror.PrimeChangeBaseline | orcastork/orchestrator/mirror.py:91-103 | one capture per revision, none at or past rehydration |
| StateMirror.SessionStateMirror.Rehydrate | orcastork/orchestrator/mirror.py:79-89 | the full read, baselines discarded |
| SessionLock.StaleHolderIsHarmless | orcastork/adapters/memory/lock.py:52-76 | renew, release and mark_complete of a superseded epoch change nothing |
| MemoryLock.InMemorySessionLock.Acquire | orcastork/adapters/memory/lock.py:44-50 | in place, the acquire that `FencedPodsLeases.AcquireIff` is about: refused while a lease runs, otherwise the next epoch with a lease of the full time to live |
| MemoryLock.InMemorySessionLock.Renew | orcastork/adapters/memory/lock.py:52-56 | extends only the live lease of this epoch |
| MemoryLock.InMemorySessionLock.Release | orcastork/adapters/memory/lock.py:58-61 | drops only this epoch's lease |
| MemoryLock.InMemorySessionLock.MarkComplete | orcastork/adapters/memory/lock.py:69-76 | refused below the newest epoch |
| FencedPodsTheorems.EpochsAreFenced | orcastork/adapters/memory/lock.py:44-50 | in every run of any number of pods minted epochs strictly increase and accepted write epochs never decrease |
| FencedPodsTheorems.DeliveriesAreExact | orcastork/orchestrator/mirror.py:119-136 | every delivery, however late, lands as a direct merge into what the store held then and leaves the mirror in step, or is rejected and changes nothing |
| FencedPodsTheorems.ReadersAgree | orcastork/orchestrator/mirror.py:105-117 | while the fence stands at its epoch a pod's mirror answers what the store holds |
| FencedPodsTheorems.OnlyTheNewestActs | orcastork/adapters/memory/lock.py:52-76 | only the newest epoch completes the session, and no superseded call moves the lock |
| FencedPodsLeases.AcquireIff | orcastork/adapters/memory/lock.py:41-50 | in every run an acquire is refused, changing nothing, iff a lease runs: the last one granted or renewed in time, unreleased, before its start plus its time to live; from that end on it is granted the next epoch |
| FencedPodsLeases.NoneMintedBefore | orcastork/adapters/memory/lock.py:44-50 | in every run, after a grant or a renewal in time, no further epoch is minted before its time plus its time to live unless that epoch is released or renewed for less |
| FencedPodsLeases.RenewIff | orcastork/adapters/memory/lock.py:52-56 | in every run a renewal succeeds iff a lease of its own epoch runs, and it then stands with its own time and time to live |
| FencedPodsLeases.LeaseStands | orcastork/adapters/memory/lock.py:44-61 | in every state of every run the lock's lease is the one the history of grants, renewals and releases leaves standing |
| FencedPodsLeases.CompleteIff | orcastork/adapters/memory/lock.py:69-79 | in every run the session reads as complete iff some completion was accepted |
| FencedPods.StepKeepsInv | orcastork/orchestrator/mirror.py:79-136 | acquire, expiry, renew, release, fence, both rehydration reads, prime, send, deliver and crash, in any interleaving, keep in step every mirror whose epoch the fence still stands at |
| FencedPodsTheorems.FenceFirstIffSafe | orcastork/orchestrator/orchestrator.py:552-576 | rehydrating is safe against older writers if and only if the store's fence already stands at the pod's epoch |
| FencedPodsTheorems.UnfencedRehydrateDiverges | orcastork/orchestrator/orchestrator.py:552-576 | otherwise an admitted older writer makes the mirror overwrite an observation it never saw |
| EffectMarks.MarksConserved | orcastork/adapters/memory/store.py:131-163 | over any interleaving acquisitions are commits + reverts + reclaims + the pending one, a key commits at most once, and reclaims never exceed the newest epoch |
| EffectMarks.CommittedIsAbsorbing | orcastork/adapters/memory/store.py:149-163 | a committed mark never changes and is never acquired again |
| EffectMarks.StaleIsOlder | orcastork/adapters/memory/store.py:143-147 | a mark reported stale names a strictly older epoch, and reclaiming it raises the owner |
| EffectMarks.SkipRunsAtMostOncePlusReverts | orcastork/operators/effects.py:118-123 | without reclaiming, the body runs at most once more than its claims were reverted |
| EffectMarks.RerunBound | orcastork/operators/effects.py:124-138 | with reclaiming, at most once more for each epoch that took the mark over |
| EffectMarks.OncePerEpoch | orcastork/operators/effects.py:72-106 | within one epoch it never runs twice without a revert between |
| EffectMarks.AnsweredByHistory | orcastork/adapters/memory/store.py:131-147 | what a claim at the newest epoch is told, by the key's history: committed iff a commit landed, acquired iff nothing is pending or another epoch's is reclaimed, pending of this epoch iff its own acquisition was not reverted |
| EffectGuard.Guard.Once | orcastork/operators/effects.py:56-106 | an undisturbed attempt: when the body runs, and the mark it leaves on success, failure, or a lost final call |
| EffectGuard.Guard.Enter | orcastork/operators/effects.py:108-116 | the body runs iff the store acquired the claim |
| EffectGuard.Guard.Recover | orcastork/operators/effects.py:118-138 | SKIP leaves the unknown mark, RERUN claims it again and may lose the race |
| EffectGuard.Guard.Exit | orcastork/operators/effects.py:70-106 | commit after a clean body, revert after a failed one, neither when the call is lost |
| RedisStore.RedisSimulatesMemory | orcastork/adapters/redis/store.py:152-268 | any sequence of calls whose direct writes have distinct identities gives the replies, stamps, marks and change sets of the in-memory store |
| RedisStore.WriteAgreesIff | orcastork/adapters/redis/store.py:152-169 | a direct write agrees with the in-memory store if and only if it is rejected or, for each identity, the last position of the batch that counts has the greatest time and, for a new identity, the first position's other fields |
| RedisStore.LastIsLatestIff | orcastork/adapters/redis/store.py:156-168 | the value the last triple leaves is the merged one iff the batch's positions say so |
| RedisStore.RepeatedIdentityDiverges | orcastork/adapters/redis/store.py:156-168 | a repeated new identity makes the stores part: Redis keeps the later, older observation |
| RedisStore.DistinctAgrees | orcastork/adapters/redis/store.py:158-168 | distinct identities meet that condition |
| RedisStore.ApplySimulates | orcastork/adapters/redis/store.py:171-186 | a resolved batch, whatever it holds, has the same effect in both stores |
| RedisStore.ChangesSimulate | orcastork/adapters/redis/store.py:230-239 | the split read from the parallel hashes is the in-memory split; `StoreHistory.RedisChangesAreExact` says it is the true difference |
| RedisStore.ClaimSimulates | orcastork/adapters/redis/store.py:72-90 | the claim script is the in-memory claim |
| RedisStore.CommitSimulates | orcastork/adapters/redis/store.py:96-105 | the commit script is the in-memory commit |
| RedisStore.RevertSimulates | orcastork/adapters/redis/store.py:110-119 | the revert script is the in-memory revert |
| RedisStore.WatermarkSimulates | orcastork/adapters/redis/store.py:57-64 | the guarded field script is the in-memory guarded write |
| RedisStore.PrintSimulates | orcastork/adapters/redis/store.py:309-322 | the same script on the fingerprint is the in-memory guarded write |
| RedisScripts.RedisDataPointStore.WriteScript | orcastork/adapters/redis/store.py:36-50 | guard, INCR, and the HSET loop, in place |
| RedisScripts.RedisDataPointStore.Write | orcastork/adapters/redis/store.py:152-169 | reads the hash once and builds the triples against that reading |
| RedisScripts.RedisDataPointStore.ApplyResolved | orcastork/adapters/redis/store.py:171-186 | the supplied split is the mode of each triple |
| RedisScripts.RedisDataPointStore.ClaimEffect | orcastork/adapters/redis/store.py:72-90 | the claim script in place |
| Inbox.RemoveConserves | orcastork/adapters/memory/inbox.py:121-151 | ack and quarantine move one message and keep appended = pending + acked + quarantined, in append order |
| Inbox.AppendConserves | orcastork/adapters/memory/inbox.py:66-76 | a new message goes to the end of the pending ones |
| Inbox.SameIds | orcastork/adapters/memory/inbox.py:96-119 | delivery moves no message |
| MemoryInbox.InMemoryInbox.Consume | orcastork/adapters/memory/inbox.py:96-110 | claims unclaimed messages in order up to the limit, each with its new delivery count; a payload the parser refuses raises midway |
| MemoryInbox.InMemoryInbox.Reclaim | orcastork/adapters/memory/inbox.py:112-119 | re-presents every claimed message, counting the delivery |
| MemoryInbox.InMemoryInbox.Ack | orcastork/adapters/memory/inbox.py:121-130 | removes only a claimed message, under the fence |
| MemoryInbox.InMemoryInbox.Quarantine | orcastork/adapters/memory/inbox.py:132-151 | removes only a claimed message and records it once |
| InboxDrain.Drain.DrainInbox | orcastork/orchestrator/orchestrator.py:1307-1345 | however it ends, what was acked had been merged and nothing is lost; when it returns, each entry present at its start is merged and acked, or malformed and set aside, or its own store call failed and it is still claimed below the cap or set aside at it; when nothing crashes, fails or takes over, it returns, with every well-formed entry merged and acked, iff everything to deliver parses |
| InboxDrain.Drain.ApplyEntry | orcastork/orchestrator/orchestrator.py:1375-1403 | on its own: merged then acked, or, only if its own store call failed, kept for redelivery below the cap and set aside at it |
| InboxDrain.Drain.ApplyValid | orcastork/orchestrator/orchestrator.py:1322-1345 | one write for the batch and an ack each, or one at a time when the batch fails |
| InboxDrain.Drain.ApplyPoints | orcastork/orchestrator/orchestrator.py:1347-1373 | raises iff the store call itself fails, leaving entries and revision as they were; is fenced off only past its epoch or by bookkeeping; crashes only when the process does; else it returns with the batch merged |
| InboxDrain.Drain.SetEntryAside | orcastork/orchestrator/orchestrator.py:1405-1424 | out of delivery with a record carrying its delivery count |
| InboxDrain.Drain.AckApplied | orcastork/orchestrator/orchestrator.py:1343-1345 | acks an entry whose data is merged, and does so whenever the call neither fails nor is fenced off |
| InboxDrain.RedeliveryIsNoOp | orcastork/orchestrator/orchestrator.py:1329-1332 | after a crash before the ack, redelivering any part of the batch after any later writes leaves entries and revision alone |
| InboxDrain.DrainedAll | orcastork/orchestrator/orchestrator.py:1308-1313 | reclaim then consume present every message, claimed or not |
| InboxDrain.DrainedOnce | orcastork/orchestrator/orchestrator.py:1308-1313 | and present none of them twice |
| InboxDrain.CountsDeliveries | orcastork/adapters/memory/inbox.py:96-119 | a message's delivery count is how often it was delivered: each drain that disposes of nothing hands every message over exactly once |
| InboxDrain.Drain.Gather | orcastork/orchestrator/orchestrator.py:1308-1313 | everything claimed before, then everything new; undisturbed it succeeds iff all of it parses |
| Archive.FoldMeaning | orcastork/adapters/mongo/datapoint_archive.py:60-79 | folding in sequence order gives the first row's fixed fields and the largest time and epoch |
| ArchiveFlushTheorems.ReadsAreUninterrupted | orcastork/adapters/mongo/datapoint_archive.py:261-315 | however flushes are interrupted, between or inside a commit and its clear, a read is one uninterrupted fold of everything inserted: a read before a flush equals a read after it |
| ArchiveFlushTheorems.FullFlushCommitsAll | orcastork/adapters/mongo/datapoint_archive.py:194-259 | a flush that runs to its end has emptied the buffer into exactly that fold |
| ArchiveFlushTheorems.StaysRightIffSafe | orcastork/adapters/mongo/datapoint_archive.py:194-259 | in every run, rows in any order: all reads from a state on are right iff each committed key has its first row's fixed fields and each flush in progress comes first to a row with them for every other key |
| ArchiveFlush.StepKeepsInv | orcastork/adapters/mongo/datapoint_archive.py:141-259 | allocation, row-wise insert in sequence, paging, commit, clear and crashes of any number of writers and flushes keep the invariant |
| ArchiveFlush.StepKeepsShape | orcastork/adapters/mongo/datapoint_archive.py:141-259 | what holds whatever order rows come in: cleared rows are absorbed, pages ascend, committed times and epochs are those of rows, ranges never meet |
| ArchiveFlush.StepKeepsKey | orcastork/adapters/mongo/datapoint_archive.py:194-259 | flushing, and a row in sequence, never make a key unsafe: it has its first row's fixed fields or will get them from whichever flush comes to it first |
| ArchiveFlush.CommittedIsFirst | orcastork/adapters/mongo/datapoint_archive.py:204-206 | a key's first commit is always of its first row, even when a previous pass died before clearing |
| ArchiveFlushTheorems.LateInsertIff | orcastork/adapters/mongo/datapoint_archive.py:160-192 | after the first row that comes late, every read in every continuation is still the uninterrupted fold iff its key's first row stays first or has the same fixed fields, or the key is uncommitted and no flush in progress has passed the number |
| ArchiveFlushTheorems.LateInsertHappens | orcastork/adapters/mongo/datapoint_archive.py:155-159 | a superseded writer inserting after its successor's row was flushed reads wrong at once; inserting after a flush has read that row's page, wrong once the flush goes on |
| ArchiveFence.AllocationIff | orcastork/adapters/mongo/datapoint_archive.py:155-176 | in every run a batch is refused, changing nothing, iff an earlier one was led by a higher epoch; otherwise it gets the next numbers, one for each row, right after all given out before |
| ArchiveAdapters.MongoArchive.Flush | orcastork/adapters/mongo/datapoint_archive.py:194-259 | the paged loop folds the whole buffer in sequence order, empties it, and counts the rows |
| ArchiveAdapters.MongoArchive.ArchiveMany | orcastork/adapters/mongo/datapoint_archive.py:141-192 | one contiguous range per batch, appended in order, fenced by the first entry |
| ArchiveAdapters.InMemoryArchive.Flush | orcastork/adapters/memory/datapoint_archive.py:87-93 | folds the buffer into the committed rows and clears it |
| ArchiveAdapters.InMemoryArchive.Read | orcastork/adapters/memory/datapoint_archive.py:95-106 | what a flush and a read would return, with nothing written |
| ArchiveAdapters.InMemoryArchive.Archive | orcastork/adapters/memory/datapoint_archive.py:72-79 | a stale epoch changes nothing |
| TokenBucket.WindowBound | orcastork/adapters/memory/rate_limiter.py:34-44 | with a clock that does not go back, any interleaving of waiters is granted at most burst + rate * d per key in any window of length d |
| TokenBucket.WaitIsEnough | orcastork/adapters/memory/rate_limiter.py:41-44 | undisturbed, a waiter is granted after exactly the wait it was told and no sooner |
| BucketSchedule.ServedOnTime | orcastork/adapters/memory/rate_limiter.py:34-44 | the advertised rate is reached exactly: a caller that asks again at once and sleeps what it is told gets the first burst at once, and its n-th grant at start + (n - burst) / rate, after one sleep of 1 / rate |
| TokenBucket.SharedBucketAgrees | orcastork/adapters/redis/rate_limiter.py:24-46 | however keys expire past their time to live, every grant and wait is the one given without expiry, and the grants are the in-memory limiter's |
| TokenBucket.ExpiryIsLossless | orcastork/adapters/redis/rate_limiter.py:61-63 | forgetting a key after ceil(burst / rate) changes nothing the script does |
| TokenBucket.ScriptIsTurn | orcastork/adapters/redis/rate_limiter.py:24-46 | the script takes the in-memory turn; its wait is the same rounded up |
| AnyClock.MemoryKeepsRate | orcastork/adapters/memory/rate_limiter.py:34-44 | on any clock, from a turn reading a on, with no later turn of the key past a + d, at most burst + rate * d grants |
| AnyClock.ForwardBound | orcastork/adapters/redis/rate_limiter.py:35-46 | on any clock, with keys expiring late, the script grants from a turn on at most burst + rate * the forward moves between the key's consecutive turns |
| AnyClock.RateKeptIff | orcastork/adapters/redis/rate_limiter.py:35-46 | readings keep the script's advertised rate, for every rate, burst and repetition of them, iff they never go forward again after going back |
| AnyClock.ExpiryIsLosslessAnyClock | orcastork/adapters/redis/rate_limiter.py:61-63 | late expiry changes no verdict on any clock |
| AnyClock.BackwardClockOverdraws | orcastork/adapters/redis/rate_limiter.py:35-43 | with a clock that goes back the script grants any number in a window of length one |
| RateLimiter.InMemoryRateLimiter.Acquire | orcastork/adapters/memory/rate_limiter.py:34-44 | the loop, undisturbed, sleeps at most once |
| RateLimiter.InMemoryRateLimiter.TakeTurn | orcastork/adapters/memory/rate_limiter.py:36-43 | one turn in place |
| RateLimiter.RedisRateLimiter.RunScript | orcastork/adapters/redis/rate_limiter.py:24-46 | the script over the bucket's hash |
| RateLimiter.RedisRateLimiter.Acquire | orcastork/adapters/redis/rate_limiter.py:65-83 | the loop, undisturbed, sleeps at most once, with the key dropped or not before each run |
| RateLimiter.ScriptWaitIsEnough | orcastork/adapters/redis/rate_limiter.py:39-46 | the whole units a waiter is told are enough for its next run to be granted |
| Availability.ComputeAvailable | orcastork/capabilities/availability.py:61-81 | the least fixpoint, whatever the iteration order |
| Availability.AvailableMonotone | orcastork/capabilities/availability.py:6-8 | more data or permissions never take a capability away |
| Availability.AvailableEnters | orcastork/capabilities/availability.py:72-80 | every available capability has its data and its providers |
| Availability.AvailableIff | orcastork/capabilities/availability.py:46-80 | a capability is available iff it is registered and permitted, each dependency has a present subtype, and each required class an available provider, by class names |
| Activation.CapabilityActivator.Refresh | orcastork/capabilities/availability.py:158-220 | exposes what is available and built; a capability is attempted iff it is available, not built, neither terminal nor still cooling off by the clock, and providers of all it requires are built by the end, and the attempt leaves an instance or the next failure with its cool-off; nothing else moves, and if nothing available has failed or cools off, exactly what is available is exposed |
| Activation.CapabilityActivator.RecordFailure | orcastork/capabilities/availability.py:129-156 | one more failure, cooling off below max_attempts, terminal and reported once at it |
| Activation.CapabilityActivator.Activate | orcastork/capabilities/availability.py:185-212 | success caches the instance for good and forgets failures, failure counts one more; only after providers for everything it requires |
| Activation.FailureAccounted | orcastork/capabilities/availability.py:129-149 | a failure keeps: one success at most, failures within the budget, one report exactly at its end |
| Activation.LayeredNext | orcastork/capabilities/availability.py:175-187 | activation order stays base before layer |
| Activation.AllExposed | orcastork/capabilities/availability.py:175-184 | when no layer is ready nothing available is left out, unless something failed |
| Pruning.BackwardReachable | orcastork/graph/reachability.py:26-66 | the least sets of operators producing toward the sinks and of capabilities they require |
| PruningChains.KeptIffChain | orcastork/graph/reachability.py:26-66 | an operator is kept iff a chain leads from it to a sink, each producing for the next; a capability iff a chain leads from it to a kept operator, each providing for the next; by class names |
| PruningChains.PrunedCanRun | orcastork/capabilities/availability.py:46-80 | in the pruned flow an operator runs iff each dependency has a present subtype and each required class an available provider among the kept capabilities |
| Pruning.PruningPreservesSinks | orcastork/graph/reachability.py:26-66 | when every operator feeding a kept capability is kept, from any seed the sink types derivable with everything are those derivable with the backward closure |
| Pruning.ClosedFlowPreservesSinks | orcastork/graph/reachability.py:26-66 | ... and with the closure that follows capabilities' data too, with no hypothesis on the flow |
| Pruning.KeepsLeastFlowIff | orcastork/graph/reachability.py:40-64 | the code's closure is that one iff every operator feeding a kept capability is kept |
| Pruning.LeastFlowExists | orcastork/graph/reachability.py:26-66 | every flow has such a least closure |
| Pruning.PrunedRunShows | orcastork/orchestrator/orchestrator.py:256-285 | dropping the operators outside a closed part from any run leaves a run that shows everything needed |
| Pruning.UnfedCapabilityLosesSink | orcastork/graph/reachability.py:40-64 | a flow whose one provider waits for data only a dropped operator produces: the pruned flow never reaches the sink |
| DurableStore.FinalIsTerminal | orcastork/aggregation/helpers.py:42-64 | over any interleaving of reads and guarded writes a final output stays final, and the version is the number of accepted upserts |
| DurableStore.ReadsUnlessFinal | orcastork/aggregation/helpers.py:42-64 | in every run a helper goes on to write iff it is the final one or what it read is not final |
| DurableStore.AcceptedSawCurrent | orcastork/adapters/memory/durable_store.py:48-68 | no update is lost: in every run a write is accepted iff the document is still the one its helper read and no higher epoch wrote there, and is then the next version with the helper's status |
| DurableStore.InMemoryDurableStore.GuardedUpsert | orcastork/adapters/memory/durable_store.py:48-68 | stale, conflicting, or the next version; the fence rises even on a conflict |
| DurableStore.AggregationHelpers.UpsertNow | orcastork/aggregation/helpers.py:42-64 | an undisturbed helper stands down on a final output, is fenced off, or writes the next version with its status |
| TakeoverGuardTheorems.OneInsidePerSession | orcastork/manager/manager.py:120-144 | at most one caller of a session is inside, and all of them share the mapped lock |
| TakeoverGuardTheorems.EntryIffUsed | orcastork/manager/manager.py:127-144 | the map holds an entry exactly while some caller of the session uses it |
| TakeoverGuardTheorems.WaiterCanEnter | orcastork/manager/manager.py:135-144 | cancellations never leave the lock stuck |
| TakeoverGuard.StepKeepsInv | orcastork/manager/manager.py:120-144 | arrivals, grants, releases, cancellations and departures keep counts, holders and the map consistent |
| TakeoverGuard.SessionOrchestrationManager.Enter | orcastork/manager/manager.py:127-135 | mints or shares the entry and counts the caller before the lock is awaited |
| TakeoverGuard.SessionOrchestrationManager.Leave | orcastork/manager/manager.py:139-144 | counts the caller out, dropping only its own entry |

## Left out

- Published events, telemetry, logging, audit text and introspection: observers that change no scheduling state.
- The lists of added and updated DataPoints a lite merge returns; they feed only published events.
- Order inside returned tuples and dictionaries: views, change sets and committed rows are maps.
- How an operator's timeout is clipped: a run cut by the deadline is any failed completion so marked, in a session with a deadline.
- Jitter and the exponential schedule: a backoff delay is any natural number, and rounding in floating point is not modelled.
- The check that an emission is of a declared type only logs; undeclared emissions are merged in the model too.
- `build_uses_edges`, `restrict_to_permitted` and the lite `backward_reachable`: the first two render graphs, the third is the closure proved for the full engine.
- The full orchestrator's gathering loop, its aggregation tail and completion conditions: the lite loop holds the same scheduling; of the full one only the inbox drain and the pruning closure are modelled.
- The orchestrator prunes operators only and keeps every capability; the pruned run of the model has just the required ones, which is the smaller flow.
- Several sessions in one store, lock, inbox or archive: each is keyed by session, and the model is of one.
- The persisted session deadline in the stores: a guarded field like the fingerprint.
- In `FencedPods` a pod's store call and the arrival of its reply are one step; nothing of that pod can come between.
- In `RedisStore` the hash read and the script of one write are one step, as the orchestrator is the only writer of its session.
- In `InboxDrain` a successor may raise the fences and producers may append at every await, but no other pod delivers from the same inbox meanwhile.
- The inbox's wake-up event, and the entry identifiers: an identifier is the number of the append.
- Ciphers, sealing, the refusal of unprotected personal data, retention and millisecond rounding in the archives: a row's fields other than time and epoch are one opaque value.
- Sliding key lifetimes in Redis, except that of the rate limiter's bucket.
- A misconfigured limiter or retry policy is refused by its constructor; here those bounds are preconditions of the constructor.
- Set-adds and contribution markers of the durable store: of these only the raised fence is modelled.
- FIFO order of the takeover lock's waiters: any waiter may be let in, which allows more.
- Redis `reclaim` limits and reads of the Mongo archive racing a flush.
