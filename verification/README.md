# gpuscale: a verified model of its controllers

gpuscale runs GPU nodes at cloud providers for the models that have requests waiting. Its controllers share one
versioned store of *claims* and one outside world of *instances*. A claim asks for a node; the claim reconciler has an
instance created for it through the offer coordinator, follows it through its phases and ends it; the disruptor, the
interruption poller and the instance garbage collector end claims and instances too; the provision trigger and the
pod batcher create claims. This project models those parts in Dafny 4.11 and proves what they keep over every run.

Run `dafny verify dfyconfig.toml` in this directory to check everything.

## How it is built

**Claim lifecycle** (`Lifecycle*.dfy`, `Reconciler.dfy`, `InstanceGc.dfy`). A claim is the sequence of its stored
versions; a resourceVersion is a position in it. A read may return any earlier version; a status or spec update is
stored only if its snapshot is the newest version; the annotation merge patch is stored unconditionally. Every API call
is one step, so a crash, a lost call or any step of the other processes can fall between two calls. `Lifecycle` defines
that transition relation, the later modules prove invariants and theorems over all its runs. `Reconciler.Cluster`
holds the handlers as straight-line code whose every call is one such step with arbitrary interference in between; a
call may also be lost on the way or lose its answer. Each handler is proved to ask for exactly the calls its snapshot
and inputs require, and to extend a run, so the theorems hold at every point of the code. `InstanceGc.Collector` is the sweep over its field `candidates`, and `LifecycleSweep` shows
that every completed sweep of a run meets its contract.

**Demand to claims** (`Claims`, `Trigger`, `Bundling`, `QueuePass`, `Consolidation`, `ConsolidationRuns`,
`ProvisionTrigger`, `Caps`). The trigger's loops are methods proved against functions (`Bundle`, `Handle`, `Passed`),
and the promises are theorems about those functions and about runs in which claims of every origin come and go.

**Offer coordinator** (`Keys`, `Offers`, `Blacklist`, `Cache`, `Coordinator`, `CoordinatorTheorems`). Classes with the
program's maps as fields; a ghost history of bans and of attempts ties each method to what happened before it.

**Batching and idling** (`Matcher`, `Batching`, `Idle`, `Disruptor`, `DisruptorSteps`, `Floor`, `Backoff`).

Times are integers (nanoseconds where the program computes with durations), prices exact numbers. The one place where
the program's 64-bit arithmetic decides the result, the retry backoff, is modelled with the wrap-around.

## What the code does not keep

Where a promise turned out false of the code, the code is modelled as it is, a concrete run or input shows the failure,
and the exact condition is proved.

- *Terminated is final.* Not always: a Reconcile call that starts from a stale Pending version with the instance
  annotation reuses the instance, re-fetches a claim that was terminated meanwhile and writes Bootstrapping over it,
  because nothing checks the phase of the re-fetched object (internal/controller/reconciler.go:412-464). The stored
  phases stay monotone if and only if that write never hits an overtaken claim (`PhasesMonotoneExactlyWhen`, with the
  run `TerminatedClaimResurrected`).
- *The collector spares recorded instances.* It destroys the instance of a live claim if and only if the previous sweep
  found it orphaned and the whole gap from that sweep's provider listing to this one's claim listing lies between its
  creation and its recording, or its claim came back from Terminated since the claims were listed, or it is called "0"
  (`DestroysRecordedExactlyWhen`; one run for each: `RecordedInstanceDestroyed`, `ResurrectedInstanceDestroyed`,
  `InstanceZeroDestroyed`).
- *The disruptor destroys only what is draining.* If a Reconcile call starts from an older version than an earlier call
  did, as after a restart, it can take a draining claim back to Bootstrapping before the disruptor destroys its instance
  (`UndrainedInstanceDestroyed`). The stored phase is neither Draining nor Terminated at the destroy if and only if such
  a write has taken it back since and nothing has moved it on (`DestroysUndrainedExactlyWhen`). If the versions that
  calls start from never go back, however stale, it does not happen (`AdvancingDispatchesSuffice`).
- *The replica and node limits hold.* They hold at every point of a run if and only if no claim comes back from an
  ended phase while the limit is used up (`ReplicaCapExactlyWhen`, `NodeCapExactlyWhen`, with the run
  `RevivalExceedsLimit`); while phases never go back they hold (`ReplicaCap`, `NodeCap`). In the whole system a revival
  is a write of Bootstrapping over an overtaken claim (`RevivalIsOvertaken`), and with Reconcile calls that start fresh
  the limits hold throughout (`FreshKeepsCaps`).
- *The claims of one queue pass are disjoint.* If the claims cannot be listed after a trigger, a later trigger of the pass
  can make another claim for a model that was bundled (`ClaimsOverlap`). Two claims of a pass overlap if and only if the
  earlier one serves the model the later one was triggered for (`OverlapExactlyWhen`), which needs that every list in
  between failed (`PassDisjoint`).
- *The retry backoff is 30 s, doubled, at most 5 minutes.* The cap comes after a doubling loop that overflows: the
  promise is kept exactly up to the 29th retry and at ten later counts, and from the 55th retry on the wait is zero
  (`PromiseKeptExactlyWhen`).
- *A batch of pods is served by one node.* A merged request of several pods can be met by some offer if and only if they
  ask for at most one GPU together, because merging sums the counts and leaves several GPUs forbidden; pods asking for
  on-demand capacity get a spot request (`MergedSatisfiable`, `BatchOfferMeetsPods`).
- *Consolidation.* Two replicas of one model are packed into a claim that lists the model twice (`ReplicasArePacked`,
  `PackedClaimShape`). If the bin-packed claim is lost after it had single-model claims annotated, they are drained all
  the same (`GapAfterLoss`). A drain opens a gap if and only if no other Ready claim serves the model
  (`DrainOpensGapExactlyWhen`), which the check hasOtherReadyClaims would tell if it were made there (`MissingGuard`).
- *CooldownPeriod is a floor when a billing period is set* (api/v1alpha1/types.go:94-96). The code ignores it: an idle
  node is destroyed before its cooldown is over if and only if billing ticks are counted and the next one is at most a
  minute away (`CooldownUndercutExactlyWhen`), for instance one nanosecond after it became idle
  (`DestroyedBeforeCooldown`).
- *An idle streak is unbroken.* A busy look whose status write fails leaves the idle clock running
  (`FailedClearBridgesUse`).
- *MinReplicas is a floor.* A model falls below its minimum if and only if it is at it and loses a node that the minimum
  does not guard: one that serves it beside another primary model, or any if the minimum is one
  (`FallsBelowExactlyWhen`, over runs `FloorHoldsExactlyWhen`; `MinimumOfOneIsNotAFloor`).
- *MinNodes is a floor.* The count includes claims stuck in Draining or Hibernated, so the last working nodes can go if
  and only if some claim of the pool is stuck (`NodesFallBelowExactlyWhen`, over runs `NodeFloorHoldsExactlyWhen`;
  `NodeGuardPassesExactlyWhen`, `MinNodesIsNotAFloor`).
- *Cached offers fit the request.* The cache key leaves out MaxVRAM, NodeType, MinPCIeGen and MultiGpu, rounds the price
  and joins the GPU types into one text (`SharedEntry`, `TypesShareEntry`). When two requests share an entry, and when
  an offer for one then fits the other, is stated exactly (`SharedExactlyWhen`, `CachedOffersFitExactlyWhen`). The
  filter after the cache still makes the returned offer fit (`SuccessIsBestAvailable`). With an empty provider list
  every provider is searched but none is invalidated.
- *A refused rate-limiter wait is an error.* If the context is still alive then, ProvisionInstance returns neither a
  result nor an error (internal/coordinator/coordinator.go:167-169); `ReplyOk` allows exactly this case.
- *A claim asks for the disk its models need.* It does if and only if the demands could be read; otherwise it asks for
  no disk at all (`CreatedClaim`).
- *The queue pass scales up.* After the first successful trigger of a pass no model that is served already gets another
  replica in that pass (`ScaleUpOnlyFirst`).

## Model

| member | source | states |
|---|---|---|
| `LifecycleRuns.AtMostOneTracedCreate` | internal/controller/reconciler.go:298-464 | in every run, with stale reads, failed calls, crashes and interleaved controllers, a claim's successful creates number at most one more than those whose ID never reached its annotation or its status |
| `LifecycleRuns.CreateOnlyWhenUnrecorded` | internal/controller/reconciler.go:336-350 | an instance is created only while no stored version of the claim, past or present, names any instance |
| `LifecycleRuns.OnlyNewestRecorded` | internal/controller/reconciler.go:386-464 | the annotation and the status only ever name the most recent successful create, and once named it stays named |
| `LifecycleRuns.RunKeepsOwn` | internal/controller/reconciler.go:90-132 | the claim invariant and the unique ownership of every instance hold at every point of every run |
| `LifecycleInvariant.StepKeepsClaim` | internal/controller/reconciler.go:90-498 | every step of every controller preserves the invariant on versions, phases, recorded IDs and program counters |
| `LifecycleInvariant.WriteEvolves` | internal/controller/reconciler.go:339-464 | a stored version may only keep a recorded ID or add the newest one, and Status.InstanceID is filled exactly from Bootstrapping on |
| `LifecycleInvariant.NothingRecordedAtCreate` | internal/controller/reconciler.go:339-350 | the compare-and-swap to Provisioning proves that the snapshot without an annotation was current |
| `LifecycleInvariant.OthersKeepEarlyPhase` | internal/controller/interruption.go:69-81 | nobody but the reconciler changes the phase of a claim without an instance, and nobody else touches the annotation |
| `LifecycleSteps.StoresExactlyWhen` | internal/controller/reconciler.go:90-132 | a step stores a version exactly if it is a write on the stored version, a patch that works or another's edit, and the object exists |
| `LifecycleSteps.StoredVersion` | internal/controller/reconciler.go:111-132 | field by field what the stored version of each step changes and what it keeps |
| `LifecycleSteps.DestroyTakesInstance` | internal/controller/reconciler.go:1046-1066 | a destroy that works removes the instance of the snapshot it was decided on and no other; on deletion not one called "0" |
| `LifecycleSteps.InterruptionExactlyWhen` | internal/controller/interruption.go:69-81 | an interruption ends the claim exactly if it is Ready, Bootstrapping or Provisioning with an instance |
| `LifecyclePhases.DropsExactlyWhenOvertaken` | internal/controller/reconciler.go:412-464 | a step lowers the stored phase exactly if it is the last write of handlePending over a re-fetched claim already past Bootstrapping, and then the call started stale and reused an instance |
| `LifecyclePhases.StepMonotone` | internal/controller/reconciler.go:111-133 | one step keeps the phase history monotone exactly if it kept it so far and is not that write |
| `LifecyclePhases.PhasesMonotoneExactlyWhen` | internal/controller/reconciler.go:412-464 | over whole runs with all three writers, the phases of a claim never go back in rank if and only if that write never happened |
| `LifecyclePhases.TerminatedIsFinal` | internal/controller/reconciler.go:124-125 | with monotone phases a Terminated claim stays Terminated |
| `LifecyclePhases.FreshDispatchMonotone` | internal/controller/reconciler.go:93-96 | if every Reconcile call starts from the stored version, phases are monotone although every other read may be stale |
| `LifecyclePhases.DestroysOnlyOwnInstance` | internal/controller/disruptor.go:188-207 | whatever instance the reconciler or the disruptor destroys for a claim is the one recorded on it and was created for it |
| `LifecycleDrain.DestroysUndrainedExactlyWhen` | internal/controller/disruptor.go:188-198 | in every run, at a destroy by the disruptor the stored phase is neither Draining nor Terminated if and only if a write over the overtaken claim has taken it back since Draining was stored and no later version reached Draining again |
| `LifecycleDrain.DisruptorDestroysOnlyDrained` | internal/controller/disruptor.go:188-198 | while phases have not gone back, the disruptor destroys only when the stored phase is already Draining or Terminated |
| `LifecycleDrain.AdvancingDispatchesSuffice` | internal/controller/reconciler.go:93-133 | so it does in every run in which the versions that Reconcile calls start from never go back, however stale they are |
| `LifecycleDrain.RunKeepsDrain` | internal/controller/reconciler.go:604-626 | in such runs a claim drains only after it was Ready, and once it was Ready no call reuses an instance any more |
| `LifecycleDrain.WritesFrom` | internal/controller/disruptor.go:188-192 | Draining is only written over Ready, Ready only by a call that saw the claim booted, and no booted claim becomes unbooted |
| `LifecycleWitness.UndrainedInstanceDestroyed` | internal/controller/disruptor.go:188-198 | a concrete run in which the instance is destroyed while the stored phase is Bootstrapping |
| `LifecycleWitness.TerminatedClaimResurrected` | internal/controller/reconciler.go:308-464 | a concrete run in which a Terminated claim goes back to Bootstrapping, although no reader goes back in time |
| `LifecycleGc.DestroysRecordedExactlyWhen` | internal/controller/instancegc.go:68-146 | in every run, an instance recorded on a live claim is destroyed if and only if it was a candidate and the whole gap from the provider listing of the previous completed sweep to the claim listing of this one lies between its creation and its recording, or its claim came back from Terminated since that listing, or it is called "0" |
| `LifecycleGc.MonotoneNeverCameBack` | internal/controller/instancegc.go:79-82 | the second case needs phases that went back |
| `LifecycleGc.RecordedInTimeIsSafe` | internal/controller/instancegc.go:71-90 | an instance recorded before the sweep lists the claims survives the visit unless its claim has come back from Terminated since |
| `LifecycleGc.RunKeepsGc` | internal/controller/instancegc.go:92-145 | at every point of every run the candidates and orphans were listed after their creation, and the claim listing missed no earlier recording |
| `LifecycleGc.NextKeepsListed` | internal/controller/instancegc.go:78-90 | the set of known instances stays complete for everything recorded before the listing while other steps interleave |
| `LifecycleGc.NextKeepsKnown` | internal/controller/instancegc.go:78-90 | what the listing found stays recorded before it, is not "0" and stands on no claim that was Terminated then |
| `LifecycleGap.RecordedInstanceDestroyed` | internal/controller/instancegc.go:107-139 | a concrete run in which a recorded instance of a live claim is destroyed in the gap |
| `LifecycleGap.ResurrectedInstanceDestroyed` | internal/controller/instancegc.go:79-82 | one in which its claim was Terminated when the claims were listed and came back before the visit |
| `LifecycleGap.InstanceZeroDestroyed` | internal/controller/instancegc.go:83-89 | one in which an instance called "0", recorded long before, is destroyed |
| `LifecycleSweep.SweepInRun` | internal/controller/instancegc.go:68-146 | every completed sweep of a run, whatever happens between its steps, does exactly what the contract of `Collector.Sweep` says |
| `LifecycleSweep.LeftoverIsTried` | internal/controller/instancegc.go:79-82 | an instance left running by a Terminated claim is tried to be destroyed by a sweep that lists it again |
| `Reconciler.Cluster.Reconcile` | internal/controller/reconciler.go:90-133 | what one Reconcile call asks for follows from the version it reads first: the deletion handler's calls, or those of its phase after a missing finalizer is added, and nothing more once a read or update is not answered or a compare-and-swap is late; it extends a run, ends at rest, adds at most one create and keeps the create bound |
| `Reconciler.Cluster.ServedExactly` | internal/controller/reconciler.go:90-133 | the same call by call: which calls follow the first read for every snapshot, and that a Pending claim ends with the Bootstrapping write unless something is unreadable, unplaced, unanswered or overtaken |
| `Reconciler.Cluster.Undisturbed` | internal/controller/reconciler.go:298-464 | nothing went wrong if every call was answered and every compare-and-swap stored its version |
| `Reconciler.Cluster.HandlePhase` | internal/controller/reconciler.go:111-132 | the calls of every phase as a function of the snapshot and the inputs; a readable Pending claim asks to reuse the annotated instance or to create one and is carried to the Bootstrapping write unless the coordinator finds nothing or something goes wrong; only the Pending handler creates |
| `Reconciler.AskedFor` | internal/controller/reconciler.go:111-132 | per call instead of per phase: exactly when a Reconcile call asks for the first write, the resumption, Ready, the timeout, a destroy or Terminated, and that a destroy comes before the write |
| `Reconciler.DeletionAskedFor` | internal/controller/reconciler.go:1046-1090 | exactly when a deletion asks for a destroy and for the removal of the finalizer, in this order |
| `Reconciler.Cluster.HandlePending` | internal/controller/reconciler.go:198-467 | an instance is created exactly if pool and secret are readable, there is no annotation, the move to Provisioning is answered on a current snapshot and the coordinator places one; success means that the created or annotated instance stands on a stored Bootstrapping version; it fails only if something is unreadable, unplaced, unanswered or overtaken |
| `Reconciler.Cluster.ProvisionInstance` | internal/controller/reconciler.go:336-464 | without an annotation: created exactly if the move is answered and current and the coordinator places an instance, then recorded |
| `Reconciler.Cluster.CreateInstance` | internal/controller/reconciler.go:336-410 | the coordinator is asked exactly if the move to Provisioning is answered and current; then an instance is created and patched onto the claim, or the failure path is taken |
| `Reconciler.Cluster.Place` | internal/controller/reconciler.go:351-410 | what the coordinator places is created and patched, in this order; if it places nothing the claim goes back to Pending |
| `Reconciler.Cluster.ReuseInstance` | internal/controller/reconciler.go:308-335 | the annotated instance is recorded without a create, or a call was not answered or overtaken |
| `Reconciler.Cluster.Prepare` | internal/controller/reconciler.go:412-426 | the claim is re-fetched and names its provider before the status write, and every call was answered; or the call is over, because one was not or the update came too late |
| `Reconciler.Cluster.RecordInstance` | internal/controller/reconciler.go:412-464 | success means that every call was answered and a new stored version is Bootstrapping with the instance; failure that a call was not answered or a write came too late |
| `Reconciler.Cluster.WriteStatus` | internal/controller/reconciler.go:428-464 | the final compare-and-swap stores a Bootstrapping version exactly if the request arrives and the re-fetched snapshot is still current, and succeeds exactly if it is also answered |
| `Reconciler.Cluster.GiveUp` | internal/controller/reconciler.go:351-367 | a failed provision is followed by a re-fetch and, if that is answered, by the write back to Pending, and leaves the list of creates as it was |
| `Reconciler.Cluster.BackToPending` | internal/controller/reconciler.go:353-366 | the write back to Pending is asked for exactly if the re-fetch is answered |
| `Reconciler.Cluster.HandleBootstrapping` | internal/controller/reconciler.go:500-683 | exactly when each of Ready, destroy, Terminated and timeout is asked for, from what the provider and the agent say |
| `Reconciler.Cluster.HandleBootstrappingStandalone` | internal/controller/reconciler.go:604-683 | Ready with a connected agent, otherwise the timeout once the time is over |
| `Reconciler.Cluster.TerminateTimedOut` | internal/controller/reconciler.go:968-1001 | the destroy is asked for after the write and whether or not the write succeeded |
| `Reconciler.Cluster.HandleReady` | internal/controller/reconciler.go:696-817 | exactly when a Ready claim is terminated and when its instance is destroyed first |
| `Reconciler.Cluster.HandleDraining` | internal/controller/reconciler.go:139-196 | the destroy is asked for exactly if there is an instance and its provider is known; the claim is terminated unless that failed for another reason than the instance's absence |
| `Reconciler.Cluster.HandleHibernated` | internal/controller/reconciler.go:1005-1043 | the destroy is asked for exactly if there is an instance and its provider is known, Terminated always |
| `Reconciler.Cluster.HandleDeletion` | internal/controller/reconciler.go:1046-1090 | with a finalizer it is removed, after a destroy if there is an instance other than "0" whose provider is known; without one nothing happens |
| `Reconciler.Cluster.DestroyThenTerminate` | internal/controller/reconciler.go:1005-1043 | the destroy is asked for before the Terminated write |
| `Reconciler.Cluster.AddFinalizer` | internal/controller/reconciler.go:103-109 | the call goes on, with the version the update stored, exactly if the update is answered and the snapshot was current |
| `InstanceGc.Collector.Sweep` | internal/controller/instancegc.go:68-146 | a sweep tries to destroy exactly the listed, unshielded candidates, and the next candidates are the unshielded ones seen first or whose destroy failed; without a claim list nothing happens |
| `InstanceGc.SweptExactlyWhen` | internal/controller/instancegc.go:102-145 | for one ID: tried exactly if listed, not recorded by a claim other than a Terminated one, or called "0", and a candidate before; a candidate afterwards exactly if also not destroyed now |
| `InstanceGc.Collector.KnownInstances` | internal/controller/instancegc.go:78-90 | an ID is known exactly if it is not empty, not "0", and some claim that is not Terminated names it in status or annotation |
| `InstanceGc.Collector.Visit` | internal/controller/instancegc.go:102-140 | per provider: what is destroyed and what is an orphan afterwards |
| `Claims.CountActiveClaimsForModel` | internal/controller/provisiontrigger.go:574-586 | the number of claims that are neither Terminated, Draining nor Hibernated and have the model as primary or co-located one |
| `Claims.CountNodes` | internal/controller/disruptor.go:352-364 | the number of the pool's claims that are not Terminated |
| `Claims.CountIsCardinality` | internal/controller/provisiontrigger.go:574-586 | such a count is the number of positions that meet the condition |
| `Claims.ModelsServed` | internal/controller/reconciler.go:1171-1178 | the models looked up for a claim are those it serves, with the fallback to the single model of older claims |
| `Trigger.FindPool` | internal/controller/provisiontrigger.go:543-569 | the first pool of the configured name if one exists; otherwise the first that offers the node type, "standalone" if none is given; otherwise the first |
| `Trigger.PoolChosen` | internal/controller/provisiontrigger.go:543-569 | the same of the choice that the theorems about created claims and limits speak of |
| `Trigger.AlreadyCovered` | internal/controller/provisiontrigger.go:291-306 | whether some active claim serves the model |
| `Trigger.AggregateModelsForClaim` | internal/controller/provisiontrigger.go:240-329 | the loop computes the greedy bundle, its exact VRAM sum, the disk and the GPU types |
| `Bundling.BundleShape` | internal/controller/provisiontrigger.go:249-289 | a bundle starts with the primary model and, with more than one model, needs at most 96 GB |
| `Bundling.BundleDistinct` | internal/controller/provisiontrigger.go:261-311 | a bundle lists no model twice if no model is demanded twice |
| `Bundling.BundledExactlyWhen` | internal/controller/provisiontrigger.go:261-311 | a demanded model is bundled if and only if it is the primary one, or it has demand, the same node type, no active claim, and fits into 96 GB beside those bundled before its turn |
| `Bundling.BundleMaximal` | internal/controller/provisiontrigger.go:261-311 | no demanded, uncovered model of the node type that was left out could still be added to the finished bundle |
| `Bundling.NegativeVramBreaksMaximality` | internal/controller/provisiontrigger.go:280-289 | with a negative VRAM figure maximality fails |
| `Bundling.CreatedClaim` | internal/controller/provisiontrigger.go:147-214 | every field of the claim a trigger creates: models, the VRAM sum, the ceiling and types of a single model and none for several, price, the disk of VRAM plus 50 if and only if the demands could be read, the configured pool if it exists and otherwise one that offers the node type, and the node type |
| `Bundling.CreatesExactlyWhen` | internal/controller/provisiontrigger.go:100-214 | a trigger creates a claim if and only if the model is known, has no replica or fewer than MaxReplicas, has requests waiting if it is served already, its pool has room and no read or create fails; it ends without claim and error exactly at the limit or with nothing waiting |
| `Bundling.PackedClaimShape` | internal/controller/provisiontrigger.go:409-466 | a bin-packed claim lists the two models, needs their exact sum, within 96 GB, disk plus 50, has no price limit, types or ceiling, goes to the configured pool if it exists, carries the consolidation mark and stops further packing of the pair |
| `Bundling.ReplicasArePacked` | internal/controller/provisiontrigger.go:364-383 | two Ready replicas of one model are packed together exactly if it fits twice and no bin-packed claim contains it |
| `QueuePass.PassComplete` | internal/controller/provisiontrigger.go:479-531 | after a pass every model with queued or active demand whose trigger did not fail is served by a claim that is neither Terminated nor Draining |
| `QueuePass.VerdictExactlyWhen` | internal/controller/provisiontrigger.go:494-531 | a turn is skipped exactly if nothing is queued or active, or a list after an earlier successful trigger showed the model on a claim neither Terminated nor Draining; every other turn triggers |
| `QueuePass.PassDisjoint` | internal/controller/provisiontrigger.go:494-531 | two claims made in one pass share at most the later one's primary model, and nothing if the claims could be listed after a successful trigger in between |
| `QueuePass.OverlapExactlyWhen` | internal/controller/provisiontrigger.go:498-531 | they overlap if and only if the earlier one serves the model the later one was triggered for |
| `QueuePass.ClaimsOverlap` | internal/controller/provisiontrigger.go:516-531 | a concrete pass in which they do, because the claims could not be listed after the first trigger |
| `QueuePass.ScaleUpOnlyFirst` | internal/controller/provisiontrigger.go:498-531 | after a successful trigger a demanded model is tried if and only if no claim that is neither Terminated nor Draining serves it |
| `QueuePass.TriggerServes` | internal/controller/provisiontrigger.go:117-140 | a trigger that does not fail leaves the model with an active claim |
| `QueuePass.CreatedServes` | internal/controller/provisiontrigger.go:291-306 | a trigger bundles no model that an active claim serves already |
| `QueuePass.HandledKept` | internal/controller/provisiontrigger.go:516-531 | every model marked as handled is served |
| `ProvisionTrigger.ProvisionTrigger.HandleTrigger` | internal/controller/provisiontrigger.go:100-223 | the outcome is `Handle` and its claim, if any, is added, for every failing read |
| `ProvisionTrigger.ProvisionTrigger.StartReplica` | internal/controller/provisiontrigger.go:147-223 | the pool, limit and create part of it |
| `ProvisionTrigger.ProvisionTrigger.ReconcileQueues` | internal/controller/provisiontrigger.go:479-536 | the pass makes exactly the claims of `Passed`, and the check after it adds at most one, for a pair of the claims listed before the pass |
| `ProvisionTrigger.MarkHandled` | internal/controller/provisiontrigger.go:520-529 | handled grows by exactly the models that claims neither Terminated nor Draining serve |
| `ProvisionTrigger.ProvisionTrigger.CheckConsolidation` | internal/controller/provisiontrigger.go:337-386 | at most one claim is made, for the first fitting, unpacked pair of some group; nothing to pack is reported exactly if there is no such pair |
| `ProvisionTrigger.ProvisionTrigger.CreateBinPackedClaim` | internal/controller/provisiontrigger.go:409-474 | which claim is made, and that without any pool there is none to take a name from |
| `Consolidation.FindPair` | internal/controller/provisiontrigger.go:340-386 | whatever order the groups are visited in: the first pair of some group, or no group has one |
| `Consolidation.OpportunityExactlyWhen` | internal/controller/provisiontrigger.go:340-383 | two claims can be packed exactly if both are Ready with one known model each, in one pool and of one node type, need at most 96 GB together, and no claim neither Terminated nor Draining lists both |
| `Consolidation.GroupExactlyWhen` | internal/controller/provisiontrigger.go:355-356 | for pool names without '/' a group is one pool and one node type |
| `Consolidation.Groups` | internal/controller/provisiontrigger.go:341-357 | the map holds, per pool and node type, exactly the Ready single-model claims with a configuration, in order |
| `Consolidation.PairIn` | internal/controller/provisiontrigger.go:364-383 | the lexicographically first fitting, unpacked pair of a group |
| `Consolidation.BinPackedClaimExists` | internal/controller/provisiontrigger.go:390-405 | whether a claim neither Terminated nor Draining lists both models |
| `ConsolidationRuns.ConsolidationNeverOpensGap` | internal/controller/reconciler.go:874-926 | in runs of consolidation, boots and boot failures the set of models with a Ready claim never shrinks |
| `ConsolidationRuns.AnnotatedIsCovered` | internal/controller/reconciler.go:892-925 | in every run an annotated claim has one model, and a Ready bin-packed claim contains it unless one with it has stopped being Ready |
| `ConsolidationRuns.DrainOpensGapOnlyAfterLoss` | internal/controller/disruptor.go:103-107 | in every run a consolidation drain takes the last Ready node from a model only if a bin-packed claim with it stopped being Ready before |
| `ConsolidationRuns.DrainOpensGapExactlyWhen` | internal/controller/disruptor.go:103-107 | a drain leaves a served model without a Ready node if and only if no other Ready claim serves it |
| `ConsolidationRuns.MissingGuard` | internal/controller/reconciler.go:1111-1134 | in every run with distinct names that is exactly when hasOtherReadyClaims, with the claims listed, would answer no |
| `ConsolidationRuns.HasOtherReadyClaims` | internal/controller/reconciler.go:1111-1134 | whether the claims can be listed and a Ready one of another name serves the model |
| `ConsolidationRuns.RunKeepsInv` | internal/controller/reconciler.go:874-926 | the covering invariant holds at every point of every run |
| `ConsolidationRuns.ConsolidationDrain.TriggerConsolidationDrain` | internal/controller/reconciler.go:874-926 | once all its models are loaded, exactly the other active single-model claims that serve one of them and whose update succeeds are annotated |
| `ConsolidationRuns.AnnotatingIsAStep` | internal/controller/reconciler.go:892-925 | what that method does is a step of the runs |
| `ConsolidationRuns.GapAfterLoss` | internal/controller/disruptor.go:103-107 | a concrete run in which the annotated claim is drained although its replacement is gone |
| `Caps.ReplicaCapExactlyWhen` | internal/controller/provisiontrigger.go:112-145 | the trigger-made active claims for a model, primary or bundled, stay within the largest limit read at every point of a run if and only if none comes back while as many are active |
| `Caps.ReplicaCap` | internal/controller/provisiontrigger.go:112-145 | while no phase goes back the replica limit holds throughout, whatever other claims come and go |
| `Caps.ReplicaOvershoot` | internal/controller/provisiontrigger.go:112-145 | otherwise it is exceeded by no more than the number of claims that came back |
| `Caps.NodeCapExactlyWhen` | internal/controller/provisiontrigger.go:157-166 | the trigger-made claims of a pool that are not Terminated stay within the largest MaxNodes read if and only if none comes back from Terminated while it is used up |
| `Caps.NodeCap` | internal/controller/provisiontrigger.go:157-166 | while no phase goes back the node limit holds throughout |
| `Caps.NodeOvershoot` | internal/controller/provisiontrigger.go:157-166 | otherwise it is exceeded by no more than the number of claims that came back |
| `Caps.ExceedsExactlyWhen` | internal/controller/provisiontrigger.go:112-166 | one event exceeds a limit if and only if it brings a claim back when the limit is used up |
| `Caps.OwnReplicaCount` | internal/controller/provisiontrigger.go:574-586 | what the replica limit counts: trigger-made claims neither Terminated, Draining nor Hibernated that serve the model |
| `Caps.OwnNodeCount` | internal/controller/provisiontrigger.go:157-163 | what the node limit counts: trigger-made claims of the pool that are not Terminated |
| `LifecycleCaps.RevivalIsOvertaken` | internal/controller/reconciler.go:412-464 | if the phases in the claim store are those of a lifecycle run, whatever brings a claim back is a write of Bootstrapping over an overtaken claim |
| `LifecycleCaps.FreshKeepsCaps` | internal/controller/provisiontrigger.go:112-166 | and with Reconcile calls that start from the stored version both limits hold throughout |
| `LifecycleCaps.StepSettlesOrBoots` | internal/controller/reconciler.go:111-133 | any other lifecycle step keeps an inactive claim inactive |
| `Caps.TriggerRespectsLimit` | internal/controller/provisiontrigger.go:112-128 | one trigger never lifts the count of a model above its limit, whichever claims exist besides |
| `Caps.TriggerRespectsMaxNodes` | internal/controller/provisiontrigger.go:157-166 | one trigger never lifts the count of a pool above its limit |
| `Caps.RevivalExceedsLimit` | internal/controller/provisiontrigger.go:122-128 | a concrete run with two active claims at a limit of one, because a Terminated claim came back |
| `Keys.PrefixHits` | internal/coordinator/cache.go:111-115 | when exactly the prefix test hits a key of another provider |
| `Keys.KeysCollide` | internal/coordinator/blacklist.go:27-29 | two providers can share a key if and only if one name extends the other by ':' |
| `Keys.KeyInjective` | internal/coordinator/blacklist.go:27-29 | without ':' in provider names a key determines provider and rest |
| `Offers.FilterByRequirements` | internal/coordinator/filter.go:13-50 | the loop keeps, in order, exactly the offers that meet every hard constraint |
| `Offers.AdmitsExactlyWhen` | internal/coordinator/filter.go:13-50 | the hard constraints without division: enough GPUs, VRAM, disk and memory, VRAM below the ceiling per GPU, price, capacity, and one GPU unless more are allowed |
| `Offers.KeepParts` | internal/coordinator/filter.go:13-50 | keeping goes part by part, so nothing is reordered, repeated or dropped |
| `Offers.IsPreferredGpu` | internal/coordinator/filter.go:53-74 | a type is preferred exactly if it contains or is contained in a wanted name, ignoring case |
| `Offers.ContainsParts` | internal/coordinator/filter.go:53-74 | a text contains another exactly if it is something, the other, and something |
| `Offers.BetterIsStrictWeakOrder` | internal/coordinator/coordinator.go:141-154 | the comparator is irreflexive, transitive and has transitive ties |
| `Offers.BetterComesFirst` | internal/coordinator/coordinator.go:141-154 | in a sorted list a strictly better offer stands before a worse one |
| `Offers.SortOffers` | internal/coordinator/coordinator.go:141-154 | a permutation in which preferred types come first, within equal preference GPU counts never decrease, within equal counts prices never decrease, and within equal prices reliability never increases |
| `Blacklist.OfferBlacklist.Add` | internal/coordinator/blacklist.go:32-36 | adds a ban with the default time to live to the history |
| `Blacklist.OfferBlacklist.AddWithTtl` | internal/coordinator/blacklist.go:40-44 | the same with its own time to live |
| `Blacklist.OfferBlacklist.Cleanup` | internal/coordinator/blacklist.go:54-59 | dropping what has expired changes no answer |
| `Blacklist.OfferBlacklist.Filter` | internal/coordinator/blacklist.go:48-70 | with lazy cleanup, the result is exactly, in order, the offers whose last ban has expired or does not exist |
| `Blacklist.OfferBlacklist.Size` | internal/coordinator/blacklist.go:73-85 | counts exactly the keys blocked by the history |
| `Blacklist.BanIsPerOffer` | internal/coordinator/blacklist.go:27-29 | for provider names without ':' the last ban under a key is the last ban of that very offer |
| `Blacklist.BanAdded` | internal/coordinator/blacklist.go:32-44 | a later ban replaces an earlier one of the same key and touches no other |
| `Cache.OfferCache.GetOffers` | internal/coordinator/cache.go:59-104 | a young entry is returned without a search, otherwise a successful search is stored and a failed one leaves the cache as it was |
| `Cache.OfferCache.Invalidate` | internal/coordinator/cache.go:107-117 | removes exactly the keys with the prefix and keeps the other entries |
| `Cache.InvalidateHits` | internal/coordinator/cache.go:107-117 | whose entries an invalidation removes, for any names |
| `Cache.InvalidateExact` | internal/coordinator/cache.go:107-117 | for names without ':' exactly the named provider's |
| `Cache.SharedExactlyWhen` | internal/coordinator/cache.go:39-54 | two requests share a provider's entry if and only if they agree on GPU count, VRAM, price in cents, capacity type, joined types, disk and memory |
| `Cache.CachedOffersFitExactlyWhen` | internal/coordinator/cache.go:39-54 | an offer that fits one of them fits the other exactly if it meets the VRAM ceiling, the several-GPUs flag and the exact price |
| `Cache.SharedEntry` | internal/coordinator/cache.go:39-54 | whatever MaxVRAM, NodeType, MinPCIeGen and MultiGpu are, the entry is the same, although the request may then admit nothing |
| `Cache.TypesShareEntry` | internal/coordinator/cache.go:40-43 | no types and the type "any", or two types and one with a comma, give the same entry |
| `Cache.TypesFieldInjective` | internal/coordinator/cache.go:40-43 | otherwise, for nonempty names without a comma of which none is "any", the joined text determines the list |
| `Cache.KeyOfProvider` | internal/coordinator/cache.go:44-53 | for one request the key determines the provider |
| `Cache.DecimalInjective` | internal/coordinator/cache.go:44-53 | a number is determined by its decimal form, which has no ':' |
| `Cache.MoneyInjective` | internal/coordinator/cache.go:44-53 | so are the cents by a price with two decimals |
| `Coordinator.Coordinator.ProvisionInstance` | internal/coordinator/coordinator.go:100-258 | every call yields a chain of at most MaxAttempts attempts and a reply that fits the last one: exhausted exactly if the last permitted attempt spent its offers, no offers exactly if it had none, a permanent error exactly if the last attempt met one, cancelled exactly if the context was; short of these there is another attempt |
| `Coordinator.Coordinator.AttemptOnce` | internal/coordinator/coordinator.go:113-248 | one attempt tries, in sorted order, exactly the gathered offers that are admitted and not banned, as limiter and providers answer, and records its bans |
| `Coordinator.Coordinator.TryOffers` | internal/coordinator/coordinator.go:156-248 | the walk over the list: which entries were called with which outcome, that only a permanent error, a success, a rate limit, a refused wait or the end of the list ends it, and what was banned |
| `Coordinator.Coordinator.TryOne` | internal/coordinator/coordinator.go:171-243 | an unregistered provider is skipped; expired and conflicting offers are banned, others are not |
| `Coordinator.Coordinator.GatherOffers` | internal/coordinator/coordinator.go:262-316 | the offers are the concatenated answers of the resolved providers; a cached entry that stays young is the answer, and without one, or with one too old, the provider's search is |
| `Coordinator.Resolve` | internal/coordinator/coordinator.go:299-316 | the registered providers named, all of them if none is named |
| `Coordinator.FlatHolds` | internal/coordinator/coordinator.go:288-296 | an offer is gathered exactly if some provider that answered gave it |
| `Coordinator.Coordinator.InvalidateProviders` | internal/coordinator/coordinator.go:319-323 | exactly the keys of the given names go; none for an empty list |
| `CoordinatorTheorems.SuccessIsBestAvailable` | internal/coordinator/coordinator.go:117-212 | the returned offer passes the filter for this request whoever filled the cache, and every gathered, admitted, unbanned offer not tried before it is no better: not preferred over it, with equal preference not of fewer GPUs, with equal count not cheaper, at the same price not more reliable |
| `CoordinatorTheorems.TriedBeforeFailed` | internal/coordinator/coordinator.go:156-248 | what was tried before the winner expired, conflicted or failed transiently, or has no registered provider |
| `CoordinatorTheorems.AtMostOneSuccess` | internal/coordinator/coordinator.go:199-212 | at most one create succeeds in a call; it is the last one and the call reports its offer |
| `CoordinatorTheorems.RetriesAreFresh` | internal/coordinator/coordinator.go:131-134 | every attempt after the first starts without a cached search of any named provider, for whatever request |
| `CoordinatorTheorems.RetriesSearchAgain` | internal/coordinator/coordinator.go:131-134 | with named providers a later attempt takes what their searches give then, nothing from the cache |
| `CoordinatorTheorems.RetriesAreSpaced` | internal/coordinator/coordinator.go:250-335 | another attempt follows only one in which everything failed or nothing was available, only in a live context, and after two seconds more each time, up to ten |
| `CoordinatorTheorems.BannedNotRetried` | internal/coordinator/coordinator.go:216-224 | an offer banned in one attempt is not on the list of a later one whose filter runs before the ban expires |
| `CoordinatorTheorems.FailedNotRetriedWithinTtl` | internal/coordinator/coordinator.go:216-224 | in particular not within the time to live after the filter of the attempt in which it failed |
| `CoordinatorTheorems.BansGrow` | internal/coordinator/coordinator.go:216-224 | no ban of an attempt is forgotten in a later one |
| `Matcher.MergeRequirements` | internal/scheduler/matcher.go:95-146 | a merged request as `IsMerge` describes it, with the cases of no and of one request |
| `Matcher.MergedFields` | internal/scheduler/matcher.go:95-146 | of several requests it has the least minimums that cover all of them, the least positive price limit, and on-demand capacity exactly if one asks for it |
| `Matcher.SumOfParts` | internal/scheduler/matcher.go:104-131 | the GPU counts are summed and the type lists joined in order |
| `Matcher.Deduplicate` | internal/scheduler/matcher.go:131-143 | keeps the first occurrences, in order |
| `Matcher.MergeStrengthens` | internal/scheduler/matcher.go:95-146 | an offer admitted for the merged request is admitted for exactly those members that ask for no capacity type or for the merged one |
| `Matcher.MergedSatisfiable` | internal/scheduler/matcher.go:104-110 | a merged request can be met if and only if the members ask for at most one GPU in all |
| `Matcher.DistinctIsFirstOccurrences` | internal/scheduler/matcher.go:131-143 | the merged types are the same set, without repetition, in the order of first occurrence |
| `Batching.ProvisioningController.Reconcile` | internal/controller/provisioner.go:61-116 | a waiting pod joins exactly if claims are missing and it is not provisioned for; the partition and the timer invariant are kept |
| `Batching.ProvisioningController.TakeBatch` | internal/controller/provisioner.go:119-128 | the batch a timer takes is the whole pending one and never empty |
| `Batching.ProvisioningController.FinishBatch` | internal/controller/provisioner.go:135-270 | all pods of a batch are named by one new claim and stay provisioned for, or all are released, whatever other batches do |
| `Batching.ProvisioningController.ReleaseProvisioningLocks` | internal/controller/provisioner.go:344-350 | releases exactly the pods of the batch |
| `Batching.ProvisioningController.MakeClaim` | internal/controller/provisioner.go:189-254 | the claim names the batch's pods and asks for the merged request with the pool's defaults |
| `Batching.OneClaimPerPod` | internal/controller/provisioner.go:94-128 | a pod named by a claim is named once, by no other claim, and is in no pending or running batch, so it is never batched again |
| `Batching.Joins` | internal/controller/provisioner.go:100-101 | adding a new pod keeps every pod in exactly one place |
| `Batching.Releases` | internal/controller/provisioner.go:344-350 | releasing a running batch keeps every other pod in its one place |
| `Batching.Names` | internal/controller/provisioner.go:217-254 | handing a running batch over to a claim keeps every pod in exactly one place |
| `Batching.PickModel` | internal/controller/provisioner.go:147-161 | the last always-active model wins unless a later one has more demand than all since |
| `Batching.BatchOfferMeetsPods` | internal/controller/reconciler.go:280-290 | an offer found for a batch meets every pod's request, except that on-demand pods get a spot instance |
| `Batching.BatchSatisfiable` | internal/controller/reconciler.go:280-290 | some offer can meet a batch's request if and only if its pods ask for at most one GPU in all |
| `Idle.WaitEndsBeforeTick` | internal/controller/disruptor.go:323-332 | the wait ends exactly a minute before the next billing tick, is at most a period less a minute, and is zero exactly if the tick is at most a minute away |
| `Idle.WaitEndsWithCooldown` | internal/controller/disruptor.go:334-342 | without billing ticks the wait ends when the cooldown is over and is zero exactly from then on |
| `Idle.WaitIsStable` | internal/controller/disruptor.go:323-332 | looking again before the end of the wait gives the same end, and at the end zero |
| `Idle.TickFrom` | internal/controller/disruptor.go:324-326 | the division finds the first multiple of the period after now |
| `Idle.UndercutExactlyWhen` | internal/controller/disruptor.go:320-342 | a destroy is due before the cooldown is over if and only if billing ticks are counted and the next one is at most a minute away |
| `Idle.BillingIgnoresCooldown` | internal/controller/disruptor.go:323-332 | with a billing period neither idle time nor cooldown changes the wait |
| `Idle.IdleSinceIsStart` | internal/controller/disruptor.go:269-276 | IdleSince is the time of the first look that could start the clock after the last one that cleared it |
| `Idle.UnbrokenExactlyWhen` | internal/controller/disruptor.go:92-140 | the node was unused at every conclusive look since then if and only if every look that found it in use could write its status |
| `Idle.FailedClearBridgesUse` | internal/controller/disruptor.go:110-119 | a busy look with a failing write leaves the clock running |
| `Disruptor.DisruptionController.ReconcileStandalone` | internal/controller/disruptor.go:76-140 | in terms of what was read: a claim is destroyed if and only if its instance died, or no model is always active and consolidation asked for it, or also none is wanted, the node reports itself idle, it waited long enough and no minimum holds it back; otherwise a use clears the idle clock and the first look without one starts it; at every conclusive look between that and an idle destroy, if its writes worked, nothing used the node |
| `Disruptor.StreakIsQuiet` | internal/controller/disruptor.go:92-140 | while the clock runs, every conclusive look since it started whose writes worked found no model always active or wanted and the node idle |
| `Disruptor.QuietExactlyWhen` | internal/controller/disruptor.go:92-140 | and every conclusive look at all did exactly if each that found a use could write its status |
| `Disruptor.DisruptionController.HandleIdleClaim` | internal/controller/disruptor.go:254-314 | the idle part of it, with the wait it answers |
| `Disruptor.CooldownUndercutExactlyWhen` | internal/controller/disruptor.go:254-314 | an idle node is destroyed before its cooldown is over exactly if nothing else holds it and a billing tick is at most a minute away |
| `Disruptor.DestroyedBeforeCooldown` | internal/controller/disruptor.go:269-313 | two looks at a node with a cooldown of two minutes, the second one nanosecond after the first, end in an idle destroy |
| `Disruptor.DisruptionController.AtMinimum` | internal/controller/disruptor.go:286-310 | when MinNodes and MinReplicas hold a node back, including failed lists |
| `Disruptor.DisruptionController.ClearIdle` | internal/controller/disruptor.go:95-119 | the clock is cleared exactly if the write succeeds |
| `Disruptor.DisruptionController.DestroyWorker` | internal/controller/disruptor.go:188-207 | Draining is stored before the destroy call and Terminated only after it; in which phase it ends and whether the instance runs on, for every failure |
| `Disruptor.TerminatedButRunning` | internal/controller/disruptor.go:198-207 | a claim ends Terminated with a running instance exactly if the destroy call failed |
| `Floor.FloorHoldsExactlyWhen` | internal/controller/disruptor.go:294-310 | over whole runs a model that reached its minimum stays at or above it if and only if no such destroy hits it at the minimum |
| `Floor.FloorHolds` | internal/controller/disruptor.go:294-310 | in runs of idle destroys, boots and additions without an unguarded destroy, a model that reached its minimum never falls below it, with any number of claims stuck in Draining |
| `Floor.FallsBelowExactlyWhen` | internal/controller/disruptor.go:294-310 | one event breaks the minimum if and only if the model is at it and loses a node that serves it beside another primary model, or any node at a minimum of one |
| `Floor.MinimumOfOneIsNotAFloor` | internal/controller/disruptor.go:297 | the only node of a model with a minimum of one can be destroyed |
| `Floor.NodesFallBelowExactlyWhen` | internal/controller/disruptor.go:286-292 | one event takes the working nodes of a pool below the minimum if and only if it destroys one of the last ones while a claim of the pool is stuck |
| `Floor.NodeGuardPassesExactlyWhen` | internal/controller/disruptor.go:286-292 | with as many working nodes as the minimum, one may go exactly if a claim of the pool is stuck in Draining or Hibernated |
| `Floor.NodeFloorHoldsExactlyWhen` | internal/controller/disruptor.go:286-292 | over whole runs the working nodes stay at or above the minimum if and only if none of the last ones is destroyed while a claim of the pool is stuck |
| `Floor.NodeFloorHolds` | internal/controller/disruptor.go:286-292 | in runs in which no claim of the pool is stuck at an idle destroy, the working nodes never fall below the minimum |
| `Floor.StuckIsTheDifference` | internal/controller/disruptor.go:352-364 | the count exceeds the working nodes exactly if a claim is stuck |
| `Floor.MinNodesIsNotAFloor` | internal/controller/disruptor.go:352-364 | one node stuck in Draining and one Ready: a minimum of one does not hold the Ready one |
| `DisruptorSteps.IdleDestroyIsAStep` | internal/controller/disruptor.go:286-313 | an idle destroy that the disruptor makes is a step of these runs, then one that settles the claim |
| `DisruptorSteps.ConsolidationDestroyIsAStep` | internal/controller/disruptor.go:103-107 | a consolidation destroy is a drain step of the consolidation runs |
| `DisruptorSteps.WorkerTakesSteps` | internal/controller/disruptor.go:188-207 | a destroy is a sequence of the disruptor's lifecycle steps that ends in the phase `DestroyWorker` leaves, aims at the claim's own instance and succeeds exactly if that does not run on |
| `Backoff.BackoffDuration` | internal/controller/reconciler.go:1207-1218 | the loop in 64-bit arithmetic gives the wrapped product, capped: 30, 60, 120, 240 and then 300 seconds up to the 29th retry |
| `Backoff.PromiseKeptExactlyWhen` | internal/controller/reconciler.go:1205-1218 | the documented progression holds if and only if the retry count is at most 29 or one of ten later ones; from 55 on the wait is zero |
| `Backoff.NoOverflowUpTo29` | internal/controller/reconciler.go:1210-1212 | up to the 29th retry nothing overflows |
| `Backoff.PromisedMonotone` | internal/controller/reconciler.go:1205-1206 | the documented progression grows and stays between 30 seconds and 5 minutes |
| `Backoff.PromisedValues` | internal/controller/reconciler.go:1205-1206 | it is 30, 60, 120, 240 and then 300 seconds |

## Left out

- Provider clients and adapters (pkg/provider): a provider is an arbitrary answer to create, get, list and destroy, with non-empty instance IDs that are unique across providers.
- Redis and Postgres (demand store, worker store, claim writer): demand, queue depth, always-active, loaded and idle flags are inputs; the events written for history are not modelled.
- pkg/provider/selector.go and internal/controller/binpacking.go: simpler duplicates of the coordinator's filter and sort, and a decision without a caller.
- Conditions, retry counters, endpoints and prices on a claim's status; the provider name on the status stands and falls with the instance ID.
- Bootstrap scripts, pool reconciler, metrics, wiring, and the removal of loaded-model keys and of Kubernetes node objects.
- Several controller replicas: one process runs each controller; a restart is a lost program counter.
- The debounce of provision messages and the tickers: a trigger or a pass may happen at any time.
- The pool limits MaxGPUs and MaxCostPerHour: they are compared with totals before a creation and bound nothing afterwards; a reached limit is an input of `FinishBatch`.
- Read errors that the disruptor counts as no demand (internal/controller/disruptor.go:148-151): such a look appears as one without demand.
- LifecycleGc.DestroysRecordedExactlyWhen: assumes that the claim list is the stored state at the moment of listing, not an older cache.
- QueuePass.PassComplete: assumes that lists within a pass see the claims the pass has made.
- QueuePass.PassDisjoint: the same except for the lists that fail, and says nothing of the claim the consolidation check adds.
- Caps.ReplicaCap: assumes that listing and creating are one step; claims are told apart by origin through their model list and the consolidation annotation.
- Caps.NodeCap: the same, and so for the other members about limits.
- Consolidation.GroupExactlyWhen: pool names are taken to be without '/', as the names of objects are.
- Consolidation.OpportunityExactlyWhen: the same.
- Cache.TypesFieldInjective: GPU type names are taken to be nonempty, without a comma and not "any"; `TypesShareEntry` shows why.
- Cache.SharedExactlyWhen: capacity types and GPU type names are taken to be without ':', as the separator of the key.
- Floor.FloorHolds: assumes fresh successful reads of the configuration and of the claims, and that only idle destroys end active claims.
- Floor.NodeFloorHolds: the same; a failed list counts as no nodes and then holds every node.
- ConsolidationRuns.ConsolidationNeverOpensGap: Ready claims that end for other reasons are excluded there; what happens with them is stated by `DrainOpensGapOnlyAfterLoss`.
- Bundling.BundleMaximal: VRAM figures are taken to be non-negative; `NegativeVramBreaksMaximality` shows why.
- Bundling.BundleDistinct: demands are the keys of a map in the program, hence the assumption that each model is demanded once.
- Offers.SortOffers: the library sort may order ties in any way and works in place; here it is an insertion sort on values, and only sortedness and the permutation are used.
- Offers.IsPreferredGpu: lower-casing covers ASCII letters only.
- Cache.OfferCache.GetOffers: calls are sequential; the sharing of one search among concurrent callers is not modelled, and prices in keys are rounded half up as exact decimals.
- Coordinator.Coordinator.ProvisionInstance: what providers, rate limiters and the context answer is one input of the call; create errors come classified.
- Coordinator.Coordinator.GatherOffers: the providers are asked one after the other instead of at once.
- Blacklist.OfferBlacklist.Filter: the clock never goes back.
- CoordinatorTheorems.RetriesAreFresh: other callers that fill the cache between two attempts are not modelled.
- Idle.WaitEndsBeforeTick: durations are unbounded integers, and the claim was provisioned before now.
- Backoff.BackoffDuration: the loop counter is an unbounded integer; only the duration wraps.
- Batching.ProvisioningController.FinishBatch: the reads between taking and finishing a batch are one input.
- Consolidation.FindPair: groups are visited in an arbitrary order, as Go visits a map; candidates are positions in the list instead of pointers.
