# kafka-batch-go: a verified model

This project models, in Dafny, the parts of kafka-batch-go where several parties race: the batch
ledger scripts and the client that reserves and rolls back job numbers, the weighted-fair
scheduler and its forwarders, the exclusive partition allocator, the two out-of-order offset
executors, the cron search with its misfire planner, and the working set that owns claimed jobs.

`dafny verify dfyconfig.toml` checks everything. Each module follows one component:

| module | component |
|---|---|
| `Collections`, `Kafka` | options, intervals, set sizes; topic partitions |
| `BatchLedger` | one batch: bitmaps, counters, seal, allocator, stamps; convergence |
| `LedgerStore` | the scripts step by step over all batches; status counts and the running index |
| `CompletionGate` | which jobs a granted callback stands for, over every run |
| `GatePrompt` | the other half: what is due is granted, at once and once, and replies tell what happened |
| `SealHazard`, `SealSafety` | how a seal opens that gate too early, and exactly when |
| `Delivery`, `BulkPush` | correlating produce results, chunking, reserve and rollback |
| `FairScheduler`, `LaneEffects`, `FairRuns` | the throughput lane, what each script does key by key, and its runs |
| `FairShare`, `LeasePairing`, `Forwarder` | the fairness bound, lease pairing, no loss |
| `TenantPartitions` | exclusive tenant partitions |
| `SuperFetch` | claim-and-ack dispatch |
| `Watermark`, `WatermarkRuns` | contiguous-prefix commits |
| `Calendar`, `CronSearch`, `Misfire` | civil time, the jumping search, fire planning |
| `WorkingSet` | fenced ownership |

Scripts are atomic functions from state to state; the classes and loops beside them carry out the
same script or method step by step and are proved equal to the function, and the theorems are
about runs of those functions. What a script computes is also said without it: replies by the change
they announce, shares by inequalities, weekdays by the civil day count, leases and entries key by
key. A bitmap is the set of its set bits. Answers of Redis, Kafka, the
clock and job code are parameters or unconstrained choices, so a theorem holds for each of them.
Where a class groups its keys in one record (`lane`, `table`, `use`), the record's fields are the
fields or Redis keys of the source.

## Where the code does not meet the property

The model keeps the code as it is; each item has a concrete counterexample and the exact or
sufficient condition.

- A seal writes a zero at bit `total_jobs`, which is the bit of sequence number `total_jobs + 1`
  (pkg/store/lua.go:263-270). After a rollback that number can belong to a live job: a recorded
  event is wiped while its counter stays, and a redelivered event then counts twice, so
  `on_success` can fire with a live job that never ran, and the rollback of that job is refused as
  closed (`SealHazard.SealCanFireEarly`). The conditions are exact. The counters survive a seal, and
  rollbacks stay open past it, if and only if the bit is clear (`BatchLedger.SealKeepsLedgerIffClean`,
  `SealSafety.RollbackOpenIffWipesNothing`). A callback or the terminal status can come before every
  live job has run, succeeded or finished, as the case may be, if and only if the bit is set in the
  bitmap that counts towards it and some live job is missing there (`SealSafety.SealSafeIff`). Without
  rollbacks the bit is always clear (`SealHazard.NoRollbackIsLegal`).
- Only an event or a seal looks at the counters. A rollback on a sealed batch can leave it with every
  live job done and nothing granted, and every later event of those jobs is a duplicate
  (`GatePrompt.RollbackStrands`, `GatePrompt.StrandedSilent`); the reconciler, which is not modelled,
  has to find it. A rollback leaves nothing overdue if and only if it does not make the touch bitmap
  cover the live set (`GatePrompt.RollbackPromptIff`).
- Sealing a batch without jobs finishes it without a touch bitmap, so later events are dropped as
  duplicates (`BatchLedger.EmptySealLosesEvents`).
- A claim takes a job from an owner with a live heartbeat if and only if the stored owner id is
  the empty string (`WorkingSet.StealsLiveOwnerIffNameless`); such an owner is reachable
  (`WorkingSet.NamelessOwnerRobbed`).
- A renewal is two pipelined writes, not one step (pkg/fairness/scheduler.go:193-207). A sweep between
  them can leave a global lease without its tenant lease (`LeasePairing.SplitRenewalLosesPair`). The
  pair survives if and only if the tenant set is not pruned at or after the old expiry in between
  (`LeasePairing.SplitRenewalIff`, `LeasePairing.SweepKeepsInvIffSpares`). A renewal by a client whose
  clock lags the sweeper's by more than the lease loses the pair as well
  (`LeasePairing.LaggingRenewalIff`, `LeasePairing.LaggingRenewalLosesPair`).
- The cron search looks five years ahead, but 29 February can be eight years away. A schedule for
  that date alone loses its next run after 2096 and then fires at minutes that do not match. The
  search succeeds from every minute, and backfill ticks telescope, if and only if the expression has
  a date in every year (`Misfire.EndlessIffYearly`, `Misfire.TelescopesIffYearly`).
- A failed job, or a gap in the offsets, can wedge the watermark window: completed offsets behind it
  keep their slots (`WatermarkRuns.FailureWedges`, `WatermarkRuns.GapWedges`). Without both it cannot,
  whatever is redelivered (`WatermarkRuns.FullWindowMoves`).

The comment on `Plan.NewNext` says "strictly after now" (pkg/cron/schedule.go:65); a capped
backfill tick may resume in the past, as the code intends. The comment on the watermark
`InFlightCount` speaks of commits (pkg/daemon/watermark.go:125), but the counter drops at
completion.

## Model

| member | source | states |
|---|---|---|
| `BatchLedger.RecordKeepsCounts` | pkg/store/lua.go:49-88 | recording an event keeps every counter equal to its bitmap's size and ok, failed disjoint within touched |
| `BatchLedger.DoneJobKeepsCounts` | pkg/store/lua.go:15-168 | the whole completion script keeps the counters truthful |
| `BatchLedger.DoneJobRecords` | pkg/store/lua.go:49-168 | the callback gate never alters the bitmaps, and an accepted event leaves the batch recording |
| `BatchLedger.DoneJobFollows` | pkg/store/lua.go:15-168 | an event changes neither total_jobs nor the allocator, clears no stamp and cancels nothing |
| `BatchLedger.SealFollows` | pkg/store/lua.go:253-321 | the same of a seal |
| `BatchLedger.SealKeepsLedgerIffClean` | pkg/store/lua.go:262-270 | a seal keeps the counters truthful iff the bit of seq total + 1 is clear; a running batch keeps recording iff it has jobs or a touch bitmap |
| `BatchLedger.SealKeepsBitmaps` | pkg/store/lua.go:253-321 | a seal that wipes nothing leaves bitmaps, total and allocator alone |
| `BatchLedger.RunSummarises` | pkg/store/lua.go:49-88 | after any run of events, adds and clean seals the bitmaps read exactly as the set of (seq, op) pairs says |
| `BatchLedger.RunKeepsCounts` | pkg/store/lua.go:49-88 | every run whose seals are clean keeps the counters truthful |
| `BatchLedger.Converges` | pkg/store/lua.go:49-88 | two runs with the same set of (seq, op) pairs, in any order and duplication, end with equal bitmaps and counters |
| `BatchLedger.EmptySealLosesEvents` | pkg/store/lua.go:282-297 | on every running batch without jobs and touch bitmap, an event before the seal is recorded and the same event after it is dropped |
| `BatchLedger.SealWipesALiveSeq` | pkg/store/lua.go:263-270 | a seal after a rollback breaks a counter |
| `LedgerStore.RecordEvent` | pkg/store/lua.go:49-88 | the GETBIT and SETBIT sequence computes the recorded batch, and says whether anything changed |
| `LedgerStore.FireCallbacks` | pkg/store/lua.go:108-168 | the HSETNX claims compute the stamps and the reply |
| `LedgerStore.LockAndAllocate` | pkg/store/lua.go:255-270 | lock stamp and bitmap writes of a seal |
| `LedgerStore.Store.CreateBatch` | pkg/store/lua.go:212-231 | create and its index updates as one step; an existing id is left alone |
| `LedgerStore.CompleteJob` | pkg/store/lua.go:22-168 | the script on one batch, step by step: guards, record, verdict and claims |
| `LedgerStore.Store.BatchDoneJob` | pkg/store/lua.go:15-168 | hash, counts and running index after a completion event, and the reply |
| `LedgerStore.Store.SealBatch` | pkg/store/lua.go:253-321 | the same for a seal |
| `LedgerStore.Store.AddBatchJobs` | pkg/store/lua.go:234-250 | reserve or shrink, the refusals, and the window handed out |
| `LedgerStore.Store.UpdateBatchStatus` | pkg/store/cancel.go:16-32 | transition of a running batch only, with counts and index, and the four replies |
| `LedgerStore.Store.MarkFinishedIfRunning` | pkg/store/lua.go:344-353 | finish only if running, with counts and index |
| `LedgerStore.ApplyCounted` | pkg/store/lua.go:117-128 | every call keeps each status count equal to the number of batches in it and the index exact |
| `LedgerStore.AccountingExact` | pkg/store/lua.go:288-297 | over every interleaving of calls on many batches, counts and running index are exact |
| `LedgerStore.StatusAbsorbing` | pkg/store/cancel.go:20-22 | no batch ever leaves a terminal or cancelled status |
| `LedgerStore.OthersUntouched` | pkg/store/lua.go:15-353 | a call changes at most the batch it names |
| `LedgerStore.CallTakesEffect` | pkg/store/lua.go:15-353 | and stores there what the script makes of it |
| `LedgerStore.RunIsolated` | pkg/store/lua.go:15-353 | over every interleaving of calls on many batches each batch is what its own calls alone make of it |
| `LedgerStore.CreateMeans` | pkg/store/lua.go:212-231 | only a create brings a batch into being, running and with nothing recorded or claimed, and no call removes one |
| `LedgerStore.StatusCallMeans` | pkg/store/cancel.go:16-32 | a status update or a finish moves exactly a running batch to the status asked for and changes nothing else of it |
| `LedgerStore.RunIndexed` | pkg/store/lua.go:117-128 | over every interleaving whose status updates only cancel, the done index is the finished batches and the cancelled index the cancelled ones |
| `CompletionGate.Thresholds` | pkg/store/lua.go:96-115 | a counter reaches total_jobs only when its bitmap covers the live set |
| `CompletionGate.ReportSound` | pkg/store/lua.go:96-168 | an event of a produced job keeps the invariant and grants only what it may |
| `CompletionGate.SealSound` | pkg/store/lua.go:272-321 | a seal that wipes nothing does the same |
| `CompletionGate.StepSound` | pkg/store/lua.go:96-321 | every step of client, workers, seal and cancel does the same |
| `CompletionGate.GateSound` | pkg/store/lua.go:96-168 | on runs whose seals wipe nothing: on_success only if every live job succeeded, on_complete only if every live job ran, terminal only if every live job is settled |
| `CompletionGate.GrantedOnceIffStamped` | pkg/store/lua.go:130-168 | from any state and over any actions, completion and seal together grant each callback exactly once if its stamp is set on the way and never otherwise: at most once, and no claim without its grant |
| `CompletionGate.LiveFrozenAfterGrant` | pkg/store/lua.go:234-241 | over any actions, the live set never changes after the first grant |
| `CompletionGate.RollbackNeverClosed` | pkg/store/lua.go:234-250 | on runs whose seals wipe nothing: while a reserved number is unproduced, the negative AddJobs on an uncancelled batch applies and total_jobs is the size of the live set |
| `CompletionGate.WindowsDisjoint` | pkg/client/batch.go:177-214 | from any state, windows of two reservations have the size asked for and share no number, whatever happens between |
| `GatePrompt.EventReply` | pkg/store/lua.go:15-168 | an event is invalid, or a duplicate iff it changes nothing, or its reply names exactly the callbacks whose stamps it set, early iff the batch still runs |
| `GatePrompt.SealReply` | pkg/store/lua.go:298-321 | the reply of a seal does the same, and the batch is sealed |
| `GatePrompt.RepliesTell` | pkg/store/lua.go:15-321 | so after any actions at all |
| `GatePrompt.EventPrompt` | pkg/store/lua.go:96-168 | after a recorded event on a sealed, uncancelled batch with jobs: all succeeded means on_success is granted, all ran means on_complete is, all settled means the batch has finished |
| `GatePrompt.SealPrompt` | pkg/store/lua.go:272-321 | the same after a seal of a running batch; without jobs it succeeds on the spot |
| `GatePrompt.RollbackPromptIff` | pkg/client/bulk.go:190-192 | a rollback leaves nothing overdue iff it does not make the touch bitmap cover the live set of a sealed batch |
| `GatePrompt.GateExact` | pkg/store/lua.go:96-321 | over every run with no wiping seal and no stranding rollback that leaves a sealed, uncancelled batch with jobs: on_success was granted once if every live job succeeded and never otherwise, on_complete likewise for jobs that ran, and the batch is finished iff every live job is settled |
| `GatePrompt.RollbackStrands` | pkg/client/bulk.go:181-193 | a reachable batch all of whose live jobs succeeded and that granted nothing |
| `GatePrompt.StrandedSilent` | pkg/store/lua.go:62-88 | no event of its jobs changes it any more |
| `GatePrompt.AddGrantedIff` | pkg/store/lua.go:234-250 | after any actions jobs can be added or taken off iff the batch runs and on_complete has not been granted; a reservation then gets exactly the next n numbers, and total_jobs and allocator are exact |
| `SealHazard.NoRollbackIsLegal` | pkg/store/lua.go:262-270 | without rollbacks no seal can wipe a bit |
| `SealHazard.SealCanFireEarly` | pkg/store/lua.go:262-297 | a run in which on_success fires while a live job has not run, and its rollback is then refused as closed |
| `SealSafety.SafeSeal` | pkg/store/lua.go:262-315 | a seal that zeroes no set bit of a goal's bitmap, or finds every live job in it, leads to no grant before every live job was heard of |
| `SealSafety.UnsafeSeal` | pkg/store/lua.go:262-315 | every other seal has a continuation that does |
| `SealSafety.SealSafeIff` | pkg/store/lua.go:96-315 | exact, for on_complete (jobs that ran), on_success (jobs that succeeded) and a terminal status (jobs that succeeded or failed): no continuation without a further seal reaches it early iff the seal's bit is clear in that bitmap or the bitmap covers the live set |
| `SealSafety.WipingSealCloses` | pkg/store/lua.go:234-315 | after a wiping seal some continuation refuses the rollback of any unproduced number as closed |
| `SealSafety.RollbackOpenIffWipesNothing` | pkg/store/lua.go:234-315 | the rollback of an unproduced number stays open past a seal iff the seal wipes nothing |
| `Delivery.CorrelateOutcomes` | pkg/kafkaclient/delivery.go:69-106 | for every completion order an input counts as delivered iff the broker confirmed its record; with one result it holds that result; an error iff some input is not delivered or a result is stray |
| `Delivery.SlotConfirms` | pkg/kafkaclient/delivery.go:73-95 | what one input has seen after any number of results |
| `Delivery.SettleConfirms` | pkg/kafkaclient/delivery.go:96-105 | a missing result is a failure |
| `Delivery.ProduceManySync` | pkg/kafkaclient/delivery.go:49-65 | one flag per input, set iff confirmed, and a failure iff a flag is missing or a result is stray |
| `Delivery.ProduceInChunks` | pkg/client/bulk.go:34-62 | chunks of exactly the configured size, or 500, tile the input up to the first failing one, flags are exact, nothing after it is flagged, an error iff the last call failed, no error means all sent and produced |
| `BulkPush.SeqWindow.Take` | pkg/client/batch.go:188-198 | next number, or none for an empty or used-up window |
| `BulkPush.BuildRecords` | pkg/client/bulk.go:215-241 | plan i gets number first + i, and it succeeds iff no record is unbuildable: the window never runs out |
| `BulkPush.FlagsSplit` | pkg/client/bulk.go:181-192 | produced and unproduced numbers split the window |
| `BulkPush.ForeignStep` | pkg/store/lua.go:234-321 | whatever others do, a push keeps its window and its unproduced numbers |
| `BulkPush.ProduceCommutes` | pkg/client/bulk.go:42-60 | what others do commutes with the produces of the push, so it may as well follow the last chunk |
| `BulkPush.RollbackGranted` | pkg/client/bulk.go:190-192 | the negative AddJobs is granted unless the batch was cancelled, and takes exactly the unproduced numbers off total_jobs |
| `BulkPush.PushConserves` | pkg/client/bulk.go:197-249 | whatever others do meanwhile, unless a seal wipes a bit: a number of the window is live iff its record was produced, outside the window only the others changed anything, and total_jobs grew by the produced records and the effect of the others' own actions; on a batch cancelled meanwhile the rollback is refused |
| `BulkPush.PushedConserves` | pkg/client/bulk.go:197-249 | the same of every push, refused, granted or cancelled meanwhile |
| `BulkPush.Client.RollbackPlans` | pkg/client/bulk.go:181-193 | exactly the unproduced plans lose their locks and their share of total_jobs |
| `BulkPush.Client.PushManyJobs` | pkg/client/bulk.go:197-249 | for every answer of store, builder and broker the batch ends exactly where the push and the recorded actions of the others lead; exactly the unproduced plans' locks are released; flags are what the broker confirmed; no error iff there was nothing to push, or the window was granted, every record could be built and no call failed |
| `FairScheduler.ZRange` | pkg/fairness/lua.go:177-177 | the n lowest members in score order |
| `FairScheduler.Scheduler.EnqueueJob` | pkg/fairness/lua.go:23-43 | window check, seeding of a returning tenant at the ring minimum, append |
| `FairScheduler.Scheduler.Round` | pkg/fairness/lua.go:177-231 | one round serves the first member under its limit that has a job |
| `FairScheduler.Scheduler.Dispatch` | pkg/fairness/lua.go:206-224 | pop, charge 1/w, lease, park in the forwarding buffer |
| `FairScheduler.Scheduler.CheckoutJob` | pkg/fairness/lua.go:136-232 | prune, budget check, fetch, share round and fallback round; `LaneEffects.CheckoutMeans`, `FairRuns.ShareInNumbers` and `FairRuns.ServesLeastVtime` say what that comes to |
| `FairScheduler.Scheduler.ConfirmForward` | pkg/fairness/lua.go:269-276 | removes the entry and reports whether it was there |
| `FairScheduler.Scheduler.AbortForward` | pkg/fairness/lua.go:289-306 | gives the job back to the tail of its list, refunds the charge, restores the ring |
| `FairScheduler.Scheduler.CompleteJob` | pkg/fairness/lua.go:263-267 | drops the lease from both sets |
| `FairScheduler.Scheduler.RenewLease` | pkg/fairness/scheduler.go:193-207 | extends only leases that exist, in each set on its own |
| `FairScheduler.Scheduler.RearmLease` | pkg/fairness/lua.go:308-312 | writes the lease to both sets |
| `FairScheduler.Scheduler.ReclaimExpiredLeases` | pkg/fairness/scheduler.go:329-344 | sweeps the global set and every tenant set, only under the lock |
| `FairScheduler.Scheduler.ResetVtimeIfQuiescent` | pkg/fairness/lua.go:324-335 | clears virtual times only when ring, live leases and buffer are empty |
| `LaneEffects.EnqueueMeans` | pkg/fairness/lua.go:23-43 | refused iff a positive window is full; accepted, the job is last in its list and nothing else but ring and virtual time of its tenant changes |
| `LaneEffects.EnqueueJoins` | pkg/fairness/lua.go:29-41 | a tenant new to the ring enters at the larger of its remembered virtual time and the ring minimum, all others keep their place |
| `LaneEffects.CheckoutMeans` | pkg/fairness/lua.go:206-224 | a served checkout moves the head job to the buffer, charges 1/w, leases the slot in both sets until now plus the TTL and drops only expired leases; an empty one only drops those |
| `LaneEffects.AbortMeans` | pkg/fairness/lua.go:289-306 | the job is last in its list again, the tenant gets back 1/w and its place in the ring; without an entry nothing happens |
| `LaneEffects.AbortUndoesCheckout` | pkg/fairness/lua.go:206-306 | after any run and with an unused slot id, abort gives back exactly what the checkout took: charge, place in the ring, buffer and leases, expired ones aside; the job is last in its list |
| `LaneEffects.CompleteMeans` | pkg/fairness/lua.go:263-267 | the slot is free in both sets and no other lease changed |
| `LaneEffects.RearmMeans` | pkg/fairness/lua.go:308-312 | the slot is leased until the given time in both sets and no other lease changed |
| `LaneEffects.RenewMeans` | pkg/fairness/scheduler.go:193-207 | the expiry moves where the slot is still leased, and nothing comes back |
| `LaneEffects.ConfirmMeans` | pkg/fairness/lua.go:269-276 | exactly the entry and its tenant are forgotten |
| `LaneEffects.SweepMeans` | pkg/fairness/scheduler.go:329-344 | exactly the unexpired leases stay, with their expiries |
| `LaneEffects.ResetMeans` | pkg/fairness/lua.go:324-335 | virtual times are forgotten iff nobody is queued, no lease is unexpired and nothing is being forwarded |
| `FairRuns.ShareInNumbers` | pkg/fairness/lua.go:164-201 | n jobs are under a tenant's share iff n is under a positive cap and, weighted, n is 0 or (n + 1) times the weight sum is at most budget times weight, unweighted, n times the active tenants is below the budget |
| `FairRuns.FreeIffUnderShare` | pkg/fairness/lua.go:186-201 | a round finds a ring tenant dispatchable iff its unexpired leases are under that share, with weight, sum and active count spelled out |
| `FairRuns.ScanFinds` | pkg/fairness/lua.go:177-231 | on an exact ring a round serves the first free member and otherwise only prunes |
| `FairRuns.StepExact` | pkg/fairness/lua.go:33-42 | every step keeps the ring equal to the set of tenants with ready jobs |
| `FairRuns.RunExact` | pkg/fairness/lua.go:289-306 | so does every run |
| `FairRuns.WorkConserving` | pkg/fairness/lua.go:157-231 | after every run a checkout is empty iff the unexpired leases use up the budget or every fetched tenant is at its share and at the cap; with no cap, iff the budget is used up or nobody has a job |
| `FairRuns.ServesLeastVtime` | pkg/fairness/lua.go:177-224 | the tenant served has the least virtual time among those under their share, in numbers, else among those under the cap |
| `FairRuns.StepBounded` | pkg/fairness/lua.go:157-223 | every step but re-arming keeps the lease sets within budget and cap |
| `FairRuns.RunBounded` | pkg/fairness/scheduler.go:193-207 | so does every run, through the fallback round, renewals of expired leases and sweeps |
| `FairShare.StepKeepsLevel` | pkg/fairness/lua.go:206-224 | in a busy period no ring tenant is more than 1/w above the ring minimum |
| `FairShare.RunCharges` | pkg/fairness/lua.go:206-216 | a tenant backlogged throughout advances by exactly 1/w per job served |
| `FairShare.ResetClears` | pkg/fairness/lua.go:324-335 | a new lane and a lane whose idle reset went through are cleared, lingering expired leases or not |
| `FairShare.BusyPeriodLevel` | pkg/fairness/lua.go:23-43 | the level bound holds throughout every busy period begun on a cleared lane |
| `FairShare.FairnessBound` | pkg/fairness/lua.go:177-224 | from any level state, over any busy interval two backlogged tenants satisfy abs(n_i/w_i - n_j/w_j) <= 1/w_i + 1/w_j |
| `FairShare.FairOverInterval` | pkg/fairness/lua.go:177-224 | end to end: cleared lane, first job, busy prefix, and the bound over any later interval of the busy period |
| `LeasePairing.LeasesPaired` | pkg/fairness/lua.go:218-223 | over runs with split renewals and re-arming in which no prune at or after the old expiry falls between the halves: every globally leased slot is held by its own tenant, with the same expiry outside a renewal in progress |
| `LeasePairing.CheckoutKeepsPairsIff` | pkg/fairness/lua.go:157-223 | a checkout keeps the pairs iff it spares the renewals in progress of the tenants it visits |
| `LeasePairing.LeasesPairedFromStart` | pkg/fairness/lua.go:218-223 | in particular from a new lane |
| `LeasePairing.SweepKeepsInvIffSpares` | pkg/fairness/scheduler.go:329-344 | a sweep of a tenant set keeps the pairs iff it spares the renewals in progress |
| `LeasePairing.SplitRenewalIff` | pkg/fairness/scheduler.go:193-207 | whatever sweeps fall between the two writes, the pair survives iff none of the tenant set is at or after the old expiry, and then the expiries agree |
| `LeasePairing.LaggingRenewalIff` | pkg/fairness/scheduler.go:193-207 | a renewal between the sweeper's two passes keeps the pair iff its expiry is ahead of the sweep |
| `LeasePairing.SplitRenewalLosesPair` | pkg/fairness/scheduler.go:193-207 | a reachable lane with a global lease that its tenant does not hold |
| `LeasePairing.LaggingRenewalLosesPair` | pkg/fairness/scheduler.go:193-207 | a reachable lane where a lagging clock lost the pair |
| `Forwarder.CheckoutMoves` | pkg/fairness/lua.go:206-228 | a checkout moves the head of one tenant's list to the buffer under that tenant, or nothing |
| `Forwarder.AbortBalanced` | pkg/fairness/lua.go:289-306 | a job given back goes to its own tenant's list |
| `Forwarder.StepKeepsInv` | pkg/fairness/forwarder.go:83-129 | every step of every process, and a crash between any two, keeps each payload with its tenant |
| `Forwarder.NothingLost` | pkg/fairness/scheduler.go:303-327 | over every interleaving, each accepted payload is in its own tenant's ready list, in the buffer under its tenant, or published, counted with multiplicity |
| `TenantPartitions.Reconcile` | pkg/fairness/tenant_partitions.go:33-43 | out-of-range assignments go, the partitions in use are collected |
| `TenantPartitions.Fill` | pkg/fairness/tenant_partitions.go:49-51 | the free set is completed |
| `TenantPartitions.Allocator.WarmUp` | pkg/fairness/tenant_partitions.go:29-72 | the whole warm script |
| `TenantPartitions.Allocator.CheckOut` | pkg/fairness/tenant_partitions.go:74-97 | the whole checkout script, for any member SPOP may choose |
| `TenantPartitions.RunExclusive` | pkg/fairness/tenant_partitions.go:29-97 | over any calls with any counts, assignments stay injective and disjoint from the free set |
| `TenantPartitions.WarmCovers` | pkg/fairness/tenant_partitions.go:45-71 | after a warm assignments and free set are exactly the partitions below the count |
| `TenantPartitions.AssignmentStable` | pkg/fairness/tenant_partitions.go:79-84 | while counts never shrink an assigned tenant keeps its partition |
| `TenantPartitions.CheckedOutStable` | pkg/fairness/tenant_partitions.go:74-97 | the partition a checkout returned is returned by every later one |
| `TenantPartitions.CheckoutMeans` | pkg/fairness/tenant_partitions.go:74-97 | a valid assignment is repeated, otherwise the popped partition is assigned and no longer free; no other tenant is affected |
| `TenantPartitions.NewTenantServed` | pkg/fairness/tenant_partitions.go:29-97 | after any run and a warm, a checkout succeeds iff the tenant is assigned or fewer partitions than the count are, and the tenant is the only owner of what it got |
| `SuperFetch.UndispatchedRewindOffsets` | pkg/daemon/superfetch.go:632-659 | the rewind targets of a list of records |
| `SuperFetch.LeastOffsetsAreLeast` | pkg/daemon/superfetch.go:632-659 | they cover exactly the records' partitions, and each is the lowest offset there |
| `SuperFetch.SplitIsSafe` | pkg/daemon/superfetch.go:612-627 | in an ordered batch no mark before the split reaches a target, and every record after it is refetched |
| `SuperFetch.FatesOf` | pkg/daemon/superfetch.go:375-416 | every marked record has a fate that accounts for it: Redis answered its claim so, its job was in flight, or it was routed; the winners of a longer trail are the earlier ones and the won ones of the batch |
| `SuperFetch.Executor.FinishClaim` | pkg/daemon/superfetch.go:396-413 | a won claim is marked and its job started, a lost one is marked and released |
| `SuperFetch.Executor.OthersRun` | pkg/daemon/superfetch.go:420-427 | performs end by dropping the key and then the slot, each once |
| `SuperFetch.Executor.ProcessMissingJobID` | pkg/daemon/superfetch.go:597-610 | routed and marked, or neither |
| `SuperFetch.Executor.ApplyItem` | pkg/daemon/superfetch.go:375-416 | marked iff the outcome is known; the job is started iff its claim was won, and then takes over key and slot, which are released otherwise |
| `SuperFetch.Executor.FlushDispatchChunk` | pkg/daemon/superfetch.go:354-418 | exactly the items before the stop are marked, in order; the stop's resources are gone, those after it still held |
| `SuperFetch.Executor.FlushThenAcquire` | pkg/daemon/superfetch.go:326-351 | window full: flush, then a slot, or the rest is rewound and the key dropped |
| `SuperFetch.Executor.Admit` | pkg/daemon/superfetch.go:311-351 | classification of a record and what it holds afterwards |
| `SuperFetch.Executor.DispatchClaimsAndAcks` | pkg/daemon/superfetch.go:246-352 | the batch splits into a marked prefix and a rewound tail, and afterwards only performs hold keys and slots; the jobs started are, once each and in order, exactly those of the marked claims that were won; the tail is empty unless accepting stopped, a claim or routing failed, or the wait was cancelled; refused at entry, nothing changes |
| `SuperFetch.BatchSafe` | pkg/daemon/superfetch.go:612-659 | the prefix is marked in order, each record accounted for by its fate, the performs started are exactly the won ones among them; the tail is refetched from exactly its lowest offsets, nothing in it is committed past |
| `Watermark.Executor.Register` | pkg/daemon/watermark.go:205-232 | duplicate, reset or plain registration |
| `Watermark.Executor.NoteDone` | pkg/daemon/watermark.go:261-279 | tracked or stale completion |
| `Watermark.Executor.Fail` | pkg/daemon/watermark.go:286-300 | a failed offset may be dispatched again |
| `Watermark.Executor.Collect` | pkg/daemon/watermark.go:304-327 | per partition exactly the longest run of completed offsets from the head is collected |
| `Watermark.RegisterMeans` | pkg/daemon/watermark.go:205-232 | exactly the offset becomes pending; a new or lower offset becomes the watermark and forgets the completions below it, any other leaves watermark and completions alone |
| `Watermark.CompletionMeans` | pkg/daemon/watermark.go:261-300 | a completion at or above the watermark is kept, any other and a failure only leave pending |
| `WatermarkRuns.CompletionsTracked` | pkg/daemon/watermark.go:265-279 | the stale branch is never taken |
| `WatermarkRuns.NothingBelow` | pkg/daemon/watermark.go:222-228 | a reset finds no stale completion to drop |
| `WatermarkRuns.StepTracked` | pkg/daemon/watermark.go:205-334 | every step keeps pending the disjoint union of running and done, none of it below the watermark |
| `WatermarkRuns.StepSlots` | pkg/daemon/watermark.go:157-198 | every step keeps occupancy equal to pending plus slots in transfer |
| `WatermarkRuns.RunInv` | pkg/daemon/watermark.go:157-334 | all of it holds in every state of every interleaving |
| `WatermarkRuns.ReleasesNeverBlock` | pkg/daemon/watermark.go:272-334 | whoever has a slot to give back can do so at once |
| `WatermarkRuns.RunCommitsSafely` | pkg/daemon/watermark.go:304-334 | at whatever step an offset becomes marked, everything from the lowest offset dispatched so far up to it has completed |
| `WatermarkRuns.RunTight` | pkg/daemon/watermark.go:205-232 | without gaps, failures and resets pending is exactly what lies between watermark and last dispatch |
| `WatermarkRuns.RunCovered` | pkg/daemon/watermark.go:205-232 | without gaps and failures, with any redelivery: everything from the watermark to the delivery position is pending, and what a redelivery has yet to reach cannot fill the window |
| `WatermarkRuns.FullWindowMoves` | pkg/daemon/watermark.go:167-188 | then a full window always has a running head or one that the next flush commits |
| `WatermarkRuns.FailureWedges` | pkg/daemon/watermark.go:281-300 | with a failure it need not |
| `WatermarkRuns.GapWedges` | pkg/daemon/watermark.go:312-323 | with a gap it need not, although nothing fails |
| `Calendar.DayNumbersConsecutive` | pkg/cron/parser.go:208-211 | the day jump is one day, across months and leap years, and weekdays cycle |
| `Calendar.DayNumberIsCivil` | pkg/cron/parser.go:229-229 | every date has the number and the weekday that the March-based civil rule gives it, with (153 k + 2) / 5 for months and no month table or leap test |
| `Calendar.DaysInIsCivil` | pkg/cron/parser.go:203-211 | month lengths are the differences of that rule, leap years included |
| `Calendar.WeekdayAnchored` | pkg/cron/parser.go:229-229 | 1 January 1970 is a Thursday and 1 January 2024 a Monday, with Sunday as 0 |
| `Calendar.BeforeIsEarlier` | pkg/cron/parser.go:197-202 | the order of civil fields is the order of the minute counts |
| `Calendar.StampsConsecutive` | pkg/cron/schedule.go:103-103 | the minute count behind the grace check goes up by one per minute |
| `CronSearch.MatchesCivil` | pkg/cron/parser.go:203-241 | a minute matches iff month, hour and minute do and a restricted day field does or none is restricted, with the weekday as civil day number modulo 7 |
| `CronSearch.JumpSkipsNoMatch` | pkg/cron/parser.go:203-219 | no month, day, hour or minute jump passes over a match |
| `CronSearch.Next` | pkg/cron/parser.go:193-222 | the jumping search terminates and equals the minute-by-minute scan |
| `CronSearch.NextMatchIsLeast` | pkg/cron/parser.go:184-222 | it returns t iff t is the least match strictly after the argument and through the end of the fifth year after the search's first, and nothing iff the horizon has no match |
| `Misfire.PlanFires` | pkg/cron/schedule.go:77-114 | the plan of each policy |
| `Misfire.BackfillFires` | pkg/cron/schedule.go:85-100 | the backfill loop |
| `Misfire.AdvancePast` | pkg/cron/schedule.go:118-131 | the bounded walk |
| `Misfire.EndlessIffYearly` | pkg/cron/parser.go:198-202 | the search succeeds from every minute iff the expression has a date in every year |
| `Misfire.BackfillTick` | pkg/cron/schedule.go:85-100 | a tick from a match fires exactly the matches from the old next run up to the new one |
| `Misfire.BackfillTickBounded` | pkg/cron/schedule.go:87-98 | nothing after now, no more than the cap |
| `Misfire.BackfillTickResumes` | pkg/cron/schedule.go:87-100 | it resumes on a match, past now unless the cap stopped it |
| `Misfire.BackfillTelescopes` | pkg/cron/schedule.go:77-100 | ticks at any times under any caps fire exactly the matches from the first next run up to the last, each once and in order |
| `Misfire.TwoTicksOverrun` | pkg/cron/schedule.go:91-93 | after a match from which the search finds nothing, two ticks fire a minute that does not match |
| `Misfire.TelescopesIffYearly` | pkg/cron/schedule.go:77-100 | for every expression with a match, ticks telescope from every match and under all ticks iff it has a date in every year |
| `Misfire.AdvanceReachesNext` | pkg/cron/schedule.go:118-131 | from a due instant the walk ends at Next(now) iff fewer instants were missed than it may take steps, else one minute after now |
| `Misfire.MatchesBetweenLists` | pkg/cron/schedule.go:120-129 | the missed instants can be listed for all bounds |
| `Misfire.AdvancePastReachesNext` | pkg/cron/schedule.go:118-131 | with the code's limit: Next(now) iff fewer than a million instants were missed |
| `Misfire.AdvanceRunsDry` | pkg/cron/schedule.go:122-124 | where the search finds nothing, the walk ends one minute later |
| `Misfire.ResumesAfterNow` | pkg/cron/schedule.go:116-131 | either way strictly after now |
| `Misfire.PolicyMeans` | pkg/cron/schedule.go:77-131 | for every due schedule with a date in every year: fire-once fires the due instant alone, skip too unless more than the grace passed on the civil clock, both resume at Next(now) or after a million misses one minute after now; backfill catches up |
| `Misfire.BackfillCatchesUp` | pkg/cron/schedule.go:85-100 | from any due instant backfill fires it and then exactly the later matches up to the new next run, none after now, at most the cap, short of the cap only past now |
| `WorkingSet.Redis.ClaimJob` | pkg/workset/lua.go:10-68 | won, resumed or refused, with entry, owner sets, index and heartbeat |
| `WorkingSet.Redis.RenewJob` | pkg/workset/lua.go:70-78 | extends only under owner and fence |
| `WorkingSet.Redis.CompleteJob` | pkg/workset/lua.go:80-94 | deletes only under owner and fence; clears the listings of a missing entry |
| `WorkingSet.Redis.FinishReclaimJob` | pkg/workset/lua.go:99-120 | deletes only under the fence |
| `WorkingSet.RunListed` | pkg/workset/lua.go:58-60 | over every run with expiry each entry is listed under its owner and in the index |
| `WorkingSet.ClaimMeans` | pkg/workset/lua.go:10-68 | won iff there is no entry, no owner, or another owner without heartbeat and grace; then the entry is the caller's with its fence and deadline, listed, indexed and alive, and the former owner's listing is gone; resumed iff the caller owns it, keeping the fence; lost otherwise and nothing changes |
| `WorkingSet.ClaimKeepsOthers` | pkg/workset/lua.go:10-68 | a claim leaves every other job alone |
| `WorkingSet.RenewMeans` | pkg/workset/lua.go:70-78 | true iff the caller owns the job under the fence; then the deadline is the one asked for and nothing else changes |
| `WorkingSet.CompleteMeans` | pkg/workset/lua.go:80-94 | true iff the caller owns the job under the fence; then entry, index score and listing are gone, every other job untouched |
| `WorkingSet.FinishReclaimMeans` | pkg/workset/lua.go:99-120 | false iff the entry has another fence; otherwise entry, index score and the owner's listing are gone |
| `WorkingSet.StaysGone` | pkg/workset/lua.go:10-120 | a job that is gone stays gone over every run until a claim of it |
| `WorkingSet.CompletedStaysGone` | pkg/workset/lua.go:80-94 | so a completed job leaves nothing behind until it is claimed anew |
| `WorkingSet.StealsLiveOwnerIffNameless` | pkg/workset/lua.go:28-39 | a claim takes a job from an owner with a heartbeat iff the owner id is empty, and respects the grace |
| `WorkingSet.NamelessOwnerRobbed` | pkg/workset/lua.go:28-67 | an owner with an empty id and a heartbeat is reachable, and robbed |
| `WorkingSet.NeverHoldsAgain` | pkg/workset/lua.go:10-120 | a superseded fence never holds an entry again, on runs with fresh fences |
| `WorkingSet.SupersededFenceHarmless` | pkg/workset/lua.go:70-120 | it can neither extend nor delete the newer entry |

## Left out

- Redis key expiry of the ledger, re-sealing after the bitmaps are released, and TTL arithmetic.
- ClaimCallback, callback invocation and the reconciler: separate read and write steps outside the ledger scripts.
- Cancelled batches in the gate's rollback theorem: AddJobs refuses them by design.
- The time lane of the scheduler: an abort there does not restore the ring, so its ring is not exact.
- Floating point: weights and virtual times are reals; the order of equal scores in ZRANGE is left open.
- Stale-forward re-arming in the concurrency bounds: it writes a lease without a budget check.
- LeasePairing.LeasesPaired: one renewal of a slot is in progress at a time, because its holder renews it in turn.
- FairShare.FairnessBound: constant positive weights, no aborts and no ring head at its share while the budget has room, because an abort refunds a charge and a share can hold the least tenant back.
- Forwarder.NothingLost: a forwarder without an expiry hook, which drops expired jobs unpublished, is not modelled.
- The reclaim claim key, which only reduces duplicate publishing of a stale forward.
- Statically pinned tenant partitions and the Go-side partition cache.
- SuperFetch perform internals: retries, the perform semaphore, lease renewal and heartbeat; a perform is its key and its slot.
- SuperFetch nil records and a nil Kafka client.
- BulkPush.Client.PushManyJobs: an ambiguous produce error or a lost AddJobs reply is not modelled.
- BulkPush.PushedConserves: no seal wipes a recorded bit meanwhile, because conservation fails then exactly as SealSafety.RollbackOpenIffWipesNothing says.
- The watermark in-flight counter, the Sem and the accepting flag, which gate dispatch only.
- Watermark trackers are flattened: the per-partition maps of offsets are sets of (partition, offset) pairs.
- Cron text parsing: an expression is its five masks and two star flags.
- Zones other than UTC, daylight saving, and durations beyond the range of Go's Duration.
- Working-set payload decoding, the reclaim lock and produced markers, and the reclaim sweeper.
- Push of single jobs and of scheduled jobs, and uniq-duplicate policies.
- Kafka, Redis, MySQL and HTTP clients, configuration, metrics, liveness, CLI and drivers.
