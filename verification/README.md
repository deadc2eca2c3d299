# A verified model of A3S Lane

Lane is a job and command queue. This project models its most intricate parts in
Dafny and proves what they promise:

- the **in-memory job queue** (`src/job/memory.rs`, with the data of
  `src/job/types.rs`): one record under a mutex, some thirty operations, job
  flows with dependencies, leases, deduplication, repeat series, retention and
  snapshots;
- the **lane scheduler** (`src/queue.rs`): tasks that interleave between lock
  acquisitions, retries that sleep outside the queue, and a shutdown that must
  drain;
- the **rate limiters** (`src/ratelimit.rs`) and the **stable priority queue**
  (`src/priority_queue.rs`).

## How it is organised

`Operations` gives each operation of the job queue as a function from the state
under the mutex to the next state and the reply, and `Steps` turns them into a
transition system with runs of any length. `InMemoryJobQueue` is the object
itself: fields updated in place, loops over collected vectors, each method
proved to do exactly what its specification function says. The theorems are
about the specification, so they hold of the object.

`JobTypes`, `QueueModel` and `Ordering` hold the data, the shared helpers and
sorting. `CoreInvariant`, `CoreSubmit` and `CoreLifecycle` prove the global
invariant; on top of it come `Leases`, `FanIn`, `FanInSubmit` and `FanInRuns`
(flows), `SideIndex` and `IndexRuns` (index against records), `FlowReaders`,
`StickyFailure`, `ClaimOrder`, `Retention`, `RepeatSeries`,
`DeduplicationOwnership`, `RepeatSuccession` and `DeduplicationRuns`,
`BoundedProcessing`, `Descendants` and `RestartModel`/`Restart`.
`FanInLimits`, `RecoveryLimits`, `RestartLimits` and `Witnesses` say where the
code does not meet a property.

What each operation answers, stores and leaves alone is stated a second time, on
the fields of the records and without the helpers the operations are made of:
`ParentOutcomes` (releases), `FailureOutcomes`, `CompletionOutcomes`,
`RecoveryOutcomes` and `RecoveryParents`, `SubmissionOutcomes` and `Admission`,
`FlowOutcomes`, `FlowRefusals` and `FlowExpirations`, `ClaimOutcomes`, and
`ManagementOutcomes`. `RetryBudget` turns the retry rule into a theorem about
runs. `Lanes` and `DrainSafety` are the scheduler,
`RateLimits` and `PriorityQueues` the two small cores.

`dafny verify dfyconfig.toml` verifies everything.

## Modelling choices

- Time is an integer that callers supply; durations are natural numbers. Ids,
  lock tokens, the retry policy's backoff and the next occurrence of a cron
  schedule are parameters of the operation that draws them. Where the code relies
  on them being new, so do the theorems (`FreshIds`, `FreshRun`).
- A lookup that takes the first match in hash-map order takes the least match
  under the state's `layout`, an arbitrary ranking of ids that the code neither
  reads nor controls. `OpRehash` may replace it between any two operations, and a
  restored queue starts with any other. Restart and deduplication theorems
  quantify over all of them.
- Failure policies, retention, deduplication and repeat options are the code's
  own, with the code's branch order.
- The refill rate of the token bucket is an exact fraction.

## Where the code falls short of a property

For each of these the exact condition is proved as an if-and-only-if, and
`Witnesses` has a short run from the empty queue that meets its failing side:

- *Nested flows.* A parent that fails because of a child does not tell its own
  parent. `FanInLimits.FailParentLosesWakeUpIff` says of failing a parent, on any
  route, when somebody is then left waiting for nobody; `ReleaseLosesWakeUpIff`,
  `ReactLosesWakeUpIff`, `CompletionLosesWakeUpIff`, `FailureLosesWakeUpIff` and
  `RecoveryLimits.RecoveryLosesWakeUpIff` say it of the operations that end up
  there. `FanInRuns.NoLostWakeUp` lets flows nest to any depth as long as every
  job below a parent that is itself a child carries a failure policy.
  Run: `Witnesses.NestedFlowLosesWakeUp`.
- *Reused ids.* A removed child's id may come back as a job that does not name
  the parent. `FanInLimits.ReusedChildLosesWakeUpIff` and
  `ReusedChildFailureLosesWakeUpIff`. Run: `Witnesses.ReusedIdLosesWakeUp`.
- *Child retry.* Retrying a child of an active or finished parent leaves the old
  index entry behind. `IndexRuns.RetryKeepsExactIff`. Run:
  `Witnesses.RetriedChildLeavesStaleIndex`.
- *Deduplicated repeat jobs.* The successor takes the deduplication id without
  asking whether it is free. `RepeatSuccession.CompletionKeepsUniqueIff`, on the
  state before the completion. Run: `Witnesses.RepeatedSuccessionSharesId`.
- *Restart.* With two owners of one id the answer depends on hash-map order, which
  a restart changes. `RestartLimits.RestartIsUnobservableIff`; the same run.

Code and documentation disagree in one place: `README.md:910-912` says that
replacing a delayed owner with `extend_ttl` refreshes the TTL, while
`src/job/memory.rs:4132-4142` keeps the expiry of the replaced owner. The model
does what the code does. Also as in the code, `obliterate` without force leaves
the queue paused when it refuses, and an upsert restarts the repeat count.

## Model

| member | source | states |
|---|---|---|
| FanInRuns.NoLostWakeUp | src/job/memory.rs:2356-2428 | No lost wake-up: after any run from the empty queue, a job in `WaitingChildren` lists a stored, unfinished child that names it as its parent |
| FanInRuns.StepKeepsFlow | src/job/memory.rs:2356-2428 | Each operation keeps the fan-in invariant: every parked parent has an unfinished stored child, and every stored listed child names its parent |
| FanInRuns.RunKeepsFlow | src/job/memory.rs:2356-2428 | The fan-in invariant holds after every run that nests only children with a failure policy and reuses no listed id |
| FanIn.ReleaseIffReady | src/job/memory.rs:2356-2428 | A parked parent stays parked if and only if some stored child of its list is unfinished |
| FanIn.ScanMeaning | src/job/memory.rs:2366-2400 | What the one-pass child scan concludes: blocked iff an unfinished child is stored; otherwise which kind of failure, if any, decides |
| FanInLimits.FailParentLosesWakeUpIff | src/job/memory.rs:2448-2484 | Failing a live parent, for any reason and on any route, loses a wake-up if and only if some other parked parent has no unfinished child besides it |
| FanInLimits.ReleaseLosesWakeUpIff | src/job/memory.rs:2356-2428 | Releasing a parent, after whatever operation, loses a wake-up if and only if some other parked parent waits for nobody, or only for the parent that this release fails |
| FanInLimits.ReactLosesWakeUpIff | src/job/memory.rs:236-278 | The same for the reaction to a failed child, whichever of the four policies applies |
| FanInLimits.CompletionLosesWakeUpIff | src/job/memory.rs:2748-2822 | A completion, in any flow and under any id, loses a wake-up if and only if some parent other than the own one waits for nobody but the job and, where its release foreseeably fails, its parent |
| FanInLimits.FailureLosesWakeUpIff | src/job/memory.rs:198-289 | The same for a failure with any retry setting, attempts left or exhausted; read off the state before the call |
| FanInLimits.NestedFailureLosesWakeUpIff | src/job/memory.rs:2448-2484 | Nested flows: a terminal child failure without policy strands a grandparent if and only if the failed parent was its last unfinished child |
| RecoveryLimits.RecoveryLosesWakeUpIff | src/job/memory.rs:3027-3165 | Stalled recovery loses a wake-up if and only if some parent that it does not itself resume waits for nobody but jobs that recovery fails for good and the live parents these fail |
| FanInLimits.ReusedChildLosesWakeUpIff | src/job/memory.rs:2748-2822 | Reused ids: completing a job that names no parent leaves somebody waiting for nobody if and only if it is the last unfinished child of some parked parent that lists its id |
| FanInLimits.ReusedChildFailureLosesWakeUpIff | src/job/memory.rs:198-289 | The same for its terminal failure |
| Witnesses.NestedFlowLosesWakeUp | src/job/memory.rs:2448-2484 | A run from the empty queue that keeps everybody awake until a grandchild fails and its grandparent waits for nobody |
| Witnesses.ReusedIdLosesWakeUp | src/job/memory.rs:2748-2822 | A run from the empty queue that keeps everybody awake until a job under a reused id completes |
| Witnesses.RetriedChildLeavesStaleIndex | src/job/memory.rs:2564-2601 | A run from the empty queue that keeps the index exact until the finished child of an active parent is retried |
| Witnesses.RepeatedSuccessionSharesId | src/job/memory.rs:2796-2802 | A run from the empty queue after which a completed occurrence and its successor own one deduplication id, so that a restart can be observed |
| FanInLimits.InsertKeepsLinkedIff | src/job/memory.rs:2369-2372 | Where reuse begins: storing a fresh standalone job keeps listed children linked to their parents if and only if no stored parent lists its id |
| CoreLifecycle.StepKeepsCore | src/job/memory.rs:2701-2746 | Every operation keeps the global invariant (record shape per state, lease fields present exactly when active, distinct positive waiting sequences up to the counter, disjoint non-empty indexes of stored parents); only a claim hands out a token |
| CoreLifecycle.EmptyQueueIsCore | src/job/memory.rs:64-69 | A new queue satisfies the global invariant |
| Leases.LeaseIsExclusive | src/job/memory.rs:4339-4359 | Over every run each lock token leads to at most one successful complete, fail, delay, release or fan-out; a token that lost its lease before the run leads to none |
| Leases.SpendingEndsLease | src/job/memory.rs:4350-4359 | Spending a token needs a lease held under it and ends that lease |
| Leases.UnheldForever | src/job/memory.rs:3027-3165 | An issued token that is no longer held, for whatever reason, is never valid again |
| Leases.TokenNamesOneActiveJob | src/job/memory.rs:2701-2746 | A token is held by one job only, which is active with a worker and a lease expiry |
| IndexRuns.StepKeepsExact | src/job/memory.rs:2038-2081 | Every operation keeps the side index equal to the retained child records; a successful retry does so if and only if it is clean |
| IndexRuns.RetryKeepsExactIff | src/job/memory.rs:2564-2601 | A child retry leaves the index exact if and only if the parent is neither active nor finished, or the index held no entry for the child |
| IndexRuns.RunKeepsExact | src/job/memory.rs:2038-2081 | Index exactness over every run whose retries are clean |
| IndexRuns.CountsAreARecount | src/job/memory.rs:3608-3644 | While all children are retained, index-first counts equal a recount from the child records alone |
| IndexRuns.RemovalKeepsCounts | src/job/memory.rs:2161-2166 | Removing any set of records, as clean, drain and retention do, leaves every count of a remaining parent unchanged, provided its children among them completed, were ignored or continued, or fail their parent |
| IndexRuns.CoreIsReadable | src/job/memory.rs:3666-3740 | Every reachable state meets what the dependency readers rely on: duplicate-free child lists and disjoint buckets inside them |
| FlowReaders.CountsAreBucketSizes | src/job/memory.rs:3608-3644 | Each count is the size of the bucket of its kind |
| FlowReaders.DependenciesAreConserved | src/job/memory.rs:3608-3644 | processed + unprocessed + failed + ignored + missing + unindexed remove-policy failures is the number of listed children |
| FlowReaders.BucketsAreStandings | src/job/memory.rs:3764-3825 | Index-first buckets are exactly the listed children of each standing |
| FlowReaders.ReadersAgree | src/job/memory.rs:3666-3825 | Counts, full values and page buckets describe the same children for each kind |
| FlowReaders.ScrollYieldsTheRest | src/job/memory.rs:3742-3762 | Following `next_cursor` ends and yields every item from the cursor on exactly once |
| FlowReaders.ReadCounts | src/job/memory.rs:3608-3644 | The counting loop computes the counts of the specification |
| FlowReaders.PageItems | src/job/memory.rs:3764-3825 | The page loop collects exactly the bucket of its kind, each child once, with the value or reason it must carry |
| FlowReaders.ReadValues | src/job/memory.rs:3666-3740 | The value loop sorts the children into the four buckets, each with the value or reason it must carry |
| CoreInvariant.ClearRemovesEveryTrace | src/job/memory.rs:2127-2143 | The short-circuit clear erases the child from all three buckets and touches no other parent |
| CoreInvariant.ShortCircuitSuffices | src/job/memory.rs:2127-2143 | On disjoint buckets, erasing from the first bucket that holds the child is erasing it everywhere |
| StickyFailure.FailureIsSticky | src/job/memory.rs:4383-4397 | After a fail-parent failure was indexed, no completion of a retained parent succeeds at any point of any run that neither retries nor detaches the child, even once its record is gone |
| StickyFailure.StepKeepsStuck | src/job/memory.rs:2113-2125 | Nothing but a retry or a detachment of the child frees a retained parent |
| StickyFailure.StuckCannotComplete | src/job/memory.rs:4361-4381 | Completing such a parent errs and changes nothing |
| StickyFailure.FatalFailureSticks | src/job/memory.rs:198-289 | How a parent gets stuck: a listed fail-parent child fails for good |
| DeduplicationRuns.DeduplicationOwnerIsUnique | src/job/memory.rs:4036-4046 | Over every run whose successors take a free id, each deduplication id has at most one unreleased active owner at the end and at any later time |
| DeduplicationRuns.StepKeepsUniqueOwners | src/job/memory.rs:4048-4060 | An operation keeps owners unique if and only if it is not a successful completion whose successor takes an id that, by the state before the call, somebody goes on owning |
| RepeatSuccession.CompletionKeepsUniqueIff | src/job/memory.rs:2796-2802 | A completion keeps owners unique if and only if every present owner of the id that the successor copies ends owning with it: the job itself unless its expiry keeps the id, a record that retention evicts, or a parent that the release fails; all of it read off the state before the call |
| DeduplicationOwnership.UniqueStaysUnique | src/job/memory.rs:4005-4017 | The passing of time only frees ids |
| DeduplicationOwnership.OwnerLookupIsDetermined | src/job/memory.rs:4036-4046 | Then the unordered lookup has one possible answer |
| DeduplicationOwnership.InsertKeepsUniqueIff | src/job/memory.rs:302-352 | Storing a new job keeps owners unique if and only if the id it takes is free |
| RepeatSeries.RepeatOwnerIsUnique | src/job/memory.rs:4234-4237 | Over every run at most one unfinished job exists per repeat key, and every repeat count stays below its limit |
| RepeatSeries.StepKeepsUniqueRepeats | src/job/memory.rs:4239-4246 | Every operation, upsert, retry and successor creation included, keeps repeat owners unique |
| RepeatSeries.RepeatLookupIsDetermined | src/job/memory.rs:4234-4237 | Then the unordered lookup has one possible answer |
| RepeatSeries.ChainsAreLimited | src/job/memory.rs:4307-4337 | A chain of successors from a first occurrence has at most `limit` jobs |
| BoundedProcessing.ClaimsAreBounded | src/job/memory.rs:4416-4419 | A standalone job that does not repeat and is never retried, released or delayed by hand is claimed at most `max_retries + max_stalled_count + 1` times over any run |
| BoundedProcessing.StepStaysWithin | src/job/memory.rs:3058-3103 | The measure behind it: `attempts_made` grows by one exactly when the job is claimed and stays within retries + stalls + 1 |
| ClaimOrder.ClaimTakesTheFirst | src/job/memory.rs:2701-2746 | A claim takes the least of all waiting and due jobs; it takes none if and only if the queue is paused or none is ready |
| ClaimOrder.NeverOvertaken | src/job/memory.rs:3233-3240 | Over every run, while two waiting jobs stay unmodified the later one is not claimed |
| ClaimOrder.ClaimOrderIsTotal | src/job/memory.rs:3233-3478 | Exactly one of two distinct jobs comes first |
| ClaimOrder.ClaimOrderTransitive | src/job/memory.rs:3233-3478 | The claim order is transitive |
| ClaimOrder.PromotionQueuesTheReady | src/job/memory.rs:2000-2036 | After promotion exactly the waiting and due jobs wait, and those that waited are unchanged |
| ClaimOrder.DueJobsQueueBySchedule | src/job/memory.rs:2000-2036 | Jobs due together are queued by schedule, then creation, then id, all behind what was queued |
| ClaimOrder.PromotedInOrder | src/job/memory.rs:3453-3457 | Promoted jobs take consecutive fresh sequences in order |
| Retention.CountRetentionKeepsNewest | src/job/memory.rs:2168-2214 | Count-`n` retention leaves exactly the `n` newest by (finished_at, id) of what the age pass left |
| Retention.EvictedIff | src/job/memory.rs:2168-2214 | Record by record: a pass evicts it if and only if it is among the newest expired ones up to the limit, or at least `n` newer records survive the age pass |
| RepeatSuccession.RetainedIff | src/job/memory.rs:2787-2791 | After a job ended, which record goes is known beforehand: its own if removed at once, else those its retention evicts; every other is unchanged |
| Retention.AgePassEvictsExpired | src/job/memory.rs:2168-2214 | The age pass evicts expired records only, newest first, at most its limit |
| Retention.RetentionTouchesOneState | src/job/memory.rs:2168-2214 | A retention pass removes no record of another state and rewrites none |
| Retention.FinishedAreTheTerminal | src/job/memory.rs:2168-2214 | In reachable states a job has `finished_at` exactly when it is terminal |
| Descendants.WalkIsReachability | src/job/memory.rs:3984-4003 | On every child graph, cycles included, the walk returns without duplicates exactly the jobs reachable through jobs that are neither active nor terminal |
| RestartModel.SnapshotRestoresAllButSequence | src/job/memory.rs:72-178 | A restored queue equals the original except for the counter, which is at most the old one and at least every stored sequence |
| Restart.RestartIsUnobservable | src/job/memory.rs:72-178 | From a state with unique owners, over any later run and for any two hash-map orders, also ones that change on the way, the restored queue gives the same errors, counts and jobs as the original, up to waiting sequences, and claims the same jobs in the same order |
| RestartLimits.RestartIsUnobservableIff | src/job/memory.rs:4036-4046 | A restart is unobservable in every hash-map order if and only if no deduplication id has two owners at the time of the snapshot |
| RestartLimits.SharedIdIsObserved | src/job/memory.rs:4036-4046 | Two owners are told apart by one submission that meets them in another order |
| Restart.StepSim | src/job/memory.rs:72-178 | The simulation behind it, operation by operation: equal replies up to waiting sequences, whatever the two maps yield first |
| Restart.RunSim | src/job/memory.rs:72-178 | The simulation over runs |
| ParentOutcomes.ReleaseDecides | src/job/memory.rs:2356-2428 | On record fields: a parked parent stays while a listed child is unfinished; else it is unleased, Waiting or Delayed by its schedule, with `deferred_failure` naming the last listed failed fail-parent child if there is one; else it is failed with the last failed child without a policy named in its reason; else it runs again with nothing to report. Everybody else unfinished is untouched |
| FailureOutcomes.FailureTellsTheParent | src/job/memory.rs:236-278 | A child that fails for good: its live parent is unleased, Waiting or Delayed, with `deferred_failure` naming the child if the child asks to fail it; continued if parked and the child asks for that; left or released if the child is forgiven; otherwise failed because of the child. Nobody else unfinished is touched |
| FailureOutcomes.FailureIsIndexed | src/job/memory.rs:2038-2081 | The parent's index says of that child: ignored with the error given, failed, forgotten or as before, by its policy, also when the child's record is gone; every other entry is unchanged |
| FailureOutcomes.FailureAnswers | src/job/memory.rs:198-289 | On record fields: the job is stored and answered as Delayed until now plus backoff with reason `error`, all else unchanged, if and only if retries are allowed, `max_retries > 0` and `attempts_made <= max_retries`; otherwise it is answered as Failed now, and the record, if kept, equals the answer |
| FailureOutcomes.FailureIsRefused | src/job/memory.rs:4339-4359 | A failure is refused and changes nothing unless the job is active under the token |
| RetryBudget.FailureMeansRetriesUsed | src/job/memory.rs:4416-4419 | Over every run that leaves a job alone, fails it only with retries allowed and never lets it stall, it is found Failed only with `attempts_made == max_retries + 1` |
| RetryBudget.StepStaysOnBudget | src/job/memory.rs:4416-4419 | Every operation keeps the balance behind it |
| RecoveryOutcomes.RecoveryCounts | src/job/memory.rs:3027-3165 | The reply is the number of Active jobs with `lease_expires_at <= now` |
| RecoveryOutcomes.RecoverySparesTheRest | src/job/memory.rs:3037-3045 | An unfinished job whose lease is not over, and that loses no child in this recovery, keeps its record, lease included |
| RecoveryOutcomes.RecoveryTakesLeases | src/job/memory.rs:3058-3103 | A job whose lease was over, if still stored, has no worker, token or lease, and `stalled_count` one higher |
| RecoveryOutcomes.RecoveryGivesUp | src/job/memory.rs:3058-3103 | If the new count exceeds `max_stalled_count` and the job is no live repeat occurrence, its record, if kept, is Failed now for having stalled |
| RecoveryOutcomes.RecoveryRequeues | src/job/memory.rs:3058-3103 | Otherwise, unless it loses a child too, it waits again behind everything that was queued |
| RecoveryOutcomes.RecoveryQueuesByLease | src/job/memory.rs:3047-3052 | Jobs recovered together queue up in the order in which their leases ran out |
| RecoveryParents.RecoveryReportsToParent | src/job/memory.rs:3120-3141 | A live parent that loses fail-parent children and none without a policy is unleased, Waiting or Delayed, with `deferred_failure` naming the one whose lease ran out last |
| RecoveryParents.RecoveryContinuesParent | src/job/memory.rs:3120-3141 | A parked parent that loses a continue-parent child, and none that is fatal or without a policy, runs again with nothing to report |
| RecoveryParents.RecoveryFailsParent | src/job/memory.rs:3120-3141 | A live parent that loses a child without a policy is unfinished no more; if it loses only such children its record, if kept, is Failed because of one of them |
| CompletionOutcomes.CompletionAnswers | src/job/memory.rs:2748-2822 | On record fields: the answer is the job Completed now with the value given and no lease, and the record, if retained, equals it |
| CompletionOutcomes.CompletionIsAllowedIff | src/job/memory.rs:4361-4381 | A completion succeeds if and only if the job is active under the token and no listed child is pending or failed without excuse; an error changes nothing |
| CompletionOutcomes.CompletionReachesTheParent | src/job/memory.rs:2038-2081 | A parent still stored that lists the job has the value given among its processed children, also when retention removed the job at once |
| CompletionOutcomes.CompletionWakesTheParent | src/job/memory.rs:2805-2807 | What the parked parent does then, read off the records before the completion: stay, report the last fatal failure, fail, or run with nothing to report |
| CompletionOutcomes.CompletionContinuesTheSeries | src/job/memory.rs:4307-4337 | A completed repeat job is succeeded if and only if the next count stays below the limit, the schedule has a next time and that is not after the end; the successor has that time, the next count, the same options without the custom id, the same key, and is Delayed or Waiting by its time |
| SubmissionOutcomes.AddAnswers | src/job/memory.rs:302-352 | A submission is refused for its options, answered with the job of its id, with the owner of its deduplication id (expiry extended to now plus ttl if asked), or with the live occurrence of its series; it replaces a delayed standalone owner if asked, with a ttl taking over that owner's expiry; otherwise exactly the submitted job is stored behind all others |
| SubmissionOutcomes.AddManyAnswers | src/job/memory.rs:360-428 | A batch is refused whole if any options are; otherwise each job is submitted in order and meets what the earlier ones left |
| SubmissionOutcomes.UpsertAnswers | src/job/memory.rs:1336-1406 | Where owners are unique, an upsert replaces the live occurrence of its series, or starts it, unless that is leased or in a flow, or another job has its id or its deduplication id |
| SubmissionOutcomes.SeriesRemovalAnswers | src/job/memory.rs:1409-1430 | Removes and answers the live occurrence unless a worker holds it; only its parent may change besides |
| Admission.OptionsAreValidIff | src/job/types.rs:1417-1456 | The validation passes if and only if: a custom id holds something visible, is not the decimal notation of an integer and does not start with `0:`; the priority is at most 2097152; at most one failure policy is set; repeats, retention and deduplication have no zero limits and no blank id, and a repeat has not ended |
| Admission.IntegerIdIff | src/job/types.rs:1512-1520 | The recognised integer ids are exactly the decimal notations of the integers other than zero |
| FlowRefusals.FlowDecides | src/job/memory.rs:437-640 | A flow is refused for its options or repeated ids; answered with the owner of a new root's deduplication id; refused at the first child that another stored parent has or that the root lists but lost; refused if two newcomers want one free deduplication id or one series, or a live one; and accepted in every other case |
| FlowRefusals.ParkingDecides | src/job/memory.rs:810-1014 | The same for an active parent under its token, none of whose listed children may have failed without excuse |
| FlowExpirations.FlowExtendsOwners | src/job/memory.rs:679-725 | A flow that is accepted leaves the one owner of a deduplication id with the expiry last asked for by a new child that met it, and with its own if none did |
| FlowExpirations.ParkingExtendsOwners | src/job/memory.rs:810-1014 | The same for a running parent that parks behind more children |
| FlowOutcomes.FlowAnswers | src/job/memory.rs:437-640 | A flow of new plain jobs stores exactly the submitted root, parked behind exactly the submitted children if there are any; each child names the root and is queued behind all others; nobody else changes |
| FlowOutcomes.ParkingAnswers | src/job/memory.rs:810-1014 | An active parent loses its lease and waits for the new children beside those it had; nothing else of its record and nobody else changes |
| FlowOutcomes.DetachmentAnswers | src/job/memory.rs:1202-1233 | Detaching takes exactly this child out of the parent's list and index and the parent out of the child's record; a parent that waits for others, or for nobody, is otherwise unchanged |
| FlowOutcomes.UnprocessedRemovalAnswers | src/job/memory.rs:1175-1199 | Exactly the jobs below the parent, reached through jobs neither running nor finished, are removed and answered as they were, once each; nobody else but the parent changes |
| ClaimOutcomes.ClaimAnswers | src/job/memory.rs:2701-2746 | On record fields: due jobs are queued, and the waiting job that goes first is Active under the worker and token until now plus the lease, one attempt up, its reported failure kept; nothing is claimed only while the queue is paused or nobody waits |
| ClaimOutcomes.ClaimOrderMeans | src/job/memory.rs:3233-3240 | In reachable states the claim order is: lower priority number, then jobs given back by id, then last-in-first-out jobs from the newest, then the others from the oldest |
| ClaimOutcomes.DueOrderMeans | src/job/memory.rs:2000-2036 | Jobs that fall due together are queued by schedule, then creation, then id, whatever their priority |
| ClaimOutcomes.RenewalAnswers | src/job/memory.rs:1585-1601 | The holder's lease runs until now plus the duration; nothing else changes |
| ClaimOutcomes.DelayAnswers | src/job/memory.rs:1604-1640 | The holder's job is Delayed until now plus the delay, without lease; nobody else changes |
| ClaimOutcomes.ReleaseAnswers | src/job/memory.rs:1643-1681 | The holder's job waits before every queued job of its priority that was not given back itself |
| ManagementOutcomes.PromoteAnswers | src/job/memory.rs:1433-1463 | A delayed job waits now, behind all that waited; any other state is refused |
| ManagementOutcomes.RescheduleAnswers | src/job/memory.rs:1466-1498 | A delayed job is put off by a positive delay from now |
| ManagementOutcomes.PriorityAnswers | src/job/memory.rs:1698-1728 | A valid priority is taken over, with the flag if given; a waiting job goes behind its new peers |
| ManagementOutcomes.RetryAnswers | src/job/memory.rs:1501-1582 | A finished job starts over unless its deduplication id or its series was taken; an unfinished parent that is not running and lists it waits for it again, and nobody else changes |
| ManagementOutcomes.ReleasedIdIsFree | src/job/memory.rs:1265-1286 | Where ids have one owner at most, releasing an id frees it, says whether it was taken, and frees no other |
| ManagementOutcomes.RemovalAnswers | src/job/memory.rs:1248-1262 | A job that no worker holds is gone and answered as it was; nobody unfinished but its parent changes |
| ManagementOutcomes.CleanAnswers | src/job/memory.rs:1796-1840 | Exactly the oldest records of the state that may go, oldest first, up to the limit, are answered and gone; who is unfinished and waits for none of them is unchanged |
| ManagementOutcomes.DrainAnswers | src/job/memory.rs:1843-1871 | Where repeat owners are unique, exactly the waiting and, if asked, delayed jobs outside series are answered, by state, priority, schedule, creation and id, and gone; who is unfinished and waits for none of them is unchanged |
| ManagementOutcomes.ObliterationAnswers | src/job/memory.rs:1874-1892 | With force or without active jobs everything goes and the queue is open; otherwise it is only paused |
| RestartModel.SnapshotListsInOrder | src/job/memory.rs:3551-3558 | A snapshot holds every record, by state in the order of a job's life, then priority, schedule, creation and id |
| DrainSafety.DrainedMeansAnswered | src/queue.rs:530-577 | Once a queue that is shutting down has nothing outstanding it stays so, and every command ever admitted to a known lane was sent exactly one result after 1 to `max_retries + 1` executions |
| DrainSafety.RetryDecision | src/queue.rs:726-760 | A failed execution is retried if and only if `attempt < max_retries`; its error is sent if and only if not |
| DrainSafety.ErrorMeansExhausted | src/queue.rs:726-760 | Over every interleaving from fresh lanes, a settled command whose caller was sent an error was executed exactly `max_retries + 1` times |
| DrainSafety.LaneIsFifo | src/queue.rs:320-333 | Over every interleaving, a command queued ahead of another in its lane stays ahead of it until it is started, with the other still waiting |
| DrainSafety.IdleIff | src/queue.rs:352-355 | A lane is seen idle if and only if none of its commands is queued, running, asleep before a retry or finishing, and no slot is still to be given back |
| DrainSafety.StepKeepsValid | src/queue.rs:300-355 | Over all interleavings: `outstanding` counts admitted unsettled commands, `active` the tasks holding a slot (never above `max_concurrency`), `delayed_retries` the sleeping retries |
| DrainSafety.FreshIsValid | src/queue.rs:130-141 | Fresh lanes and no commands satisfy that invariant |
| DrainSafety.ShutdownIsFinal | src/queue.rs:410-436 | After shutdown admission is closed for good and `outstanding` never grows |
| DrainSafety.SeenIdleStaysIdle | src/queue.rs:545-577 | The idle check is sound although it looks at one lane after the other: once drained after a shutdown, a lane seen idle is idle ever after |
| DrainSafety.NoDeadlock | src/queue.rs:634-808 | Every command with a permit is moved on by whoever holds it, or is queued in a lane that starts something now or has a slot holder that can move |
| DrainSafety.StepUsesWork | src/queue.rs:700-801 | Every step but an admission or the shutdown request lowers the work measure |
| DrainSafety.DrainIsBounded | src/queue.rs:545-577 | After shutdown only boundedly many steps remain |
| Lanes.ScheduleNext | src/queue.rs:634-808 | One pass starts one command from a lane no less urgent than any other lane that could start one, or none when none can |
| Lanes.Lane.constructor | src/queue.rs:130-141 | An empty lane with its limits |
| Lanes.Lane.TryDequeue | src/queue.rs:320-333 | Takes the front and a slot if and only if a slot is free and something is pending |
| DrainSafety.EnqueueKeepsValid | src/queue.rs:251-297 | A command appended to its lane is queued there once and in no other book of any lane |
| DrainSafety.ScheduleRetryKeepsValid | src/queue.rs:300-317 | A retry counted before the slot is given up leaves slots, delayed retries and commands in balance |
| DrainSafety.PushDelayedKeepsValid | src/queue.rs:300-317 | The saturating uncount never meets zero, and the retried command is queued once |
| DrainSafety.MarkDoneKeepsValid | src/queue.rs:336-339 | The saturating decrement never meets zero: whoever gives a slot back held one |
| Lanes.QueueLifecycle.constructor | src/queue.rs:401-408 | Open, with nothing outstanding |
| Lanes.QueueLifecycle.Admit | src/queue.rs:410-420 | Admits and counts exactly while not shutting down |
| Lanes.QueueLifecycle.BeginShutdown | src/queue.rs:422-428 | Closes admission and says whether it was the first to |
| Lanes.QueueLifecycle.DropPermit | src/queue.rs:449-452 | Uncounts one admitted command |
| RateLimits.SlidingWindowBound | src/ratelimit.rs:193-208 | Over any history no half-open window of length `window` holds more than `max_commands` grants |
| RateLimits.RefusalMeansFull | src/ratelimit.rs:193-208 | A call is refused only while the window ending with it is full |
| RateLimits.TokenBucketBound | src/ratelimit.rs:98-149 | By time t sequential grants are at most `capacity + floor(rate * (t - t0))` |
| RateLimits.TokenBucketIntervalBound | src/ratelimit.rs:98-149 | Over any interval of length d grants are at most `capacity + rate * d + 1` |
| RateLimits.BurstIsExact | src/ratelimit.rs:98-149 | Of `n` calls made at once after a pause exactly `min(n, capacity, tokens + floor(rate * pending time))` are granted |
| RateLimits.TokensAreSpent | src/ratelimit.rs:98-149 | Over any history grants plus tokens left are no fewer than the tokens at hand before: none is dropped |
| RateLimits.RefusalMeansSpent | src/ratelimit.rs:98-117 | A call is refused only if the whole capacity was granted since the bucket was last full, and only while less than one token is due |
| RateLimits.SlidingWindowLimiter.constructor | src/ratelimit.rs:182-190 | An empty window |
| RateLimits.SlidingWindowLimiter.TryAcquire | src/ratelimit.rs:193-208 | Grants exactly when the window has room, and records exactly the grants |
| RateLimits.TokenBucketLimiter.constructor | src/ratelimit.rs:85-95 | A full bucket |
| RateLimits.TokenBucketLimiter.Refill | src/ratelimit.rs:135-149 | Adds the whole tokens due, capped at capacity; the clock moves only when a token is added |
| RateLimits.TokenBucketLimiter.TryAcquire | src/ratelimit.rs:98-117 | The call history and the grants agree with the specification that the bounds are about |
| PriorityQueues.OrderingIsPopOrder | src/priority_queue.rs:135-144 | Any ordered listing of the entries is the sequence of future pops |
| PriorityQueues.PopOrderIsOrdering | src/priority_queue.rs:122-126 | Future pops list every entry once, in order |
| PriorityQueues.PopsByUrgency | src/priority_queue.rs:56-65 | Lower priority numbers are popped first, and of equals the one with the lower sequence |
| PriorityQueues.RebasingKeepsPopOrder | src/priority_queue.rs:151-165 | Rebasing sequences keeps values, priorities and pop order |
| PriorityQueues.PushIsFifo | src/priority_queue.rs:109-119 | A push, rebasing or not, lands right behind everything of the same or a more urgent priority and moves nothing else |
| PriorityQueues.RestoreUndoesPop | src/priority_queue.rs:129-132 | Pop, any pushes without rebase, then restore: as if never popped |
| PriorityQueues.PriorityQueue.constructor | src/priority_queue.rs:91-96 | An empty queue |
| PriorityQueues.PriorityQueue.Push | src/priority_queue.rs:109-119 | Adds one entry with a fresh sequence, rebasing when the counter is exhausted |
| PriorityQueues.PriorityQueue.Pop | src/priority_queue.rs:122-126 | Removes the first of the pop order, or nothing from an empty queue |
| PriorityQueues.PriorityQueue.Restore | src/priority_queue.rs:129-132 | Puts an item back under its old sequence |
| PriorityQueues.PriorityQueue.Ordered | src/priority_queue.rs:135-144 | Lists the entries in pop order without changing the queue |
| PriorityQueues.PriorityQueue.Clear | src/priority_queue.rs:146-149 | Empties the queue and resets the counter |
| PriorityQueues.PriorityQueue.EnsureSequenceCapacity | src/priority_queue.rs:151-165 | Renumbers from one, in sequence order, exactly when the counter is at its maximum |
| CoreInvariant.PutInOrderKeepsCore | src/job/memory.rs:3453-3457 | Storing a job under the next waiting sequence keeps sequences distinct and bounded by the counter, and with them the whole invariant |
| CoreInvariant.RemoveIsRemoveAll | src/job/memory.rs:2161-2166 | Removing one record is removing the set of it: record, index and released pair go together and nothing else |
| SideIndex.RecordEntry | src/job/memory.rs:2038-2081 | A finished listed child ends up with exactly the entry its record calls for, or keeps the old one where the record calls for none, and no other entry changes |
| SideIndex.ClearEntry | src/job/memory.rs:2127-2143 | After the clear the child has no entry and every other entry is as before |
| FanIn.FailParentKeepsFlow | src/job/memory.rs:2448-2484 | Failing a parent that nobody lists wakes it without putting anybody else to sleep |
| FanIn.ResumeKeepsFlow | src/job/memory.rs:2524-2562 | Resuming a parent, with or without a failure to report, wakes it and puts nobody to sleep |
| IndexRuns.RestoredExact | src/job/memory.rs:2564-2601 | Restoring the dependency on a retried child makes the index exact again |
| InMemoryJobQueues.InMemoryJobQueue.constructor | src/job/memory.rs:64-69 | An empty, valid queue |
| InMemoryJobQueues.InMemoryJobQueue.RemoveJobRecords | src/job/memory.rs:2161-2166 | Removing in any order is removing the set |
| InMemoryJobQueues.InMemoryJobQueue.ApplyFinishedRetention | src/job/memory.rs:2168-2214 | Age pass, then count pass, over freshly collected lists |
| InMemoryJobQueues.InMemoryJobQueue.ScanParent | src/job/memory.rs:2366-2400 | Stops at the first unfinished child; otherwise remembers the last deciding failures |
| InMemoryJobQueues.InMemoryJobQueue.ReleaseParentIfReady | src/job/memory.rs:2356-2428 | Defer, fail, continue or leave parked, by the scan |
| InMemoryJobQueues.InMemoryJobQueue.ReleaseParentsIfReady | src/job/memory.rs:1834-1836 | Parents released in order |
| InMemoryJobQueues.InMemoryJobQueue.FindActiveDeduplicationId | src/job/memory.rs:4036-4046 | The scan in iteration order finds the first owner of that order, with one owner or several |
| InMemoryJobQueues.InMemoryJobQueue.FindActiveDeduplicatedJob | src/job/memory.rs:4026-4034 | The first owner, in iteration order, of the candidate's active id |
| InMemoryJobQueues.InMemoryJobQueue.FindActiveRepeatKey | src/job/memory.rs:4234-4237 | The scan in iteration order finds the first owner of that order |
| InMemoryJobQueues.InMemoryJobQueue.AddAt | src/job/memory.rs:302-352 | Validation, id reuse, deduplication with replacement or extension, and repeat lookup, in that order |
| InMemoryJobQueues.InMemoryJobQueue.AddManyAt | src/job/memory.rs:360-428 | Nothing is stored when any options are invalid; otherwise the jobs are added in order |
| InMemoryJobQueues.InMemoryJobQueue.CheckAttach | src/job/memory.rs:2430-2446 | The first conflict among the submitted children |
| InMemoryJobQueues.InMemoryJobQueue.ResolveDeduplication | src/job/memory.rs:679-725 | Children owned elsewhere are skipped, ids taken twice conflict |
| InMemoryJobQueues.InMemoryJobQueue.RepeatKeysAreFree | src/job/memory.rs:727-744 | Repeat keys of the jobs to store are free and distinct |
| InMemoryJobQueues.InMemoryJobQueue.Attach | src/job/memory.rs:746-784 | Stored children are re-parented and indexed when finished, new ones stored |
| InMemoryJobQueues.InMemoryJobQueue.AddFlowForExistingParent | src/job/memory.rs:642-796 | A stored parent takes more children |
| InMemoryJobQueues.InMemoryJobQueue.AddFlowForNewParent | src/job/memory.rs:481-639 | A new parent waits for its children |
| InMemoryJobQueues.InMemoryJobQueue.AddFlowAt | src/job/memory.rs:437-640 | A whole flow is stored, or nothing is |
| InMemoryJobQueues.InMemoryJobQueue.AddFlowChildrenAt | src/job/memory.rs:810-1014 | An active parent gives its lease up and waits for more children |
| InMemoryJobQueues.InMemoryJobQueue.RemoveUnprocessedChildrenOf | src/job/memory.rs:1175-1199 | Removes what the descendant walk returns and releases the parent |
| InMemoryJobQueues.InMemoryJobQueue.RemoveChildDependencyOf | src/job/memory.rs:1202-1233 | Detaches a child from list and index and releases the parent |
| InMemoryJobQueues.InMemoryJobQueue.PromoteDueJobs | src/job/memory.rs:2000-2036 | Due jobs are queued in schedule order |
| InMemoryJobQueues.InMemoryJobQueue.FirstWaiting | src/job/memory.rs:2711-2718 | The scan finds the first job of the claim order |
| InMemoryJobQueues.InMemoryJobQueue.ClaimNextJob | src/job/memory.rs:2701-2746 | Promotes, then leases the first waiting job under a fresh token |
| InMemoryJobQueues.InMemoryJobQueue.CompleteJob | src/job/memory.rs:2748-2822 | Checks lease and dependencies, records the result, retains, creates the successor and releases the parent |
| InMemoryJobQueues.InMemoryJobQueue.FailActiveJob | src/job/memory.rs:198-289 | Retries while attempts are left, otherwise fails, records, retains and reacts by policy |
| InMemoryJobQueues.InMemoryJobQueue.RenewLease | src/job/memory.rs:1585-1601 | The holder moves its lease expiry |
| InMemoryJobQueues.InMemoryJobQueue.DelayActiveJob | src/job/memory.rs:1604-1640 | The holder gives the job up to a later time |
| InMemoryJobQueues.InMemoryJobQueue.ReleaseActiveJob | src/job/memory.rs:1643-1681 | The holder gives the job back to the head of its priority |
| InMemoryJobQueues.InMemoryJobQueue.RequeueOrFail | src/job/memory.rs:3054-3103 | Each stalled job is queued again or fails for good |
| InMemoryJobQueues.InMemoryJobQueue.RecoverStalledJobs | src/job/memory.rs:3027-3165 | All stalled jobs, their retention, then their parents, policy by policy |
| InMemoryJobQueues.InMemoryJobQueue.PromoteJob | src/job/memory.rs:1433-1463 | A delayed job waits now |
| InMemoryJobQueues.InMemoryJobQueue.RescheduleJob | src/job/memory.rs:1466-1498 | A delayed job is delayed anew |
| InMemoryJobQueues.InMemoryJobQueue.RetryWouldConflict | src/job/memory.rs:1514-1545 | Another job owns the deduplication id or repeat key |
| InMemoryJobQueues.InMemoryJobQueue.RetryJob | src/job/memory.rs:1501-1582 | A finished job waits again, unless its keys were taken, and blocks its parent again |
| InMemoryJobQueues.InMemoryJobQueue.SetPriorityOrder | src/job/memory.rs:1698-1728 | A waiting job requeues behind its new peers |
| InMemoryJobQueues.InMemoryJobQueue.RemoveById | src/job/memory.rs:1248-1262 | A job that is not leased is removed and its parent released |
| InMemoryJobQueues.InMemoryJobQueue.ReleaseDeduplicationKey | src/job/memory.rs:1265-1286 | The owner is marked released |
| InMemoryJobQueues.InMemoryJobQueue.UpsertRepeatSeries | src/job/memory.rs:1336-1406 | Replaces the live occurrence of the series unless it is leased, part of a flow or blocked by a key |
| InMemoryJobQueues.InMemoryJobQueue.RemoveRepeatSeries | src/job/memory.rs:1409-1430 | Removes the live occurrence of the series |
| InMemoryJobQueues.InMemoryJobQueue.CleanFinished | src/job/memory.rs:1796-1840 | The oldest records of one state, at most `limit`, then their parents released |
| InMemoryJobQueues.InMemoryJobQueue.DrainWaiting | src/job/memory.rs:1843-1871 | All waiting and, if asked, delayed jobs but repeat owners |
| InMemoryJobQueues.InMemoryJobQueue.ObliterateQueue | src/job/memory.rs:1874-1892 | Everything goes, or the queue stays paused with its active jobs |
| InMemoryJobQueues.InMemoryJobQueue.SaveJobStacktrace | src/job/memory.rs:1921-1935 | Overwrites the failure reason |
| InMemoryJobQueues.InMemoryJobQueue.PauseOrResume | src/job/memory.rs:3167-3193 | Sets the flag claims look at |
| Ordering.SortedUnique | src/job/memory.rs:2173-2213 | Any listing of the ids in strictly ascending order is the sorted one |
| Ordering.Sort | src/job/memory.rs:2173-2213 | Sorting by rank and id has one result, whatever order the map iterates in |

## Left out

- `keep_last_if_active` deduplication: the stored next job and next flow, and with them `deduplication_next` and `deduplication_next_flows`. The finalising job takes them without checking that it is still the owner.
- Events, progress, logs, stack traces and payload contents: nothing else reads them.
- Listing, paging and counting of jobs by state or priority, and the repeat listing: read-only views over the job map.
- Disk storage, serialisation and `src/job/local.rs`; a snapshot is the in-memory value, with lock tokens kept. The sorted order of its released-owner pairs and index entries is not represented (they are a set and a map).
- Cron parsing: the next occurrence is a parameter, and the parse error after a completion is not represented.
- Saturation of `u64` and `u32` counters and of date arithmetic, except for the rebasing of the priority queue.
- Floating-point rounding in the token bucket, and the window between its `load` and `store` when a refill races with an acquisition: calls are sequential.
- The Redis backend, the worker loops of `src/job/worker.rs`, metrics, telemetry, alerts, dead letters, partitioning and pressure events.
- The scheduler: cancellation of a submission between admission and enqueueing, replacement of a registered lane, panics of a command, and the rate limiter in front of `try_dequeue`. Commands and lanes are interleaved as whole critical sections.
- BoundedProcessing.ClaimsAreBounded: does not cover a bulk submission or a flow parent that names the job's own id: one batch may remove a delayed owner and store another job under its id, which starts counting anew, and a flow turns the job into a parent.
- RecoveryLimits.RecoveryLosesWakeUpIff: covers recoveries in which no job fails for good under the ignore or remove policy. With such jobs each release may fail a parent that a later release still counts as a child, so the outcome depends on the order of the releases; `FanInLimits.ReactLosesWakeUpIff` is exact for each of them on the state it meets.
- Lanes.QueueLifecycle.DropPermit: requires that something is outstanding; `DrainSafety.StepKeepsValid` is what guarantees it.
- FlowOutcomes.FlowAnswers: what is stored is spelled out for flows of new jobs without deduplication or repetition, as is `FlowOutcomes.ParkingAnswers`. Which flows are accepted is decided for all of them by `FlowRefusals.FlowDecides` and `ParkingDecides`.
- RecoveryParents.RecoveryFailsParent: when a parent loses children under several policies in one recovery, says that it ends, and names the deciding child only if all of them lack a policy; a release between may fail it first.
