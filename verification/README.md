# Rollout marketplace: a verified model

This project models the core of a marketplace for reinforcement-learning rollouts and proves its
guarantees in Dafny. `dafny verify dfyconfig.toml` checks everything.

* **The marketplace protocol.** A broker leases jobs to workers, a store keeps the sample groups
  they hand in, a trainer fetches from the store. Each public method of the original holds one lock
  from start to end, so a concurrent run is a sequence of atomic steps. `WorkerBroker` and
  `LiveStore` say what one step does, as functions on values; `BrokerObjects` and
  `LiveStoreObjects` are the classes, with their loops and their records updated in place, proved
  against those functions. `BrokerInvariants`, `BrokerLoops`, `Marketplace` and `Histories` prove
  what every sequence of steps keeps. `BrokerLaws` and `StoreLaws` say what each operation does in
  the fields of the records alone. `Validators` and `WorkerLoop` add the contract check and the
  guarantee to the trainer.
* **The simulation.** `Simulation`, `WorkerThreads` and `SimulationRuns` treat the worker threads as
  a transition system and prove that every schedule ends, without an exception, with every job
  served once; `SimulationVetting` carries the guarantee to the trainer over to every moment of every
  schedule. `SimulationObjects` is the program over the shared objects, `SimulationCounters` its
  counters; `Profiles` and `SimulationOutcomes` prove which decision each kind of worker gets;
  `SimulationLaws` states groups, start, turns and counters in the simulation's own numbers.
* **Off-policy budget arithmetic.** `Weights`, `Opbc`, `BudgetTheorems`, `BudgetLaws`,
  `MismatchMetrics`, `MismatchLaws` and `MetricsAgreement`. Floats are real numbers. The exponential function is a parameter: any
  function that is positive, strictly increasing and satisfies exp(x) * exp(-x) = 1
  (`Opbc.IsExp`); `Opbc.ExpPropertiesAreConsistent` shows that there is one.
* **Trace comparison and probe provenance.** `RouterMismatch`, `AgentTrajectories`,
  `TrajectoryDivergence`; `TokenExtraction`, `PromptFill`, `DenseInput`; and the path of a captured
  probe through `ProbeCapture`, `ShareGptAdapter`, `ProbeMerge` and `Provenance`. `TaskLists` tells
  which task lists are safe whatever the engine answers, `ToolResults` which tool results arrive.
  `RouterLaws`, `DivergenceLaws`, `TokenLaws`, `DenseLaws`, `DriverLaws`, `AdapterLaws` and `MergeLaws`
  state what comes out in the tokens, steps, messages and records that go in.
* **Pool reloads.** `PoolReload`: quorum bookkeeping for weight reloads.

Clock readings, uuids, random draws, tokenizers, hashes, text formats and the engine's answers are
parameters. Exceptions are `Raised` results; preconditions only say what the record validators of
the original already enforce.

## Where the code does not do what its documentation says

* `src/rollout_market/pool_reload.py:53-55` promises the highest version with a quorum. With the
  default candidates the answer is, exactly, the quorum version whose first holder is registered last
  (`PoolReload.DefaultAnswer`), so the newest is answered if and only if its first holder stands behind
  the first holder of every older one (`PoolReload.DefaultIsNewestIff`). Three acknowledgements are
  enough for it to fail (`PoolReload.DefaultOrderIsNotByAge`). The answer is unambiguous when the
  quorum is more than half of the pool (`PoolReload.MajorityIsActive`).
* `scripts/live/hermes_agent_runner.py:365-371` promises to back-fill the result of each tool call.
  Pending calls are cleared after every tool entry, so only the first tool entry after a turn counts
  (`ShareGptAdapter.FirstToolEntryDecides`), and the driver writes one entry per call. In every session
  that runs through only the first call of a turn gets its result (`ToolResults.OnlyFirstCallHasResult`); all results of
  a turn arrive if and only if those of its other calls are empty (`ToolResults.ResultsCompleteIff`);
  a session with two calls in one turn loses the second (`ToolResults.SecondResultIsLost`).
* `scripts/live/merge_probes_into_trajectories.py:188-206` pairs probes by number or hash. A task
  with an empty text is recorded under "0", which the merger reads as the number zero
  (`TaskLists.EmptyTextMisplacesProbe`); two tasks with one text share a hash.
  `Provenance.ProvenanceIff` gives the exact condition under which every probe stays on its turn.
  Task lists with pairwise different texts, of which only the one task numbered zero may be empty,
  are safe in every session (`TaskLists.TextsSuffice`), and no other lists are
  (`TaskLists.OtherListsMisplace`).
* The two clips of log-ratios differ for a negative clamp: numpy's ends at the upper bound, the
  other at the lower. `MetricsAgreement.ImplementationsAgree` shows that exactly the second moments
  then disagree.

## Model

| member | source | states |
|---|---|---|
| BrokerObjects.LocalWorkerBroker.RegisterWorker | src/rollout_market/worker_broker.py:171-176 | registration replaces the manifest in place, revives the worker and logs it; nothing else changes |
| BrokerObjects.LocalWorkerBroker.Heartbeat | src/rollout_market/worker_broker.py:178-193 | an unknown worker is refused; a dead one is revived and only then logged |
| BrokerObjects.LocalWorkerBroker.SubmitJob | src/rollout_market/worker_broker.py:195-199 | a known job id keeps its place in the queue and its leases |
| BrokerObjects.LocalWorkerBroker.AcquireLease | src/rollout_market/worker_broker.py:209-256 | the loop and its bookkeeping give the state and lease of the broker model, or raise and change nothing |
| BrokerObjects.LocalWorkerBroker.SubmitGroup | src/rollout_market/worker_broker.py:258-300 | all refusals leave broker and store as they were; success closes the lease, binds the key and stores the group |
| BrokerObjects.LocalWorkerBroker.ReportFailure | src/rollout_market/worker_broker.py:302-340 | a failure closes the issued lease, frees its job, and is noted and logged |
| BrokerObjects.LocalWorkerBroker.ReapExpired | src/rollout_market/worker_broker.py:342-366 | the in-place sweep over leases equals the sweep of the model |
| BrokerObjects.LocalWorkerBroker.AbandonStaleWorkers | src/rollout_market/worker_broker.py:386-441 | the nested loops over workers and leases equal the sweep of the model, report included; `BrokerLaws.AbandonStaleWorkersLaw` says what that sweep does |
| BrokerLaws.RegisterWorkerLaw | src/rollout_market/worker_broker.py:171-176 | field by field: the manifest is put in its place, the worker is alive, one log entry is added, nothing else changes |
| BrokerLaws.HeartbeatLaw | src/rollout_market/worker_broker.py:178-193 | field by field: an unknown worker changes nothing; otherwise the beat is kept, a dead worker lives again and only that is logged |
| BrokerLaws.SubmitJobLaw | src/rollout_market/worker_broker.py:195-199 | field by field: the job under its id, at the end of the queue if new, and one log entry |
| BrokerLaws.AcquireLeaseLaw | src/rollout_market/worker_broker.py:209-256 | a living worker gets a lease with the stated fields on the first job of the queue that it can serve and on which no lease is issued or submitted; no such job, no lease; anyone else is refused |
| BrokerLaws.SubmitGroupLaw | src/rollout_market/worker_broker.py:258-300 | which submission is refused with which error, and every field that a successful one changes in broker and store |
| BrokerLaws.ReportFailureLaw | src/rollout_market/worker_broker.py:302-340 | the same for failure reports: the lease is failed with the reason, its job freed, the note and the log entry added |
| BrokerLaws.ReapExpiredLaw | src/rollout_market/worker_broker.py:342-366 | a lease expires iff it is issued and now >= expiry; exactly those are returned in order of issue, their jobs freed, each logged |
| BrokerLaws.AbandonStaleWorkersLaw | src/rollout_market/worker_broker.py:386-441 | a worker dies iff it is registered, not dead, has a heartbeat and now - last seen > time to live; a lease is abandoned iff it was issued and its worker dies so; the report lists exactly these in order and the log tells of each |
| BrokerLaws.HeartbeatThenSweep | src/rollout_market/worker_broker.py:401-415 | after an accepted heartbeat a sweep at t kills that worker iff t - last seen > time to live |
| WorkerBroker.NextJobIsFirstEligible | src/rollout_market/worker_broker.py:225-229 | the queue is first-in first-out among the jobs a worker can serve; none found means none is eligible |
| BrokerLoops.ReapExpiredExact | src/rollout_market/worker_broker.py:342-366 | reaping expires exactly the issued leases past their time, each once, frees exactly their jobs and returns exactly their ids |
| BrokerLoops.ReapTwiceIsIdle | src/rollout_market/worker_broker.py:342-366 | a second sweep at the same instant changes nothing |
| BrokerLoops.LeaseLifetime | src/rollout_market/worker_broker.py:230-243 | a sweep expires a new lease exactly when its time to live is over, and then its job is free |
| Marketplace.StepInv | src/rollout_market/worker_broker.py:171-441 | every single operation keeps the whole broker invariant |
| Marketplace.RunInv | src/rollout_market/worker_broker.py:120-460 | in every reachable state a job is marked leased iff exactly one lease on it is issued or submitted, dead workers hold nothing, closing times are set iff closed, and the audit log folded from empty rebuilds the state |
| BrokerInvariants.EmptyInv | src/rollout_market/worker_broker.py:129-148 | the invariant holds at the start |
| BrokerInvariants.IssueLeaseInv | src/rollout_market/worker_broker.py:230-255 | issuing keeps discipline, accounts and the log's faithfulness |
| BrokerInvariants.CloseInv | src/rollout_market/worker_broker.py:288-300 | so does every way of closing a lease |
| BrokerInvariants.ReapEachInv | src/rollout_market/worker_broker.py:353-365 | and the reaping loop after every round |
| BrokerInvariants.AbandonWorkersInv | src/rollout_market/worker_broker.py:401-440 | and the nested abandoning loops after every round |
| BrokerInvariants.JobsBalance | src/rollout_market/worker_broker.py:209-256 | jobs = free + on an issued lease + submitted |
| BrokerInvariants.LeasesBalance | src/rollout_market/worker_broker.py:248-254 | leases issued = submitted + failed + expired + abandoned + still out, counted from the audit log |
| Histories.RunLater | src/rollout_market/worker_broker.py:278-281 | along every run closed leases, bound keys and rejections are final and the audit log only grows |
| Histories.LeaseIsExclusive | src/rollout_market/worker_broker.py:225-255 | a lease is issued only on a job nobody claims, and then exactly one lease claims it |
| Histories.ServedJobIsNotLeasedAgain | src/rollout_market/worker_broker.py:225-229 | after any run a job with a submitted lease is never leased again |
| Histories.LeaseFitsWorker | src/rollout_market/worker_broker.py:105-117 | a lease goes to a living worker that meets every demand of the job, and is pinned to the job's version, size and key |
| Histories.KeyIsUsedOnce | src/rollout_market/worker_broker.py:282-299 | after one successful submission under an idempotency key none ever succeeds again, from any worker, lease or group |
| Histories.DeadWorkerNeedsNewLease | src/rollout_market/worker_broker.py:401-440 | a worker that was dead can submit only on a lease acquired later |
| Histories.FailedJobReturns | src/rollout_market/worker_broker.py:302-340 | after a reported failure the job is where it was in the queue and free for any worker able to serve it |
| Histories.SubmissionIgnoresExpiry | src/rollout_market/worker_broker.py:258-300 | in every reachable state a submission succeeds iff the worker holds the lease, the group is new and is the one decided on, and the key is unused: the clock has no part, so an overdue lease is accepted until a sweep expires it, and refused after |
| Histories.RunSettled | src/rollout_market/worker_broker.py:282-299 | submitted leases map one to one to stored groups and bound keys, in every run |
| LiveStoreObjects.InMemoryLiveStore.Submit | src/rollout_market/livestore.py:71-95 | a wrong or known id raises and changes nothing; otherwise a fresh record is appended |
| LiveStoreObjects.InMemoryLiveStore.Transition | src/rollout_market/livestore.py:107-132 | the record changes in place exactly as in the store model, or the call raises and changes nothing; `StoreLaws.TransitionLaw` says how |
| LiveStoreObjects.InMemoryLiveStore.GetBatch | src/rollout_market/livestore.py:134-162 | returns and counts exactly the batch of the store model; `StoreLaws.GetBatchLaw` says which groups that is |
| LiveStoreObjects.InMemoryLiveStore.CountByState | src/rollout_market/livestore.py:164-169 | counts every state, absent ones as zero |
| LiveStoreObjects.TrainerClient.Fetch | src/rollout_market/trainer_client.py:90-153 | returns and counts exactly the batch of the store model under all four filters; `StoreLaws.FetchLaw` says which groups that is |
| StoreLaws.DepositLaw | src/rollout_market/livestore.py:71-95 | wrong and known ids change nothing; otherwise the group is last in order, with the decision's status and reason and a count of zero |
| StoreLaws.TransitionLaw | src/rollout_market/livestore.py:107-132 | succeeds iff the group is stored, it is not leaving rejected, and a reason is given iff the new state is rejected; then it has the requested state and reason, and its group, its count, all other records and the order are as before |
| StoreLaws.ConsumeLaw | src/rollout_market/livestore.py:148-162 | a stored group that is accepted or correctable, or quarantined and asked for, and passes the given filters is in the batch, or the batch is full of groups before it; no other group is; each is counted once |
| StoreLaws.GetBatchLaw | src/rollout_market/livestore.py:134-162 | the same for `get_batch` |
| StoreLaws.FetchLaw | src/rollout_market/trainer_client.py:90-153 | the same for `fetch`, with version, lag, precision and replay tier |
| StoreLaws.CountByStateLaw | src/rollout_market/livestore.py:164-169 | a count is the number of records in that state |
| StoreLaws.RunKeepsState | src/rollout_market/livestore.py:107-132 | through any operations a stored group keeps its contents, state and reason until it is itself transitioned |
| StoreLaws.QuarantineHolds | src/rollout_market/livestore.py:107-132 | after an accepted transition to quarantined no batch without quarantined groups contains the group until its next transition |
| StoreLaws.ReleasedIsServed | src/rollout_market/livestore.py:107-162 | a group moved to accepted is in every later batch that is not full |
| LiveStore.VersionFilterIsIdle | src/rollout_market/trainer_client.py:117-142 | fetch serves what get_batch serves when all records share the version and no other filter is set |
| LiveStore.CountsAddUp | src/rollout_market/livestore.py:164-169 | the five counts add up to the size of the store |
| LiveStore.ServeConserves | src/rollout_market/livestore.py:157-162 | one batch adds its own length to the served counts |
| Histories.RunServes | src/rollout_market/livestore.py:134-162 | over any run the served counts grow by exactly the lengths of all batches handed out |
| Histories.RejectedIsNeverServed | src/rollout_market/livestore.py:121-128 | a rejected group is in no later batch and its count stays, whatever transitions are attempted |
| Histories.RunReasons | src/rollout_market/livestore.py:120-132 | in every run a stored group has a rejection reason iff it is rejected |
| Validators.CleanIff | src/rollout_market/validators.py:49-138 | the ordered checks pass a group iff the lease is live and the group meets the contract stated without order |
| Validators.RejectionNamesFirstFault | src/rollout_market/validators.py:44-47 | a rejection is well formed, names a fault the group has, and none that is looked for earlier is present |
| Validators.VerdictLaw | src/rollout_market/validators.py:49-126 | each reason iff its own test is the first to fail, in the fields of group, lease and manifest; for tokens and log-probabilities by the first unusable trajectory |
| Validators.OverflowLaw | src/rollout_market/validators.py:128-138 | of the groups with usable trajectories exactly those with a sequence above the limit overflow; a rejection carries its reason and nothing else |
| WorkerLoop.RejectedByValidators | src/rollout_market/observatory/marketplace_simulation.py:275-283 | a group the validators reject is in no batch served afterwards, transitions included |
| WorkerLoop.StepVetted | src/rollout_market/observatory/marketplace_simulation.py:270-284 | each step of a worker loop keeps every stored group tied to a submitted lease and to the verdict against the trainer's own stream for that group |
| WorkerLoop.FreshFetchIsSafe | src/rollout_market/trainer_client.py:117-142 | every group of a fresh fetch has the requested version and precision, is clean against its own submitted lease, and against the trainer's own stream for that group no token is beyond the veto threshold, ESS is high and lag low enough |
| WorkerLoop.EmptyIsVetted | src/rollout_market/livestore.py:68-69 | an empty marketplace meets the premises of that theorem |
| Simulation.TrainLogprobsFor | src/rollout_market/observatory/marketplace_simulation.py:222-239 | the nested loops give one baseline value per policy token, counted anew in each trajectory |
| SimulationLaws.MadeLaw | src/rollout_market/observatory/marketplace_simulation.py:160-219 | the group of each profile, field by field |
| SimulationLaws.BaselineLaw | src/rollout_market/observatory/marketplace_simulation.py:222-239 | the three baseline values in turn over the scored tokens, from the first one again in each trajectory |
| SimulationLaws.StartLaw | src/rollout_market/observatory/marketplace_simulation.py:248-259 | at the start every worker is registered and was seen now, the jobs are queued in order, both times to live are as given and nothing is leased or stored |
| SimulationLaws.PlayableLaw | src/rollout_market/observatory/marketplace_simulation.py:270-273 | a thread can take a turn iff it is not done and, at the barrier, no thread is still arriving |
| SimulationLaws.TurnLaw | src/rollout_market/observatory/marketplace_simulation.py:262-286 | what a turn does in each phase: a fetch is `acquire_lease`, a lease in hand is answered by the profile's group, judged and submitted, a report is appended; no other thread is touched |
| SimulationLaws.PlayKeepsTtls | src/rollout_market/observatory/marketplace_simulation.py:297-299 | no schedule changes the times to live |
| Simulation.VerdictSucceeds | src/rollout_market/observatory/marketplace_simulation.py:274-282 | judging a made group never raises and the decision carries its id |
| WorkerThreads.TurnKeeps | src/rollout_market/observatory/marketplace_simulation.py:262-286 | every turn of every thread succeeds, keeps the invariant and uses up exactly one unit of the measure |
| WorkerThreads.SchedulesNeverCrash | src/rollout_market/observatory/marketplace_simulation.py:262-286 | no schedule raises; k turns use up exactly k units |
| WorkerThreads.SomeThreadCanMove | src/rollout_market/observatory/marketplace_simulation.py:270-273 | no deadlock, barrier included |
| WorkerThreads.CompletionServesAll | src/rollout_market/observatory/marketplace_simulation.py:289-346 | when all threads are done each job has exactly one lease, it is submitted and names the stored group made on it, every stored group is reported exactly once by a thread of its worker with its stored status, and the audit log tells of as many leases issued as submitted and of none lost |
| SimulationRuns.EveryScheduleServesAll | src/rollout_market/observatory/marketplace_simulation.py:289-346 | any jobs, any n >= 1 able workers, any interleaving: no exception, exactly 3 (jobs + workers) turns to the end, and then jobs, leases, stored groups and results correspond one to one |
| SimulationVetting.EveryFetchIsSafe | src/rollout_market/observatory/marketplace_simulation.py:222-286 | at any moment of any schedule a fresh fetch returns only groups clean against their lease and within the budget against their own baseline |
| SimulationRuns.StartInv | src/rollout_market/observatory/marketplace_simulation.py:248-259 | building workers and queueing jobs establishes the invariant |
| SimulationObjects.JudgeGroup | src/rollout_market/observatory/marketplace_simulation.py:274-282 | validate, then score |
| SimulationObjects.OneTurn | src/rollout_market/observatory/marketplace_simulation.py:270-286 | one turn on the shared objects is one turn of the transition system |
| SimulationObjects.RunThreads | src/rollout_market/observatory/marketplace_simulation.py:307-318 | the loop over an arbitrary scheduler terminates with all threads done; the turns it took are a schedule of the transition system and the objects mirror the world that schedule leads to |
| SimulationCounters.CountResults | src/rollout_market/observatory/marketplace_simulation.py:320-330 | one pass over the results: each of the four counters holds every key as often as it was to be incremented |
| SimulationCounters.CountAudit | src/rollout_market/observatory/marketplace_simulation.py:335-335 | the counter over audit events |
| SimulationLaws.TalliesLaw | src/rollout_market/observatory/marketplace_simulation.py:320-335 | a counter has exactly the listed keys, each with the number of its places in the list |
| SimulationLaws.ListedLaw | src/rollout_market/observatory/marketplace_simulation.py:324-330 | what is listed for each result: worker and action, profile and action, the rejection reason if any, all decision reasons |
| SimulationObjects.RunSimulation | src/rollout_market/observatory/marketplace_simulation.py:289-346 | all counters say what the final store, list and audit log hold; jobs, leases, groups and results correspond one to one, nothing is lost; with the default budget a run over before a lease can expire counts one action per profile, the expected one |
| Profiles.ProfilesAreToldApart | src/rollout_market/observatory/marketplace_simulation.py:58-78 | honest trains, noisy trains with correction, stale is quarantined, each toxic profile is rejected for its own reason, for all noise in range |
| SimulationOutcomes.ReportsAreAsExpected | src/rollout_market/observatory/marketplace_simulation.py:274-285 | from the start, along every schedule that judges groups before their leases expire, each reported decision is the one of its worker's profile |
| SimulationOutcomes.SwiftReports | src/rollout_market/observatory/marketplace_simulation.py:296-318 | the same for every schedule whose clock readings all lie within one lease time to live |
| Opbc.ExpPropertiesAreConsistent | src/rollout_market/opbc.py:80-83 | the assumed properties of exp are satisfiable |
| Opbc.FlattenRolloutLogprobs | src/rollout_market/opbc.py:42-48 | the nested loop keeps exactly the tokens with action set and tool clear, in order |
| Opbc.ComputeBudgetReport | src/rollout_market/opbc.py:51-110 | shape mismatch and an empty selection raise; otherwise the metrics and notes of the specification |
| BudgetLaws.FlattenLaw | src/rollout_market/opbc.py:42-48 | the scored values are the log-probabilities of exactly the tokens with action set and tool clear, trajectory by trajectory and position by position |
| BudgetLaws.ReportLaw | src/rollout_market/opbc.py:51-110 | refused iff the streams differ in length or no token is scored; otherwise mean, moments, ESS, both fractions, maximum, lag, flip rate and notes as equations over trainer less rollout at those tokens |
| Opbc.DecideGroup | src/rollout_market/opbc.py:117-196 | the cascade with its appended reasons equals the specification, which `BudgetTheorems.DecisionTable` and `ReasonTable` spell out |
| BudgetTheorems.DecisionTable | src/rollout_market/opbc.py:117-196 | each action and each status iff its condition, in the figures of the report and the limits of the policy |
| BudgetTheorems.FractionsCountTokens | src/rollout_market/opbc.py:85-86 | one token beyond the threshold is a veto; clipped fraction 0 iff none was clipped; a veto above the clamp implies clipping |
| BudgetTheorems.EffectiveSampleSize | src/rollout_market/opbc.py:80-84 | ESS in [1/n, 1], 1 iff all clipped log-ratios agree; ESS * second moment = mean^2; variance = second moment - mean^2 |
| BudgetTheorems.ConstantOffsetIsInvisible | src/rollout_market/opbc.py:80-84 | any constant offset leaves ESS at 1 |
| BudgetTheorems.ClampBoundsEss | src/rollout_market/opbc.py:80-84 | ESS >= 4 / (exp m + exp -m)^2 with m = min(clamp, largest magnitude) |
| BudgetTheorems.SmallRatiosTrain | src/rollout_market/opbc.py:117-196 | when that bound meets both thresholds and lag, routing and magnitudes are within limits the decision is train |
| BudgetTheorems.ReasonTable | src/rollout_market/opbc.py:127-187 | each reason iff its own limit is broken and no graver branch decided, in the figures of the report and the limits of the policy |
| BudgetTheorems.ReasonOrder | src/rollout_market/opbc.py:139-178 | reasons of one branch stand in the order of their tests, none twice |
| BudgetTheorems.SeverityIsMonotone | src/rollout_market/opbc.py:120-124 | a report no better on any metric under a policy no laxer never gets a milder action |
| BudgetTheorems.NotesForetell | src/rollout_market/opbc.py:88-96 | no note and no veto iff the group is accepted |
| Weights.EssRange | src/rollout_market/opbc.py:84-84 | the range and equality case for any positive weights |
| Weights.Kantorovich | src/rollout_market/opbc.py:80-84 | the bound for weights inside [a, 1/a] |
| Weights.VarianceIdentity | src/rollout_market/opbc.py:101-102 | mean squared deviation = second moment - squared mean |
| MismatchMetrics.ConcentrationBound | src/rollout_market/mismatch_metrics.py:47-65 | for the heaviest k = max(1, n/100) tokens of a summary: ess * mass^2 <= k/n <= mass, and the mass is at least the share of any k tokens |
| MismatchMetrics.TopMassBounds | src/rollout_market/mismatch_metrics.py:51-65 | the same for any positive weights |
| MismatchMetrics.SortShape | src/rollout_market/mismatch_metrics.py:51-51 | the sorted weights are a descending permutation |
| MismatchMetrics.MeansAreBracketed | src/rollout_market/mismatch_metrics.py:55-64 | the mean difference times the count is the sequence log-ratio, the mean magnitude lies between its size and the maximum, and without a mask every token counts |
| MismatchLaws.SummarizeLaw | src/rollout_market/mismatch_metrics.py:22-66 | refused iff lengths differ or no position takes part; otherwise every figure as an equation over trainer less rollout at the positions of the mask, or all of them without one |
| MismatchLaws.TopLaw | src/rollout_market/mismatch_metrics.py:51-65 | the mass is the share of some k of the weights and no k of them have a larger one, k = n / 100 from 200 tokens on and one below |
| MetricsAgreement.ImplementationsAgree | src/rollout_market/mismatch_metrics.py:43-64 | both implementations accept the same inputs and agree on ESS, fractions and maximum; on the second moment iff the clamp is not negative |
| MetricsAgreement.StreamDeltas | src/rollout_market/mismatch_metrics.py:43-43 | masking the concatenated streams gives the per-trajectory selected differences |
| RouterMismatch.ComputeRouterMismatch | src/rollout_market/observatory/router_mismatch_lab.py:104-170 | refuses exactly different shapes and empty traces; otherwise the rates of the specification |
| RouterLaws.RatesLaw | src/rollout_market/observatory/router_mismatch_lab.py:104-170 | compared iff layers, experts, experts per layer and tokens agree and there is a token; each rate times its total is the number of tokens, or pairs of token and layer, with different first choices or different sets of experts |
| RouterMismatch.CountFlips | src/rollout_market/observatory/router_mismatch_lab.py:136-150 | the nested loops count flips per layer and disagreeing tokens |
| RouterMismatch.RatesAreDistances | src/rollout_market/observatory/router_mismatch_lab.py:136-154 | all rates are zero on equal traces, symmetric, in [0, 1] and satisfy the triangle inequality |
| RouterMismatch.FlipRateIsMean | src/rollout_market/observatory/router_mismatch_lab.py:152-154 | the router flip rate is the mean of the layer rates |
| RouterMismatch.TokenRateBetween | src/rollout_market/observatory/router_mismatch_lab.py:143-154 | with one expert per layer the token rate lies between the maximum and the sum of the layer rates |
| AgentTrajectories.ToolCallSignature | src/rollout_market/observatory/agent_trajectory_lab.py:185-191 | names and argument hashes of all calls in order |
| AgentTrajectories.SignatureOfAssistants | src/rollout_market/observatory/agent_trajectory_lab.py:122-123 | only assistant steps contribute to the signature |
| TrajectoryDivergence.ComputeTrajectoryDivergence | src/rollout_market/observatory/agent_trajectory_lab.py:312-429 | raises iff the trajectories are of different tasks or models; otherwise the specified report |
| TrajectoryDivergence.Compare | src/rollout_market/observatory/agent_trajectory_lab.py:346-379 | the loop finds the least differing pair and counts tool-choice disagreements among eligible pairs |
| DivergenceLaws.FirstDivergenceLaw | src/rollout_market/observatory/agent_trajectory_lab.py:345-379 | the first step at which names, argument hashes or texts differ and how, or the end of the shorter one; none iff equally long and alike |
| DivergenceLaws.SignatureLaw | src/rollout_market/observatory/agent_trajectory_lab.py:185-191 | a step gives the name and hash of its calls in order, and signatures of concatenations are concatenations |
| DivergenceLaws.ReportLaw | src/rollout_market/observatory/agent_trajectory_lab.py:312-429 | every figure of a report in terms of the two trajectories: parting step, rate as pairs over pairs, similarity as common over all calls, and both answer matches |
| TrajectoryDivergence.ReportSwaps | src/rollout_market/observatory/agent_trajectory_lab.py:336-429 | swapping the sides only swaps the sides of the report |
| TrajectoryDivergence.NoDivergenceMeansAgreement | src/rollout_market/observatory/agent_trajectory_lab.py:381-389 | no divergence implies equal signatures, Jaccard 1, rate 0 and equal counts |
| TrajectoryDivergence.SelfComparison | src/rollout_market/observatory/agent_trajectory_lab.py:346-383 | a trajectory does not diverge from itself |
| TokenExtraction.BuildPriorMessages | scripts/live/hermes_token_extraction.py:131-158 | the loop builds the prior messages of the specification; `TokenLaws.PriorLaw` says what they are |
| TokenLaws.PositionsLaw | scripts/live/hermes_token_extraction.py:214-215 | the turns are the assistant steps, all of them, in order |
| TokenLaws.PriorLaw | scripts/live/hermes_token_extraction.py:131-158 | with p the position of turn i: the system message iff its text is not empty, the user message with the task text, then exactly p messages, message k being the content of step k as a tool result or, stripped, as an assistant turn |
| TokenLaws.ExtractionLaw | scripts/live/hermes_token_extraction.py:161-265 | every turn's pair in terms of its own ids and the encoding of the messages before it; refused iff some turn's pair is |
| TokenExtraction.ExtractTokenPairs | scripts/live/hermes_token_extraction.py:161-265 | captured, partial and legacy turns each take their own path; the first failing turn decides; `TokenLaws.ExtractionLaw` says what each path yields |
| TokenExtraction.HistoriesAreNested | scripts/live/hermes_token_extraction.py:131-158 | a turn's history extends every earlier one and has one assistant message for each turn before it |
| PromptFill.FillTrajectory | scripts/live/fill_prompt_token_ids.py:64-111 | the loop replaces exactly the cells that lack only their prompt and counts them, as `TokenLaws.FillLaw` spells out |
| TokenLaws.FillLaw | scripts/live/fill_prompt_token_ids.py:64-111 | each captured turn without a prompt gets the encoding of the messages before it, every other step is untouched, the count is the number of such turns; refused iff such an encoding fails |
| PromptFill.FillPreservesTokens | scripts/live/fill_prompt_token_ids.py:64-111 | extraction after filling equals extraction before, errors included |
| PromptFill.FillFailsOnlyWithExtraction | scripts/live/fill_prompt_token_ids.py:90-103 | where filling fails extraction would have failed |
| PromptFill.FillTwice | scripts/live/fill_prompt_token_ids.py:84-87 | filling twice changes nothing and counts zero |
| PromptFill.FilledNeedsNoTokenizer | scripts/live/hermes_token_extraction.py:213-221 | with all response ids present a filled trajectory needs no tokenizer |
| DenseInput.BuildRolloutsAndIndex | scripts/live/build_hermes_dense_input.py:58-171 | mixed models raise unless one is imposed; otherwise entries and skips as specified |
| DenseLaws.TurnsLaw | scripts/live/build_hermes_dense_input.py:92-126 | the turns are the assistant steps of all trajectories in order, each with its names and its number among its trajectory's turns |
| DenseLaws.ListsLaw | scripts/live/build_hermes_dense_input.py:126-164 | turns with prompt, response and log-probabilities become rollouts and entries numbered from zero with the stated fields, the others skips for missing tokens or else missing log-probabilities |
| DenseLaws.ModelLaw | scripts/live/build_hermes_dense_input.py:95-109 | refused iff two models differ and none is imposed; otherwise the imposed or the common one |
| DenseInput.EveryTurnOnce | scripts/live/build_hermes_dense_input.py:98-164 | rollouts and entries are numbered 0, 1, 2, ... alike and with the skips account for every turn once |
| DenseInput.BuilderYieldsExtraction | scripts/live/build_hermes_dense_input.py:98-164 | after filling, the rollouts of fully probed trajectories are the extracted pairs in order and nothing is skipped |
| ProbeCapture.RunOneTask | scripts/live/minimal_agent_driver.py:259-326 | the driver loop, seen with the records its calls leave in the sidecar |
| ProbeCapture.CallsAreTurns | scripts/live/logprob_capture_proxy.py:229-291 | call i is recorded under its task's key and turn i, and turn i is the i-th assistant message |
| DriverLaws.TurnIdxLaw | scripts/live/logprob_capture_proxy.py:229-254 | the turn of a request is its number of assistant messages |
| DriverLaws.PromptIndexLaw | scripts/live/logprob_capture_proxy.py:257-291 | the first user message with a text, wherever it stands, names the prompt; without one it is "0" |
| DriverLaws.DriveLaw | scripts/live/minimal_agent_driver.py:259-326 | the conversation message by message: system text, task, each answer followed by the results of its tools; it goes on until an answer asks for no tool, a call fails or the steps are used up |
| DriverLaws.SidecarLaw | scripts/live/logprob_capture_proxy.py:229-291 | one record for each call made whose probe was captured, under the task's key and the call's number, in order |
| ShareGptAdapter.WriteConversation | scripts/live/minimal_agent_driver.py:187-225 | one entry per message; malformed arguments raise |
| ShareGptAdapter.AdaptShareGptTrajectory | scripts/live/hermes_agent_runner.py:343-515 | the loop with pending calls and in-place rewrite equals the specified reading |
| AdapterLaws.WriteLaw | scripts/live/minimal_agent_driver.py:187-225 | entry i is message i written down, with parsed arguments and no probe; refused iff some arguments do not parse |
| AdapterLaws.ReadLaw | scripts/live/hermes_agent_runner.py:394-477 | each turn becomes one assistant step and each response one tool step, in order, with the stated fields; a call has the result of the tool entry that answers its turn and of no other |
| AdapterLaws.RefusalLaw | scripts/live/hermes_agent_runner.py:394-477 | refused iff a turn has lists of different lengths or an answered call cannot be re-written |
| AdapterLaws.EndingLaw | scripts/live/hermes_agent_runner.py:481-496 | each ending iff its condition on the flags and the last turn, and the final answer |
| AdapterLaws.AdaptLaw | scripts/live/hermes_agent_runner.py:343-515 | the whole trajectory: its steps, names and ending |
| ShareGptAdapter.ReadKeepsTurns | scripts/live/hermes_agent_runner.py:394-477 | assistant step i keeps the text, call names and probe of gpt entry i through all rewrites |
| ShareGptAdapter.FirstToolEntryDecides | scripts/live/hermes_agent_runner.py:436-475 | call k gets a result iff the first tool entry after the turn has a k-th response |
| ToolResults.OnlyFirstCallHasResult | scripts/live/hermes_agent_runner.py:436-477 | in every session that runs through, on every turn of every trajectory, the first call has the result its tool gave and no other call has one |
| ToolResults.ResultsCompleteIff | scripts/live/hermes_agent_runner.py:365-371 | every call of a turn has its result iff the results of all calls but the first are empty |
| ToolResults.SecondResultIsLost | scripts/live/minimal_agent_driver.py:300-322 | a concrete session with two calls in one turn in which the second result is missing |
| ProbeMerge.IndexProbes | scripts/live/merge_probes_into_trajectories.py:104-128 | the index, or an error on a repeated prompt index and turn |
| ProbeMerge.InjectProbes | scripts/live/merge_probes_into_trajectories.py:131-158 | the loop stamps each gpt entry with the probes of its own turn |
| ProbeMerge.MergeToTrajectories | scripts/live/merge_probes_into_trajectories.py:161-218 | the merging loop equals the specified merge |
| MergeLaws.CoerceLaw | scripts/live/merge_probes_into_trajectories.py:88-101 | a text of digits is read as the decimal number it writes, every other text is kept |
| MergeLaws.IndexLaw | scripts/live/merge_probes_into_trajectories.py:104-128 | the index is refused iff two records share prompt index and turn |
| MergeLaws.EntryHashLaw | scripts/live/merge_probes_into_trajectories.py:68-85 | the first human entry with a text gives the hash |
| MergeLaws.LastMatchLaw | scripts/live/merge_probes_into_trajectories.py:188-206 | of the records that name the turn and the record's number or hash the last is taken |
| MergeLaws.InjectLaw | scripts/live/merge_probes_into_trajectories.py:131-158 | turn number i is stamped, field by field, with the probes of i; every other entry is untouched |
| MergeLaws.OneLaw | scripts/live/merge_probes_into_trajectories.py:188-217 | one record: fitting probes stamped on its conversation, adapted under the names of task, engine and model |
| MergeLaws.MergeLaw | scripts/live/merge_probes_into_trajectories.py:161-218 | refused for different lengths, a repeated key or a record that is; otherwise trajectory i is record i stitched |
| ProbeMerge.TrajectoryProbes | scripts/live/merge_probes_into_trajectories.py:188-217 | assistant step i carries the last candidate record of turn i, or none |
| ProbeMerge.RecordEnding | scripts/live/hermes_agent_runner.py:481-496 | failed, answered or out of steps, from the flags and the last turn; only an answered one has an answer |
| Provenance.RunAll | scripts/live/minimal_agent_driver.py:380-390 | the driver's outer loop: records numbered by the prompt index of their task, by default its position, and one sidecar |
| Provenance.SessionLaw | scripts/live/minimal_agent_driver.py:380-390 | each task's record has its own index or its position, its written conversation and flags; the sidecar is the drives' records one after the other |
| Provenance.ProvenanceIff | scripts/live/merge_probes_into_trajectories.py:188-217 | for sessions without exception: every probe is on its own turn and nowhere else iff tasks are told apart by text, number and captured turns |
| TaskLists.TextsSuffice | scripts/live/merge_probes_into_trajectories.py:188-206 | with pairwise different texts, the empty one only on the one task numbered zero, every session that runs through has its probes in place |
| TaskLists.OtherListsMisplace | scripts/live/merge_probes_into_trajectories.py:188-206 | for every other task list some answers of the engine make the session run through and misplace a probe |
| Provenance.NoDoubleCapture | scripts/live/merge_probes_into_trajectories.py:125-126 | tasks of one text never both keep a probe for one turn |
| Provenance.EndingsFollowDriver | scripts/live/minimal_agent_driver.py:287-326 | through driver, merge and adapter a trajectory is answered iff the driver completed it and failed iff a call failed or none was made |
| TaskLists.EmptyTextMisplacesProbe | scripts/live/logprob_capture_proxy.py:286-291 | a concrete session in which a probe lands on another trajectory |
| PoolReload.PoolReloadTracker.RecordAck | src/rollout_market/pool_reload.py:63-74 | a digest that disagrees raises and changes nothing; otherwise the newest ack of the worker replaces its old one |
| PoolReload.RecordLaw | src/rollout_market/pool_reload.py:63-74 | refused iff the version is on record with another digest; otherwise the worker's ack, its place and the digest, and nothing else |
| PoolReload.QuorumLaw | src/rollout_market/pool_reload.py:94-105 | refused iff k <= 0 or k > n; otherwise true iff k workers have a current ack of the version |
| PoolReload.PoolReloadTracker.CountAcks | src/rollout_market/pool_reload.py:76-78 | the number of workers whose current ack is for the version |
| PoolReload.PoolReloadTracker.ListVersions | src/rollout_market/pool_reload.py:86-92 | versions in order of first appearance |
| PoolReload.PoolReloadTracker.ActiveVersion | src/rollout_market/pool_reload.py:107-128 | the loop over candidates equals the specified search |
| PoolReload.RunKeepsDigests | src/rollout_market/pool_reload.py:63-74 | in every run a version keeps its digest and all current acks carry it |
| PoolReload.OneDigestPerVersion | src/rollout_market/pool_reload.py:50-52 | all current acks of one version carry one digest |
| PoolReload.QuorumsShareWorker | src/rollout_market/pool_reload.py:94-105 | two quorums of more than half the pool, at any two times, share a worker |
| PoolReload.OneQuorumAtATime | src/rollout_market/pool_reload.py:94-105 | with n < 2k at most one version has a quorum |
| PoolReload.FirstQuorumFound | src/rollout_market/pool_reload.py:124-128 | raises iff it must ask with bad numbers; else the first candidate with a quorum |
| PoolReload.MajorityIsActive | src/rollout_market/pool_reload.py:107-128 | a majority version is the active one for every candidate list that names it |
| PoolReload.KnownByFirstHolder | src/rollout_market/pool_reload.py:86-92 | known versions stand in the order of their first holders |
| PoolReload.DefaultAnswer | src/rollout_market/pool_reload.py:121-128 | with default candidates a version with a quorum is answered iff the first holder of every other one stands before its own |
| PoolReload.DefaultIsNewestIff | src/rollout_market/pool_reload.py:53-55 | the newest version with a quorum is answered iff its first holder stands behind that of every older one |
| PoolReload.DefaultOrderIsNotByAge | src/rollout_market/pool_reload.py:121-123 | three acknowledgements after which the older of two versions is answered |

## Left out

- HTTP and proxy handling, SSH, engines, subprocesses, files and command lines: I/O and foreign calls.
- HTML rendering, charts, labels and dashboards: user interface.
- JSON text, regular expressions, sha256 and tokenizers: abstract values and function parameters; tool-call blocks are taken to be written and read back without loss.
- Float rounding and numpy shapes: real numbers; `std_weight` appears as its square, the variance.
- Clock, uuids and random numbers: parameters; uuids are taken to be fresh.
- Validators that only refuse blank strings, and record fields nothing else reads (rewards, prices, regions, timestamps of records).
- `worker_health`, `lease`, `heartbeats`, `has`, `is_worker_aligned`, `__len__` and other plain look-ups: easy members.
- Free-text `reason` messages of decisions and records.
- ShareGptAdapter.AdaptShareGptTrajectory: the text of tool contents that are JSON objects is taken as already rendered.
- Provenance.ProvenanceIff: the request headers that could name prompt index and turn are left out, since the driver never sends them; its "only if" half is for probes that differ from each other, so that one can be recognised where it lands.
- TaskLists.OtherListsMisplace: like all of provenance, takes the hash of a text to be free of collisions and never made of digits alone.
- SimulationObjects.RunSimulation: job and worker names come as arguments with the distinctness that the numbered names have.
- MismatchMetrics.ConcentrationBound: the cut-off is the integer part of n/100 without float rounding.
- Endpoint probe, engine filter, dispatcher, registry, feedback, group-hash verifier and the vLLM patch script: shallow properties only.
- Soft answer matching and number extraction: a parameter of the divergence report.
