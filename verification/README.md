# Verification of the batch workflow

This project models how one e-waste batch moves from draft to completion, and proves what its
protocols and its two arithmetic kernels promise.

* **Matching.** The store freezes a snapshot, hands it to a worker, and accepts a result only if it
  equals its own recomputation and a fresh locked snapshot still hashes the same. `MatchingStore`
  states each call as a step on the tables, `StoreTransactions` runs it in place, `StoreRuns` proves
  what every interleaving keeps. `MatchingWorker` is the resumable stage machine of the worker,
  `WorkerRuns` the two machines together with lost calls, `WorkerProgress` termination, and
  `WorkerConflicts` what happens when another client commits the run. `Observations` says what a frozen
  snapshot holds of the configuration tables, `StoreAnswers` what each call answers and leaves behind,
  `Deliveries` where a record ends in either worker, all on the rows alone.
* **Evaluation.** `Snapshots` has the schema, both validators and the normal form; `Evaluators` the
  Python and the Go evaluation and their agreement; `GoContract` the Go loops; `Sorting` the orders.
  `Validity` states a valid snapshot limit by limit, `Candidates` every field of every candidate on the
  organisation's own rows.
* **Kafka.** `KafkaRunner` tracks offsets, buffers, asynchronous steps and rebalances, with a ghost
  record of each ownership period; `KafkaProgress` bounds the turns that commit every record.
* **Outbox.** `Outbox` has the claim query and the guarded marks, `OutboxRelays` any number of
  overlapping relays, `OutboxDraining` rounds with publishes that fail for a while.
* **Lifecycle.** `BatchCase` is one batch with its child rows and what each transaction makes of it,
  `CaseInvariant` what these keep. `Workflow` adds pools, claims, reservations and idempotent
  commands; `WorkflowTransactions` runs the services in place; `WorkflowRuns` and
  `WorkflowHistories` prove what every history of commands keeps. `Permissions` writes out, on the
  rows, who may run each command, when, and what it changes; `Authority` proves that every history
  keeps to it. `WorkflowExamples` drives one batch
  from draft to completion under the real validations, for the two histories that show what the code
  does not promise.
* **Platform.** `Platform` runs the matching store and the workflow over the same batches, so that a
  claim rests on a decision the store itself recorded.
* **Impact figures.** `Decimals` has every parser and printer of weights, `Impact` the treatment
  split, the d3-v1 evaluation in Python and its validation in Go. `Intake` is what a submission and a
  receipt must pass, `WorkflowFigures` carries it to every treatment event of every history.
* **Completion.** `Completions` relates preparation, acknowledgement and reply; `AnalyticsWorker` is
  the processing worker and its runs against the service, `AnalyticsConflicts` what it gets from a
  batch that already holds a result.

A transaction is one atomic step. Fresh identifiers and the clock are parameters, and a digest is the
value it digests, so that equal digests mean equal values. Leases are an adversary: a lease may be
refused, its renewal may fail, the transaction may be rolled back, or commit without the service
seeing it. Durations and instants are integer microseconds, weights are cents once stored.

Where the code does not give what one might expect, the model follows the code:

* `signedCents` reads back what `formatSignedCents` prints even for the least 64-bit value, whose
  printed form is not a number; `Decimals.SignedRoundTrip` covers it.
* The worker never leaves REFRESH once its refreshes are used up (`WorkerProgress.ChurnNeverEnds`),
  and repeats for ever a refresh that is behind the run (`WorkerProgress.LateRefreshLivelock`),
  which another client's refresh of the run brings about (`WorkerProgress.OthersOvertake`). From a
  calm or an overtaken REFRESH, `WorkerProgress.RefreshEnds` says exactly when it ends.
* A worker whose run another client refreshes and commits with other counts can neither commit nor
  accept the stored result: it asks for the run and rejects the honest reply for ever
  (`WorkerConflicts.OthersDisagree`, `WorkerConflicts.ForeignCommitSticks`).
  `WorkerConflicts.ForeignCommitEnds` has the exact condition.
* A result with another run id, once stored for a source event, refuses the processing worker for ever
  (`AnalyticsConflicts.ForeignRunSticks`). `AnalyticsConflicts.CommitAccepted` says exactly when its
  commit is accepted.
* A key can succeed twice with different requests (`WorkflowExamples.KeySucceedsTwice`): an
  acknowledgement of a batch that already holds its result is answered from that result and leaves
  its own key unused. `WorkflowHistories.SuccessIsStored` says that this is the only such case.
* The worker checks the correlation id of a reply, but a repeated call gets the one of the call that
  stored the reply, so a repetition can fail the check for good
  (`WorkflowExamples.ForeignCorrelationFails`). `Completions.CompletionReplyPasses` has the exact
  condition.
* An unsupported rule set is a final error for the worker, but the facade sends it as a server error,
  so the delivery is tried again (`Deliveries.FacadeCodesEnd`).
* Go refuses lead times above the range of its duration type and capabilities whose pool is missing;
  Python refuses submissions within ninety days of the end of the calendar.
  `Evaluators.EvaluatorsReturn` states exactly when both return.
* Claims and assignments narrow the expected version to 32 bits. The model narrows it too, so the
  theorems hold for every expected version.

## Model

| member | source | states |
|---|---|---|
| `StoreRuns.DecisionsAreCurrent` | src/backend/internal/matching/store.go:409-484 | in every interleaving of prepare, get, refresh, commit and outside changes of batches and configuration, each recorded decision was written by a commit whose own fresh snapshot, at the frozen evaluation time, hashed and evaluated to it |
| `StoreRuns.CommittedDecisionsMean` | src/backend/internal/matching/store.go:451-456 | a committed decision is the Go evaluation of its snapshot, the Python one too wherever Python returns one; its candidates are matched exactly for the eligible organisations of the snapshot, and it is MATCHED exactly when there is one |
| `StoreRuns.OneMatchPerVersion` | src/backend/internal/matching/store.go:486-537 | over every execution, at most one MATCHED decision exists per batch and version |
| `StoreRuns.VersionRisesWithMatch` | src/backend/internal/matching/store.go:520-536 | a store call raises a batch version by one exactly when it writes a MATCHED decision for it, and otherwise leaves the row alone |
| `StoreRuns.LaterRunsSkipped` | src/backend/internal/matching/store.go:445-456 | once a version has its match, an open run on it can only commit to SKIPPED and records no decision |
| `StoreRuns.LaterRunsOpenSkipped` | src/backend/internal/matching/store.go:311-316 | a run first prepared after the match completes at once as SKIPPED |
| `StoreRuns.RunsEvolve` | src/backend/internal/matching/store.go:359-407 | between any two moments a run keeps its request, key and decision id, its generation never falls, and a completed run is frozen |
| `StoreRuns.GenerationCountsRefreshes` | src/backend/internal/matching/store.go:377-405 | the generation is one plus the number of refreshes that took effect |
| `StoreRuns.CompletedAnswers` | src/backend/internal/matching/store.go:177-204 | every later call on a completed run answers with its result up to the replay flag, or a conflict or an invalid output, and changes nothing |
| `Observations.ObservationExact` | src/backend/internal/matching/store.go:86-155 | a snapshot is observed exactly when the batch is complete and one rule set is in force at the instant, from its first instant up to its retirement; it then holds one organisation for each active facility row and no other, with its last profile row and exactly its own capability, pool and zone rows |
| `Observations.DecisionsJudgeFacilities` | src/backend/internal/matching/store.go:409-484 | in every execution a recorded decision judged exactly the active facilities of the state it was committed in, one candidate each |
| `StoreAnswers.PrepareMeans` | src/backend/internal/matching/store.go:206-340 | what prepare answers and stores, condition by condition: malformed requests, a used key with the same and with another request, a submission without its own outbox row, a batch that moved on, a frozen context |
| `StoreAnswers.RefreshMeans` | src/backend/internal/matching/store.go:359-407 | only the context marked stale is refreshed, into the next generation of the same decision; every other call says why not and changes nothing |
| `StoreAnswers.CommitMeans` | src/backend/internal/matching/store.go:409-537 | only the recomputation of the current context is recorded, with the whole decision, run and batch row written out; each refusal is tied to its cause |
| `StoreAnswers.GetMeans` | src/backend/internal/matching/store.go:342-357 | a known run is shown as it is, an unknown one is NOT_FOUND |
| `StoreRuns.InvHolds` | src/backend/internal/matching/store.go:260-340 | the invariant over runs, keys, decisions and batch rows holds in every reachable state |
| `StoreTransactions.EffectiveRule` | src/backend/internal/matching/store.go:86-110 | the scan returns the rule set exactly when one is effective at the instant |
| `StoreTransactions.CollectOrganisations` | src/backend/internal/matching/store.go:111-150 | the scan assembles the approved organisations with their own last profile, pools, capabilities and zones |
| `StoreTransactions.Store.Snapshot` | src/backend/internal/matching/store.go:86-155 | the frozen snapshot, or the error of the first step that fails |
| `StoreTransactions.Store.Prepare` | src/backend/internal/matching/store.go:260-340 | the new tables and the reply are the specified ones, for a replay, a conflict, a skipped and a fresh run |
| `StoreTransactions.Store.Refresh` | src/backend/internal/matching/store.go:359-407 | the new tables and the reply are the specified ones in every branch |
| `StoreTransactions.Store.PersistResult` | src/backend/internal/matching/store.go:486-537 | either the whole write of a decision, or an error and untouched tables |
| `StoreTransactions.Store.Commit` | src/backend/internal/matching/store.go:409-484 | the new tables and the reply are the specified ones in every branch, including the stale mark |
| `WorkerRuns.WorkerTrustsHonestStore` | src/matcher/matcher/worker.py:64-143 | with an honest store, calls lost at any point, and others that do anything but commit or refresh its run, the worker never calls a reply invalid, holds only outputs its own evaluation gives, and is done as committed or skipped only when the run is completed that way |
| `WorkerRuns.WorkerStepHolds` | src/matcher/matcher/worker.py:106-185 | one step, whatever becomes of its call, keeps the joint invariant of worker and store |
| `WorkerRuns.RealPartsFit` | src/matcher/matcher/facade.py:113-151 | the Go recomputation and the Python validator and evaluator satisfy the hypotheses of the joint run |
| `WorkerRuns.RealContextAccepted` | src/matcher/matcher/contract.py:131-188 | a context Go froze passes the Python validation and is already in normal form |
| `WorkerProgress.StepProgress` | src/matcher/matcher/worker.py:106-185 | with calls answered and the configuration stable, every step of an unfinished delivery decreases a measure of at most 17 |
| `WorkerProgress.WorkerTerminates` | src/matcher/matcher/worker.py:106-185 | such a run is DONE after at most that many steps, whatever stage it starts in, if a refresh is left or the held context is current |
| `WorkerProgress.RefreshEnds` | src/matcher/matcher/worker.py:136-185 | from a REFRESH that is calm or overtaken, with every call answered, the delivery is DONE within twelve steps if and only if it has a refresh left and nobody has overtaken it |
| `WorkerProgress.ChurnNeverEnds` | src/matcher/matcher/worker.py:138-139 | without a refresh left, any run of steps with any answers, and of changes by others, leaves the worker in REFRESH with the same context |
| `WorkerProgress.LateRefreshLivelock` | src/matcher/matcher/worker.py:155-158 | a worker whose held hash is behind the run is, after any number of answered steps, in the same state over the same tables |
| `WorkerProgress.OthersOvertake` | src/backend/internal/matching/store.go:359-407 | a calm worker at REFRESH with a refresh left is overtaken as soon as another client refreshes the same run at another instant |
| `WorkerConflicts.OthersPreempt` | src/matcher/matcher/worker.py:117-135 | a worker about to commit is preempted whenever others, refreshing and committing as they like, end its run as committed |
| `WorkerConflicts.OthersDisagree` | src/backend/internal/matching/store.go:359-484 | a worker about to commit on a stale run is preempted with another conclusion as soon as another client refreshes the run at an instant where the store itself evaluates otherwise, and commits that |
| `WorkerConflicts.ForeignCommitSticks` | src/matcher/matcher/worker.py:64-69 | a preempted worker that holds another outcome or other counts than were committed never ends, whatever becomes of its calls and whatever others do, and reports every answer it gets in RESOLVE as invalid |
| `WorkerConflicts.ForeignCommitEnds` | src/matcher/matcher/worker.py:117-185 | with its calls answered, a preempted worker is DONE after two steps if and only if it holds the committed outcome and counts |
| `MatchingWorker.Processor.Respond` | src/matcher/matcher/worker.py:64-93 | the delivery after a run response, including the fields assigned before a failed check |
| `MatchingWorker.Processor.Refuse` | src/matcher/matcher/worker.py:154-179 | the delivery, delay and incident after a facade error |
| `MatchingWorker.Processor.Advance` | src/matcher/matcher/worker.py:106-185 | the delivery, delay and incident of one whole step are the specified ones |
| `Deliveries.RefusalMeans` | src/matcher/matcher/worker.py:154-179 | what each refusal does to the delivery: refresh, the result of a skipped run, resolving, quarantine, a kept rejection, or another try with everything else unchanged |
| `Deliveries.FacadeCodesEnd` | src/backend/internal/matching/http.go:69-82 | of the codes the facade sends only three end a delivery; the final code for an unsupported rule set is sent as a server error and is retried |
| `Deliveries.BackoffDoubles` | src/matcher/matcher/worker.py:57-62 | the wait starts at the base, doubles with every failure up to the longest wait and stays there, and is never shorter than the server asks |
| `Deliveries.RecordDecides` | src/matcher/matcher/worker.py:106-152 | for any answers: an unrelated record is ignored at once, a malformed one ends quarantined exactly when its dead letter was published, a submission is never ignored and ends only with a disposition |
| `Deliveries.StepMeans` | src/matcher/matcher/worker.py:64-185 | a whole step, stage by stage and answer by answer, on the fields: only a reply about the own run that fits event, counts, versions and held output is believed, and a context only of a later generation of the same decision replaces the held one |
| `Deliveries.StepConsistent` | src/matcher/matcher/worker.py:106-185 | for any answer the fields that the next stage reads are present |
| `KafkaRunner.CommitsAreContiguous` | src/matcher/matcher/kafka.py:123-192 | in each ownership period the commits strictly increase, and the i-th one acknowledges the i-th delivered record, which reached DONE in a step begun in that period |
| `KafkaRunner.OnlyTurnsCommit` | src/matcher/matcher/kafka.py:159-192 | a commit happens only in a turn of its own partition whose current delivery is DONE, and acknowledges exactly that offset plus one |
| `KafkaRunner.OneStepAtATime` | src/matcher/matcher/kafka.py:159-192 | never two running steps for one delivery |
| `KafkaRunner.Loop.OnAssign` | src/matcher/matcher/kafka.py:123-133 | the runner after an assignment is the specified one, with a new generation and fresh jobs |
| `KafkaRunner.Loop.OnRevoke` | src/matcher/matcher/kafka.py:135-145 | the runner after a revocation has dropped the revoked partitions and their jobs, and nothing else |
| `KafkaRunner.Loop.OnRecord` | src/matcher/matcher/kafka.py:147-157 | a record starts a job or joins the buffer of the running one |
| `KafkaRunner.Loop.Advance` | src/matcher/matcher/kafka.py:159-192 | one pass over the jobs is the specified fold of their turns, and every turn does what its branch says on the fields: wait, submit one step, commit and go on, or retry the commit later |
| `KafkaProgress.TurnTells` | src/matcher/matcher/kafka.py:159-192 | what a turn does to jobs, deliveries, futures and committed offsets in every branch; a due delivery that is not DONE gets exactly one new running step, which its job points at |
| `KafkaProgress.ServedRecordsAreCommitted` | src/matcher/matcher/kafka.py:159-192 | over executions: if a delivery is DONE after at most n steps, n + 1 due turns with a taken commit for each record delivered in an ownership period commit them all, whatever else happens in between |
| `KafkaProgress.JobGetsServed` | src/matcher/matcher/kafka.py:165-178 | such a turn is never far: a running step may end, then every turn from the due instant on is one |
| `OutboxRelays.FirstPublicationsFollowKeys` | src/backend/internal/outbox/relay.go:153-204 | whatever relays overlap, crash or report late, an event is published only after every event of its batch that is earlier by version, creation and identifier |
| `OutboxRelays.NothingFollowsQuarantine` | src/backend/internal/repository/outbox.go:76-121 | behind a quarantined event nothing of the batch is ever published or claimed |
| `OutboxRelays.FinalStatesAbsorb` | src/backend/internal/repository/outbox.go:126-266 | published and quarantined rows never change again |
| `OutboxRelays.PendingIsDue` | src/backend/internal/repository/outbox.go:94-216 | in every execution a pending row has the instant of its next attempt, so that no failure, lease or crash strands it |
| `OutboxRelays.ActionTells` | src/backend/internal/outbox/relay.go:153-204 | which rows each relay action changes and how, field by field: a claim leases and counts the attempt, a mark publishes, quarantines or sets the next attempt after the backoff, nothing else changes a row |
| `OutboxDraining.UnblockedBatchesDrain` | src/backend/internal/outbox/relay.go:153-204 | as many rounds as rows are waiting, besides the rounds lost to transient errors alone, publish every event of every batch without a quarantined one, failed events included; only a refused event blocks a batch |
| `OutboxRelays.ProcessOnce` | src/backend/internal/outbox/relay.go:153-204 | one round claims what the query allows, leases it, and marks each outcome in order until it stops |
| `Outbox.Repository.NextEligible` | src/backend/internal/repository/outbox.go:76-121 | the least eligible row that is not chosen yet, or none when there is none |
| `Outbox.Repository.ClaimPending` | src/backend/internal/repository/outbox.go:55-124 | the chosen rows are the earliest due, unlocked, pending ones of batches without a quarantined row, in order, each once and all of them up to the limit; they get the lease and one more attempt, and no other row changes |
| `Outbox.Repository.Record` | src/backend/internal/repository/outbox.go:126-266 | a mark changes a row only while it is pending, into the published, quarantined or rescheduled row written out field by field; otherwise it reports the conflict |
| `Evaluators.EvaluatorsReturn` | src/matcher/matcher/core.py:8-73 | exactly when the Go and the Python evaluation each return an output, and that the outputs are then equal, candidates, failures, evidence, counts and outcome |
| `Evaluators.CandidatesAgree` | src/matcher/matcher/core.py:8-57 | per organisation: last match in cents and first match in decimals give the same candidate, when the lead time fits the Go duration |
| `Evaluators.MatchedMeansEligible` | src/matcher/matcher/core.py:8-57 | a candidate is matched exactly when the organisation meets the five conditions stated on their own |
| `Evaluators.OutcomeMeans` | src/matcher/matcher/core.py:60-73 | for each evaluation that returns: MATCHED exactly when an eligible organisation exists, and the reason for an empty directory |
| `Evaluators.RankedMeans` | src/matcher/matcher/core.py:60-73 | for each evaluation that returns: candidates follow the organisations in identifier order, one each, each with its meaning; a capability whose pool nobody has fails |
| `Evaluators.RankedOrder` | src/matcher/matcher/core.py:60-73 | that order is a permutation of the snapshot sorted by identifier |
| `Candidates.OutputsTell` | src/matcher/matcher/core.py:8-57 | every candidate of either evaluator, field by field on the organisation and the batch: exactly the failing rules with their own reasons in order, the reason of the least, the rows and versions used, what is left of the pool, lead time and feasible instant, the missing configuration |
| `Candidates.HeadersTell` | src/matcher/matcher/core.py:60-73 | the head of the output: identifiers and digests of the snapshot, counts of organisations and of matched candidates, outcome and primary reason |
| `Evaluators.FailuresExact` | src/matcher/matcher/core.py:30-35 | the failure list has exactly the failed conditions, in order |
| `Evaluators.ReorderingInvisible` | src/matcher/matcher/contract.py:108-124 | reordering organisations, capabilities, pools, zones or conditions changes neither the hashed normal form, nor validity, nor either output |
| `GoContract.ExpectedOutput` | src/backend/internal/matching/contract.go:212-323 | the Go loop with its accumulators returns the specified output, or none |
| `GoContract.EvaluateOrganisations` | src/backend/internal/matching/contract.go:222-306 | the loop over organisations collects the candidates and counts the eligible ones, and stops on a lead time it cannot represent |
| `GoContract.EvaluateOrganisation` | src/backend/internal/matching/contract.go:223-306 | the candidate of one organisation from lookups that keep the last match |
| `GoContract.Lookup` | src/backend/internal/matching/contract.go:226-241 | the overwriting loop returns the last match |
| `GoContract.CollectFailures` | src/backend/internal/matching/contract.go:273-279 | the appended failures are those of the false flags |
| `GoContract.SortSlice` | src/backend/internal/matching/contract.go:104-125 | the sorted slice is a permutation in key order |
| `GoContract.Normalize` | src/backend/internal/matching/contract.go:104-125 | the sorts give a rearrangement in key order at every level, and with unique identifiers the one normal form |
| `Snapshots.ValidatorsAgree` | src/matcher/matcher/contract.py:131-188 | the Go validator plus a ninety-day window inside the calendar accepts exactly what the Python validator accepts with every capacity pool present |
| `Validity.ValidExactly` | src/backend/internal/matching/contract.go:133-210 | a snapshot is accepted exactly when every text, figure and instant is within its written-out limit, no identifier, code, category or zone repeats, and the digests are those of the normal form |
| `Validity.IntakeAgrees` | src/backend/internal/service/batch.go:780-849 | what a submission passes is what a snapshot asks of the batch, apart from the calendar and the form of the organisation identifier |
| `Snapshots.NormalFormInvariant` | src/matcher/matcher/contract.py:108-124 | two orderings of the same organisations have one normal form |
| `Snapshots.NormalFormStable` | src/backend/internal/matching/contract.go:104-131 | normalising twice is normalising once, and keeps both validities |
| `Validity.NormalInOrder` | src/backend/internal/matching/contract.go:104-125 | the normal form lists organisations and pools by identifier, capabilities by category, zones by zone and conditions by name |
| `Snapshots.GoValidKept` | src/backend/internal/matching/contract.go:133-210 | reordering keeps Go validity |
| `Snapshots.PyValidKept` | src/matcher/matcher/contract.py:131-188 | reordering keeps Python validity |
| `Sorting.OrderUnique` | src/backend/internal/matching/contract.go:104-125 | when the key separates the elements, there is one sorted permutation |
| `Sorting.AtMostMeans` | src/backend/internal/matching/contract.go:104-125 | the order of the sort keys: a text comes before its extensions and before whatever first differs by a greater character |
| `Decimals.ParsersAgree` | src/backend/internal/matching/contract.go:66-83 | on the common grammar of plain amounts every parser either returns the amount or refuses it, each with its exact limit |
| `Decimals.MoneyRoundTrip` | src/backend/internal/matching/contract.go:66-90 | cents printed by money are read back exactly when they are not negative |
| `Decimals.TreatmentRoundTrip` | src/backend/internal/service/treatment.go:297-325 | treatment cents are read back exactly from 0 to 5,000,000,099 |
| `Decimals.SignedRoundTrip` | src/backend/internal/service/analytics.go:574-619 | signed cents are read back for every 64-bit value, the least one included |
| `Decimals.PyRoundTrip` | src/matcher/matcher/analytics.py:14-25 | kg and weight undo each other exactly from 0.00 to 99999.99 |
| `Decimals.JsRoundTrip` | src/frontend/src/lib/workflow/kg.ts:1-16 | formatKg and parseKg undo each other exactly from 0 to 99,999,999 hundredths |
| `Decimals.PrintersAgree` | src/matcher/matcher/analytics.py:24-25 | the Python and the Go signed printer give the same text for every value above the least one |
| `Decimals.PyNegativeRefused` | src/matcher/matcher/analytics.py:14-21 | a leading minus is refused as a negative outcome weight whatever follows |
| `Impact.NormalizeTreatmentRequest` | src/backend/internal/service/treatment.go:226-295 | the normalisation with its machine integers returns the specified treatment or error |
| `Impact.BalanceCents` | src/backend/internal/service/treatment.go:266-290 | the 64-bit sums and differences do not overflow and split the received weight |
| `Impact.TreatmentConservesMass` | src/backend/internal/service/treatment.go:266-295 | in an accepted treatment reused, recycled, disposed and unknown add up to the received weight, and diverted is reused plus recycled |
| `Impact.TreatmentAccepted` | src/backend/internal/service/treatment.go:226-295 | exactly which requests are accepted |
| `Impact.TreatmentSays` | src/backend/internal/service/treatment.go:226-295 | a recorded treatment carries the amounts of the request by name and its trimmed evidence, what is diverted and what is unknown follow from them; a refusal names the first thing that is wrong |
| `Impact.PyImpactAgrees` | src/matcher/matcher/analytics.py:28-65 | the Python decimals compute the result of the independent definition in cents |
| `Impact.GoAcceptsCents` | src/backend/internal/service/analytics.go:393-475 | the Go validator accepts that result |
| `Impact.AcceptedResultUnique` | src/backend/internal/service/analytics.go:419-523 | the Go validator accepts at most one result for an event |
| `Impact.ExpectedAnomalyCodes` | src/backend/internal/service/analytics.go:477-523 | the appended codes are the expected ones in canonical order, or none when the figures cannot be read |
| `Impact.EvaluateOutcome` | src/matcher/matcher/analytics.py:47-65 | the outcome part of the evaluation, with its appended flags |
| `Impact.TreatmentEventAcknowledged` | src/backend/internal/service/treatment.go:353-410 | every event a treatment of valid figures can produce is acknowledged by Python exactly under the d3-v1 rule, and Go then accepts that result and no other |
| `Intake.NormalizedReceivable` | src/backend/internal/service/receipt.go:188-208 | whatever a client sends, a normalised receipt is receivable, and a receipt is receivable exactly when normalising it changes nothing |
| `WorkflowFigures.FiguresHold` | src/backend/internal/service/batch.go:780-849 | in every reachable state what was submitted passed the checks of the submission, what was received is a normalised receipt, and a treatment event has the measures of a request on the figures of its batch |
| `WorkflowHistories.AssignmentsAgree` | src/backend/internal/service/assignment.go:75-191 | status, claim and assignment pointers, sequence numbers, previous links, alternating collectors and handoffs of a batch agree in every reachable state |
| `WorkflowHistories.PoolsConserve` | src/backend/internal/repository/claim.go:299-328 | every pool has reserved = opening + the sum of its reservations, and never more than its total |
| `WorkflowHistories.OneClaimPerBatch` | src/backend/internal/service/claim.go:109-301 | from APPROVED on a batch has one claim, which is its current one, with one reservation of the batch weight; no two claims share a batch |
| `WorkflowHistories.ClaimRestsOnOnlyMatch` | src/backend/internal/repository/claim.go:177-275 | a claim names a MATCHED decision of its batch, the batch has no other, the claimant is a matched candidate of it, and the reserved pool is that candidate's |
| `WorkflowHistories.RacedClaimAnswers` | src/backend/internal/service/claim.go:301-386 | whatever becomes of the lease, its renewal and the commit, and whatever others do before the service looks again, a claim is answered by the durable command row: a committed one with its own result unless its actor is refused by then, while one rolled back has left no trace |
| `WorkflowHistories.AuditChains` | src/backend/internal/service/batch.go:572-609 | for each version one audit entry raised it, and from/to statuses chain from DRAFT to the current status |
| `WorkflowHistories.AuditRemembers` | src/backend/internal/service/batch.go:572-609 | the to-status of an audit entry is the status the batch had when it had that version |
| `WorkflowHistories.OneChangePerKey` | src/backend/internal/service/batch.go:417-450 | calls with the same scope, command and key change the state at most once, and the later ones not at all |
| `WorkflowHistories.LaterCallsReplay` | src/backend/internal/service/claim.go:388-417 | after any successful call of a key that did not echo a result, every later call of it changes nothing, and an admitted one returns the same reply for the same request and IDEMPOTENCY_CONFLICT for another |
| `WorkflowHistories.SuccessIsStored` | src/backend/internal/service/analytics.go:67-110 | a successful call in every history leaves its request and its reply under its key if and only if it is not an acknowledgement, under an unused key, of a batch that holds a result of that source event, and that acknowledgement changes nothing |
| `WorkflowExamples.KeySucceedsTwice` | src/backend/internal/service/analytics.go:67-110 | a history under the real validations in which one key succeeds twice, with different well-formed requests and different replies |
| `WorkflowExamples.DoneHistory` | src/backend/internal/service/batch.go:780-849 | under the real validations some history takes a batch from draft to RECYCLED and, by the result the worker computes, to COMPLETED, whatever correlation id the acknowledgement carries |
| `WorkflowHistories.CompletedExactlyOnce` | src/backend/internal/service/analytics.go:55-296 | COMPLETED holds exactly when one result exists, made from the version before and from the frozen source event |
| `WorkflowHistories.WorkflowIsEnvironment` | src/backend/internal/service/assignment.go:501-537 | what every workflow command does to a batch row is what the matching store assumes of its environment |
| `WorkflowHistories.CommandsDecideNothing` | src/backend/internal/service/batch.go:417-450 | no workflow command adds, drops or changes a decision |
| `Authority.ExecuteTells` | src/backend/internal/service/assignment.go:54-538 | every command writes exactly when its caller, versions and rows meet the conditions written out, with exactly the effect written out; otherwise the first unmet condition names the error |
| `Authority.ChangesAreRightful` | src/backend/internal/service/batch.go:68-415 | every change in every history is a first, vetted and permitted call with exactly its effect, or a matching commit |
| `Authority.OnlyTheCollector` | src/backend/internal/service/assignment.go:249-250 | whenever a step of a history changes the status of an assignment, it is a call of the collector of that assignment, on the current assignment and on the narrowed expected version |
| `Authority.OthersAreForbidden` | src/backend/internal/service/assignment.go:386-387 | anyone else who accepts, rejects, hands off or fails the assignment is answered FORBIDDEN and nothing changes |
| `Authority.FirstCallTells` | src/backend/internal/service/receipt.go:22-171 | the first call of a key answers and writes exactly when the command is permitted, and stores its request and reply under the key |
| `Authority.UnvettedRefused` | src/backend/internal/service/claim.go:49-107 | a call with a bad request, a refused actor or a lease that is taken changes nothing and says which |
| `Authority.KeysApart` | src/backend/internal/service/batch.go:452-521 | two calls share a key exactly when scope, command and key are the same; the key of a recovery is its assignment |
| `Permissions.RepeatedExactly` | src/backend/internal/service/analytics.go:67-110 | a repeated acknowledgement is answered from the stored result exactly when run, version, input, rule, quality, metrics and, in any order, anomalies are the same |
| `WorkflowHistories.InvHolds` | src/backend/internal/service/claim.go:109-301 | the joint invariant over batches, pools, claims, reservations and assignments holds after every history |
| `Platform.RunHolds` | src/backend/internal/matching/store.go:486-537 | along every run of the store and the workflow over the same tables both keep their invariants, every batch row is the same in both, and the decisions of a batch are exactly those the store recorded |
| `Platform.DecisionIsMatch` | src/backend/internal/matching/store.go:486-537 | a store call that writes a decision changes the batch row exactly as the match step of the workflow does, and froze the details the batch was submitted with |
| `Platform.ClaimsRestOnDecisions` | src/backend/internal/repository/claim.go:177-275 | in every run of the whole, a claim rests on the one MATCHED decision the store recorded for its batch; the claimant is an eligible organisation of its snapshot, and the reserved pool is one that takes the batch |
| `CaseInvariant.SelectedSound` | src/backend/internal/service/assignment.go:75-191 | a selection keeps the invariant of a batch: next sequence number, link to the latest assignment, another collector |
| `CaseInvariant.PickedUpSound` | src/backend/internal/service/assignment.go:349-485 | a handoff or failed pickup closes the open assignment together with its one handoff |
| `CaseInvariant.RejectedSound` | src/backend/internal/service/assignment.go:268-312 | a rejection supersedes the open assignment and clears the pointer |
| `CaseInvariant.OneEntryRaisesEachVersion` | src/backend/internal/service/batch.go:572-609 | in a sound batch each version has exactly one entry that raised it |
| `WorkflowTransactions.Tables.FindAcceptedClaim` | src/backend/internal/repository/assignment.go:137-158 | the claim the batch points at, if its reservation exists |
| `WorkflowTransactions.Tables.FindEligibleMatch` | src/backend/internal/repository/claim.go:177-275 | the MATCHED decision on the version before and a matched row of the claimant in it, with its own pool, or none when there is none |
| `WorkflowTransactions.Tables.ReserveCapacity` | src/backend/internal/repository/claim.go:299-328 | the conditional update takes effect exactly when the live pool has the weight left |
| `WorkflowTransactions.Tables.UpdateBatch` | src/backend/internal/repository/assignment.go:219-233 | the guarded update raises the version by one with its audit entry, or changes nothing |
| `WorkflowTransactions.Tables.ApplyDraft` | src/backend/internal/service/batch.go:868-934 | the columns after an edit: the supplied ones replaced, the others kept |
| `WorkflowTransactions.Tables.Claim` | src/backend/internal/service/claim.go:109-262 | the tables after a claim are the specified ones; every error puts the reserved capacity back |
| `WorkflowTransactions.Tables.Select` | src/backend/internal/service/assignment.go:75-191 | the tables after a selection are the specified ones in every branch |
| `WorkflowTransactions.Tables.ChangeAssignment` | src/backend/internal/service/assignment.go:216-333 | accepting and rejecting have the specified effect in every branch, which Authority states on the rows |
| `WorkflowTransactions.Tables.RecordPickup` | src/backend/internal/service/assignment.go:349-485 | handoff and failed pickup have the specified effect in every branch, which Authority states on the rows |
| `WorkflowTransactions.Tables.Recover` | src/backend/internal/service/assignment.go:492-538 | recovery, in every branch |
| `WorkflowTransactions.Tables.WriteDraft` | src/backend/internal/service/batch.go:157-415 | editing a draft merges the columns a request carries, submitting freezes them, in every branch |
| `WorkflowTransactions.Tables.VerifyReceipt` | src/backend/internal/service/receipt.go:22-171 | receipt verification, in every branch |
| `WorkflowTransactions.Tables.RecordTreatment` | src/backend/internal/service/treatment.go:24-224 | treatment recording and its frozen event, in every branch |
| `WorkflowTransactions.Tables.AcknowledgeAnalytics` | src/backend/internal/service/analytics.go:55-296 | a first acknowledgement, a repeated one, a conflict and every refusal |
| `WorkflowTransactions.Tables.ClaimLeased` | src/backend/internal/service/claim.go:86-330 | a claim under its lease: busy, down, rolled back, committed unseen, renewal failed, and the look at the command row |
| `WorkflowTransactions.Tables.Invoke` | src/backend/internal/service/claim.go:49-135 | a whole call, with replay, conflict, lease and stored command, has the specified effect and answer |
| `Completions.PreparedInputNeverChanges` | src/backend/internal/service/analytics_prepare.go:51-81 | the prepared input is the same at every later moment, before and after completion |
| `Completions.PreparedFromSource` | src/backend/internal/service/analytics_prepare.go:16-85 | whenever a source event exists, preparing it succeeds with exactly its frozen input, unless its rule version is empty |
| `Completions.PrepareExactly` | src/backend/internal/service/analytics_prepare.go:16-85 | a batch is prepared exactly when it stands at its event or at its completion, with the input of its event; otherwise the first reason against it is the error |
| `Completions.WorkerAckMeans` | src/matcher/matcher/analytics.py:85-110 | the worker acknowledges only the preparation of the very event, with the evaluation of the event and a run named by event, rule and input |
| `Completions.CompletionReplyPasses` | src/matcher/matcher/analytics.py:112-122 | a successful acknowledgement gets a reply that passes the check of the worker if and only if the call that stored the command of its key, or this call while the key is unused, sent the correlation id of the event |
| `Completions.RepeatedReplyPasses` | src/matcher/matcher/analytics.py:112-122 | an admitted repetition of the call that completed the batch succeeds, and its reply passes the check if and only if that first call sent the correlation id of the event |
| `WorkflowExamples.ForeignCorrelationFails` | src/matcher/matcher/analytics.py:112-122 | a history under the real validations in which a repetition with the right correlation id gets a reply that fails the check |
| `Completions.TreatmentCompletes` | src/backend/internal/service/analytics.go:55-296 | in every history with the real validations, a batch in RECYCLED is evaluated exactly under the d3-v1 rule, and accepts the acknowledgement of the worker and no other |
| `AnalyticsWorker.AnalyticsProcessor.Advance` | src/matcher/matcher/analytics_worker.py:35-73 | the delivery and the delay of one step are the specified ones |
| `Deliveries.AnalyticsRecordDecides` | src/matcher/matcher/analytics_worker.py:35-73 | for any answers: an unrelated record is ignored, a malformed one and one without a version left are retried, any other is completed or still in work |
| `Deliveries.AnalyticsStepMeans` | src/matcher/matcher/analytics_worker.py:35-73 | a whole step of the processing worker, stage by stage and answer by answer, on the fields, with the failure each status means |
| `AnalyticsWorker.WorkKeeps` | src/matcher/matcher/analytics_worker.py:35-73 | whatever becomes of its call, a step keeps the joint invariant of worker and service and never goes back; a served step goes forward |
| `AnalyticsWorker.WorkerCompletes` | src/matcher/matcher/analytics_worker.py:35-73 | against an honest service with losses and other instances that acknowledge as it does, the worker reports no contract violation, is done only when the batch is completed with its own result, and is done after four served steps |
| `AnalyticsConflicts.CommitAccepted` | src/backend/internal/service/analytics.go:67-160 | in every history under the real validations, an admitted commit of the worker under its unused key succeeds if and only if the batch holds no result yet or the result of the same run; any other is IDEMPOTENCY_CONFLICT |
| `AnalyticsConflicts.ForeignRunRefuses` | src/backend/internal/service/analytics.go:67-110 | once a batch holds a result of another run, every later acknowledgement with this run id is refused and changes nothing |
| `AnalyticsConflicts.ForeignRunSticks` | src/matcher/matcher/analytics_worker.py:35-73 | a worker that commits against a result of another run stays at COMMIT for ever, whatever becomes of its calls and whatever others do |
| `AnalyticsWorker.TreatmentIsCanonical` | src/backend/internal/service/treatment.go:353-410 | in every history with the real validations, the event of a batch in RECYCLED under the d3-v1 rule meets the hypotheses of that run |

## Left out

- JSON bytes, schema files, SHA-256 and UUID shapes: identifiers are opaque strings, digests are the digested values.
- Error codes of snapshot validation: the validators are accept or reject, and the duplicate checks of their loops are predicates.
- Event fields that no decision reads, and malformed event dictionaries.
- The MISSING_RECEIPT refusals of the impact evaluation: the event type of the model always carries the actual figures.
- Rounding of Python decimals: every operand has at most two decimals, where it is exact; `real` stands for Decimal.
- Case folding outside ASCII when categories are compared.
- MySQL isolation levels, locks and deadlocks: transactions are serialisable; plain reads read the same state.
- Floating point: the range of a draft or receipt weight is checked on its exact cents, and the cents a claim reserves are a function parameter.
- Validation of other request fields, actor and scope lookups, and the live join of claim matching on capabilities and zones: arbitrary booleans per call, and an arbitrary choice among the matched rows of the claimant; the capacity of the pool is checked.
- Candidate, action and outbox rows of the workflow and matching transactions: the outbox is modelled on its own.
- AcknowledgeAnalytics looks a stored result up by source event across all batches: the model looks in the batch, since a source event belongs to one batch.
- Quarantine record contents, health, telemetry, pause and resume of partitions, and the fetch loop of the Kafka client: offsets of a period are taken to increase.
- HTTP, configuration, user interface pages, evidence files, sessions, rate limits and read projections.
- The child rows of a batch (assignments, handoffs, decisions, audit) are sequences in the batch record rather than tables of their own: update in place of one child row is an update of that sequence.
- Completions.CompletionReplyPasses: does not check the shape of the result and event identifiers of the reply, because identifiers are opaque.
- OutboxRelays.FirstPublicationsFollowKeys: assumes that the events of a batch are inserted in key order, as the commands that insert them do under the batch row lock.
- AnalyticsWorker.WorkerCompletes: assumes that whoever else uses the key of the worker or acknowledges the batch does so as the worker would; another run id on the same event is a permanent conflict, by AnalyticsConflicts.ForeignRunSticks.
- WorkerRuns.WorkerTrustsHonestStore: assumes that nobody else commits or refreshes the run of the worker; without that it is false, by WorkerConflicts.ForeignCommitSticks.
- WorkerProgress.WorkerTerminates: is for one worker with every call executed and answered; a second worker can keep it refreshing.
- WorkflowTransactions.Tables.FindEligibleMatch: which of the matched rows of the claimant the live configuration still leaves is an input, because the organisation, capability and zone rows belong to services outside this model.
- WorkerProgress.RefreshEnds: leaves out runs at the greatest 32-bit generation, which cannot be refreshed.
