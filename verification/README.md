# Verified model of the StreamSight agent

StreamSight is a read-only Kafka monitoring agent. Every cycle it collects
metadata, offsets and group state from a cluster, numbers and stamps one batch,
and hands it to an exporter (HTTP or file). A mock ingest in the same repository
checks what arrives. This project models the parts where state, concurrency or
bounded arithmetic decide whether the numbers can be trusted, and proves what the
repository's comments, documentation and tests promise about them.

Verify everything with `dafny verify dfyconfig.toml` (Dafny 4.11).

## How the model is built

Every concurrent part is a transition system: a state, the steps that are enabled,
and lemmas over all runs. The code that works by changing things step by step is
imperative Dafny: classes and loops whose `ensures` tie the new state to a function
of the old one, or to a property stated without the body. The composed results are
about the functions.

| files | what they model |
|---|---|
| `Wire`, `Backoff` | the batch envelope, the Idempotency-Key, the retry delay on 64-bit integers |
| `ExporterMachine`, `ExporterOrder`, `ExporterDrops`, `HttpExporter` | the HTTP exporter: queue, producer, worker, closer, one atomic action a step; the methods of `HttpExporter` run the code as written with other goroutines allowed in between, and are runs of the machine |
| `MockIngest`, `IngestChecks`, `MockIngestServer` | the ingest: delivery memory per agent boot, the duplicate and sequence checks and exactly what they find, the fault schedule |
| `Pipeline`, `PipelineSafety`, `PipelineTotals`, `PipelineWitness`, `PipelineWarnings`, `AgentLoop` | the agent loop, the exporter and the ingest composed as a transition system, and the agent's own code on the exporter's |
| `Admission`, `AdmissionRuns`, `AdmissionLimits`, `SectionOps`, `SectionCell`, `MergeErrors`, `Report`, `Validator` | error deduplication per section, the global cap, the finished blocks, and the independent re-derivation by the validator |
| `EpochTriggers`, `EpochRounds`, `EpochProbes`, `EpochConvergence` | leader-epoch probes: what triggers one, packing into requests, the memory of answered questions, convergence |
| `PhaseGraph`, `PhasePrograms`, `PhaseSafety`, `PhaseTheorems`, `PhaseOffsets`, `PhaseSamples`, `PhaseWaits`, `PhaseEscape`, `PhaseCycle` | the twelve goroutines of one collection cycle, five channels and a wait group, against a log that grows meanwhile |
| `FileRotation` | the JSONL file exporter and its rotation |
| `Histogram`, `RpcWindows` | latency histograms and the swap-and-reset RPC windows |
| `Capabilities`, `Cadence` | capability floors and the phases they gate; staggered cadences |
| `Arithmetic`, `Wrappers` | remainders and multiples; the option type |

Time is an integer and timers are ideal. A network send is a nondeterministic
answer. A Kafka request is sent, possibly answered at some later instant, and
returned. In the phase graph one partition and one group are followed, and the
theorems hold for whichever they are.

## Where the code and its documentation differ

- Backoff: `README.md` of the repository promises a delay uniform in
  `[0, base << (n-1)]` capped at 30 s. The shift is on 64 bits and may wrap to a
  small positive number. `Backoff.CeilingMatchesDocumentation` gives the exact
  condition, `Backoff.WrapUndercutsTheCap` a setting where it fails, and
  `Backoff.NoOverflowInPractice` says when no setting can.
- Retry-After: the delta-seconds value is multiplied on 64 bits before it is
  clamped, so a very large one can come out short, and one that does not fit 64
  bits is ignored. `Backoff.RetryAfterHonoured` gives the exact condition,
  `Backoff.HugeRetryAfterWraps` and `Backoff.UnparsableSecondsIgnored` an input of
  each kind.
- Error counts: an admitted key's counts are meant to sum to its occurrences. They
  do exactly when its first occurrence was not refused
  (`AdmissionRuns.CountsSumToOccurrences`); once 256 keys are remembered a refused
  key is not remembered, and a later request-scoped occurrence undercounts
  (`AdmissionRuns.CeilingUndercounts`). Below that ceiling every key is all or
  nothing.
- Unexplained rejections: the ingest warns when an agent's rejected counter rose
  although this server gave no terminal answer since the batch before, which its
  comment takes for proof that nothing it did explains the rise. A rise is always
  explained (`PipelineWarnings.RejectionsAreExplained`), and under every schedule
  some run draws the warning all the same, because a queued batch carries counters
  from before the answer (`PipelineWarnings.MisfiresUnderEverySchedule`). It cannot
  happen as long as each collection starts with nothing left in the exporter
  (`PipelineWarnings.PacedRunsNeverWarn`).
- Leader-epoch probes: the cap of 1024 is applied before answered questions are
  dropped, so with more mismatches than that some are never asked about
  (`EpochConvergence.StarvedBeyondTheCap`, `EpochConvergence.StarvationExample`).
- Sampling order: a wait given up on cancellation voids it
  (`PhaseEscape.CancellationBreaksTheOrder`); until then it holds
  (`PhaseOffsets.OffsetOrder`).
- Quiescent totals: a fault schedule may inject a status below 400, which the
  client takes for an acceptance the ingest never recorded. In every run the totals
  differ by exactly the answers of that kind drawn for a client still waiting
  (`PipelineTotals.QuiescentTotalsAgree`). A schedule left alone keeps the totals in
  agreement in every run if and only if its fields cannot draw one
  (`PipelineWitness.ScheduleDecides`; `PipelineTotals.MayPass` is the test on the
  fields); schedules of failures only keep them in agreement however they are
  changed (`PipelineTotals.FailureSchedulesAgree`), and
  `PipelineWitness.PassedOffAsAccepted` shows the first request answered 200.

## Model

| member | source | states |
|---|---|---|
| `Wire.DecimalInjective` | internal/export/http.go:475-481 | two sequence numbers with the same decimal text are equal |
| `Wire.SplitAtLastDash` | internal/export/http.go:475-481 | what follows the last dash of a key is the number, so the id before it is determined too |
| `Wire.KeyIdentifiesBatch` | internal/export/http.go:475-481 | two batches share an Idempotency-Key if and only if they have the same boot id (empty counting as "unknown") and the same batch_seq |
| `Backoff.Ceiling` | internal/export/http.go:384-393 | for every base delay and attempt the jitter ceiling is positive and at most 30 s, whatever the 64-bit shift did |
| `Backoff.Jitter` | internal/export/http.go:384-393 | the drawn delay is at most its attempt's ceiling, so never above 30 s |
| `Backoff.JitterIsFull` | internal/export/http.go:384-393 | every delay from none up to the ceiling can be drawn |
| `Backoff.CeilingMatchesDocumentation` | internal/export/http.go:384-393 | the ceiling equals the capped doubling if and only if the product fits 64 bits or its wrapped value is non-positive or not below the cap |
| `Backoff.WrapUndercutsTheCap` | internal/export/http.go:384-393 | a legal base delay and retry number for which the wrap yields a ceiling below the documented one |
| `Backoff.NoOverflowInPractice` | internal/export/http.go:384-393 | for a base delay up to 30 s the first 29 retries have the documented ceiling |
| `Backoff.ClampRetryAfter` | internal/export/http.go:527-532 | a server's delay comes out unchanged or as five minutes, never longer |
| `Backoff.RetryAfterHonoured` | internal/export/http.go:509-532 | a positive delta-seconds value (RFC 9110, section 10.2.3) is honoured up to five minutes if and only if it fits 64 bits and its 64-bit product did not wrap into a shorter delay |
| `Backoff.HugeRetryAfterWraps` | internal/export/http.go:509-525 | a header value whose product wraps to 0.29 s |
| `Backoff.UnparsableSecondsIgnored` | internal/export/http.go:509-525 | a header value of 2^63 + 1000 seconds is ignored, though its wrapped product would have been long enough |
| `Backoff.ParseRetryAfter` | internal/export/http.go:509-532 | absent, numeric, dated or unreadable: the delay is never above five minutes |
| `Backoff.OtherFormsHonoured` | internal/export/http.go:509-532 | a date is waited for up to five minutes; a date past, a number that is not positive, an absent and an unreadable header ask for nothing |
| `Backoff.WhatIsRetried` | internal/export/http.go:499-505 | of the 4xx exactly 408 and 429, every 5xx, and nothing below 400 |
| `ExporterMachine.LocatedStep` | internal/export/http.go:192-380 | no step of producer, worker or closer loses or duplicates any batch: a new call adds one, everything else only moves it |
| `ExporterMachine.EveryBatchHasOneFate` | internal/export/http.go:192-380 | in every interleaving calls = exported + dropped + rejected + queued + in flight + mid-enqueue, batch by batch; the queue is the freshest accepted batches in order and within capacity; the last fallback drop of Export is unreachable |
| `ExporterMachine.NothingLeftAfterClose` | internal/export/http.go:271-319 | once Close has returned the queue and the worker are empty, a late call can only be refused, and every call is in exactly one counter |
| `ExporterMachine.SlotStaysFree` | internal/export/http.go:229-259 | in every reachable state where Export is about to try its third select the freed slot is still free: the send succeeds, the fallback drop cannot happen, and Close cannot begin |
| `ExporterOrder.RunsStayOrdered` | internal/export/http.go:229-319 | with rising batch_seq, what the worker takes and what it exports is strictly increasing, and the queue is newer than everything taken |
| `ExporterOrder.EvictsOnlyTheOldest` | internal/export/http.go:241-249 | an eviction takes the oldest queued batch, older than all that stays and than the one it makes room for |
| `ExporterOrder.OneEvictionPerCall` | internal/export/http.go:229-259 | one Export call evicts at most one batch, whatever runs in between |
| `ExporterDrops.RoomMeansNoEviction` | internal/export/http.go:229-259 | from any state with room in the queue nothing is evicted before the next call, whatever runs in between |
| `ExporterDrops.DropsAreSplit` | internal/export/http.go:192-380 | the dropped counter is, batch for batch, what the producer dropped plus what the worker gave up |
| `ExporterDrops.CallCosts` | internal/export/http.go:192-260 | over any run of a call: a refused or unencodable batch is dropped itself and nothing else; an accepted one costs at most one batch, one that was queued when the call began, and none if the queue had room |
| `ExporterOrder.WorkDecreases` | internal/export/http.go:271-380 | once closing began every step but a new call decreases a bounded measure |
| `ExporterOrder.ClosingRunsAreShort` | internal/export/http.go:271-380 | no run after closing began is longer than that measure |
| `ExporterOrder.ClosingNeverStuck` | internal/export/http.go:271-380 | until Close has returned some step is enabled: no deadlock between producer, worker and closer |
| `HttpExporter.HttpExporter.Export` | internal/export/http.go:192-260 | with any goroutine running between any two actions: the call is a run of the machine, never ends in the full-queue error, refuses only on a done context, an encoding error or a closed exporter, and otherwise puts the batch on the queue; its own drops are the refused batch, or at most one queued batch and none if the queue had room |
| `HttpExporter.HttpExporter.Enqueue` | internal/export/http.go:229-259 | the three selects always end with the batch accepted, whatever runs in between; with room in the queue the batch goes behind what is queued and no counter moves |
| `HttpExporter.HttpExporter.SendWithRetry` | internal/export/http.go:321-380 | at most maxRetries + 1 sends, all but the last answered retryably; the batch ends in the counter its last answer calls for; the time taken is exactly the sends plus the delays between them, at most the retry budget plus one timeout; a retry is made only when its delay fits the budget, and while the exporter is open it gives up only when retries or budget are exhausted |
| `HttpExporter.OutcomeMeaning` | internal/export/http.go:414-505 | below 400 the batch is delivered; no answer, 408, 429 and every 5xx are retried; every other 4xx is terminal |
| `HttpExporter.DelayMeaning` | internal/export/http.go:321-393 | a delay the server asked for is waited out, exactly for 1 to 300 seconds; without one the delay is a draw from the attempt's jitter range |
| `HttpExporter.HttpExporter.WaitToRetry` | internal/export/http.go:397-409 | a wait that runs out leads to the next attempt; it fails only by a shutdown before its timer, and then the batch is dropped |
| `HttpExporter.HttpExporter.Settle` | internal/export/http.go:321-380 | an answer that needs no retry adds the batch once to exported or rejected, and nothing else changes but the worker's place |
| `HttpExporter.HttpExporter.Abandon` | internal/export/http.go:321-380 | a batch out of retries or budget is added once to dropped, and nothing else changes but the worker's place |
| `HttpExporter.HttpExporter.DrainStep` | internal/export/http.go:271-319 | while Close waits, whatever is scheduled brings it strictly closer to returning |
| `HttpExporter.HttpExporter.Close` | internal/export/http.go:271-299 | Close returns with the queue empty and the worker gone under every schedule; a second Close changes nothing |
| `MockIngestServer.Ingest.CheckKey` | internal/mockingest/check.go:882-901 | the replay and body checks of a key, and the delivery it records |
| `MockIngestServer.Ingest.CheckSequence` | internal/mockingest/check.go:903-934 | the regression, gap and counter checks of a new key equal their function on the memory, with the early return on a counter that went backwards (what they find: `IngestChecks.ChecksAreExact`) |
| `MockIngestServer.Ingest.CheckDelivery` | internal/mockingest/check.go:867-958 | the whole stateful check equals its function on the server's state (what it finds and remembers: `IngestChecks.ChecksAreExact`, `IngestChecks.DeliveryRemembered`) |
| `MockIngestServer.Ingest.Mark` | internal/mockingest/check.go:962-993 | a delivery is marked acknowledged or truncated, and nothing else changes |
| `MockIngestServer.Ingest.DecideFault` | internal/mockingest/faults.go:110-150 | the fault of a request is a function of the schedule and the request number, and a one-shot terminal fault is consumed |
| `MockIngestServer.Ingest.Receive` | internal/mockingest/server.go:377-390 | validation and recording of a request equal their function on the server's state; in the normal mode a delivery the memory speaks against is rejected |
| `MockIngestServer.Ingest.Record` | internal/mockingest/report.go:20-57 | the findings are kept in order, the request is rejected if and only if one is fatal, and every other one counts as a warning |
| `MockIngestServer.Ingest.HandleIngest` | internal/mockingest/server.go:377-433 | validate, record, then inject: only an answer of Accepted marks the delivery acknowledged and counts it; a cut-off or dropped one is marked truncated; in the normal mode a delivery the memory speaks against is answered with a bad request |
| `IngestChecks.ChecksAreExact` | internal/mockingest/check.go:867-958 | each finding if and only if the memory shows it: body mismatch, replay, sequence regression, gap, a dropped counter that went back or does not account for the gap, a rise of the rejected counter; duplicates and missing numbers are counted exactly |
| `IngestChecks.StatefulFatal` | internal/mockingest/check.go:882-958 | a remembered key with another body or already acknowledged, and a new key at or below the last acknowledged number, are fatal unless the server only warns; in the normal mode nothing else of the memory is |
| `IngestChecks.RejectedExactly` | internal/mockingest/server.go:377-390 | in the normal mode a request is rejected if and only if its body has a fatal finding, its key is not its batch's own, its telemetry cannot be, or the memory speaks against it |
| `IngestChecks.DeliveryRemembered` | internal/mockingest/check.go:882-958 | the memory after a delivery, key by key and agent by agent: its first body, its count, the highest number seen, the last report |
| `IngestChecks.AcknowledgedIsHeld` | internal/mockingest/check.go:882-993 | after an acknowledgement the same body again is a replay, another body a mismatch, and a new key at or below its number a regression |
| `IngestChecks.CutOffIsForgiven` | internal/mockingest/check.go:893-993 | a delivery cut off by a fault is not held against its retry, which is told apart as following a fault |
| `IngestChecks.RulesInOrder` | internal/mockingest/faults.go:110-150 | which rule answers a request: the armed one-shot, else a drop, else failFirst, else everyNth, else none; when a delay and a Retry-After come on top |
| `IngestChecks.InjectedCounted` | internal/mockingest/faults.go:110-150 | a decision uses up an armed one-shot and counts exactly what it injects, a status, a drop or a delay |
| `IngestChecks.OneShotOnce` | internal/mockingest/faults.go:110-150 | an armed one-shot answers the next decided request and no later one until the schedule is set again |
| `PipelineSafety.ProjectsToExporter` | internal/agent/agent.go:263-307 | every step of the composition is a step of the exporter or leaves it alone |
| `PipelineSafety.CheckIsHonest` | internal/mockingest/check.go:867-958 | a batch newer than every acknowledgement is neither a replay, nor a changed body, nor a regression |
| `PipelineSafety.StampsAreSound` | internal/agent/agent.go:263-344 | in every run the stamped batches are numbered 1, 2, 3, ... across empty and discarded cycles; each passes the ingest's fatal checks, with exported + dropped + rejected <= batch_seq - 1, although the counters are loaded one at a time; no counter of theirs exceeds the exporter's own |
| `PipelineSafety.NoFalseAccusation` | internal/mockingest/check.go:882-958 | under any fault schedule, changed at any time, the ingest never reports a replay, a changed body or a sequence regression |
| `PipelineSafety.DeliveredExactlyOnceInOrder` | internal/mockingest/server.go:377-433 | acknowledgements are strictly increasing in batch_seq with distinct keys; Accepted counts exactly them; without hollow statuses they are batch for batch what the exporter counts as exported |
| `PipelineTotals.QuiescentTotalsAgree` | internal/mockingest/server.go:377-433 | in every run, at rest, exported is Accepted plus the injected answers below 400 drawn for a client still waiting, so the totals agree if and only if there was none |
| `PipelineTotals.FailureSchedulesAgree` | internal/mockingest/faults.go:110-150 | with every injected status unset or at least 400, in the first schedule and every later one: the acknowledged batches are the exported ones batch for batch, and at rest the totals agree |
| `PipelineTotals.MayPassSound` | internal/mockingest/faults.go:110-150 | a request number that can draw a status below 400 shows in the schedule's fields |
| `PipelineTotals.MayPassWitness` | internal/mockingest/faults.go:110-150 | and fields that show it have such a request number |
| `PipelineWitness.PassingRun` | internal/mockingest/server.go:411-426 | every schedule whose fields can draw a status below 400 has a run that ends at rest with one batch exported and none accepted |
| `PipelineWitness.ScheduleDecides` | internal/mockingest/faults.go:110-150 | a schedule left alone keeps the totals in agreement in every run if and only if its fields cannot draw a status below 400 |
| `PipelineWitness.PassedOffAsAccepted` | internal/export/http.go:441-451 | the first request answered 200 by the schedule: exported 1, accepted 0 |
| `PipelineSafety.LostAcknowledgementLooksLikeReplay` | internal/mockingest/check.go:882-910 | why acknowledgements are assumed to arrive: resending an acknowledged batch is reported as a replay |
| `PipelineWarnings.RejectionsAreExplained` | internal/mockingest/check.go:935-946 | in every run, under any schedules, the agent counts and reports no more rejections than this ingest has given terminal answers, and each request is counted as let through or rejected |
| `PipelineWarnings.MisfiresUnderEverySchedule` | internal/mockingest/check.go:935-946 | under every schedule and in every mode some run ends with the warning of an unexplained rejection, the only rejection being one this ingest answered |
| `PipelineWarnings.PacedRunsNeverWarn` | internal/mockingest/check.go:935-958 | when every collection starts with an empty exporter that warning is never raised, whatever is injected, lost or abandoned |
| `AgentLoop.Agent.Snapshot` | internal/export/exporter.go:172-183 | the exporter's own counters and queue depth loaded one by one while its worker runs: each value was current at some point, and the three batch counters are together at most the calls taken |
| `AgentLoop.Agent.RunCycle` | internal/agent/agent.go:263-344 | the cycle as written is a run of the exporter's machine; a batch takes the next number, carries counters that were current during the cycle and is handed over exactly once unless the context is done; a cycle without a batch or cut short by shutdown consumes no number; every stamped batch counts only earlier ones |
| `Admission.RecordCounts` | internal/collector/errors.go:277-340 | each occurrence emitted or folded adds exactly one to its own key's total and to no other |
| `Admission.RecordTallies` | internal/collector/errors.go:277-340 | the section's collapsed and dropped counters and its truncated flag move exactly with the verdict |
| `AdmissionRuns.CountsSumToOccurrences` | internal/collector/errors.go:277-340 | for every sequence of errors, budget and sample count: a key's counts (absent meaning 1) sum to its occurrences if and only if its first occurrence was not refused, and over the section they sum to the entries plus the collapsed |
| `AdmissionRuns.BelowTheCeilingAllOrNothing` | internal/collector/errors.go:277-340 | with fewer than 256 keys remembered, an admitted key counts all its occurrences and a refused one has no entry |
| `AdmissionRuns.CeilingUndercounts` | internal/collector/errors.go:313-331 | at the ceiling one failure is refused without trace and its request-scoped twin is admitted with a count one short |
| `AdmissionLimits.PriorityOrder` | internal/collector/limits.go:103-118 | a request-scoped failure comes before every other; then authorization, unsupported, coordinator, transport, and the entity flood last |
| `AdmissionLimits.KeyIdentity` | internal/collector/limits.go:77-83 | two failures share a key if and only if they agree on API, kind, code and broker |
| `AdmissionLimits.NewKeyFate` | internal/collector/errors.go:313-340 | a new key of entity priority is refused if and only if the section has maxErrors entries or 256 keys; every other new key gets an entry |
| `AdmissionLimits.KnownKeyFate` | internal/collector/errors.go:287-311 | an admitted key gets another sample while the sample count, and for the entity flood the budget, allows it, and is folded after that; a refused one swallows what follows |
| `AdmissionLimits.BudgetHolds` | internal/collector/errors.go:277-340 | over any occurrences: entity priority never takes a section past maxErrors entries, so it never holds more of that priority, and it is truncated if and only if something was folded or dropped |
| `AdmissionLimits.SamplesBounded` | internal/collector/limits.go:29-36 | over any occurrences no key has more entries than the sample count |
| `AdmissionLimits.RecordStatus` | internal/collector/errors.go:277-285 | an entity-scoped failure makes the section partial unless it is worse already; a request-scoped one leaves the status alone |
| `SectionOps.OpsKeepSections` | internal/collector/errors.go:391-464 | whatever a phase reports through request, requestPartial and record, its section is well-formed and never "ok" while it holds or has refused an error |
| `SectionOps.RequestOutcome` | internal/collector/errors.go:411-464 | usable if and only if the call or some shard succeeded; a success changes nothing; the status ends as the worse of what it was and what the error says |
| `SectionOps.ShardsScoped` | internal/collector/errors.go:423-440 | every failed shard is recorded in order as a failure of the whole request, with its own kind, code and broker |
| `SectionOps.PartialOutcome` | internal/collector/errors.go:391-403 | with data in hand the response is usable and the section partial, never failed or unauthorized; without it nothing differs from request |
| `SectionOps.StatusTells` | internal/collector/errors.go:236-256 | a section ends ok if and only if its phase reported no failure, and skipped if and only if it reported nothing but that |
| `SectionOps.DowngradeKeeps` | internal/collector/errors.go:236-256 | a downgrade never improves a status |
| `SectionCell.Cell.Record` | internal/collector/errors.go:277-340 | the in-place funnel equals its specification |
| `SectionCell.Cell.Request` | internal/collector/errors.go:411-464 | one whole-call failure, sharded or not: what is recorded, the resulting status and whether the response is usable |
| `SectionCell.Cell.RequestPartial` | internal/collector/errors.go:391-403 | with data in hand a failed call ends as partial and usable |
| `SectionCell.Cell.Reject` | internal/collector/limits.go:170-188 | the write-back of the cap onto one section |
| `MergeErrors.Budget` | internal/collector/limits.go:134-152 | the cap lets through as many entries as there are and, unless it is off, as it allows, and no fewer |
| `MergeErrors.Admit` | internal/collector/limits.go:134-169 | exactly min(total, ceiling) entries are admitted (all if the ceiling is off), and nothing rejected precedes anything admitted in (priority, section, entry) order |
| `MergeErrors.AdmitPriority` | internal/collector/limits.go:146-168 | one priority level: what is admitted and what is left of the budget, as a cut in that order |
| `SectionCell.MergeErrors` | internal/collector/limits.go:134-189 | the admitted entries in canonical order, as many as the budget, each section told how many of its own it lost |
| `SectionCell.Finalize` | internal/collector/collector.go:473-488 | cap, then rows, then totals: the finished blocks are the assembly of the sections as they were |
| `Report.AssembledConforms` | internal/collector/collector.go:473-488 | whatever the cap admits, blocks built from sections with distinct names pass the validator's checks, and the truncation block is present if and only if some section lost or folded something |
| `Report.CollectedBatchConforms` | internal/mockingest/check.go:438-468 | the same, truncation block included, from arbitrary sequences of section operations |
| `Report.ErrorsCount` | internal/collector/limits.go:134-189 | errors[] is exactly as long as the admission table admits |
| `Report.ErrorsAreASubsequence` | internal/collector/limits.go:170-188 | errors[] is the sections' entries in canonical order filtered by the admission table, nothing reordered and nothing added |
| `Report.SectionBalances` | internal/collector/limits.go:170-188 | per section, admitted plus rejected is recorded, the rejected are added to what the section dropped itself, and every field of the finished row is the section's own |
| `Report.RowFlagExact` | internal/collector/errors.go:215-234 | a finished row is truncated if and only if it folded or dropped something, the cap's rejections included, or its phase cut rows on purpose |
| `Validator.CountErrors` | internal/mockingest/check.go:438-468 | the per-section counts rebuilt from the wire are exact, and unknown sections and negative counts are found |
| `Validator.CheckTruncation` | internal/mockingest/check.go:772-837 | the truncation block is refused if and only if it is empty or disagrees with the section totals |
| `Validator.Check` | internal/mockingest/check.go:438-468 | the pass finds nothing if and only if the blocks conform |
| `Report.ConformingIsForced` | internal/mockingest/check.go:438-468 | conforming reports with the same errors agree on every error count, and with the same sections on the truncation totals |
| `EpochTriggers.FoundMeaning` | internal/collector/truncation.go:282-321 | a trigger exists if and only if some group's committed epoch is known and differs from its partition's known current epoch |
| `EpochTriggers.MismatchMeaning` | internal/collector/truncation.go:282-321 | what a mismatch is, and what its trigger carries |
| `EpochTriggers.SortedMeaning` | internal/collector/truncation.go:323-336 | sorted triggers come by topic, then partition, then group |
| `EpochTriggers.CutKeepsTheFirst` | internal/collector/truncation.go:336-340 | nothing the cap leaves out comes before anything it keeps |
| `EpochTriggers.RowsInOrder` | internal/collector/truncation.go:124-172 | the rows of a cycle come in the order of the sorted triggers |
| `EpochTriggers.Triggers` | internal/collector/truncation.go:282-340 | the mismatches sorted by topic, partition and group, cut at the cap, with dropped exactly when something was cut |
| `EpochTriggers.SortedOnce` | internal/collector/truncation.go:323-336 | triggers with distinct keys have exactly one sorted order |
| `EpochTriggers.RetainedWhateverTheOrder` | internal/collector/truncation.go:323-340 | the retained prefix is the same whatever order the mismatches were found in |
| `EpochRounds.Pack` | internal/collector/truncation.go:356-387 | round i asks every partition for its i-th distinct epoch, once; min(4, most distinct epochs of one partition) rounds; dropped if and only if some partition has more than 4 |
| `EpochRounds.EachQuestionOnce` | internal/collector/truncation.go:356-387 | a question is in exactly one round, or in none exactly when four other epochs of its partition came first |
| `EpochRounds.OnlyTriggered` | internal/collector/truncation.go:356-387 | nothing is asked that was not triggered |
| `EpochRounds.FewestRounds` | internal/collector/truncation.go:342-387 | no packing asks the questions of these rounds in fewer requests, even when others were refused |
| `EpochProbes.Prober.Retire` | internal/collector/truncation.go:75-85 | remembering a key in a full memory wipes it first |
| `EpochProbes.Prober.Cycle` | internal/collector/truncation.go:110-175 | skipped if and only if every retained trigger is answered; otherwise the rows are one per asked trigger and the memory gains exactly the settled keys (what settles, on the replies: `EpochConvergence.AnsweredExactlyRetired`) |
| `EpochProbes.AskAll` | internal/collector/truncation.go:141-153 | each asked question is filed with its own round's answer |
| `EpochConvergence.OnlySettledIsRemembered` | internal/collector/truncation.go:155-200 | the memory never exceeds 8192 keys, and a key it newly holds is of a fresh question asked in a round whose response was usable, named its partition and carried no error for it |
| `EpochConvergence.AnsweredExactlyRetired` | internal/collector/truncation.go:141-200 | a fresh question whose round answered it without an error is remembered unless the memory was wiped meanwhile; one whose request failed, was omitted, in error or refused a round is fresh again next cycle |
| `EpochConvergence.KeyIdentity` | internal/collector/truncation.go:272-280 | a remembered key is the exact question: topic, partition, topic id, committed and current epoch |
| `EpochConvergence.OneRowPerAskedTrigger` | internal/collector/truncation.go:155-172 | every asked trigger gets exactly one row and every unasked one none |
| `EpochConvergence.CycleApproaches` | internal/collector/truncation.go:75-174 | an answered cycle strictly decreases the measure (eviction still possible, unanswered questions), and a skipped one changes nothing |
| `EpochConvergence.ProbingConverges` | internal/collector/truncation.go:40-85 | from any memory, answered cycles over fixed mismatches reach the skipped state within 2 * 1024 + 1 cycles and stay there, with at most one wholesale eviction; with at most 1024 mismatches all are then answered |
| `EpochConvergence.StarvedBeyondTheCap` | internal/collector/truncation.go:119-134 | once settled from an empty memory, every question is answered if and only if the retained triggers ask them all |
| `EpochConvergence.StarvationExample` | internal/collector/truncation.go:119-134 | 1025 mismatches of which one is never answered |
| `PhasePrograms.ProgramDisciplined` | internal/collector/collector.go:304-412 | every goroutine's program reads a shared result only after a channel or the wait group publishes it, closes only its own channel after its writes, waits only for lower phases, and asks for the ceilings only past both waits |
| `PhaseSafety.NextSafe` | internal/collector/collector.go:304-412 | every step, answer and cancellation keeps that discipline and the bookkeeping of what is written, closed and finished |
| `PhaseTheorems.NoRace` | internal/collector/collector.go:304-442 | in every reachable state, cancelled or not: a goroutine about to read a shared result finds it written with no write of its owner left, and no two are about to touch one result when one writes |
| `PhaseTheorems.NeverStuck` | internal/collector/collector.go:304-408 | while any goroutine has something left, some goroutine can step: no deadlock |
| `PhaseTheorems.RunsEnd` | internal/collector/collector.go:304-408 | the steps and answers of any run are bounded by what the programs hold at the start |
| `PhaseTheorems.CallerReturnsLast` | internal/collector/collector.go:304-408 | past the wait group all twelve goroutines are done, the uncounted group listing included |
| `PhaseOffsets.OffsetOrder` | internal/collector/metadata.go:59-150 | in every reachable state where no wait was given up: committed, window and last stable offsets, where sampled (`PhaseSamples.SamplesTaken`), are at most the high watermark of the batch, and the commit of a group that commits below the last stable offset is at most that of the batch; start and last stable are below the watermark regardless; only a cancellation lets a wait be given up |
| `PhaseOffsets.EarlySampleInTime` | internal/collector/collector.go:329-355 | a committed or window sample cannot be taken after a ceiling was, unless a wait was given up |
| `PhaseSamples.SamplesTaken` | internal/collector/collector.go:304-355 | in every reachable state, once a result is written or its channel closed, each offset request behind it has its answer among the samples, unless it was passed over by an early return or option, or came back unanswered |
| `PhaseWaits.NothingBeforeItsEdges` | internal/collector/collector.go:304-408 | in every reachable state a phase about to do anything but wait has every edge of the graph into it closed |
| `PhaseCycle.CycleCompletes` | internal/collector/collector.go:304-442 | an uncancelled run that ends with the caller joined, all goroutines done and all five samples taken |
| `PhaseEscape.CancellationBreaksTheOrder` | internal/collector/metadata.go:122-127 | a reachable state with a commit above the high watermark, after a cancelled wait |
| `FileRotation.FileExporter.Open` | internal/export/file.go:196-221 | a failed open changes nothing; one that works creates or appends to the live file and measures it |
| `FileRotation.FileExporter.Rotate` | internal/export/file.go:225-263 | the rename loop moves every generation up by one, empty places included, drops the last, and marks a failed reopen |
| `FileRotation.FileExporter.Reopen` | internal/export/file.go:268-275 | a failed reopen sets the retry flag and nothing else |
| `FileRotation.FileExporter.Export` | internal/export/file.go:87-160 | the call equals its specification: retried reopen, rotation before the write, counters |
| `FileRotation.FileExporter.Close` | internal/export/file.go:168-192 | the first call gives the handle up whatever fails and reports the flush's failure before the handle's, with no handle to close while a reopen is pending; a later call changes and reports nothing |
| `FileRotation.ClosedWritesNothing` | internal/export/file.go:102-106 | once closed, every call not cancelled is counted as dropped and nothing on disk changes |
| `FileRotation.ExportHistory` | internal/export/file.go:87-160 | a shift drops exactly the oldest generation, a written line goes last, and nothing else changes what is on disk |
| `FileRotation.NothingButTheOldestGoes` | internal/export/file.go:108-143 | over any calls and any failed reopens: .N, ..., .1, live is a suffix of the initial lines followed by the written ones; the size field is the live file's length; shifts exceed written lines by at most the one pending reopen |
| `FileRotation.LiveWithinLimit` | internal/export/file.go:119-130 | after a written line the live file is within maxBytes or holds that line alone |
| `FileRotation.WrittenWhere` | internal/export/file.go:87-160 | when a call writes, when it rotates (exactly when the line would take a live file that is not empty past the limit), where its line goes, and which counter moves |
| `FileRotation.ConfiguredLimits` | internal/export/file.go:42-76 | a line rotates exactly beyond the configured megabytes, a hundred when unset and never when negative; three backups when negative |
| `FileRotation.FailedReopensTouchNothing` | internal/export/file.go:108-117 | while reopening keeps failing no file changes, however often it is tried |
| `Histogram.BucketUnique` | internal/metrics/types.go:391-408 | every value lies in exactly one bucket |
| `Histogram.LatencyHistogram.EnsureBuckets` | internal/metrics/types.go:382-387 | the layout is installed once, in arrays no other histogram shares, without changing what was counted |
| `Histogram.LatencyHistogram.Observe` | internal/metrics/types.go:391-408 | count, sum, maximum and exactly the one right bucket are updated |
| `Histogram.HistogramMeaning` | internal/metrics/types.go:354-408 | for any observations: bucket counts sum to Count, each bucket holds exactly the values that lie in it, the sum and maximum are theirs |
| `RpcWindows.RpcHooks.OnBrokerE2E` | internal/kafka/hooks.go:90-114 | bytes count even on failure; a failed request adds an error and no latency |
| `RpcWindows.RpcHooks.OnBrokerConnect` | internal/kafka/hooks.go:119-133 | a dial counts as an attempt, and as a failure with its message or as a latency |
| `RpcWindows.RpcHooks.OnBrokerDisconnect` | internal/kafka/hooks.go:136-140 | one more disconnect and nothing else |
| `RpcWindows.RpcHooks.OnBrokerThrottle` | internal/kafka/hooks.go:146-153 | one more throttle event and its interval, exactly |
| `RpcWindows.RpcHooks.Snapshot` | internal/kafka/hooks.go:162-176 | the open window is handed out whole, the next one is empty and shares no accumulator with it, and a negative width reads as none |
| `RpcWindows.RpcHooks.Cycles` | internal/kafka/hooks.go:155-176 | after any number of windows each returned one still holds exactly its own observations: later hooks modify none of them |
| `RpcWindows.WindowsAddUp` | internal/metrics/types.go:354-360 | two windows merged are the window of all their observations |
| `RpcWindows.NothingLostOrCountedTwice` | internal/kafka/hooks.go:155-176 | wherever the snapshots fall, all windows merged are the accumulation of every observation |
| `RpcWindows.RowsConsistent` | internal/kafka/hooks.go:119-133 | in every window ConnectLatency.Count = attempts - failures, and attempts counts exactly the broker's dials |
| `RpcWindows.ApiRowMeaning` | internal/kafka/hooks.go:90-114 | in every window an API's row has the bytes written and read of all its round trips, the errors of the failed, and the times of the others |
| `RpcWindows.BrokerRowMeaning` | internal/kafka/hooks.go:119-153 | in every window a broker's row has its failed dials, the times of the others, the beginning of the last failure's message, its disconnects, throttle events and throttled time |
| `Capabilities.FloorOf` | internal/kafka/capabilities.go:194-222 | the floor is the minimum over all brokers, absent exactly when some broker lacks the key or there is none, and ties name the first broker |
| `Capabilities.Fold` | internal/kafka/capabilities.go:194-222 | every probed key gets its floor and no other key one |
| `Capabilities.AtLeastMeansAll` | internal/kafka/capabilities.go:225-228 | a capability holds if and only if there is a broker and every broker offers the key at that version or above |
| `Capabilities.Options.ApplyGates` | internal/agent/agent.go:152-187 | each option ends up on if and only if it was configured on and every broker offers what it needs |
| `Capabilities.WhatPhasesNeed` | internal/agent/agent.go:152-187 | the API key and version each gated phase needs of every broker |
| `Capabilities.AddingBrokersNeverEnables` | internal/agent/agent.go:152-187 | more brokers never support more |
| `Capabilities.NoBrokerNothingSupported` | internal/kafka/capabilities.go:200-203 | with no broker nothing that is gated is supported |
| `Cadence.OncePerPeriod` | internal/collector/collector.go:517-528 | an enabled phase samples exactly once in any stretch as long as its period |
| `Cadence.NeverCoincide` | internal/collector/collector.go:490-519 | phases whose periods share a divisor never meet if their offsets differ modulo it |
| `Cadence.ShippedCadencesNeverCoincide` | internal/collector/collector.go:490-519 | log dirs, max timestamp and configs never sample on the same cycle at the shipped periods |
| `Cadence.FirstSamples` | internal/collector/collector.go:490-528 | a phase that is off never samples; at the shipped periods the first samples are on cycles 0, 10 and 355 |

## Left out

- Network, gzip, JSON and TLS: a batch is its own encoding, and the body digest is the body.
- Lost acknowledgements and overlapping handlers in the composed pipeline: a request is validated while its client waits, and an acknowledgement the ingest commits reaches the client; `PipelineSafety.LostAcknowledgementLooksLikeReplay` shows why.
- MockIngestServer.Ingest.Record: the byte counts, the window of body sizes and the kept bodies are not modelled; they decide nothing.
- RpcWindows.RpcHooks.OnBrokerConnect: the failure message is cut at 256 characters; the source cuts 256 bytes and drops a partial rune.
- Injected statuses that the HTTP library refuses to write (below 100 or above 999), or that are only informational: every number is taken as the status the client sees.
- `/control/reset`, last export errors, the reports and the summaries of the mock ingest.
- The validator's checks of order, timestamps, schema and data: only the error, section and truncation checks and the agent's own numbers are modelled.
- Overflow: counters, sums and the configured file size are unbounded, except in the backoff shift and the Retry-After product.
- More than one goroutine calling Export: the agent has one, and so has the model.
- Export calls made by the agent after it closed its exporter.
- Write, flush, fsync, remove and rename faults, and a partial last line found at startup, in the file exporter: only reopening fails, and files hold whole lines.
- Backups beyond the configured number, left by an earlier configuration: rotation never touches them.
- The stdout exporter, configuration loading and filter matching.
- Shaping of groups, share groups, configs, log directories and throughput rows: field copying.
- Retries inside the Kafka client: a request has one answering instant, the last.
- What an early return or a switched-off option skips in the phase graph is one nondeterministic operation; the sections each goroutine returns travel with its result.
- Start offsets before committed offsets: nothing orders that pair, and nothing is claimed of it.
- The accumulators of `RpcWindows` hold histograms as values: sharing of the arrays inside a detached window is modelled in `Histogram.LatencyHistogram` only.
- ThrottledMs: the window keeps the exact interval; the row floors it to milliseconds, so row values may sum to less.
- `sort.Slice` in the trigger computation is an insertion sort here.
- The probe of each broker and the version guess behind capabilities: floors start from the answers.
- Unsigned wrap-around of the cycle counter in the cadences.
