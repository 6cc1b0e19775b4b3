# Interview agent: verified model

The repository runs technical interviews. It selects questions for an interview, takes the
candidate through them with follow-ups and clarifications, has a model evaluate the answers,
scores them, and writes a report; while an operation is under way its events are streamed to
the client. This project models the parts of it that decide something, and proves what they
promise for all inputs and all runs.

The modules follow the program:

- `Interleave`, `Selection`, `Selector`, `SelectionTheorems`, `SelectionOrder`,
  `SelectionRanks`, `Coverage`: the blueprint selector. `Selector` is the code with its loops;
  `Selection` is the function it computes; the other modules prove optimality, completeness of
  the failure answer, order independence, the absence of neighbours from one domain, and which
  questions the ranks choose, in which order. The rank of a candidate is a
  parameter: every theorem holds for every rank function. The list of domains is a parameter
  too, required to hold each domain once, as the source's list does (`Coverage.TheCatalogue`).
- `Scoring`: rubrics, scoring of an evaluation, aggregation of scores.
- `Fragments`: the detector of private text spread over several output fields.
- `Engine`, `BlueprintChecks`, `EngineInvariant`, `EngineEffects`, `EngineLog`, `EngineRuns`,
  `EngineRetries`: the interview state machine, its inductive invariant, when each command is
  accepted and what it changes, and what follows over whole runs. A world is an interview with
  its outstanding plan, its event log and the number of accepted commands; a step is any
  command, completion, cancellation, retry or refresh.
- `Codec`, `Evaluator`, `EvaluatorMeaning`, `EvaluatorAgreement`, `Actions`: rebuilding plans
  from stored operations, checking a model's evaluation, and the actions offered to the client,
  each against the engine.
- `Reports`, `ReportValidator`, `ReportMeaning`, `ReportBuilder`, `ReportTheorems`,
  `ReportDecoding`, `ReportContents`: the report validator and what it accepts, the builder, why
  what is built passes, and what a created report says.
- `BrokerModel`, `BrokerInvariant`, `BrokerRuns`, `BrokerGaps`, `BrokerTrim`, `BrokerErasure`,
  `BrokerAnswers`, `BrokerPublishing`, `BrokerResume`, `BrokerStay`, `BrokerFacts`,
  `BrokerAcceptance`, `BrokerSubscribing`, `BrokerClass`: the operation event broker.
  `BrokerClass.OperationEventBroker` is the object with its fields; each method is proved
  against a function of `BrokerModel`, and the theorems are about these functions along runs,
  with an explicit clock that never goes back and timers that fire when due. A stream has a
  birth, which identifies it for good. Logs, feeds, noted clearings and the births whose
  continuity is in doubt are history kept for the proofs and read by no operation; resuming is
  the idea of Last-Event-ID in section 9.2 of the HTML Living Standard.
- `EngineExamples`, `BrokerExamples`: runs that show what the code does in the cases below.
- `Basics`, `Sequences`, `TextOrder`, `InterviewModel`, `Issues`: shared types and facts.

Where the code does not do what one would expect, the code is modelled as it is, and the exact
condition is proved:

- The fragment detector stores field counts in 16-bit cells. A candidate and a field list that
  are both longer than 32767 can be missed (`Fragments.MissedBeyondInt16`), and only then
  (`Fragments.ExactIffInt16`).
- A tombstone timer is set with the plain erasure time, while the history timer is clamped to
  the longest delay a timer has. An erasure time beyond 2147483647 ms is lost after one
  millisecond (`BrokerErasure.LongErasureIsLost`); up to it, erasure holds
  (`BrokerErasure.ErasureHoldsIffDelayFits`).
- Completing an operation does not raise the version, so the engine alone would accept a retry
  of a completed clarification request (`EngineExamples.ClarificationIsRetried`), and of
  nothing else (`EngineRetries.CompletedCanRetryOnlyClarification`).
- The engine refuses a question repeated in the same version; the report validator refuses a
  question repeated in any version (`EngineExamples.TwoVersionsHaveNoReport`). A report is
  created if and only if no question was selected twice, no recorded point is blank and the
  versions are safe integers (`ReportDecoding.ReportIsCreated`); the selector never selects a
  question twice.
- The numbers of an event stream start again when its state was deleted and is created anew, so
  a client can resume on a later stream and lose its first events
  (`BrokerExamples.EventLostOnResume`). A resume replays exactly what the client was not sent
  if and only if the stream is still the same
  (`BrokerResume.EveryResumeIsExactIffSameStream`), and it stays the same while every step
  spares it (`BrokerStay.SparedStreamStays`).
- Expired history is cleared although listeners stay, so text or another terminal event can
  follow a terminal event on one stream (`BrokerExamples.EventsAfterTerminal`). A terminal
  event is answered again, with nothing new published, if and only if it has not expired
  (`BrokerResume.TerminalAgainIffUnexpired`); two terminal events of one stream always have a
  clearing between them (`BrokerResume.TerminalsAreApart`).
- Of a text and a terminal event published together the second can be answered without being
  published (`BrokerExamples.AnsweredButNotPublished`): this is so if and only if trimming
  deletes the stream in between (`BrokerAnswers.SecondIsPublishedIffNotTrimmed`).

## Model

| member | source | states |
|---|---|---|
| SelectionTheorems.SelectIsOptimal | packages/domain/src/blueprint-selection.ts:88-173 | No selection that coverage accepts (distinct eligible questions, same size) uses fewer recently used questions than the returned blueprint, also when the omitted domain of a five-question interview is part of the choice |
| SelectionTheorems.SelectFailsOnlyForShortage | packages/domain/src/blueprint-selection.ts:96-107 | With distinct ids, a nonblank seed and a supported count, a blueprint is returned if and only if some valid selection exists, and every failure is the shortage error: the second shortage, the empty queues and the final coverage check never fail |
| SelectionTheorems.SelectIsValid | packages/domain/src/blueprint-selection.ts:138-194 | Every returned blueprint is a valid selection in positions 1..n, with the right unassessed domain and no two neighbours from one domain |
| SelectionOrder.SelectForgetsOrder | packages/domain/src/blueprint-selection.ts:257-273 | Permuting the eligible questions changes neither the blueprint nor the failure |
| SelectionRanks.SelectIsExplained | packages/domain/src/blueprint-selection.ts:109-173 | Every returned blueprint is explained by ranks, ids, versions and counts alone: each domain has its reserved number of questions, the best of its eligible ones for the purpose candidate; the flexible questions are the best of the rest for the purpose flexible-candidate; each domain's questions come in this order; and every turn goes to the domain that is foremost by what is left, rank and name |
| SelectionRanks.ExplanationDetermines | packages/domain/src/blueprint-selection.ts:109-173 | Two blueprints with the same unassessed domain and such explanations have the same questions in the same order |
| SelectionRanks.FiveArePreferred | packages/domain/src/blueprint-selection.ts:283-309 | Of five questions each comes before every eligible one of its domain that was not selected: it is fresh and the other recent, or both are alike and its rank for the purpose candidate, its id and its version come first |
| SelectionRanks.EachIsPreferred | packages/domain/src/blueprint-selection.ts:138-173 | None, two or three of 5, 10 or 15 questions are flexible; each of them comes before every eligible question not selected, by its rank as a flexible candidate, and every other one before the eligible ones of its domain that are not selected or flexible, by its rank as a candidate |
| SelectionRanks.OmissionIsForemost | packages/domain/src/blueprint-selection.ts:216-255 | The unassessed domain of five questions comes before every other domain: it leaves fewer domains without questions, or as few and fewer with only recent ones, or the same and its rank and name come first |
| SelectionRanks.ShortageIsExact | packages/domain/src/blueprint-selection.ts:96-107 | A shortage names exactly the domains with fewer eligible questions than the number reserved for them, with both numbers, and without any the eligible questions are too few |
| SelectionRanks.TextLessIsBefore | packages/domain/src/blueprint-selection.ts:402-404 | The comparison of texts is the order of their first difference |
| Selector.SelectBlueprint | packages/domain/src/blueprint-selection.ts:88-195 | The selector with its loops over maps, sets and lists returns exactly what the function of the theorems returns, errors included; which questions that are is said by `SelectionRanks.SelectIsExplained` |
| Selector.GroupCandidates | packages/domain/src/blueprint-selection.ts:257-273 | Groups by domain in input order; a repeated id is reported, the first one repeated |
| Selector.ChooseOmitted | packages/domain/src/blueprint-selection.ts:216-255 | The nested counting loops and the sort of the choices name the least choice by unavailable domains, then unavoidable recents, then seed rank |
| Selector.DomainMinimums | packages/domain/src/blueprint-selection.ts:55-85 | Unsupported counts and blank seeds are refused, and otherwise the table holds the quota of every domain |
| Selector.Reserve | packages/domain/src/blueprint-selection.ts:109-136 | The reserved questions are filed per domain with exactly the ids and the number they have; no stored queue is empty |
| Selector.TopUpSelected | packages/domain/src/blueprint-selection.ts:138-173 | The flexible questions are picked from what is not reserved, and a missing one is the only failure |
| SelectionTheorems.PickIsGood | packages/domain/src/blueprint-selection.ts:115-131 | A ranked pick has distinct members of its pool, as many as asked for or all there are, and a recent one only when the fresh ones are used up |
| SelectionTheorems.OmittedIsLeast | packages/domain/src/blueprint-selection.ts:244-254 | No other omitted domain leaves fewer unavailable domains, nor as few with fewer unavoidable recents |
| SelectionTheorems.QuotaNeedsLeast | packages/domain/src/blueprint-selection.ts:216-255 | The quotas force no more recents than any valid selection uses, although a selection may omit another domain |
| SelectionTheorems.ChoiceFacts | packages/domain/src/blueprint-selection.ts:109-173 | Reserving and topping up give exactly the question count, without duplicates, and the number of recents is the larger of the forced ones and the count less the fresh candidates |
| Interleave.InterleaveSelected | packages/domain/src/blueprint-selection.ts:338-381 | The loop over the ordered map fails exactly when a stored queue is empty, and otherwise gives the greedy order, whatever the insertion order of the map |
| Interleave.InterleavedKeepsQueues | packages/domain/src/blueprint-selection.ts:338-381 | The greedy order has every queued question once and keeps the order of each domain's queue |
| Interleave.AlternatesIffBalanced | packages/domain/src/blueprint-selection.ts:362-371 | The greedy order has no two neighbours from one domain if and only if no domain holds more than half (rounded up) of the questions |
| Interleave.AlternatesIfPossible | packages/domain/src/blueprint-selection.ts:362-371 | If any order of the same questions avoids neighbours from one domain, the greedy order does |
| Interleave.SeededIsGreedy | packages/domain/src/blueprint-selection.ts:347-363 | The comparator and the search for another domain name a longest queue among the domains other than the previous one, and repeat the previous domain only when it is the only one left |
| Coverage.ValidateCoverage | packages/domain/src/blueprint-coverage.ts:43-95 | The counting validator returns the verdict that the catalogue order gives, fault by fault |
| Coverage.ValidatorIsCoverage | packages/domain/src/blueprint-coverage.ts:43-95 | The validator accepts exactly five different domains with the missing one declared, or all minimums met with none declared |
| Coverage.DerivedIsRight | packages/domain/src/blueprint-coverage.ts:26-41 | For a covering selection the unassessed domain exists and is the one without questions |
| Coverage.NoMajority | packages/domain/src/blueprint-coverage.ts:76-94 | A covering selection never gives one domain more than half (rounded up) of the questions |
| Scoring.ValidateRubric | packages/domain/src/scoring.ts:86-125 | Accepts exactly nonempty rubrics with distinct ids, weights from 1 to 100 and total 100; each error names a reason that is there |
| Scoring.DeriveEvaluatedOutcome | packages/domain/src/scoring.ts:127-184 | Accepts exactly distinct awards in range whose total is at most 100 (zero when irrelevant), and gives the outcome that the total and the classification call for |
| Scoring.ScoreQuestion | packages/domain/src/scoring.ts:186-261 | Accepts exactly the acceptable evaluations: valid rubric, one award per item, points within weights, evidence known and present; so an over-100 total never gets through |
| Scoring.AwardsAreABijection | packages/domain/src/scoring.ts:186-256 | Accepted awards name every rubric item exactly once, total 0 to 100, and total 100 if and only if every item is fully awarded |
| Scoring.RoundingBound | packages/domain/src/scoring.ts:344-346 | A rounded average stays within the least and greatest score and within one half of the exact mean |
| Scoring.AggregationBounds | packages/domain/src/scoring.ts:310-342 | Domain and overall scores stay in the range of the question scores, domain counts add up to the number of questions, and the overall score is within 1 of the question-weighted mean of domain scores |
| Fragments.MaximumCandidateMatches | apps/server/src/private-assessment-content.ts:131-150 | The table program fills in, for every start, exactly the length of the longest match of the candidate in the value |
| Fragments.CommonIsLongest | apps/server/src/private-assessment-content.ts:139-145 | A table cell is the greatest number of characters that agree from its two positions |
| Fragments.IsCandidateReconstructed | apps/server/src/private-assessment-content.ts:100-129 | The array program, with 16-bit cells and early return, answers as the table of stored counts says |
| Fragments.ReconstructibleBySplits | apps/server/src/private-assessment-content.ts:100-129 | Cut points with strictly increasing fields, each piece a nonempty substring of its field, are the same thing as the recursion over fields |
| Fragments.DetectionIsSound | apps/server/src/private-assessment-content.ts:123-125 | Whatever the sizes, a reported candidate really splits into at least two nonempty pieces found in different fields in order |
| Fragments.DetectionIsExact | apps/server/src/private-assessment-content.ts:100-129 | While candidate or field list is at most 32767 long the detector is exact, and a stored count is the largest number of fields that spell the prefix, never above its length |
| Fragments.MissedBeyondInt16 | apps/server/src/private-assessment-content.ts:104-120 | For every pair of sizes above 32767, a candidate and fields of these sizes that split and are not reported |
| Fragments.ExactIffInt16 | apps/server/src/private-assessment-content.ts:104-120 | The detector is exact on all inputs of given sizes if and only if one of the sizes is at most 32767 |
| Fragments.ExposesFragmentedPrivateContent | apps/server/src/private-assessment-content.ts:78-98 | Scanning the long enough normalized texts and identifiers reports exactly whether one of them is in no single field and is detected |
| Fragments.FlaggingIsExact | apps/server/src/private-assessment-content.ts:82-97 | Within the sizes, a candidate is flagged exactly when the fields spell it together and none spells it alone; empty fields make no difference |
| Fragments.ScanIsExact | apps/server/src/private-assessment-content.ts:78-98 | With at most 32767 fields the scan finds something if and only if some normalized private text of its minimum length, or identifier of at least four code units, is spelled across the fields and contained in none |
| BlueprintChecks.ValidateAndFreezeBlueprint | packages/domain/src/engine.ts:1005-1061 | The loops accept exactly valid blueprints with a nonblank seed, and tell a blank seed from other faults |
| BlueprintChecks.ValidateQuestionSnapshot | packages/domain/src/engine.ts:1063-1097 | The loops accept exactly valid snapshots: nonblank texts, valid rubric, distinct goals, one of them for clarification |
| EngineInvariant.CreateGood | packages/domain/src/engine.ts:444-492 | A created interview satisfies the invariant |
| EngineInvariant.HandledGood | packages/domain/src/engine.ts:205-271 | Every handled command keeps the invariant, raises the version by one, and leaves a fitting plan or no pending operation; what each command changes is said by the effects below |
| EngineInvariant.CompleteGood | packages/domain/src/engine.ts:273-302 | Every completion of the outstanding plan keeps the invariant and the version and ends the operation |
| EngineInvariant.CancelGood | packages/domain/src/engine.ts:304-315 | Cancelling the outstanding plan always succeeds, restores the phase the command was taken in, and keeps the invariant |
| EngineInvariant.RetryGood | packages/domain/src/engine.ts:317-370 | A retry keeps the invariant and gives a plan that fits |
| EngineInvariant.RefreshGood | packages/domain/src/engine.ts:372-393 | A refresh keeps the invariant, and the plan read back from the refreshed interview fits it |
| EngineInvariant.RefreshReportGood | packages/domain/src/engine.ts:395-416 | Refreshing a report retry keeps the invariant and the version |
| EngineEffects.UnevaluatedEffect | packages/domain/src/engine.ts:791-824 | Not knowing and skipping are accepted exactly for the current version while an answer is awaited; the outcome of the current question is then Unknown for the first and Skipped for the second, without evaluation, in the state and in the one event, everything else of the questions stays, and the interview awaits its continuation |
| EngineEffects.ContinueEffect | packages/domain/src/engine.ts:826-872 | Continuing is accepted exactly while it is awaited; it freezes the current question and awaits the next one, or after the last one the complete report |
| EngineEffects.EndEffect | packages/domain/src/engine.ts:874-904 | Ending early is accepted exactly for an active interview with nothing pending and some outcome; it asks for the incomplete report and leaves the questions as they are |
| EngineEffects.AbandonEffect | packages/domain/src/engine.ts:906-931 | Abandoning is accepted exactly for an active interview with nothing pending, and is recorded as the user's |
| EngineEffects.LateEffect | packages/domain/src/engine.ts:221-233 | More than a day after the last activity every command of the interview abandons it by expiry, whatever version it expects; only the expiry command must expect the right one |
| EngineEffects.EarlyIsRefused | packages/domain/src/engine.ts:933-985 | Neither an expiry before its time nor a report of an active interview is accepted |
| EngineEffects.ReportEffect | packages/domain/src/engine.ts:966-1003 | A report is accepted exactly when one of its kind is awaited; it is recorded and completes the interview or ends it early, and nothing else changes |
| EngineEffects.AcceptEffect | packages/domain/src/engine.ts:494-613 | An answer, supplement or clarification request is accepted exactly when it is awaited and its text and material are new; plan, pending operation and last activity are then of its time, with the material as sent |
| EngineEffects.RetryEffect | packages/domain/src/engine.ts:317-370 | A retry is accepted exactly for the version after the command's, not before the last activity, while the command is awaited; the plan, the pending operation and the last activity are of the time of the retry, and the version stays |
| EngineEffects.RefreshEffect | packages/domain/src/engine.ts:372-393 | A refresh of the pending operation is accepted exactly when not before the last activity; the acceptance of the operation and the last activity are of its time, and nothing else changes |
| EngineEffects.RefreshReportEffect | packages/domain/src/engine.ts:395-416 | Refreshing a report retry is accepted exactly after the last activity while a report is pending; the last activity is of its time, and nothing else changes |
| EngineEffects.CancelEffect | packages/domain/src/engine.ts:304-315 | Cancelling gives back the phase in which the command was taken and takes the operation away, and nothing else changes |
| EngineEffects.ClarificationEffect | packages/domain/src/engine.ts:636-682 | A completion of a clarification in time is accepted exactly when it is one with nonblank text that belongs to the plan; the note with its text and message, the request and the record in the log are all that changes besides phase and time |
| EngineEffects.FollowUpEffect | packages/domain/src/engine.ts:684-748 | A follow-up in time is accepted exactly when it names a goal of its kind, neither used before, with nonblank text and a purpose of the kind that fits the classification; material and follow-up are appended as sent, with their two events, and an answer is awaited |
| EngineEffects.EvaluationEffect | packages/domain/src/engine.ts:750-789 | An evaluation in time is accepted exactly when each rubric item has one award within its weight, points have evidence among the material, and an irrelevant answer has no points and had its clarification; material, evaluation and the outcome it calls for are recorded, with their events, and the continuation is awaited |
| EngineEffects.LateCompletionEffect | packages/domain/src/engine.ts:1231-1255 | More than a day after the acceptance every completion that belongs to the plan abandons the interview by expiry, without recording anything; in time a plan takes only a completion of its sort |
| EngineEffects.CreateEffect | packages/domain/src/engine.ts:444-492 | An interview is created exactly at version 0 from a valid blueprint with a nonblank seed: version 1, the first question awaited, every question untouched, all times those of the command, and one event with the blueprint |
| EngineInvariant.KeptFollowUp | packages/domain/src/engine.ts:684-748 | A recorded follow-up keeps at most one follow-up per kind with distinct goals, distinct materials, a main answer only first, and leaves the question unanswered |
| EngineInvariant.KeptEvaluation | packages/domain/src/engine.ts:750-789 | A recorded evaluation is acceptable for the snapshot and the material, decides the outcome, and an irrelevant one had its clarification |
| EngineRuns.EveryRunIsSound | packages/domain/src/engine.ts:205-416 | After every sequence of steps: the phase is there iff active, processing iff an operation is pending, outcomes agree with the phase, earlier questions are frozen with outcomes, later ones untouched, the plan fits, the log rebuilds the interview, and the version counts the accepted commands |
| EngineRuns.RunGrows | packages/domain/src/engine.ts:594-872 | Along every run frozen questions, blueprint and identity never change, the current question never goes back, a closed interview keeps its questions, and the log only grows |
| EngineLog.HandledExplains | packages/domain/src/engine.ts:791-1003 | The events of a command account for every recorded change, and a plan changes nothing that events record |
| EngineLog.CompleteExplains | packages/domain/src/engine.ts:636-789 | The events of a completion rebuild material, clarifications, follow-ups, evaluation and outcome |
| EngineLog.CreateExplains | packages/domain/src/engine.ts:444-492 | The creation event alone rebuilds the created interview |
| EngineRetries.VersionCountsCommands | packages/domain/src/engine.ts:1378-1380 | Along every run the version rises by exactly one per accepted command and by nothing else |
| EngineRetries.RetryNeedsQuiet | packages/domain/src/engine.ts:317-332 | A retry of an accepted command is accepted only if no other command was accepted since |
| EngineRetries.FailuresAndRetriesAreNeutral | packages/domain/src/engine.ts:304-393 | Any number of cancel, retry and refresh steps leaves interview, plan and log as at first acceptance, except for the acceptance and activity times |
| EngineRetries.CancelledCanRetry | packages/domain/src/engine.ts:304-370 | A cancelled operation can be retried exactly at times not before the last activity, and the plan is the old one with every time in it that of the retry |
| EngineRetries.CompletedCanRetryOnlyClarification | packages/domain/src/engine.ts:317-370 | Completing does not raise the version: after a completion in time, the command can be retried exactly when it asked for a clarification |
| EngineExamples.ClarificationIsRetried | packages/domain/src/engine.ts:317-370 | For every accepted creation, a run in which a clarification is requested and recorded, and its command is retried and accepted again with the note already there |
| Codec.DecodeStored | apps/server/src/operation-command-codec.ts:32-83 | Decoding a stored command gives it back exactly when its position is positive, its text nonblank and its material id the derived one |
| Codec.DecodedBodies | apps/server/src/operation-command-codec.ts:32-83 | Each kind of stored operation decodes to its own command, of the stored interview, operation, version and time, with the stored text and the derived material id |
| Codec.ReconstructionIsExact | apps/server/src/operation-command-codec.ts:85-133 | In every reachable state with an outstanding plan the reconstructed plan is that very plan, also after refreshes |
| Codec.NothingToReconstruct | apps/server/src/operation-command-codec.ts:89-92 | Without a matching pending operation reconstruction fails with that error |
| Codec.ReconstructionSurvivesRetries | apps/server/src/operation-command-codec.ts:85-133 | The record stored at acceptance serves every later attempt, after any cycle of cancellations, retries and refreshes |
| Codec.ClampedCompletionIsCurrent | apps/server/src/operation-guards.ts:33-38 | A completion built at a time clamped to the acceptance time always belongs to the plan, whatever the clock says; its time is the clock's unless that is before the acceptance, and it carries what the model said |
| Evaluator.ValidateDomainOutput | apps/server/src/answer-evaluation-model.ts:471-672 | Each code but the scoring rejection is reported exactly when the output violates it, and an output is clean exactly when no code is violated and it can be scored |
| Evaluator.CheckEveryAward | apps/server/src/answer-evaluation-model.ts:494-602 | The loop over the awards finds exactly the codes of repeated and faulty awards, and the running totals |
| EvaluatorAgreement.FollowUpCodesDecide | apps/server/src/answer-evaluation-model.ts:674-758 | For any question whose follow-ups fit, the engine accepts a recommended follow-up exactly when the recommendation violates none of the codes about used goals and kinds, incompatible purposes, unknown goals and mismatches |
| EvaluatorAgreement.ChecksDecideScoring | apps/server/src/answer-evaluation-model.ts:476-669 | With a valid rubric and no negative points the evaluator's codes decide exactly whether scoring accepts, and then no rubric item is missing |
| EvaluatorAgreement.ScoringNeverSurprises | apps/server/src/answer-evaluation-model.ts:647-669 | The rejection by the scoring never is the only issue |
| EvaluatorAgreement.RequestIsValid | apps/server/src/answer-evaluation-model.ts:355-392 | The request built from a reachable plan is never refused |
| EvaluatorAgreement.EvaluationAgreement | packages/domain/src/engine.ts:750-789 | An output without recommendation is accepted by the engine exactly when it violates no code about scoring or the first clarification |
| EvaluatorAgreement.FollowUpAgreement | packages/domain/src/engine.ts:1099-1129 | An output with a recommendation is accepted by the engine exactly when its text is nonblank and it violates no code about follow-ups |
| EvaluatorAgreement.CleanOutputIsNeverRejected | apps/server/src/model-operation-execution.ts:54-87 | In every reachable processing state, an output without issues is never rejected when it completes the operation, at whatever time |
| EvaluatorMeaning.CleanMeans | apps/server/src/answer-evaluation-model.ts:471-758 | With a valid rubric, distinct goals and no negative points, an output violates no code if and only if each rubric item has one award within its weight, with evidence from the material for points and one to six texts exactly when points are missing, each of at most 300 characters, 1200 together, none private alone or together; an irrelevant answer has no points; and a recommendation names an unused goal of an unused kind with the right purpose, or is not needed |
| Actions.OfferedActionsAreExact | packages/contracts/src/interview-response-mappings.ts:205-291 | For every reachable active interview an action other than retry is offered exactly when the engine accepts the matching commands |
| Actions.RetryIsOffered | packages/contracts/src/interview-response-mappings.ts:216-291 | For every reachable active interview retry is offered exactly when the operation shown failed and can be retried |
| Actions.DisagreeingOperation | packages/contracts/src/interview-response-mappings.ts:216-291 | An operation that does not agree with the phase is a fault exactly while processing or awaiting the continuation; while a response is awaited an operation that has not failed hides every action |
| Actions.ReportPendingOffersNothing | packages/contracts/src/interview-response-mappings.ts:293-330 | While a report is pending nothing but retry is offered, exactly when the operation shown failed, and the engine accepts no user command |
| ReportValidator.SemanticIssues | packages/domain/src/reports.ts:444-538 | Each code is reported exactly when the snapshot violates it, so a snapshot passes exactly when it violates none |
| ReportMeaning.NoIssueMeans | packages/domain/src/reports.ts:444-703 | A snapshot violates no code if and only if its questions have different ids and the positions 1 to their number; in each no rubric item is matched twice, all evidence is its own and listed, and the points are the outcome's; each domain has one result with the number of its questions and their rounded mean; a complete report covers five or six domains and has the rounded mean of all; and each question is listed once with its version, and nothing else |
| ReportValidator.ValidateQuestionFeedback | packages/domain/src/reports.ts:540-588 | Finds exactly repeated awards, evidence of another question or not listed, and points that do not add up to the outcome |
| ReportValidator.ValidateEvidence | packages/domain/src/reports.ts:590-611 | Finds exactly whether a reference is about another question or not in the question's evidence |
| ReportValidator.CompareDomains | packages/domain/src/reports.ts:613-649 | Finds exactly whether a status, count or score differs from the computed one |
| ReportValidator.QuestionVersionIssues | packages/domain/src/reports.ts:651-703 | Finds exactly missing, repeated, mismatched and extra question versions |
| ReportBuilder.DedupeReportEvidence | apps/server/src/operation-report-builder.ts:412-427 | Keeps every reference once, at its first occurrence |
| ReportTheorems.RequestSucceeds | apps/server/src/operation-report-builder.ts:25-71 | For every reachable interview that awaits a report the request for the analysis succeeds and covers all questions with an outcome |
| ReportTheorems.DraftExists | apps/server/src/operation-report-builder.ts:73-138 | A snapshot is built exactly when the kind is the awaited one, the analysis covers the questions in order with fitting evidence, and nothing private shows; what it says of each question is said by `ReportContents.CreatedReportTells` |
| ReportContents.CreatedReportTells | apps/server/src/operation-report-builder.ts:73-164 | In every created report the k-th question carries the id, version, domain, position and outcome of the k-th question with an outcome; its evidence is the question and then the material of its analysis; without an evaluation its one missing point is the displayed wording under the first rubric item, citing the question; with one it lists every award with points and every recorded point under its award's rubric item, in order; domains carry number and rounded mean of their questions, and a complete report the rounded mean of all |
| ReportContents.FeedbackDescribes | apps/server/src/operation-report-builder.ts:236-330 | What the feedback of one question says, as above, for every state and analysis that fits it |
| ReportTheorems.FeedbackScores | apps/server/src/operation-report-builder.ts:270-283 | The matched points of a question are distinct and add up to its outcome |
| ReportTheorems.FeedbackEvidence | apps/server/src/operation-report-builder.ts:266-307 | All evidence of built feedback is about its question and listed with it |
| ReportTheorems.DraftIsValidIffIdsDistinct | packages/domain/src/reports.ts:444-703 | The built snapshot has no semantic issue if and only if no question was selected twice |
| ReportDecoding.DraftDecodesIffRecordable | packages/domain/src/reports.ts:185-410 | The decoder refuses a built report for two reasons only: a recorded missing point that is blank, and a question version that is not a safe integer |
| ReportDecoding.ReportIsCreated | apps/server/src/operation-report-builder.ts:73-164 | For every reachable interview awaiting its report and every fitting analysis without private text, the report is created exactly when the selected question ids are distinct, no recorded point is blank and the versions are safe integers |
| ReportDecoding.SomeAnalysisFits | apps/server/src/operation-report-builder.ts:250-264 | Whatever texts are written, a fitting analysis with these texts exists for every reachable interview awaiting its report |
| ReportDecoding.SomeReportIsCreated | apps/server/src/operation-report-builder.ts:73-164 | No interview with distinct selected questions and recordable points is stuck: some analysis with any given texts gets its report, unless the texts show something private |
| EngineExamples.TwoVersionsHaveNoReport | packages/domain/src/engine.ts:1014-1033 | An accepted blueprint with versions 1 and 2 of one question, and a run to its complete report, whose every drafted report is refused |
| EngineExamples.SkippedThrough | packages/domain/src/engine.ts:205-271 | Every accepted blueprint has a run of skips and continues to an interview that awaits its complete report |
| ReportTheorems.DistinctIdsAreSelectedOnce | packages/domain/src/blueprint-selection.ts:257-266 | A blueprint with distinct question ids, as the selector makes, never selects a question twice |
| BrokerRuns.EveryRunKeeps | apps/server/src/operation-events.ts:118-576 | In every reachable broker each stream retains the end of everything published on it, within the limit, with increasing numbers and at most one terminal event, the last; every listener was sent exactly what was published since it joined; erased streams are gone |
| BrokerRuns.DeliveryIsExact | apps/server/src/operation-events.ts:244-305 | A subscription without truncated start replays exactly the events of the stream it joins after the given number, and while it stays registered replay and deliveries together are exactly the events of that stream after it, without gap, duplicate or reordering |
| BrokerAcceptance.SubscribeAcceptsIff | apps/server/src/operation-events.ts:244-305 | A subscription after a number is accepted if and only if the operation is not erased and, without a standing stream, the broker is open and the number 0 (or negative with a truncated start), or the standing stream is of the target and of no later attempt, its continuity is not in doubt for a positive number, no more was seen than numbered, and nothing between the number and the retained events is missing unless it may be |
| BrokerAcceptance.AcceptanceByLog | apps/server/src/operation-events.ts:244-305 | Without mapping failures, on every run, the same in terms of the log: of n published events with the last r retained for the attempt, exactly the numbers from n - r to n are accepted, or any up to n with a truncated start |
| BrokerAcceptance.DoubtfulIsNeverResumed | apps/server/src/operation-events.ts:269-271 | Once a publication passed unknown continuity, or created its stream at a later attempt than the first, no run ever resumes on that stream: every subscription after a positive number is refused or joins another |
| BrokerAcceptance.LateStreamIsNeverResumed | apps/server/src/operation-events.ts:269-271 | The same of a stream that a subscription created at a later attempt than the first |
| BrokerFacts.EveryStreamIsKept | apps/server/src/operation-events.ts:415-496 | In every reachable broker a stream retains exactly the last events published since its history was last cleared, up to the limit; they expire within the time to live with a timer pending no later; and its continuity is unknown exactly when it was created at a later attempt or published on so |
| BrokerResume.EveryResumeIsExactIffSameStream | apps/server/src/operation-events.ts:244-305 | Without mapping failures, an accepted resume after number n replays the log of the stream it joins from position n on; a client that holds number n of an earlier or the same stream of the operation gets exactly what it was not sent if and only if it joins that same stream |
| BrokerExamples.EventLostOnResume | apps/server/src/operation-events.ts:391-413 | A run in which a client receives event 1, leaves, the stream expires, another event 1 begins a new stream, and resuming after 1 is accepted with an empty replay |
| BrokerStay.SparedStreamStays | apps/server/src/operation-events.ts:369-549 | A stream keeps its birth along every run whose steps spare it: they neither close, erase nor retarget it, nor run out of its numbers, and a listener stays or else it is not found expired, not one of too many, and not left without history |
| BrokerStay.ResumeIsExactWhenSpared | apps/server/src/operation-events.ts:244-305 | A resume on a stream spared since the client's last event replays exactly what the client was not sent |
| BrokerResume.TerminalAgainIffUnexpired | apps/server/src/operation-events.ts:183-211 | In every reachable broker, publishing the end of a finished operation whose stream ended with a terminal event answers that event and publishes and clears nothing, if and only if it has not expired |
| BrokerResume.TerminalsAreApart | apps/server/src/operation-events.ts:415-424 | Between two terminal events of one stream its retained events were cleared, because they had expired or because a later attempt began |
| BrokerExamples.EventsAfterTerminal | apps/server/src/operation-events.ts:483-496 | A run in which a listener stays, the terminal event expires, and a text or another terminal event follows with number 2 on the same stream |
| BrokerAnswers.SecondIsPublishedIffNotTrimmed | apps/server/src/operation-events.ts:213-242 | Of a text and a terminal event answered together the terminal event was published if and only if the stream with the text on it is not one that trimming deletes |
| BrokerExamples.AnsweredButNotPublished | apps/server/src/operation-events.ts:234-242 | A run after which a text and a terminal event are answered together and only the text was published, because trimming deleted the unheard stream in between |
| BrokerTrim.TrimIsSlice | apps/server/src/operation-events.ts:537-549 | Trimming deletes the first part of the idle streams in the order of their last touch and age: as many as operations retain history too many, or all of them |
| BrokerTrim.RetainedAreBounded | apps/server/src/operation-events.ts:537-549 | In every reachable broker at most the limit of operations retain history, or every stream with history has a listener |
| BrokerAnswers.AnswerNamesWhatWasPublished | apps/server/src/operation-events.ts:159-242 | The answer of a publishing call names what was published and nothing else was: the message's events with the next numbers of the operation's stream, or the first numbers of a new one, or the terminal event still retained; without an event in the answer nothing was published |
| BrokerPublishing.SendAnswersAsExpected | apps/server/src/operation-events.ts:159-242 | What every publishing call answers, from the state before it: nothing for a closed broker, an erased operation, an earlier attempt or an unfinished end; the retained terminal event only when the end alone is asked for; nothing without safe numbers; a failure when a mapping fails; and else the events with the next numbers and the operation's outcome |
| BrokerPublishing.PublishingLeaves | apps/server/src/operation-events.ts:436-457 | After a publication the operation's stream, unless trimmed, is of its target and attempt with the next number, without exactly the throwing listeners, touched now and to expire after the time to live; every other stream is as it was or trimmed |
| BrokerSubscribing.SubscriptionJoins | apps/server/src/operation-events.ts:284-305 | An accepted subscription replays exactly the retained events of its attempt with later numbers, in order, and names the retained terminal event; its new listener is added to the operation's own stream, or to a new one without history, which is otherwise only touched; other streams stay or are trimmed |
| BrokerSubscribing.LeavingLeaves | apps/server/src/operation-events.ts:293-302 | Leaving takes exactly the listener from its stream; only streams without other listeners go, and all others stay as they are |
| BrokerSubscribing.BeginningLeaves | apps/server/src/operation-events.ts:143-157 | Beginning an attempt moves the operation's own stream to the later of both attempts, without history from before a later one, keeping listeners and numbers; a stream that does not stand or is of another target goes, and the others stay |
| BrokerGaps.RetainedAreContiguous | apps/server/src/operation-events.ts:426-457 | When no event mapping fails, retained events are numbered without gaps up to the last number given out |
| BrokerErasure.ErasureHoldsAlong | apps/server/src/operation-events.ts:326-350 | After an erasure, along every run and until its time is over, no state exists, no publication yields an event and every subscription fails |
| BrokerErasure.LongErasureIsLost | apps/server/src/operation-events.ts:564-575 | With an erasure time beyond the longest timer delay, a run that loses the tombstone after one millisecond |
| BrokerErasure.ErasureHoldsIffDelayFits | apps/server/src/operation-events.ts:551-575 | From every reachable open broker an erasure holds until its tombstone expires if and only if the erasure time is at most 2147483647 ms |
| BrokerClass.OperationEventBroker.constructor | apps/server/src/operation-events.ts:131-141 | A new broker is empty and satisfies the invariant |
| BrokerClass.OperationEventBroker.BeginAttemptOf | apps/server/src/operation-events.ts:143-157 | Afterwards there is a stream exactly if the operation had one of its target that stood; it is of no earlier attempt, and has no history from before a later attempt |
| BrokerClass.OperationEventBroker.PublishText | apps/server/src/operation-events.ts:159-181 | Updates the object as in the run model; answers exactly what `BrokerPublishing.Expected` says of the state before; an answered event has the text, the time and the next number, and is all that was published; without one nothing was |
| BrokerClass.OperationEventBroker.PublishTerminalOf | apps/server/src/operation-events.ts:183-211 | As in the run model; answers exactly what `BrokerPublishing.Expected` says of the state before: the newly published terminal event with the operation's outcome and the next number, or the retained one when nothing was published |
| BrokerClass.OperationEventBroker.PublishBoth | apps/server/src/operation-events.ts:213-242 | Takes both numbers before mapping either event; answers exactly what `BrokerPublishing.Expected` says of the state before; what is answered are the two events with consecutive numbers, and they, or the first when trimming deleted the stream in between, are all that was published |
| BrokerClass.OperationEventBroker.SubscribeTo | apps/server/src/operation-events.ts:244-305 | As in the run model; in a state with the facts of every reachable one it is accepted exactly on the condition of `BrokerAcceptance.SubscribeAcceptsIff`; a found subscription is on the operation's stream, replays everything after the given number unless a truncated start was allowed, and its feed begins at the end of the log; and it joins as `BrokerSubscribing.SubscriptionJoins` says |
| BrokerClass.OperationEventBroker.Leave | apps/server/src/operation-events.ts:293-302 | The listener is gone, an empty stream goes with its last listener, and the bound on retained history holds |
| BrokerClass.OperationEventBroker.EraseAll | apps/server/src/operation-events.ts:326-350 | Deletes exactly the streams of the erased operation, account or interview; afterwards no covered stream, publication or subscription is possible |
| BrokerClass.OperationEventBroker.Shut | apps/server/src/operation-events.ts:352-367 | Empties everything and closes |
| BrokerClass.OperationEventBroker.StateFor | apps/server/src/operation-events.ts:369-389 | Afterwards the operation has a stream exactly when the broker is open and the operation is not erased; found, replaced or created as in the run model |
| BrokerClass.OperationEventBroker.PublishTo | apps/server/src/operation-events.ts:436-457 | Pushes, cuts to the limit, schedules expiry, sends to every listener, drops throwing ones, and trims |
| BrokerClass.OperationEventBroker.HistoryTimer | apps/server/src/operation-events.ts:459-481 | After a timer fired the stream is not expired, and as long as it has history a later timer is pending |
| BrokerClass.OperationEventBroker.TrimHistoryOperations | apps/server/src/operation-events.ts:537-549 | One sort and the deletion of a slice give the trimmed streams of the run model, and the bound on retained history holds |
| BrokerClass.OperationEventBroker.FireTombstoneTimer | apps/server/src/operation-events.ts:568-572 | A timer removes only the tombstone it was set for; every tombstone with another key or another expiry stays |
| BrokerClass.SortIdle | apps/server/src/operation-events.ts:542-544 | The idle streams in strictly increasing order of last touch and age, each once |
| BrokerClass.FindOldest | apps/server/src/operation-events.ts:544 | The scan finds the stream touched least recently, older streams first among equals |

## Left out

- Selector.SelectBlueprint: the 64-bit hash behind the ranks and the JSON text it reads are not modelled; the rank is any function of the values it is computed from, so no theorem depends on the hash.
- Interleave.InterleaveSelected: identifiers and domain names are compared character by character, which agrees with comparing code units for the ASCII names that occur.
- Fragments.MaximumCandidateMatches: match lengths are unbounded numbers; texts of 2^32 characters do not exist in the source's runtime.
- Fragments.ExposesFragmentedPrivateContent: Unicode normalization, letter case and the private-label patterns are parameters or absent; texts are lists of normalized characters, so unpaired surrogates do not occur.
- Engine.Handle: messages of errors are reduced to their kinds; invalid dates, freezing of objects and cloning of dates are absent because values are immutable and times are whole milliseconds. The status `deleting`, which no engine operation sets, is never reached.
- EngineRuns.Next: completions and cancellations use the outstanding plan, as the server does by reconstructing it; plans that a caller kept from earlier attempts are not steps.
- Codec.DecodeStored: JSON decoding is reduced to a position and a text that may be missing; SHA-256 identifiers are a function of kind and operation.
- Evaluator.ValidateDomainOutput: schema checks before it (points are not negative) are assumptions of the theorems that need them; issue paths are reduced to the indices in them.
- EvaluatorAgreement.RequestIsValid: the context budget (number of materials, prompt length) is not modelled.
- Actions.OfferedActionsAreExact: the operation shown is assumed to agree with the interview, and `Actions.DisagreeingOperation` says what one that does not leads to; the checks of message order and visibility in the same file are not modelled.
- ReportDecoding.ReportIsCreated: fixed wording, explanations, metadata, dates and the shape checks on unknown values are not modelled; identifiers are taken as parsed, hence nonblank; the private-content test is a parameter.
- BrokerRuns.DeliveryIsExact: calls that a listener or close callback makes back into the broker while it is being notified are not steps of their own; which listeners throw is a parameter.
- BrokerStay.SparedStreamStays: the condition on the steps is sufficient, not necessary; a stream that one of too many operations retains may also stay because older ones go first (`BrokerTrim.TrimIsSlice` says which).
- BrokerClass.OperationEventBroker.EraseAll: the three tombstone maps are one map with three kinds of keys, which is the same when identifiers contain no NUL character.
- PostgreSQL repositories, leases, transactions and migrations: their sources decide claims and retries of stored operations; an operation is a plain record here.
- Routes, streaming, polling, authentication, rate limits, configuration, telemetry and the web client: input and output.
- Calls to model providers, prompts, retry delays and template rendering: library calls.
- Question-bank loading and its consistency checks: parsing of files.
