# AI on-call: a verified model

AI on-call takes alerts from AlertManager, asks a language model what is wrong, and runs the suggested
commands once a human has approved them. Two programs do this: a *gate* in Go, which faces webhooks and
Telegram, and a *core* in Python, which keeps the incidents. This project models the parts that decide what
may run, how often, at what cost, and what the record proves afterwards, and proves properties of them over
all runs.

Stateful parts are classes whose methods are proved against functions on values (`…Spec`, `Apply`, `Next`,
`Step`); the theorems are about those functions, over runs of any length. Threads, concurrent webhook
handlers and the retry queue are step relations over atomic steps. What the environment decides (clock
readings, fresh ids, command output, what a provider answers, which calls fail) is a parameter, so every
theorem holds for every choice of it.

## The files

* `Prelude.dfy`: optional values, separators in text, the ordering of strings.
* Approval, execution, audit. `ReportSchema.dfy` (the report contract and its stored form), `Store.dfy` (the
  tables and the history of everything observable), `Executor.dfy`, `ExecutorSteps.dfy` (what each line of an
  execution stands for), `ApprovalGate.dfy`, `ApprovalFlow.dfy`, `Machine.dfy`; `Runs.dfy` (every run of gate,
  orchestrator, executor and status machine keeps one invariant), `Guarantees.dfy` and `Decisions.dfy` (what follows
  for any run), `ExecutorThreads.dfy` (execute under threads), `ExecutorSchedules.dfy` (exactly what threads can still
  do there), `ExecutorRefines.dfy` (and that one call alone is execute), `GateThreads.dfy` (the gate under threads),
  `GateRefines.dfy` (and that one call alone is the orchestrator's), `HashChain.dfy` and `Tampering.dfy` (the
  tamper-evident timeline).
* Ingest and callbacks. `AlertCache.dfy`, `Ingest.dfy` (concurrent handlers), `Webhook.dfy` (the handler loop
  refines it), `Fingerprint.dfy`, `Correlation.dfy`, `Callbacks.dfy`, `CallbackQueue.dfy`, `Router.dfy`.
* Triage. `Breaker.dfy`, `ProviderChain.dfy`, `Budget.dfy`, `Triage.dfy`, `TriageRuns.dfy`.

`dafny verify dfyconfig.toml` checks everything.

## Where the code differs from what is said about it

The model follows the code. These differences are stated as lemmas or visible in a contract.

* In calls that do not overlap, a request that has been escalated can no longer be approved or rejected
  (`EscalatedCannotBeAnswered`); rejecting it still closes its row, and the gate goes on waiting.
* The gate takes no lock, and callbacks and the timeout scheduler do overlap. A request is still decided at most once
  (`GateThreads.AtMostOneDecision`), but an escalated request can be granted and its commands run
  (`GrantAfterEscalation`): a grant or rejection can still follow exactly while a callback that saw the request PENDING
  has deleted it or will be the first to (`AnswerCanFollowIff`). The other way about, an escalation can be logged after
  the grant, exactly while a timeout that found the request before it was deleted has yet to log the escalation it is
  going to (`EscalationCanFollowIff`, `EscalationAfterGrant`).
* A rejection that the gate refuses closes the request's row all the same. One that comes between a grant and the look
  for its report makes the granted request lose it (`RefusedRejectionHidesTheReport`); without one before that look the
  report is always found (`ReportIsFoundIff`).
* The status check of `execute` is not repeated. Under threads any report's whole script can be issued after its
  incident was mitigated (`MitigationCanSlipIn`), or the rest of it after any number of commands
  (`MitigationInsideTheLoop`); an execution starts on a mitigated incident exactly when the mitigation falls between
  the call's own look and its start (`StartsSettledIff`). The per-incident lock does exclude overlapping executions,
  for all ids.
* The idempotency key of an execution separates two incidents exactly when neither id is nested in the other: one is
  the other, a colon and at most 199 characters (`KeysMeetIffNested`). Every nested pair has reports with which a
  command is issued under a completed key (`NestedIdsBreakTheKey`); for all other ids it never is
  (`CompletedKeysStayQuiet`). The reports are ones that validation accepts; what the outer incident's report suggests
  has to fit in the same 199 characters (`SharedKeyIsNested`), and it may suggest nothing.
* On one incident, reports that agree in their first 200 characters share a key (`LongReportsShareAKey`), and so do an
  action whose text holds a bar and the two actions it looks like (`BarsShareAKey`); where no text holds a bar and
  nothing is cut off, a shared key means the same commands (`KeyTellsTheCommands`). So an approved script can be skipped
  unrun; approval runs it exactly when its key is not done and the incident is active (`ApprovedScriptRunsIff`).
* A kind that contains a colon would let text move between kind and payload without the hash chain noticing
  (`ColonKindsHideAnEdit`). No kind that the repository writes contains one, so none is affected today;
  `VerifyNamesFirstEdit` says exactly which edits are seen.
* If the core dies between creating an incident and launching its triage, that triage is never launched: every retry
  finds the row and is told that it already exists (`TriageIsNotLost`, `LostStaysLost`).
* An expired entry of the gate's cache answers nothing and still keeps `Put` out (`ExpiredEntryBlocksPut`) until an
  eviction (`PutIsStoredIffEvicted`).
* The reason parsed from a rejection button contains the request id, so it is never the reason given
  (`RejectDataReadsBack`).
* The retry queue is bounded by its capacity as long as no new callback is queued while a flush runs
  (`PendingIsBounded`), as when fetching and flushing alternate; otherwise it has no bound at all (`PendingCanOutgrowTheBound`).
* Tokens are charged after a completion, so calls that fail are never charged and never limited
  (`FailedCallsAreFree`), although budget.py says that failures count: the provider is asked as often as it answered,
  at most max_calls times, and as often again as it did not (`AskedIsRecordedOrUnanswered`). Nor do exceptions other
  than ProviderError ever trip a breaker (`OtherExceptionsAreNotCounted`).
* The text hashed for a derived fingerprint is unambiguous only for keys without '=' and values without ';':
  the text of any set of labels is also the text of a single label (`EveryTextIsOneLabel`).
* A report whose `risk` is a list or an object makes validation raise a TypeError instead of a ValueError, and
  so gets no repair (`AcceptedIffContract`, `ReportedIff`).
* After an incident is resolved, alerts with its fingerprint never create another one
  (`FingerprintIsUsedUp`).

## Hypotheses

Ids drawn at random are fresh. SHA-256 is an arbitrary function; the tampering theorems assume only that it
does not collide on the strings hashed in the timelines at hand, and that digests are hex; the incident id in a
genesis hash contains no colon. Clocks do not run backwards where a theorem says so. Database calls are atomic, and
so is `HashChain.append`. In `Runs.dfy` the executor is called by the orchestrator only, and calls do not overlap;
`ExecutorThreads.dfy` and `GateThreads.dfy` are about calls that do.

## Model

| member | source | states |
|---|---|---|
| ReportSchema.ValidateReport | core/src/oncall_core/brain/schema_validator.py:80-188 | the validating loops answer as the contract does: accepted iff every field meets it, with the same report, the same complaints in the same order, or a TypeError |
| ReportSchema.CheckHypothesis | core/src/oncall_core/brain/schema_validator.py:96-124 | one hypothesis yields no complaint iff it meets the contract, and then it is read without change |
| ReportSchema.ReadHypothesisList | core/src/oncall_core/brain/schema_validator.py:90-124 | the hypothesis loop keeps every item in order when there is no complaint |
| ReportSchema.CheckAction | core/src/oncall_core/brain/schema_validator.py:132-155 | one action yields no complaint iff it meets the contract; a risk that cannot be hashed raises |
| ReportSchema.ReadActionList | core/src/oncall_core/brain/schema_validator.py:126-155 | the action loop keeps every item in order; it raises iff some item does |
| ReportSchema.NoComplaintsIffMeets | core/src/oncall_core/brain/schema_validator.py:84-180 | the complaints collected over all fields are empty iff every field meets the contract |
| ReportSchema.AcceptedIffContract | core/src/oncall_core/brain/schema_validator.py:80-188 | a document is accepted iff it meets the contract, and the report mirrors it item by item, dropping and reordering nothing |
| ReportSchema.StoredReportReadsBack | core/src/oncall_core/approval_flow.py:198-211 | validate_report(_report_to_dict(r)) == r for exactly the well-formed reports: what is executed after storage is what was registered |
| ReportSchema.StoredFormIsInjective | core/src/oncall_core/approval_flow.py:198-211 | two validated reports stored alike are the same report |
| ReportSchema.SemverIff | core/src/oncall_core/brain/schema_validator.py:12-12 | a version passes iff it is three numbers with dots between them and perhaps a newline at the end |
| ReportSchema.NonBlankIff | core/src/oncall_core/brain/schema_validator.py:87-87 | a text passes as non-empty iff stripping leaves something of it |
| ReportSchema.MissingEvidenceIsEmpty | core/src/oncall_core/brain/schema_validator.py:102-108 | writing an empty list where a hypothesis leaves evidence out changes no verdict, complaint or report |
| ReportSchema.OneToFiveHypotheses | core/src/oncall_core/brain/schema_validator.py:90-93 | a document that is good but for the number of its hypotheses is accepted iff there are one to five |
| TextOrder.SortIsCanonical | core/src/oncall_core/executor/runner.py:236-237 | sorting depends only on which strings there are, not on their order |
| Database.GrantIsInTimeline | core/src/oncall_core/store.py:685-691 | a grant in the history is a row of the timeline, and the reverse |
| Database.Store.Append | core/src/oncall_core/incident/hashchain.py:45-58 | an event is appended to the timeline iff the incident is known; nothing else changes |
| Executor.KeyIgnoresOrderAndRisk | core/src/oncall_core/executor/runner.py:236-237 | reports with the same commands, in any order and with any risks, have one key |
| Executor.KeyNamesItsIncident | core/src/oncall_core/executor/runner.py:111-111 | equal keys name one incident and the same commands, for any two ids of which neither is nested in the other |
| Executor.SharedKeyIsNested | core/src/oncall_core/executor/runner.py:111-111 | a longer id that shares a key with a shorter one is nested in it, and the key of its own report fits in what the cut at 200 leaves |
| Executor.KeysMeetIffNested | core/src/oncall_core/executor/runner.py:111-111 | two different incident ids have actions that validation accepts and that share a key iff the longer is the shorter, a colon and at most 199 characters |
| Executor.NestedIdsShareAKey | core/src/oncall_core/executor/runner.py:236-237 | for every nested pair, and every action that fits, the two reports whose keys are equal |
| Executor.LongReportsShareAKey | core/src/oncall_core/executor/runner.py:236-237 | on one incident reports that agree in their first 200 characters share a key, whatever follows |
| Executor.KeyTellsTheCommands | core/src/oncall_core/executor/runner.py:236-237 | where texts hold no bar and nothing is cut off, reports on an incident share a key iff they suggest the same commands, each as often |
| Executor.BarsShareAKey | core/src/oncall_core/executor/runner.py:236-237 | an action whose text is two texts and a bar shares its key with the two actions |
| Executor.ExactLog | core/src/oncall_core/executor/runner.py:157-206 | the commands issued are a prefix of the script (dry run then real run if mutating, real run only otherwise), cut only at the first failing command |
| Executor.HistoriesConcatenate | core/src/oncall_core/executor/runner.py:157-206 | commands and step events of consecutive steps are the concatenation of each step's |
| Executor.ExecuteIssuesTheScript | core/src/oncall_core/executor/runner.py:110-218 | past the checks: the script up to its first failure, one result and one step event for each action reached, in order, all ok but possibly the last, key done iff all succeeded; short of them: no command, no step event and no key |
| ExecutorSteps.ExecutesIff | core/src/oncall_core/executor/runner.py:102-152 | in terms of risks and rows alone: a report runs iff it is validated, its key not done, its incident known and active, and, if any action is mutating, a grant is in the incident's timeline; otherwise why not, no command and no key |
| ExecutorSteps.ExecutionIsTold | core/src/oncall_core/executor/runner.py:145-218 | line by line: a rehearsal is of a mutating action, a mutating action runs directly after its own successful rehearsal, a read-only one is never rehearsed, and each row and result holds the redacted reply of the command before it |
| ExecutorSteps.StepNameTells | core/src/oncall_core/executor/runner.py:158-158 | a step's name tells which step it is and as much of the action as fits |
| Executor.ExecutorRunner.RunActions | core/src/oncall_core/executor/runner.py:157-206 | the step loop leaves the tables and history that the specification of the run gives, and stops at the first failure |
| Executor.ExecutorRunner.Execute | core/src/oncall_core/executor/runner.py:102-218 | execute leaves the store and outcome of ExecuteSpec, on which ExecuteIssuesTheScript is proved |
| ApprovalGate.UnansweredTrail | core/src/oncall_core/runbook/approval.py:198-243 | the state after n unanswered timeouts: timeout count, who was notified and in which order |
| ApprovalGate.TargetsFollowTheChain | core/src/oncall_core/runbook/approval.py:204-226 | the targets of the trail are those of the escalation chain, one after the other, the last for good |
| ApprovalGate.SurvivesUntil | core/src/oncall_core/runbook/approval.py:198-243 | if next_target can be followed k times, the request is pending before its max(2, k+1)-th timeout and gone after it |
| ApprovalGate.AbandonedAtExactly | core/src/oncall_core/runbook/approval.py:198-243 | the n-th timeout abandons the request iff n == max(2, k+1) for the k at which the chain ends; a chain that never ends never abandons |
| ApprovalGate.StuckForever | core/src/oncall_core/runbook/approval.py:204-226 | once the chain names an empty target the request is escalated to the same target for ever |
| ApprovalGate.ApprovalGate.SubmitStep | core/src/oncall_core/runbook/approval.py:105-147 | a read-only step is approved at once and never held; any other is held as pending under a fresh id and logged |
| ApprovalGate.ApprovalGate.Approve | core/src/oncall_core/runbook/approval.py:153-164 | a grant is logged iff the request was pending, and the request is then gone; an escalated one is refused |
| ApprovalGate.ApprovalGate.Reject | core/src/oncall_core/runbook/approval.py:166-192 | a rejection and its indexing are logged iff the request was pending |
| ApprovalGate.ApprovalGate.Timeout | core/src/oncall_core/runbook/approval.py:198-243 | one timeout escalates or abandons as OnTimeout says, on which the exact bound is proved |
| ApprovalFlow.Orchestrator.RegisterFromReport | core/src/oncall_core/approval_flow.py:66-101 | the gate's request and the stored row are made together, with the report in stored form, iff some action is mutating |
| ApprovalFlow.Orchestrator.RunApproved | core/src/oncall_core/approval_flow.py:126-145 | the executor is called with the stored report iff its row is pending and it validates; the row stays pending |
| ApprovalFlow.Orchestrator.Handle | core/src/oncall_core/approval_flow.py:107-124 | the effect of a button on gate, rows, timeline and commands, errors included |
| ApprovalFlow.Orchestrator.TickTimeouts | core/src/oncall_core/approval_flow.py:151-167 | one round of the scheduler over every due row in order, and how many it handled |
| Decisions.RegistersIff | core/src/oncall_core/approval_flow.py:66-101 | for a known incident, a report asks for an approval iff some action's risk is mutating; who is held, the row, and the three lines of the history, or nothing at all |
| Decisions.OnlyReadOnlyPasses | core/src/oncall_core/runbook/approval.py:105-147 | of a known incident, only a read-only step passes unasked, and nothing else is left unheld |
| Decisions.RejectionIsRecorded | core/src/oncall_core/approval_flow.py:117-122 | rejecting a held request logs who and why, indexes the reason, and closes the row as rejected; nothing is called |
| Decisions.ApprovalWithoutExecutor | core/src/oncall_core/approval_flow.py:126-133 | without an executor an approval is logged and the row closed as such; nothing is called |
| Decisions.OtherwiseRefused | core/src/oncall_core/approval_flow.py:107-124 | any other callback is refused and changes nothing, but that a rejection still closes the row |
| Decisions.RejectedRowIsClosed | core/src/oncall_core/approval_flow.py:117-122 | in every run, from a logged rejection on, the row reads rejected and no listing contains the request |
| Decisions.AbandonedRowIsClosed | core/src/oncall_core/approval_flow.py:151-167 | in every run, from a logged abandonment on, the row reads abandoned, or rejected by a later callback, and no listing contains the request |
| Decisions.TimeoutsAreTold | core/src/oncall_core/runbook/approval.py:198-243 | in every run each escalation logged goes from one target of the chain to the next, and each abandonment logged lists everyone asked and the exact number of timeouts |
| Decisions.WhatACallAdds | core/src/oncall_core/approval_flow.py:66-167 | no call takes a line of the history back, and commands, calls and decisions come only from the call that makes them |
| Decisions.MutatingRunsAreRehearsed | core/src/oncall_core/executor/runner.py:157-206 | in every run each command is of the action whose turn it is after the call before it; a rehearsal only of a mutating one, and a mutating one runs only directly after its own rehearsal went through |
| Machine.Transition | core/src/oncall_core/incident/machine.py:28-60 | a status changes iff the table allows it, with exactly one event either way |
| Machine.SettledStays | core/src/oncall_core/incident/machine.py:17-21 | after mitigated or resolved the status is mitigated or resolved for ever |
| Machine.MovesAre | core/src/oncall_core/incident/machine.py:17-21 | the four moves there are |
| Machine.StatusesInOrder | core/src/oncall_core/incident/machine.py:28-60 | no status is reached but through all those before it, in order |
| Machine.ReplayableHistory | core/src/oncall_core/incident/machine.py:28-60 | in a history that replays, each `from` is the previous `to`, every move is in the table, and nothing starts after mitigation |
| Runs.LifeUntouched | core/src/oncall_core/runbook/approval.py:105-243 | events about other requests leave a request's life where it is |
| Runs.IssueFollowsScript | core/src/oncall_core/executor/runner.py:157-206 | commands that follow the script of the report called are accepted one by one |
| Runs.CreateKeeps | core/src/oncall_core/store.py:253-281 | creating an incident keeps the invariant of all runs |
| Runs.MoveKeeps | core/src/oncall_core/incident/machine.py:28-60 | a transition, legal or not, keeps it |
| Runs.ProposeKeeps | core/src/oncall_core/approval_flow.py:66-101 | registering a report keeps it: the new request has its pending row |
| Runs.ApproveKeeps | core/src/oncall_core/runbook/approval.py:153-164 | approving keeps it |
| Runs.ExecuteKeeps | core/src/oncall_core/executor/runner.py:110-218 | an execution keeps it: its commands are those of the report just called |
| Runs.ExecuteApprovedKeeps | core/src/oncall_core/approval_flow.py:126-145 | calling the executor for an approved request keeps it |
| Runs.RejectKeeps | core/src/oncall_core/runbook/approval.py:166-192 | rejecting keeps it |
| Runs.AnswerKeeps | core/src/oncall_core/approval_flow.py:107-124 | any callback, known or unknown, keeps it |
| Runs.TimeoutKeeps | core/src/oncall_core/runbook/approval.py:198-243 | a timeout keeps it |
| Runs.TickKeeps | core/src/oncall_core/approval_flow.py:151-167 | a round of the scheduler keeps it |
| Runs.RunKeeps | core/src/oncall_core/approval_flow.py:66-167 | every legal run of gate, orchestrator, executor and status machine keeps the invariant |
| Guarantees.AtMostOneDecision | core/src/oncall_core/runbook/approval.py:153-243 | in every run a request is granted, rejected or abandoned at most once, and only one of the three |
| Guarantees.CalledAtMostOnce | core/src/oncall_core/approval_flow.py:112-145 | no request causes two executions |
| Guarantees.OnlyGrantedRequestsAreCalled | core/src/oncall_core/approval_flow.py:107-145 | in runs whose calls do not overlap, a request that is ever rejected, escalated or abandoned causes no execution, before or after |
| Guarantees.EveryCommandWasApproved | core/src/oncall_core/approval_flow.py:66-145 | each command ever issued follows a registration, a grant and a call of one request, the call with exactly the registered report, and is the next command of that report's script |
| Guarantees.DecidedIsQuiet | core/src/oncall_core/runbook/approval.py:153-257 | once a request is decided, callbacks and timeouts change neither gate nor timeline |
| Guarantees.EscalatedCannotBeAnswered | core/src/oncall_core/runbook/approval.py:153-178 | an escalated request can no longer be answered; a rejection closes its row and nothing else |
| Guarantees.ApprovalReachesTheExecutor | core/src/oncall_core/approval_flow.py:107-145 | a request the gate holds as pending always has its pending row, so approving it logs the grant and calls the executor with the registered report |
| Guarantees.ApprovedScriptRunsIff | core/src/oncall_core/executor/runner.py:110-218 | from the button to the commands: an approved report's script runs, up to its first failing command, iff its key is not done and its incident is not mitigated or resolved; otherwise nothing runs |
| GateThreads.ReachKeeps | core/src/oncall_core/runbook/approval.py:153-257 | with callbacks and timeouts interleaved at every access to the dictionary, the request objects and the stored rows, one invariant is kept |
| GateThreads.AtMostOneDecision | core/src/oncall_core/runbook/approval.py:153-257 | in any such interleaving a request is granted, rejected or abandoned at most once, and only one of the three |
| GateThreads.EscalationsFoundTheirRequest | core/src/oncall_core/runbook/approval.py:198-226 | every escalation was logged by a call that found its request before the request was deleted |
| GateThreads.EscalationCanFollowIff | core/src/oncall_core/runbook/approval.py:198-226 | after a request is deleted an escalation of it can still be logged iff some timeout that found it has yet to log the one it is going to |
| GateThreads.EscalationAfterGrant | core/src/oncall_core/runbook/approval.py:198-226 | a schedule in which an escalation follows the grant, for every request and chain |
| GateThreads.AnswerCanFollowIff | core/src/oncall_core/runbook/approval.py:153-178 | once a request is past PENDING, escalated above all, a grant or rejection of it can still be logged iff some callback that saw it PENDING has deleted it, or is about to and will be the first to |
| GateThreads.GrantAfterEscalation | core/src/oncall_core/approval_flow.py:107-145 | a schedule in which an escalated request is granted and the executor is called, for every request and chain |
| GateThreads.ReportIsFoundIff | core/src/oncall_core/approval_flow.py:107-130 | a granted request finds its report iff nobody closed its row before it looked, and only rejections that the gate refused can have |
| GateThreads.RefusedRejectionHidesTheReport | core/src/oncall_core/approval_flow.py:118-130 | a schedule in which a refused rejection makes a granted request lose its report, for every request and chain |
| GateRefines.CallbackAlone | core/src/oncall_core/approval_flow.py:107-145 | the steps of a callback, taken without interruption, leave the dictionary, its objects and the rows exactly as the orchestrator's HandleAction does |
| GateRefines.TimeoutIsTick | core/src/oncall_core/approval_flow.py:151-167 | the steps of a timeout, taken without interruption, leave them exactly as one row of tick_timeouts does |
| Guarantees.StatusIsItsHistory | core/src/oncall_core/incident/machine.py:28-60 | current status is the replay of the status changes, reached through all those before it, each `from` the previous `to`, and no execution starts after mitigation |
| Guarantees.UnansweredRequestEnds | core/src/oncall_core/approval_flow.py:151-167 | a request without callbacks is held, row pending, through fewer than max(2, k+1) due ticks; from then on it is gone and its row reads abandoned |
| ExecutorThreads.ExecutionsDoNotOverlap | core/src/oncall_core/executor/runner.py:102-108 | in any interleaving of any number of calls, no call acts on an incident between two events of another call on it |
| ExecutorThreads.CompletedKeysStayQuiet | core/src/oncall_core/executor/runner.py:111-218 | once a call completes its key, any later command or completion under that key is by a call on another incident, one of the two ids nested in the other |
| ExecutorThreads.CallsFollowTheirScripts | core/src/oncall_core/executor/runner.py:157-206 | under threads each call still issues a prefix of its own report's script |
| ExecutorThreads.StartsLookedFirst | core/src/oncall_core/executor/runner.py:124-152 | every start was preceded by the call's own look at a status that was then current and active |
| ExecutorRefines.AloneIsExecute | core/src/oncall_core/executor/runner.py:102-218 | the steps of a call, taken without interruption, issue the commands and leave the executions table of one execute, and every lock as it was |
| ExecutorSchedules.StartsSettledIff | core/src/oncall_core/executor/runner.py:124-152 | under legal status changes an execution starts on a mitigated or resolved incident iff such a change lies between the call's own look and its start |
| ExecutorSchedules.LooksAtMostOnce | core/src/oncall_core/executor/runner.py:124-135 | no call reads the status twice |
| ExecutorSchedules.MitigationCanSlipIn | core/src/oncall_core/executor/runner.py:124-206 | for any validated report, a schedule in which its whole script is issued after its incident was mitigated |
| ExecutorSchedules.MitigationInsideTheLoop | core/src/oncall_core/executor/runner.py:157-206 | for any validated report and any number of commands already issued, a schedule in which the rest of the script is issued after mitigation |
| ExecutorSchedules.ThroughTheLoop | core/src/oncall_core/executor/runner.py:157-206 | from any state, turns of a call in the loop issue its next commands one by one and change nothing else |
| ExecutorSchedules.SharedKeysRace | core/src/oncall_core/executor/runner.py:102-218 | any two calls on different incidents that share a key have a schedule in which one issues a command after the other completed the key |
| ExecutorSchedules.NestedIdsBreakTheKey | core/src/oncall_core/executor/runner.py:111-218 | so every nested pair of non-blank ids has well-formed reports, naming their own incidents, and a schedule that issue a command under a completed key, for any action of the outer report that fits, or none |
| ExecutorThreads.ReachKeeps | core/src/oncall_core/executor/runner.py:102-243 | every reachable state keeps the lock, key and history invariant |
| HashChain.Verify | core/src/oncall_core/incident/hashchain.py:60-77 | ok iff every row links to the one before it and hashes right, otherwise the id of the first row that does not |
| HashChain.HashChain.Append | core/src/oncall_core/incident/hashchain.py:45-58 | a row chained onto the incident's last hash, or onto the genesis hash; refused for an unknown incident |
| HashChain.HashChain.AppendRaw | core/src/oncall_core/store.py:394-411 | a row without hashes |
| HashChain.HashChain.VerifyIncident | core/src/oncall_core/incident/hashchain.py:60-77 | the verdict on an incident's own rows against its own genesis hash; refused for an unknown incident |
| HashChain.NamesOnlyTheFirst | core/src/oncall_core/incident/hashchain.py:60-77 | the verdict is ok iff the chain is, and names no row but the first bad one |
| HashChain.RunsWeaveWell | core/src/oncall_core/incident/hashchain.py:45-58 | under any interleaving of chained and raw writes over any incidents, an incident's hashed rows alone form a valid chain |
| HashChain.RawRowsBreakTheChain | core/src/oncall_core/incident/hashchain.py:67-76 | up to the first raw row everything links, and that row does not |
| HashChain.VerifyFindsTheFirstRawRow | core/src/oncall_core/incident/hashchain.py:60-77 | after any such run verify is ok iff the incident has no raw row, otherwise it names the first |
| HashChain.WritesAreKept | core/src/oncall_core/incident/hashchain.py:45-58 | any interleaving of writers leaves each incident's rows in the order of its writes, with the kinds and payloads given, none lost or added |
| HashChain.IdsNameRows | core/src/oncall_core/store.py:394-411 | ids grow, so the id in a verdict names one row |
| Tampering.EventInputEndsWithPrev | core/src/oncall_core/incident/hashchain.py:27-29 | the previous hash and the text before it can be read back from a hashed string |
| Tampering.EventInputIsInjective | core/src/oncall_core/incident/hashchain.py:27-29 | with kinds free of colons, kind, payload and previous hash can all be read back |
| Tampering.GenesisIsNoEvent | core/src/oncall_core/incident/hashchain.py:22-29 | no genesis string is an event string |
| Tampering.GenesisSealsTheIncident | core/src/oncall_core/incident/hashchain.py:22-24 | rows that verify for one id and creation time verify under another pair only if it is the same pair; otherwise verify names the first row |
| Tampering.CreationTimeIsSealed | core/src/oncall_core/incident/hashchain.py:60-77 | after any writes, a creation time changed afterwards makes verify name the incident's first row |
| Tampering.EqualHashesEqualPasts | core/src/oncall_core/incident/hashchain.py:45-77 | verified timelines of one incident that share a hash share its position and all content up to it |
| Tampering.HashesAreDistinct | core/src/oncall_core/incident/hashchain.py:22-58 | hashes along a verified chain, genesis included, are pairwise distinct |
| Tampering.LastHashDeterminesTimeline | core/src/oncall_core/incident/hashchain.py:60-77 | two verified timelines of one incident that end in the same hash are equal row by row |
| Tampering.OnlyPrefixesVerify | core/src/oncall_core/incident/hashchain.py:60-77 | any selection of rows, left out, moved or repeated, that still verifies is a prefix of the timeline |
| Tampering.VerifyNamesFirstEdit | core/src/oncall_core/incident/hashchain.py:60-77 | after edits of kinds and payloads verify is ok iff no "kind:payload" text changed, otherwise it names the first row where one did |
| Tampering.PlainEditsAreSeen | core/src/oncall_core/incident/hashchain.py:27-29 | with kinds free of colons every edit of a kind or a payload changes that text |
| Tampering.ColonKindsHideAnEdit | core/src/oncall_core/incident/hashchain.py:27-29 | in every timeline that verifies, every row whose kind contains a colon has an edit of kind and payload that verify does not see |
| AlertCache.KeyIsInjective | gate/internal/ingest/idempotency.go:50-52 | one key, one (fingerprint, status), whatever the fingerprint contains |
| AlertCache.Store.Get | gate/internal/ingest/idempotency.go:55-63 | the stored answer iff there is one and it has not expired |
| AlertCache.Store.Put | gate/internal/ingest/idempotency.go:66-80 | the first writer wins; a full cache is cleared of expired entries and otherwise refuses |
| AlertCache.Store.EvictLocked | gate/internal/ingest/idempotency.go:83-90 | exactly the expired entries go |
| AlertCache.CacheIsBounded | gate/internal/ingest/idempotency.go:66-80 | over any run the cache never exceeds maxEntries |
| AlertCache.EntryStays | gate/internal/ingest/idempotency.go:55-90 | an entry stays untouched until it has expired, whatever is put or evicted |
| AlertCache.PutIsRemembered | gate/internal/ingest/idempotency.go:55-80 | what is put under a new key, with fewer than 100,000 held, is what every Get of the key answers for 24 hours |
| AlertCache.HitsAgree | gate/internal/ingest/idempotency.go:55-63 | once Get hits, every later Get of the key answers the same until the entry expires |
| AlertCache.ExpiredEntryBlocksPut | gate/internal/ingest/idempotency.go:69-71 | after expiry every Get of the key misses, however often it is put, until a full cache evicts |
| AlertCache.PutIsStoredIffEvicted | gate/internal/ingest/idempotency.go:66-90 | after expiry, where there is room, the first Put of the key since an eviction is stored iff there was an eviction |
| Ingest.NextKeeps | gate/internal/ingest/handler.go:124-157 | every step of every handler and of the core keeps the ingest invariant |
| Ingest.PutKeeps | gate/internal/ingest/idempotency.go:66-80 | caching an accepted answer keeps the cache true to the incidents table |
| Ingest.ExactlyOnceIngest | gate/internal/ingest/handler.go:124-157 | for any batches, retries and concurrent handlers, with calls failing before or after their effect and the cache lost at any time: one incident per fingerprint, one triage per incident, and every answer, fresh or cached, carries the id the core holds |
| Ingest.FoundStays | core/src/oncall_core/store.py:267-279 | the id found for a fingerprint never changes |
| Ingest.OneAnswerSaysCreated | core/src/oncall_core/grpc_servicer.py:52-83 | over all handlers and retries at most one answer for a fingerprint says that it created the incident |
| Ingest.NewIffCreated | core/src/oncall_core/grpc_servicer.py:43-83 | in every schedule an answer has deduplicated false iff it refuses the alert or comes from the call that added the incident's row; then it says created, with that row's id |
| Ingest.EveryRowWasCreated | core/src/oncall_core/grpc_servicer.py:52-57 | every incident was added by the call of one alert with its fingerprint |
| Ingest.OneNewAnswer | core/src/oncall_core/grpc_servicer.py:52-83 | once that call was answered, its answer is the one accepted answer about the incident that is not deduplicated |
| Ingest.TriageIsNotLost | core/src/oncall_core/grpc_servicer.py:58-74 | for each incident: its triage is launched or about to be iff the core did not die between creating that incident and launching it |
| Ingest.LostStaysLost | core/src/oncall_core/grpc_servicer.py:52-83 | once lost, a triage is launched by no later alert, retry or handler |
| Webhook.Servicer.ReportIncident | core/src/oncall_core/grpc_servicer.py:43-83 | the rows, launches and answer for a missing, known or new fingerprint |
| Webhook.Webhook.ServeOne | gate/internal/ingest/handler.go:125-156 | one turn of the event loop leaves the cache, table and results that a schedule of the step relation gives |
| Webhook.Webhook.ServeHTTP | gate/internal/ingest/handler.go:124-161 | a whole request is a schedule of the step relation, answering each event in order or failing with 502 |
| Webhook.TurnForwards | gate/internal/ingest/handler.go:140-156 | what a turn that reaches the core leaves, for each fate of the call |
| Fingerprint.DeriveFingerprint | gate/internal/ingest/alertmanager.go:97-112 | the digest of a text that is the same for every order in which the labels are visited |
| Fingerprint.VisitingOrderIsIrrelevant | gate/internal/ingest/alertmanager.go:97-110 | the text does not depend on map iteration order |
| Fingerprint.TextIsUnique | gate/internal/ingest/alertmanager.go:97-110 | at most one text is hashed for given labels |
| Fingerprint.LabelsReadBack | gate/internal/ingest/alertmanager.go:97-110 | for keys without '=' and values without ';' the text decodes to the labels |
| Fingerprint.TextIsInjective | gate/internal/ingest/alertmanager.go:97-110 | two such label sets with one text are equal |
| Fingerprint.EveryTextIsOneLabel | gate/internal/ingest/alertmanager.go:97-110 | without that restriction the text of any labels is also the text of a single label |
| Fingerprint.NormalizeOne | gate/internal/ingest/alertmanager.go:58-81 | the fingerprint is the trimmed one or the derived one and never empty; the status is firing unless it reads resolved |
| Fingerprint.TrimSpaceIs | gate/internal/ingest/alertmanager.go:58-81 | what is trimmed off a fingerprint is blank, and nothing blank is left at its ends |
| Fingerprint.ResolvedInAnyCase | gate/internal/ingest/alertmanager.go:58-81 | in ASCII, a status reads resolved iff it is that word in any mixture of cases |
| Fingerprint.NormalisedAlertsAreAccepted | gate/internal/ingest/alertmanager.go:72-74 | in any schedule, alerts that were normalised are never refused |
| Correlation.LabelIntersection | core/src/oncall_core/incident/correlate.py:102-109 | the number of correlation labels on which both agree with a non-empty value |
| Correlation.Correlator.IngestAlert | core/src/oncall_core/incident/correlate.py:46-69 | the first candidate that shares two labels takes the alert; only without one is the table asked by fingerprint, and only then may an incident be created |
| Correlation.CreatesIff | core/src/oncall_core/incident/correlate.py:46-109 | an alert creates an incident iff no unresolved one touched in the last 300 seconds agrees with it in two of cluster, service and severity and its fingerprint is new; otherwise it goes to the newest such incident, or to the one with its fingerprint, with exactly these effects |
| Correlation.StormAlertIsAdded | core/src/oncall_core/incident/correlate.py:54-57 | an alert of a storm whose incident is open is added, and keeps an incident open for the next |
| Correlation.StaysOpen | core/src/oncall_core/incident/correlate.py:46-99 | from a storm's first CREATED on, some unresolved matching incident was touched no earlier than the storm's last alert |
| Correlation.StormMakesOneIncident | core/src/oncall_core/incident/correlate.py:46-99 | however long a storm lasts, mixed with anything, it creates at most one incident |
| Correlation.IngestChangesNoStatus | core/src/oncall_core/incident/correlate.py:71-99 | no alert changes the status of any incident |
| Correlation.FingerprintIsUsedUp | core/src/oncall_core/incident/correlate.py:59-67 | once an incident has a fingerprint, resolved or not, no alert with it ever creates another |
| Callbacks.ParseReason | gate/internal/tgtransport/callback.go:195-202 | everything after the first colon, nothing without one |
| Callbacks.ParseRequestId | gate/internal/tgtransport/callback.go:206-221 | the text between the first colon and the next, or the end |
| Callbacks.ParseKind | gate/internal/tgtransport/callback.go:181-192 | each kind iff the data starts with its name in any mixture of cases |
| Callbacks.ApproveButtonReadsBack | core/src/oncall_core/approval_flow.py:95-98 | approve:{rid} comes back as an approval of rid |
| Callbacks.RejectDataReadsBack | core/src/oncall_core/approval_flow.py:95-98 | reject:{rid}:{reason} comes back as a rejection of rid for every reason; the reason passed on is never the reason given |
| CallbackQueue.NextKeeps | gate/internal/tgtransport/callback.go:115-156 | every step of dispatch, enqueue and flush keeps conservation and order |
| CallbackQueue.CallbacksAreConserved | gate/internal/tgtransport/callback.go:115-156 | at every step each received callback is exactly one of acknowledged, dropped, pending, held by the flush or in its first call, and pending is in order of receipt |
| CallbackQueue.OnlyTheOldestIsDropped | gate/internal/tgtransport/callback.go:123-131 | only a full queue drops, and what it drops is older than everything it keeps |
| CallbackQueue.PendingIsBounded | gate/internal/tgtransport/callback.go:115-178 | as long as no callback is queued while a flush runs, pending and all that a flush holds never exceed maxPending |
| CallbackQueue.PendingCanOutgrowTheBound | gate/internal/tgtransport/callback.go:135-156 | with callbacks arriving during flushes, pending can reach any length |
| Router.Router.Dispatch | gate/internal/tgtransport/callback.go:115-121 | a callback is acknowledged or queued |
| Router.Router.Enqueue | gate/internal/tgtransport/callback.go:123-131 | the newest callback is always queued, at the cost of the oldest |
| Router.Router.FetchOnce | gate/internal/tgtransport/callback.go:95-110 | one call for each callback in order, read from its data; the offset moves past the last update |
| Router.Router.FlushPending | gate/internal/tgtransport/callback.go:135-156 | what is not acknowledged stays, in order; the number left |
| Router.FetchSorts | gate/internal/tgtransport/callback.go:95-131 | a fetch acknowledges exactly the callbacks that were answered and queues the others behind what was pending; where they do not all fit, the oldest are dropped |
| Router.FlushSorts | gate/internal/tgtransport/callback.go:135-156 | a flush acknowledges exactly the callbacks that were answered and leaves the others, in order |
| Router.FetchStaysBounded | gate/internal/tgtransport/callback.go:115-131 | a fetch never takes pending over its capacity |
| Breaker.CircuitBreaker.Mode | core/src/oncall_core/brain/providers/circuit.py:27-33 | closed, open or half open, by the clock |
| Breaker.CircuitBreaker.RecordFailure | core/src/oncall_core/brain/providers/circuit.py:42-45 | the failure is counted, and from the threshold on the breaker is opened anew |
| Breaker.GuardedComplete | core/src/oncall_core/brain/providers/chain.py:29-43 | refused, failed and recorded, answered and reset, or passed on unrecorded |
| Breaker.FailingProviderIsSpared | core/src/oncall_core/brain/providers/circuit.py:27-45 | from any reachable state a failing provider is really called at most threshold + floor((t1 - t0) / cooldown) times in a span |
| Breaker.BoundIsReached | core/src/oncall_core/brain/providers/circuit.py:27-45 | some provider is called exactly that often |
| Breaker.OpenIffEnoughFailures | core/src/oncall_core/brain/providers/circuit.py:38-45 | the breaker is open iff the trailing run of failures is at least the threshold, and since the last of them |
| Breaker.OtherExceptionsAreNotCounted | core/src/oncall_core/brain/providers/chain.py:34-41 | exceptions other than ProviderError and timeouts leave a breaker as it is, in every state, and every such call it lets through reaches the provider |
| ProviderChain.Chain.Complete | core/src/oncall_core/brain/providers/chain.py:67-78 | the first provider in order that is let through and answers wins, attempts names all up to it, later ones are untouched; it raises iff all refuse or fail |
| Budget.TokenBudget.AssertCanSpend | core/src/oncall_core/brain/budget.py:49-66 | granted iff calls and tokens are below their limits and the estimate fits |
| Budget.BudgetLedger.BudgetFor | core/src/oncall_core/brain/budget.py:101-105 | one budget for each incident, opened on first use, nobody's spending changed |
| Budget.RecordIsBacked | core/src/oncall_core/brain/budget.py:49-72 | a record made after a granted check keeps every record within the limits that held before it |
| Budget.OverspendIsOneCall | core/src/oncall_core/brain/budget.py:49-72 | calls never exceed the limit, and tokens exceed it by less than one completion |
| Triage.TriagePipeline.Run | core/src/oncall_core/brain/triage.py:87-160 | outcome, chain calls, events, predictions and spending of a run for every environment, other incidents' budgets untouched |
| Triage.TriagePipeline.Repair | core/src/oncall_core/brain/triage.py:128-156 | the one repair: its budget check, its call, its verdict |
| Triage.TriagePipeline.FinishReport | core/src/oncall_core/brain/triage.py:202-245 | the report is saved with its missing context extended when sources were degraded and it lists none |
| Triage.TriagePipeline.Checkpoint | core/src/oncall_core/brain/triage.py:164-182 | an inactive status aborts with one event and no report |
| TriageRuns.ReportedIff | core/src/oncall_core/brain/triage.py:87-160 | a run reports iff both checkpoints pass, the budget allows, and the first answer or the one repair holds a report for the incident |
| TriageRuns.ReportIsTheAnswer | core/src/oncall_core/brain/triage.py:111-223 | a reported report says what the first answer's document says if that meets the contract, else the second's: id, version, hypotheses and actions item by item, and its missing context, or one entry for each degraded source; it is the prediction saved |
| TriageRuns.EndsWithoutReport | core/src/oncall_core/brain/triage.py:87-160 | how every other run ends, and with how many tokens spent |
| TriageRuns.EveryRunEndsOnce | core/src/oncall_core/brain/triage.py:87-302 | at most two chain calls, exactly one outcome event, a prediction iff a report, which names the incident and lists missing context whenever sources were degraded |
| TriageRuns.ReportSurvivesStorage | core/src/oncall_core/brain/triage.py:206-223 | the report of a run, extended or not, is what approval will read back from the store, under its own incident |
| TriageRuns.SpendingIsBounded | core/src/oncall_core/brain/triage.py:95-142 | over any runs on an incident recorded completions never exceed max_calls, and tokens before each were below max_tokens |
| TriageRuns.CallsCanBeUsedUp | core/src/oncall_core/brain/budget.py:49-72 | any number of completions up to max_calls can be had |
| TriageRuns.AskedIsRecordedOrUnanswered | core/src/oncall_core/brain/triage.py:95-160 | over any runs the provider is asked once for each recorded completion and once for each call without an answer: at most max_calls times, and as often again as it did not answer |
| TriageRuns.FailedCallsAreFree | core/src/oncall_core/brain/triage.py:100-107 | in particular runs whose first calls all fail are charged nothing and ask again every time |

## Left out

- SQLite, its transactions and its text of SQL: tables are maps and sequences, each store call is one step. The order of rows a query leaves open is a parameter.
- SHA-256, Fernet, encrypted audit files, uuid and clocks: parameters or not modelled.
- HTTP, gRPC, Telegram, Prometheus, Loki and the language model: only success, failure and what is answered.
- JSON and YAML text: the model starts from parsed values. Numbers are reals, so overflow of a huge integer to float is not modelled, nor are digits outside ASCII in version strings.
- Text is a sequence of characters; the Go code reads bytes, which agrees with it here because every separator and prefix it looks for is ASCII.
- Redaction patterns, embeddings and knowledge search: redaction is an arbitrary function on text, indexing an override always succeeds.
- Notifiers, logging, metrics and shadow report files: sinks, assumed to succeed.
- ActionCallback in grpc_servicer.py passes on the Telegram callback id where the orchestrator expects the request id, and the repository leaves the handler between them to its user; the model joins router and orchestrator at the request id.
- Correlator is not called by the servicer; it is modelled on its own, with other writers of the table as status changes.
- Two writers appending to one incident's hash chain at the same time (the read of the last hash and the insert are one step).
- Runs: registering a request with the gate and storing its row are one step, so a callback cannot fall between them.
- Database.Store.Append: does not carry prev_hash and hash; module HashChain models those columns of the same table, and verification.
- Webhook.Servicer.ReportIncident: does not write the incident_created row, on which nothing else here depends.
- Triage.TriagePipeline.Run: is about incidents that exist; for an unknown one the run would end in the ValueError of its last append.
- Triage.TriagePipeline.Checkpoint: likewise, does not model an unknown incident, which passes it.
- Triage.TriagePipeline.FinishReport: does not write the shadow report file or return its path.
- Guarantees.OnlyGrantedRequestsAreCalled: is about calls that do not overlap; where they do, GateThreads says exactly when an escalation can follow a grant and a grant an escalation.
- Guarantees.ApprovalReachesTheExecutor: likewise; GateThreads.ReportIsFoundIff says when an overlapping rejection takes the report away.
- Guarantees.EscalatedCannotBeAnswered: likewise; GateThreads.AnswerCanFollowIff has the exact condition.
- ExecutorRefines.AloneIsExecute: compares commands and tables; the thread model has no rows of single steps.
- GateThreads: notifications, the executor behind the call and a configuration without one are not part of it; a request and its row appear in one step, since nobody else knows the request before.
- ExecutorThreads: events of single steps and audit files are not in the thread model; Executor has the events.
- The rate limiter, authentication, payload size limits and severity labels of the gate; the UI, read API, postmortems, runbook parsing, rosters, collectors, evaluation kit and shadow scoring: they would only add easy members.
- Fingerprint.NormalizeOne: starts_at, severity, labels and annotations of the event are copied or parsed by library calls and not modelled.
- Ingest.TriageIsNotLost: says that triage is launched or about to be, not that its thread finishes.
