# DataMesh Warden: the incident remediation protocol

DataMesh Warden lets an untrusted language model diagnose a data incident, propose SQL patches and have them
audited, and lets a human execute or reject the result. This project models that protocol, the store it runs on and
the text transformations it rests on, and proves what every run keeps.

## What is modelled

**The protocol.** `Lifecycle` describes one orchestrator run as a machine that moves from one suspension point to the
next. Everything the service does not control is an input: the model's answers and tool arguments, the results and
faults of the services behind the tools, the timeout of a turn or a tool, and the moment the incident budget runs out.
`LifecycleSafety`, `DestructiveTrail`, `RunLog` and `StepLogGrammar` prove what every run keeps, for every sequence of
inputs. `IncidentWorld` adds the human decisions. An approval is two atomic steps there, because the backend that runs
the SQL may suspend in between; `ExecuteAsked` is the pair with nothing in between, as with the local backend.
`DecisionNumbers` follows the step numbers, `TimeoutCauses` the reason of a failure. `SharedService` puts all incidents
into one store, with tools that act on whatever incident their arguments name, and with the subscribers of every log.
`Reachability` has histories in which the interesting states occur.

**In plain terms.** `ToolResults`, `PolicyRules`, `RunSteps`, `RunEndings` and `ApprovedPatch` say case by case what a
tool call, a step of a run, its ending and a human's request leave behind, without the functions the machine is built
from. On these rest the theorems about what is finally run: `ExecutedSql` (which labels it was judged by),
`AuditTrail` (who asked for its audit) and, carried into every history by `HistoryRuns`, `DestructiveTrail`.

**The imperative code.** `InMemoryStore`, `Tools`, `OrchestratorLoop` and `Executor.dfy` (module `ExecutorSteps`) have
the original's shape: a store with mutable maps, lists and subscriber queues, nested loops over turns, calls and
retries, and sequential decision handlers. Each method is proved equal to the machine's steps on the documents of its
incident, and to leave every other incident alone; the theorems about the machine are therefore theorems about it.

**The two state managers.** `StepStreams` follows one subscriber through any interleaving. `KeyedCollections`,
`KeyedStore` and `KeyedHistories` model the Firestore manager as collections that are set by key and listed in key
order, and prove when it cannot be told apart from the append-only one.

**The text helpers.** `Text` has the few regular-expression primitives; `BqSandbox`, `PatchSql`, `Governance`
and `StepIds` have the functions built from them. `SqlWords` and `AddedColumns` give the keyword patterns by the texts
they recognise, `DatasetTokens` and `NamedTables` the rewrite by tokens and by mentions of the table,
`SandboxRewrite`, `SandboxResidue` and `GeneratedDdl` its limits and its effect on generated statements.
`DemoLiveness` joins both halves: the offline demo scenarios always lead to something to approve. `UiGate` compares
the client's button with the server's checks.

## Assumptions

- Each store method is one atomic step: in memory no holder of the lock ever suspends. Snapshot and registration of a
  stream are one step for the same reason.
- Writing an audit and returning its verdict are one step; the incident budget can only run out where the run is
  suspended.
- Exactly one run is started per incident, at creation (`app/api/routes.py:45-70`), on an incident without documents;
  tools and orchestrator share one store (`app/persistence/factory.py:17-24`).
- Identifiers are arbitrary strings. No safety theorem needs them fresh or ordered; only `KeyedHistories` needs them
  issued in increasing order, and `KeyedCollections.ListingIsAppendOrder` shows that this is exactly what it needs.
- A step is identified by its number; the stored id is that number formatted (`app/persistence/base.py:22-24`).
- Texts are ASCII.

## Where code and documentation disagree

The model follows the code.

- The timeout of a single model turn is recorded on the incident as `incident_timeout_exceeded`, like the timeout of
  the whole incident (`app/agents/orchestrator.py:99-100` and `298-308`); the last log entry tells them apart
  (`TimeoutCauses.TimeoutIsTold`).
- The rewrite is described as pointing a statement at another dataset (`app/agents/bq_sandbox.py:113-118`). Its second
  pass can damage what the first wrote; `SandboxRewrite.RewriteCommutes` says exactly when.
- Ids are said to sort by creation time (`app/models/ids.py:3-5`). Ids drawn in one millisecond by two processes,
  or under a clock that steps back, need not; `KeyedCollections.LatestOfTwo` says what the keyed store
  then takes for the latest.
- The architecture notes call the executor's checks an unreachable backstop (`docs/architecture.md:685-688`). Of its
  checks on patch and audit that is true for every request that names no patch. A request may name a patch: then the
  BLOCK check is still unreachable, but a patch without an audit is refused (`IncidentWorld.AwaitingIsApprovable` has
  the exact condition, `Reachability.OlderPatchIsRefused` a run on which it happens).

Three things a reader would expect hold only under a condition, because the code has no state for an approval that is
running: SQL runs at most once unless approvals overlap (`IncidentWorld.AtMostOnceIff`), terminal states are final
unless an approval is still running (`IncidentWorld.TerminalAbsorbsIff`), and step numbers of decisions are unique
unless one was accepted while an approval was running (`DecisionNumbers.DistinctIff`).

## Model

| member | source | states |
|---|---|---|
| `LifecycleSafety.ApprovalSafety` | app/agents/orchestrator.py:104-215 | At every point of every run, for every script of model answers, tool arguments, faults and timeouts: an incident awaiting approval has a patch, an audit linked to its latest patch and no BLOCK audit at all; every audit was computed from the SQL of the patch it names; the executor's preflight on the latest patch succeeds exactly when the incident awaits approval, and no request, whatever patch it names, meets a BLOCK |
| `LifecycleSafety.ResumeInvariant` | app/agents/orchestrator.py:165-215 | One step of a run, from any suspension point and for any input, keeps status, error and audits in step with the program counter; in particular no BLOCK audit exists while the run goes on, unless the current turn is marked blocked, and an incident left awaiting approval has an audited latest patch and no BLOCK audit |
| `LifecycleSafety.FeedInvariant` | app/agents/orchestrator.py:92-102 | That invariant holds after any number of inputs: an ended run is AWAITING_APPROVAL, REJECTED or FAILED, and an error is recorded exactly when it is FAILED |
| `LifecycleSafety.CallToolWrites` | app/agents/orchestrator.py:340-428 | For every tool, argument and outcome: the incident record is untouched, exactly one result is logged under the given number, at most one patch or one audit is added, and the reply says BLOCK exactly when a BLOCK audit was added |
| `LifecycleSafety.GetPatchFirst` | app/persistence/in_memory.py:78-84 | The lookup finds nothing exactly when no patch has the id, and otherwise the earliest one that has it |
| `LifecycleSafety.AuditsForAreAudits` | app/agents/executor.py:86-95 | The audits considered for a patch are exactly those linked to it |
| `LifecycleSafety.ApprovablePreflight` | app/agents/executor.py:128-141 | What the orchestrator guarantees is enough for the executor: a request without a patch id passes every check, one with a patch id passes exactly when that patch has an audit, and none is blocked |
| `LifecycleSafety.FinishMatchesPreflight` | app/agents/orchestrator.py:115-127 | The orchestrator finishes with AWAITING_APPROVAL exactly when the executor, asked for the latest patch, would find nothing wrong with the same documents, with REJECTED exactly when it would find a BLOCK, with FAILED and an error otherwise |
| `LifecycleSafety.DispatchOwn` | app/agents/orchestrator.py:383-386 | Given an incident's own id, the dispatch changes that incident's documents only, as the tool alone would |
| `IncidentWorld.StepInvariant` | app/agents/executor.py:114-229 | Every event - a run resumed, an approval accepted, a backend answering, an undisturbed execution, a rejection - keeps the incident invariant, from every state that has it |
| `IncidentWorld.After` | app/agents/executor.py:114-229 | After any history of events on a fresh incident the incident invariant holds: documents grounded, log accepted, every statement sent to a backend sanctioned, executions counted |
| `ExecutedSql.ExecutedSqlSafety` | app/agents/executor.py:127-166 | In every history, overlapping approvals included, every statement ever handed to a backend is the production SQL of the earliest patch stored under the approved id; the last audit of that patch is not BLOCK and is the one made by one particular resumption from the labels read in it; so in cloud mode a statement that drops a column was run only if the dataset was not tagged as PII then |
| `ExecutedSql.AuditOrigin` | app/agents/tools/governance.py:265-289 | Every audit of every history was added by one resumption of the run and judges the SQL of the patch it names by the labels that resumption's services returned, or by benign ones offline |
| `HistoryRuns.HistoryCarriesRun` | app/agents/executor.py:103-141 | After every history the findings, patches and audits are those of the undisturbed run on its resumptions, the log is that run's log and what decisions appended, and until the run ends the two are one: what holds of every run holds in every history |
| `ApprovedPatch.PreflightSelects` | app/agents/executor.py:86-141 | A request is accepted exactly when the incident awaits approval and the patch it selects - the one named, else the latest; the earliest stored under that id - has a last audit that is not BLOCK; it gets that patch and that audit |
| `ApprovedPatch.RefusalReasons` | app/agents/executor.py:103-141 | Each refusal in terms of the documents: which status, which missing patch, which missing audit or which BLOCK it stands for, in the order they are checked |
| `ApprovedPatch.RequestedIsSent` | app/agents/executor.py:130-166 | From every state: an accepted request sends the SQL of the patch it selects and logs that patch with the id and verdict of its last audit; a refused one changes nothing |
| `ApprovedPatch.AnswerIsLogged` | app/agents/executor.py:163-201 | The backend's answer is logged for the patch that was sent, under the number it was given, and decides status and error |
| `ApprovedPatch.HistoryRunsWhatWasAsked` | app/agents/executor.py:130-166 | In every history: a request is accepted exactly when the incident awaits approval and, if it names a patch, an audit links to it; the approval it adds is of the named patch, or of the latest, with the SQL of the earliest patch under that id |
| `IncidentWorld.AwaitingIsApprovable` | app/agents/executor.py:86-141 | After every history and for every request: the preflight succeeds exactly when the incident awaits approval and, if a patch is named, that patch has an audit; its BLOCK check never fails |
| `IncidentWorld.RunIsHistory` | app/agents/orchestrator.py:165-215 | An undisturbed run is the history of its own resumptions, so every theorem about histories holds of it |
| `IncidentWorld.TerminalAbsorbsIff` | app/agents/executor.py:103-229 | After every history a terminal incident is left alone by every event if and only if no approval is running |
| `IncidentWorld.AtMostOnceIff` | app/agents/executor.py:128-201 | Accepted approvals are exactly the logged executions plus those in flight; once nothing is in flight, SQL ran more than once if and only if an approval was accepted while another one was running |
| `IncidentWorld.OverlapExecutesTwice` | app/agents/executor.py:128-166 | From every incident awaiting its first decision, two approvals that arrive before the backend answers run the statement twice: there is no claim state |
| `IncidentWorld.RejectionCanBeOvertaken` | app/agents/executor.py:204-229 | From every incident awaiting its first decision, a rejection that arrives while an approval is running is overtaken: the incident ends RESOLVED |
| `IncidentWorld.SerialHistories` | app/agents/executor.py:103-229 | With decisions that do not overlap: every status change follows INGESTED -> DIAGNOSING -> {AWAITING_APPROVAL, REJECTED, FAILED}, AWAITING_APPROVAL -> {RESOLVED, REJECTED, FAILED} (or INGESTED -> FAILED); terminal states absorb, log and all; decisions during a run and resumptions after it change nothing; PATCHING and EXECUTING are never entered; an error is recorded exactly for FAILED; executions logged equal statements sent and are at most one |
| `IncidentWorld.SerialStep` | app/agents/executor.py:103-229 | The one-step form of the same, from any state with the invariant |
| `IncidentWorld.DecisionNumbersAreFresh` | app/agents/executor.py:98-100 | When a human first decides, the length-derived step number exceeds every number in the log, and exceeds the run's next number by exactly the number of retries |
| `DecisionNumbers.DistinctIff` | app/agents/executor.py:143-163 | Once nothing is running, the entries of an incident's decisions and executions carry distinct numbers if and only if no decision was accepted while an approval was running |
| `DecisionNumbers.RejectionShares` | app/agents/executor.py:163-229 | From every incident awaiting its first decision, a rejection accepted while an approval runs gets the number the execution was given before |
| `DecisionNumbers.KeyedDraw` | app/agents/executor.py:98-100 | While an incident awaits approval, the number drawn from the keyed store's listing is the append-only one less the retries of the run |
| `DecisionNumbers.KeyedKeepsAllIff` | app/persistence/firestore.py:77-79 | Once nothing is running, the keyed store lists an entry for every decision and execution if and only if no decision was accepted while an approval was running |
| `DecisionNumbers.NothingLost` | app/persistence/firestore.py:77-79 | Writing a sequence by key keeps an entry for each of its last elements exactly when none of them repeats an earlier key |
| `DecisionNumbers.RunKeyed` | app/persistence/firestore.py:127-131 | The keyed store keeps exactly one entry for every number a run issued, for any number of steps |
| `SharedService.NonInterference` | app/persistence/in_memory.py:26-33 | After any interleaving of runs, decisions and stream operations on any number of incidents in one store, each incident - documents, suspended run, approvals and subscriber queues - is exactly as if only what concerns it had happened, and its documents are those of its own history |
| `SharedService.ResumeOnOwn` | app/agents/orchestrator.py:383-386 | On the shared documents, with tools that act on whatever incident their arguments name, a resumed run changes its own incident as it would alone and no other, because of the id the orchestrator passes |
| `SharedService.SuppliedIdIsIgnored` | app/agents/orchestrator.py:383-386 | A tool call whose arguments name another incident does exactly what the same call without that argument does, and leaves every other incident's documents alone |
| `SharedService.DispatchFollowsArgument` | app/agents/orchestrator.py:383-386 | Without that override a tool writes to the other incident: the dispatch follows the argument |
| `SharedService.SharedStreams` | app/persistence/in_memory.py:61-112 | In the shared service every registered subscriber, after anything that happens to any incident, has been given or is owed exactly its incident's log |
| `RunLog.FeedLogged` | app/agents/orchestrator.py:217-428 | The log of every run, finished, failing or cut short, is accepted by the log grammar, and ends between turns unless the run ended by an exception or a timeout |
| `RunLog.FeedCounted` | app/agents/orchestrator.py:165-215 | Transcript, log and counter agree at every point: after t tool turns the transcript has 1 + 2t parts with one response per call in order; OK model turns never exceed the budget; turn_count <= OK turns <= turn_count + 1, with equality when the run ended on its own |
| `RunLog.NextStepNumber` | app/agents/orchestrator.py:171-200 | A run that ended on its own has log length turns + 2 * calls + retries, its next step number is 1 + turns + 2 * calls, and the calls are bounded by the budgets |
| `RunLog.StepNumbersSortAsStrings` | app/persistence/base.py:22-24 | With T turns of at most c calls and T * (1 + 2c) + 2 <= 9999, all step numbers of a run and of the decision after it sort as strings in numeric order |
| `StepLogGrammar.LogLength` | app/agents/orchestrator.py:273-364 | An accepted log has one entry per turn, two per tool call (one if it is still open) and one per retry, and determines the next number |
| `StepLogGrammar.IdsDense` | app/agents/orchestrator.py:171-171 | The numbers in an accepted log are exactly 1 up to the last one issued |
| `StepLogGrammar.IdsOrdered` | app/agents/orchestrator.py:273-286 | Numbers never decrease along the log, and two entries share one only when the earlier is a failed attempt of the same model turn |
| `StepLogGrammar.Neighbours` | app/agents/orchestrator.py:277-428 | A tool call is followed at once by its own result with the next number and the same tool; failed attempts count up from 1 and are followed by an attempt of the same turn; nothing of a run follows a decision |
| `DestructiveTrail.DestructiveNeedsPermission` | app/agents/tools/patch.py:314-331 | At every point of every run, whatever generated it: a stored patch whose statement drops a table, drops a column or truncates a table was either withheld (marked failed, never rewritten for the sandbox), or the log holds a patch call with a truthy permission |
| `AuditTrail.DestructionIsDeliberate` | app/agents/tools/patch.py:314-331 | In every history such a statement is run only if a logged patch call permitted it, or its patch was withheld and, where no other patch shares its id, a logged governance call names it |
| `AuditTrail.AuditsAreAskedForOrDue` | app/agents/orchestrator.py:129-157 | At every point of every run, every audit was asked for by a logged governance call that names its patch, except the last one, when an automatic audit was due; so a latest patch that failed the sandbox awaits approval only if the model asked for its audit |
| `AuditTrail.RefusedRunsOnlyIfAsked` | app/agents/orchestrator.py:137-157 | In every history, if every patch stored under an id failed the sandbox, its SQL is run only if a logged governance call names it |
| `DestructiveTrail.PatchCallWithholds` | app/agents/tools/patch.py:316-331 | One call of the patch tool, whatever its arguments and outcome, adds at most one patch; one that drops a table or column or truncates a table is withheld unless this very call carries a truthy permission |
| `DestructiveTrail.SuppliedTargetIsIgnored` | app/agents/tools/patch.py:299-302 | A patch call that names another resource does exactly what the same call with any other name does |
| `DemoLiveness.DemoPatch` | app/agents/tools/patch.py:267-352 | On a demo incident the patch tool, whatever the model passes it and in either mode, adds one patch holding the preset statement; offline it is SANDBOX_PASS and the schema difference is exactly the column it adds |
| `DemoLiveness.DemoSandboxSql` | app/agents/tools/patch.py:176-194 | The sandbox statement stored with it is the preset statement for the sandbox table if and only if the names do not collide under the second rewriting pass (or the dataset is the sandbox) |
| `DemoLiveness.DemoAudit` | app/agents/tools/governance.py:243-289 | No audit of a demo incident is BLOCK, for any metadata, in either mode |
| `DemoLiveness.FeedDemo` | app/agents/orchestrator.py:165-215 | No demo run is ever blocked or rejected, for any script, any metadata and either mode |
| `DemoLiveness.DemoReachesApproval` | app/agents/orchestrator.py:129-188 | Offline, a demo run in which one patch call completed and the model later answers without calls ends in AWAITING_APPROVAL, whatever else it did, through the automatic audit if there is none yet |
| `DemoLiveness.ShortScriptApproves` | app/agents/orchestrator.py:165-215 | Stated on the script alone: start, one patch call, the tool, an answer, the audit - after these five inputs the incident awaits approval and the executor's preflight passes |
| `Reachability.AwaitingIsReached` | app/agents/orchestrator.py:165-215 | That run is a history: approval is reached with no decision made yet |
| `Reachability.ExampleHistories` | app/agents/orchestrator.py:165-215 | A concrete incident and two concrete scripts: one that awaits approval, one on which a request for an older patch is refused |
| `Reachability.OlderPatchIsRefused` | app/agents/executor.py:130-141 | A demo run that makes two patches awaits approval with the first one unaudited; a request for the latest passes, one for the first is refused for want of an audit |
| `Reachability.OverlapHappens` | app/agents/executor.py:128-166 | A history in which one statement is executed twice |
| `Reachability.RejectionIsOvertaken` | app/agents/executor.py:204-229 | A history in which an incident is REJECTED and then RESOLVED, decision and execution under one number |
| `TimeoutCauses.TimeoutIsTold` | app/agents/orchestrator.py:92-102 | At every point of every run: the log ends in a timed-out model turn exactly when a turn timed out, and the incident carries `incident_timeout_exceeded` exactly when a turn timed out or the run was cut short |
| `OrchestratorLoop.WardenOrchestrator.RunIncident` | app/agents/orchestrator.py:92-102 | `run` always returns; the store afterwards is the protocol machine's finished run on this incident's documents and unchanged everywhere else; a fresh incident is left in AWAITING_APPROVAL, REJECTED or FAILED with an error exactly for FAILED; an unknown incident changes nothing |
| `OrchestratorLoop.WardenOrchestrator.RunLoop` | app/agents/orchestrator.py:165-215 | The turn loop consumes inputs exactly as the machine does until it is done, or unwinds with the state the machine fails in |
| `OrchestratorLoop.WardenOrchestrator.OneTurn` | app/agents/orchestrator.py:174-208 | One iteration: either the run is over as the machine says, or the machine stands at the start of the next turn with the same transcript and step number |
| `OrchestratorLoop.WardenOrchestrator.CallTools` | app/agents/orchestrator.py:190-198 | The calls of a turn are answered in order, two step numbers each, and `blocked` is what the machine computes |
| `OrchestratorLoop.WardenOrchestrator.CallWithRetry` | app/agents/retry.py:37-71 | Every input before the deciding one was a retryable fault below the attempt bound; before each retry a failed attempt is logged under the turn's number; a retryable fault is given up on only at the bound |
| `OrchestratorLoop.WardenOrchestrator.CallModelTurn` | app/agents/orchestrator.py:266-338 | After the final entry of a turn, the machine has answered, or failed with the error the caller records |
| `OrchestratorLoop.WardenOrchestrator.CallOneTool` | app/agents/orchestrator.py:340-428 | From the logged call to the logged result, every path including unknown tools and cancellation, is the machine's step |
| `OrchestratorLoop.WardenOrchestrator.CallToolOnce` | app/agents/orchestrator.py:366-428 | The imperative dispatch over the shared store equals the specified effect on this incident and touches no other |
| `OrchestratorLoop.WardenOrchestrator.EnsureGovernanceIfNeeded` | app/agents/orchestrator.py:129-157 | Nothing happens unless the latest patch passed the sandbox or dry run, no audit links to it and the resource is a table; then exactly one audit is attempted, and a failing one leaves the documents alone; either way the machine stands where the method ends |
| `OrchestratorLoop.WardenOrchestrator.ValidatedFinishStatus` | app/agents/orchestrator.py:104-127 | The status is AWAITING_APPROVAL exactly when the executor's preflight for the latest patch would pass on these documents, REJECTED exactly when it would be blocked; an error comes with FAILED and only with it |
| `OrchestratorLoop.WardenOrchestrator.FinishRun` | app/agents/orchestrator.py:180-188 | Writes status, summary, turn count and error of a finished run in one update |
| `OrchestratorLoop.WardenOrchestrator.FailRun` | app/agents/orchestrator.py:159-163 | Marks the incident FAILED with the error; an unknown incident is ignored |
| `RunEndings.AnswerWithoutCalls` | app/agents/orchestrator.py:104-189 | From every point of a run, an answer without calls leads to the automatic audit exactly when the latest patch passed the sandbox or dry run, is unaudited and the resource is a table; otherwise to the end its documents decide, with status, summary, turn and error; an unaudited latest patch that failed the sandbox fails the incident |
| `RunEndings.AutomaticAudit` | app/agents/orchestrator.py:129-188 | An automatic audit that completes audits the latest patch's id and decides the end by its verdict; one that fails leaves the incident FAILED for want of an audit; one cut short is a timeout |
| `RunEndings.RejectedIff` | app/agents/orchestrator.py:190-215 | A run that ends on its own rejects the incident if and only if it made a BLOCK audit, and one that runs out of turns records that with the whole budget counted |
| `RunSteps.BudgetEndsRun` | app/agents/orchestrator.py:92-102 | The incident budget ends a run exactly at the points where it is suspended, and writes nothing but the failure |
| `RunSteps.RunStarts` | app/agents/orchestrator.py:165-174 | A fresh run marks its incident DIAGNOSING and opens the transcript with it at turn 1, step 1 |
| `RunSteps.UnansweredTurn` | app/agents/orchestrator.py:277-320 | A turn that is not answered: timeout, exhausted or fatal fault, or one more logged attempt of the same turn |
| `RunSteps.CallsBegin` | app/agents/orchestrator.py:322-363 | A turn answered with calls logs the turn and the first call with all its arguments under the next two numbers |
| `RunSteps.ToolAnswered` | app/agents/orchestrator.py:190-215 | A reply goes to the model under the name it was called by; after the last call the turn's replies join the transcript, and the run is rejected if one was a BLOCK, goes on if a turn is left, or fails |
| `Tools.InvestigateIncidentLogs` | app/agents/tools/investigate.py:319-372 | Appends one finding to this incident, or none when the triage times out; an unknown incident raises and changes nothing |
| `Tools.GenerateAndTestPatch` | app/agents/tools/patch.py:267-352 | Equals the specified patch tool on this incident's documents and changes no other; a reply with a patch means exactly one patch was added, with the statement of the preset, the generator or the heuristic, rejected or validated as the statement and the permission demand; an unknown incident raises and changes nothing |
| `Tools.VerifyGovernancePolicy` | app/agents/tools/governance.py:243-289 | Equals the specified audit tool and changes no other incident; a returned reply means one audit was added, of the earliest patch with the id, judged by the labels the services returned in cloud mode and benign ones offline; an unknown incident or patch raises and changes nothing |
| `Tools.Invoke` | app/agents/orchestrator.py:383-386 | The imperative dispatch equals the specified one: a tool acts on the incident its `incident_id` argument names; a call that does not bind, or names no incident, raises before any effect |
| `ToolResults.RebuffedCalls` | app/agents/orchestrator.py:340-414 | The calls that write nothing but their result entry, with its status, text and reply: to a name that is no tool, with missing or unknown arguments, and those that raise or run out of time |
| `ToolResults.TriageCall` | app/agents/tools/investigate.py:319-372 | A completed triage call adds its finding and replies with its id; when the triage itself timed out it adds nothing and is logged as an ordinary answer |
| `ToolResults.PatchCall` | app/agents/tools/patch.py:267-366 | A completed patch call, for every scenario, mode and argument: invalid resource, failing generator, unusable finding id, or exactly one new patch and a reply with its id and status |
| `ToolResults.GeneratePatchIs` | app/agents/tools/patch.py:302-352 | What that patch is: preset, generated or heuristic statement; rejected exactly when it destroys without a truthy permission, else with the services' validation in cloud mode, and offline rewritten for the incident's sandbox with the added columns read off it |
| `ToolResults.GovernanceCall` | app/agents/tools/governance.py:243-300 | A completed governance call: without a stored patch under the id it raises, otherwise it adds exactly one audit of the earliest such patch and replies with its id and verdict |
| `ToolResults.VerifyIs` | app/agents/tools/governance.py:265-289 | The audit made, in cloud mode from the labels the services returned, offline from benign ones; the automatic audit is the same |
| `PolicyRules.RulesJudge` | app/agents/tools/governance.py:140-240 | For every statement, kind and labels: each of the four checks flags exactly what its rule is about, in terms of the words the statement says; BLOCK is a column drop on PII-tagged data alone, PASS is the absence of every flag |
| `ExecutorSteps.ExecuteIncident` | app/agents/executor.py:114-201 | A refused request neither writes nor runs anything and names the failed check; an accepted one runs, once, the SQL of the patch it selects, and leaves the approval entry with that patch and its last audit, the execution entry, and the final status and error; either way the store is as one event of the protocol leaves it, so every theorem about histories applies |
| `ExecutorSteps.CheckApproval` | app/agents/executor.py:128-141 | The checks in order, each with its own refusal; success exactly for a request that is accepted, with the id asked for (or the latest patch's), the earliest patch under it and its last audit |
| `ExecutorSteps.RecordOutcome` | app/agents/executor.py:165-201 | Both branches after the backend: entry and status for success, entry, status and error for failure |
| `ExecutorSteps.RejectIncident` | app/agents/executor.py:204-229 | Succeeds exactly when the incident awaits approval, logs one decision with the reason or the default text under the next number, and rejects; otherwise nothing changes; either way it is one event of the protocol |
| `StepStreams.ExactlyOnce` | app/persistence/in_memory.py:91-112 | For any log at subscription and any interleaving of appends, takes and closes: what a subscriber got followed by what it is owed is the whole log while the stream is open, and exactly the log at the first close after its subscription from then on; a stream that ended delivered all of it |
| `StepStreams.StreamFaithful` | app/persistence/in_memory.py:61-66 | The invariant behind it, kept by every event |
| `InMemoryStore.InMemoryStateManager.CreateIncident` | app/persistence/in_memory.py:35-37 | Sets the record and keeps any documents already there; queues untouched |
| `InMemoryStore.InMemoryStateManager.UpdateIncident` | app/persistence/in_memory.py:39-45 | Merges the given fields into this record only, or reports an unknown incident and changes nothing |
| `InMemoryStore.InMemoryStateManager.GetIncident` | app/persistence/in_memory.py:47-49 | The record, or not found exactly when absent |
| `InMemoryStore.InMemoryStateManager.AppendStep` | app/persistence/in_memory.py:61-66 | Appends to this incident's log and offers the step to each of its subscribers once; all other logs and queues unchanged; every subscriber stays owed exactly its log |
| `InMemoryStore.InMemoryStateManager.WriteFinding` | app/persistence/in_memory.py:68-71 | Appends one finding to this incident, or reports it unknown |
| `InMemoryStore.InMemoryStateManager.WritePatch` | app/persistence/in_memory.py:73-76 | Appends one patch to this incident, or reports it unknown |
| `InMemoryStore.InMemoryStateManager.WriteAudit` | app/persistence/in_memory.py:86-89 | Appends one audit to this incident, or reports it unknown |
| `InMemoryStore.InMemoryStateManager.GetPatchById` | app/persistence/in_memory.py:78-84 | The scanning loop returns the earliest patch with the id, or the right error |
| `InMemoryStore.InMemoryStateManager.Subscribe` | app/persistence/in_memory.py:91-97 | Snapshot and registration as one step: the new queue replays the whole log and is registered last |
| `InMemoryStore.InMemoryStateManager.Next` | app/persistence/in_memory.py:98-106 | Delivers the next step, waits on an empty queue, or ends at the sentinel and unregisters |
| `InMemoryStore.InMemoryStateManager.Abandon` | app/persistence/in_memory.py:104-106 | An abandoned stream is unregistered and nothing else changes |
| `InMemoryStore.InMemoryStateManager.CloseStream` | app/persistence/in_memory.py:108-112 | One sentinel to every subscriber of this incident, none to others |
| `InMemoryStore.InMemoryStateManager.ListIncidents` | app/persistence/in_memory.py:51-59 | The first `limit` of the incidents, each once, by descending id |
| `KeyedCollections.PutKeepsSorted` | app/persistence/firestore.py:77-99 | Setting a document keeps the listing sorted, holds the new document and every document under another key, and no second one under this key |
| `KeyedCollections.FindAfterPut` | app/persistence/firestore.py:89-94 | A read after a write sees it under its own key and the previous state under every other |
| `KeyedCollections.ListingIsAppendOrder` | app/persistence/firestore.py:105-125 | A listing sorted by key equals the order of writing if and only if the keys were issued in strictly increasing order |
| `KeyedCollections.LatestOfTwo` | app/persistence/firestore.py:105-125 | Of two documents the later is listed last exactly when its key is the greater one |
| `KeyedCollections.FindIsLastWrite` | app/persistence/firestore.py:89-94 | After any history of writes a read returns the last one under that key, and nothing exactly when there was none |
| `KeyedStore.FirestoreStateManager.CreateIncident` | app/persistence/firestore.py:45-46 | Sets one record; every other incident the store represents is still represented |
| `KeyedStore.FirestoreStateManager.UpdateIncident` | app/persistence/firestore.py:48-51 | Merges fields into this record, failing exactly when it is absent; represents the updated incident afterwards |
| `KeyedStore.FirestoreStateManager.GetIncident` | app/persistence/firestore.py:53-57 | The record of a represented incident, not found when absent |
| `KeyedStore.FirestoreStateManager.AppendStep` | app/persistence/firestore.py:77-79 | Sets the step under its formatted number; a store representing an incident represents it with the step appended, others unchanged |
| `KeyedStore.FirestoreStateManager.WriteFinding` | app/persistence/firestore.py:81-83 | As AppendStep, for findings under their id |
| `KeyedStore.FirestoreStateManager.WritePatch` | app/persistence/firestore.py:85-87 | As AppendStep, for patches under their id |
| `KeyedStore.FirestoreStateManager.WriteAudit` | app/persistence/firestore.py:96-98 | As AppendStep, for audits under their id |
| `KeyedStore.FirestoreStateManager.GetPatchById` | app/persistence/firestore.py:89-94 | The last patch written under the id, or not found exactly when there is none; under ids issued in order, the answer the append-only store gives |
| `KeyedStore.FirestoreStateManager.ListIncidents` | app/persistence/firestore.py:59-75 | Ascending listing, reversed, cut to `limit`: the first `limit` incidents by descending id, as the in-memory manager lists them |
| `KeyedStore.FirestoreStateManager.ListingsAgree` | app/persistence/firestore.py:105-131 | Findings, patches, audits and steps are listed as the append-only store lists them exactly when their ids are in increasing order |
| `KeyedStore.DescendingListingIsUnique` | app/persistence/firestore.py:59-75 | Two newest-first listings of the same incidents are equal, so both managers return the same slice for every limit |
| `KeyedStore.LookupsAgree` | app/persistence/firestore.py:89-94 | Under ids in order, last-write-wins by key and first-match by scan find the same patch |
| `KeyedStore.StepListing` | app/persistence/firestore.py:127-131 | The keyed listing of any log a run leaves (up to 9999 steps) is the last entry per id, numbered 1, 2, 3, ... without a gap |
| `KeyedHistories.StepGrows` | app/persistence/in_memory.py:68-89 | Any event adds at most one finding, patch and audit, each under an id drawn in that step |
| `KeyedHistories.HistoryInOrder` | app/models/ids.py:13-14 | In any history whose ids are issued in increasing order the three document lists are in increasing order |
| `KeyedHistories.KeyedStoreRefines` | app/persistence/firestore.py:89-125 | In every such history the keyed store lists the same findings, patches and audits in the same order and finds the same patch under every id, so every check the orchestrator and the executor make comes out the same over either store |
| `KeyedHistories.KeyedRunSteps` | app/persistence/firestore.py:127-131 | For a run that ended on its own within four-digit budgets: the keyed listing is numbered 1..n with retries replaced by their final entry, a decision that counts it takes exactly n + 1 and n + 2, listed last; over the append-only store it skips one number per retry |
| `StepIds.StepIdValue` | app/persistence/base.py:22-24 | The number can be read back from the formatted id |
| `StepIds.StepIdInjective` | app/persistence/base.py:22-24 | Formatted ids are equal exactly for equal numbers |
| `StepIds.StepIdOrder` | app/persistence/base.py:22-24 | Formatted ids up to a bound sort numerically if and only if the bound is at most 9999 |
| `StepIds.StepIdOverflow` | app/persistence/base.py:22-24 | The concrete failure beyond it: 10000 sorts before 9999 |
| `BqSandbox.ParsePrint` | app/agents/bq_sandbox.py:59-79 | A URI parses to a table reference exactly when it is that reference printed: parsing and printing are mutually inverse and the decomposition is unique |
| `BqSandbox.PostgresIsTold` | app/agents/bq_sandbox.py:59-79 | A `postgres://` URI, and only that, is refused as unsupported rather than malformed |
| `BqSandbox.BindIdempotent` | app/agents/bq_sandbox.py:82-100 | Rebinding is idempotent for every configured project string, changes nothing without one or on an unparsable URI, and otherwise replaces the project alone |
| `BqSandbox.SandboxNameIs` | app/agents/bq_sandbox.py:103-106 | A sandbox name is the prefix and the id lower-cased, other characters replaced by underscores; for a ULID it is the prefix and the lower-cased id |
| `BqSandbox.SandboxDatasetsDistinct` | app/agents/bq_sandbox.py:103-106 | Sandbox names consist of word characters, and distinct ULIDs get distinct sandboxes |
| `DatasetTokens.RewriteIs` | app/agents/bq_sandbox.py:113-128 | The rewrite on every statement: cut at its dots, the dataset of every full name, then of every bare name that does not continue a word or a qualified name, is replaced, and nothing else |
| `NamedTables.RewriteEveryMention` | app/agents/bq_sandbox.py:113-128 | A statement that names the table any number of times: every full name moves to the sandbox, and every bare `dataset.table` unless a word character or a dot stands in front of it; all other text stays |
| `NamedTables.RewriteBareName` | app/agents/bq_sandbox.py:124-128 | One bare name among dot-free text is rewritten if and only if neither a word character nor a dot stands in front of it |
| `SandboxRewrite.RewriteCommutes` | app/agents/bq_sandbox.py:113-128 | Rewriting a statement around one qualified name gives the statement for the sandbox table if and only if the second pass does not find `dataset.table` across the first dot (or the dataset is the sandbox already) |
| `SandboxRewrite.RewriteOfGeneratedDdl` | app/agents/tools/patch.py:380-392 | The same, exactly, for both generated statement shapes and any dot-free column |
| `SandboxRewrite.CollisionExample` | app/agents/bq_sandbox.py:124-128 | A concrete table on which the second pass damages the output of the first |
| `SandboxResidue.NoResidualSourceName` | app/agents/bq_sandbox.py:119-123 | The qualified pass removes the source table's full name from every statement in which its occurrences are delimited (at the end of the text or before a character foreign to the project name) if and only if the names are separated: the datasets differ, the table name does not end in the project name, and the names do not run into each other from a rewritten name's second dot on or up to its first |
| `SandboxResidue.SurvivorSurvives` | app/agents/bq_sandbox.py:119-123 | For names that are not separated, a delimited statement, given outright, in which the name survives |
| `GeneratedDdl.GeneratedDdlIsHarmless` | app/agents/tools/patch.py:380-392 | Both generated statements pass the destructive gate and are never blocked, for any metadata |
| `GeneratedDdl.AddedColumnsOfGeneratedDdl` | app/agents/bq_sandbox.py:131-140 | Reading the columns back from a generated statement gives exactly the generated column, and none for clustering |
| `AddedColumns.ParseReadsEveryClause` | app/agents/bq_sandbox.py:38-41 | Every ADD COLUMN clause of a statement - any case and spacing, guarded or not, with or without backticks - is read back in order with its name and its type in capitals, and nothing else is |
| `SqlWords.DestructiveIff` | app/agents/bq_sandbox.py:34-36 | The destructive gate holds of exactly the texts that contain, in any case, `drop table`, `drop column` or `truncate table` with white space between the words and no word character touching either end |
| `SqlWords.DropsColumnIff` | app/agents/tools/governance.py:145-145 | Governance sees a column drop in exactly the texts that contain `drop`, white space, `column`, in any case and with anything around them |
| `SqlWords.WhereIff` | app/agents/tools/governance.py:187-187 | A WHERE clause is seen in exactly the texts that contain the whole word |
| `SqlWords.PiiNamesIff` | app/agents/tools/governance.py:36-44 | A name is reported exactly when it is, lower-cased, a whole word of the text that begins with one of the eleven stems |
| `SqlWords.CharacterClasses` | app/agents/bq_sandbox.py:34-41 | Word characters, white space and letter case by code point |
| `PatchSql.LocalGeneratorIs` | app/agents/tools/patch.py:83-120 | The offline generator clusters by the first column the summary suggests clustering on; else it adds the first backticked name as a STRING column; else the placeholder column; statement texts in full |
| `PatchSql.FindHintIs` | app/agents/tools/patch.py:44-51 | The hint search finds the leftmost backticked identifier behind the given words, and nothing exactly when there is none |
| `PatchSql.PresetIs` | app/agents/tools/patch.py:369-397 | The two demo scenarios, and only they, get their preset statement, with the named column or its default; statement texts in full |
| `PatchSql.LocalGeneratorShape` | app/agents/tools/patch.py:83-120 | Whatever the drift summary says, the offline generator emits one of the two statement shapes on the target table with an identifier for a column |
| `PatchSql.HintIsIdentifier` | app/agents/tools/patch.py:44-51 | A column hint found in a summary is always a non-empty identifier that does not start with a digit |
| `Governance.PiiScanIsExact` | app/agents/tools/governance.py:36-44 | The scan returns, strictly sorted and lower-cased, exactly the whole words that begin with a taxonomy keyword |
| `Governance.EvaluatePolicyChecks` | app/agents/tools/governance.py:140-232 | The appended checks, in order, are the four specified ones |
| `Governance.VerdictIsMaximum` | app/agents/tools/governance.py:235-240 | The verdict is the greatest severity among the checks, reached by one of them, and independent of their order and repetition |
| `Governance.BlockIff` | app/agents/tools/governance.py:140-153 | There are always four checks, and they amount to BLOCK exactly for a column drop on PII-tagged data |
| `Governance.GateDropsAreSeen` | app/agents/bq_sandbox.py:34-36 | Every column drop the destructive gate recognises is recognised by governance |
| `UiGate.GateIsPreflight` | ui/formatting.py:85-114 | After every history the button is enabled exactly when the server's preflight for the latest patch would succeed, although one looks at the last audit of all and the other at the last audit of the latest patch |
| `UiGate.GateDiffersOffRuns` | ui/formatting.py:97-114 | Off the reachable states they differ: a concrete document set where the button is enabled and the server refuses with a governance block |
| `UiGate.StatusPartition` | ui/formatting.py:75-94 | Each status is exactly one of in flight, decidable and terminal |
| `UiGate.InFlightIsRunning` | ui/formatting.py:75-78 | After every history an incident is shown as in flight exactly while its run goes on |
| `UiGate.IncidentStatusCounts` | ui/formatting.py:148-154 | The tally has exactly the statuses that occur, each with its number of incidents |

## Left out

- Gemini, Gemma, BigQuery, Cloud Run, Cloud Logging and Firestore as services: their answers are inputs, Firestore is a keyed store.
- GeminiPatchGenerator, BigQuerySandboxExecutor and BigQueryMetadataProvider: arbitrary generated SQL, validation results and metadata.
- Firestore operations that are not atomic, and writes cancelled midway: only whole operations are modelled.
- FirestoreStateManager.stream_steps: it replays the step listing once, which is `ListSteps`; the push updates of the UI are not modelled.
- AtMostOnceIff: at most one execution is not claimed for overlapping approvals, because the code has no claim state; the exact condition is proved instead.
- NoResidualSourceName: speaks of the first of the two passes, and of statements whose occurrences of the name are delimited; what both passes do to any other statement is `RewriteIs`.
- KeyedRunSteps: runs cut short are covered by `StepListing` only, since no decision can follow them.
- DemoReachesApproval: offline only, because in cloud mode the sandbox may fail a preset statement; names must be free of white space and columns must consist of word characters, since other names can make the generated text unreadable for the column reader.
- RewriteEveryMention: full names need a sandbox of word characters that the table name does not begin, and must not run together with a bare name in front; `RewriteIs` covers every statement.
- ParseReadsEveryClause: speaks of statements whose other text never spells `add`, and of bare columns not called `if`.
- NonInterference: creation is not an action; an incident created while others run is one on which nothing has happened yet.
- That an approved or executed patch passed the sandbox: the code consults the validation result only for the automatic audit.
- Non-ASCII word and space classes, case folding beyond ASCII, and backslashes in the replacement text of `re.sub`.
- The wording of exceptions and of log entries about unknown tools: an entry says which case it is.
- The text of prompts, summaries, hypotheses, rationales, log Markdown and result references; timestamps, latencies, row counts and schema hashes.
- Pydantic validation beyond the string check on `finding_id`; the contents of a finding beyond its id and hypothesis.
- A negative turn budget: `warden_max_turns` and the attempt bound are natural numbers.
- The HTTP routes, the pipeline health check, the Streamlit views and the deployment scripts: plumbing around the operations above.
