# ContraGate: verified model of the approval core

ContraGate intercepts a database tool call, analyses it, waits for a human decision and only then executes it. This
project models the parts of it on which that promise rests, and proves properties over every run and every input.

| files | what they model |
|---|---|
| `Handoff`, `Manifest` | contract fields, decisions and their merge; how the proxy seals a manifest and how INTAKE and EXECUTION read it |
| `Protocol`, `ProtocolProofs`, `ProtocolProgress` | the approval protocol as a step system, its inductive invariant, safety, finality, termination |
| `RiskGate` | the gate's policy question and preliminary score, the default rules, and which operations leave the pipeline here |
| `WorkflowStore`, `Pipeline` | the store, its records and the contract objects shared with the pipeline, as heap objects; the background pipeline with its loops and suspension points, proved to be a run of the step system for every schedule |
| `StatusStream` | any number of SSE streams against any number of status writers |
| `CascadeTracer`, `CascadeSearch`, `CascadeTheorems` | the depth-bounded foreign-key search, and what its answer means in the graph |
| `StableSort`, `Retrieval`, `Risk`, `Reversibility`, `Analyzer`, `Policy`, `Confidence` | precedent ranking, deterministic risk tier, reversibility, the analysis under tool failures, policy fold, confidence feedback |
| `Sandbox`, `KeyComparison`, `Persistence` | the simulation session protocol, the byte-wise key comparison, persist and reload |

## How the protocol is modelled

No lock body of the store suspends, so a step is the code between two suspension points. A `Sys` holds both contracts (the
proxy's and the pipeline's), which of them the record refers to, the clock and the place of the pipeline; an `Event` is one
step of the pipeline or one decision post; a run is any sequence of enabled events. `Pipelines.PipelineTask` is the same
pipeline written as the source writes it, over mutable contracts, records and the store. At each suspension point an arbitrary
`Arrival` says which decisions were posted, how much time passed, what display status others left, and whether the awaited call
raised. Its methods carry the invariant that the heap stands for a reachable `Sys`, so every theorem about runs is a
theorem about it; `Pipelines.HandleToolCall` puts the pieces together from the intercepted call to the end.

## Properties that do not hold, and exactly when they do

* *A recorded terminal decision is final.* It is overwritten by TIMED_OUT if, and only if, the poll loop's first test comes
  after the deadline (`VerdictIsFinalUnlessFirstTestIsLate`; `LateFirstTestLosesTheDecision` gives such a run for every timeout
  length and every decision).
* *Every accepted MODIFY is analysed again.* It is, exactly once, unless it is lost in that same way
  (`EveryModifyIsReanalysedUnlessLost`).
* *A stream emits a terminal status before it closes.* The test after the first yield reads the live record, not the value
  sent: a stream that subscribed to a running record closes without one if, and only if, a write between its subscription and
  its first step left the record terminal (`ClosesWithTerminalUnlessMissed`, `AStreamCanMissTheEnd`).
* *A stream emits the record's final status.* It does if, and only if, it was greeted with that status, or it had taken its
  first step when the record settled and no other terminal status was announced to it before (`TerminalStatusIsDelivered`).
  An ordinary approval announces APPROVED and then COMPLETED, which is not emitted, neither to a stream that was listening
  (`ApprovedHidesCompleted`) nor to one that connects in between (`GreetedWithApprovedMissesCompleted`).
* *An approved workflow that finishes has executed.* Only if RISK_GATE sent it to ANALYSIS
  (`ApprovedAndDoneMeansExecutedIffAnalysed`); decisions are also accepted for a run that the gate diverts to AUDIT
  (`DivertedApprovalIsNotExecuted`).
* *A riskier operation never scores lower.* It does exactly when it goes from PARTIAL to PERMANENT, its other factors add less
  than 0.10, and they stay below 1.00 (`ScoreDropsExactly`, `RiskierCanScoreLower`); the tier is monotone all the same
  (`TierIsMonotone`).
* *The analysis fails closed when a tool fails.* A failed row count or soft-delete lookup forces FULL_CONTRACT; a failed trigger or
  cascade lookup is taken for an empty answer and, without one of the other two, lowers the tier of some operation
  (`FailsClosedExactly`, `OpenPatternLowersTier`).
* *With the default rules a DROP is rejected automatically.* The rule matches exactly the words DROP and TRUNCATE; the gate
  asks about DDL, so it never sees a hard violation (`DefaultPolicyExactly`, `DefaultGateExactly`). The DROP is analysed and
  reviewed like any other operation.
* *A rejected precedent forces FULL_CONTRACT.* Not when the retrieval fails, which is taken for an empty history, unless the
  operation is FULL_CONTRACT anyway (`RejectedForcesFullContractUnlessLost`, `LostRejectionLowersTier`).
* *Everything persisted reloads.* A row is skipped if, and only if, it holds an approval or rejection whose reason is 1 to 9
  characters long (`StoredVerdictLoadsExactly`, `RestartRestoresTheLastWrite`, `ShortReasonIsLost`). No caller in the repository
  sends such a reason: the decision endpoint, the Slack modal (proxy/webhook_handler.py:209) and the notifier
  (mcp_servers/notifier/server.py:184) all demand ten characters, and then no record is lost (`RestartKeepsTheRecord`).

## Where code and comments differ

The model follows the code. `guards.py` lists an EXPLAIN cost limit among the fast-path conditions and does not check it
(`DefaultGateExactly`). A policy store that does not answer is taken for one that objects to nothing (`RunRiskGate`). An
empty configured API key admits everyone. A simulation that failed for another reason than a timeout is still reported as a
timeout after the retry loop, as unavailable "after 2 attempts" although there was one.

## Model

| member | source | states |
|---|---|---|
| `Manifests.ProxyManifestBindsTheCall` | proxy/main.py:126-132 | the manifest the proxy stores passes the hash guard, holds exactly nine keys with the intercepted values and the id, and INTAKE and EXECUTION read back exactly the intercepted SQL, tool and URL |
| `Manifests.ExecutionSendsTheAnalysedSql` | orchestrator/states/execution.py:82-92 | whatever a manifest holds, EXECUTION sends the SQL that INTAKE put under analysis, with the default tool and URL when none is named |
| `Manifests.IntakeTakesTheFirstSql` | orchestrator/states/intake.py:80-86 | INTAKE takes the first of `sql`, `query`, `statement` that is not empty, and refuses exactly when that one is blank or there is none |
| `Manifests.GuardDetectsEveryAlteration` | orchestrator/states/execution.py:63-80 | with an injective hash, the guard accepts a manifest carrying a given seal if and only if it is the sealed one |
| `ProtocolProofs.PostKeepsInv` | orchestrator/workflow_store.py:363-391 | a decision post, at any moment, keeps the invariant linking both contracts, the record, the phase, the decisions and the calls |
| `ProtocolProofs.EnterKeepsInv` | orchestrator/states/human_review.py:94-139 | MODIFY re-entry, honouring a pre-recorded decision and ordinary entry keep it |
| `ProtocolProofs.PollKeepsInv` | orchestrator/states/human_review.py:147-173 | a poll (record gone, decided, or deadline passed) keeps it |
| `ProtocolProofs.RoutingKeepsInv` | orchestrator/graph.py:153-179 | the routes out of RISK_GATE and HUMAN_REVIEW keep it |
| `ProtocolProofs.OnlyHarmlessReadsSkipAnalysis` | orchestrator/guards.py:22-54 | over whole runs, by the fields of the gate's outcome: a run is not analysed if and only if there was a hard violation, or a SELECT without violations, required tier or a score of 0.3 |
| `ProtocolProofs.PastGateWasGated` | orchestrator/graph.py:150-162 | every run past RISK_GATE had an outcome there |
| `ProtocolProofs.GatedOnce` | orchestrator/graph.py:150-162 | and never has another |
| `ProtocolProofs.GateIsMonotone` | orchestrator/guards.py:36-54 | more violations, a higher score, a required tier or another type than SELECT never take a run out of the pipeline |
| `RiskGate.ComputeScore` | orchestrator/states/risk_gate.py:203-247 | clamping after every addition equals clamping the sum once |
| `RiskGate.RunRiskGate` | orchestrator/states/risk_gate.py:72-152 | the outcome's five fields; for every rule list, the run leaves the pipeline exactly on a hard violation, or as a SELECT to which no rule objects (or the policy store does not answer) and which is not both from an external user and above cost 100,000 |
| `RiskGate.FailedExplainFailsClosed` | orchestrator/states/risk_gate.py:93-97 | a failed EXPLAIN scores as high as any plan and counts as an expensive read of PII |
| `RiskGate.DefaultMatches` | mcp_servers/policy_store/rule_engine.py:103-156 | each of the eight default rules matches exactly what it is meant to catch |
| `RiskGate.DefaultPolicyExactly` | seed/default_policies.sql:62-126 | for the default rules in any order: hard exactly on DROP and TRUNCATE; FULL_CONTRACT exactly on PII, external input, bulk changes of sensitive tables or external triggers; silent exactly outside these and in business hours |
| `RiskGate.DefaultGateTier` | orchestrator/states/risk_gate.py:102-116 | the tier the gate learns from the default rules, in terms of the submission |
| `RiskGate.DefaultGateExactly` | orchestrator/states/risk_gate.py:102-116 | with the default rules the gate never sees a hard violation, and takes out exactly the SELECTs off PII tables, not from an external user, between 7 and 20, at any EXPLAIN cost |
| `RiskGate.BusinessHours` | mcp_servers/policy_store/rule_engine.py:138-141 | a rule without hours of its own goes by 7 to 20 |
| `ProtocolProofs.ExecutionKeepsInv` | orchestrator/states/execution.py:51-116 | EXECUTION before and after the target call keeps it |
| `ProtocolProofs.SyncKeepsInv` | proxy/main.py:217-218 | the proxy's final sync keeps it |
| `ProtocolProofs.RunKeepsInv` | orchestrator/graph.py:130-187 | the invariant holds in every state of every run |
| `ProtocolProofs.TargetCalledAtMostOnce` | orchestrator/states/execution.py:51-101 | in every interleaving the target is called at most once |
| `ProtocolProofs.TargetCalledOnlyWhenApproved` | orchestrator/graph.py:150-185 | a call happens only with a record in the store and APPROVE as the last accepted decision, and no decision is accepted after it |
| `ProtocolProofs.ApprovedAndDoneMeansExecutedIffAnalysed` | orchestrator/graph.py:153-162 | a finished run whose record says APPROVED called the target once if the gate's outcome routed it to ANALYSIS, never otherwise |
| `ProtocolProofs.ProxyRunSendsTheInterceptedCall` | orchestrator/states/execution.py:82-93 | through any MODIFY rounds, EXECUTION of a proxy-created run always calls, and sends exactly the SQL under analysis, tool, URL and tenant that were intercepted |
| `ProtocolProofs.DecisionsAreModifiesThenOneTerminal` | orchestrator/workflow_store.py:349-391 | the accepted decisions of an id are MODIFY* then at most one terminal decision, after which none is accepted |
| `ProtocolProofs.StepKeepsVerdict` | orchestrator/workflow_store.py:266-288 | one step changes a stored terminal verdict if and only if it is a late first loop test, which makes it TIMED_OUT |
| `ProtocolProofs.VerdictIsFinalUnlessFirstTestIsLate` | orchestrator/states/human_review.py:97-173 | over a whole run all six decision fields stay as they are if and only if no first loop test is late |
| `ProtocolProgress.LateFirstTestLosesTheDecision` | orchestrator/states/human_review.py:145-173 | for every timeout and every decision there is a run in which the accepted decision becomes TIMED_OUT |
| `ProtocolProgress.DivertedApprovalIsNotExecuted` | orchestrator/graph.py:153-162 | for every gate outcome that routes to AUDIT there is a run that ends APPROVED without a target call |
| `ProtocolProgress.StepsArePaidFor` | orchestrator/states/human_review.py:141-173 | every pipeline step lowers a potential that only an accepted MODIFY raises, by at most one round |
| `ProtocolProgress.PipelineStepsAreBounded` | orchestrator/graph.py:164-187 | with m accepted MODIFYs a run takes at most polls + 12 + m(polls + 6) pipeline steps |
| `ProtocolProgress.NextPipelineStep` | orchestrator/graph.py:147-187 | an unfinished pipeline always has a step of its own that becomes enabled once the clock has advanced |
| `ProtocolProgress.FailsOnlyByCrash` | orchestrator/states/execution.py:51-53 | a run fails only by an exception from an awaited call; the missing-record error is never raised |
| `ProtocolProgress.GoesOnUntilAudited` | orchestrator/graph.py:181-185 | a run without a crash is either finished, having passed AUDIT, or can take another pipeline step |
| `ProtocolProgress.AnalysesAreBounded` | orchestrator/graph.py:170-179 | ANALYSIS is entered at most 1 + (accepted MODIFYs) times |
| `ProtocolProgress.EveryModifyIsReanalysedUnlessLost` | orchestrator/graph.py:170-179 | in a finished, analysed run, analyses + MODIFYs lost to a late first loop test = 1 + accepted MODIFYs; so each MODIFY got exactly one further ANALYSIS if and only if none was lost |
| `WorkflowStores.HandoffContract.CopyReview` | orchestrator/states/human_review.py:157-162 | all six decision fields become those of the other contract, aliased or not, and nothing else changes |
| `WorkflowStores.HandoffContract.TimeOut` | orchestrator/states/human_review.py:171-173 | state, reason and timestamp change as the timeout says; decision, approver and constraints stay |
| `WorkflowStores.WorkflowStore.Create` | orchestrator/workflow_store.py:242-249 | one fresh RUNNING record, not executed, filed under the contract's id; other ids untouched |
| `WorkflowStores.WorkflowStore.SetStatus` | orchestrator/workflow_store.py:255-264 | only the display status of that id changes |
| `WorkflowStores.WorkflowStore.UpdateContract` | orchestrator/workflow_store.py:266-288 | the record refers to the given contract, of whatever id, which carries the stored verdict if that was APPROVED, REJECTED or TIMED_OUT, its own otherwise |
| `WorkflowStores.WorkflowStore.SetExecutionResult` | orchestrator/workflow_store.py:290-300 | result and completion mark are set, contract and status are not touched |
| `WorkflowStores.WorkflowStore.RecordDecision` | orchestrator/workflow_store.py:349-391 | succeeds exactly on a present, PENDING record, writes all posted fields, and otherwise changes nothing |
| `WorkflowStores.WorkflowStore.PostDecision` | proxy/async_protocol.py:223-256 | 400 exactly on a short reason or unknown decision, 200 exactly when recorded, else 409; the fields change only with 200 |
| `WorkflowStores.WorkflowStore.Subscribe` | orchestrator/workflow_store.py:304-309 | a fresh empty queue is added behind the id's subscribers |
| `WorkflowStores.Without` | orchestrator/workflow_store.py:311-317 | removing a queue from a list without repetitions removes it and keeps all others distinct |
| `WorkflowStores.WithoutTheFirst` | orchestrator/workflow_store.py:311-317 | exactly the first occurrence is taken out, the rest keeps its order |
| `WorkflowStores.WorkflowStore.Unsubscribe` | orchestrator/workflow_store.py:311-317 | exactly that queue leaves that id's subscribers |
| `WorkflowStores.WorkflowStore.NotifySubscribers` | orchestrator/workflow_store.py:319-326 | every subscriber's queue grows by the record's current status, exactly once |
| `Pipelines.PipelineTask.constructor` | proxy/main.py:191-209 | the proxy's contract and record form an initial state of the protocol |
| `Pipelines.PipelineTask.Deliver` | orchestrator/workflow_store.py:363-391 | a post on the heap, whichever object the record refers to, is the protocol's post step |
| `Pipelines.PipelineTask.RunIntake` | orchestrator/graph.py:63-67 | the node builds a second contract object with the same id, SQL and tenant, undecided |
| `Pipelines.PipelineTask.FinishGate` | orchestrator/states/risk_gate.py:137-152 | a hard violation marks the pipeline's contract only; the outcome is kept, and the route is the protocol's |
| `Pipelines.PipelineTask.RunGate` | orchestrator/guards.py:22-54 | by the fields of the answer: ANALYSIS exactly without a hard violation and unless it is a harmless read |
| `Pipelines.PipelineTask.EnterAndSave` | orchestrator/states/human_review.py:97-139 | the display status set on entry: pending, or the one mapped from the decision honoured |
| `Pipelines.StatusesAgree` | proxy/main.py:221-228 | the endpoint, HUMAN_REVIEW and the final sync show the same status for a decision, but for APPROVED becoming COMPLETED |
| `Pipelines.PipelineTask.PrepareReview` | orchestrator/states/human_review.py:97-138 | the three ways into the review are the protocol's |
| `Pipelines.PipelineTask.SaveContract` | orchestrator/workflow_store.py:274-286 | saving makes the two contracts one object, keeping a terminal verdict |
| `Pipelines.PipelineTask.TakeDecision` | orchestrator/states/human_review.py:155-163 | a poll that finds a decision is the protocol's poll |
| `Pipelines.PipelineTask.TimeOut` | orchestrator/states/human_review.py:165-173 | the else branch is the protocol's deadline test |
| `Pipelines.PipelineTask.PollUntil` | orchestrator/states/human_review.py:147-165 | the loop ends, either Reviewed or with the deadline passed and nothing found |
| `Pipelines.PipelineTask.RunHumanReview` | orchestrator/states/human_review.py:43-190 | the node ends Reviewed or by an exception, in a reachable state |
| `Pipelines.PipelineTask.StartExecution` | orchestrator/states/execution.py:51-93 | record, idempotency and hash guards decide as in the protocol whether the call is sent, and what is sent |
| `Pipelines.PipelineTask.FinishExecution` | orchestrator/states/execution.py:94-116 | success and MCP error alike mark the record executed; record and contract say which of the two it was |
| `Pipelines.PipelineTask.RunExecution` | orchestrator/states/execution.py:51-124 | calls exactly if there is a record and its manifest passes the guard; record and contract get the target's own reply; a hash mismatch leaves success false and no result |
| `Pipelines.PipelineTask.RunRounds` | orchestrator/graph.py:164-179 | the MODIFY loop ends for every finite schedule of decisions |
| `Pipelines.PipelineTask.RunPipeline` | proxy/main.py:213-232 | ends for every schedule; at most one call, only with a record and APPROVE last; MODIFY* then one terminal; analyses bounded, and none exactly as the gate's answer says; result and success are those of the target's reply, none without a call; the record shows FAILED after an exception and otherwise the status mapped from the final contract |
| `Pipelines.HandleToolCall` | proxy/main.py:191-234 | from the intercepted call to the end: no request, or exactly the intercepted call once and only after APPROVE; analysed exactly unless the gate's outcome was hard or a harmless read; an APPROVED end means it was sent if and only if the run was analysed; an analysed end shows a terminal status, COMPLETED exactly if the call was sent; the recorded result is the target's reply |
| `Pipelines.PostsAreReachable` | orchestrator/workflow_store.py:363-391 | any number of posts during one suspension is a run, and moves nothing but the reviews and decisions |
| `Pipelines.LoopTestIsReachable` | orchestrator/states/human_review.py:147-148 | the loop condition, first or later, is a step of the protocol |
| `StatusStreams.OnlyTwoStatusesGoOn` | proxy/async_protocol.py:170-178 | the seven terminal statuses are all but RUNNING and PENDING_HUMAN_APPROVAL |
| `StatusStreams.RunKeepsFits` | orchestrator/workflow_store.py:255-264 | in every interleaving each stream has relayed or queued exactly the announcements since it subscribed |
| `StatusStreams.NoLostWakeup` | proxy/async_protocol.py:180-198 | with no notify on its way, the newest status an open stream emitted or queued is the record's |
| `StatusStreams.DueStreamCloses` | proxy/async_protocol.py:190-203 | in the middle of any run, a stream with a terminal event queued or being relayed closes after two steps of its own per event up to that one (one more when it is yielding), whatever else interleaves |
| `StatusStreams.ClosedEmitsUpToFirstTerminal` | proxy/async_protocol.py:190-198 | a stream that closed past its greeting emitted, behind it, exactly the announcements since it subscribed up to and including the first terminal one |
| `StatusStreams.PastGreetingDelivers` | proxy/async_protocol.py:190-203 | once the record is terminal and notified, a stream past its first yield that keeps its client and gets its steps closes, and behind its greeting has emitted exactly the announcements up to the first terminal one |
| `StatusStreams.GreetingCloses` | proxy/async_protocol.py:184-188 | a stream at its first yield under a record that stays terminal closes at its first step and emits nothing more |
| `StatusStreams.TerminalStatusIsDelivered` | proxy/async_protocol.py:180-203 | every open stream, in the middle of any run: it closes, and has emitted the record's status, the greeting counted, if and only if the record had it at the subscription, or the stream had taken its first step and no other terminal status was announced before |
| `StatusStreams.GreetedWithApprovedMissesCompleted` | proxy/async_protocol.py:183-188 | a run in which a client that connects between APPROVED and COMPLETED never sees COMPLETED |
| `StatusStreams.ApprovedHidesCompleted` | proxy/async_protocol.py:192-198 | a run in which APPROVED and COMPLETED are both announced and the stream closes on APPROVED |
| `StatusStreams.SinceSubscription` | proxy/async_protocol.py:180-186 | a stream first emits the status the record had at its subscription, and is at that yield until its first step |
| `StatusStreams.ClosesWithTerminalUnlessMissed` | proxy/async_protocol.py:184-198 | a step closes a stream whose last emission is not terminal if and only if it is the stream's first, it subscribed to a running record, and the last status written in between is terminal |
| `StatusStreams.AStreamCanMissTheEnd` | proxy/async_protocol.py:183-188 | a run in which COMPLETED is never emitted |
| `EventStreams.EventStream.constructor` | proxy/async_protocol.py:180-186 | subscribes and greets with the current status |
| `EventStreams.EventStream.Continue` | proxy/async_protocol.py:187-198 | the generator on the store's queue moves as the stream model; it is subscribed exactly while open |
| `EventStreams.EventStream.Leave` | proxy/async_protocol.py:202-203 | leaving unsubscribes this stream and no other |
| `EventStreams.Broadcast` | orchestrator/workflow_store.py:319-326 | one notify moves every stream of the id, open or not, as the stream model |
| `CascadeSearch.Tracer.Trace` | sql_analysis_lib/cascade_tracer.py:123-179 | appends exactly the levels below its branch and raises each flag exactly when specified |
| `CascadeSearch.Tracer.Visit` | sql_analysis_lib/cascade_tracer.py:142-179 | one child: a revisit raises the flag and lists nothing, otherwise its level and all below it |
| `CascadeSearch.TraceCascades` | sql_analysis_lib/cascade_tracer.py:182-237 | levels, total and flags of the whole search |
| `CascadeTracer.SearchIsExact` | sql_analysis_lib/cascade_tracer.py:123-179 | the levels are exactly the branches of length 1..max_depth that never revisit a table, in depth-first order |
| `CascadeTracer.OrderedListIsUnique` | sql_analysis_lib/cascade_tracer.py:200-202 | that order and membership leave only one list, so nothing is listed twice |
| `CascadeTheorems.ListedTablesAreTheReachableOnes` | sql_analysis_lib/cascade_tracer.py:210-237 | listed tables are reachable; with the limit not reached, all reachable tables but the root are listed |
| `CascadeTheorems.LimitIsReachedExactlyAtDepth` | sql_analysis_lib/cascade_tracer.py:135-137 | for a positive limit, max_depth_reached holds exactly when some level has that depth |
| `CascadeTheorems.CircularExact` | sql_analysis_lib/cascade_tracer.py:142-147 | the flag is raised exactly when a followed branch has an edge back onto itself |
| `CascadeTheorems.CircularMeansCycle` | sql_analysis_lib/cascade_tracer.py:145-147 | has_circular_reference implies a walk from the root that repeats a table |
| `CascadeTheorems.NoFlagMeansAcyclic` | sql_analysis_lib/cascade_tracer.py:135-147 | with both flags down, no walk from the root repeats a table |
| `CascadeTheorems.EstimateIsBounded` | sql_analysis_lib/cascade_tracer.py:149-155 | estimate * reltuples(root) <= root rows * reltuples(table), on every branch |
| `CascadeTheorems.EstimateStaysWithinTable` | sql_analysis_lib/cascade_tracer.py:149-155 | an estimate never exceeds its table if the root's does not, and is the whole table for a whole root and filled ancestors |
| `CascadeTheorems.EstimateIsTheShareRoundedDown` | sql_analysis_lib/cascade_tracer.py:149-155 | each level's estimate is its share of the parent's estimate rounded down, and 0 below an empty table |
| `CascadeTheorems.EstimateKeepsTheRootsShare` | sql_analysis_lib/cascade_tracer.py:149-155 | below filled tables every level covers the part of its table that the root estimate covers of the root, less at most one row of each table on the way |
| `CascadeTheorems.EstimateIsMonotone` | sql_analysis_lib/cascade_tracer.py:149-155 | a larger root estimate never gives a smaller estimate anywhere |
| `CascadeTheorems.ConfidenceIsRounded` | sql_analysis_lib/cascade_tracer.py:156-156 | a level's confidence is 0.8 of its parent's to the nearest 0.0001 |
| `CascadeTheorems.ConfidenceDegrades` | sql_analysis_lib/cascade_tracer.py:156-156 | confidence never rises along a branch, and falls exactly while it is at least 0.0003 |
| `KeyComparison.DecodesToItself` | mcp_servers/base/auth.py:51-52 | the encoding is that of RFC 3629: the code point can be read back from the bytes |
| `KeyComparison.EncodingIsUtf8` | mcp_servers/base/auth.py:51-52 | shortest form, first and continuation bytes in their ranges |
| `KeyComparison.SurrogatesAreTheGap` | mcp_servers/base/auth.py:51-52 | what cannot be encoded is exactly the band that RFC 3629 leaves out |
| `KeyComparison.CharInjective` | mcp_servers/base/auth.py:46-53 | UTF-8 encodes different characters differently |
| `KeyComparison.ZipEqualMeansEqual` | mcp_servers/base/auth.py:46-53 | equally many characters whose bytes agree up to the shorter encoding are the same characters |
| `KeyComparison.ConstantTimeCompare` | mcp_servers/base/auth.py:46-53 | true exactly on equal encodable strings, an encoding error exactly on equal lengths with a lone surrogate |
| `KeyComparison.ValidateApiKey` | mcp_servers/base/auth.py:29-43 | access exactly for mock mode, an empty configured key, or the configured key itself; an encoding failure exactly when keys of equal length are compared and one has a lone surrogate |
| `StableSort.SortRefinesChain` | mcp_servers/memory_store/server.py:231-231 | a stable descending sort of a list in order r is in order (key, then r) |
| `StableSort.ChainIsUnique` | mcp_servers/memory_store/server.py:257-257 | elements and a strict order along them determine a list |
| `Retrieval.Jaccard` | mcp_servers/memory_store/server.py:49-54 | between 0 and 1, and 1 exactly for equal sets |
| `Retrieval.JaccardIsTheSharedPart` | mcp_servers/memory_store/server.py:49-54 | it is the number of shared tables over the number of all, and symmetric |
| `Retrieval.ScoresFollowSeverity` | mcp_servers/memory_store/server.py:243-255 | the score of each class of precedent; a more severe one always scores higher, and similarity counts only among those of no severity |
| `Retrieval.RankingDescendsInSeverity` | mcp_servers/memory_store/server.py:257-261 | no precedent ranks before a more severe one |
| `Retrieval.PrecedentsAreTheTopThree` | mcp_servers/memory_store/server.py:257-261 | the precedents are the first three of the ranking, or all, each with its rounded score |
| `Retrieval.FilterByTableOverlap` | mcp_servers/memory_store/server.py:214-232 | the passing candidates with their rounded overlap, stably sorted |
| `Retrieval.RerankByOutcome` | mcp_servers/memory_store/server.py:236-261 | the stable outcome ranking, rescored, cut to three |
| `Retrieval.Retrieve` | agents/context_sim/retrieval_client.py:71-161 | available exactly if no stage that is reached raises; then the top three of the ranking, otherwise no precedent |
| `Retrieval.RankingIsOneLexicographicSort` | mcp_servers/memory_store/server.py:223-261 | filter then rerank is the only arrangement by (outcome score, rounded overlap, stage-1 order) |
| `Retrieval.RejectedRanksFirst` | mcp_servers/memory_store/server.py:236-261 | a REJECTED candidate leads the ranking if one passes, and none is in it otherwise |
| `Retrieval.RejectedPrecedentForcesFullContract` | agents/contract/risk_rules.py:150-152 | however many candidates there are, a passing REJECTED one forces FULL_CONTRACT |
| `Retrieval.RejectedForcesFullContractUnlessLost` | agents/context_sim/retrieval_client.py:150-168 | with failing tools, it does if and only if the retrieval is available or the operation is FULL_CONTRACT without precedents |
| `Retrieval.LostRejectionLowersTier` | agents/context_sim/retrieval_client.py:150-168 | an INSERT that is STANDARD instead of FULL_CONTRACT because the search failed |
| `Risk.ComputeRiskScore` | agents/contract/risk_rules.py:65-132 | clamping after every addition equals clamping the whole sum once |
| `Risk.ClassifyRisk` | agents/contract/risk_rules.py:52-62 | tier and score together: below FULL_CONTRACT exactly if all eight conditions with their thresholds are absent, AUTO exactly for such a SELECT below 0.30 without violations or required tier |
| `Risk.IncrementsAreSteps` | agents/contract/risk_rules.py:86-122 | the row, cascade and confidence increments as sums of steps |
| `Risk.PlainOperations` | agents/contract/risk_rules.py:79-84 | what each operation type scores and which tier it gets when nothing else speaks |
| `Risk.TierIsMonotone` | agents/contract/risk_rules.py:135-187 | the tier is monotone in all ten risk factors at once |
| `Risk.ScoreDropsExactly` | agents/contract/risk_rules.py:65-132 | over the whole order of ten factors, a riskier operation scores lower if and only if it goes from PARTIAL to PERMANENT, the other factors add less than 0.10, and they stay below 1.00 |
| `Risk.RiskierCanScoreLower` | agents/contract/risk_rules.py:86-130 | a DELETE of more rows and of a worse class scores 0.43 against 0.45 |
| `Risk.PermanentScoresBelowPartial` | agents/contract/risk_rules.py:128-132 | with nothing else changed, PARTIAL to PERMANENT gives FULL_CONTRACT and lowers the score exactly when the raw sum is below 1.10 |
| `Sandbox.SandboxServer.Begin` | mcp_servers/transaction_sandbox/server.py:61-84 | one more session, starting from the committed data |
| `Sandbox.SandboxServer.Execute` | mcp_servers/transaction_sandbox/server.py:87-112 | an unknown session is refused; otherwise only that session's data change |
| `Sandbox.SandboxServer.Capture` | mcp_servers/transaction_sandbox/server.py:115-148 | the rows that session sees in each table, -1 for one it cannot count; unknown session refused |
| `Sandbox.SandboxServer.Rollback` | mcp_servers/transaction_sandbox/server.py:191-207 | exactly that session is gone |
| `Sandbox.BuildResult` | agents/context_sim/sandbox_client.py:201-242 | the measured difference of the primary table and of every cascade entry, unknown where a table cannot be counted |
| `Sandbox.SandboxClient.RunOnce` | agents/context_sim/sandbox_client.py:117-199 | for every failure pattern exactly the calls of that attempt, its rollback last; a completed one reports what the SQL does to the committed data, table by table; the sessions end unchanged exactly unless the rollback never arrived |
| `Sandbox.SandboxClient.Simulate` | agents/context_sim/sandbox_client.py:67-115 | SELECTs and operations without a table call nothing; failures become results |
| `Sandbox.SandboxClient.RunWithRetry` | agents/context_sim/agent.py:164-196 | exactly the calls of one attempt, and of a second one after a timeout; exactly the sessions whose rollback never arrived stay open; available and reporting exactly when an attempt completed (committed data stay the same by construction: no tool of the model commits) |
| `Sandbox.AttemptIsASession` | agents/context_sim/sandbox_client.py:122-199 | every attempt's calls are a begin, work on that session only, and its rollback |
| `Sandbox.CompletedAttemptDidAllWork` | agents/context_sim/sandbox_client.py:124-193 | a completed attempt captured, sent the SQL, captured, read the trigger log and rolled back, once each and in that order |
| `Sandbox.SqlIsSentOnceExactly` | agents/context_sim/sandbox_client.py:148-154 | the SQL is sent once if the session opened and the first capture answered, and not at all otherwise |
| `Sandbox.SessionRollsBackExactlyOnce` | agents/context_sim/sandbox_client.py:185-199 | in a session's calls an id is rolled back once if it was opened, as the last call, and never otherwise |
| `Policy.EvaluateOperation` | mcp_servers/policy_store/rule_engine.py:20-100 | hard and soft flags hold exactly when such a rule matched; the tier is the strictest demand of the matched rules; the reason is the first matched HARD rule's |
| `Policy.OrderOfRulesDoesNotMatter` | mcp_servers/policy_store/rule_engine.py:52-100 | permuting the rules changes neither the violations nor the tier |
| `Policy.ReasonExactlyOnHardViolation` | mcp_servers/policy_store/rule_engine.py:52-100 | there is a reject reason exactly when there is a hard violation |
| `Confidence.ConfidenceStore.UpdateConfidence` | sql_analysis_lib/row_estimator.py:151-190 | one feedback updates exactly its key, within [0.1, 1] |
| `Confidence.FeedbackMovesConfidence` | sql_analysis_lib/row_estimator.py:173-190 | one feedback lowers its own pair by its penalty down to the floor, and leaves every other pair |
| `Confidence.ConfidenceHasClosedForm` | sql_analysis_lib/row_estimator.py:173-190 | after any history, confidence is max(0.1, c0 - 0.05u - 0.02v) with u, v counted for that pair alone |
| `Confidence.FreshPairHasClosedForm` | sql_analysis_lib/row_estimator.py:173-190 | a pair never heard of starts at 0.8 |
| `Confidence.KindsInWholeNumbers` | sql_analysis_lib/row_estimator.py:176-187 | what counts as under- and overestimate, in whole numbers |
| `Confidence.OrderOfFeedbackDoesNotMatter` | sql_analysis_lib/row_estimator.py:173-190 | a permuted history leaves the same confidence |
| `Confidence.KeysAreDistinct` | sql_analysis_lib/row_estimator.py:173-174 | colon-free operation types make the keys of different pairs different, whatever the table names |
| `Confidence.ColonsCollide` | sql_analysis_lib/row_estimator.py:173-174 | with a colon in the operation two pairs can share a key |
| `Reversibility.BuildTriggerAnalysis` | agents/analyzer/tools.py:157-199 | returns the non-transactional triggers in their order; the flag holds exactly if one exists or was reported |
| `Reversibility.ListsEachAsReported` | agents/analyzer/tools.py:189-189 | each non-transactional trigger is listed as often as it was reported, no other one is |
| `Reversibility.ListedExactlyIfOneExists` | agents/analyzer/tools.py:194-197 | the list is non-empty exactly when some trigger is non-transactional |
| `Reversibility.ClassifyExactly` | sql_analysis_lib/reversibility_rules.py:95-224 | for every operation type and PITR state: when it raises, and exactly when the class is PERMANENT, REVERSIBLE_PITR or PARTIAL |
| `Reversibility.ClassifyIgnoresCase` | sql_analysis_lib/reversibility_rules.py:126-158 | outside the listed DDL words the spelling in capitals decides |
| `Reversibility.ReadIsSelect` | sql_analysis_lib/reversibility_rules.py:128-130 | READ is classified as SELECT |
| `Reversibility.AnalyzeExactly` | agents/analyzer/agent.py:147-175 | the class written, classification errors included, in terms of operation, soft-delete column and triggers |
| `Analyzer.RunAnalysis` | agents/analyzer/agent.py:102-175 | the facts written step by step, with the default each failed tool call is replaced by |
| `Analyzer.AnalysisReportsTheReader` | agents/analyzer/agent.py:113-145 | when all tools answer, rows, confidence, external triggers and cascade are the reader's, and nothing else changes |
| `Analyzer.SafePatternKeepsTier` | agents/analyzer/agent.py:233-288 | failures of a safe pattern force FULL_CONTRACT or change nothing |
| `Analyzer.FailsClosedExactly` | agents/analyzer/agent.py:233-288 | whatever the reader would have answered, a pattern of tool failures does not lower the tier, if and only if it is safe: no table, an operation that is PERMANENT anyway, a failed row count, a failed soft-delete lookup of a DELETE or UPDATE, or neither the trigger lookup nor a needed cascade lookup failed |
| `Analyzer.OpenPatternLowersTier` | agents/analyzer/agent.py:250-276 | for every other pattern, answers of the form the reader gives for an operation that is FULL_CONTRACT and is classified lower after the failures |
| `Analyzer.AllInvoke` | sql_analysis_lib/trigger_detector.py:206-213 | a table whose triggers all invoke a non-transactional extension is reported with as many external triggers |
| `Analyzer.ClassImprovesExactly` | agents/analyzer/agent.py:250-288 | failures improve the reversibility class exactly when a trigger report with permanent effects is lost for an otherwise reversible operation |
| `Reversibility.AnalysisFailsClosed` | agents/contract/contract_builder.py:105-160 | no rollback plan, required acknowledgement and PERMANENT coincide and force FULL_CONTRACT; a lower tier means a read, an insert or a soft-deletable change |
| `Reversibility.MoreTriggersNeverHelp` | sql_analysis_lib/reversibility_rules.py:107-224 | a longer trigger report never improves the class or lowers the tier |
| `Persistence.RowIsLastWrite` | orchestrator/workflow_store.py:53-65 | after any history of upserts a row holds the last write for its id, field by field, non-empty maps included |
| `Persistence.FirstWriteFixesCreation` | orchestrator/workflow_store.py:58-64 | but for the creation time, which stays the first one written |
| `Persistence.RestartRestoresTheLastWrite` | orchestrator/workflow_store.py:185-238 | reload restores that write if and only if its reason validates, equal in all eight fields except that an empty map becomes None |
| `Persistence.RestartKeepsExecution` | orchestrator/states/execution.py:56-92 | EXECUTION decides the same and would send the same request for a reloaded record |
| `Persistence.StoredVerdictLoadsExactly` | orchestrator/handoff_schema.py:190-197 | in every state of every run the stored verdict validates if and only if it is not an approval or rejection in force whose accepted post had a reason of 1 to 9 characters |
| `Persistence.RestartKeepsTheRecord` | proxy/async_protocol.py:231-235 | if every post of a run has ten characters, a restart after any prefix finds the record with the verdict it had |
| `Persistence.ShortReasonIsLost` | orchestrator/workflow_store.py:193-214 | an APPROVE with a reason of 1 to 9 characters is in the table and not in the reloaded store |
| `Persistence.RestartStillRefuses` | orchestrator/workflow_store.py:363-370 | an id decided or executed before a restart accepts neither a decision nor an execution after it |

## Left out

- User interface, Slack handling, notifier, logging, HTTP wiring, LLM calls and prose: presentation and foreign calls.
- The proxy's own quick gate and its direct execution of cheap SELECTs (proxy/main.py:134-189): it creates no workflow record.
- `orchestrator/main.py`: starts a run under an id its record does not carry.
- Two concurrent executions of one id: the code does not guard against them. Deletion of records: the store has none.
- The display status is not part of the protocol's state, since it does not govern safety: `Pipelines` writes it where the source does and states what a finished run leaves, and `StatusStreams` lets any task write any status at any time.
- SQL parsing and literal stripping by regular expression: operation type, tables and condition are inputs.
- SHA-256 and canonical JSON: an arbitrary function, injective only where stated.
- PostgreSQL, asyncpg and LangGraph internals: queries are functions, calls answer or raise, the graph has no step limit.
- Wall-clock time: a nondecreasing clock of whole units, on which a sleep takes at least the poll interval.
- Floating-point rounding: exact rationals, scores in hundredths, confidences in ten-thousandths; round(x, 4) is an arbitrary function in `Retrieval`.
- Pipelines.HandleToolCall: an operation id has 32 random bits (orchestrator/states/intake.py:43), so two calls can collide; the second call's record then replaces the first one's, and its own guarantees hold as stated, but what becomes of the first call's run is not modelled.
- Sandbox.SandboxClient.RunOnce: a session id is taken to be new, as uuid4 makes it; simulated SQL acts on its own transaction only, and a tool that raises has no effect.
- The text of `permanent_components`; section builders of the contract other than the rollback plan and the acknowledgement: text assembly.
- Analyzer.RunAnalysis: operation type, table and condition are inputs; missing keys of an answer have their defaults filled in; the selective re-analysis guard is omitted, since nothing in the repository writes `stale_fields`.
- Reversibility.AnalysisFailsClosed: rollback plan texts are abbreviated, since only their presence is used.
- Manifests.ProxyManifestBindsTheCall: blank text means spaces, tabs, line feeds and carriage returns only, and manifest values are text or null.
- Reversibility.AnalyzeExactly: upper-casing is ASCII only, as operation names are; the catch-all branch for further known DML names is omitted, since every known name is handled before it.
- Sandbox.BuildResult: a table named twice is counted once or twice with the same result; that a failed count spoils the rest of its transaction is not represented.
- RiskGate.RunRiskGate: extraction of tables and EXPLAIN parsing are inputs; the descriptions of the default rules are abbreviated to their ids.
- StatusStreams.NoLostWakeup: an event is reduced to its status, and heartbeats are not emitted.
- Pipelines.PipelineTask.RunHumanReview: provenance entries and the other contract fields the agents write are not represented; the persisted copy is modelled in `Persistence` only.
- Retrieval.Retrieve: the stage-1 search is an arbitrary list of candidates in order.
