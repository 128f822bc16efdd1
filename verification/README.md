# A verified model of knot's durable park and resume

knot runs agents whose sessions can stop at any tool call that needs a person, another session or an
approval, and go on days later from an append-only log.  This project models the part that has to be right
for that to work, and proves what the parts promise each other:

- **History repair** (`ToolMatching`, `ToolHistory`, `Repair*`, `Interruptions`): the three-phase matching of
  tool calls to results, as loops over maps and sets that equal a specification; a maximum matching with exact
  counters; a normal form; and the canonical form that makes the order of results in a log irrelevant.
- **The log protocol** (`SessionLog`, `Protocol*`, `ResumePlan`, `Settlement`, `ResolveBatches`, `Readiness`,
  `CrashRepair`, `Effects`, `Responses`, `Recoveries`, `Shortfalls`): every write is one append, an operation is a list of atomic actions, and a crash is stopping
  after any number of them.  A world is a log with a trace of executor runs.  What `resolve_inputs`, crash repair and a
  skip do to each request is told from the world before and after them.
- **The store and the resume path** (`Store`, `Resume`): a mutable store of numbered rows, and methods that append
  exactly what the protocol's operations say.
- **The loop** (`Decisions`, `ToolPhase`, `PhaseOutcomes`, `AgentLoop`, `LoopBounds`, `Passes`, `QueueConservation`,
  `RunInvariants`, `PhaseVerdicts`, `RunEndings`, `EventTruth`, `Contexts`): tool tasks
  interleave in any order on a queue; the environment of a turn (stream, arrivals, cancellation, pushes) is a script, and
  a run is a fold over scripts.
- **Harness, persistence, restarts** (`Persistence`, `Harness`, `RestartTransparency`, `QueuedRestarts`, `RunLegality`,
  `RunParking`, `Cycle`): memory has results in call order, the log in order of arrival, and nobody can tell; what is
  left on a queue is in memory only.
- **One session, start to finish** (`Walkthrough`): a concrete run that parks on a gated tool and goes on once approved; the
  assumptions of the whole-run theorems hold for it.
- **Gates, whole lives, chains, the inbox** (`Policies`, `GateSafety`, `Lives`, `Runtime`, `ChainSafety`, `ChainLogs`,
  `Fleet`).
- **Streams, wire format, truncation** (`Stream*`, `Wire*`, `Truncation`; UTF-8 as in section 3 of RFC 3629).

The code that changes state is imperative here too: the harness, the store, the writer claim, the subscriber and the
runtime are classes, and the source's loops are methods with invariants, each proved equal to a function that the
lemmas are about.  `dafny verify dfyconfig.toml` checks everything.

## Assumptions

They are preconditions of the theorems that need them, by these names.

- Tool call ids do not repeat in a session and requests have ids of their own (`FreshCalls`, `Legal`, `TurnOk`, `FreshTurn`).
  The repair theorems on counters, shape and normal form do not need this.
- A provider's stream has at most one terminal event (`TurnOk`); `StreamToLoop.OneMessageIffOneTerminal` says this is
  exactly what log and memory need to agree, and a canonicalized source with one terminal has it.
- No run starts while a request is pending (`NothingAwaited`), as `src/knot/server/app.py:425-442` enforces.
- `resolve_inputs` calls do not overlap; several calls are one after another, each with the time it reads
  (`ResolveCalls`).  That calls can be grouped differently needs that no call but the first finds anything to expire
  (`QuietCalls`), as when no pending request expires in between (`NothingExpires`).
- Nothing is left on a harness's queues where it is rebuilt from the log (`QueuesEmptyAtRestarts`); queues survive a run
  (`src/knot/core/harness.py:275-288`) but not a restart (`src/knot/core/session/state.py:93-106`).
- Only the sweep resolves requests in the sweep's name (`NotTheSystem`).
- A tool that parks names its own call (`AllParkOwnCalls`) and does not itself ask for an approval (`ExecutorsDoNotGate`).
- An executor that parks its own approved call on resume ends the operation behind its start, like a crash there, and
  the call of `resolve_inputs` with it: responses behind it are not reached (`Reached`).
- Executors are functions of the call.  Only control events are folded onto a running tool phase's queue.
- Queued messages and prompts are neither tool results nor carry tool calls (`AllPlain`).
- Approvals are written only between runs, so the log a once policy reads is, as far as approvals go, the one its run
  started from (`Gated`).  A run raises no request under an id already resolved (`MayHappen`).
- No session is its own parent (`Forest`, `Rooted`); the store would accept one.

## Where a promise has a condition

- Appending interruptions first leaves nothing to synthesize for distinct ids; in general exactly when no id is called
  both more than once and more often than it is answered (`RepairAppend.AppendSufficesIff`; an id
  called twice and never answered is `Shortfalls.RepeatedIdStaysOpen`).
- The module text of `resume.py` calls a crash between any two records unambiguous.  A crash between the decision and
  the next record leaves a session with nothing pending, no window to detect and not ready to continue
  (`Readiness.DecisionWithoutResultStrands`); one action later it is detectable (`Readiness.OnlyStartedApprovalsAreRepairable`).
- A rebuilt harness has lost what was left on the queues of the kept one.  Its next run shows it if and only if that run
  gets to read it: at once for a steering message, on completing for a follow-up (`QueuedRestarts.LeftoversShowIff`; an
  ordinary case is `QueuedRestarts.LostFollowUp`).
- Several `resolve_inputs` calls are one call if and only if no later one finds anything to expire
  (`ResolveBatches.CallsAreOneIff`); otherwise the same answer is in time in one grouping and too late in another
  (`Shortfalls.InTimeOrTooLate`).
- A run cancelled after it parked appends interruptions for calls that are also awaited.  Its log is lawful, and its
  last calls partitioned, if and only if that did not happen (`RunParking.RunIsLawful`).
- The fleet inbox agrees with per-session derivation exactly where no unresolved request was raised again under its id
  (`Fleet.InboxAgreesIff`).
- Custom messages are converted to their text alone, so images in them are not sent (`Wire.PlainChat`); those of users and
  tool results all are.
- The text of `state.py` speaks of a later resolution; the code lets a resolution anywhere in the log resolve its
  request.  The model follows the code.

## Model

| member | source | states |
|---|---|---|
| `ToolMatching.MatchFinished` | src/knot/core/tool_history.py:73-143 | the three passes give every call a result or a synthesized one, use no result twice, leave no call synthesized while a result for its id is free, and no interruption where a free genuine result exists |
| `ToolHistory.RepairToolHistory` | src/knot/core/tool_history.py:49-176 | the loops over dictionaries and sets compute the specified matching, transcript and counters |
| `ToolHistory.RebuildMessages` | src/knot/core/tool_history.py:145-157 | the rebuild loop and its count of moved results |
| `RepairCounts.RepairKeepsMaximum` | src/knot/core/tool_history.py:73-143 | for each id, results kept = min(calls, results) and genuine ones kept = min(calls, genuine results) |
| `RepairCounts.RepairIsMaximum` | src/knot/core/tool_history.py:73-143 | no assignment of results to calls with the same id, each used once, keeps more results or more genuine ones |
| `RepairCounts.CountersAreExact` | src/knot/core/tool_history.py:159-176 | per id: synthesized = max(0, calls - results), duplicates = max(0, results - calls) when called, otherwise all results are orphans |
| `RepairCounts.CountersCoverEveryId` | src/knot/core/tool_history.py:159-176 | every synthesized, orphan or duplicate result belongs to exactly the slice of its own id |
| `RepairShape.RepairOutputShape` | src/knot/core/tool_history.py:145-157 | each assistant message is followed by one result per call, in call order with its id, and the other messages are kept in order |
| `RepairShape.RepairIdempotent` | src/knot/core/tool_history.py:49-176 | repairing a repaired history changes nothing and every counter is zero |
| `RepairShape.ChangedIff` | src/knot/core/tool_history.py:169-176 | `changed` holds exactly when some counter is not zero |
| `RepairCanonical.RepairIsCanon` | src/knot/core/tool_history.py:49-176 | with fresh ids and single results, repair is determined by the non-result messages and each id's result |
| `RepairCanonical.ContextFromView` | src/knot/core/tool_history.py:179-196 | two histories that agree on those show a provider the same context |
| `RepairAppend.AppendThenRepair` | src/knot/core/harness.py:295-315 | appending interruptions first gives the same repaired history with nothing left to synthesize |
| `RepairAppend.AppendSufficesIff` | src/knot/core/harness.py:295-315 | without fresh ids: nothing is left to synthesize exactly when no id is called more than once and more often than answered |
| `Shortfalls.RepeatedIdStaysOpen` | src/knot/core/harness.py:295-315 | a history with an id called twice and never answered gets one interruption and still has a result to synthesize |
| `Interruptions.AppendInterruptedResults` | src/knot/core/harness.py:295-315 | the nested loops append one interruption per unanswered id, in call order |
| `Interruptions.SameInterruptions` | src/knot/core/harness.py:295-315 | what is appended depends only on what a provider can tell apart |
| `SessionLog.PendingIff` | src/knot/core/session/state.py:56-81 | a request is listed as pending exactly when it is the last under its id and unresolved |
| `Contexts.PendingInOrder` | src/knot/core/session/state.py:56-81 | pending requests are listed in the order in which their ids were first raised |
| `SessionLog.WindowsIff` | src/knot/core/hitl/resume.py:632-649 | what detection lists, on any log |
| `Contexts.WindowsInOrder` | src/knot/core/hitl/resume.py:600-649 | windows are listed in the order of their approvals |
| `Protocol.OperationKeeps` | src/knot/core/hitl/resume.py:145-242 | denial, approval, answer, child completion, re-execution and skip, each cut off after any of its actions, keep the log lawful and every run justified |
| `Protocol.HistoryKeeps` | src/knot/core/hitl/resume.py:482-732 | the same over any sequence of operations, each cut off anywhere |
| `ProtocolSafety.EveryRunAuthorized` | src/knot/core/hitl/resume.py:387-408 | every executor run stands behind its request, that request's only resolution, an approval, and its own start, with no result before it |
| `ProtocolSafety.LaterRunsAreRecoveries` | src/knot/core/hitl/resume.py:652-699 | a second run for a request is a recovery of an idempotent tool whose call has no result yet |
| `ProtocolSafety.AtMostOnceAcrossCrashes` | src/knot/core/hitl/resume.py:355-408 | over any history with crashes, a tool never marked idempotent runs at most once per approval request |
| `ProtocolSafety.WindowsExact` | src/knot/core/hitl/resume.py:600-649 | on a lawful log the windows are precisely the approved, started, unanswered requests, all tool approvals |
| `ProtocolSafety.WindowsAfterAppend` | src/knot/core/hitl/resume.py:600-649 | a start opens its own window, a result closes those of its call, no other append moves one |
| `ProtocolSafety.ApprovalWindow` | src/knot/core/hitl/resume.py:387-408 | an approval cut off leaves its window exactly when the cut is behind its start and before its result |
| `Settlement.SettlementConfluent` | src/knot/core/hitl/resume.py:482-551 | settling the same requests in any order leaves the same pending requests and the same provider context |
| `ResolveBatches.ResolvePlanLawful` | src/knot/core/hitl/resume.py:498-543 | the sweep and the responses settle distinct pending requests, each still pending in its turn |
| `Responses.RequestsServed` | src/knot/core/hitl/resume.py:355-543 | each pending request gets what its response asks: expired, or denied, it has a denial, an error result and no run; a question has its answer; an approved tool that is there runs once, on the call the model made, and its outcome is the result; one that is gone is denied; a response of the wrong kind, or none, leaves it pending |
| `Responses.NothingUnasked` | src/knot/core/hitl/resume.py:482-551 | on any log, whatever was newly approved has a response that is no denial, and whatever ran has an approval |
| `Responses.ReportsServed` | src/knot/core/hitl/resume.py:512-551 | each response to a pending request is reported once: resolved if of the right kind, invalidated if it approved a tool that is gone, else rejected |
| `Responses.ReportsRefused` | src/knot/core/hitl/resume.py:512-524 | responses to unknown, expired and resolved requests are rejected as that |
| `Responses.FindsOwnCall` | src/knot/core/hitl/resume.py:303-335 | looking a call up by its id finds the model's own, where ids are fresh |
| `ResolveBatches.SplitCall` | src/knot/core/hitl/resume.py:482-551 | one call with all responses does what two calls do, each reading the clock for itself, if the second finds nothing to expire |
| `ResolveBatches.CallsAreOneIff` | src/knot/core/hitl/resume.py:498-543 | any number of calls, each at its own time, do what one call at the first one's time does, if and only if no later call finds anything to expire |
| `ResolveBatches.NothingExpiresQuiet` | src/knot/core/hitl/resume.py:252-269 | no later call finds anything to expire when no request pending at the start expires between the first call and another |
| `ResolveBatches.ResolutionsConfluent` | src/knot/core/hitl/resume.py:482-551 | the same responses in any order, grouped into any calls at any times, leave the same pending set and provider context, if the first calls expire the same requests with the same reasons and no later call finds anything to expire |
| `Shortfalls.InTimeOrTooLate` | src/knot/core/hitl/resume.py:252-269 | a question whose ttl runs out between two calls is answered in one grouping and denied in the other |
| `Readiness.ReadyIffNonePending` | src/knot/core/hitl/resume.py:571-592 | when each last call is answered or awaited, ready means nothing is pending |
| `Readiness.SettlingAllMakesReady` | src/knot/core/hitl/resume.py:571-592 | once every pending request is settled without a crash, the session is ready |
| `Readiness.DecisionWithoutResultStrands` | src/knot/core/hitl/resume.py:145-157 | a crash right behind a decision leaves the call unanswered, nothing pending for it, no window, and the session not ready |
| `Shortfalls.AnswerWithoutResult` | src/knot/core/hitl/resume.py:411-451 | such a crash, at a lawful log with one question |
| `Readiness.OnlyStartedApprovalsAreRepairable` | src/knot/core/hitl/resume.py:387-408 | how far an approval got decides pending, answered, detectable and ready |
| `CrashRepair.RerunProgress` | src/knot/core/hitl/resume.py:666-692 | a re-execution closes its window with its result and changes nothing detection reads before that |
| `CrashRepair.RerunKeepsCalls` | src/knot/core/hitl/resume.py:666-692 | and the model's calls are found as before |
| `Recoveries.WindowsServed` | src/knot/core/hitl/resume.py:652-711 | each window of a tool that is there and idempotent is run again once, on the call the model made, and closed with its outcome; any other is left and reported |
| `Recoveries.OnlyWindowsRun` | src/knot/core/hitl/resume.py:652-711 | a repair runs nothing but idempotent tools of windows |
| `Recoveries.SkipServed` | src/knot/core/hitl/resume.py:714-732 | a skip runs nothing and closes its window with an error that says who skipped it and why, under the window's tool name |
| `CrashRepair.RepairLeavesReported` | src/knot/core/hitl/resume.py:652-711 | after a completed repair the remaining windows are exactly those reported for the operator, in order |
| `CrashRepair.CrashInRepairDetectable` | src/knot/core/hitl/resume.py:652-711 | wherever a whole repair is cut off, the windows are those of the log, in order, but for the ones whose result has been written |
| `Store.SessionStore.CreateSession` | src/knot/core/session/store.py:145-169 | succeeds exactly for a new id with no parent, an existing one, or itself |
| `Store.SessionStore.AppendEntry` | src/knot/core/session/store.py:180-204 | numbers entries 0, 1, 2 per session, refuses unknown sessions, touches one log |
| `Store.AppendNumbered` | src/knot/core/session/store.py:180-211 | reading a session by its numbers is reading it in the order of appending |
| `Store.SessionStore.ClaimWriter` | src/knot/core/session/store.py:215-228 | a second claim fails while one is held |
| `Store.WriterClaim.Release` | src/knot/core/session/store.py:111-115 | releasing twice is a no-op, even after somebody else has claimed the session |
| `Resume.DeriveStateFrom` | src/knot/core/session/state.py:56-81 | one pass over the log derives status, pending requests and messages |
| `Resume.ResolveInputs` | src/knot/core/hitl/resume.py:482-551 | performs exactly its plan on one session, reports every response, and says whether the session is ready; what the plan does is `Responses.RequestsServed` |
| `Resume.ExpirePending` | src/knot/core/hitl/resume.py:252-269 | denies exactly the expired pending requests |
| `Resume.CurrentState` | src/knot/core/hitl/resume.py:564-568 | sweeps, then derives the state from the log as swept |
| `Resume.DetectCrashWindows` | src/knot/core/hitl/resume.py:600-649 | the four collections and the final loop list the specified windows in order of approval |
| `Resume.RepairCrashWindows` | src/knot/core/hitl/resume.py:652-711 | performs exactly its plan and reports it; what the plan does is `Recoveries.WindowsServed` |
| `Resume.OperatorSkip` | src/knot/core/hitl/resume.py:714-732 | one error result, named after the last start for the call |
| `Resume.LastCallsResolved` | src/knot/core/hitl/resume.py:571-581 | whether each call of the last message with calls has a result |
| `Contexts.LastCallsIs` | src/knot/core/hitl/resume.py:571-581 | the calls meant are those of the last message that has any |
| `Contexts.WaitingIff` | src/knot/core/session/state.py:75-81 | a session's status is waiting exactly when some request is pending |
| `ToolPhase.RunConcurrentTools` | src/knot/core/loop.py:384-436 | for any merge of the tasks' items, cut by a cancellation or not, the loops end and every queued event is yielded once in queue order, park signals apart |
| `ToolPhase.AllReported` | src/knot/core/loop.py:373-381 | as many items count as there are tasks exactly when every task has reported; control events never count |
| `ToolPhase.RunToolPhase` | src/knot/core/loop.py:297-346 | decide, run, collect: the phase's events, results in call order and requests |
| `PhaseOutcomes.OneOutcomePerCall` | src/knot/core/loop.py:297-346 | a call heard from has a result or a request, never both; without cancellation every call is heard |
| `PhaseVerdicts.PhaseServesCall` | src/knot/core/loop.py:297-346 | whatever the interleaving, a call heard from has one result or one request: a denial's reason as an error, an approval request with the hook's payload or its arguments, an error for an unknown tool, a question for a tool without executor, else what its executor returned, raised as an error, or parked |
| `PhaseVerdicts.UngatedRuns` | src/knot/core/loop.py:316-336 | a tool whose policy is never, or once with an approval, is run, and its outcome is the result |
| `Tools.ExecutionShows` | src/knot/core/tools.py:134-147 | what returned is no error, what raised is an error with its text, a park passes through; within the limit nothing is changed |
| `PhaseOutcomes.PhaseResults` | src/knot/core/loop.py:373-436 | the results recorded are exactly the results ended in the events, each once, cancelled or not |
| `PhaseOutcomes.HistoryIsDeterministic` | src/knot/core/loop.py:343-346 | whatever the interleaving, history gets the same results in call order and the same requests are raised |
| `AgentLoop.RunAgentLoop` | src/knot/core/loop.py:98-259 | the nested loops compute the fold of turn steps over the scripts |
| `LoopBounds.TurnBound` | src/knot/core/loop.py:137-172 | the provider is asked at most `max_turns` times, and one pass more ends the run |
| `RunEndings.PassOutcome` | src/knot/core/loop.py:147-257 | a pass ends the run with an outcome if and only if it has that outcome's reason; otherwise it goes on with steering first, follow-ups last, a whole queue or one message by mode |
| `RunEndings.RunEndsTold` | src/knot/core/loop.py:98-257 | a completed run has empty queues and ends with the model's last word, without calls; a failed one ends with the error |
| `RunEndings.MessageOf` | src/knot/core/loop.py:177-203 | a turn's message is the last one its stream ended with, or one that says why there is none |
| `EventTruth.PassTellsTruth` | src/knot/core/loop.py:150-257 | every event of a pass is so: executions and their ends are of the turn's calls and tell errors, a turn's end has its message and results, the run's end its outcome, messages and requests |
| `EventTruth.HeardIsTold` | src/knot/core/loop.py:439-481 | every result of a call heard from has its execution's end in the events |
| `Contexts.ContextGrows` | src/knot/core/tool_history.py:179-196 | a provider is shown every message that is no result, in order, but for failed or aborted turns that say nothing |
| `Contexts.NothingInvented` | src/knot/core/tool_history.py:73-157 | whatever repair adds is an error that says a call of the history was interrupted |
| `QueueConservation.QueuesConserved` | src/knot/core/loop.py:147-257 | at any point of any run: taken plus left is what was ever on each queue; taken is delivered or pending, in the order taken; the inputs that history, the new messages and the event stream gained are what was delivered, once each and in order; nothing is pending when a run has ended |
| `QueueConservation.AllTaken` | src/knot/core/loop.py:245-257 | what is delivered is made up of what was taken from the two queues |
| `QueueConservation.PassConserves` | src/knot/core/loop.py:150-257 | a pass takes from the front of one queue only, and leaves pending exactly what it took |
| `Passes.PassEnds` | src/knot/core/loop.py:150-251 | what ends in a pass's events is exactly what was pending, in order, and then replies only |
| `Passes.PassSame` | src/knot/core/loop.py:150-251 | a pass depends on history only through the context shown to the provider |
| `RunInvariants.TurnKeeps` | src/knot/core/loop.py:150-251 | every pass keeps memory and the transcript its events persist indistinguishable to a provider |
| `StreamToLoop.OneMessageIffOneTerminal` | src/knot/core/loop.py:177-203 | log and memory get the same assistant message exactly when the stream has at most one terminal |
| `StreamToLoop.CanonicalStreamEndsOnce` | src/knot/core/loop.py:262-294 | a canonicalized stream gives the loop exactly one message |
| `Persistence.PersistenceSubscriber.Notify` | src/knot/core/session/persistence.py:36-49 | a message end is one entry, a parked end one entry per request, any other event none |
| `Harness.AgentHarness.Run` | src/knot/core/harness.py:211-261 | repair, loop, notification and the repairs after a cancellation: memory, queues, pending requests and the log |
| `Harness.AgentHarness.FromSession` | src/knot/core/session/state.py:93-106 | a rebuilt harness has the log's messages and pending requests |
| `Harness.AgentHarness.ResolvePending` | src/knot/core/harness.py:180-196 | removes the first request with the id and keeps the others in order |
| `RestartTransparency.RunTransparent` | src/knot/core/session/state.py:93-106 | with the same messages on its queues, a harness rebuilt from the log sends the same requests, starts the same executors and yields the same events as one that kept its memory, and both agree with the log afterwards |
| `RestartTransparency.RestartsInvisible` | src/knot/core/session/state.py:84-106 | over any runs, with queues carried from run to run by a kept harness and emptied by a restart, restarting where nothing is left on a queue changes no log, queue, request, event or outcome |
| `QueuedRestarts.LeftoversShowIff` | src/knot/core/harness.py:275-288 | where something is left, the rebuilt harness's next run differs if and only if the run reads it: a steering message at its first pass, a follow-up when the rebuilt one completes |
| `QueuedRestarts.LostFollowUp` | src/knot/core/session/state.py:93-106 | a follow-up left by a failed run is put to the provider by the kept harness and never by a rebuilt one, all other assumptions holding |
| `RunParking.RunIsLawful` | src/knot/core/loop.py:212-247 | a run extends its log lawfully exactly unless cancelled after parking; parked, each last call is answered or awaited and exactly its requests are pending; otherwise nothing is |
| `RunParking.PendingIsLogged` | src/knot/core/harness.py:242-247 | what a harness reports as pending when a run is over is exactly what the run logged as requested: nothing, unless it waits |
| `Cycle.ParkedThenSettledIsReady` | src/knot/core/hitl/resume.py:584-592 | after a parked run, settling each pending request in any order makes the session ready |
| `Walkthrough.TheRunParks` | src/knot/core/loop.py:240-247 | the assumptions of the whole-run theorems hold for an ordinary run with a once-gated tool, and it parks on its one request |
| `Walkthrough.TheSessionGoesOn` | src/knot/core/hitl/resume.py:387-408 | that session has exactly the one request pending, is not ready, and is once it has been approved |
| `Policies.ResolvePolicy` | src/knot/core/hitl/policies.py:74-88 | the loop over keys, in any order, finds the exact key, else the longest suffix key, else the default |
| `Policies.BestKeyIs` | src/knot/core/hitl/policies.py:74-88 | the key behind the first fitting separator is the longest that applies |
| `Policies.BestKeyUnique` | src/knot/core/hitl/policies.py:74-88 | there is only one longest key |
| `Policies.ApprovedToolsIn` | src/knot/core/hitl/policies.py:46-71 | the names of tools some tool-approval request was approved for |
| `PhaseVerdicts.ApprovedToolsIff` | src/knot/core/hitl/policies.py:46-71 | on a lawful log a tool is approved exactly when a request to approve it stands there, and its approval behind it |
| `PhaseVerdicts.PoliciesDecide` | src/knot/core/hitl/policies.py:107-122 | never allows, always requires approval, once asks the log, and a custom policy's decision is the hook's |
| `PhaseVerdicts.NoLogDecides` | src/knot/core/hitl/policies.py:97-122 | without a session a once policy requires approval every time |
| `Policies.Hook` | src/knot/core/hitl/policies.py:107-122 | the hook decides by policy and the log as it stands |
| `GateSafety.LoopRespectsGates` | src/knot/core/loop.py:316-336 | in the loop an always-gated tool never executes, a once-gated one only with an approval in the log |
| `GateSafety.RunAsks` | src/knot/core/loop.py:316-346 | whatever a run persists, cancelled or not, its approval requests are only for calls its hook requires approval for |
| `Lives.GatesKept` | src/knot/core/hitl/policies.py:107-124 | over whole lives of any gated runs, cancelled at any point, operations and crashes, no approval request for a once-gated tool stands behind an approval of it |
| `Lives.GatedExecution` | src/knot/core/hitl/policies.py:107-124 | in any such life, an execution of a once-gated tool has its request and then its approval before it in the log, and an always-gated tool is not executed |
| `Lives.AtMostOnceInAnyLife` | src/knot/core/hitl/resume.py:355-408 | over lives with any runs of the loop at all, resolutions, repairs and crashes, at most one execution per approval request of a tool not marked idempotent |
| `Lives.OrderlyLifeKeeps` | src/knot/core/hitl/resume.py:387-408 | where no run begins with a request pending or is cancelled once parked, the log stays lawful and every execution justified |
| `Runtime.AgentRuntime.OnChildComplete` | src/knot/authoring/runtime.py:598-639 | settles the parent's park on the child's call, if there is one, in the parent's log alone; with what is `ChainSafety.CompletionSettlesPark` |
| `Runtime.AgentRuntime.ResumeReady` | src/knot/authoring/runtime.py:572-596 | refused unless ready and unclaimed; otherwise the session's log grows by its run and no other existing log changes |
| `Runtime.AgentRuntime.ResumeChain` | src/knot/authoring/runtime.py:641-665 | terminates, resumes a contiguous path upward from the leaf, leaves every session off it as it was, and stops below a session that parks again |
| `ChainSafety.CompletionSettlesPark` | src/knot/core/hitl/resume.py:185-214 | a completed child gives its parent one resolution and one matching result, and settles nothing else; the result is the text of the child's last message, an error with what went wrong if it failed or was aborted, and empty if that message is not the model's |
| `ChainSafety.LastChildMakesReady` | src/knot/authoring/runtime.py:598-639 | a partitioned parent becomes ready exactly with its last awaited child |
| `ChainSafety.AncestorSettledOnce` | src/knot/authoring/runtime.py:652-663 | each parked ancestor stepped into has exactly one resolution and one result before its run, and was parked on nothing else |
| `ChainSafety.AncestorTold` | src/knot/authoring/runtime.py:144-172 | and that result tells how the session below it ended |
| `ChainLogs.ChainLogsLawful` | src/knot/authoring/runtime.py:641-665 | along a climb each session's log is lawful before and behind its run, partitioned if it parked again, and its executions stay justified |
| `ChainLogs.AboveIsLawful` | src/knot/authoring/runtime.py:598-639 | so is the log of a session completed but not resumed |
| `ChainSafety.PathRises` | src/knot/authoring/runtime.py:652-663 | no session is resumed twice: each step is to an older one |
| `Fleet.PendingRequestsFleet` | src/knot/core/session/queries.py:59-146 | one row per selected request entry, with its session, agent, time, root and path, oldest first, then by session, then by number |
| `Fleet.OldestFirst` | src/knot/core/session/queries.py:126 | that order is by time, then by session in code point order, then by number |
| `Fleet.PrecedesIff` | src/knot/core/session/queries.py:126 | one string precedes another that extends it or has a greater character where they first differ |
| `Fleet.RowAgrees` | src/knot/core/session/queries.py:104-146 | a row's path ends with its own session and agent, begins with its root, which has no parent, and goes from parent to child |
| `Fleet.PathIsChain` | src/knot/core/session/queries.py:22-31 | on a forest the recursive relation is the ancestor chain, one session a depth |
| `Fleet.PathIsRootFirst` | src/knot/core/session/queries.py:104-119 | the path runs root first, and the root is the one ancestor without a parent |
| `Fleet.InboxIsUnion` | src/knot/core/session/queries.py:83-127 | on lawful logs the inbox lists exactly each session's pending requests of the kinds asked for |
| `Fleet.ListedOnce` | src/knot/core/session/queries.py:83-127 | each of them once |
| `Fleet.InboxAgreesIff` | src/knot/core/session/queries.py:97-103 | on any logs the two agree exactly where no unresolved request was superseded |
| `Stream.CanonicalizeProviderStream` | src/knot/providers/_stream.py:94-224 | the loop with its active index and flags yields the specified stream |
| `StreamReasons.EndsOfStream` | src/knot/providers/_stream.py:86-224 | over any source, the terminals are the source's, in order: done with tool use exactly when there are calls or the provider says so, else cut off exactly for its token-limit reasons, else stopped, and never failed; an error with the provider's text; an abort; or an error that the source had none |
| `StreamReasons.LoopSeesReason` | src/knot/core/loop.py:177-203 | the loop sees a failed or an aborted message exactly when its source ended so |
| `Stream.CopyReplayMetadata` | src/knot/providers/_stream.py:72-83 | the k-th thinking and text blocks get the metadata of the source's k-th |
| `StreamReplay.CanonicalStream` | src/knot/providers/_stream.py:94-224 | one start, blocks consecutive and not interleaved, each ended with the text of its deltas; max(1, terminals) terminals; replay rebuilds each done message up to signatures; snapshots show the replay so far |
| `StreamReplay.OneStartFirst` | src/knot/providers/_stream.py:112-121 | the start is the first event and the only one |
| `StreamReplay.ClosedBeforeDone` | src/knot/providers/_stream.py:173-215 | every block is closed before done or aborted |
| `StreamReplay.OwnMetadata` | src/knot/providers/_stream.py:186-189 | a message that streamed nothing keeps its own blocks |
| `StreamReplay.PassedThrough` | src/knot/providers/_stream.py:173-215 | a response that streamed nothing is one start and one done with its own blocks |
| `Wire.MessagesToChat` | src/knot/providers/openai_compatible.py:435-459 | the loop with its waiting images equals the specified conversion |
| `WireText.HistoryShown` | src/knot/providers/openai_compatible.py:435-533 | every message of any history is shown once, in order: with its text, a result under its call's id with its text if it has any, calls with their ids, names and arguments; all else says only that tool images are attached |
| `Wire.ContextConvertsAdjacent` | src/knot/providers/openai_compatible.py:435-459 | for any history, each assistant message with k calls is followed at once by k tool messages with the same ids in order |
| `Wire.ImagesConserved` | src/knot/providers/openai_compatible.py:435-497 | images of users and tools are all shown once and in order |
| `Truncation.TruncatedText` | src/knot/core/truncation.py:29-51 | over-limit text is the longest whole-character prefix that fits, then the marker; the full text and the other blocks are kept |
| `Truncation.FittingPrefixIsLongest` | src/knot/core/truncation.py:37-38 | no longer prefix of whole characters fits the budget |
| `Truncation.CutEncodingDecodes` | src/knot/core/truncation.py:38 | decoding cut UTF-8 while ignoring errors is that prefix |
| `Truncation.TruncationBound` | src/knot/core/truncation.py:29-39 | the text's size is at most the larger of limit and marker |
| `Truncation.EncodeRoundTrip` | src/knot/core/truncation.py:37-38 | decoding undoes encoding |
| `Truncation.TruncationStable` | src/knot/core/truncation.py:29-51 | truncating again at the same limit changes nothing once the marker fits |

## Left out

- Timestamps, usage, cost, diagnostics and response metadata: no property reads them; entries have the time they were appended, which the inbox sorts by.
- Sessions in SQLite, locks and JSON encoding: the store is a sequence of rows with an atomic append; the relational inbox query is modelled as loops over the rows.
- The HTTP server, SSE framing, the CLI, exports, providers' network code and retries, MCP connections, discovery, compilation and skills.
- The chat-completion stream parser and the other provider adapters: the canonicalizer takes any sequence of parsed events instead.
- The delegation cap and its semaphore: a run may create any children; a child's own run is a run like any other.
- `child_chain`, agent listings and payload scans: they mirror the ancestor query or are plain filters.
- Removing queued messages while a run is under way: during a run queues are pushed to and drained only.
- Listeners other than the persistence subscriber, and listeners that fail.
- A request payload's wrapper around a call's arguments: a payload is one opaque value, also when a call without a message is rebuilt from it.
- Python's `repr` quoting of a tool name in the revalidation message: it is put between single quotes.
