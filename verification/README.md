# A model of the gateway's turns and sessions

The gateway offers an OpenAI-compatible chat endpoint on top of local coding agents. One agent
turn may outlive the HTTP request that started it: when the agent calls a client's tool, the
response carries the call, the handler leaves, and a later request brings the result and goes on
consuming the same turn. Around that lies a session that is continued, resumed, reset, evicted
and reloaded, with a small persisted shadow. This project models those parts and proves what
they keep over every run.

| module | what it models |
|---|---|
| `ActiveTurns`, `TurnSystem` | the turn object: its critical sections as a class, and one turn as an interleaving of its runner, its MCP calls and its cancellers |
| `Sessions`, `SessionObjects` | the session's fields and decisions as functions, and the objects whose methods are proved to be those functions |
| `ToolLoop`, `Gateway`, `Runs` | the event loop; one session with all its actors as a step system with an inductive invariant; the theorems over all runs |
| `Admission`, `Answers` | what validation lets through; what a plain exchange answers, field by field, for everything the engine may do |
| `RoundTrip` | that the protocol gets somewhere: a call's whole way, and the user's next words, through reachable worlds |
| `Restart`, `Retelling`, `Drain`, `Locks` | restart against eviction, failed turns against the native session, running down after cancellation, deadlock freedom |
| `Collecting`, `StreamCollector` | the delta and full-text rules, the collector object and the wire grammar |
| `Json`, `Ordering`, `Toolsets`, `History`, `Spaces` | canonical forms, toolset identity, transcripts and prompts |
| `Routes`, `CommandLine` | model namespaces and effort routing, the command tokenizer |

## How to read it

The methods of the classes follow the source statement by statement and are proved equal to
functions on values (`View`). The step system `Gateway` is built from the same functions:
`DecideTool`, `PlainExchange`, `Cleared`, `Evicted`, `Launched`, `Unbound`, `Committed`, `React`,
`Acceptable`, `Resolved`. So a theorem of `Runs` is about what the methods do. Its actions are
atomic steps of one goroutine: each critical section, each channel operation, each firing of a
select is its own action, and any enabled one may come next. `World` is one session key; the
laws of `WithRecord` say that its store entry is touched alone.

Fields named as history of the run (`heard`, `successes`, `emitted`, `consumed`, `answers`,
`batches`) exist for the statements only; no decision reads them.

Assumptions:

- Ids from `randomID` are fresh and not empty; turn objects have distinct identities.
- `transcriptHash` and the tool hash are injective; they are terms (`DigestOf`, `HashOf`).
- The agent's `RunTurn` can always return once its context is cancelled. It may still emit before.
- Writing the store file succeeds. `Gateway` has a store path configured; the methods also cover none.
- A run ends at `Server.Close`; a `Crash` action may happen at any point and reloads the record.

Four expectations the code does not meet are stated as exact conditions, each with a run that
fails:

- A user turn after a dead facade is refused once, exactly when its transcript holds tool messages
  (`Restart.DeadFacadeRefusesOnce`; reached in `Restart.DeadFacadeIsReachable`).
- The streamed reasoning is the collected reasoning exactly when every fresh-session retry so far
  found none to forget (`StreamCollector.ReasoningIsStreamedExactly`; failing run in
  `StreamCollector.RetryForgetsReasoning`).
- A restart decides every admitted request like an eviction exactly when the session is recorded
  or has nothing to resume (`Restart.RestartAgainstEviction`). The tool path commits a resume id
  without saving it, and a session so left is reached in `Restart.UnsavedResumeIDIsReachable`.
- The native session has seen exactly the committed transcript if and only if every turn that
  failed on a native session did so on one replaced since (`Retelling.ToldExactly`): a failed turn
  commits nothing, and its request, repeated, sends the same slice again
  (`Restart.FailedTurnIsResent`; failing run in `Retelling.RetellingIsReachable`).

## Model

| member | source | states |
|---|---|---|
| `ActiveTurns.ActiveTurn.Resolve` | internal/gateway/active_turn.go:93-122 | a batch is accepted if and only if the turn is live and the batch is non-empty, all tool messages, duplicate-free and names exactly the delivered calls; then each named call leaves pending with its own content in its channel; a refused batch changes nothing |
| `ActiveTurns.ActiveTurn.CheckBatch` | internal/gateway/active_turn.go:99-106 | passes exactly the batches whose messages each name a delivered pending call, no id twice |
| `ActiveTurns.ActiveTurn.AllAnswered` | internal/gateway/active_turn.go:110-114 | passes exactly when no delivered call is left out |
| `ActiveTurns.ActiveTurn.Release` | internal/gateway/active_turn.go:116-120 | the released calls are exactly those named, each with its own message's content |
| `ActiveTurns.ActiveTurn.Send` | internal/gateway/active_turn.go:119 | the send is only made where the buffered channel has room |
| `ActiveTurns.ReleaseOne` | internal/gateway/active_turn.go:116-120 | one more message of a duplicate-free batch finds its call still pending and its channel empty, and extends the released part by exactly that call |
| `ActiveTurns.OnlyContentFor` | internal/gateway/active_turn.go:116-120 | in a duplicate-free batch the content released for an id is that of the only message naming it |
| `ActiveTurns.ActiveTurn.RegisterCall` | internal/gateway/active_turn.go:57-69 | a call is registered exactly when its arguments are a JSON object and the policy allows its name, with canonical arguments, undelivered, and an empty channel |
| `ActiveTurns.ActiveTurn.DeliverCall` | internal/gateway/active_turn.go:83-89 | marks exactly the named pending call delivered |
| `ActiveTurns.ActiveTurn.TryEmit` | internal/gateway/active_turn.go:40-47 | an event is queued only within the capacity of 64, refused only after cancellation, and waits only on a live turn with a full queue |
| `ActiveTurns.ActiveTurn.CloseDone` | internal/gateway/active_turn.go:49 | closes done once more and changes nothing else |
| `TurnSystem.ActionKeepsInv` | internal/gateway/active_turn.go:40-82 | every step of a runner, a call or a canceller keeps: pending calls and answered calls partition the calls, each channel is empty, holds its answer or was received, and emitted events are the consumed ones followed by the queue |
| `TurnSystem.ActionKeepsOutstanding` | internal/gateway/active_turn.go:57-82 | no such step changes which calls are delivered, or takes an undelivered call of a live turn out of the queue and out of emit |
| `TurnSystem.AcceptingKeepsInv` | internal/gateway/active_turn.go:93-122 | an accepted batch is the one result for the one delivered call; afterwards nothing is delivered and the turn is sound |
| `TurnSystem.DeliveringHead` | internal/gateway/tool_chat.go:137-148 | a call taken from the queue was never offered before, is pending, and becomes the only delivered one |
| `TurnSystem.HeadIsFresh` | internal/gateway/tool_chat.go:137-148 | the call at the head of the queue was neither offered nor answered before |
| `TurnSystem.ContentsWereOffered` | internal/gateway/tool_chat.go:141-148 | every answered id belongs to the response whose batch answered it |
| `TurnSystem.BatchOfOne` | internal/gateway/active_turn.go:93-114 | with one delivered call every acceptable batch is one message naming it |
| `ToolLoop.ConsumeEvents` | internal/gateway/tool_chat.go:129-165 | the event loop ends as the loop function says, collects what it says, and delivers the offered call and no other |
| `ToolLoop.LoopEndsExactly` | internal/gateway/tool_chat.go:129-165 | the loop goes on exactly over accepted messages; the first other arrival decides: an agent end without error completes it if no call is required, a call that tool_choice allows is offered, and everything else aborts it: client gone, turn cancelled, failed message, foreign model, forbidden call, failed agent, missing required call; what is answered is what the messages before add up to |
| `Runs.OnlySoundTurnsCommit` | internal/gateway/tool_chat.go:149-187 | in every run a tool-path success is committed from a turn that has consumed no failure; without a call the last event consumed is the end of the agent without error, with a call that call was consumed |
| `ToolLoop.LoopKeepsPolicy` | internal/gateway/tool_chat.go:141-155 | the loop offers at most one call, only one the request's tool_choice allows, and completes without a call only when none is required |
| `ToolLoop.CollectorFollowsReaction` | internal/gateway/tool_chat.go:137-140 | the collector of a tool exchange gathers what the loop's reaction gathers and fails exactly where it fails |
| `SessionObjects.Server.AdmitToolChat` | internal/gateway/tool_chat.go:16-57 | the handler decides as `DecideTool`, clears the session and store exactly where that says so, and resumes the turn exactly for an acceptable batch |
| `SessionObjects.Server.AdmitResult` | internal/gateway/tool_chat.go:18-33 | a result request is refused, refused with the session cleared, or handed to the turn, exactly as `DecideTool` says |
| `SessionObjects.Server.AdmitUser` | internal/gateway/tool_chat.go:34-57 | a user request waits, is refused or may launch, exactly as `DecideTool` says |
| `Sessions.UserDecision` | internal/gateway/tool_chat.go:34-57 | in full, over directory, tools and remembered transcript: the same session with an active turn waits; with a live process and no dead facade it launches exactly the new messages and clears nothing, unless they hold results or cannot be prompted; anything else starts over with the whole transcript |
| `Sessions.ResultDecision` | internal/gateway/tool_chat.go:16-33 | in full: an active turn of another directory or toolset is cleared, the same session hands over exactly the new messages, anything else is refused |
| `SessionObjects.Server.NeedsTools` | internal/gateway/server.go:455-458 | the tool path serves exactly the requests with tools, with a facade or an active turn in the session, or with a result last |
| `SessionObjects.Server.LaunchTurn` | internal/gateway/tool_chat.go:67-105 | a turn is installed, bound and active, or the session is as before (no facade) or fully cleared (engine refused) |
| `SessionObjects.Server.EndToolChat` | internal/gateway/tool_chat.go:156-196 | a success is answered, committed, never persisted; a failed or cancelled exchange clears the session; the turn stays alive only after an offered call |
| `SessionObjects.Server.FinishTurn` | internal/gateway/tool_chat.go:156-162 | session and facade drop the completed turn together, and it is cancelled |
| `SessionObjects.Server.CommitTool` | internal/gateway/tool_chat.go:183-196 | history, count, hash and resume id are committed together, the dedup flags return to the turn, and the record is deleted |
| `SessionObjects.SessionState.Commit` | internal/gateway/server.go:564-569 | history, count and hash describe the same transcript; a reported resume id replaces the old one, an empty one keeps it |
| `SessionObjects.Server.ClearSession` | internal/gateway/server.go:587-599 | everything but the directory is forgotten, the active turn is cancelled, and exactly this key's record is gone |
| `SessionObjects.Server.HandleChat` | internal/gateway/server.go:459-584 | for every engine behaviour session and reply are those of `PlainExchange`, and so is the store if it has a path; one without a path keeps what it has |
| `Answers.AnsweredExactly` | internal/gateway/server.go:459-579 | for every engine behaviour: a plain exchange is answered if and only if a run began and it, or the retry of a lost one, is done; the answer is the text of that run; the native session is new exactly if the session was reset or lost, and was sent the whole transcript or what it lacked; history, process, directory, resume id and record are given |
| `Answers.UnansweredExactly` | internal/gateway/server.go:469-562 | without an answer the session is forgotten if and only if it was reset or its native session is lost, otherwise its shadow and record stay; and exactly when a process is left |
| `Answers.RunNative` | internal/gateway/server.go:529-533 | a run is done exactly when the agent completes and every message is accepted; its text and resume id are those of the live messages; otherwise its error decides |
| `SessionObjects.Server.ServeDelta` | internal/gateway/server.go:469-517 | from the prompt on: an agent is started if none runs, and anew with the whole transcript if its native session is lost |
| `SessionObjects.Server.RunPlainTurn` | internal/gateway/server.go:529-562 | the run with its one retry on a lost native session, and the failure that keeps the shadow |
| `SessionObjects.Server.CommitPlain` | internal/gateway/server.go:564-584 | a plain success is committed and, with a resume id and a store path, saved |
| `SessionObjects.WithRecordLaws` | internal/gateway/session_store.go:57-88 | reading an entry after writing it gives it back, the last write wins, and writing back what was read changes nothing |
| `SessionObjects.StoreLaws` | internal/gateway/session_store.go:67-88 | the same through a store with a path; one without a path keeps what it has |
| `Sessions.ServingReadsNoRecord` | internal/gateway/server.go:469-584 | session and reply of a plain exchange never depend on the stored record |
| `SessionObjects.SessionState.MatchesPrefix` | internal/gateway/registry.go:55-63 | the live comparison or the count and hash comparison, as `MatchesHistoryPrefix` |
| `SessionObjects.SessionState.Stop` | internal/gateway/registry.go:144-158 | turn and facade are cancelled and dropped with the process, the transcript fields stay; the wait for the runner is in `Drain` |
| `SessionObjects.SessionState.Evict` | internal/gateway/registry.go:104-115 | a session with a facade or a turn is forgotten, a plain one keeps every field but its process |
| `SessionObjects.SessionStore.constructor` | internal/gateway/session_store.go:30-55 | loading keeps exactly the records with a key, a resume id, an absolute directory, a count and a hash |
| `Restart.LoadedIsResumable` | internal/gateway/session_store.go:49-53 | a record the filter drops could be resumed for no request; a kept one that counts its transcript is resumed for the next words |
| `SessionObjects.SessionStore.Put` | internal/gateway/session_store.go:67-75 | with a path exactly this key's record is replaced, without one nothing happens |
| `SessionObjects.SessionStore.Delete` | internal/gateway/session_store.go:77-88 | with a path exactly this key's record is gone, without one nothing happens |
| `SessionObjects.Registry.constructor` | internal/gateway/registry.go:36-46 | one process-less session for each record, with its fields, and no other |
| `SessionObjects.Registry.Lock` | internal/gateway/registry.go:74-84 | the key's session, created empty only if it was missing; other sessions stay |
| `SessionObjects.Registry.EvictIdle` | internal/gateway/registry.go:86-117 | exactly the sessions that are not locked and were last used longer ago than the ttl are evicted; every other is untouched, and so is the store; without a ttl nothing happens |
| `SessionObjects.Registry.CollectStale` | internal/gateway/registry.go:90-103 | collects exactly the unlocked sessions last used longer ago than the ttl |
| `SessionObjects.Registry.EvictAll` | internal/gateway/registry.go:104-116 | evicts exactly the collected sessions |
| `SessionObjects.McpFacade.RouteCall` | internal/gateway/mcp_facade.go:84-118 | a call reaches the bound turn if and only if its name is served, and is registered if and only if also its name is allowed and its arguments are an object; absent arguments count as an empty one |
| `SessionObjects.McpFacade.Bind` | internal/gateway/mcp_facade.go:54 | the facade follows the given turn and stays alive as it was |
| `SessionObjects.McpFacade.Abort` | internal/gateway/mcp_facade.go:55-61 | cancels exactly the bound turn |
| `SessionObjects.McpFacade.Close` | internal/gateway/mcp_facade.go:62-66 | the facade is dead and its bound turn cancelled |
| `Sessions.HashAgreesWithPrefix` | internal/gateway/registry.go:48-69 | for a session that remembers its transcript, the live prefix test and the count and hash test are the same test |
| `Sessions.DeltaCompletesHeard` | internal/gateway/server.go:459-468 | a session goes on exactly in its directory, with its transcript repeated, and with a process or a resume id; the slice to send then completes what the native session has heard, and is otherwise the whole request |
| `Sessions.RunIsSound` | internal/gateway/server.go:529-579 | however a run and its retry end, session, record and transcript stay sound |
| `Sessions.PlainExchangeIsSound` | internal/gateway/server.go:459-584 | for every engine behaviour a plain exchange keeps shape, coherence and transcript, and a success leaves exactly request and answer in the native session, with a record whenever it can be resumed |
| `Gateway.TurnStepKeepsInv` | internal/gateway/active_turn.go:40-82 | steps of goroutines without the session lock keep the invariant, wherever the handler is |
| `Gateway.ToolRequestKeepsInv` | internal/gateway/tool_chat.go:16-57 | admitting, refusing or resuming a request keeps the invariant |
| `Gateway.InstallKeepsInv` | internal/gateway/tool_chat.go:67-106 | installing a turn keeps the invariant: a new process has heard nothing and serves exactly the request's tools |
| `Gateway.StartFailsKeepsInv` | internal/gateway/tool_chat.go:97-104 | a refused start leaves a closed, cancelled turn, which calls of the served tools may still enter, and a cleared session |
| `Gateway.ConsumeNextKeepsInv` | internal/gateway/tool_chat.go:137-164 | consuming an event of any kind keeps the invariant |
| `Gateway.CheckCauseKeepsInv` | internal/gateway/tool_chat.go:166-182 | a turn cancelled between delivery and commit is cleared, never committed |
| `Gateway.CommitKeepsInv` | internal/gateway/tool_chat.go:183-196 | committing leaves a suspended or finished turn the next request can continue |
| `Gateway.FinishClearKeepsInv` | internal/gateway/registry.go:144-158 | clearing and evicting keep the invariant once the runner has left |
| `Gateway.WatchKeepsInv` | internal/gateway/tool_chat.go:109-119 | a watcher keeps the invariant, whichever turn it watches |
| `Gateway.CrashKeepsInv` | internal/gateway/registry.go:36-46 | what a restart reloads is a sound session |
| `Gateway.PlainRequestKeepsInv` | internal/gateway/server.go:455-584 | a plain request keeps the invariant |
| `Runs.RunKeepsInv` | internal/gateway/tool_chat.go:15-202 | the invariant holds in every reachable world |
| `Runs.RestingInvariant` | internal/gateway/tool_chat.go:141-187 | lock free and turn alive: one pending call is delivered, it is the only tool call of the last message of the history, and every other pending call is undelivered and queued or inside emit |
| `Runs.TextIsItsOwnResult` | internal/gateway/active_turn.go:73-76 | a call that returned a text returned the content of the only tool message that ever named it, alone in the accepted batch answering the response that offered this very call |
| `Runs.CallReturnsOnce` | internal/gateway/active_turn.go:57-82 | a returned call stays as it returned in every later world of the run |
| `Runs.SendsNeverBlock` | internal/gateway/active_turn.go:116-120 | in every reachable world each send of an acceptable batch finds its channel open and empty |
| `Runs.ToolChoiceIsKept` | internal/gateway/tool_chat.go:141-155 | over whole runs, calls queued under an older policy included: a success under none has no call, under required one, under named one of that name; and every returned answer is a valid message |
| `Runs.TranscriptIsConserved` | internal/gateway/tool_chat.go:183-187 | after every successful exchange, on either path, the history is request and answer, and is exactly what the committed exchanges of the current native session were sent and answered |
| `Runs.PlainIsToolFree` | internal/gateway/server.go:455-458 | in every run the plain path has no tools asked for or served, no active turn, no result |
| `Retelling.ToldExactly` | internal/gateway/server.go:547-562 | in every reachable world the native session has seen exactly the committed transcript if and only if every failed turn was on a native session replaced since |
| `Retelling.ToldIsHeardAndWasted` | internal/gateway/server.go:547-562 | it has seen as many messages as are committed and as failed turns on it were handed |
| `Retelling.RetellingIsReachable` | internal/gateway/server.go:547-584 | for every first plain request: answered, then a failed turn, then the same request answered, and the native session has seen the words of the user twice |
| `Runs.ServedToolsAreRequested` | internal/gateway/tool_chat.go:67-105 | a request in the event loop runs on a process and a facade serving exactly its tools, under its own policy |
| `Runs.RecordMirrorsSession` | internal/gateway/session_store.go:67-88 | in every reachable world a record equals the session's fields, would be loaded again, and excludes a turn and a facade, so eviction may forget a tool session without the store |
| `Runs.SegmentsAreTheWhole` | internal/gateway/tool_chat.go:122-140 | consumed then queued events are the emitted ones in order, and all answers with the open segment are what one collector makes of everything consumed |
| `Runs.ResultAcceptedExactly` | internal/gateway/tool_chat.go:16-33 | a result request is accepted if and only if it is the history plus the one result asked for, with the same directory and tools, on a live turn; a refused one changes nothing unless directory or tools differ, then the session is cleared |
| `Runs.OneTurnAtATime` | internal/gateway/tool_chat.go:76-97 | a turn is installed only when none is active and all older ones are cancelled, never for a result request; other steps create none |
| `Runs.PromptsAreLaunches` | internal/gateway/tool_chat.go:34-106 | in every run, the requests decided for launch are the launches that became a turn, failed or were lost in a crash, and the one under way; none carries a result; short of a crash the turns are these prompts |
| `Runs.LaunchHasItsRequest` | internal/gateway/tool_chat.go:39-106 | what a handler is bound to launch is the request and slice of one earlier decision, with no other decision or launch between |
| `Runs.OldTurnsStayOld` | internal/gateway/tool_chat.go:82-119 | a turn that is not active never becomes active again |
| `Runs.OldTurnsAreInert` | internal/gateway/tool_chat.go:107-119 | once a turn is no longer active it is cancelled for good, and nothing its goroutines and its watcher do at any later time changes the session, its record or another turn |
| `Runs.EchoMatchesHistory` | internal/gateway/tool_chat.go:185 | after any success, a client that repeats its messages and the returned answer matches the stored history, live or by hash |
| `RoundTrip.CallCanComplete` | internal/gateway/tool_chat.go:15-202 | for every first request with tools, every valid call its tool_choice allows and every result text, a run exists in which the call is offered, the session rests, the result is accepted, the call returns that text on the same turn, and the exchange completes on the whole transcript |
| `RoundTrip.NextWordsContinue` | internal/gateway/tool_chat.go:34-106 | after any completed call, a run continues: the next words are launched on the same process with its live facade, which is sent nothing else, and the turn completes on the whole transcript |
| `RoundTrip.Suspending` | internal/gateway/tool_chat.go:34-187 | such a request can reach the resting state with exactly this call pending, delivered and waiting |
| `RoundTrip.Resuming` | internal/gateway/tool_chat.go:18-33 | from there the result request is accepted under any tool_choice, and the waiting call returns its content |
| `RoundTrip.ResultIsAdmitted` | internal/gateway/history.go:12-52 | appending the answer and its result to a well-formed request gives a well-formed request |
| `Restart.RestartIsEvictionExactly` | internal/gateway/registry.go:36-117 | on either path, crash and reload decide every admitted request as idle eviction does, if and only if the session is recorded or has nothing to resume |
| `Restart.RestartAgainstEviction` | internal/gateway/registry.go:36-117 | the same condition, in every reachable world |
| `Restart.UnsavedResumeIDIsReachable` | internal/gateway/tool_chat.go:189-196 | for every pair of first requests, with tools and then without, a run reaches a resume id without a record, and the next words of the user are resumed after eviction and start over after a restart |
| `Restart.RestartRefinesEviction` | internal/gateway/registry.go:36-117 | while the last success took the plain path: eviction, crash and reload, and a failed turn lead to the same path and decision for every admitted request |
| `Restart.FailedTurnKeepsShadow` | internal/gateway/server.go:547-562 | a failed turn that reset nothing loses the process and the live history and keeps count, hash, resume id and record |
| `Restart.FailedTurnIsResent` | internal/gateway/server.go:547-562 | the failed request, repeated, sends the same slice to the resumed native session, or the whole transcript to a new one if there is no resume id |
| `Restart.DeadFacadeRefusesOnce` | internal/gateway/tool_chat.go:39-52 | after the facade died, a user turn is refused exactly when its transcript holds tool messages, and its retry is launched |
| `Restart.DeadFacadeIsReachable` | internal/gateway/tool_chat.go:39-52 | after any completed call, a run kills the facade, refuses the next words of the user and clears the session, and launches them when they are sent again |
| `Drain.StepDecreases` | internal/gateway/active_turn.go:40-82 | each step of a goroutine inside a turn decreases the measure |
| `Drain.StepIsPaid` | internal/gateway/active_turn.go:40-82 | any step at all decreases it, up to what a new call, agent message or cancellation adds |
| `Drain.NobodyIsStuck` | internal/gateway/active_turn.go:40-82 | in a cancelled turn somebody can step until everybody is out |
| `Drain.CancellationDrains` | internal/gateway/active_turn.go:40-82 | every continuation of a cancelled turn is bounded by the measure and the newcomers, and ends with all calls returned, the runner out and done closed once |
| `Drain.DoneClosesOnce` | internal/gateway/tool_chat.go:97-106 | in every reachable world done is closed at most once, exactly when the runner is out or never ran |
| `Drain.StopEnds` | internal/gateway/registry.go:144-158 | while stop waits, the awaited turn is cancelled, its runner can take a step towards its end, and no other goroutine takes it back; at the end the wait is over |
| `Drain.LockCanBeFreed` | internal/gateway/tool_chat.go:121-202 | from every reachable world a bounded continuation without a new request frees the session lock |
| `Drain.WatcherClears` | internal/gateway/tool_chat.go:107-119 | a turn cancelled while its session rests is cleaned up without a request: the watcher may act, and a bounded continuation ends with the session cleared and its record gone |
| `Drain.JanitorEvicts` | internal/gateway/registry.go:86-117 | from rest the janitor may evict, and a bounded continuation ends with the session evicted and its record untouched |
| `Locks.StepKeepsSound` | internal/gateway/registry.go:74-117 | lock steps keep the discipline and mutual exclusion |
| `Locks.SpawnKeepsSound` | internal/gateway/tool_chat.go:106-119 | so does starting a goroutine |
| `Locks.WaitsRise` | internal/gateway/registry.go:71-117 | along any chain of waits the awaited locks rise: no cycle of waits |
| `Locks.DeadlockFree` | internal/gateway/registry.go:71-132 | while a goroutine is unfinished, one can step |
| `Locks.GoroutinesAreDisciplined` | internal/gateway/registry.go:74-132 | handlers with their heartbeat, watchers, calls, runners, the janitor and shutdown keep the lock order registry, session, then store, turn, facade or a wait for a runner or heartbeat, then wire |
| `Locks.HeartbeatIsDisciplined` | internal/gateway/stream.go:145-184 | the heartbeat that a handler waits for takes only the wire lock |
| `Locks.JanitorIsDisciplined` | internal/gateway/registry.go:86-117 | the janitor only tries session locks under the registry lock and stops sessions after releasing it |
| `Collecting.SegmentedEqualsWhole` | internal/gateway/stream.go:62-138 | any split of a turn's output over collectors with carried flags gives, joined, what one collector makes of the whole |
| `Collecting.WellFormedOutputIsEachBlockOnce` | internal/gateway/stream.go:72-99 | deltas followed by their full text, or a full text alone: each block is gathered once, text and reasoning apart |
| `Collecting.DeltasAreGathered` | internal/gateway/stream.go:72-91 | deltas are gathered in order and leave their flag up |
| `Collecting.TextAndReasoningAreApart` | internal/gateway/stream.go:72-99 | however interleaved, the text depends on the text messages alone and the reasoning on its own |
| `StreamCollector.Collector.Handle` | internal/gateway/stream.go:62-110 | one message has the effect of `Handled` on text, flags, usage, resume id and wire; it fails exactly on an agent error or on a named model outside a non-empty list |
| `StreamCollector.GathersTheLive` | internal/gateway/stream.go:62-99 | accepted messages are gathered as Collecting says, of a resumed session only those after its first initialisation, with the last reported resume id |
| `StreamCollector.NewCollectorGathers` | internal/gateway/stream.go:46-48 | a new collector starts from nothing and skips a replay exactly if its session was resumed |
| `StreamCollector.Collector.AppendText` | internal/gateway/stream.go:121-126 | text is always gathered, and streamed unless it is empty |
| `StreamCollector.Collector.AppendReasoning` | internal/gateway/stream.go:130-138 | reasoning is gathered and streamed, never into the text |
| `StreamCollector.Collector.Beat` | internal/gateway/stream.go:177-184 | a heartbeat is written only on an open stream silent for the interval |
| `StreamCollector.BeatsAfterSilence` | internal/gateway/stream.go:177-184 | in every run a tick writes one heartbeat if and only if the stream is open and its last chunk is at least the interval old |
| `StreamCollector.Collector.FinishStream` | internal/gateway/stream.go:217-235 | an open stream gets tool calls if any, one finish with the usage, one end mark; a closed one nothing |
| `StreamCollector.FinishWrites` | internal/gateway/stream.go:217-235 | in every run a finish closes the open stream with exactly the calls offered, the reason that goes with them, the last usage and the end mark |
| `StreamCollector.Collector.StreamError` | internal/gateway/stream.go:237-249 | a started open stream gets one error and one end mark; otherwise nothing |
| `StreamCollector.UnstreamedIsSilent` | internal/gateway/stream.go:121-138 | a response that is not streamed writes no chunk |
| `StreamCollector.WireGrammar` | internal/gateway/stream.go:50-273 | under every interleaving with the heartbeat: role, then content, reasoning and heartbeats whose contents spell the text (a retry included), then one finish or one error, then one end mark |
| `StreamCollector.ClosedStaysAsItIs` | internal/gateway/stream.go:257-260 | a closed stream never changes |
| `StreamCollector.HeartbeatIsSilent` | internal/gateway/stream.go:177-184 | a heartbeat enters neither text nor reasoning and commutes with gathering |
| `StreamCollector.StreamedReasoning` | internal/gateway/stream.go:128-194 | in every run the reasoning on an open wire is what the retries have discarded, then what is collected now |
| `StreamCollector.ReasoningIsStreamedExactly` | internal/gateway/stream.go:128-194 | they agree if and only if every retry so far found no reasoning |
| `StreamCollector.RetryStartsAnew` | internal/gateway/stream.go:186-194 | after a retry the collector is a new one of an unresumed session, on the same wire |
| `StreamCollector.RetryForgetsReasoning` | internal/gateway/stream.go:186-194 | the failing run: a resumed session that thinks aloud and is retried shows reasoning it no longer has |
| `StreamCollector.UsageIsTheLast` | internal/gateway/stream.go:100-105 | the usage kept, and written with the finish, is that of the last result message since the last retry |
| `Json.CanonKeepsMeaning` | internal/gateway/tools.go:36-49 | the canonical form is canonical and means the same value |
| `Json.CanonicalIsUnique` | internal/gateway/tools.go:36-49 | a value has one canonical form |
| `Json.CanonicalFormIsIdentity` | internal/gateway/tools.go:36-49 | two texts have the same canonical form if and only if they mean the same value, number literals kept |
| `Json.CanonIsIdempotent` | internal/gateway/tools.go:38-49 | canonicalising twice is canonicalising once |
| `Json.KeyOrderIsIrrelevant` | internal/gateway/tools.go:36-37 | exchanging members with different keys changes nothing |
| `Ordering.BeforeExactly` | internal/gateway/tools.go:36-37 | keys and names are ordered as bytes: after a common part the first ends or has the smaller character |
| `Toolsets.NormalizeTools` | internal/gateway/tools.go:50-105 | the loop, the sort and the choice parsing give the normalised list, hash and policy; they succeed exactly for valid tools and a tool_choice that can be kept, and the policy is none, required, named or auto exactly as chosen |
| `Toolsets.ChoiceAllows` | internal/gateway/tools.go:81-103 | an accepted tool_choice lets a name through exactly if it is not none and, if it names a function, this is it |
| `Toolsets.ToolIsValidExactly` | internal/gateway/tools.go:55-71 | a tool is accepted exactly if it is a function with a valid name whose schema means an object in which whatever spells type in any case is text or null, and the last of them is object |
| `Toolsets.NoParametersAreValid` | internal/gateway/tools.go:59-61 | absent parameters are accepted |
| `Toolsets.HashIsIdentity` | internal/gateway/tools.go:74-80 | two accepted toolsets have equal hashes if and only if they mean the same tools |
| `Toolsets.ToolOrderIsIrrelevant` | internal/gateway/tools.go:74-80 | any permutation of the tools gives the same list, hash and policy, or the same refusal |
| `Toolsets.SortedIsUnique` | internal/gateway/tools.go:74 | a list sorted by distinct names is determined by its elements, whatever sort made it |
| `Toolsets.SortSorts` | internal/gateway/tools.go:74 | sorting is a strictly increasing permutation |
| `History.NormalizeMessages` | internal/gateway/history.go:12-52 | accepts exactly the valid message lists and normalises each message in place |
| `History.NormalisedFields` | internal/gateway/history.go:12-52 | every field of a normalised message in terms of the one sent; only function calls, each with a valid id, name and the same arguments |
| `History.NormalisedExactly` | internal/gateway/history.go:12-52 | the normalised lists are exactly the non-empty lists of well-formed messages, and each is normalised from its own echo: normalising is idempotent |
| `History.PartsJoinInOrder` | internal/gateway/history.go:54-77 | text parts are joined in order, and any other part refuses the whole |
| `Admission.ValidatedIsAdmitted` | internal/gateway/server.go:402-445 | accepted messages, tools and tool_choice with an absolute directory make an admitted request |
| `History.NormalizeCalls` | internal/gateway/history.go:29-41 | accepts exactly the calls with distinct ids, valid names and object arguments, and canonicalises the arguments |
| `History.HasPrefix` | internal/gateway/history.go:79-89 | is the prefix order |
| `History.EchoIsNormal` | internal/gateway/history.go:12-52 | an answer the gateway returns is accepted and normalises to itself |
| `History.EchoContinues` | internal/gateway/history.go:12-52 | repeating messages and answer normalises to the stored history, which stays a prefix of anything that follows |
| `History.TurnPrompt` | internal/gateway/history.go:101-148 | the three scans accept exactly the slices in which a user spoke last and, if alone, said something; tool and system messages are left out of the prompt |
| `History.PromptableExactly` | internal/gateway/history.go:101-137 | a slice can be prompted if and only if it ends with words of the user and system messages, the words not blank unless somebody spoke before |
| `History.SpokenIsFiltered` | internal/gateway/history.go:113-118 | a prompt keeps, in order, exactly what users and assistants said |
| `Spaces.TrimmedAway` | internal/gateway/history.go:133 | trimming leaves nothing exactly of blank text |
| `Spaces.TrimmedExactly` | internal/gateway/server.go:265 | trimming takes white space from both ends until neither holds any, and nothing else |
| `Routes.SplitJoinRoundTrip` | internal/gateway/server.go:311-324 | an id splits into base and effort if and only if it is their join and both are proper |
| `Routes.GroupedBracketRoutes` | internal/gateway/server.go:262-309 | the grouping loop computes `Group` |
| `Routes.UpdateVariants` | internal/gateway/server.go:293-305 | a listed effort is updated in place, a new one appended |
| `Routes.GroupingIsSound` | internal/gateway/server.go:262-309 | for every catalogue: keys are exactly the named bases, every variant's id is rebuilt from base and effort, and the efforts are those listed, in order of first occurrence |
| `Routes.RouteIsMadeFrom` | internal/gateway/server.go:274-292 | all other fields of a route come from one model: the first with an effort, or, if none has one, the last |
| `Routes.DisplayNameExactly` | internal/gateway/server.go:276-287 | the name shown is that of the model without its effort, or else the base id, after the name of the engine |
| `Routes.EffortsAreTheListed` | internal/gateway/server.go:293-305 | that order holds each listed effort exactly once |
| `Routes.CatalogueOrderIsIrrelevant` | internal/gateway/server.go:262-309 | permuting or repeating the catalogue keeps keys and effort sets |
| `Routes.SelectedEffortIsListed` | internal/gateway/server.go:355-374 | an effort can be selected if and only if the catalogue lists it, and selects the id of the catalogue and the two ids an agent may report; no effort picks the first listed |
| `Routes.NoEffortToSelect` | internal/gateway/server.go:370-373 | a route without efforts is served as it is and refuses every requested one |
| `Routes.ReportedModelIsKnown` | internal/gateway/stream.go:64-66 | on a selected route exactly the base id and the id of the effort may be reported, on a plain one exactly the id and aliases of the last model naming it |
| `Routes.Catalogue.Refresh` | internal/gateway/server.go:228-240 | an engine's routes are replaced by its fresh ones |
| `Routes.RefreshIsLocal` | internal/gateway/server.go:231-240 | with slash-free engine ids no other engine's route is lost or overwritten, and no stale route of this engine stays |
| `Routes.ValidIsSlashFree` | internal/gateway/acp_backend.go:33-44 | an engine id is accepted exactly if it is not empty and holds no slash, colon or white space of the four kinds |
| `Routes.ResolvedByName` | internal/gateway/server.go:326-353 | a model id is served by the engine that is the whole id or stands before its first slash, with what follows as the backend model |
| `Routes.ResolvedExactly` | internal/gateway/server.go:326-353 | in full: the engine by name, else the discovered route unchanged, else any model passed through to the engine before the slash, and nothing else |
| `CommandLine.SplitCommandLine` | internal/gateway/acp_backend.go:182-236 | the tokenizer loop computes `Split` |
| `CommandLine.SplitExactly` | internal/gateway/acp_backend.go:182-236 | the tokenizer accepts exactly the lines written by white space, bare and escaped characters and quoted stretches, and its tokens are what those say |
| `CommandLine.SplitDistributes` | internal/gateway/acp_backend.go:182-236 | two command lines that both parse, joined by a space, split into the tokens of both |
| `CommandLine.PrintRoundTrips` | internal/gateway/acp_backend.go:182-236 | escaping every character, with "" for the empty token, is undone for all token lists |

## Left out

- HTTP and SSE bytes, status codes, flushing, authentication, error texts and `turnErr`: a response is a value or a list of chunks, an error only its occurrence.
- The agent engine, its processes and the MCP bridge: their behaviour is a parameter (`Engine`, `Arrival`) or a free action.
- Clocks: timeouts are the free `Cancel` and `Watch` actions; `lastAccess` and heartbeat times are integers in the class methods, and in `Gateway` the janitor may evict whenever the lock is free.
- Several session keys at once in `Gateway`: one key is modelled, `WithRecordLaws` and `Registry.EvictAll` say that keys do not interfere; `Locks` covers all keys.
- `registry.close` beyond its lock order, and anything after `Server.Close`.
- `SessionObjects.SessionState.Stop`: does not wait for the runner's done channel, because the methods run alone; the wait is in `Gateway`, `Drain` and `Locks`.
- `SessionObjects.Registry.Lock`: does not wait for the session's mutex or hold it, for the same reason.
- Interleaving inside the handler methods of `SessionObjects`: they run alone under the session lock; the interleavings are those of `Gateway`. Waiting for a lock or for `done` is modelled in `Gateway`, `Drain` and `Locks`, not in the methods.
- The shared `pendingCall` pointer: an entry and its channel are kept under the call's id, because the channel outlives the entry.
- Reasoning and usage numbers in `Gateway`; they are covered by `Collecting` and `StreamCollector`.
- `writeCompletion`: it only encodes the fields a stream carries.
- JSON lexing, UTF-8 repair, HTML escaping, and Go's merging of repeated keys when decoding `tool_choice` and message parts: decoded values are the starting point.
- Lower-casing and trimming of role names: a role is one of five or unsupported.
- `Toolsets.NormalizeTools`: the sort is an insertion sort on values; `SortedIsUnique` says that any sort gives this list.
- `History.TurnPrompt`: the prompt's wording is not rendered, the result is the messages that go into it.
- `ParseACPBackend`, `parseStructuredACPBackend` and `ParseACPBackends`: outer quotes are unwrapped before tokenizing, so the round trip is that of `splitCommandLine` alone.
- Store files, symbolic links, allowed roots, flags, environment and logging: they depend on the operating system.
