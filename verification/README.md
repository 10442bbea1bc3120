# A verified model of Loomterm's durable execution runtime

Loomterm runs commands on behalf of people and agents. A daemon keeps one row and one event log per
execution, a supervisor process owns each command's process group, and clients read the log back
page by page or through a live subscription. This project models that runtime in Dafny and proves
what the repository's documentation promises about it: output that is captured without loss, cursors
that reconnect without gaps or duplicates, cancellation that reaches the supervisor, and a shutdown
after which nothing is queued or starts running.

| module | what it models |
|---|---|
| `Model` | records, errors and events shared by all modules |
| `EventLog` | what each store command does to the execution tables, and the log invariant |
| `Retention`, `Paging` | which executions pruning removes; what a page of output holds |
| `Database` | the store's operations on executions, in place, proved against the three modules above |
| `Capture`, `CaptureWriter` | the byte limit, the batching task and its barriers |
| `Pipeline` | one execution's output from the pipe readers to its log, interleaved with everything else |
| `McpPaging` | the second pager, of the MCP tools |
| `Subscription` | durable replay merged with a broadcast that may lag, lose, repeat or reorder; the client's check |
| `Supervisor` | the select loop that escalates from SIGTERM to SIGKILL, the wait for the output pipes behind it, and the control pipe |
| `Lifecycle` | tasks, cancel requests and one drain, interleaved step by step |
| `LifecycleSafety`, `LifecycleGuarantees` | its invariant, one execution at a time, and what follows over whole runs |
| `LifecycleRuns` | runs that reach the states those guarantees make exceptions for |
| `Utf8`, `Redaction` | recording terminal output as text; redacting it across event boundaries |
| `AgentTurns`, `Stats`, `Hooks` | agent turn bookkeeping, statistics, the merge of hook settings |

State that the program changes in place is a class whose methods are proved against functions on
values; concurrent protocols are step functions, and their theorems quantify over every sequence of
steps. A step that is not enabled changes nothing. Clock readings, generated ids, the kernel's
answers and storage failures are parameters. `dafny verify dfyconfig.toml` checks everything.

Where the code does less than its documentation or its shape suggests, the model follows the code,
gives a run in which it happens and says exactly when:

- Once a command's leader has exited uncancelled, the select loop is over: no cancel and no loss of
  the daemon signals the rest of its process group any more, and nothing is reported until both pipe
  readers have stopped, as a rule when the last member lets go of the output pipes
  (`Supervisor.BackgroundMembersSurvive`, with the run in `Supervisor.SwallowedCancel`). A report
  stops a command that was not cancelled before iff its leader has not exited yet
  (`Supervisor.ReportsStopUntilLeaderExits`).
- A cancelled loop is left with its group gone or SIGKILL sent, except iff waiting for the leader
  fails before SIGKILL or the kernel refuses the first SIGTERM (`Supervisor.EscalationInvariant`,
  `Supervisor.UnsafeExitsOccur`).
- A `finished` event need not be the last one: capture is accepted for a terminal execution
  (`EventLog.OutputAfterTheEnd`). It stays last iff no batch with a record of the execution is
  accepted after it (`EventLog.EndIsLastUnlessCaptured`).
- A lost batch is reported to whichever execution sends the next barrier, not to the one that lost
  records (`CaptureWriter.LossIsReportedToTheFirstBarrier`). Together the answers hide nothing: they
  are all Ok iff every record tried before the last barrier is committed
  (`CaptureWriter.AnswersTellOfLosses`). Answered Ok, an execution has lost nothing iff it lost
  nothing before the barrier before (`CaptureWriter.OkCoversTheLastBarrier`), and so unless an earlier
  barrier that covered some of its records was answered Err (`CaptureWriter.OkMeansNoLoss`).
- A cursor of 2^63 or more turns negative in the query and the log is served from its start
  (`Paging.CursorWrapsAround`).
- The capture counter wraps at 2^64 bytes and capture resumes beyond the limit
  (`Capture.WrappedCounterCapturesAgain`).
- An MCP read with a budget smaller than the next event reports more but does not advance
  (`McpPaging.ReadAdvances`).
- A committed event whose committer failed before announcing it wakes nobody until a later event is
  announced (`Subscription.NoLostWakeup`, with the run in `Subscription.WakeupIsLost`).
- A task that checked its row before the drain cancelled it still starts its supervisor, which is
  then told to cancel (`LifecycleGuarantees.CheckedTasksStillSpawn`,
  `LifecycleRuns.SpawnsBehindTheDrain`).
- When the store fails while the drain cancels the queued rows, the drain leaves the supervisors of
  rows it did end untold; only then, and exactly those (`LifecycleGuarantees.OnlyFailedDrainsStrand`,
  `LifecycleGuarantees.FailedDrainStrandsSupervisors`, `LifecycleRuns.SupervisorIsStranded`). Their
  rows were queued, so no started frame had been handled; the task that reads one tells its
  supervisor then (`LifecycleGuarantees.StartedFrameTells`). Untold stay exactly those whose task does
  not get behind that frame (`LifecycleGuarantees.StrandedUntilStarted`), until the daemon exits and
  its end of the control pipe with it.
- More rows can be running than there are slots (`LifecycleRuns.RunningRowsExceedSlots`): a running
  row's task lacks its permit iff it has left run_execution, and the slots bound the others
  (`LifecycleGuarantees.RunningRowsHoldPermits`, `LifecycleGuarantees.RunningRowsAreBounded`).
- A provider session can have two active turns if it sends turn ids
  (`AgentTurns.SecondActiveTurn`).
- Handlers count as Loomterm's by a substring test: a user's own `my-agent-event --provider codex-cli`
  passes it (`Hooks.UsersHandlerIsRecognised`). A merge removes exactly the recognised handlers other
  than the wanted one (`Hooks.PlanningRemovesTheRecognised`), but refuses to unless it is forced
  (`Hooks.RecognisedIsInTheWay`).

## Model

| member | source | states |
|---|---|---|
| EventLog.LogInvariant | src/store.rs:842-988 | after every run of store commands each log is numbered 1..last_seq, captured_bytes is the sum of its output, truncation is marked iff an event says so, a row is terminal iff it has exactly one final event carrying its outcome, and at most one start precedes that |
| EventLog.RunExtends | src/store.rs:951-988 | no run rewrites a log, leaves a terminal state, alters an outcome or re-queues; only pruning a terminal execution removes one |
| EventLog.BatchIsPerExecution | src/store.rs:876-949 | what a batch does to an execution depends on that execution's own records alone, in order |
| EventLog.BatchSplit | src/store.rs:876-949 | where a run of records is cut into batches makes no difference to any log |
| EventLog.BatchInterleaving | src/store.rs:876-949 | interleaving the records of different executions differently changes no log |
| EventLog.ReconcileEndsEverything | src/store.rs:1492-1512 | start-up reconciliation leaves every execution terminal, touches no terminal one, and ends the others as interrupted with a final event |
| EventLog.OutputAfterTheEnd | src/store.rs:876-949 | a concrete run in which output follows the final event |
| EventLog.EndStaysLastUnlessCaptured | src/store.rs:876-949 | one command: the final event of a terminal execution stays last iff the command is not an accepted batch with a record of it |
| EventLog.EndIsLastUnlessCaptured | src/store.rs:876-949 | whole runs: it stays last iff no such batch was accepted since the end |
| EventLog.JustEndedIsLast | src/store.rs:951-988 | an execution that a command ends has its final event last at that moment |
| EventLog.EndingNeedsATerminalState | src/store.rs:951-988 | ending a row keeps the log invariant iff the new state is terminal, which the code leaves to its callers |
| Database.Database.CreateExecution | src/store.rs:816-840 | inserts a queued execution with an empty log under a new id and changes no other |
| Database.Database.MarkRunning | src/store.rs:842-874 | succeeds exactly for a queued row, starts it and answers the event it appended; otherwise the error says whether the row is missing |
| Database.Database.AppendCaptureBatch | src/store.rs:876-949 | all or nothing: succeeds iff every record's execution exists, and answers exactly the appended events |
| Database.Database.Finish | src/store.rs:951-988 | ends a live row once with state, outcome and final event; a terminal or missing one is an error that changes nothing; the tables stay valid iff the state given is terminal |
| Database.Database.CancelQueued | src/store.rs:1514-1531 | ends exactly the queued rows, or on a storage failure the part it reached; answers their final events |
| Database.Database.ReconcileIncomplete | src/store.rs:1492-1512 | ends all rows that are not terminal and counts them |
| Database.Database.ReadOutput | src/store.rs:1456-1490 | the row loop yields the page that is specified, for every 64-bit cursor |
| Database.Database.Prune | src/store.rs:1533-1570 | removes the expired terminal executions, then the shortest oldest-ended prefix after which the byte limit holds or no terminal execution is left, and counts both |
| Retention.BytesAreConserved | src/store.rs:1533-1570 | bytes before equal bytes kept plus bytes removed |
| Retention.EnoughIsUnique | src/store.rs:1548-1566 | how many executions byte pruning removes is determined by the order of their ends |
| Paging.PageIsExact | src/store.rs:1456-1490 | from any cursor within the log, for any budget, a page is exactly the log between its two cursors, reports more iff there is more, and then is not empty |
| Paging.PageBudget | src/store.rs:1478-1484 | a page over its budget holds exactly one event |
| Paging.CursorWrapsAround | src/store.rs:1464-1470 | a page holds only events after the cursor iff the cursor is below 2^63 or the log is empty |
| Paging.ReadingIsExact | src/store.rs:1456-1490 | reading page after page while the log grows yields exactly the events between the first cursor and the last |
| Paging.ReadAllIsTheSuffix | src/store.rs:1456-1490 | reading a fixed log until no more is reported terminates and yields the suffix, each event once |
| Capture.CaptureCounters.CaptureOutput | src/executor.rs:354-388 | which payloads one frame sends to the writer, with the 64-bit counter and the once-only truncation mark |
| Capture.CaptureCounters.CaptureEach | src/executor.rs:253-279 | over all frames the payloads sent are those the limit lets through |
| Capture.CapturedIsThePrefix | src/executor.rs:363-388 | the captured bytes are the first min(limit, N) of the N bytes written |
| Capture.StreamsKeepTheirOrder | src/executor.rs:363-388 | each stream's captured bytes are a prefix of that stream |
| Capture.TruncationIsMarkedOnce | src/executor.rs:376-386 | exactly one truncation mark, behind all output, iff something was cut off |
| Capture.WrappedCounterCapturesAgain | src/executor.rs:363-365 | past 2^64 bytes output is captured again iff the wrapped counter is below the limit |
| CaptureWriter.BarrierTellsOfLoss | src/executor.rs:617-667 | a barrier answers Ok iff every record since the previous barrier is committed, and leaves none waiting |
| CaptureWriter.LossIsReportedToTheFirstBarrier | src/executor.rs:631-641 | a concrete run in which the second barrier answers Ok although a record was lost |
| CaptureWriter.AnswersTellOfLosses | src/executor.rs:617-667 | over every run the answers are all Ok iff every record is committed that was tried before the last barrier and not covered by one before the run; so a loss always makes the next barrier fail |
| CaptureWriter.OkCoversTheLastBarrier | src/executor.rs:631-667 | if a barrier answers Ok, no record of an execution is lost iff none tried before the previous barrier is |
| CaptureWriter.OkMeansNoLoss | src/executor.rs:577-667 | over every run, an execution answered Ok has lost nothing unless an earlier barrier that covered some of its records was answered Err |
| CaptureWriter.RunTriesInOrder | src/executor.rs:577-615 | records are tried in the order they were taken, none skipped, none twice |
| CaptureWriter.RunRefines | src/executor.rs:643-667 | each log holds exactly the committed records of its execution, in order, whatever the batches |
| CaptureWriter.BatchingRefinesOneAtATime | src/executor.rs:577-667 | without losses a log depends on its own records in enqueue order alone, not on batch boundaries or other executions |
| CaptureWriter.CaptureTask.ProcessCaptureMessage | src/executor.rs:617-641 | one message: a record is kept, and a full batch flushed; a barrier flushes and is answered |
| CaptureWriter.CaptureTask.FlushCapture | src/executor.rs:643-667 | commits the waiting records and announces exactly their events, or remembers the failure and raises the fatal alarm; leaves none waiting |
| CaptureWriter.CaptureTask.Run | src/executor.rs:577-615 | the task's loop over any message stream performs a run of the step relation and takes every message |
| Pipeline.LosslessCapture | src/executor.rs:253-291 | end to end, over every interleaving: if the supervisor's final frame ended the execution, nothing was lost to an earlier barrier of another execution and retention has not removed it, the log's output is the first min(limit, N) of the N emitted bytes with one truncation mark iff N exceeds the limit, the counters agree, state and outcome are those of the frame, and the final event is last |
| Pipeline.HeardOfAllSince | src/executor.rs:280-283 | once its barrier was answered Ok, the execution has lost nothing iff nothing was lost to an earlier barrier |
| Pipeline.LosslessUnlessIntruded | src/executor.rs:253-291 | the same without a word about losses: enough that every barrier of another execution that covers records of this one is answered Ok |
| Pipeline.RunIsOk | src/supervisor.rs:136-157 | in every reachable state the frames, queue and log hold the emitted chunks in order, without loss or repetition |
| McpPaging.NormalizedMax | src/mcp.rs:430-434 | the default is 256 KiB; a wish gives the nearest value within 1..1 MiB |
| McpPaging.ConvertEvents | src/mcp.rs:457-474 | the loop takes the longest run of events that fits, and the cursor stays there |
| McpPaging.ConvertedIsExact | src/mcp.rs:302-328 | a tool page is an exact segment within budget and reports more iff there is more |
| McpPaging.ReadAdvances | src/mcp.rs:302-328 | a read that reports more advances the cursor iff the next event fits the budget |
| McpPaging.RunTool | src/mcp.rs:243-283 | the waiting loop returns exactly the beginning of the log within one budget |
| McpPaging.ToolReadsAreExact | src/mcp.rs:302-328 | reads of a growing log, each from the cursor before, yield exactly the events between the first cursor and the last |
| McpPaging.RunThenReadIsTheLog | src/mcp.rs:243-328 | `loom_run` followed by repeated `loom_read` while the log grows yields the log up to the last cursor, each event once, and reports more iff there is more; reading on to the end yields all of it |
| Subscription.SubscriptionTask.DeliverPage | src/daemon.rs:269-297 | the replay loop sends a page up to its final event and moves the cursor with it |
| Subscription.SubscriptionTask.Receive | src/daemon.rs:228-267 | a received message is sent, ignored, or answered with a replay |
| Subscription.SubscriptionIsExact | src/daemon.rs:169-309 | whatever is committed meanwhile, and whatever is lost, delayed, repeated or reordered, a subscription sends a contiguous segment of the log from after_seq + 1 and, unless cut off, ends only with the final event or terminal and caught up |
| Subscription.NoLostWakeup | src/daemon.rs:176-251 | with no notification outstanding and the receiver drained, all that a waiting subscription has not sent was abandoned before its announcement; it has sent everything iff there is no such event |
| Subscription.WakeupIsLost | src/executor.rs:256-265 | a concrete run in which an event is committed, never announced, and a subscription waits for it |
| Subscription.ReconnectIsExact | src/daemon.rs:169-215 | reconnecting from the last event received continues without gap or duplicate |
| Subscription.ExecutionSubscription.NextEvent | src/client.rs:303-338 | the client hands out exactly the next event of its own subscription and protocol version; each other frame has its error and leaves the cursor |
| Subscription.ExecutionSubscription.Drain | src/client.rs:303-338 | the client accepts a list iff it is contiguous from its cursor |
| Subscription.Follow | src/client.rs:303-338 | the client's check never fails on what a subscription sends |
| Supervisor.EscalationInvariant | src/supervisor.rs:167-232 | over every sequence of happenings, errors included: SIGTERM is sent once iff cancelled, SIGKILL at most once and after it, a wait or a deadline is always enabled, and a cancelled loop is left with neither the group gone nor SIGKILL sent iff waiting fails before SIGKILL or the first SIGTERM is refused |
| Supervisor.UnsafeExitsOccur | src/supervisor.rs:174-189 | runs for both exceptions |
| Supervisor.LeftIsDeaf | src/supervisor.rs:234-251 | behind the loop nothing cancels or signals any more |
| Supervisor.UncancelledLoopFollowsLeader | src/supervisor.rs:173-184 | an uncancelled loop is left iff its leader exited or waiting for it failed |
| Supervisor.ReportsStopUntilLeaderExits | src/supervisor.rs:185-219 | a cancel, daemon loss or capture failure cancels and signals an uncancelled command iff its leader has not exited |
| Supervisor.BackgroundMembersSurvive | src/supervisor.rs:173-266 | after an uncancelled exit of the leader no signal is ever sent, whatever is reported, and the final frame waits for both output pipes |
| Supervisor.SwallowedCancel | src/supervisor.rs:173-266 | a concrete run: the group lives, a cancel and the loss of the daemon have no effect, nothing is reported |
| Supervisor.CancellationEnds | src/supervisor.rs:167-232 | a cancelled loop is left after at most two exits and deadlines, however many messages arrive |
| Supervisor.OutcomeTellsOfSignals | src/supervisor.rs:249-266 | the outcome says exited or signaled iff the group was never signaled, interrupted iff a reason was given, and is withheld iff the daemon is gone |
| Supervisor.ReadControls | src/supervisor.rs:284-310 | the loop over the control pipe reports one cancel per cancel command up to the first other command or the end, and then the failure or the loss of the daemon |
| Supervisor.ControlsFailClosed | src/supervisor.rs:284-310 | the last report of the control pipe is that the daemon is gone iff all commands were cancellations, and otherwise that capture failed |
| Supervisor.LastReportStops | src/supervisor.rs:195-217 | the last report of the control pipe leaves the command cancelled iff it was cancelled before or its leader has not exited |
| Supervisor.SupervisorLoop.Select | src/supervisor.rs:173-231 | one turn of the select loop changes its variables as specified |
| Supervisor.SupervisorLoop.Run | src/supervisor.rs:167-266 | the loop, and what follows it, performs the turns and keeps the escalation invariant in every state |
| LifecycleSafety.TaskKeeps | src/executor.rs:118-336 | every step of an execution's task keeps the lifecycle invariant |
| LifecycleSafety.CancelKeeps | src/executor.rs:401-436 | every step of a cancel request keeps it |
| LifecycleSafety.StepKeeps | src/executor.rs:118-549 | every step of any participant keeps it |
| LifecycleGuarantees.SlotsAreBounded | src/executor.rs:176-179 | at no time are more supervisors attended to than there are slots, and every permit is accounted for |
| LifecycleGuarantees.RunningRowsHoldPermits | src/executor.rs:140-179 | in every run a running row has a task, and that task holds a permit iff it has not left run_execution |
| LifecycleGuarantees.RunningRowsAreBounded | src/executor.rs:140-179 | running rows of tasks inside run_execution are at most as many as slots; all are, if no error left one behind |
| LifecycleRuns.RunningRowsExceedSlots | src/executor.rs:140-160 | a run with one slot and two running rows |
| LifecycleGuarantees.BarredForever | src/executor.rs:176-182 | a task that finds its row ended, or will, never starts a supervisor, whatever happens later |
| LifecycleGuarantees.CancellationIsNotLost | src/executor.rs:401-436 | once a cancel ended a queued row, every supervisor attended to is sent a cancel command, now or at registration, and one not started or about to start never is |
| LifecycleGuarantees.RefusalsAreJustified | src/executor.rs:420-426 | a running execution is refused for want of a handle only if its event stream is over or the drain forgot the handles |
| LifecycleGuarantees.RunningCanBeCancelled | src/executor.rs:401-436 | a running execution whose events are still read has a handle, and a cancel request reaches its control queue |
| LifecycleGuarantees.CommandsAreWellFormed | src/executor.rs:219-243 | the daemon sends one spawn command and then cancellations only, so the supervisor reports nothing else until the pipe ends |
| LifecycleGuarantees.DrainIsFinal | src/executor.rs:501-519 | after the drain's critical section, in every continuation: nothing queued, accepted or newly running, every supervisor attended to was sent a cancel command, and none starts but for tasks that had checked their row |
| LifecycleGuarantees.CheckedTasksStillSpawn | src/executor.rs:180-190 | after the drain a task starts a supervisor in its next step iff it had checked its row before |
| LifecycleRuns.SpawnsBehindTheDrain | src/executor.rs:180-190 | a run in which one does |
| LifecycleGuarantees.OnlyFailedDrainsStrand | src/executor.rs:501-519 | in every run, a supervisor attended to whose row is over, that was not told and that neither a cancel request nor the drain inside the critical section is about to tell, was abandoned by a drain that failed |
| LifecycleGuarantees.FailedDrainStrandsSupervisors | src/executor.rs:511-514 | the drain's pass over the queued rows leaves stranded exactly the untold supervisors of the rows it ended, iff it fails |
| LifecycleGuarantees.StartedFrameTells | src/executor.rs:256-261 | the started frame ends it: with the lock free and the row still there, the task sends the cancel command in its next three steps and changes no row |
| LifecycleGuarantees.StrandedUntilStarted | src/executor.rs:256-265 | in every continuation a stranded supervisor is sent a cancel command iff its task gets behind the started frame with the control pipe intact; one whose started frame is never read stays untold |
| LifecycleRuns.SupervisorIsStranded | src/executor.rs:501-519 | a run that strands one, and the three steps from its started frame after which it is told |
| LifecycleGuarantees.IdleWaitEnds | src/executor.rs:541-549 | the drain does not sleep through the last task's end |
| LifecycleGuarantees.StoreCommandsAgree | src/store.rs:842-988 | on execution states every store command does what the lifecycle machine assumes |
| LifecycleGuarantees.StepsAreStoreCommands | src/executor.rs:118-519 | every step of the lifecycle machine changes the rows as the store command does that the program issues there, and no row if it issues none |
| Utf8.EncodeDecode | src/session.rs:488-516 | decoding a well-formed character and encoding it again gives its bytes |
| Utf8.IncompleteIsPrefix | src/session.rs:503-512 | the front is incomplete iff more bytes can make it a character |
| Utf8.CharIsGrammatical | src/session.rs:492-500 | the front is a character iff the grammar of RFC 3629 says so |
| Utf8.InvalidIsMaximal | src/session.rs:503-512 | what is replaced is the longest beginning of a character, or one byte that begins none |
| Utf8.LossyOfEncoded | src/session.rs:488-521 | text that was UTF-8 comes back as it was |
| Utf8.ValidIsEncoded | src/session.rs:492-500 | exactly the encodings of texts are valid |
| Utf8.StreamingIsLossy | src/session.rs:482-521 | however the bytes are cut into pushes, their output and the rest at the end are the one-shot lossy decoding, and at most three bytes stay pending |
| Utf8.Utf8Decoder.Push | src/session.rs:488-516 | hands out, in non-empty pieces, the longest decidable beginning of pending and new bytes and keeps the rest |
| Utf8.Utf8Decoder.Finish | src/session.rs:518-520 | a character that was cut off becomes exactly one replacement character, nothing becomes nothing |
| Utf8.CaptureOutput | src/session.rs:392-430 | the recording is the lossy decoding of the first min(limit, N) bytes, truncated iff N exceeds the limit, whatever the reads |
| Redaction.LongestIsLongest | src/session.rs:622-628 | the pattern chosen is a longest one that fits; none is chosen iff none fits |
| Redaction.OccurrencesAreHit | src/session.rs:618-635 | every occurrence of a pattern overlaps a match |
| Redaction.RenderedAt | src/session.rs:637-653 | a match's text appears once, where it starts; the rest of it disappears; all else stays |
| Redaction.RenderIsRedact | src/session.rs:618-653 | the matches render the stream as leftmost-longest replacement does |
| Redaction.RedactionIgnoresBoundaries | src/session.rs:596-654 | the redacted output is the leftmost-longest replacement of the whole output, and everything but the data is untouched |
| Redaction.CutsDoNotMatter | src/session.rs:596-654 | recordings with the same output cut differently have the same redacted output |
| Redaction.FindMatches | src/session.rs:618-635 | the scanning loop finds the specified matches |
| Redaction.RenderRange | src/session.rs:637-650 | the loop over the matches produces the text of one event |
| Redaction.RedactOutputStream | src/session.rs:596-654 | the lines are redacted where they stand |
| AgentTurns.TablesInvariant | src/store.rs:1145-1333 | after every run of commands: provider turn keys and actions are unique, active turns belong to recording sessions, links and members stay in their workspace |
| AgentTurns.EndedSessionsAreQuiet | src/store.rs:1180-1223 | a terminal session has no active turn |
| AgentTurns.PromptIsTheActiveTurn | src/store.rs:1235-1260 | after a prompt its turn is the only active one of the provider session |
| AgentTurns.SilentSessionsHaveOneTurn | src/store.rs:1225-1333 | a provider session that never sends turn ids has at most one active turn in every run |
| AgentTurns.SecondActiveTurn | src/store.rs:1622-1636 | a second active turn appears iff a tool reports under an unknown turn id while another turn is active |
| AgentTurns.OtherSessionsUntouched | src/store.rs:1225-1333 | an event changes no turn of another provider session and forgets none |
| AgentTurns.DetailStaysInWorkspace | src/store.rs:1335-1376 | every execution shown with a session belongs to its workspace |
| AgentTurns.AgentStore.CreateExecution | src/store.rs:802-840 | an execution joins a session iff it is recording in the same workspace; each refusal has its error |
| AgentTurns.AgentStore.FinishAgentSession | src/store.rs:1180-1223 | state and outcome must agree; the first finish ends the session and its active turns, a later one answers and changes nothing |
| AgentTurns.AgentStore.RecordAgentEvent | src/store.rs:1225-1333 | the error cases, the new tables and the turn answered, for all four kinds of event |
| AgentTurns.AgentStore.DeleteAgentSession | src/store.rs:1421-1439 | deletes a terminal session with its turns and actions and detaches its executions |
| AgentTurns.AgentStore.GetAgentSession | src/store.rs:1335-1376 | answers the session with exactly its turns, exactly the actions of those turns, and exactly the executions started in it or referred to, all of its workspace, each once and each list by creation time |
| Stats.StatusesPartition | src/store.rs:1038-1061 | the nine status counts add up to the number of executions |
| Stats.InitiatorsPartition | src/store.rs:1083-1099 | initiator counts add up to the total, each is the number of executions of its kind, and kinds are in strict order |
| Stats.RankInRange | src/store.rs:1116-1119 | the rank lies in 1..n and is the smallest that covers the share |
| Stats.PercentileIsNearestRank | src/store.rs:1101-1128 | the value is the smallest duration that at least the given share of the samples does not exceed; there is one iff there are samples |
| Stats.PercentilesAreOrdered | src/store.rs:1101-1128 | a lower percentile is not larger |
| Stats.GetExecutionStats | src/store.rs:1024-1143 | a reversed window is an error; otherwise every figure is that of the executions in the window |
| Hooks.HandlerIsRecognised | src/onboarding.rs:228-305 | Loomterm recognises its own handler, whatever the path and environment |
| Hooks.UsersHandlerIsRecognised | src/onboarding.rs:283-305 | a handler that is not Loomterm's and whose command contains its words is taken for one |
| Hooks.QuotingIsExact | src/onboarding.rs:307-309 | a POSIX shell reads a quoted value back unchanged |
| Hooks.MergeIsConservative | src/onboarding.rs:196-215 | merging keeps all handlers that are not recognised with order, group and matcher, and leaves exactly the wanted one of those that are |
| Hooks.PlanningIsIdempotent | src/onboarding.rs:131-226 | planning again for what was written finds nothing to do |
| Hooks.PlanningIsConservative | src/onboarding.rs:131-226 | keys outside the provider's events are untouched |
| Hooks.PlanningRemovesTheRecognised | src/onboarding.rs:196-215 | of the handlers of the provider's events, the written document lacks exactly those that are recognised and not the wanted one |
| Hooks.RecognisedIsInTheWay | src/onboarding.rs:160-222 | a recognised handler other than the wanted one makes an unforced merge fail, and a forced one removes it |
| Hooks.PlanHooks | src/onboarding.rs:131-226 | the loops with their flags compute the specified plan or error |

## Left out

- Pipeline.LosslessCapture: holds for fewer than 2^64 emitted bytes, because the counter wraps there (`Capture.WrappedCounterCapturesAgain`); it does not follow event timestamps, and it takes ids to be used once
- Database.Database.CreateExecution: the checks of the agent session an execution names are in `AgentTurns.AgentStore.CreateExecution`
- Paging.PageIsExact: takes a cursor within the log; `Paging.CursorWrapsAround` covers the others
- McpPaging.RunThenReadIsTheLog: reading on to the end takes a budget no smaller than the largest event; `McpPaging.ReadAdvances` says exactly when a read is stuck otherwise
- LifecycleGuarantees.CancellationIsNotLost: a command counts as sent when it is put on a control queue whose writer is alive; a broken control pipe ends in a report that cancels the command iff its leader has not exited by then (`Supervisor.LastReportStops`)
- AgentTurns.TablesInvariant: generated turn ids are new, and the statements of one command all succeed
- Stats.GetExecutionStats: the workspace is given by its id; resolving names is not modelled
- SQL, SQLite, transactions' isolation, WAL, migrations and JSON columns: tables are maps and sequences, and each store command is one step
- sockets, framing, serde and base64: taken to round-trip; channels are first-in first-out queues, and their depth and backpressure are not modelled
- kernel process groups, signals, pgid reuse, PTY and raw mode: leader exit, group liveness and deadlines are nondeterministic inputs
- wall-clock time: `wait`, the cancel timeout and the drain's fallback are early exits without timing; the cutoff of retention is a parameter
- the daemon's reaction to the fatal alarm
- the supervisor's stdin writer, whose error also ends it without a final frame
- reopened connections, workspace registration and path resolution, configuration loading, TOML editing, the daemon's pid lock and the session lock file
- `redact_json` and `redact_detail`: a second pass over already redacted text
- conversion of events to text or base64 in MCP responses
- the watch and user interfaces, HTML export and CLI printing
- requests dropped half-way by their connection, and a second concurrent drain: the daemon drains once
