# RexHunter, modelled and proved

RexHunter is an event-sourced daemon. Concurrent hunts append typed events to one SQLite log, a lossy
in-process hub tells viewers about them, and everything a viewer sees is a fold of that log. This
project models the six parts that carry its guarantees, and proves those guarantees in Dafny:

| part | files |
|---|---|
| the write-ahead log and its writers | `Tables`, `WriteAhead`, `Store`, `Lifecycle` |
| streaming with reconnects | `Broadcast`, `Stream`, `Protocol`, `Session`, `StreamSafety`, `PublishOrder`, `Sse`, `Wire`, `Framers` |
| the hunt loop and the spend gate | `Grammar`, `Loop`, `Record`, `Hunting`, `Cost`, `HuntSpend`, `Budget`, `Overshoot`, `Scheduler` |
| log to conversation, stream to blocks | `Conversation`, `Assembler` |
| the prey pen and the job queue | `Pen`, `Jobs` |
| the view | `View`, `Overlay`, `Resume` |

Values are datatypes and functions. What the source updates in place is a class with fields, or a
method with the source's loop, proved against one of those functions; the laws are lemmas about the
functions. Concurrency is a state machine whose steps are the statements of the source between two
points where another task can run; `After(actions)` is the state after an interleaving, and a law over
all reachable states quantifies over every action list.

The brain, the tools, argument validation and the ids `uuid4` hands out are arbitrary oracles
(`Loop.World`): a claim about a hunt holds whatever they answer. Every lemma has automatic induction
switched off; each induction is written out.

## What the laws assume

* **Publish order.** Exactly-once delivery needs publishes in id order. Commits get their ids in
  order, but two hunts on separate connections may call `publish` in the other order
  (`src/rexhunter/db.py:164-172`), and then the high-water test (`src/rexhunter/server.py:176`) drops
  the late smaller id: `PublishOrder.LateRowIsNeverReceived` is a run in which a viewer never gets it.
  `PublishOrder.LosslessIffInOrder` says that the order is the whole of it: of a sequence of commits,
  publishes and restarts, no behaviour of viewers and network loses a row if and only if each publish
  is of the oldest commit not yet published. `Stream.GapFreeIff` is the same for one session's queue.
  What needs no order (increasing ids, committed payloads, the mark) is proved without it, in
  `StreamSafety`.
  A row nobody publishes is out of order too. It happens: an append cancelled between its INSERT and its
  commit is committed by the cleanup, and published by no one.
* **Capture atomicity.** `capture_prey` writes twice and commits once, and does not roll back on an
  exception. `Pen.InterruptedCaptureIff` shows what that can do: when a capture is interrupted and the
  connection's next operation is the `finish_run` that closes the run, or the append that records the
  error which got in the way, log and pen agree afterwards if and only if both writes were in. The
  write-ahead machine itself has no such interruption.
* **Cancellation.** The shielded close covers cancels that land in the drive or in the cleanup wait.
  `Lifecycle.CancelLeavesOpenIff` shows the exact limit: a cancel leaves its run open if and only if it
  lands right after `start_run`'s own commit, before the drive, or in the last writes, after it and
  before the closing commit took effect. The next boot sweeps such a run.
* **Money.** Spend is an exact integer: micro-dollars, tokens times a whole dollar price per million. The
  spend bound takes it that no call costs less than nothing or more than the call limit, and that every
  hunt runs under the same caps. Nothing else about a run is assumed: what it writes is always a prefix of
  the log some brain and some tools make the hunt loop write (`HuntSpend.Hunted`).
* **One process.** A reboot takes every worker and every hunt with it, as in the source's single-process
  design; `requeue_running_jobs` is safe only so.

These statements in the source are not true of its code; for each, what holds is proved:

* `src/rexhunter/scheduler.py:41-42`, the daemon cannot exceed its budget. Hunts already past the gate keep
  spending. `HuntSpend.CostliestHunt` gives the most one hunt can record under its ceiling and its
  iterations, `Overshoot.MostIsTheMaximum` the most the daemon can, and `Overshoot.CeilingIsOvershotIff`
  says exactly when that is more than its ceiling. `Budget.SpendBound` is the bound that does hold.
* `src/rexhunter/server.py:143-150`, catch-up and splice leave a viewer no gap. That holds under the publish
  order above, and not without it (`PublishOrder.LosslessIffInOrder`).
* `src/rexhunter/server.py:104-107` and `src/rexhunter/loop.py:404-409`, no run is left open by a shutdown.
  `Lifecycle.CancelLeavesOpenIff` gives the two windows in which one is.
* `src/rexhunter/brain.py:464-465`, the live framing mirrors `iter_sse_events`. It does not around
  whitespace-only lines or blank data lines: `Framers.FramersAgreeIff`, `Framers.FramersCoincideIff`.
* `src/rexhunter/verdicts.py:67-68`, log and pen never disagree about a capture. After an interrupted one
  they can: `Pen.InterruptedCaptureIff`.

## Model

| member | source | states |
|---|---|---|
| WriteAhead.DualCursorAlways | src/rexhunter/db.py:142-173 | over every interleaving of writers, commits, rollbacks and crashes: ids strictly increase, each run's committed seqs are exactly 0..n-1, id order and seq order agree within a run, and the next insert for any run meets no UNIQUE (run_id, seq) conflict |
| WriteAhead.NextSeqIsCount | src/rexhunter/db.py:142-146 | MAX(seq) + 1 scoped to a run is the number of rows the run has |
| WriteAhead.CursorsAgree | src/rexhunter/db.py:136-141 | two rows of one run are in the same order by id and by seq |
| WriteAhead.ReplayIsRunLog | src/rexhunter/db.py:176-187 | the seq-ordered replay read of a run is that run's rows picked from the id-ordered log |
| WriteAhead.AfterWholeOps | src/rexhunter/verdicts.py:66-88 | what is pending is a whole number of statements of one admissible operation on the last committed tables, so a reader never sees part of one |
| Store.Database.AppendEvent | src/rexhunter/db.py:149-173 | one row is inserted at the end of the log, with this run, this event, this moment and the next id and seq, committed, and only then offered to every viewer under the id the commit gave; on an error nothing is committed or published |
| Store.Database.CapturePrey | src/rexhunter/verdicts.py:56-94 | the capture event and the prey row, awaiting a verdict, are committed together or not at all, then published under the event's id |
| Store.Database.StartRun | src/rexhunter/db.py:117-133 | the runs table gains exactly one row at its end: this run, open, with its start time and the caps it runs under; no other table changes |
| Store.Database.FinishRun | src/rexhunter/db.py:203-211 | row by row: an open row of this run gets its end time, outcome and reason and keeps its start facts and caps; a row already closed, and every other row and table, is as it was |
| Store.Database.MarkCrashedRuns | src/rexhunter/db.py:214-229 | row by row: an open run becomes crashed, ended at the latest createdAt of its own committed events, or at no time if it has none; every closed row and every other table is as it was |
| Store.Database.SubmitVerdict | src/rexhunter/verdicts.py:97-146 | RELEASE without a reason is an error; True exactly when the prey is there in the status its verdict needs (awaiting, or ambered for REENTER), prey ids being unique, and then one row moves (FEAST to feasted, RELEASE to released, AMBER to ambered, REENTER to awaiting), takes the reason and provenance given and keeps those not given, every other row is as it was, and the verdict event and, for FEAST, the job are in the same commit; otherwise nothing changes |
| Store.Database.ClaimJob | src/rexhunter/verdicts.py:179-196 | the oldest queued job, or None exactly when none is queued or another worker flipped that very job between the SELECT and the UPDATE; only a queued job that one of the two flipped changes, to running |
| Store.Database.CompleteJob | src/rexhunter/verdicts.py:199-205 | row by row: this job is done with this result and keeps its prey and time; every other job and table is as it was |
| Store.Database.RequeueRunningJobs | src/rexhunter/verdicts.py:208-214 | row by row: a running job is queued again with its keys; every other job and table is as it was |
| Tables.LastEventIsLatest | src/rexhunter/db.py:220-226 | the swept end time is the maximum createdAt of the run's rows, and null exactly when it has none |
| Tables.Oldest | src/rexhunter/verdicts.py:183-188 | None exactly when nothing is queued; otherwise a queued job than which no queued job is older |
| Pen.PenAlwaysAgrees | src/rexhunter/verdicts.py:44-173 | FEAST takes effect once: in every reachable state each prey row is the fold of its verdict log, every logged verdict fired from its source status (the fold's `continue` is never taken), decided_at is null exactly while awaiting, and a prey's jobs = its FEAST events = 1 if feasted else 0; captures and rows agree in order |
| Pen.VerdictsAreFinal | src/rexhunter/verdicts.py:44-49 | over any run, a prey row keeps its place and its capture facts, and once feasted or released it never changes |
| Pen.CaptureCommitPoints | src/rexhunter/verdicts.py:73-88 | of the three points at which the connection could commit, log and pen disagree exactly at the one between the two writes |
| Pen.InterruptedCaptureIff | src/rexhunter/loop.py:403-450 | in every reachable state with a capture under way: if it is interrupted and its connection next commits finish_run, or the error the backstop records, log and pen agree if and only if both writes were in |
| Pen.Rebuild | src/rexhunter/verdicts.py:158-173 | the loop computes the fold of the verdict log |
| Pen.RebuildMoves | src/rexhunter/verdicts.py:44-49 | one more verdict moves the rebuilt status as the transition table says, in literal statuses, taking what reason and provenance it gives; from any other status it changes nothing |
| Pen.StatusIsTheVerdicts | src/rexhunter/verdicts.py:44-49 | in every reachable state a prey is feasted exactly if its verdict log holds a FEAST, released exactly if it holds a RELEASE, ambered exactly if its last verdict is AMBER, and awaiting exactly if it has none or the last is REENTER |
| Broadcast.Hub.Register | src/rexhunter/hub.py:74-80 | a viewer id never used before gets a new empty bounded queue; other viewers keep theirs |
| Broadcast.Hub.Deregister | src/rexhunter/hub.py:82-85 | exactly that viewer is gone; an absent one is no error |
| Broadcast.Hub.Offer | src/rexhunter/hub.py:87-95 | every queue with room gets the envelope at its end, and exactly the viewers whose queue was full are dropped, their queue unchanged |
| Broadcast.Hub.Publish | src/rexhunter/hub.py:97-101 | offers the payload under the event's id |
| Broadcast.Hub.Notify | src/rexhunter/hub.py:103-116 | offers the payload without an id |
| Session.StreamEvents | src/rexhunter/server.py:140-181 | on the hub's own queues: registers first, reads the tail, then yields exactly what the protocol's client receives under the same interleaving of offers and turns; the timeout ends it only once dropped; it is deregistered in any case |
| Stream.CatchUpIsTail | src/rexhunter/server.py:129-137 | the catch-up query returns the log from the first row past the cursor to its end |
| Stream.GapFreeIff | src/rexhunter/server.py:165-179 | with publishes in any order, a session's live part yields exactly the committed rows between its marks if and only if each row was offered only after, or with, all the committed rows before it that the session lacked |
| Stream.NotesPassThrough | src/rexhunter/server.py:174-176 | every heartbeat and notification taken off the queue is yielded, in order, and none moves the mark |
| PublishOrder.LateRowIsNeverReceived | src/rexhunter/server.py:176-179 | a reachable run with two publishes in the other order, after which, however it goes on, the viewer never receives row 1 |
| PublishOrder.LosslessIffInOrder | src/rexhunter/db.py:164-172 | for any sequence of commits, publishes and restarts that publishes no row twice or after a restart: nobody ever misses a row, under every behaviour of viewers and network and any queue bound, if and only if each publish is of the oldest commit not yet published |
| Protocol.ExactlyOnceAlways | src/rexhunter/server.py:129-181 | for every interleaving of commits, publishes in id order, registers, backfill reads, yields, drains, heartbeats, drops, timeouts, disconnects that lose frames on the way, reconnects and restarts: the real events a client receives over all its sessions are exactly the committed rows after its first cursor up to its last id, in order, no gap, no duplicate |
| Protocol.IdleViewerIsCaughtUp | src/rexhunter/server.py:143-150 | a registered viewer with nothing left to take has received every published row past its first cursor |
| StreamSafety.SafeAlways | src/rexhunter/server.py:160-181 | with publishes in any order and any number of times: received ids strictly increase, each is committed with its stored payload, and the mark is the last real id received |
| StreamSafety.DroppedNeverRefills | src/rexhunter/hub.py:87-95 | over any run, whatever happens in it but a new session: a dropped session is over, or is still dropped with no more than the end of the queue, and of the backfill, it had |
| StreamSafety.TimeoutEndsOnlyDropped | src/rexhunter/server.py:166-173 | over any run: a timeout ends a session only if an earlier offer in that session found its queue full |
| StreamSafety.RegisteredViewerStaysUp | src/rexhunter/server.py:166-173 | over any run: without a full queue, a disconnect or a restart a session stays up, however often it times out |
| StreamSafety.DroppedStreamEnds | src/rexhunter/server.py:152-173 | over any run that neither disconnects nor restarts a dropped session, whatever commits, publishes and other clients come in between: each of its own turns uses up one of a fixed number of steps (the backfill read, its rows, the queue), what it has yielded and has yet to yield stays the same, and it is over after exactly one turn more |
| StreamSafety.DroppedStreamMoves | src/rexhunter/server.py:160-181 | until then a turn of its own is always enabled, and afterwards a new session is |
| Framers.DrivenIsSpoken | src/rexhunter/brain.py:471-481 | what the line loop feeds can be read off the splitter's frames: the joined payload of each group of data lines, groups parted by whitespace-only lines |
| Framers.FramersAgreeIff | src/rexhunter/brain.py:192-207 | for every text: the frame splitter yields the line loop's non-empty payloads if and only if no frame has two groups of data lines with a payload, parted by a whitespace-only line |
| Framers.FramersCoincideIff | src/rexhunter/brain.py:464-481 | it yields all of the loop's payloads if and only if, besides, no group's data lines are all blank |
| Framers.FramersAgree | src/rexhunter/brain.py:192-207 | so without whitespace-only lines the two differ at most by empty payloads, and not even by those unless a frame has data lines and all are blank |
| Framers.WhitespaceLineSplits | src/rexhunter/brain.py:471-481 | with one whitespace-only line between two data lines the splitter yields one joined payload, the line loop two |
| Sse.DriveStream | src/rexhunter/brain.py:471-481 | the line loop feeds the payloads of the line-by-line fold, its last open frame included |
| Sse.IterSseEvents | src/rexhunter/brain.py:192-207 | the splitter yields the non-empty payload of each frame, in order |
| Sse.StripTrims | src/rexhunter/brain.py:198-203 | stripping takes ASCII whitespace off both ends, and nothing else |
| Sse.PrintThenParse | src/rexhunter/hub.py:44-51 | parsing any list of printed envelopes gives back their non-empty data, in order, byte for byte; heartbeats leave nothing |
| Wire.BrowserFires | src/rexhunter/hub.py:44-51 | a browser reading the printed frames line by line fires one event for each real event and each notification, in order, with its own payload, and none for a heartbeat |
| Wire.CursorComesBack | src/rexhunter/server.py:287-288 | the id a browser keeps of the frames a client received, sent back as Last-Event-ID and read as digits, most significant first, is the client's cursor in the protocol; with no id yet, the since parameter is |
| Grammar.Accounting | src/rexhunter/loop.py:321-356 | in every word of a run's grammar the rounds are the tool results, each answering its call with the same tool, request and id; at most one call is left without a result; spend is the fold of the usage events; calls stay within max_iterations |
| Grammar.SpendDiscipline | src/rexhunter/loop.py:321-332 | each usage event is written with the run's spend before it below the ceiling |
| Grammar.CallsClose | src/rexhunter/loop.py:210-244 | each dispatched call is closed by one result after at most retry_budget retryable errors, or ends the run after at most retry_budget + 1 errors, or is still open within its budget |
| Loop.HuntTheorem | src/rexhunter/loop.py:298-452 | for every brain and every tool: the log is a word of the grammar, whose last phase fits the one (outcome, abort_reason); a failed run's reason can be read off its closing error; brain attempts and tool attempts are at most max_iterations * (retry_budget + 1); the reason is "max iterations" exactly when that many tool rounds completed |
| Loop.HuntCallsClose | src/rexhunter/loop.py:210-244 | in a finished hunt every dispatched call got one result, or ended the run by errors within its budget |
| Loop.ContextsAreConversations | src/rexhunter/loop.py:321-326 | every context handed to a brain projects to a valid conversation: directive first, strict alternation, user last, each tool_use answered at once by one result with its id and no error; 2n + 1 turns after n rounds; the k-th tool_use has the id, name, input and thinking of the log's k-th call, and the k-th result is what the tool answered |
| Loop.RetriesSeeNoStaleConversation | src/rexhunter/loop.py:247-295 | the log with the failed attempts' deltas and errors projects to the same messages as the snapshot the retry is given |
| Loop.PriorIsPrefix | src/rexhunter/loop.py:272-294 | those deltas and errors are what `_call_brain` has appended when it makes that attempt |
| Conversation.ProjectMessages | src/rexhunter/brain.py:387-457 | the loop computes the fold of the log into messages |
| Conversation.ProjectsToConversation | src/rexhunter/brain.py:387-457 | any log of the grammar with no open call and no closing error projects to a valid conversation, each call and each answer of it field by field |
| Conversation.FatalErrorAnswers | src/rexhunter/brain.py:437-456 | a fatal tool error becomes an is_error result under the id of the open call, whose turn is the one before |
| Conversation.OthersAddNoTurn | src/rexhunter/brain.py:401-405 | retryable errors, the brain's and the loop's errors, and events that are not tool traffic add no turn |
| Conversation.RenderedIsValid | src/rexhunter/brain.py:387-402 | paired calls and results, rendered in turn, are what the provider accepts |
| Record.CallEvents | src/rexhunter/loop.py:271-295 | a brain call is settled by the first attempt that decides, raises what is not HTTP, or fails for good: a transport failure, 429 or 5xx is asked again while the budget lasts, and nothing else is; its events are those of its attempts |
| Record.AttemptRecords | src/rexhunter/loop.py:265-294 | an attempt leaves each text it relayed, in order, and then its transport error, with the response body if there is one |
| Record.DispatchRecords | src/rexhunter/loop.py:142-244 | a dispatch leaves the decision's own tool, id and thinking with the validated request, and one event for each answer of the tool with that answer in it, retried only on a timeout, a retryable error, a transport failure, 429 or 5xx; a refused one leaves one fatal error |
| Record.TurnRecords | src/rexhunter/loop.py:330-352 | each decision's usage is on record once, a terminal one's too; and only HuntComplete's turn captures, exactly its catch |
| Record.HuntIsDecided | src/rexhunter/loop.py:346-355 | a hunt is completed exactly if its last reply decided HuntComplete, and then the log's captures are that catch, in order, under the hunt's territory; needs_help exactly if it decided NeedsHelp; and otherwise nothing is captured |
| Record.EscapesAreRecorded | src/rexhunter/loop.py:419-451 | an exception that leaves the drive is the log's last event: a malformed response with its raw bytes, any other with its repr and trace |
| Hunting.DispatchTool | src/rexhunter/loop.py:142-244 | the committed log grows by the events of the dispatch, in order; it ends True, False or in the validator's exception as the specification says; no other run's log changes |
| Hunting.AskBrain | src/rexhunter/loop.py:247-295 | the committed log grows by the relayed deltas and the transport errors of each attempt, in order |
| Hunting.PenTheCatch | src/rexhunter/loop.py:348-352 | one capture event per posting, in order, and one prey row per posting, in order: its id, run, territory and posting, awaiting a verdict |
| Hunting.TakeTurn | src/rexhunter/loop.py:321-355 | one iteration: breaker on the log as committed, brain, usage, then the decision's act |
| Hunting.DriveHunt | src/rexhunter/loop.py:298-356 | the loop ends in the outcome the hunt's specification gives, with its log |
| Hunting.RunHunt | src/rexhunter/loop.py:359-452 | one hunt from its row to its outcome: the run's log and its closed row are the hunt's, the caps are on the row, the pen grows by exactly one awaiting row for each capture of that log, in order, every other run's log and row is untouched |
| HuntSpend.HuntedFits | src/rexhunter/loop.py:321-355 | whatever a hunt has written by any point, its spend is at most what one run can record: what fits just below its ceiling, or one call in each iteration but the last if that is less, and one call more |
| Budget.SpendBound | src/rexhunter/scheduler.py:76-104 | over every interleaving of slot acquires, gate reads, run starts, writes of hunts, releases, crashes and restarts: recorded spend never passes the larger of what was spent before and the most the gate lets through plus the most one run can record per slot |
| Budget.SpendBoundFromEmpty | src/rexhunter/scheduler.py:76-104 | from an empty log, spend < daemon ceiling + max_concurrent * (run ceiling + one call), and < daemon ceiling + max_concurrent * max_iterations * one call |
| HuntSpend.CostliestHunt | src/rexhunter/loop.py:321-355 | the most one run can record is a maximum: no hunt spends more, whatever its brain and tools do, and there are a brain and tools with which one spends exactly that |
| Overshoot.MostIsTheMaximum | src/rexhunter/scheduler.py:76-104 | the bound is tight: of all runs that start below the daemon ceiling none records more than it, and if there is a slot and a hunt can spend at all, one from an empty database records exactly that, every hunt in it one the loop makes |
| Overshoot.CeilingIsOvershotIff | src/rexhunter/scheduler.py:35-45 | the daemon ceiling can be exceeded if and only if what the gate lets through plus a costliest hunt per slot is more than it, and then it can be from an empty database; once a call may cost 6 micro-dollars, that is whenever there is a slot, an iteration and a positive run ceiling |
| Budget.SpendIsWholeLog | src/rexhunter/scheduler.py:48-52 | the gate's fold counts each row of the log once, whatever run wrote it |
| Budget.WriteCharges | src/rexhunter/cost.py:27-36 | an appended event is charged to the daemon and to its own run, and to no other |
| HuntSpend.HuntsAreDisciplined | src/rexhunter/loop.py:321-332 | every paid call of a hunt starts with its run below the run ceiling |
| Scheduler.BoundedHunt | src/rexhunter/scheduler.py:76-104 | a launch is refused exactly when a ceiling is set and the log's spend has reached it, and then nothing is written; otherwise the hunt runs to its outcome |
| Cost.FoldCostLoop | src/rexhunter/cost.py:20-36 | one pass over the log, other events ignored, computes 3, 15, 15 and 75 times its listed-input, listed-output, other-input and other-output tokens |
| Cost.FoldCostPrices | src/rexhunter/cost.py:20-30 | so does the fold every spend of the model is |
| Cost.UnlistedIsNeverCheaper | src/rexhunter/cost.py:22-30 | a call with any token costs something, and the same tokens under an unlisted model never cost less |
| Cost.FoldCostConcat | src/rexhunter/cost.py:33-36 | the spend of two logs in a row is the sum of theirs |
| Assembler.StreamAssembler.FeedEvent | src/rexhunter/brain.py:228-277 | each event updates blocks, buffers, usage and completion as the fold says; a finished tool_use whose buffer is not JSON raises and changes nothing; the thinking fragment is handed back |
| Assembler.IndicesAreIndependent | src/rexhunter/brain.py:228-277 | the block at an index is what its own events alone give, however the indices interleave |
| Assembler.OpenBlock | src/rexhunter/brain.py:210-218 | before its stop a block is its start, thinking, signature and text each grown by the fragments of its own deltas in order, its input still the start value |
| Assembler.ClosedBlock | src/rexhunter/brain.py:273-277 | after its stop a tool_use's input is the parse of its whole buffer, or {} if that is empty; other kinds keep theirs |
| Assembler.RechunkingChangesNothing | src/rexhunter/brain.py:252-277 | two ways of cutting the same fragments give the same block, open or closed |
| Assembler.RelayIsThinking | src/rexhunter/brain.py:260-263 | for a single thinking block that starts empty, the texts handed back concatenate to its thinking field |
| Assembler.Content | src/rexhunter/brain.py:279-289 | the assembled content is every block once, in content-index order |
| Assembler.CompleteIff | src/rexhunter/brain.py:242-249 | the stream is complete exactly once a message_stop or a stop_reason has arrived |
| Assembler.LastOnesHold | src/rexhunter/brain.py:231-248 | model, stop reason and each usage count are the last ones the stream gave |
| Jobs.QueueAlwaysSafe | src/rexhunter/verdicts.py:179-214 | with the claim split into SELECT and guarded UPDATE, racing workers, deaths and reboots: every held job is running and has one holder, ids stay unique, and a job has a result exactly when it is done |
| Jobs.JobsAreKept | src/rexhunter/verdicts.py:199-214 | no job is lost, duplicated or moved, and a done job never changes again |
| Jobs.OldestIsClaimedFirst | src/rexhunter/verdicts.py:183-192 | first come, first served, even with racing workers: from its selection to its flip, no job still queued was enqueued before the selected one, if the clock that stamps them does not run backwards |
| Jobs.FlipWinsIff | src/rexhunter/verdicts.py:190-196 | a worker gets the job it selected exactly when that job is still queued; otherwise nothing changes; either way nothing is left to flip |
| Jobs.OnlyRebootRequeues | src/rexhunter/verdicts.py:208-214 | a job once claimed is not queued again until a reboot |
| Jobs.BootLeavesNoneRunning | src/rexhunter/server.py:55-65 | after boot every job is done, unchanged and with its result, or queued, and nobody holds one |
| View.Accumulator.Apply | src/rexhunter/view.py:174-208 | folding one new row changes its own run's record, the first-seen order and the pen as specified, and nothing else |
| View.Accumulator.Step | src/rexhunter/view.py:211-218 | a row at or below the mark is a no-op; another is folded and moves the mark |
| View.FoldRows | src/rexhunter/view.py:221-226 | folds a row list into a fresh accumulator |
| View.FoldRowsFrom | src/rexhunter/view.py:229-236 | continues on a copy; the accumulator it was given is not changed |
| View.IncrementalIsBatch | src/rexhunter/view.py:229-236 | folding a tail onto the fold of a prefix is folding the whole |
| View.ReplayChangesNothing | src/rexhunter/view.py:211-218 | re-applying any rows already folded, in any order and number, changes neither the accumulator nor its view |
| View.OverlappingResume | src/rexhunter/view.py:211-236 | folding rows from i onto the fold of the first j >= i rows gives the fold of the whole log |
| View.TwoCursors | src/rexhunter/view.py:174-226 | on any reachable log a run's record in the fold of everything by id equals its record in the fold of its own rows by seq, and is the fold of its replayed events |
| View.CurrentToolIsOpenCall | src/rexhunter/view.py:182-193 | current_tool is the tool of the call that no later call, result or error of its own tool has closed, and None exactly when there is none |
| View.RecordAccounts | src/rexhunter/view.py:182-206 | turns are the dispatched calls, spend the log's spend, thinking the concatenated deltas, and errors and captures are counted |
| View.ViewShowsTheLog | src/rexhunter/view.py:239-275 | the view of a log shows exactly the runs that have rows, in the order of their first ones, each with its own log's counts, spend, thinking and open call, and the last row's id |
| View.StaminaBound | src/rexhunter/view.py:182-186 | a run the hunt loop wrote shows at most max_iterations turns |
| View.Conservation | src/rexhunter/view.py:258-275 | on any reachable log the total spend = the sum of the runs' spends = the daemon gate's fold, and the pen size = the sum of the prey counts |
| Resume.ReceivedRowsResumeTheView | src/rexhunter/view.py:229-236 | with publishes in id order, in every reachable state: folding what a client received onto the fold of the log up to its first cursor is the fold of the log up to its last id |
| Overlay.BuildViewState | src/rexhunter/viewstate.py:59-139 | the loops compute the fold with each run overlaid from its row and each card from its verdict log |
| Overlay.ViewPenIsPreyTable | src/rexhunter/viewstate.py:132-139 | in every reachable state of captures, verdicts and crashes the view's cards match the prey rows on id, territory, posting, status, reason and provenance, in capture order |
| Overlay.ReplayPenIsPreyTable | src/rexhunter/viewstate.py:34-56 | and the replay of one run shows that run's prey rows so |
| Overlay.BothCursorsShowTheRun | src/rexhunter/viewstate.py:34-56 | in every reachable state the replay of one run shows exactly the run view the live feed has for it: territory, outcome and caps of its own runs row, and its log's counts, spend, thinking and open call |
| Overlay.RunsAlwaysKeyed | src/rexhunter/viewstate.py:83-115 | run ids stay unique and every event's run is on record, so the overlay's default is never taken |
| Lifecycle.OutcomesAreFinal | src/rexhunter/db.py:203-229 | over every interleaving and crash, a run with an outcome never changes, and an open one keeps its start facts and caps |
| Lifecycle.OpenIffOwnedOrLost | src/rexhunter/loop.py:390-452 | a run is open exactly while a live task has yet to close it, or its task was lost since the last boot to a crash, or to a cancel before the drive or in the last writes |
| Lifecycle.CancelledRunIsClosedFirst | src/rexhunter/loop.py:403-418 | however many cancels follow one that lands in the drive, the task is still cleaning up or its run is marked aborted by daemon shutdown |
| Lifecycle.LastWritesCloseTheRun | src/rexhunter/loop.py:419-452 | a hunt that gets through its last writes has its own outcome and reason on its row, and no other run's openness changes |
| Lifecycle.CancelLeavesOpenIff | src/rexhunter/loop.py:390-452 | a cancel leaves its run open behind it if and only if it lands after start_run's commit and before the drive, or in the last writes; once the closing commit took effect it finds the run closed |
| Lifecycle.BootClosesEverything | src/rexhunter/server.py:55-65 | after the boot sweep no earlier run is open; those that were are crashed |
| Lifecycle.CleanUp | src/rexhunter/loop.py:409-418 | the shielded wait swallows re-cancels, falling in any order among the write's own steps, and ends with the run closed as aborted |

## Left out

- HTTP routes, static files, page rendering, the board's script, smoke scripts and the stub brain: input, output and entry points.
- Tool schemas, request bodies, `parse_decision` and `_extract_thinking_block`: easy dictionary work; a brain's answer is an oracle's decision.
- JSON, base64 and Pydantic codecs: events are datatypes, bytes are taken as the text they encode, and a JSON value is known by its canonical text.
- Fixed wordings (error texts, the seed directive, outcome names) are constructors, not strings.
- Floating point: money is exact integers, so rounding of dollars is not modelled.
- Wall-clock time: timeouts, intervals and the heartbeat cadence are steps that may happen at any point; timestamps are opaque numbers.
- SQLite internals: a statement is atomic, the first write takes the one write lock, and only a foreign-key or unique violation can fail an insert; a busy timeout is not modelled.
- `connect`'s column migration, the day/night phase, the territory tier of the view and `/snapshot`: simple.
- `run_hunts`, `run_scheduler` and `run_job_worker`: their endless loops and task groups are the interleavings of the `Budget` and `Jobs` machines, not methods.
- Hunting.RunHunt: runs without a publish hook and without the run-finished notification; publishing is in `Store.Database.AppendEvent` and `CapturePrey`. It models runs without cancellation, which `Lifecycle` covers.
- Loop.HuntTheorem: the exceptions that can leave the drive are the brain's and the validator's; a database error inside an append or a capture is not modelled.
- Scheduler.BoundedHunt: the wait for a slot is a step of the `Budget` machine, and the clause that contains an exception escaping the hunt is never reached, since no modelled one escapes.
- Overlay.BuildViewState: does not build the territory tier, the clock's phase or the injected daemon ceiling.
- Grammar.Accounting: retry_budget is a natural number; with a negative one the source's attempt loops would not run at all.
- Protocol.ExactlyOnceAlways: a viewer's queue order and the hub's drop rule are those of `Broadcast.Hub`, restated on values.
- View.Accumulator.Apply: a run's record is a value replaced in the map rather than an object updated in place, so sharing of one between two accumulators, which the source's deep copy rules out, cannot be expressed.
- Assembler.StreamAssembler.FeedEvent: the blocks are values in a map; a missing key of an event is an oracle's malformed stream and raises in the source before the assembler changes.
- Wire.CursorComesBack: payloads are one line, as JSON text is, and digits are ASCII; `retry:` and `event:` fields, which the hub never prints, are lines like any other.
- Framers.FramersAgreeIff: LF is the only line break; CR, other Unicode line breaks and Unicode blanks, on which bytes and text methods differ, are not modelled.
