# Verification model of the agent runtime

Dafny models of the stateful core of this repository, with proofs about every run of it:

- **Agent loop and in-query compaction** (`packages/agent`). `AgentLoop` gives one turn as a chain of step functions and
  a run as their iteration against an arbitrary environment (replies, hooks, tools, completion orders, external calls).
  `AgentRun` is the same loop with its nested loops and early exits, proved equal to it. `QueryCompaction` and
  `CompactionReplay` relate the live context to the persisted stream. `RunRecord` says of every run, over any transcript,
  what its own messages record of its live context; `LoopContext` what the next run makes of a transcript that held no
  markers; `Transcripts` which transcripts of any number of runs a replay still accepts. `ToolPairing` follows tool
  results and their calls, `LiveContext` does so over whole runs from any transcript. `ToolBatch` and `BatchOrder`
  compare the two execution modes; `EventProtocol` covers the event stream and the Agent state reduced from it;
  `QueueConservation` the message queues; `Witnesses` holds concrete runs. What each decision of the code amounts to, in
  terms of its inputs alone, is stated in `CallOutcomes` (tool calls), `TurnExits` (how turns end) and `WhenCompacting`.
  `Lifecycle` is the slot ordering, `Proxy` the framing and reassembly of the proxied stream.
- **Drift runs** (`packages/drift`). `DriftStore` holds the tables and the transactions over them, `DriftRetention` the
  pruning, `DriftSystem` several processes interleaving those transactions with crashes and recovery, `DriftLoop` the
  model-driven phase machine and the pipeline around it, whose transactions are shown to be enabled in that system.
  `DriftRecords` says what the transactions write, `DriftPhases` what the phases permit and when the loop ends.
- **Chat and gate** (`packages/chat`, `packages/gate`). `Scheduler` (overlapping ticks), `SessionPool` (promise
  callbacks, eviction, reaping) and `DriveSampler` (bisection of an accumulated hazard, over real numbers).

Code that changes state is a method or a class whose contract equates the new state with a specification function; the
results below are lemmas about those functions, for every input or every reachable state. Everything the environment
decides (model replies, summaries, token estimates, hooks, tools, delivery, clocks, random draws, the order in which a
query yields rows) is a parameter.

## Where the code does less than it says

Each of these is proved, with the exact condition where there is one.

- Replay takes marker coordinates as positions in the stored stream, but a stored stream also holds markers: after a
  run with two or more compactions it keeps m already summarised messages again, m being the number of markers stored
  below the covered end (`CompactionReplay.RoundTrip`), and the rebuilt context can start with a tool result whose
  call is gone (`ToolPairing.ReplayPairing`). A whole run that leaves such a stream, and the run after it, are given
  (`Witnesses.ARunLeavesTheOrphaningStream`, `Witnesses.TheNextRunStartsWithAnOrphan`). The comment at
  `packages/agent/src/query-compaction.ts:267-276` says the ranges lie in the original stream. The head comment of
  that file says compactions are not persisted; the code persists them, and the model follows the code.
- Replay applies to the transcript of any number of runs exactly when at most one of them compacted
  (`Transcripts.ReplayAppliesExactly`, `Transcripts.SecondRunDecidesReplay`). After a second compacting run every later
  run starts from the whole uncompacted transcript, markers included, whatever is appended
  (`CompactionReplay.StaysRejected`, `Transcripts.SecondCompactingRunIsNotReplayed`,
  `Transcripts.LaterRunsStartVerbatim`). Tool pairing survives even there (`LiveContext.RunKeepsPairing`).
- A `before_turn` abort of a later turn throws away the messages already polled for it: exactly then
  (`QueueConservation.ConservedTurn`), and a run that reaches it is given (`Witnesses.AnAbortLosesASteeredMessage`).
- `updateRunProgress` is called with the start time of the run, so progress does not renew the lease
  (`DriftSystem.ProgressDoesNotRenewTheLease`). An ending is recorded exactly when the run has no history row
  (`DriftSystem.EndingIsRecordedExactly`), so a pruned row lets a run finish again
  (`DriftSystem.PruningLetsARunFinishTwice`).
- Of the two forced finish attempts of a drift run, the first can succeed exactly when it is the first model call of all
  or a skill has been selected (`DriftLoop.FirstForcedAttemptSucceedsExactly`); a run that wastes it is given
  (`DriftLoop.AWastedAttemptIsReachable`).
- Eviction asks every used session to go, not only the least recently used one, exactly when a new key is requested at
  the session limit (`SessionPool.EvictionAsksEveryone`), and those that are idle by then do go, however far the pool
  falls below the limit (`SessionPool.AskedSessionGoes`); a run that ends with an empty pool is given
  (`SessionPool.EvictionEmptiesThePool`).
- The delay sampler's doubling loop ends exactly when the rate is positive, or is zero for a draw of at most zero
  (`DriveSampler.SolvableExactly`, `DriveSampler.UnsolvableNeverReached`).

## Model

| member | source | states |
|---|---|---|
| `QueryCompaction.OptionsOf` | packages/agent/src/query-compaction.ts:63-69 | window and kept batches are the given ones, raised to 1 at least; the trigger is the whole part of its share of the window |
| `QueryCompaction.QueryCompactor.constructor` | packages/agent/src/query-compaction.ts:60-63 | a new compactor has never compacted |
| `QueryCompaction.QueryCompactor.Select` | packages/agent/src/query-compaction.ts:88-106 | the backward scan finds the specified segment, including the stale case where the last compaction lies beyond the context |
| `QueryCompaction.QueryCompactor.MaybeCompact` | packages/agent/src/query-compaction.ts:75-85 | a plan exactly when the estimate exceeds the trigger, a segment is worth it and the summary is not blank |
| `QueryCompaction.QueryCompactor.RecordCompacted` | packages/agent/src/query-compaction.ts:109-112 | the next segment starts after the summary just spliced in |
| `QueryCompaction.QueryCompactor.Reset` | packages/agent/src/query-compaction.ts:114-116 | forgets the last compaction |
| `QueryCompaction.TailProtectsRecentBatches` | packages/agent/src/query-compaction.ts:90-98 | the tail holds exactly the last `keep` assistants when there are that many, and protects nothing otherwise |
| `QueryCompaction.SegmentBoundaries` | packages/agent/src/query-compaction.ts:99-106 | a segment has at least two messages and ends on an assistant or at the end of the context |
| `QueryCompaction.SegmentExactly` | packages/agent/src/query-compaction.ts:88-106 | the segment is the one stretch that leaves exactly the last `keep` assistants, when it has two messages with work among them |
| `QueryCompaction.PlanExactly` | packages/agent/src/query-compaction.ts:75-85 | the plan covers that segment with the trimmed summary, exactly under those conditions |
| `QueryCompaction.CollectMarkers` | packages/agent/src/query-compaction.ts:243-266 | the scan yields every well-formed marker with its position, in order |
| `QueryCompaction.RangesFor` | packages/agent/src/query-compaction.ts:281-290 | the running sum puts marker i at startIndex - i plus everything covered before |
| `QueryCompaction.CheckBounds` | packages/agent/src/query-compaction.ts:291-294 | the check accepts exactly ascending, disjoint ranges inside the stream |
| `QueryCompaction.CopyRaw` | packages/agent/src/query-compaction.ts:300-303 | a copying loop appends exactly the non-markers of its stretch |
| `QueryCompaction.Splice` | packages/agent/src/query-compaction.ts:297-311 | the cursor loop builds the summaries at their ranges and the other non-markers between |
| `QueryCompaction.ReplayQueryCompactions` | packages/agent/src/query-compaction.ts:277-312 | collecting, checking and splicing together are the specified replay |
| `QueryCompaction.AcceptedContiguous` | packages/agent/src/query-compaction.ts:291-294 | accepted ranges can be walked from the start of the stream with one cursor |
| `QueryCompaction.MarkersExactly` | packages/agent/src/query-compaction.ts:243-266 | the markers of a stream are its compaction messages with both coordinates and a positive count, each once and in order |
| `QueryCompaction.MarkerReadsBack` | packages/agent/src/query-compaction.ts:220-241 | the marker of a plan is hidden and is read back as the plan |
| `CompactionReplay.ReplayKeepsExactlyTheUncovered` | packages/agent/src/query-compaction.ts:277-312 | any stream: unchanged, or every non-marker outside the ranges once and in order, with one summary per marker at its range |
| `CompactionReplay.RecordedCompact` | packages/agent/src/agent-loop.ts:326-345 | splice, record and marker keep the relation between live context and persisted stream |
| `CompactionReplay.RecordedAccepted` | packages/agent/src/query-compaction.ts:291-294 | markers of one run always pass the check |
| `CompactionReplay.RoundTrip` | packages/agent/src/query-compaction.ts:277-312 | live is the summaries then the raw stream from E, the replay the same from E - m; equal exactly when m is 0 |
| `CompactionReplay.SingleCompactionRoundTrip` | packages/agent/src/query-compaction.ts:277-312 | after at most one compaction the replay is the live context |
| `CompactionReplay.SecondRunDisablesReplay` | packages/agent/src/query-compaction.ts:291-294 | markers of two successive runs are always rejected, so the stream comes back unchanged |
| `CompactionReplay.StaysRejected` | packages/agent/src/query-compaction.ts:291-294 | and no extension of such a stream is ever accepted again |
| `ToolPairing.PairedCut` | packages/agent/src/query-compaction.ts:90-98 | a context in which every result follows its call may be cut in front of any message that is not a result |
| `ToolPairing.PairedBatch` | packages/agent/src/agent-loop.ts:300-312 | an assistant followed by results of its own calls is paired |
| `ToolPairing.CompactionKeepsPairing` | packages/agent/src/agent-loop.ts:322-332 | every compaction the compactor plans keeps results with their calls and strictly shortens the context |
| `ToolPairing.ReplayPairing` | packages/agent/src/query-compaction.ts:297-311 | a replayed context is paired exactly when the first message after its summaries is not a tool result |
| `ToolPairing.OrphaningSegments` | packages/agent/src/query-compaction.ts:88-106 | the segments of the counterexample are the ones the compactor chooses |
| `ToolPairing.ReplayCanOrphanAResult` | packages/agent/src/query-compaction.ts:277-312 | a concrete recorded stream whose replay, given in full, has an orphaned result right after the summaries |
| `ToolBatch.CutIsFirstAbort` | packages/agent/src/agent-loop.ts:666-668 | with an abort, the calls taken up are the prefix through the first call after which it is seen |
| `ToolBatch.ExecuteOne` | packages/agent/src/agent-loop.ts:632-660 | a call shows its start, the updates of a call that ran, and one end carrying its final outcome |
| `ToolBatch.ExecuteSequential` | packages/agent/src/agent-loop.ts:621-675 | results in source order, their terminate flag, and the event order call by call |
| `ToolBatch.Preflight` | packages/agent/src/agent-loop.ts:687-726 | starts in source order, at once an end for a call that never runs, and a slot per call |
| `ToolBatch.Advance` | packages/agent/src/agent-loop.ts:710-722 | one running call emits its next event and fills its own slot with its end |
| `ToolBatch.RunConcurrently` | packages/agent/src/agent-loop.ts:728-730 | for every completion order the slots end up holding the outcomes in source order |
| `ToolBatch.EmitResults` | packages/agent/src/agent-loop.ts:731-736 | result messages in source order |
| `ToolBatch.ExecuteParallel` | packages/agent/src/agent-loop.ts:677-742 | for every completion order the same results and terminate flag as sequential mode |
| `ToolBatch.TerminatesBatch` | packages/agent/src/agent-loop.ts:770-772 | a batch terminates exactly when it is not empty and every result asks for it |
| `CallOutcomes.RefusedCall` | packages/agent/src/agent-loop.ts:789-853 | a call that is unknown, refused, aborted first or blocked shows its start and one failed end with the reason, whatever the tool or the after-hook would do |
| `CallOutcomes.ExecutedCall` | packages/agent/src/agent-loop.ts:855-957 | any other call shows its updates in order and the answer of the tool as the after-hook leaves it; a throwing hook gives an error |
| `CallOutcomes.BatchAnswers` | packages/agent/src/agent-loop.ts:569-614 | a reply that was not cut off: each call up to the first abort is answered as it ended, and the run goes on unless all of them asked to terminate |
| `CallOutcomes.CutOffFailsEveryCall` | packages/agent/src/agent-loop.ts:569-614 | a reply that was cut off: every call fails, none shows an update, and the run goes on |
| `CallOutcomes.ModeShows` | packages/agent/src/agent-loop.ts:569-614 | one at a time, no call is running when another starts; otherwise none is running when the first result is delivered; and which of them when |
| `CallOutcomes.RefusedInBatch` | packages/agent/src/agent-loop.ts:621-742 | in either mode and any completion order a refused call of a batch shows its start and its failed end alone |
| `BatchOrder.SequentialPerCall` | packages/agent/src/agent-loop.ts:621-675 | the events of one call are its start, its updates in order, its end |
| `BatchOrder.ParallelPerCall` | packages/agent/src/agent-loop.ts:677-742 | in any completion order a call shows the same events as in sequential mode |
| `BatchOrder.EndsPrecedeResults` | packages/agent/src/agent-loop.ts:728-736 | in parallel mode no tool event follows the first result message |
| `BatchOrder.PendingMeansStartedNotEnded` | packages/agent/src/agent.ts:560-572 | the pending set holds exactly the ids started and not ended since |
| `BatchOrder.PendingAfterSequential` | packages/agent/src/agent.ts:560-572 | a sequential batch leaves none of its calls pending |
| `BatchOrder.PendingAfterParallel` | packages/agent/src/agent.ts:560-572 | neither does a parallel batch, in any completion order |
| `AgentLoop.PendingMessageQueue.constructor` | packages/agent/src/agent.ts:131-133 | a new queue is empty in the given mode |
| `AgentLoop.PendingMessageQueue.Enqueue` | packages/agent/src/agent.ts:135-137 | appends at the back |
| `AgentLoop.PendingMessageQueue.HasItems` | packages/agent/src/agent.ts:139-141 | true exactly when something is queued |
| `AgentLoop.PendingMessageQueue.Drain` | packages/agent/src/agent.ts:143-156 | takes everything or the first message, by mode, and leaves the rest in order |
| `AgentLoop.PendingMessageQueue.Clear` | packages/agent/src/agent.ts:158-160 | empties the queue |
| `AgentLoop.ArriveKeeps` | packages/agent/src/agent.ts:287-294 | external calls append exactly their messages, in order, to the queue they name, and otherwise change modes only |
| `AgentRun.ExecuteToolCalls` | packages/agent/src/agent-loop.ts:569-614 | sequential when configured or asked for by a tool, parallel otherwise, and every call failed unexecuted when the reply was cut off |
| `AgentRun.InjectPending` | packages/agent/src/agent-loop.ts:259-267 | each pending message is announced, then pushed to context and result |
| `AgentRun.StreamAssistantResponse` | packages/agent/src/agent-loop.ts:502-559 | the partial reply in the context is replaced until it is the final message, opened and closed once |
| `AgentRun.CompactIfNeeded` | packages/agent/src/agent-loop.ts:322-348 | splice, record, marker in result and events, or nothing |
| `AgentRun.Respond` | packages/agent/src/agent-loop.ts:280-388 | reply, error exit, tools, turn end, stop check and steering poll are the specified turn |
| `AgentRun.RunTurn` | packages/agent/src/agent-loop.ts:234-389 | one pass of the inner loop, with its three early exits |
| `AgentRun.InnerLoop` | packages/agent/src/agent-loop.ts:234-389 | the inner loop runs turns while calls or steering ask for one |
| `AgentRun.RunLoop` | packages/agent/src/agent-loop.ts:196-404 | nested loops, follow-up polls and early exits together are the specified run |
| `AgentRun.RunAgentLoop` | packages/agent/src/agent-loop.ts:100-142 | opening events, first gate and replay, then the loop |
| `TurnExits.StartsExactly` | packages/agent/src/agent-loop.ts:100-142 | how a run starts: prompts, first gate, replay and the first steering poll unless it is skipped |
| `TurnExits.GateEndsTheRun` | packages/agent/src/agent-loop.ts:238-256 | an aborted gate ends the run with an error message alone and drops what was pending |
| `TurnExits.ReasoningAbortEndsTheRun` | packages/agent/src/agent-loop.ts:259-280 | an abort before reasoning ends it after the pending messages were injected |
| `TurnExits.FailedReplyEndsTheRun` | packages/agent/src/agent-loop.ts:295-303 | a failed or aborted reply ends it: no call is executed, nothing is polled, the last events close turn and run |
| `TurnExits.StopEndsTheRun` | packages/agent/src/agent-loop.ts:350-375 | a stop request ends it after the turn without a poll |
| `TurnExits.TurnEndsExactly` | packages/agent/src/agent-loop.ts:234-404 | in full: a turn ends the run exactly at one of these exits or when it wants no more and both queues are empty; otherwise the run goes on with the front of the queue polled |
| `TurnExits.SoundTurnAdds` | packages/agent/src/agent-loop.ts:280-348 | a turn with a sound reply adds the pending messages, the reply, its results and at most one marker |
| `TurnExits.SettersDecideTheModes` | packages/agent/src/agent.ts:265-294 | the mode of each queue is the latest one set for it, and otherwise stays |
| `TurnExits.TurnsAreNumbered` | packages/agent/src/agent-loop.ts:238-256 | the turns of a run are announced with the numbers 0, 1, 2 and so on |
| `EventProtocol.FinishedRunMeaning` | packages/agent/src/agent-loop.ts:100-142 | an accepted stream starts with its one start, ends with its one end, balances turns, and closes each message before the next, with the announced message itself unless it is an assistant message being streamed |
| `EventProtocol.ReplyCloses` | packages/agent/src/agent-loop.ts:502-559 | a streamed reply opens and closes one message |
| `EventProtocol.ParallelCloses` | packages/agent/src/agent-loop.ts:677-742 | a parallel batch delivers exactly its results and leaves nothing pending |
| `EventProtocol.RunOnWire` | packages/agent/src/agent-loop.ts:196-463 | every run on every exit path keeps the protocol; at its end the announced messages are exactly the ones delivered |
| `EventProtocol.Agent.ProcessEvents` | packages/agent/src/agent.ts:545-583 | the Agent's fields follow the reducer |
| `EventProtocol.Agent.ProcessAll` | packages/agent/src/agent.ts:545-583 | so they do over a whole event stream |
| `EventProtocol.ReducedState` | packages/agent/src/agent.ts:545-583 | transcript and pending set are the delivered messages and the started-not-ended ids |
| `EventProtocol.ReducedFields` | packages/agent/src/agent.ts:545-583 | the streaming message is the one last announced or streamed unless something closed it since, and the error is that of the last turn end that carried one |
| `EventProtocol.TranscriptGrowsByTheResult` | packages/agent/src/agent.ts:545-583 | after a finished run an idle agent's transcript is the old one followed by exactly the run's result |
| `QueueConservation.ConservedTurn` | packages/agent/src/agent-loop.ts:234-389 | a turn conserves both queues and drops messages exactly when a later turn is aborted before it begins |
| `QueueConservation.RunConserves` | packages/agent/src/agent-loop.ts:196-404 | everything enqueued is injected, then pending, then queued: each once and in order |
| `QueueConservation.ConservedRun` | packages/agent/src/agent-loop.ts:100-142 | a run from any entry accounts for all that was queued at its start or arrived since, and drops nothing unless a later turn is aborted before it begins |
| `QueueConservation.Continue` | packages/agent/src/agent.ts:361-388 | steering first, then follow-ups, refusal otherwise, with the queues left as drained |
| `QueueConservation.ContinueExactly` | packages/agent/src/agent.ts:361-388 | every case in full: an empty transcript is refused, one that ends with a question is continued as it is, otherwise the front of the steering queue, else of the follow-up queue, becomes the prompts by its mode, and with both empty it is refused |
| `QueueConservation.ContinueLosesNothing` | packages/agent/src/agent.ts:371-382 | what continuing drained becomes prompts, so nothing leaves the account although one poll is skipped |
| `QueueConservation.ContinuedRunConserves` | packages/agent/src/agent.ts:361-388 | so the whole run that continuing starts accounts for everything queued before it |
| `RunRecord.OverCompact` | packages/agent/src/agent-loop.ts:326-345 | splice, record and marker keep the record over any starting context |
| `RunRecord.RunIsRecorded` | packages/agent/src/agent-loop.ts:100-404 | every run over any transcript: its live context is the summaries of its own compactions, then what it started from and persisted after everything they cover |
| `LoopContext.RunIsFaithful` | packages/agent/src/agent-loop.ts:196-404 | over a transcript without markers, whatever else it holds, every context a run reaches is the one its persisted stream records |
| `LoopContext.NextRunRebuildsContext` | packages/agent/src/agent-loop.ts:109-138 | the next run, with prompts of its own, starts from the replay of transcript and prompts: every summary and everything still live, and exactly the live context with the prompts when no marker lies below the covered end |
| `LoopContext.NextRunPairing` | packages/agent/src/agent-loop.ts:109-138 | over a paired transcript the live context is paired, and the next run starts paired exactly when the first message kept after the summaries is not a tool result |
| `Transcripts.RunAdds` | packages/agent/src/agent-loop.ts:336-340 | a run adds ordinary messages only, exactly when it does not compact, and otherwise markers numbered from zero, whatever the transcript held |
| `Transcripts.ReplayExtends` | packages/agent/src/query-compaction.ts:277-312 | an accepted stream stays accepted when ordinary messages follow, and they are what its replay gains |
| `Transcripts.SecondRunDecidesReplay` | packages/agent/src/agent-loop.ts:132-138 | behind a run that compacted, the transcript is replayed with its compactions exactly when the next run did not compact, and later messages are appended to that |
| `Transcripts.SecondCompactingRunIsNotReplayed` | packages/agent/src/agent-loop.ts:132-138 | after two compacting runs the transcript is replayed verbatim, whatever is appended to it |
| `Transcripts.LaterRunsStartVerbatim` | packages/agent/src/agent-loop.ts:132-138 | so every later run starts from the whole transcript and its prompts |
| `Transcripts.ReplayAppliesExactly` | packages/agent/src/query-compaction.ts:277-312 | any number of runs over one transcript: replay applies exactly when at most one of them compacted |
| `Transcripts.NextRunStartsFrom` | packages/agent/src/agent-loop.ts:109-138 | the context the next run starts from in either case |
| `LiveContext.PairedCompact` | packages/agent/src/agent-loop.ts:322-346 | a compaction inside a run keeps every result with its call and strictly shortens the context |
| `LiveContext.RunKeepsPairing` | packages/agent/src/agent-loop.ts:196-404 | from any paired context, markers in it or not, every context between the turns of a run is paired |
| `LiveContext.PairedInside` | packages/agent/src/agent-loop.ts:259-322 | inside a turn too: the context sent to the model, and the one with the reply and its results before a compaction |
| `LiveContext.RunFromStartIsPaired` | packages/agent/src/agent-loop.ts:100-142 | a run over any transcript whose first context is paired: after any number of turns, in what the next turn sends, and in what it has before its compaction |
| `LiveContext.TurnKeepsSummaries` | packages/agent/src/agent-loop.ts:322-346 | the compaction point stays none or the position of a summary, with only summaries before it |
| `LiveContext.RunKeepsSummaries` | packages/agent/src/agent-loop.ts:196-404 | so it does in every run |
| `WhenCompacting.TurnCompactsExactly` | packages/agent/src/agent-loop.ts:313-348 | a turn compacts exactly when it acts on tool calls, the estimate exceeds the trigger, a segment of the context is worth it and the summary is not blank |
| `WhenCompacting.RunCompactsExactly` | packages/agent/src/agent-loop.ts:196-404 | the compaction point of a run counts such turns |
| `WhenCompacting.QuietRunKeepsEverything` | packages/agent/src/agent-loop.ts:196-404 | a run whose estimates stay at or below the trigger writes no marker and keeps everything in its context |
| `Witnesses.ARunLeavesTheOrphaningStream` | packages/agent/src/agent-loop.ts:196-404 | a whole run of four tool turns and two compactions with a paired context and the stream that orphans a result |
| `Witnesses.TheNextRunStartsWithAnOrphan` | packages/agent/src/agent-loop.ts:132-138 | the run after it starts with a tool result whose call is gone |
| `Witnesses.AnAbortLosesASteeredMessage` | packages/agent/src/agent-loop.ts:238-256 | a whole run in which a steered message is neither injected nor queued when it ends |
| `Lifecycle.CheckSlots` | packages/agent/src/lifecycle.ts:67-86 | the slot checks pass exactly when no slot is blank, produced twice or required but unproduced; an error names a real defect |
| `Lifecycle.FindReady` | packages/agent/src/lifecycle.ts:92-92 | the first pending module all of whose requirements are produced |
| `Lifecycle.Arrange` | packages/agent/src/lifecycle.ts:88-101 | the greedy loop ends with a complete greedy order, or stuck and then no valid order exists |
| `Lifecycle.StuckRefutes` | packages/agent/src/lifecycle.ts:93-96 | when no unplaced module is ready, no order is valid |
| `Lifecycle.ValidOrderMeans` | packages/agent/src/lifecycle.ts:63-103 | a valid order has every module once and everything it requires given by modules before it, its own slot by default |
| `Lifecycle.SlotsOkMeans` | packages/agent/src/lifecycle.ts:67-86 | the slot checks leave no blank slot, none given by two modules and none required that nobody gives |
| `Lifecycle.GreedyIsCanonical` | packages/agent/src/lifecycle.ts:88-102 | the greedy order is valid and lexicographically least |
| `Lifecycle.TopologicallySortModules` | packages/agent/src/lifecycle.ts:63-103 | sorted into the least valid order; the cycle error exactly when the slots are fine and no valid order exists |
| `Proxy.SplitIsExact` | packages/agent/src/proxy.ts:192-193 | the lines are exactly the newline-terminated stretches of the text |
| `Proxy.SplitContinues` | packages/agent/src/proxy.ts:191-193 | continuing from the buffered rest loses and invents no line |
| `Proxy.UnterminatedTextYieldsNothing` | packages/agent/src/proxy.ts:191-213 | text after the last newline is never processed |
| `Proxy.PartialMessage.ProcessProxyEvent` | packages/agent/src/proxy.ts:238-367 | one event updates the partial message in place, or fails without any change |
| `Proxy.ReadLines` | packages/agent/src/proxy.ts:195-206 | the lines of a chunk are processed up to the first failure, which ends the message with an error event |
| `Proxy.ReadStream` | packages/agent/src/proxy.ts:181-207 | message, pushed events and failure depend on the text only, not on its chunks |
| `Proxy.BlocksAreIndependent` | packages/agent/src/proxy.ts:238-349 | a block is what its own events make of it, in any interleaving |
| `Proxy.ReassembledFromOwnDeltas` | packages/agent/src/proxy.ts:246-325 | text, thinking and raw JSON of an open block are the concatenation of its own deltas since its latest start |
| `Proxy.FinishedFromOwnDeltas` | packages/agent/src/proxy.ts:262-345 | a finished block holds its own deltas with the signature, a call the arguments parsed from them; and that block is what is pushed |
| `Proxy.DeltaAfterTheEnd` | packages/agent/src/proxy.ts:307-320 | a delta for a call that has ended starts from the text "undefined" |
| `Proxy.AcceptedExactlyWhenInPlace` | packages/agent/src/proxy.ts:250-345 | processing succeeds exactly when each delta and each text or thinking end meets a block of its kind |
| `Proxy.ConsumerSeesTheMessage` | packages/agent/src/proxy.ts:238-367 | a consumer that follows the pushed events knows every block by its kind, and the text of every text and thinking block |
| `Proxy.StreamIsItsEvents` | packages/agent/src/proxy.ts:191-232 | the message is what the events of the non-blank data lines make of it; a line that does not parse or apply fails the stream with an error event |
| `Proxy.StopFollowsTheLastEnd` | packages/agent/src/proxy.ts:346-358 | stop reason and error message are those of the latest done and error events |
| `DriftStore.DriftStateStore.StartRun` | packages/drift/src/state.ts:442-473 | recovers first, then leases a free session, or reports the holder or a key conflict and changes nothing more |
| `DriftStore.DriftStateStore.UpdateRunProgress` | packages/drift/src/state.ts:476-514 | given fields replace, absent ones keep, an empty hash becomes null, an unknown run is ignored |
| `DriftStore.DriftStateStore.ReleaseActiveRun` | packages/drift/src/state.ts:517-521 | removes only that run's lease |
| `DriftStore.DriftStateStore.RecoverRow` | packages/drift/src/state.ts:532-584 | one stale run becomes a paused history row with its message, one more run of its skill, and no lease |
| `DriftStore.DriftStateStore.RecoverAbandonedRuns` | packages/drift/src/state.ts:524-597 | the transaction does that for every stale run in the order the query yields them |
| `DriftStore.DriftStateStore.FindRun` | packages/drift/src/state.ts:1223-1225 | finds a history row of the run id exactly when there is one |
| `DriftStore.DriftStateStore.AppendJournalEntries` | packages/drift/src/state.ts:1506-1527 | appends the entries that have a type, in order, under the run's row |
| `DriftStore.DriftStateStore.Save` | packages/drift/src/state.ts:1202-1353 | a repeated finish only gives the lease back, a first one writes row, steps, continuity and journal; either way its row is the one remembered; other statuses are refused |
| `DriftStore.DriftStateStore.UpdateLastMessageResult` | packages/drift/src/state.ts:1355-1363 | by run id, else the row saved last, else nothing |
| `DriftStore.DriftStateStore.RecordStep` | packages/drift/src/state.ts:1365-1388 | appends a step that names no history row yet |
| `DriftRecords.FinishWritesTheRow` | packages/drift/src/state.ts:1221-1280 | a first finish writes one history row with what was reported and leaves every other |
| `DriftRecords.FinishWritesContinuity` | packages/drift/src/state.ts:1281-1320 | one more run for the skill; what was not given of scratchpad and cursor stays, a cursor entry without a value is deleted |
| `DriftRecords.FinishLinksItsSteps` | packages/drift/src/state.ts:1258-1280 | exactly the steps of the run, or the unlinked ones of this moment, name the new row |
| `DriftRecords.FinishWritesTheJournal` | packages/drift/src/state.ts:1506-1527 | the typed entries follow the journal in order under the new row |
| `DriftRecords.FinishEndsTheLease` | packages/drift/src/state.ts:1226-1343 | either way only the lease of the run ends, and a repeated finish does nothing else |
| `DriftRecords.RecoveryWrites` | packages/drift/src/state.ts:532-584 | a stale run becomes a paused row that carries its message and counts for its skill |
| `DriftRecords.AbandonedExactly` | packages/drift/src/state.ts:524-531 | a run is abandoned exactly when its last update lies further back than the given time |
| `DriftRecords.MarksExactly` | packages/drift/src/state.ts:1355-1363 | a successful delivery marks the rows of its run, a confirmation the staged rows with its hash |
| `DriftRecords.StartWrites` | packages/drift/src/state.ts:442-473 | a run leases its session exactly when no other run holds it, and its context starts empty |
| `DriftRecords.ProgressWrites` | packages/drift/src/tools.ts:402-448 | the lease row after a selection, a staged message, the start of a finish and a report: stage, skill and message as they came, the rest kept |
| `DriftRecords.EndingWrites` | packages/drift/src/tools.ts:853-883 | the first ending of a run writes its history row with the skill, status and message of that kind of ending |
| `DriftRecords.DeliveryWrites` | packages/gate/src/staged.ts:206-231 | a delivery marks the rows of its run sent, or staged again when it failed, a confirmation the staged rows with its hash; nothing else changes |
| `DriftRetention.MaxRuns` | packages/drift/src/state.ts:158-165 | no limit exactly when none or a negative one is given, and a fractional one is rounded down |
| `DriftRetention.PositionIsRank` | packages/drift/src/state.ts:677-684 | a terminal row's place in the scan is the number of newer terminal rows |
| `DriftRetention.SelectDoomed` | packages/drift/src/state.ts:684-690 | the filter selects exactly the terminal rows that are too old or beyond the newest maxRuns |
| `DriftRetention.DeleteRun` | packages/drift/src/state.ts:696-709 | the deletes of one row take its steps by key and by id, its journal entries and itself |
| `DriftRetention.PruneHistory` | packages/drift/src/state.ts:665-721 | the tables lose exactly the doomed rows with their records, and the counts are how many |
| `DriftRetention.SurvivorsExactly` | packages/drift/src/state.ts:677-690 | a row survives exactly when staged, or within both limits, and then unchanged |
| `DriftRetention.PrunedExactly` | packages/drift/src/state.ts:665-690 | in terms of the tables: a row goes exactly when it is not staged and it ended too long ago or has as many later rows as may be kept |
| `DriftRetention.NoOrphans` | packages/drift/src/state.ts:696-709 | no step or journal entry refers to a removed run |
| `DriftRetention.KeptRunsUntouched` | packages/drift/src/state.ts:696-709 | nothing of a kept run, of skill continuity or of live leases changes |
| `DriftRetention.AtMostMaxRuns` | packages/drift/src/state.ts:684-688 | at most maxRuns terminal rows are left |
| `DriftSystem.ProgressKeeps` | packages/drift/src/state.ts:476-514 | progress with absent fields preserves a recorded message; part of the invariant |
| `DriftSystem.FinishKeeps` | packages/drift/src/state.ts:1221-1343 | every finish path keeps the invariant, carrying the staged message into the history row |
| `DriftSystem.RecoveringKeeps` | packages/drift/src/state.ts:524-597 | so does recovering any number of stale runs |
| `DriftSystem.MarkingKeeps` | packages/gate/src/staged.ts:206-231 | so do delivery marks and their failures |
| `DriftSystem.PruneKeeps` | packages/drift/src/state.ts:696-709 | so does removing a terminal row |
| `DriftSystem.StepKeeps` | packages/drift/src/state.ts:442-597 | every transaction of any process keeps the invariant |
| `DriftSystem.EveryReachableState` | packages/drift/src/state.ts:442-597 | one lease per session, no history row while active, at most one row per run, run counts equal finishes, contexts agree with rows, no recorded message lost |
| `DriftSystem.FinishedAtMostOnce` | packages/drift/src/state.ts:1221-1232 | without pruning no run is ever recorded as finished twice, in any interleaving |
| `DriftSystem.EndedRunIsRecordedExactlyOnce` | packages/drift/src/state.ts:1221-1343 | without pruning, a run that ended has exactly one recorded finish and a history row |
| `DriftSystem.FinishedAgainOnlyAfterPruning` | packages/drift/src/state.ts:1221-1232 | finishes of a run are its pruned rows plus the one still there |
| `DriftSystem.LateFinishChangesNothing` | packages/drift/src/state.ts:1226-1232 | an ending changes no table, count or lease exactly when the run already has a history row |
| `DriftSystem.EndingIsRecordedExactly` | packages/drift/src/state.ts:1221-1232 | an ending is recorded, once, exactly when the run has no history row yet |
| `DriftSystem.ProgressDoesNotRenewTheLease` | packages/drift/src/runtime.ts:255-255 | a run is stale by its start time, however recently it reported progress |
| `DriftSystem.NoStagedMessageIsLost` | packages/drift/src/tools.ts:402-448 | a recorded message is in the active row or a staged history row, unchanged, until marked sent |
| `DriftRecords.DurableMessagesAreRecorded` | packages/drift/src/tools.ts:402-448 | the account that no message is lost from holds every message that is durable in a lease row |
| `DriftRecords.SentOnlyWhenMarked` | packages/gate/src/staged.ts:206-231 | a message counts as sent only when a history row was left that says so |
| `DriftSystem.PruningLetsARunFinishTwice` | packages/drift/src/state.ts:1223-1232 | a concrete interleaving in which pruning defeats the finish-once check |
| `DriftSystem.IdlingAfterAPushWouldLoseIt` | packages/drift/src/tools.ts:853-883 | why the phase rule matters: the finish recorded by idling drops a staged message |
| `DriftSystem.PruningSparesOtherRuns` | packages/drift/src/state.ts:1266-1273 | in reachable states steps belong to one run, so pruning leaves every other run's records alone |
| `DriftLoop.StreamFn` | packages/drift/src/loop-adapter.ts:177-194 | two rejections or a spent budget force the finish, or request a stop before it is allowed |
| `DriftLoop.AttemptTool` | packages/drift/src/loop-adapter.ts:254-296 | a tool runs exactly when offered, allowed by the phase and not denied |
| `DriftLoop.HandleToolCall` | packages/drift/src/loop-adapter.ts:218-324 | counters, context, executed tools, transactions and recorded steps of one call |
| `DriftLoop.FinishTurn` | packages/drift/src/loop-adapter.ts:325-356 | the next offer, wrap-up attempts, stop decision and the pause of an unfinished run |
| `DriftLoop.RunDriftAgentLoop` | packages/drift/src/loop-adapter.ts:107-361 | terminates for every model with the specified result |
| `DriftLoop.CallsAreBounded` | packages/drift/src/loop-adapter.ts:177-194 | at most max(0, maxSteps) + 2 model calls |
| `DriftLoop.PerformedExplained` | packages/drift/src/tools.ts:402-448 | the tools' own checks and the phases allow one staging and one ending |
| `DriftPhases.DriftRunIsBoundedAndSafe` | packages/drift/src/loop-adapter.ts:134-356 | any model: bounded; nothing but the finish runs once a message is staged or the finish is forced, nothing but the choice or the rest before a selection; at most one staged message; exactly one finish on return |
| `DriftPhases.ToolRunsExactly` | packages/drift/src/loop-adapter.ts:134-296 | a tool runs exactly when it is not denied and may run, judged by the transactions made before |
| `DriftPhases.ForcedExactly` | packages/drift/src/loop-adapter.ts:177-194 | the finish is forced by a spent budget, or by two rejections once a message is staged; before that they end the run |
| `DriftPhases.ActsExactly` | packages/drift/src/loop-adapter.ts:254-324 | a tool that runs and goes through makes its own transactions, any other turn none but the closing pause |
| `DriftPhases.CountedExactly` | packages/drift/src/loop-adapter.ts:218-240 | a call is one step, and a rejection exactly when it went wrong and its tool is not permitted after it |
| `DriftPhases.ReturnsExactly` | packages/drift/src/loop-adapter.ts:325-356 | which turns are the last |
| `DriftPhases.PipelineReports` | packages/drift/src/runtime.ts:195-364 | the stages a pipeline run reports in order, and that it hands its lease back exactly after a failure |
| `DriftLoop.FirstForcedAttemptIsWasted` | packages/drift/src/loop-adapter.ts:325-354 | in any run, out of budget after some call and before a selection, the first forced call executes nothing, whatever the model calls |
| `DriftLoop.FirstForcedAttemptSucceedsExactly` | packages/drift/src/loop-adapter.ts:325-354 | in any run, with a model that finishes when forced, the first attempt ends the run exactly when it is the first call or a skill is selected |
| `DriftLoop.AWastedAttemptIsReachable` | packages/drift/src/loop-adapter.ts:325-354 | a run that reaches a wasted attempt |
| `DriftLoop.PipelineFinishesOnce` | packages/drift/src/runtime.ts:195-364 | a pipeline run, failing or not, is a chain of possible transactions with exactly one finish |
| `DriftLoop.ContextFollows` | packages/drift/src/runtime.ts:195-364 | among other processes' transactions a run's context follows its own |
| `DriftLoop.InterleavedRunIsEnabled` | packages/drift/src/runtime.ts:195-364 | in any interleaving each of its transactions is enabled when its turn comes |
| `DriftLoop.PipelineIsRecordedExactlyOnce` | packages/drift/src/runtime.ts:195-364 | a pipeline that runs to its end among other processes, without pruning meanwhile, is recorded as finished exactly once |
| `Scheduler.ParsesEveryDuration` | packages/chat/src/scheduler.ts:217-225 | number, gap and unit letter give amount times unit in milliseconds; zero and any other letter give nothing |
| `Scheduler.ParsesOnlyDurations` | packages/chat/src/scheduler.ts:217-225 | whatever parses is a positive number, a gap and a unit, and has their value |
| `Scheduler.DurationRoundTrip` | packages/chat/src/scheduler.ts:217-225 | reading a written duration gives it back |
| `Scheduler.FirstSlotExactly` | packages/chat/src/scheduler.ts:227-267 | the first slot of a job for each kind of trigger, a time of day being the next instant that has it |
| `Scheduler.NextDailyIsLeast` | packages/chat/src/scheduler.ts:251-255 | a daily slot is the least instant after now with the wanted time of day |
| `Scheduler.NextSlotIsLater` | packages/chat/src/scheduler.ts:269-276 | a claimed repeating job moves past the tick's clock reading by its interval |
| `Scheduler.ChatScheduler.ScheduleJob` | packages/chat/src/scheduler.ts:76-104 | stores an enabled job at its first slot, or nothing when the trigger does not parse |
| `Scheduler.ChatScheduler.CancelJob` | packages/chat/src/scheduler.ts:106-112 | disables an enabled job and says whether there was one |
| `Scheduler.ChatScheduler.RemoveJob` | packages/chat/src/scheduler.ts:115-119 | removes the job |
| `Scheduler.ChatScheduler.FireOne` | packages/chat/src/scheduler.ts:137-156 | claims exactly an enabled job due by the tick's clock, and moves or ends it |
| `Scheduler.ChatScheduler.FireDue` | packages/chat/src/scheduler.ts:137-145 | an uninterrupted tick claims job after job with one clock reading |
| `Scheduler.EveryReachableState` | packages/chat/src/scheduler.ts:137-168 | overlapping ticks with any clock readings and any calls keep every claim behind the next slot |
| `Scheduler.NoSlotIsClaimedTwice` | packages/chat/src/scheduler.ts:147-156 | claims of a job take later and later slots, an interval apart; a one-shot job is claimed at most once |
| `Scheduler.DeadJobsAreNotClaimed` | packages/chat/src/scheduler.ts:106-119 | a cancelled, removed or used-up job is never claimed again |
| `Scheduler.TickClaimsExactly` | packages/chat/src/scheduler.ts:137-156 | a tick claims exactly an enabled job that is due, and moves a repeating one beyond its clock or disables it |
| `Scheduler.CallersActExactly` | packages/chat/src/scheduler.ts:76-119 | what scheduling, cancelling, removing and completing do to one job, and that they leave all others alone |
| `SessionPool.LimitsOf` | packages/chat/src/session-pool.ts:63-67 | both limits are the given ones, at least one; 50 sessions and 30 minutes by default |
| `SessionPool.ChatSessionPool.Get` | packages/chat/src/session-pool.ts:70-84 | the known creation, or a new one in flight after eviction |
| `SessionPool.ChatSessionPool.Evict` | packages/chat/src/session-pool.ts:157-168 | schedules what the LRU scan with its size check schedules |
| `SessionPool.ChatSessionPool.ReapIdle` | packages/chat/src/session-pool.ts:170-181 | schedules a disposal for exactly the keys unused for too long |
| `SessionPool.ChatSessionPool.RunScheduled` | packages/chat/src/session-pool.ts:162-190 | disposes the session if it is idle and still there |
| `SessionPool.EveryReachableState` | packages/chat/src/session-pool.ts:70-190 | the tables agree in every interleaving of requests, settlements, eviction and reaping |
| `SessionPool.OneSessionPerKey` | packages/chat/src/session-pool.ts:70-84 | a key has at most one creation in flight or live session |
| `SessionPool.DisposedAtMostOnce` | packages/chat/src/session-pool.ts:183-190 | every disposal met an idle session, is the only one of that session, and the session is not handed out afterwards |
| `SessionPool.FailureFreesTheKey` | packages/chat/src/session-pool.ts:78-82 | handling a failed creation frees exactly its own key |
| `SessionPool.RequestsExactly` | packages/chat/src/session-pool.ts:70-84 | a request touches the creation it knows and otherwise starts one under a new token |
| `SessionPool.ResolvedSessionIsHandedOut` | packages/chat/src/session-pool.ts:70-84 | a creation that resolves is live, is what its key gets, and is asked to go once idle for long enough |
| `SessionPool.RejectedCreationFails` | packages/chat/src/session-pool.ts:76-84 | one that is rejected is never live, and handling the failure frees the key |
| `SessionPool.ReapAsksExactly` | packages/chat/src/session-pool.ts:170-181 | a reaping asks exactly the sessions unused for the idle time |
| `SessionPool.EvictionAsksEveryone` | packages/chat/src/session-pool.ts:157-168 | a request for a new key asks another session to go exactly when the limit is reached and that session was used |
| `SessionPool.AskedSessionGoes` | packages/chat/src/session-pool.ts:183-190 | a session that was asked is disposed when idle, however far below the limit the pool is |
| `SessionPool.EvictionEmptiesThePool` | packages/chat/src/session-pool.ts:157-190 | a run of two sessions and a third request that disposes both |
| `DriveSampler.Scale` | packages/gate/src/drive.ts:106-107 | the suppressions keep the sign of the rate, never raise it, and take up to nine tenths of it each |
| `DriveSampler.DriveAccumulates` | packages/gate/src/drive.ts:124-126 | over any stretch the mass grows by the stretch times a value between the idle drive at its start and at its end |
| `DriveSampler.FindBracket` | packages/gate/src/drive.ts:111-115 | the doubling loop ends with a reached upper end, and half its width does not reach |
| `DriveSampler.Bisect` | packages/gate/src/drive.ts:116-120 | bisection keeps the upper end reached and everything below the lower end short of the target |
| `DriveSampler.SampleDriftDelayHours` | packages/gate/src/drive.ts:98-122 | a positive delay after which the accumulated mass has reached the target, and not before the last bracket |
| `DriveSampler.DelayIsTight` | packages/gate/src/drive.ts:111-121 | the delay exceeds the exact inverse by at most 2^-63 of it or 2^-64 hours |
| `DriveSampler.ReachedBeyondHorizon` | packages/gate/src/drive.ts:124-126 | with a positive scale the mass grows past any target |
| `DriveSampler.SolvableExactly` | packages/gate/src/drive.ts:106-113 | the condition for termination in terms of rate and draw |
| `DriveSampler.UnsolvableNeverReached` | packages/gate/src/drive.ts:113-115 | otherwise the loop guard holds at every upper end |

## Left out

- Providers, model catalogues, prompt text, briefing rendering, skill files, shell, web and MCP tools: I/O and text; the
  places they feed are parameters.
- Timestamps inside messages, UTF-8 decoding, rounding of floating-point numbers, and time zones with changing offsets.
- Throwing listeners and lifecycle phases, `handleRunFailure`, modules that mutate the arrays they are given, and context
  replacement by `prepareNextTurn` in the agent loop (it is part of the drift loop).
- A run is observed for as many turns as its environment describes; external calls take effect at the queue polls.
- Token estimation and the summary prompt: their answers are parameters. `keepRecentBatches` is a whole number, and the
  compactor exists from the start of a run rather than from its first tool batch.
- The fixed prefix of a summary stands for its text.
- The text of error and rejection messages, event payloads other than those named in the datatypes, and usage totals.
- SQLite itself, identifier and text clipping or trimming, and JSON: tables are maps by row id, a transaction is a step,
  identifiers are taken as already trimmed. Message, media, attachments and target travel as one value, as every caller
  passes them. Self state, the global note, skill hashes and delivery ids are not modelled.
- In `DriftSystem` database operations succeed; a failing one can lose a message staged only in memory.
- The staged-delivery internals of the gate: a delivery either marks the row sent or leaves it staged.
- Drift tools other than select, idle, push and finish have no effect on the context or the tables.
- `AgentSession` itself, `disposeAll`, and the persistence of sessions and of scheduled jobs.
- The scheduler's date texts are parsed by a parameter; the outcome of a delivery is one later step.
- DriveSampler.SampleDriftDelayHours: the exponential and the logarithm are abstract functions with the properties used.
- Proxy.ReadStream: aborts between chunks, the HTTP request and the text of a failure are not modelled.
- DriftRetention.PruneHistory: runs alone, although the rows are selected before its delete transaction begins; among
  other processes each removed row is one step of its own.
- `advanceDriftDrive` and the skill restrictions: closed-form expressions with no further state.
