/** When a run compacts (packages/agent/src/agent-loop.ts, packages/agent/src/query-compaction.ts). */
module WhenCompacting {
  import opened Messages
  import opened Whitespace
  import opened QueryCompaction
  import opened CompactionReplay
  import opened ToolBatch
  import opened AgentLoop
  import opened LiveContext
  import opened RunRecord
  import opened Transcripts
  import opened TurnExits

  /** The estimate exceeds the trigger, a segment of the context is worth it and the summary is not blank. */
  ghost predicate Overdue(config: Config, context: seq<Message>, last: int, turn: Turn)
    requires last >= -1
  {
    && config.compaction.Some? && turn.estimated > config.compaction.value.triggerTokens && !Blank(turn.summary)
    && WorthCompacting(context, last + 1, config.compaction.value.keepRecentBatches)
  }

  /** The turn acts on tool calls, and then compacting the context is overdue. */
  ghost predicate CompactsIn(config: Config, s: Loop, turn: Turn)
    requires ValidTurn(turn) && s.last >= -1
  {
    && Acts(s, turn) && turn.reply.final.calls != []
    && Overdue(config, s.context + s.pending + ([turn.reply.final] + ToolResults(turn)), s.last, turn)
  }

  lemma {:induction false} CompactExactly(config: Config, s: Loop, turn: Turn, next: Loop)
    requires ValidConfig(config) && s.last >= -1 && next == Compact(config, s, turn)
    ensures next.last == s.last + if Overdue(config, s.context, s.last, turn) then 1 else 0
  {
    if config.compaction.Some? {
      PlanWhenever(config.compaction.value, s.last, s.context, turn.estimated, turn.summary);
    }
  }

  /** A turn compacts exactly then, and once. */
  lemma {:induction false} TurnCompactsExactly(config: Config, s: Loop, turn: Turn, next: Loop)
    requires ValidConfig(config) && ValidTurn(turn) && s.last >= -1 && next == TurnStep(config, s, turn)
    ensures next.last == s.last + if CompactsIn(config, s, turn) then 1 else 0
  {
    if Acts(s, turn) {
      ActingTurnCompacts(config, s, turn, next);
    } else {
      OtherTurnsDoNot(config, s, turn, next);
    }
  }

  lemma {:induction false} ActingTurnCompacts(config: Config, s: Loop, turn: Turn, next: Loop)
    requires ValidConfig(config) && ValidTurn(turn) && s.last >= -1 && next == TurnStep(config, s, turn)
    requires Acts(s, turn)
    ensures next.last == s.last + if CompactsIn(config, s, turn) then 1 else 0
  {
    var injected := Inject(BeginTurn(s));
    Opening(s, BeginTurn(s), injected);
    var acted := RunTools(config, StreamReply(injected, turn.reply), turn);
    ToolsCompactExactly(config, injected, turn, acted);
    NextKeepsLast(CloseTurn(acted, turn), turn);
  }

  lemma {:induction false} OtherTurnsDoNot(config: Config, s: Loop, turn: Turn, next: Loop)
    requires ValidConfig(config) && ValidTurn(turn) && s.last >= -1 && next == TurnStep(config, s, turn)
    requires !Acts(s, turn)
    ensures next.last == s.last
  {
    var injected := Inject(BeginTurn(s));
    Opening(s, BeginTurn(s), injected);
    if GateAborts(s, turn) {
      AbortExit(BeginTurn(s), turn.beforeTurnAbort.value, next);
    } else if turn.beforeReasoningAbort.Some? {
      AbortExit(injected, turn.beforeReasoningAbort.value, next);
    } else {
      FailedReplyEndsTheRun(config, s, turn);
    }
  }

  lemma {:induction false} ToolsCompactExactly(config: Config, s: Loop, turn: Turn, acted: Loop)
    requires ValidConfig(config) && ValidTurn(turn) && s.last >= -1
    requires acted == RunTools(config, StreamReply(s, turn.reply), turn)
    ensures acted.last
            == s.last + if turn.reply.final.calls != []
                           && Overdue(config, s.context + ([turn.reply.final] + ToolResults(turn)), s.last, turn)
                        then 1 else 0
  {
    BatchBeside(s, turn, StreamReply(s, turn.reply));
    if turn.reply.final.calls != [] {
      ActedShape(s, turn);
      CompactExactly(config, Acted(s, turn), turn, acted);
    }
  }

  /** How many turns of the run compact. */
  ghost function CompactingTurns(config: Config, s: Loop, environment: seq<Turn>): nat
    requires ValidConfig(config) && ValidEnvironment(environment) && s.last >= -1
    decreases |environment|
  {
    if s.ended || environment == [] then 0
    else
      TurnKeepsLast(config, s, environment[0]);
      (if CompactsIn(config, s, environment[0]) then 1 else 0)
      + CompactingTurns(config, TurnStep(config, s, environment[0]), environment[1..])
  }

  /** The compaction point of a run counts its compacting turns. */
  lemma {:induction false} RunCompactsExactly(config: Config, s: Loop, environment: seq<Turn>)
    requires ValidConfig(config) && ValidEnvironment(environment) && s.last >= -1
    ensures Run(config, s, environment).last == s.last + CompactingTurns(config, s, environment)
    decreases |environment|
  {
    if !s.ended && environment != [] {
      var next := TurnStep(config, s, environment[0]);
      TurnCompactsExactly(config, s, environment[0], next);
      RunCompactsExactly(config, next, environment[1..]);
    }
  }

  /** No turn exceeds the trigger, or there is no compactor. */
  predicate BelowTrigger(config: Config, environment: seq<Turn>) {
    config.compaction.Some? ==>
      forall k :: 0 <= k < |environment| ==> environment[k].estimated <= config.compaction.value.triggerTokens
  }

  lemma {:induction false} BelowTriggerNeverCompacts(config: Config, s: Loop, environment: seq<Turn>)
    requires ValidConfig(config) && ValidEnvironment(environment) && s.last >= -1 && BelowTrigger(config, environment)
    ensures CompactingTurns(config, s, environment) == 0
    decreases |environment|
  {
    if !s.ended && environment != [] {
      TurnKeepsLast(config, s, environment[0]);
      BelowTriggerNeverCompacts(config, TurnStep(config, s, environment[0]), environment[1..]);
    }
  }

  /** A run whose estimates stay at or below the trigger writes no marker, and its context is what it started from and
      all that it persisted since. */
  lemma {:induction false} QuietRunKeepsEverything(config: Config, entry: Entry, environment: seq<Turn>)
    requires ValidConfig(config) && ValidEnvironment(environment) && UnmarkedEnvironment(environment)
    requires UnmarkedEntry(entry) && BelowTrigger(config, environment)
    ensures var s := Run(config, Start(entry), environment);
            && s.last == -1 && Unmarked(s.newMessages) && entry.prompts <= s.newMessages
            && s.context == FirstContext(entry) + s.newMessages[|entry.prompts|..]
  {
    var s := Run(config, Start(entry), environment);
    RunCompactsExactly(config, Start(entry), environment);
    BelowTriggerNeverCompacts(config, Start(entry), environment);
    RunAdds(config, entry, environment);
    RunIsRecorded(config, entry, environment);
    NothingCovered(FirstContext(entry), s.context, s.newMessages[|entry.prompts|..]);
  }

  lemma {:induction false} NothingCovered(base: seq<Message>, live: seq<Message>, own: seq<Message>)
    requires RecordedOver(base, live, own, -1)
    ensures live == base + own
  {
    UnmarkedExactly(own);
    UnmarkedStream(own);
  }
}
