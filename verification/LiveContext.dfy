/** What every live context of a run keeps, over any transcript: tool results stay with their calls, and the compaction
    point is the position of a summary (packages/agent/src/agent-loop.ts, packages/agent/src/query-compaction.ts). */
module LiveContext {
  import opened Messages
  import opened QueryCompaction
  import opened ToolPairing
  import opened ToolBatch
  import opened AgentLoop

  // ---------------------------------------------------------------------
  // The shape of one turn's additions
  // ---------------------------------------------------------------------

  /** Every one of these is a result of a call of the reply. */
  predicate Answers(final: Message, messages: seq<Message>) {
    forall i :: 0 <= i < |messages| ==> messages[i].ToolResult? && HasCall(final, messages[i].callId)
  }

  lemma {:induction false} ResultsAnswer(final: Message, calls: seq<ToolCall>, oracles: seq<CallOracle>)
    requires final.Assistant? && |calls| == |oracles| && calls <= final.calls
    ensures Answers(final, ResultMessages(Outcomes(calls, oracles)))
  {
    var messages := ResultMessages(Outcomes(calls, oracles));
    forall i | 0 <= i < |messages| ensures messages[i].ToolResult? && HasCall(final, messages[i].callId) {
      assert messages[i].callId == calls[i].id == final.calls[i].id;
    }
  }

  lemma {:induction false} BatchAnswersCalls(turn: Turn)
    requires ValidTurn(turn)
    ensures Answers(turn.reply.final, RunBatch(turn).messages)
  {
    var final, tools := turn.reply.final, turn.tools;
    ResultsAnswer(final, final.calls, TruncatedOracles(final.calls));
    ResultsAnswer(final, final.calls[..Cut(tools.oracles)], tools.oracles[..Cut(tools.oracles)]);
  }

  /** A reply with the results of its batch is paired by itself. */
  lemma {:induction false} ReplyWithResultsPaired(turn: Turn)
    requires ValidTurn(turn)
    ensures Paired([turn.reply.final] + ToolResults(turn))
  {
    if turn.reply.final.calls != [] {
      BatchAnswersCalls(turn);
    }
    PairedBatch(turn.reply.final, ToolResults(turn));
  }

  function Acted(s: Loop, turn: Turn): Loop
    requires ValidTurn(turn) && turn.reply.final.calls != []
  {
    Emit(Append(StreamReply(s, turn.reply), RunBatch(turn).messages, Generated), RunBatch(turn).events)
  }

  lemma {:induction false} ActedShape(s: Loop, turn: Turn)
    requires ValidTurn(turn) && turn.reply.final.calls != []
    ensures var batch := [turn.reply.final] + ToolResults(turn);
            && Acted(s, turn).context == s.context + batch
            && Acted(s, turn).newMessages == s.newMessages + batch
  {
    Reassociate(s.context, [turn.reply.final], ToolResults(turn));
    Reassociate(s.newMessages, [turn.reply.final], ToolResults(turn));
  }

  lemma {:induction false} Reassociate(a: seq<Message>, b: seq<Message>, c: seq<Message>)
    ensures a + b + c == a + (b + c)
  {
  }

  // ---------------------------------------------------------------------
  // Tool pairing over whole runs
  // ---------------------------------------------------------------------

  /** What outside callers put into the queues holds no tool results. */
  predicate ResultFreeActions(actions: seq<Action>) {
    ResultFree(Steers(actions)) && ResultFree(FollowUps(actions))
  }

  predicate ResultFreeTurns(environment: seq<Turn>) {
    forall k :: 0 <= k < |environment| ==>
      ResultFreeActions(environment[k].arrivals) && ResultFreeActions(environment[k].lateArrivals)
  }

  ghost predicate PairedLoop(s: Loop) {
    Paired(s.context) && ResultFree(s.pending) && ResultFree(s.steering.items) && ResultFree(s.followUp.items)
  }

  lemma {:induction false} PairedAppend(s: Loop, more: seq<Message>, next: Loop)
    requires PairedLoop(s) && Paired(more) && next.context == s.context + more
    requires ResultFree(next.pending) && next.steering == s.steering && next.followUp == s.followUp
    ensures PairedLoop(next)
  {
    PairedJoin(s.context, more);
  }

  lemma {:induction false} PairedArrive(s: Loop, actions: seq<Action>)
    requires PairedLoop(s) && ResultFreeActions(actions)
    ensures PairedLoop(Arrive(s, actions))
  {
    ArriveKeeps(s, actions);
  }

  lemma {:induction false} PairedAborted(s: Loop, reason: string)
    requires PairedLoop(s)
    ensures PairedLoop(EndAborted(s, reason))
  {
    ResultFreePaired([AbortNote(reason)]);
    PairedAppend(s, [AbortNote(reason)], EndAborted(s, reason));
  }

  /** A compaction keeps every result with its call and strictly shortens the context. */
  lemma {:induction false} PairedCompact(config: Config, s: Loop, turn: Turn)
    requires ValidConfig(config) && s.last >= -1 && PairedLoop(s)
    ensures PairedLoop(Compact(config, s, turn))
    ensures PlanOf(config, s, turn).Some? ==> |Compact(config, s, turn).context| < |s.context|
  {
    if PlanOf(config, s, turn).Some? {
      CompactionKeepsPairing(s.context, s.last, config.compaction.value, turn.estimated, turn.summary);
    }
  }

  lemma {:induction false} PairedTools(config: Config, s: Loop, turn: Turn, next: Loop)
    requires ValidConfig(config) && ValidTurn(turn) && s.last >= -1 && PairedLoop(s)
    requires next == RunTools(config, StreamReply(s, turn.reply), turn)
    ensures PairedLoop(next)
  {
    ReplyWithResultsPaired(turn);
    if turn.reply.final.calls == [] {
      assert [turn.reply.final] + ToolResults(turn) == [turn.reply.final];
      PairedAppend(s, [turn.reply.final], next);
    } else {
      ActedShape(s, turn);
      PairedAppend(s, [turn.reply.final] + ToolResults(turn), Acted(s, turn));
      PairedCompact(config, Acted(s, turn), turn);
    }
  }

  lemma {:induction false} PairedNext(s: Loop, turn: Turn)
    requires ValidTurn(turn) && PairedLoop(s)
    requires ResultFreeActions(turn.arrivals) && ResultFreeActions(turn.lateArrivals)
    ensures PairedLoop(NextPending(s, turn))
  {
    if !turn.stopAfter {
      var polled := PollSteering(Arrive(s, turn.arrivals));
      PairedPolls(s, turn.arrivals, polled, PollFollowUp(Arrive(s, turn.arrivals)));
      PairedPolls(polled, turn.lateArrivals, PollSteering(Arrive(polled, turn.lateArrivals)),
                  PollFollowUp(Arrive(polled, turn.lateArrivals)));
    }
  }

  lemma {:induction false} PairedPolls(s: Loop, actions: seq<Action>, steering: Loop, followUp: Loop)
    requires PairedLoop(s) && ResultFreeActions(actions)
    requires steering == PollSteering(Arrive(s, actions)) && followUp == PollFollowUp(Arrive(s, actions))
    ensures PairedLoop(steering) && PairedLoop(followUp)
  {
    PairedArrive(s, actions);
  }

  lemma {:induction false} PairedRespond(config: Config, s: Loop, turn: Turn)
    requires ValidConfig(config) && ValidTurn(turn) && s.last >= -1 && PairedLoop(s)
    requires ResultFreeActions(turn.arrivals) && ResultFreeActions(turn.lateArrivals)
    ensures PairedLoop(RespondAndAct(config, s, turn))
  {
    if Failed(turn.reply.final) {
      ResultFreePaired([turn.reply.final]);
      PairedAppend(s, [turn.reply.final], StreamReply(s, turn.reply));
    } else {
      var acted := RunTools(config, StreamReply(s, turn.reply), turn);
      PairedTools(config, s, turn, acted);
      PairedNext(CloseTurn(acted, turn), turn);
    }
  }

  /** The context a turn sends to the model. */
  function Sent(s: Loop): seq<Message> {
    Inject(BeginTurn(s)).context
  }

  /** The context once the results of the batch have been pushed, which is what a compaction gets to see. */
  function Answered(s: Loop, turn: Turn): seq<Message>
    requires ValidTurn(turn)
  {
    Sent(s) + [turn.reply.final] + ToolResults(turn)
  }

  /** Inside a turn: the context sent to the model is paired, and so is the one with the reply and its results. */
  lemma {:induction false} PairedInside(s: Loop, turn: Turn)
    requires ValidTurn(turn) && PairedLoop(s)
    ensures Paired(Sent(s)) && Paired(Answered(s, turn))
    ensures StreamReply(Inject(BeginTurn(s)), turn.reply).context == Sent(s) + [turn.reply.final]
    ensures turn.reply.final.calls != [] ==> Acted(Inject(BeginTurn(s)), turn).context == Answered(s, turn)
  {
    ResultFreePaired(s.pending);
    PairedJoin(s.context, s.pending);
    ReplyWithResultsPaired(turn);
    PairedJoin(Sent(s), [turn.reply.final] + ToolResults(turn));
    Reassociate(Sent(s), [turn.reply.final], ToolResults(turn));
    if turn.reply.final.calls != [] {
      ActedShape(Inject(BeginTurn(s)), turn);
    }
  }

  lemma {:induction false} PairedTurn(config: Config, s: Loop, turn: Turn)
    requires ValidConfig(config) && ValidTurn(turn) && s.last >= -1 && PairedLoop(s)
    requires ResultFreeActions(turn.arrivals) && ResultFreeActions(turn.lateArrivals)
    ensures PairedLoop(TurnStep(config, s, turn))
  {
    var begun := BeginTurn(s);
    if !s.firstTurn && turn.beforeTurnAbort.Some? {
      PairedAborted(begun, turn.beforeTurnAbort.value);
    } else {
      var injected := Inject(begun);
      ResultFreePaired(begun.pending);
      PairedAppend(begun, begun.pending, injected);
      if turn.beforeReasoningAbort.Some? {
        PairedAborted(injected, turn.beforeReasoningAbort.value);
      } else {
        PairedRespond(config, injected, turn);
      }
    }
  }

  /** From any paired context, markers in it or not, every context the run reaches is paired. */
  lemma {:induction false} RunKeepsPairing(config: Config, s: Loop, environment: seq<Turn>)
    requires ValidConfig(config) && ValidEnvironment(environment) && ResultFreeTurns(environment)
    requires s.last >= -1 && PairedLoop(s)
    ensures PairedLoop(Run(config, s, environment))
    decreases |environment|
  {
    if !s.ended && environment != [] {
      PairedTurn(config, s, environment[0]);
      TurnKeepsLast(config, s, environment[0]);
      RunKeepsPairing(config, TurnStep(config, s, environment[0]), environment[1..]);
    }
  }

  /** The context a run starts with: the transcript with the prompts, replayed once the first gate has passed. */
  function FirstContext(entry: Entry): seq<Message> {
    if entry.beforeTurnAbort.Some? then entry.history + entry.prompts else Replay(entry.history + entry.prompts)
  }

  lemma {:induction false} StartKeepsPairing(entry: Entry)
    requires Paired(FirstContext(entry))
    requires ResultFree(entry.steering.items) && ResultFree(entry.followUp.items) && ResultFreeActions(entry.arrivals)
    ensures PairedLoop(Start(entry))
  {
    var initial := Opened(entry);
    if entry.beforeTurnAbort.Some? {
      PairedAborted(initial, entry.beforeTurnAbort.value);
    } else {
      PairedArrive(initial.(context := Replay(initial.context)), entry.arrivals);
    }
  }

  /** So a run over any transcript is paired throughout when the context it starts with is: after any number of turns,
      in what the next turn sends to the model, and in what that turn has before its compaction. */
  lemma {:induction false} RunFromStartIsPaired(config: Config, entry: Entry, environment: seq<Turn>, turn: Turn)
    requires ValidConfig(config) && ValidEnvironment(environment) && ResultFreeTurns(environment) && ValidTurn(turn)
    requires Paired(FirstContext(entry))
    requires ResultFree(entry.steering.items) && ResultFree(entry.followUp.items) && ResultFreeActions(entry.arrivals)
    ensures var s := Run(config, Start(entry), environment);
            Paired(s.context) && Paired(Sent(s)) && Paired(Answered(s, turn))
  {
    StartKeepsPairing(entry);
    RunKeepsPairing(config, Start(entry), environment);
    PairedInside(Run(config, Start(entry), environment), turn);
  }

  // ---------------------------------------------------------------------
  // The compaction point
  // ---------------------------------------------------------------------

  predicate IsSummary(message: Message) {
    message.User? && QUERY_COMPACTION_PREFIX <= message.content
  }

  /** The context opens with the summaries of this run's compactions; last is the position of the newest one. */
  ghost predicate SummariesFirst(s: Loop) {
    -1 <= s.last < |s.context| && forall k :: 0 <= k <= s.last ==> IsSummary(s.context[k])
  }

  lemma {:induction false} SummariesStay(s: Loop, next: Loop)
    requires SummariesFirst(s) && s.context <= next.context && next.last == s.last
    ensures SummariesFirst(next)
  {
  }

  lemma {:induction false} CompactAddsASummary(config: Config, s: Loop, turn: Turn)
    requires ValidConfig(config) && SummariesFirst(s)
    ensures SummariesFirst(Compact(config, s, turn))
    ensures Compact(config, s, turn).last == s.last + if PlanOf(config, s, turn).Some? then 1 else 0
  {
  }

  lemma {:induction false} ToolsKeepSummaries(config: Config, s: Loop, turn: Turn, next: Loop)
    requires ValidConfig(config) && ValidTurn(turn) && SummariesFirst(s)
    requires next == RunTools(config, StreamReply(s, turn.reply), turn)
    ensures SummariesFirst(next)
  {
    if turn.reply.final.calls == [] {
      SummariesStay(s, next);
    } else {
      ActedShape(s, turn);
      SummariesStay(s, Acted(s, turn));
      CompactAddsASummary(config, Acted(s, turn), turn);
    }
  }

  lemma {:induction false} NextKeepsContext(s: Loop, turn: Turn)
    requires ValidTurn(turn)
    ensures NextPending(s, turn).context == s.context && NextPending(s, turn).last == s.last
    ensures NextPending(s, turn).newMessages == s.newMessages
  {
    ArriveKeeps(s, turn.arrivals);
    ArriveKeeps(PollSteering(Arrive(s, turn.arrivals)), turn.lateArrivals);
  }

  lemma {:induction false} RespondKeepsSummaries(config: Config, s: Loop, turn: Turn)
    requires ValidConfig(config) && ValidTurn(turn) && SummariesFirst(s)
    ensures SummariesFirst(RespondAndAct(config, s, turn))
  {
    if Failed(turn.reply.final) {
      SummariesStay(s, StreamReply(s, turn.reply));
    } else {
      var acted := RunTools(config, StreamReply(s, turn.reply), turn);
      ToolsKeepSummaries(config, s, turn, acted);
      NextKeepsContext(CloseTurn(acted, turn), turn);
    }
  }

  /** One turn keeps the summaries at the front and the compaction point at the newest of them. */
  lemma {:induction false} TurnKeepsSummaries(config: Config, s: Loop, turn: Turn)
    requires ValidConfig(config) && ValidTurn(turn) && SummariesFirst(s)
    ensures SummariesFirst(TurnStep(config, s, turn))
  {
    var begun := BeginTurn(s);
    if !s.firstTurn && turn.beforeTurnAbort.Some? {
      SummariesStay(s, EndAborted(begun, turn.beforeTurnAbort.value));
    } else {
      var injected := Inject(begun);
      SummariesStay(s, injected);
      if turn.beforeReasoningAbort.Some? {
        SummariesStay(injected, EndAborted(injected, turn.beforeReasoningAbort.value));
      } else {
        RespondKeepsSummaries(config, injected, turn);
      }
    }
  }

  /** In every run the compaction point is none, or the position of the newest summary inside the context. */
  lemma {:induction false} RunKeepsSummaries(config: Config, s: Loop, environment: seq<Turn>)
    requires ValidConfig(config) && ValidEnvironment(environment) && SummariesFirst(s)
    ensures SummariesFirst(Run(config, s, environment))
    decreases |environment|
  {
    if !s.ended && environment != [] {
      TurnKeepsSummaries(config, s, environment[0]);
      RunKeepsSummaries(config, TurnStep(config, s, environment[0]), environment[1..]);
    }
  }
}
