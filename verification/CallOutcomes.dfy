/** What becomes of each tool call of a reply, in terms of what its environment decides
    (packages/agent/src/agent-loop.ts). */
module CallOutcomes {
  import opened Messages
  import opened ToolBatch
  import opened BatchOrder
  import opened AgentLoop

  // ---------------------------------------------------------------------
  // One call
  // ---------------------------------------------------------------------

  /** The tool is unknown, its arguments are refused, the run is aborted first, or a hook blocks the call. */
  predicate NeverRuns(oracle: CallOracle) {
    !oracle.toolFound || oracle.prepareError.Some? || oracle.abortedWhilePreparing || oracle.block.Some?
  }

  /** The first of these causes gives the reason. */
  predicate Reason(call: ToolCall, oracle: CallOracle, reason: string) {
    && (!oracle.toolFound ==> reason == call.name)
    && (oracle.toolFound && oracle.prepareError.Some? ==> reason == oracle.prepareError.value)
    && (oracle.toolFound && oracle.prepareError.None? ==>
          if oracle.abortedWhilePreparing then reason == "aborted"
          else oracle.block.Some? ==> reason == oracle.block.value)
  }

  /** Such a call shows its start and one failed end with the reason, and nothing that the tool or the after-hook would
      have done. */
  lemma {:induction false} RefusedCall(call: ToolCall, oracle: CallOracle) returns (reason: string)
    requires NeverRuns(oracle)
    ensures Reason(call, oracle, reason)
    ensures CallEvents(call, oracle)
            == [ToolStart(call.id, call.name), ToolEnd(call.id, call.name, Outcome(reason, false), true)]
    ensures FinalOf(call, oracle) == Finalized(call, Outcome(reason, false), true)
  {
    reason := FinalOf(call, oracle).result.output;
  }

  /** What the tool itself answers. */
  predicate Answered(oracle: CallOracle, result: Outcome, failed: bool) {
    match oracle.execution
    case Returns(r) => result == r && !failed
    case Throws(error) => result == Outcome(error, false) && failed
  }

  /** What the after-hook leaves of that answer. */
  predicate Adjusted(oracle: CallOracle, answer: Outcome, failed: bool, result: Outcome, isError: bool) {
    match oracle.after
    case Keeps => result == answer && isError == failed
    case HookThrows(error) => result == Outcome(error, false) && isError
    case Overrides(output, terminate, error) =>
      && (if output.Some? then result.output == output.value else result.output == answer.output)
      && (if terminate.Some? then result.terminate == terminate.value else result.terminate == answer.terminate)
      && (if error.Some? then isError == error.value else isError == failed)
  }

  /** Any other call shows its start, every update of the tool in order and one end with the adjusted answer. */
  lemma {:induction false} ExecutedCall(call: ToolCall, oracle: CallOracle)
      returns (answer: Outcome, failed: bool, result: Outcome, isError: bool)
    requires !NeverRuns(oracle)
    ensures Answered(oracle, answer, failed) && Adjusted(oracle, answer, failed, result, isError)
    ensures FinalOf(call, oracle) == Finalized(call, result, isError)
    ensures var events, n := CallEvents(call, oracle), |oracle.updates|;
            && |events| == n + 2 && events[0] == ToolStart(call.id, call.name)
            && (forall k :: 0 <= k < n ==> events[k + 1] == ToolUpdate(call.id, call.name, oracle.updates[k]))
            && events[n + 1] == ToolEnd(call.id, call.name, result, isError)
  {
    answer, failed, result, isError := FinalAnswer(call, oracle);
    ShownInFull(call, oracle, result, isError);
  }

  lemma {:induction false} FinalAnswer(call: ToolCall, oracle: CallOracle)
      returns (answer: Outcome, failed: bool, result: Outcome, isError: bool)
    requires !NeverRuns(oracle)
    ensures Answered(oracle, answer, failed) && Adjusted(oracle, answer, failed, result, isError)
    ensures FinalOf(call, oracle) == Finalized(call, result, isError)
  {
    answer := match oracle.execution case Returns(r) => r case Throws(error) => Outcome(error, false);
    failed := oracle.execution.Throws?;
    result, isError := FinalOf(call, oracle).result, FinalOf(call, oracle).isError;
  }

  lemma {:induction false} ShownInFull(call: ToolCall, oracle: CallOracle, result: Outcome, isError: bool)
    requires !NeverRuns(oracle) && FinalOf(call, oracle) == Finalized(call, result, isError)
    ensures var events, n := CallEvents(call, oracle), |oracle.updates|;
            && |events| == n + 2 && events[0] == ToolStart(call.id, call.name)
            && (forall k :: 0 <= k < n ==> events[k + 1] == ToolUpdate(call.id, call.name, oracle.updates[k]))
            && events[n + 1] == ToolEnd(call.id, call.name, result, isError)
  {
  }

  // ---------------------------------------------------------------------
  // The batch of a reply
  // ---------------------------------------------------------------------

  /** How a call of a batch ended, whatever its mode. */
  ghost predicate Ended(call: ToolCall, oracle: CallOracle, message: Message, terminate: bool) {
    && message.ToolResult? && message.callId == call.id && message.toolName == call.name
    && if NeverRuns(oracle) then Reason(call, oracle, message.output) && message.isError && !terminate
       else exists answer, failed ::
              && Answered(oracle, answer, failed)
              && Adjusted(oracle, answer, failed, Outcome(message.output, terminate), message.isError)
  }

  lemma {:induction false} FinalEnded(call: ToolCall, oracle: CallOracle)
    ensures Ended(call, oracle, ResultMessage(FinalOf(call, oracle)), FinalOf(call, oracle).result.terminate)
  {
    if NeverRuns(oracle) {
      var reason := RefusedCall(call, oracle);
    } else {
      var answer, failed, result, isError := ExecutedCall(call, oracle);
      assert Answered(oracle, answer, failed) && Adjusted(oracle, answer, failed, result, isError);
    }
  }

  /** A reply that was not cut off: the calls up to the first abort are answered, each as it ended, and the run goes on
      unless there are such calls and every one asked to terminate. */
  lemma {:induction false} BatchAnswers(turn: Turn) returns (terminates: seq<bool>)
    requires ValidTurn(turn) && turn.reply.final.calls != [] && turn.reply.final.stop != Length
    ensures var calls, oracles, messages := turn.reply.final.calls, turn.tools.oracles, ToolResults(turn);
            && |messages| == |terminates| == Cut(oracles) <= |calls|
            && (forall i :: 0 <= i < |messages| ==> Ended(calls[i], oracles[i], messages[i], terminates[i]))
            && (HasMore(turn) <==> exists i :: 0 <= i < |messages| && !terminates[i])
  {
    var calls, oracles := turn.reply.final.calls, turn.tools.oracles;
    var cut := Cut(oracles);
    var outcomes := Outcomes(calls[..cut], oracles[..cut]);
    CutTakesSome(oracles);
    terminates := seq(cut, i requires 0 <= i < cut => outcomes[i].result.terminate);
    forall i | 0 <= i < cut ensures Ended(calls[i], oracles[i], ToolResults(turn)[i], terminates[i]) {
      assert calls[..cut][i] == calls[i] && oracles[..cut][i] == oracles[i];
      FinalEnded(calls[i], oracles[i]);
    }
    MoreUnlessAllTerminate(turn, outcomes, terminates);
  }

  lemma {:induction false} MoreUnlessAllTerminate(turn: Turn, outcomes: seq<Finalized>, terminates: seq<bool>)
    requires ValidTurn(turn) && turn.reply.final.calls != [] && turn.reply.final.stop != Length
    requires Cut(turn.tools.oracles) > 0
    requires var cut := Cut(turn.tools.oracles);
             outcomes == Outcomes(turn.reply.final.calls[..cut], turn.tools.oracles[..cut])
    requires |terminates| == |outcomes|
             && forall i :: 0 <= i < |outcomes| ==> terminates[i] == outcomes[i].result.terminate
    ensures HasMore(turn) <==> exists i :: 0 <= i < |terminates| && !terminates[i]
  {
    if HasMore(turn) {
      var i :| 0 <= i < |outcomes| && !outcomes[i].result.terminate;
      assert !terminates[i];
    }
  }

  lemma {:induction false} CutTakesSome(oracles: seq<CallOracle>)
    ensures oracles != [] ==> Cut(oracles) > 0
  {
    if oracles != [] {
      assert Cut(oracles[1..]) >= 0;
    }
  }

  /** A reply that was cut off: no call is executed, every one fails, and the run goes on. */
  lemma {:induction false} CutOffFailsEveryCall(turn: Turn)
    requires ValidTurn(turn) && turn.reply.final.calls != [] && turn.reply.final.stop == Length
    ensures var calls, messages := turn.reply.final.calls, ToolResults(turn);
            && |messages| == |calls| && HasMore(turn)
            && (forall i :: 0 <= i < |calls| ==>
                  messages[i].ToolResult? && messages[i].callId == calls[i].id && messages[i].isError)
            && Quiet(RunBatch(turn).events)
  {
    var calls := turn.reply.final.calls;
    forall i | 0 <= i < |calls|
      ensures ToolResults(turn)[i].ToolResult? && ToolResults(turn)[i].callId == calls[i].id
              && ToolResults(turn)[i].isError
    {
      var reason := RefusedCall(calls[i], TruncatedOracles(calls)[i]);
    }
    assert ToolResults(turn) == ResultMessages(Outcomes(calls, TruncatedOracles(calls)));
    RefusedQuietly(calls, TruncatedOracles(calls));
    assert RunBatch(turn).events == SequentialEvents(calls, TruncatedOracles(calls));
  }

  lemma {:induction false} RefusedQuietly(calls: seq<ToolCall>, oracles: seq<CallOracle>)
    requires |calls| == |oracles| && forall i :: 0 <= i < |calls| ==> NeverRuns(oracles[i])
    ensures Quiet(SequentialEvents(calls, oracles))
  {
    if calls != [] {
      var n := |calls| - 1;
      var head := SequentialEvents(calls[..n], oracles[..n]);
      RefusedQuietly(calls[..n], oracles[..n]);
      var reason := RefusedCall(calls[n], oracles[n]);
      QuietJoin(head, CallEvents(calls[n], oracles[n]));
      QuietJoin(head + CallEvents(calls[n], oracles[n]), MessageEvents(ResultMessage(FinalOf(calls[n], oracles[n]))));
    }
  }

  /** No tool shows an update. */
  predicate Quiet(events: seq<Event>) {
    forall k :: 0 <= k < |events| ==> !events[k].ToolUpdate?
  }

  lemma {:induction false} QuietJoin(a: seq<Event>, b: seq<Event>)
    requires Quiet(a) && Quiet(b)
    ensures Quiet(a + b)
  {
  }

  /** Whether the calls of a turn run one at a time: configured so, or a tool that exists wants it. */
  predicate OneByOne(tools: Tools) {
    || tools.sequentialMode
    || exists i :: 0 <= i < |tools.oracles| && tools.oracles[i].toolFound && tools.oracles[i].sequentialOnly
  }

  lemma {:induction false} NothingPendingAtStarts(calls: seq<ToolCall>, oracles: seq<CallOracle>, b: nat)
    requires |calls| == |oracles| && b < |SequentialEvents(calls, oracles)|
    requires SequentialEvents(calls, oracles)[b].ToolStart?
    ensures PendingAfter({}, SequentialEvents(calls, oracles)[..b]) == {}
    decreases |calls|
  {
    var n := |calls| - 1;
    var head := SequentialEvents(calls[..n], oracles[..n]);
    var events := SequentialEvents(calls, oracles);
    if b < |head| {
      NothingPendingAtStarts(calls[..n], oracles[..n], b);
      assert events[..b] == head[..b];
    } else {
      OneStart(calls[n], oracles[n]);
      assert events == head + (CallEvents(calls[n], oracles[n])
                               + MessageEvents(ResultMessage(FinalOf(calls[n], oracles[n]))));
      assert events[..b] == head;
      PendingAfterSequential({}, calls[..n], oracles[..n]);
    }
  }

  lemma {:induction false} OneStart(call: ToolCall, oracle: CallOracle)
    ensures var events := CallEvents(call, oracle) + MessageEvents(ResultMessage(FinalOf(call, oracle)));
            forall k :: 0 < k < |events| ==> !events[k].ToolStart?
  {
  }

  /** One at a time: whenever a call starts, no other is running. Otherwise: no call is running any more when the first
      result is delivered. */
  lemma {:induction false} ModeShows(turn: Turn)
    requires ValidTurn(turn) && turn.reply.final.calls != [] && turn.reply.final.stop != Length
    ensures var events := RunBatch(turn).events;
            if OneByOne(turn.tools) then
              forall b :: 0 <= b < |events| && events[b].ToolStart? ==> PendingAfter({}, events[..b]) == {}
            else
              forall a, b :: 0 <= a < b < |events| && events[a].MessageStart? ==> EventCall(events[b]).None?
  {
    var cut := Cut(turn.tools.oracles);
    var calls, oracles := turn.reply.final.calls[..cut], turn.tools.oracles[..cut];
    if OneByOne(turn.tools) {
      forall b | 0 <= b < |RunBatch(turn).events| && RunBatch(turn).events[b].ToolStart?
        ensures PendingAfter({}, RunBatch(turn).events[..b]) == {}
      {
        NothingPendingAtStarts(calls, oracles, b);
      }
    } else {
      EndsPrecedeResults(turn.tools.schedule, calls, oracles);
    }
  }

  // ---------------------------------------------------------------------
  // A refused call among others
  // ---------------------------------------------------------------------

  /** In either mode and in any completion order, a refused call of a batch shows its start and its failed end alone. */
  lemma {:induction false} RefusedInBatch(turn: Turn, i: nat) returns (reason: string)
    requires ValidTurn(turn) && turn.reply.final.stop != Length && i < Cut(turn.tools.oracles)
    requires DistinctIds(turn.reply.final.calls) && NeverRuns(turn.tools.oracles[i])
    ensures var call, oracle := turn.reply.final.calls[i], turn.tools.oracles[i];
            && Reason(call, oracle, reason)
            && ToolResults(turn)[i] == ToolResult(call.id, call.name, reason, true)
            && Project(RunBatch(turn).events, call.id)
               == [ToolStart(call.id, call.name), ToolEnd(call.id, call.name, Outcome(reason, false), true)]
  {
    var cut := Cut(turn.tools.oracles);
    var calls, oracles := turn.reply.final.calls[..cut], turn.tools.oracles[..cut];
    reason := RefusedCall(turn.reply.final.calls[i], turn.tools.oracles[i]);
    assert DistinctIds(calls) && calls[i] == turn.reply.final.calls[i] && oracles[i] == turn.tools.oracles[i];
    if RunsSequentially(turn.tools) {
      SequentialPerCall(calls, oracles, i);
    } else {
      ParallelPerCall(turn.tools.schedule, calls, oracles, i);
    }
  }
}
