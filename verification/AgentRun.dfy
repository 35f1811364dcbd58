/** The loop as it runs: local state updated step by step, nested loops and early exits, proved equal to
    the step functions of AgentLoop (packages/agent/src/agent-loop.ts). */
module AgentRun {
  import opened Messages
  import opened QueryCompaction
  import opened ToolBatch
  import opened AgentLoop

  lemma {:induction false} NeverAborted(calls: seq<ToolCall>)
    ensures Cut(TruncatedOracles(calls)) == |calls|
  {
    CutIsFirstAbort(TruncatedOracles(calls));
  }

  /** Runs the batch a reply asks for, in the mode the configuration and the tools call for. */
  method ExecuteToolCalls(turn: Turn) returns (batch: Batch)
    requires ValidTurn(turn) && turn.reply.final.calls != []
    ensures batch == RunBatch(turn)
  {
    var calls := turn.reply.final.calls;
    var events, messages, terminate;
    if turn.reply.final.stop == Length {
      NeverAborted(calls);
      events, messages, terminate := ExecuteSequential(calls, TruncatedOracles(calls));
      assert calls[..|calls|] == calls && TruncatedOracles(calls)[..|calls|] == TruncatedOracles(calls);
      return Batch(events, messages, false);
    }
    if RunsSequentially(turn.tools) {
      events, messages, terminate := ExecuteSequential(calls, turn.tools.oracles);
    } else {
      events, messages, terminate := ExecuteParallel(turn.tools.schedule, calls, turn.tools.oracles);
    }
    return Batch(events, messages, terminate);
  }

  /** Outside calls reaching the queues between two polls. */
  method ArriveAll(start: Loop, actions: seq<Action>) returns (s: Loop)
    ensures s == Arrive(start, actions)
  {
    s := start;
    var k := 0;
    while k < |actions|
      invariant 0 <= k <= |actions|
      invariant Arrive(s, actions[k..]) == Arrive(start, actions)
    {
      assert actions[k..][0] == actions[k] && actions[k..][1..] == actions[k + 1..];
      match actions[k] {
        case Steer(m) =>
          s := s.(steering := s.steering.(items := s.steering.items + [m]));
          s := s.(steered := s.steered + [m]);
        case FollowUp(m) =>
          s := s.(followUp := s.followUp.(items := s.followUp.items + [m]));
          s := s.(followedUp := s.followedUp + [m]);
        case SetSteeringMode(mode) => s := s.(steering := s.steering.(mode := mode));
        case SetFollowUpMode(mode) => s := s.(followUp := s.followUp.(mode := mode));
      }
      k := k + 1;
    }
  }

  /** The injection loop: each pending message is announced, then pushed. */
  method InjectPending(start: Loop) returns (s: Loop)
    ensures s == Inject(start)
  {
    s := start;
    for k := 0 to |start.pending|
      invariant s == Emit(Append(start, start.pending[..k], start.pendingOrigin), AllMessageEvents(start.pending[..k]))
    {
      var message := start.pending[k];
      InjectStep(start, k);
      s := s.(events := s.events + [MessageStart(message)] + [MessageEnd(message)]);
      s := s.(context := s.context + [message], newMessages := s.newMessages + [message],
              origins := s.origins + [start.pendingOrigin]);
    }
    assert start.pending[..|start.pending|] == start.pending;
    s := s.(pending := []);
  }

  /** Streaming: the partial reply is pushed, replaced by each update and finally by the final message. */
  method StreamAssistantResponse(start: Loop, reply: Reply) returns (s: Loop)
    ensures s == StreamReply(start, reply)
  {
    var context, events := start.context, start.events;
    match reply.opening {
      case Some(partial) =>
        context := context + [partial];
        events := events + [MessageStart(partial)];
        for k := 0 to |reply.updates|
          invariant |context| == |start.context| + 1 && context[..|start.context|] == start.context
          invariant events == start.events + ([MessageStart(partial)] + UpdatesOf(reply)[..k])
        {
          context := context[|context| - 1 := reply.updates[k]];
          events := events + [MessageUpdate(reply.updates[k])];
        }
        assert UpdatesOf(reply)[..|reply.updates|] == UpdatesOf(reply);
        context := context[|context| - 1 := reply.final];
        events := events + [MessageEnd(reply.final)];
      case None =>
        context := context + [reply.final];
        events := events + [MessageStart(reply.final)] + [MessageEnd(reply.final)];
    }
    s := start.(context := context, events := events, newMessages := start.newMessages + [reply.final],
                origins := start.origins + Tags(Generated, 1));
  }

  method CompactIfNeeded(config: Config, start: Loop, turn: Turn) returns (s: Loop)
    requires ValidConfig(config) && start.last >= -1
    ensures s == Compact(config, start, turn)
  {
    if config.compaction.None? {
      return start;
    }
    var options := config.compaction.value;
    var plan := PlanFor(options, start.last, start.context, turn.estimated, turn.summary);
    if plan.None? {
      return start;
    }
    SegmentBoundaries(start.context, start.last + 1, options.keepRecentBatches);
    var marker := BuildMarker(plan.value);
    s := start.(context := start.context[..plan.value.startIndex] + [Projection(plan.value.summary)]
                           + start.context[plan.value.endIndex..],
                last := plan.value.startIndex);
    s := s.(newMessages := s.newMessages + [marker], origins := s.origins + [Generated]);
    s := s.(events := s.events + [MessageStart(marker)] + [MessageEnd(marker)]);
  }

  /** Acts on the reply's tool calls; answers the results and whether another turn is due. */
  method Act(config: Config, start: Loop, turn: Turn) returns (s: Loop, results: seq<Message>, hasMore: bool)
    requires ValidConfig(config) && ValidTurn(turn) && start.last >= -1
    ensures s == RunTools(config, start, turn)
    ensures results == ToolResults(turn) && hasMore == HasMore(turn)
  {
    if turn.reply.final.calls == [] {
      return start, [], false;
    }
    var batch := ExecuteToolCalls(turn);
    results, hasMore := batch.messages, !batch.terminate;
    s := CompactIfNeeded(config, Emit(Append(start, results, Generated), batch.events), turn);
  }

  /** What is left to do once the inner loop is over. */
  function AfterInnerLoop(s: Loop, turn: Turn): Loop {
    var late := PollFollowUp(Arrive(s, turn.lateArrivals));
    if late.pending != [] then late else EndRun(late)
  }

  /** Where a turn leads once the inner loop has decided whether to go round again. */
  function Settled(s: Loop, hasMore: bool, turn: Turn): Loop {
    if hasMore || s.pending != [] then s else AfterInnerLoop(s, turn)
  }

  method Respond(config: Config, start: Loop, turn: Turn) returns (s: Loop, stop: bool, hasMore: bool)
    requires ValidConfig(config) && ValidTurn(turn) && start.last >= -1 && !start.ended
    ensures stop == s.ended && s.last >= -1
    ensures RespondAndAct(config, start, turn) == if stop then s else Settled(s, hasMore, turn)
  {
    s := StreamAssistantResponse(start, turn.reply);
    if turn.reply.final.stop == Error || turn.reply.final.stop == Aborted {
      s := EndRun(Emit(s, [TurnEnd(turn.reply.final, [])]));
      return s, true, false;
    }
    var results;
    s, results, hasMore := Act(config, s, turn);
    s := Emit(s, [TurnEnd(turn.reply.final, results)]);
    if turn.stopAfter {
      s := EndRun(s);
      return s, true, false;
    }
    ArriveKeeps(s, turn.arrivals);
    s := ArriveAll(s, turn.arrivals);
    s := PollSteering(s);
    stop := false;
  }

  /** Whether a before_turn phase aborts this turn. */
  predicate AbortedBefore(s: Loop, turn: Turn) {
    !s.firstTurn && turn.beforeTurnAbort.Some?
  }

  lemma {:induction false} BeginKeeps(s: Loop, begun: Loop, injected: Loop)
    requires begun == BeginTurn(s) && injected == Inject(begun)
    ensures injected.last == begun.last == s.last && injected.ended == begun.ended == s.ended
  {
  }

  lemma {:induction false} AbortEnds(s: Loop, reason: string, aborted: Loop)
    requires aborted == EndAborted(s, reason)
    ensures aborted.ended && aborted.last == s.last
  {
  }

  /** The opening of a turn, up to its before_turn phase. */
  method OpenTurn(start: Loop, turn: Turn) returns (s: Loop, stop: bool)
    ensures stop == AbortedBefore(start, turn)
    ensures s == if stop then EndAborted(BeginTurn(start), turn.beforeTurnAbort.value) else BeginTurn(start)
  {
    s, stop := start, false;
    if s.firstTurn {
      s := s.(firstTurn := false);
      return;
    }
    s := s.(turnIndex := s.turnIndex + 1);
    s := Emit(s, [BeforeTurn(s.turnIndex), TurnStart]);
    if turn.beforeTurnAbort.Some? {
      s := EndAborted(s, turn.beforeTurnAbort.value);
      return s, true;
    }
  }

  /** One pass of the inner loop. */
  method RunTurn(config: Config, start: Loop, turn: Turn) returns (s: Loop, stop: bool, hasMore: bool)
    requires ValidConfig(config) && ValidTurn(turn) && start.last >= -1 && !start.ended
    ensures stop == s.ended && s.last >= -1
    ensures TurnStep(config, start, turn) == if stop then s else Settled(s, hasMore, turn)
  {
    hasMore := false;
    BeginKeeps(start, BeginTurn(start), Inject(BeginTurn(start)));
    s, stop := OpenTurn(start, turn);
    if stop {
      AbortEnds(BeginTurn(start), turn.beforeTurnAbort.value, s);
      return;
    }
    s := InjectPending(s);
    if turn.beforeReasoningAbort.Some? {
      AbortEnds(s, turn.beforeReasoningAbort.value, EndAborted(s, turn.beforeReasoningAbort.value));
      s := EndAborted(s, turn.beforeReasoningAbort.value);
      return s, true, false;
    }
    s, stop, hasMore := Respond(config, s, turn);
  }

  /** What the run still does from turn k on. */
  ghost function Rest(config: Config, s: Loop, environment: seq<Turn>, k: nat): Loop
    requires ValidConfig(config) && ValidEnvironment(environment) && k <= |environment|
  {
    if s.last >= -1 then Run(config, s, environment[k..]) else s
  }

  /** The same as a function of the state and the turn; only a mention of Rest brings up what it computes. */
  ghost predicate IsRest(rest: (Loop, nat) -> Loop, config: Config, environment: seq<Turn>)
    requires ValidConfig(config) && ValidEnvironment(environment)
  {
    forall s, k: nat {:trigger Rest(config, s, environment, k)} :: k <= |environment| ==>
      rest(s, k) == Rest(config, s, environment, k)
  }

  /** The inner loop has yet to decide about turn k - 1, if it took one, and the run comes to this end. */
  ghost predicate Underway(rest: (Loop, nat) -> Loop, s: Loop, hasMore: bool, environment: seq<Turn>, k: nat, end: Loop)
    requires k <= |environment|
  {
    && s.last >= -1 && !s.ended
    && rest(if k > 0 then Settled(s, hasMore, environment[k - 1]) else s, k) == end
  }

  lemma {:induction false} RestStep(config: Config, s: Loop, environment: seq<Turn>, k: nat, next: Loop)
    requires ValidConfig(config) && ValidEnvironment(environment) && k < |environment| && s.last >= -1 && !s.ended
    requires next == TurnStep(config, s, environment[k])
    ensures next.last >= -1 && Rest(config, s, environment, k) == Rest(config, next, environment, k + 1)
  {
    TurnKeepsLast(config, s, environment[k]);
    assert environment[k..][0] == environment[k] && environment[k..][1..] == environment[k + 1..];
  }

  lemma {:induction false} RestEnded(config: Config, s: Loop, environment: seq<Turn>, k: nat)
    requires ValidConfig(config) && ValidEnvironment(environment) && k <= |environment|
    requires s.ended || k == |environment|
    ensures Rest(config, s, environment, k) == s
  {
  }

  /** The inner loop takes turn k, if the environment describes one. */
  method TakeTurn(config: Config, start: Loop, environment: seq<Turn>, k: nat, ghost rest: (Loop, nat) -> Loop)
      returns (s: Loop, stop: bool, hasMore: bool)
    requires ValidConfig(config) && ValidEnvironment(environment) && IsRest(rest, config, environment)
    requires k <= |environment| && start.last >= -1 && !start.ended
    ensures stop ==> s == rest(start, k)
    ensures !stop ==> k < |environment| && Underway(rest, s, hasMore, environment, k + 1, rest(start, k))
  {
    if k == |environment| {
      RestEnded(config, start, environment, k);
      return start, true, false;
    }
    ghost var next := TurnStep(config, start, environment[k]);
    RestStep(config, start, environment, k, next);
    s, stop, hasMore := RunTurn(config, start, environment[k]);
    if stop {
      RestEnded(config, s, environment, k + 1);
    }
  }

  /** The inner loop: turns are taken as long as tool calls or steering messages ask for one. */
  method InnerLoop(config: Config, start: Loop, environment: seq<Turn>, from: nat, ghost rest: (Loop, nat) -> Loop)
      returns (s: Loop, k: nat, over: bool)
    requires ValidConfig(config) && ValidEnvironment(environment) && IsRest(rest, config, environment)
    requires from <= |environment| && start.last >= -1 && !start.ended
    ensures over ==> s == rest(start, from)
    ensures !over ==> from < k <= |environment| && s.pending == []
                      && Underway(rest, s, false, environment, k, rest(start, from))
  {
    s, k, over := start, from, false;
    var hasMoreToolCalls := true;
    while hasMoreToolCalls || |s.pending| > 0
      invariant from <= k <= |environment| && (hasMoreToolCalls || k > from)
      invariant Underway(rest, s, hasMoreToolCalls, environment, k, rest(start, from))
      decreases |environment| - k
    {
      s, over, hasMoreToolCalls := TakeTurn(config, s, environment, k, rest);
      if over {
        return;
      }
      k := k + 1;
    }
  }

  /** The outer loop: when the inner loop runs dry, queued follow-ups start it again. */
  method RunLoop(config: Config, start: Loop, environment: seq<Turn>) returns (s: Loop)
    requires ValidConfig(config) && ValidEnvironment(environment) && start.last >= -1 && !start.ended
    ensures s == Run(config, start, environment)
  {
    s := start;
    var k, over := 0, false;
    ghost var rest := (s: Loop, k: nat) => if k <= |environment| then Rest(config, s, environment, k) else s;
    assert environment[0..] == environment;
    while true
      invariant 0 <= k <= |environment| && s.last >= -1 && !s.ended
      invariant rest(s, k) == Run(config, start, environment)
      decreases |environment| - k
    {
      s, k, over := InnerLoop(config, s, environment, k, rest);
      if over {
        return;
      }
      ArriveKeeps(s, environment[k - 1].lateArrivals);
      s := PollFollowUp(Arrive(s, environment[k - 1].lateArrivals));
      if |s.pending| == 0 {
        break;
      }
    }
    s := EndRun(s);
    RestEnded(config, s, environment, k);
  }

  /** A whole run: opening events, the before_turn gate, replay of stored markers, then the loop. */
  method RunAgentLoop(config: Config, entry: Entry, environment: seq<Turn>) returns (s: Loop)
    requires ValidConfig(config) && ValidEnvironment(environment)
    ensures s == Run(config, Start(entry), environment)
  {
    var initial := Opened(entry);
    var events := [AgentStart, BeforeTurn(0), TurnStart];
    for k := 0 to |entry.prompts|
      invariant events == [AgentStart, BeforeTurn(0), TurnStart] + AllMessageEvents(entry.prompts[..k])
    {
      assert entry.prompts[..k + 1][..k] == entry.prompts[..k];
      events := events + [MessageStart(entry.prompts[k])] + [MessageEnd(entry.prompts[k])];
    }
    assert entry.prompts[..|entry.prompts|] == entry.prompts;
    s := initial.(events := events);
    if entry.beforeTurnAbort.Some? {
      s := EndAborted(s, entry.beforeTurnAbort.value);
      return;
    }
    var replayed := ReplayQueryCompactions(s.context);
    s := s.(context := replayed);
    s := ArriveAll(s, entry.arrivals);
    if !entry.skipInitialSteeringPoll {
      s := PollSteering(s);
    }
    ArriveKeeps(initial.(context := replayed), entry.arrivals);
    s := RunLoop(config, s, environment);
  }
}
