/** How a turn ends the run or leads to the next one (packages/agent/src/agent-loop.ts). */
module TurnExits {
  import opened Messages
  import opened QueryCompaction
  import opened ToolBatch
  import opened AgentLoop
  import opened LiveContext

  /** A before_turn phase of a later turn aborts it. */
  predicate GateAborts(s: Loop, turn: Turn) {
    !s.firstTurn && turn.beforeTurnAbort.Some?
  }

  predicate ReplyFails(turn: Turn) {
    turn.reply.final.Assistant? && turn.reply.final.stop in {Error, Aborted}
  }

  /** The run is over, with these messages of its turn and these closing events; nothing was polled or lost on the way,
      but for what pending had been polled before. */
  predicate EndsWith(s: Loop, next: Loop, messages: seq<Message>, reply: Message, results: seq<Message>) {
    && next.ended && next.newMessages == s.newMessages + messages
    && ClosesWith(next, reply, results)
    && next.steering == s.steering && next.followUp == s.followUp && next.pending == []
  }

  lemma {:induction false} LastTwo(events: seq<Event>, a: Event, b: Event)
    ensures (events + [a] + [b])[|events + [a] + [b]| - 2..] == [a, b]
  {
  }

  lemma {:induction false} AbortExit(s: Loop, reason: string, next: Loop)
    requires next == EndAborted(s, reason)
    ensures EndsWith(s, next, [Assistant("", [], Error, Some(reason))], Assistant("", [], Error, Some(reason)), [])
    ensures next.last == s.last && next.dropped == s.dropped + s.pending
  {
    var note := Assistant("", [], Error, Some(reason));
    LastTwo(s.events + MessageEvents(note), TurnEnd(note, []), AgentEnd(next.newMessages));
  }

  lemma {:induction false} Opening(s: Loop, begun: Loop, injected: Loop)
    requires begun == BeginTurn(s) && injected == Inject(begun)
    ensures begun.steering == s.steering && begun.followUp == s.followUp && begun.newMessages == s.newMessages
    ensures begun.pending == s.pending && begun.last == s.last && begun.context == s.context
            && begun.dropped == s.dropped
    ensures injected.steering == s.steering && injected.followUp == s.followUp && injected.pending == []
    ensures injected.newMessages == s.newMessages + s.pending && injected.last == s.last
    ensures injected.context == s.context + s.pending && injected.ended == begun.ended == s.ended
  {
  }

  /** An aborted gate ends the run at once: an error message that carries the reason is all that the turn adds, and
      what was pending is dropped. */
  lemma {:induction false} GateEndsTheRun(config: Config, s: Loop, turn: Turn)
    requires ValidConfig(config) && ValidTurn(turn) && s.last >= -1 && GateAborts(s, turn)
    ensures var note := Assistant("", [], Error, Some(turn.beforeTurnAbort.value));
            var next := TurnStep(config, s, turn);
            EndsWith(s, next, [note], note, []) && next.dropped == s.dropped + s.pending
  {
    Opening(s, BeginTurn(s), Inject(BeginTurn(s)));
    AbortExit(BeginTurn(s), turn.beforeTurnAbort.value, TurnStep(config, s, turn));
  }

  /** An abort before reasoning does so after the pending messages were injected: none is dropped. */
  lemma {:induction false} ReasoningAbortEndsTheRun(config: Config, s: Loop, turn: Turn)
    requires ValidConfig(config) && ValidTurn(turn) && s.last >= -1
    requires !GateAborts(s, turn) && turn.beforeReasoningAbort.Some?
    ensures var note := Assistant("", [], Error, Some(turn.beforeReasoningAbort.value));
            var next := TurnStep(config, s, turn);
            EndsWith(s, next, s.pending + [note], note, []) && next.dropped == s.dropped
  {
    var injected := Inject(BeginTurn(s));
    Opening(s, BeginTurn(s), injected);
    AbortExit(injected, turn.beforeReasoningAbort.value, TurnStep(config, s, turn));
    assert s.newMessages + s.pending + [AbortNote(turn.beforeReasoningAbort.value)]
           == s.newMessages + (s.pending + [AbortNote(turn.beforeReasoningAbort.value)]);
  }

  /** The turn gets as far as a reply. */
  predicate Replies(s: Loop, turn: Turn) {
    !GateAborts(s, turn) && turn.beforeReasoningAbort.None?
  }

  /** A failed or aborted reply ends the run: its calls are not executed and nothing is polled. */
  lemma {:induction false} FailedReplyEndsTheRun(config: Config, s: Loop, turn: Turn)
    requires ValidConfig(config) && ValidTurn(turn) && s.last >= -1 && Replies(s, turn) && ReplyFails(turn)
    ensures var next := TurnStep(config, s, turn);
            && EndsWith(s, next, s.pending + [turn.reply.final], turn.reply.final, [])
            && next.context == s.context + s.pending + [turn.reply.final] && next.last == s.last
  {
    var injected := Inject(BeginTurn(s));
    Opening(s, BeginTurn(s), injected);
    var next := TurnStep(config, s, turn);
    LastTwo(StreamReply(injected, turn.reply).events, TurnEnd(turn.reply.final, []), AgentEnd(next.newMessages));
    assert s.newMessages + s.pending + [turn.reply.final] == s.newMessages + (s.pending + [turn.reply.final]);
  }

  /** What a turn with a sound reply adds: the pending messages, the reply, its results, and a marker if it compacts. */
  predicate Adds(s: Loop, turn: Turn, added: seq<Message>, compacts: bool)
    requires ValidTurn(turn)
  {
    var batch := s.pending + ([turn.reply.final] + ToolResults(turn));
    if compacts then |added| == |batch| + 1 && batch <= added && IsMarker(added[|batch|]) else added == batch
  }

  /** Only the context, the messages and the events moved. */
  predicate Beside(s: Loop, next: Loop) {
    && next.steering == s.steering && next.followUp == s.followUp && next.pending == s.pending
    && next.ended == s.ended && next.dropped == s.dropped && next.last >= s.last
  }

  lemma {:induction false} BatchBeside(s: Loop, turn: Turn, replied: Loop)
    requires ValidTurn(turn) && replied == StreamReply(s, turn.reply)
    ensures Beside(s, replied) && replied.last == s.last && replied.newMessages == s.newMessages + [turn.reply.final]
    ensures turn.reply.final.calls != [] ==> Beside(s, Acted(s, turn)) && Acted(s, turn).last == s.last
  {
  }

  lemma {:induction false} ToolsAdd(config: Config, s: Loop, turn: Turn, injected: Loop, acted: Loop)
      returns (added: seq<Message>)
    requires ValidConfig(config) && ValidTurn(turn) && s.last >= -1
    requires injected.newMessages == s.newMessages + s.pending && injected.last == s.last
    requires acted == RunTools(config, StreamReply(injected, turn.reply), turn)
    ensures Adds(s, turn, added, acted.last > s.last) && acted.newMessages == s.newMessages + added
    ensures Beside(injected, acted)
  {
    var batch := s.pending + ([turn.reply.final] + ToolResults(turn));
    Regrouped(s.newMessages, s.pending, [turn.reply.final] + ToolResults(turn));
    BatchBeside(injected, turn, StreamReply(injected, turn.reply));
    if turn.reply.final.calls == [] {
      added := batch;
      assert [turn.reply.final] + ToolResults(turn) == [turn.reply.final];
    } else {
      ActedShape(injected, turn);
      added := Marked(config, Acted(injected, turn), turn, acted, s.newMessages, batch);
    }
  }

  lemma {:induction false} Regrouped(a: seq<Message>, b: seq<Message>, c: seq<Message>)
    ensures a + b + c == a + (b + c)
  {
  }

  lemma {:induction false} Marked(config: Config, s: Loop, turn: Turn, next: Loop, before: seq<Message>,
                                  batch: seq<Message>) returns (added: seq<Message>)
    requires ValidConfig(config) && s.last >= -1 && next == Compact(config, s, turn)
    requires s.newMessages == before + batch
    ensures next.newMessages == before + added && Beside(s, next)
    ensures if next.last > s.last then |added| == |batch| + 1 && batch <= added && IsMarker(added[|batch|])
            else added == batch
  {
    match PlanOf(config, s, turn) {
      case None => added := batch;
      case Some(plan) =>
        added := batch + [BuildMarker(plan)];
        assert before + batch + [BuildMarker(plan)] == before + added;
    }
  }

  // ---------------------------------------------------------------------
  // After a sound reply
  // ---------------------------------------------------------------------

  /** The turn has a sound reply. */
  predicate Acts(s: Loop, turn: Turn) {
    Replies(s, turn) && !ReplyFails(turn)
  }

  /** The state in which a turn with a sound reply closes, before it stops or polls. */
  lemma {:induction false} ClosedTurn(config: Config, s: Loop, turn: Turn, next: Loop)
      returns (closed: Loop, added: seq<Message>)
    requires ValidConfig(config) && ValidTurn(turn) && s.last >= -1 && Acts(s, turn)
    requires next == TurnStep(config, s, turn)
    ensures next == NextPending(closed, turn)
    ensures Adds(s, turn, added, closed.last > s.last) && closed.newMessages == s.newMessages + added
    ensures closed.steering == s.steering && closed.followUp == s.followUp && closed.pending == []
    ensures closed.ended == s.ended
    ensures |closed.events| >= 1 && closed.events[|closed.events| - 1] == TurnEnd(turn.reply.final, ToolResults(turn))
  {
    var injected := Inject(BeginTurn(s));
    Opening(s, BeginTurn(s), injected);
    var acted := RunTools(config, StreamReply(injected, turn.reply), turn);
    added := ToolsAdd(config, s, turn, injected, acted);
    closed := CloseTurn(acted, turn);
  }

  lemma {:induction false} ClosedStops(s: Loop, turn: Turn, closed: Loop, next: Loop, added: seq<Message>)
    requires ValidTurn(turn) && closed.newMessages == s.newMessages + added && closed.pending == []
    requires closed.steering == s.steering && closed.followUp == s.followUp
    requires |closed.events| >= 1 && closed.events[|closed.events| - 1] == TurnEnd(turn.reply.final, ToolResults(turn))
    requires turn.stopAfter && next == NextPending(closed, turn)
    ensures EndsWith(s, next, added, turn.reply.final, ToolResults(turn)) && next.last == closed.last
  {
    assert next.events == closed.events + [AgentEnd(closed.newMessages)];
  }

  /** A stop request after a turn ends the run without a poll. */
  lemma {:induction false} StopEndsTheRun(config: Config, s: Loop, turn: Turn) returns (added: seq<Message>)
    requires ValidConfig(config) && ValidTurn(turn) && s.last >= -1 && Acts(s, turn) && turn.stopAfter
    ensures var next := TurnStep(config, s, turn);
            EndsWith(s, next, added, turn.reply.final, ToolResults(turn)) && Adds(s, turn, added, next.last > s.last)
  {
    var next := TurnStep(config, s, turn);
    var closed;
    closed, added := ClosedTurn(config, s, turn, next);
    ClosedStops(s, turn, closed, next, added);
  }

  /** What steering is polled from, and what follow-ups would be. */
  function SteeringThen(s: Loop, turn: Turn): seq<Message> {
    s.steering.items + Steers(turn.arrivals)
  }

  function FollowUpsThen(s: Loop, turn: Turn): seq<Message> {
    s.followUp.items + FollowUps(turn.arrivals) + FollowUps(turn.lateArrivals)
  }

  /** The turn asked for another one itself. */
  predicate WantsMore(turn: Turn)
    requires ValidTurn(turn)
  {
    turn.reply.final.calls != [] && HasMore(turn)
  }

  /** The poll took the front of the queue: all of it, or the first message when they are delivered one at a time. */
  predicate Polled(items: seq<Message>, taken: seq<Message>, left: Queue) {
    && taken + left.items == items
    && (left.mode.DrainAll? ==> left.items == [])
    && (left.mode.OneAtATime? ==> |taken| == if items == [] then 0 else 1)
  }

  lemma {:induction false} SteeringPoll(s: Loop, turn: Turn, polled: Loop)
    requires polled == PollSteering(Arrive(s, turn.arrivals))
    ensures Polled(s.steering.items + Steers(turn.arrivals), polled.pending, polled.steering)
    ensures polled.followUp.items == s.followUp.items + FollowUps(turn.arrivals)
    ensures polled.newMessages == s.newMessages && polled.events == s.events && polled.last == s.last
    ensures polled.ended == s.ended && polled.pendingOrigin == Steered
  {
    ArriveKeeps(s, turn.arrivals);
  }

  lemma {:induction false} FollowUpPoll(s: Loop, turn: Turn, late: Loop)
    requires late == PollFollowUp(Arrive(s, turn.lateArrivals))
    ensures Polled(s.followUp.items + FollowUps(turn.lateArrivals), late.pending, late.followUp)
    ensures late.steering.items == s.steering.items + Steers(turn.lateArrivals)
    ensures late.newMessages == s.newMessages && late.events == s.events && late.last == s.last
    ensures late.ended == s.ended && late.pendingOrigin == FollowedUp
  {
    ArriveKeeps(s, turn.lateArrivals);
  }

  /** How the run goes on: with steering when the turn wants more or there is any, otherwise with follow-ups. */
  predicate GoesOn(s: Loop, turn: Turn, next: Loop)
    requires ValidTurn(turn)
  {
    && !next.ended
    && if WantsMore(turn) || SteeringThen(s, turn) != [] then
         && Polled(SteeringThen(s, turn), next.pending, next.steering) && next.pendingOrigin == Steered
         && next.followUp.items == s.followUp.items + FollowUps(turn.arrivals)
       else
         && Polled(FollowUpsThen(s, turn), next.pending, next.followUp) && next.pendingOrigin == FollowedUp
         && next.pending != [] && next.steering.items == Steers(turn.lateArrivals)
  }

  lemma {:induction false} ClosedGoesOn(s: Loop, turn: Turn, closed: Loop, next: Loop)
    requires ValidTurn(turn) && !turn.stopAfter && !closed.ended && next == NextPending(closed, turn)
    requires closed.steering == s.steering && closed.followUp == s.followUp
    ensures next.newMessages == closed.newMessages && next.last == closed.last
    ensures if WantsMore(turn) || SteeringThen(s, turn) != [] || FollowUpsThen(s, turn) != [] then GoesOn(s, turn, next)
            else next.ended && next.events == closed.events + [AgentEnd(next.newMessages)] && next.pending == []
  {
    var polled := PollSteering(Arrive(closed, turn.arrivals));
    SteeringPoll(closed, turn, polled);
    if !WantsMore(turn) && SteeringThen(s, turn) == [] {
      FollowUpPoll(polled, turn, PollFollowUp(Arrive(polled, turn.lateArrivals)));
    }
  }

  /** In full: a turn ends the run exactly when a phase aborts it, its reply failed, a stop was requested, or it wants
      no more and neither queue holds anything when it is polled; otherwise the run goes on with what was polled. */
  lemma {:induction false} TurnEndsExactly(config: Config, s: Loop, turn: Turn)
    requires ValidConfig(config) && ValidTurn(turn) && s.last >= -1 && !s.ended
    ensures var next := TurnStep(config, s, turn);
            && (next.ended <==>
                  || GateAborts(s, turn) || turn.beforeReasoningAbort.Some? || ReplyFails(turn) || turn.stopAfter
                  || (!WantsMore(turn) && SteeringThen(s, turn) == [] && FollowUpsThen(s, turn) == []))
            && (!next.ended ==> GoesOn(s, turn, next))
  {
    if GateAborts(s, turn) {
      GateEndsTheRun(config, s, turn);
    } else if turn.beforeReasoningAbort.Some? {
      ReasoningAbortEndsTheRun(config, s, turn);
    } else if ReplyFails(turn) {
      FailedReplyEndsTheRun(config, s, turn);
    } else {
      var next := TurnStep(config, s, turn);
      var closed, added := ClosedTurn(config, s, turn, next);
      if turn.stopAfter {
        ClosedStops(s, turn, closed, next, added);
      } else {
        ClosedGoesOn(s, turn, closed, next);
      }
    }
  }

  /** A turn with a sound reply that is not told to stop adds its messages, and closes them when it is the last one. */
  lemma {:induction false} SoundTurnAdds(config: Config, s: Loop, turn: Turn, next: Loop) returns (added: seq<Message>)
    requires ValidConfig(config) && ValidTurn(turn) && s.last >= -1 && !s.ended && Acts(s, turn) && !turn.stopAfter
    requires next == TurnStep(config, s, turn)
    ensures Adds(s, turn, added, next.last > s.last) && next.newMessages == s.newMessages + added
    ensures next.ended ==> ClosesWith(next, turn.reply.final, ToolResults(turn))
  {
    var closed;
    closed, added := ClosedTurn(config, s, turn, next);
    ClosedGoesOn(s, turn, closed, next);
    ClosedLast(closed, turn.reply.final, ToolResults(turn), next);
  }

  predicate ClosesWith(s: Loop, reply: Message, results: seq<Message>) {
    |s.events| >= 2 && s.events[|s.events| - 2..] == [TurnEnd(reply, results), AgentEnd(s.newMessages)]
  }

  lemma {:induction false} ClosedLast(closed: Loop, reply: Message, results: seq<Message>, next: Loop)
    requires |closed.events| >= 1 && closed.events[|closed.events| - 1] == TurnEnd(reply, results)
    requires next.ended ==> next.events == closed.events + [AgentEnd(next.newMessages)]
    ensures next.ended ==> ClosesWith(next, reply, results)
  {
  }

  /** Call k is the latest one that sets the mode of the steering queue. */
  predicate SetsSteeringLast(actions: seq<Action>, k: nat) {
    k < |actions| && actions[k].SetSteeringMode? && forall j :: k < j < |actions| ==> !actions[j].SetSteeringMode?
  }

  predicate SetsFollowUpLast(actions: seq<Action>, k: nat) {
    k < |actions| && actions[k].SetFollowUpMode? && forall j :: k < j < |actions| ==> !actions[j].SetFollowUpMode?
  }

  /** The mode of each queue is the latest one set for it by the calls from outside, and otherwise stays. */
  lemma {:induction false} SettersDecideTheModes(s: Loop, actions: seq<Action>)
    ensures forall k: nat :: SetsSteeringLast(actions, k) ==> Arrive(s, actions).steering.mode == actions[k].mode
    ensures forall k: nat :: SetsFollowUpLast(actions, k) ==> Arrive(s, actions).followUp.mode == actions[k].mode
    ensures (forall k :: 0 <= k < |actions| ==> !actions[k].SetSteeringMode?) ==>
              Arrive(s, actions).steering.mode == s.steering.mode
    ensures (forall k :: 0 <= k < |actions| ==> !actions[k].SetFollowUpMode?) ==>
              Arrive(s, actions).followUp.mode == s.followUp.mode
    decreases |actions|
  {
    if actions != [] {
      var rest := actions[1..];
      SettersDecideTheModes(Called(s, actions[0]), rest);
      forall k: nat | 0 < k && SetsSteeringLast(actions, k) ensures SetsSteeringLast(rest, k - 1) {
      }
      forall k: nat | 0 < k && SetsFollowUpLast(actions, k) ensures SetsFollowUpLast(rest, k - 1) {
      }
    }
  }

  // ---------------------------------------------------------------------
  // The numbers of the turns
  // ---------------------------------------------------------------------

  /** The turn numbers announced by before_turn events, in order. */
  function Announced(events: seq<Event>): seq<nat> {
    if events == [] then []
    else
      var e := events[|events| - 1];
      Announced(events[..|events| - 1]) + if e.BeforeTurn? then [e.turnIndex] else []
  }

  lemma {:induction false} AnnouncedJoin(a: seq<Event>, b: seq<Event>)
    ensures Announced(a + b) == Announced(a) + Announced(b)
    decreases |b|
  {
    if b == [] {
      assert a + b == a;
    } else {
      assert (a + b)[..|a + b| - 1] == a + b[..|b| - 1];
      AnnouncedJoin(a, b[..|b| - 1]);
    }
  }

  predicate Unannounced(events: seq<Event>) {
    forall k :: 0 <= k < |events| ==> !events[k].BeforeTurn?
  }

  lemma {:induction false} NothingAnnounced(events: seq<Event>)
    requires Unannounced(events)
    ensures Announced(events) == []
  {
    if events != [] {
      NothingAnnounced(events[..|events| - 1]);
    }
  }

  /** The events of next go on from those of s without another turn being announced. */
  ghost predicate GoesOnIn(s: Loop, next: Loop) {
    && s.events <= next.events && Unannounced(next.events[|s.events|..]) && next.turnIndex == s.turnIndex
    && next.firstTurn == s.firstTurn
  }

  lemma {:induction false} GoesOnTwice(s: Loop, mid: Loop, next: Loop)
    requires GoesOnIn(s, mid) && GoesOnIn(mid, next)
    ensures GoesOnIn(s, next)
  {
    assert next.events[|s.events|..] == mid.events[|s.events|..] + next.events[|mid.events|..];
  }

  lemma {:induction false} EmitsMore(s: Loop, more: seq<Event>, next: Loop)
    requires next.events == s.events + more && Unannounced(more)
    requires next.turnIndex == s.turnIndex && next.firstTurn == s.firstTurn
    ensures GoesOnIn(s, next)
  {
    assert next.events[|s.events|..] == more;
  }

  lemma {:induction false} MessagesUnannounced(messages: seq<Message>)
    ensures Unannounced(AllMessageEvents(messages))
  {
    if messages != [] {
      MessagesUnannounced(messages[..|messages| - 1]);
    }
  }

  lemma {:induction false} SequentialUnannounced(calls: seq<ToolCall>, oracles: seq<CallOracle>)
    requires |calls| == |oracles|
    ensures Unannounced(SequentialEvents(calls, oracles)) && Unannounced(PreflightEvents(calls, oracles))
  {
    if calls != [] {
      SequentialUnannounced(calls[..|calls| - 1], oracles[..|calls| - 1]);
    }
  }

  lemma {:induction false} UnannouncedJoin(a: seq<Event>, b: seq<Event>)
    requires Unannounced(a) && Unannounced(b)
    ensures Unannounced(a + b)
  {
  }

  lemma {:induction false} RunningUnannounced(schedule: seq<nat>, calls: seq<ToolCall>, oracles: seq<CallOracle>)
    requires |calls| == |oracles| && InRange(schedule, calls, oracles)
    ensures Unannounced(RunningEvents(schedule, calls, oracles))
  {
    forall k | 0 <= k < |schedule| ensures !RunningEvents(schedule, calls, oracles)[k].BeforeTurn? {
      assert RunningEvents(schedule, calls, oracles)[k] == RunningEvent(schedule, calls, oracles, k);
    }
  }

  lemma {:induction false} ParallelUnannounced(schedule: seq<nat>, calls: seq<ToolCall>, oracles: seq<CallOracle>)
    requires |calls| == |oracles| && InRange(schedule, calls, oracles)
    ensures Unannounced(ParallelEvents(schedule, calls, oracles))
  {
    var preflight, running := PreflightEvents(calls, oracles), RunningEvents(schedule, calls, oracles);
    SequentialUnannounced(calls, oracles);
    RunningUnannounced(schedule, calls, oracles);
    MessagesUnannounced(ResultMessages(Outcomes(calls, oracles)));
    UnannouncedJoin(preflight, running);
    UnannouncedJoin(preflight + running, AllMessageEvents(ResultMessages(Outcomes(calls, oracles))));
  }

  lemma {:induction false} BatchUnannounced(turn: Turn)
    requires ValidTurn(turn)
    ensures Unannounced(RunBatch(turn).events)
  {
    var message, tools := turn.reply.final, turn.tools;
    var cut := Cut(tools.oracles);
    if message.stop.Length? {
      SequentialUnannounced(message.calls, TruncatedOracles(message.calls));
    } else if RunsSequentially(tools) {
      SequentialUnannounced(message.calls[..cut], tools.oracles[..cut]);
    } else {
      CompleteInRange(tools.schedule, message.calls[..cut], tools.oracles[..cut]);
      ParallelUnannounced(tools.schedule, message.calls[..cut], tools.oracles[..cut]);
    }
  }

  lemma {:induction false} ToolsGoOn(config: Config, s: Loop, turn: Turn, acted: Loop)
    requires ValidConfig(config) && ValidTurn(turn) && s.last >= -1
    requires acted == RunTools(config, StreamReply(s, turn.reply), turn)
    ensures GoesOnIn(s, acted)
  {
    var replied := StreamReply(s, turn.reply);
    EmitsMore(s, ReplyEvents(turn.reply), replied);
    if turn.reply.final.calls != [] {
      BatchUnannounced(turn);
      EmitsMore(replied, RunBatch(turn).events, Acted(s, turn));
      GoesOnTwice(s, replied, Acted(s, turn));
      CompactGoesOn(config, Acted(s, turn), turn, acted);
      GoesOnTwice(s, Acted(s, turn), acted);
    }
  }

  lemma {:induction false} CompactGoesOn(config: Config, s: Loop, turn: Turn, next: Loop)
    requires ValidConfig(config) && s.last >= -1 && next == Compact(config, s, turn)
    ensures GoesOnIn(s, next)
  {
    match PlanOf(config, s, turn) {
      case None => EmitsMore(s, [], next);
      case Some(plan) => EmitsMore(s, MessageEvents(BuildMarker(plan)), next);
    }
  }

  lemma {:induction false} NextGoesOn(s: Loop, turn: Turn, next: Loop)
    requires ValidTurn(turn) && next == NextPending(s, turn)
    ensures GoesOnIn(s, next)
  {
    ArriveKeeps(s, turn.arrivals);
    ArriveKeeps(PollSteering(Arrive(s, turn.arrivals)), turn.lateArrivals);
    assert next.events == s.events || next.events == s.events + [AgentEnd(next.newMessages)];
    EmitsMore(s, if next.events == s.events then [] else [AgentEnd(next.newMessages)], next);
  }

  lemma {:induction false} RespondGoesOn(config: Config, s: Loop, turn: Turn, next: Loop)
    requires ValidConfig(config) && ValidTurn(turn) && s.last >= -1 && next == RespondAndAct(config, s, turn)
    ensures GoesOnIn(s, next)
  {
    if Failed(turn.reply.final) {
      EmitsMore(s, ReplyEvents(turn.reply) + [TurnEnd(turn.reply.final, [])] + [AgentEnd(next.newMessages)], next);
    } else {
      var acted := RunTools(config, StreamReply(s, turn.reply), turn);
      ToolsGoOn(config, s, turn, acted);
      EmitsMore(acted, [TurnEnd(turn.reply.final, ToolResults(turn))], CloseTurn(acted, turn));
      GoesOnTwice(s, acted, CloseTurn(acted, turn));
      NextGoesOn(CloseTurn(acted, turn), turn, next);
      GoesOnTwice(s, CloseTurn(acted, turn), next);
    }
  }

  lemma {:induction false} AbortGoesOn(s: Loop, reason: string, next: Loop)
    requires next == EndAborted(s, reason)
    ensures GoesOnIn(s, next)
  {
    var note := AbortNote(reason);
    EmitsMore(s, MessageEvents(note) + [TurnEnd(note, [])] + [AgentEnd(next.newMessages)], next);
  }

  lemma {:induction false} BegunGoesOn(config: Config, s: Loop, turn: Turn, begun: Loop, next: Loop)
    requires ValidConfig(config) && ValidTurn(turn) && s.last >= -1
    requires begun == BeginTurn(s) && next == TurnStep(config, s, turn)
    ensures GoesOnIn(begun, next)
  {
    var injected := Inject(begun);
    Opening(s, begun, injected);
    MessagesUnannounced(begun.pending);
    EmitsMore(begun, AllMessageEvents(begun.pending), injected);
    if GateAborts(s, turn) {
      AbortGoesOn(begun, turn.beforeTurnAbort.value, next);
    } else if turn.beforeReasoningAbort.Some? {
      AbortGoesOn(injected, turn.beforeReasoningAbort.value, next);
      GoesOnTwice(begun, injected, next);
    } else {
      RespondGoesOn(config, injected, turn, next);
      GoesOnTwice(begun, injected, next);
    }
  }

  /** The turns announced so far are those numbered from 0 to the present one. */
  ghost predicate Counted(s: Loop) {
    var numbers := Announced(s.events);
    |numbers| == s.turnIndex + 1 && forall k :: 0 <= k < |numbers| ==> numbers[k] == k
  }

  lemma {:induction false} CountedOn(s: Loop, next: Loop)
    requires Counted(s) && GoesOnIn(s, next)
    ensures Counted(next)
  {
    var more := next.events[|s.events|..];
    assert next.events == s.events + more;
    AnnouncedJoin(s.events, more);
    NothingAnnounced(more);
  }

  lemma {:induction false} CountedBegin(s: Loop)
    requires Counted(s)
    ensures Counted(BeginTurn(s))
  {
    if !s.firstTurn {
      var more := [BeforeTurn(s.turnIndex + 1)] + [TurnStart];
      assert [BeforeTurn(s.turnIndex + 1), TurnStart] == more;
      AnnouncedJoin(s.events, more);
      AnnouncedJoin([BeforeTurn(s.turnIndex + 1)], [TurnStart]);
      assert [BeforeTurn(s.turnIndex + 1)][..0] == [] && [TurnStart][..0] == [];
    }
  }

  lemma {:induction false} RunCounted(config: Config, s: Loop, environment: seq<Turn>)
    requires ValidConfig(config) && ValidEnvironment(environment) && s.last >= -1 && Counted(s)
    ensures Counted(Run(config, s, environment))
    decreases |environment|
  {
    if !s.ended && environment != [] {
      var next := TurnStep(config, s, environment[0]);
      CountedBegin(s);
      BegunGoesOn(config, s, environment[0], BeginTurn(s), next);
      CountedOn(BeginTurn(s), next);
      TurnKeepsLast(config, s, environment[0]);
      RunCounted(config, next, environment[1..]);
    }
  }

  lemma {:induction false} StartCounted(entry: Entry)
    ensures Counted(Start(entry))
  {
    var initial := Opened(entry);
    OpenedCounted(entry, initial);
    if entry.beforeTurnAbort.Some? {
      AbortGoesOn(initial, entry.beforeTurnAbort.value, Start(entry));
    } else {
      ArriveKeeps(initial.(context := Replay(initial.context)), entry.arrivals);
      EmitsMore(initial, [], Start(entry));
    }
    CountedOn(initial, Start(entry));
  }

  lemma {:induction false} OpenedCounted(entry: Entry, initial: Loop)
    requires initial == Opened(entry)
    ensures Counted(initial)
  {
    var opening := [AgentStart, BeforeTurn(0), TurnStart];
    MessagesUnannounced(entry.prompts);
    NothingAnnounced(AllMessageEvents(entry.prompts));
    AnnouncedJoin(opening, AllMessageEvents(entry.prompts));
    assert opening[..2] == [AgentStart, BeforeTurn(0)] && opening[..2][..1] == [AgentStart]
           && opening[..2][..1][..0] == [];
    assert Announced([AgentStart]) == [] && Announced(opening[..2]) == [0] && Announced(opening) == [0];
  }

  /** The turns of a run are announced with the numbers 0, 1, 2 and so on. */
  lemma {:induction false} TurnsAreNumbered(config: Config, entry: Entry, environment: seq<Turn>, k: nat)
    requires ValidConfig(config) && ValidEnvironment(environment)
    requires k < |Announced(Run(config, Start(entry), environment).events)|
    ensures Announced(Run(config, Start(entry), environment).events)[k] == k
  {
    StartCounted(entry);
    RunCounted(config, Start(entry), environment);
  }

  // ---------------------------------------------------------------------
  // How a run starts
  // ---------------------------------------------------------------------

  /** A run starts with its prompts announced; an aborted first gate ends it there, and otherwise steering is polled
      unless this first poll is to be skipped. */
  lemma {:induction false} StartsExactly(entry: Entry)
    ensures var s := Start(entry);
            && (s.ended <==> entry.beforeTurnAbort.Some?) && s.last == -1
            && (entry.beforeTurnAbort.Some? ==>
                  var note := Assistant("", [], Error, Some(entry.beforeTurnAbort.value));
                  && s.newMessages == entry.prompts + [note] && s.context == entry.history + entry.prompts + [note]
                  && ClosesWith(s, note, []) && s.steering == entry.steering && s.followUp == entry.followUp)
            && (entry.beforeTurnAbort.None? ==>
                  && s.newMessages == entry.prompts && s.context == Replay(entry.history + entry.prompts)
                  && s.followUp.items == entry.followUp.items + FollowUps(entry.arrivals)
                  && var items := entry.steering.items + Steers(entry.arrivals);
                     if entry.skipInitialSteeringPoll then s.pending == [] && s.steering.items == items
                     else Polled(items, s.pending, s.steering) && s.pendingOrigin == Steered)
  {
    var initial := Opened(entry);
    if entry.beforeTurnAbort.Some? {
      AbortExit(initial, entry.beforeTurnAbort.value, Start(entry));
    } else {
      ArriveKeeps(initial.(context := Replay(initial.context)), entry.arrivals);
    }
  }
}
