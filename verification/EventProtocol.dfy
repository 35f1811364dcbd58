/** The event protocol of every run, and the Agent state that is reduced from it
    (packages/agent/src/agent-loop.ts, packages/agent/src/agent.ts). */
module EventProtocol {
  import opened Messages
  import opened QueryCompaction
  import opened ToolBatch
  import opened BatchOrder
  import opened AgentLoop

  datatype Phase = Idle | InRun | InTurn | InMessage(announced: Message) | Finished | Broken

  /** A message ends as it was announced, unless it is a reply streamed from a partial one. */
  predicate EndsAsAnnounced(announced: Message, final: Message) {
    announced == final || (announced.Assistant? && final.Assistant?)
  }

  function NextPhase(phase: Phase, event: Event): Phase {
    match (phase, event)
    case (Idle, AgentStart) => InRun
    case (InRun, BeforeTurn(_)) => InRun
    case (InRun, TurnStart) => InTurn
    case (InRun, AgentEnd(_)) => Finished
    case (InTurn, TurnEnd(_, _)) => InRun
    case (InTurn, MessageStart(m)) => InMessage(m)
    case (InTurn, ToolStart(_, _)) => InTurn
    case (InTurn, ToolUpdate(_, _, _)) => InTurn
    case (InTurn, ToolEnd(_, _, _, _)) => InTurn
    case (InMessage(m), MessageUpdate(u)) => if m.Assistant? && u.Assistant? then InMessage(m) else Broken
    case (InMessage(m), MessageEnd(final)) => if EndsAsAnnounced(m, final) then InTurn else Broken
    case _ => Broken
  }

  function PhaseFrom(phase: Phase, events: seq<Event>): Phase {
    if events == [] then phase
    else NextPhase(PhaseFrom(phase, events[..|events| - 1]), events[|events| - 1])
  }

  /** The messages delivered by message_end, in order. */
  function Ends(events: seq<Event>): seq<Message> {
    if events == [] then []
    else
      var e := events[|events| - 1];
      Ends(events[..|events| - 1]) + if e.MessageEnd? then [e.message] else []
  }

  lemma {:induction false} PhaseSplit(phase: Phase, a: seq<Event>, b: seq<Event>)
    ensures PhaseFrom(phase, a + b) == PhaseFrom(PhaseFrom(phase, a), b)
    decreases |b|
  {
    if b == [] {
      assert a + b == a;
    } else {
      assert (a + b)[..|a + b| - 1] == a + b[..|b| - 1];
      PhaseSplit(phase, a, b[..|b| - 1]);
    }
  }

  lemma {:induction false} EndsSplit(a: seq<Event>, b: seq<Event>)
    ensures Ends(a + b) == Ends(a) + Ends(b)
    decreases |b|
  {
    if b == [] {
      assert a + b == a;
    } else {
      assert (a + b)[..|a + b| - 1] == a + b[..|b| - 1];
      EndsSplit(a, b[..|b| - 1]);
    }
  }

  // ---------------------------------------------------------------------
  // What the protocol means
  // ---------------------------------------------------------------------

  function TurnStarts(events: seq<Event>): nat {
    if events == [] then 0
    else TurnStarts(events[..|events| - 1]) + if events[|events| - 1].TurnStart? then 1 else 0
  }

  function TurnEnds(events: seq<Event>): nat {
    if events == [] then 0
    else TurnEnds(events[..|events| - 1]) + if events[|events| - 1].TurnEnd? then 1 else 0
  }

  /** The message opened at a is closed at b, as it was announced, with nothing but its own updates in between. */
  ghost predicate ClosedAt(events: seq<Event>, a: nat, b: nat) {
    && a < b < |events| && events[a].MessageStart? && events[b].MessageEnd?
    && EndsAsAnnounced(events[a].message, events[b].message)
    && forall c :: a < c < b ==> events[c].MessageUpdate?
  }

  lemma {:induction false} FirstAndLast(events: seq<Event>)
    requires PhaseFrom(Idle, events) != Broken
    ensures events == [] <==> PhaseFrom(Idle, events) == Idle
    ensures events != [] ==> events[0] == AgentStart
    ensures forall i :: 1 <= i < |events| ==> !events[i].AgentStart?
    ensures forall i :: 0 <= i < |events| - 1 ==> !events[i].AgentEnd?
    ensures events != [] ==> (PhaseFrom(Idle, events) == Finished <==> events[|events| - 1].AgentEnd?)
  {
    if events != [] {
      FirstAndLast(events[..|events| - 1]);
    }
  }

  lemma {:induction false} TurnsBalance(events: seq<Event>)
    requires PhaseFrom(Idle, events) != Broken
    ensures var phase := PhaseFrom(Idle, events);
            TurnStarts(events) == TurnEnds(events) + if phase.InTurn? || phase.InMessage? then 1 else 0
  {
    if events != [] {
      TurnsBalance(events[..|events| - 1]);
    }
  }

  lemma {:induction false} MessagesClose(events: seq<Event>, a: nat)
    requires PhaseFrom(Idle, events) != Broken && a < |events| && events[a].MessageStart?
    ensures || (exists b: nat :: ClosedAt(events, a, b))
            || (PhaseFrom(Idle, events) == InMessage(events[a].message)
                && forall c :: a < c < |events| ==> events[c].MessageUpdate?)
  {
    var n := |events| - 1;
    if a < n {
      MessagesClose(events[..n], a);
      if exists b: nat :: ClosedAt(events[..n], a, b) {
        var b: nat :| ClosedAt(events[..n], a, b);
        assert forall c :: a < c < b ==> events[c] == events[..n][c];
        assert ClosedAt(events, a, b);
      } else {
        assert forall c :: a < c < n ==> events[c] == events[..n][c];
        if events[n].MessageEnd? {
          assert ClosedAt(events, a, n);
        }
      }
    }
  }

  /** A finished run in plain terms. */
  lemma {:induction false} FinishedRunMeaning(events: seq<Event>)
    requires PhaseFrom(Idle, events) == Finished
    ensures |events| >= 2 && events[0] == AgentStart && events[|events| - 1].AgentEnd?
    ensures forall i :: 0 < i < |events| ==> !events[i].AgentStart?
    ensures forall i :: 0 <= i < |events| - 1 ==> !events[i].AgentEnd?
    ensures TurnStarts(events) == TurnEnds(events)
    ensures forall a :: 0 <= a < |events| && events[a].MessageStart? ==> exists b: nat :: ClosedAt(events, a, b)
  {
    FirstAndLast(events);
    TurnsBalance(events);
    forall a | 0 <= a < |events| && events[a].MessageStart? ensures exists b: nat :: ClosedAt(events, a, b) {
      MessagesClose(events, a);
    }
  }

  // ---------------------------------------------------------------------
  // Every run keeps to it
  // ---------------------------------------------------------------------

  /** Events that may occur inside a turn: they close every message they open, deliver exactly these
      messages and leave no tool call pending. */
  ghost predicate Closed(events: seq<Event>, messages: seq<Message>) {
    && PhaseFrom(InTurn, events) == InTurn
    && Ends(events) == messages
    && PendingAfter({}, events) == {}
  }

  lemma {:induction false} ClosedJoin(a: seq<Event>, ma: seq<Message>, b: seq<Event>, mb: seq<Message>)
    requires Closed(a, ma) && Closed(b, mb)
    ensures Closed(a + b, ma + mb)
  {
    PhaseSplit(InTurn, a, b);
    EndsSplit(a, b);
    PendingSplit({}, a, b);
  }

  lemma {:induction false} MessageCloses(message: Message)
    ensures Closed(MessageEvents(message), [message])
  {
    var open, close := [MessageStart(message)], [MessageEnd(message)];
    OneEvent(InTurn, {}, MessageStart(message));
    OneEvent(InMessage(message), {}, MessageEnd(message));
    assert MessageEvents(message) == open + close;
    PhaseSplit(InTurn, open, close);
    EndsSplit(open, close);
    PendingSplit({}, open, close);
  }

  lemma {:induction false} OneEvent(phase: Phase, pending: set<string>, event: Event)
    ensures PhaseFrom(phase, [event]) == NextPhase(phase, event)
    ensures Ends([event]) == if event.MessageEnd? then [event.message] else []
    ensures PendingAfter(pending, [event]) == TrackPending(pending, event)
  {
    assert [event][..|[event]| - 1] == [];
  }

  lemma {:induction false} OneMoreCloses(events: seq<Event>, messages: seq<Message>, message: Message)
    requires Closed(events, messages)
    ensures Closed(events + MessageEvents(message), messages + [message])
  {
    MessageCloses(message);
    ClosedJoin(events, messages, MessageEvents(message), [message]);
  }

  lemma {:induction false} MessagesCloseAll(messages: seq<Message>)
    ensures Closed(AllMessageEvents(messages), messages)
  {
    if messages == [] {
      NothingCloses();
    } else {
      var n := |messages| - 1;
      MessagesCloseAll(messages[..n]);
      OneMoreCloses(AllMessageEvents(messages[..n]), messages[..n], messages[n]);
      assert messages[..n] + [messages[n]] == messages;
    }
  }

  lemma {:induction false} NothingCloses()
    ensures Closed([], [])
  {
  }

  lemma {:induction false} UpdatesStayOpen(partial: Message, reply: Reply, k: nat)
    requires k <= |reply.updates| && partial.Assistant? && ValidReply(reply)
    ensures var events := [MessageStart(partial)] + UpdatesOf(reply)[..k];
            PhaseFrom(InTurn, events) == InMessage(partial) && Ends(events) == [] && PendingAfter({}, events) == {}
  {
    var events := [MessageStart(partial)] + UpdatesOf(reply)[..k];
    if k == 0 {
      assert events == [MessageStart(partial)] && events[..0] == [];
    } else {
      UpdatesStayOpen(partial, reply, k - 1);
      assert events[..|events| - 1] == [MessageStart(partial)] + UpdatesOf(reply)[..k - 1];
    }
  }

  lemma {:induction false} ReplyCloses(reply: Reply)
    requires ValidReply(reply)
    ensures Closed(ReplyEvents(reply), [reply.final])
  {
    match reply.opening {
      case None => MessageCloses(reply.final);
      case Some(partial) =>
        var n := |reply.updates|;
        UpdatesStayOpen(partial, reply, n);
        assert UpdatesOf(reply)[..n] == UpdatesOf(reply);
        var open := [MessageStart(partial)] + UpdatesOf(reply);
        assert ReplyEvents(reply)[..|open|] == open;
    }
  }

  /** Tool events inside a turn do not disturb the phase and deliver nothing. */
  lemma {:induction false} ToolEventsAreQuiet(events: seq<Event>)
    requires forall k :: 0 <= k < |events| ==> EventCall(events[k]).Some?
    ensures PhaseFrom(InTurn, events) == InTurn && Ends(events) == []
  {
    if events != [] {
      ToolEventsAreQuiet(events[..|events| - 1]);
    }
  }

  lemma {:induction false} CallIsQuiet(call: ToolCall, oracle: CallOracle)
    ensures Closed(CallEvents(call, oracle), [])
  {
    StepsBelongToCall(call, oracle);
    ToolEventsAreQuiet(CallEvents(call, oracle));
    PendingAfterCall({}, call, oracle);
  }

  lemma {:induction false} OneMoreCallCloses(head: seq<Event>, delivered: seq<Message>, call: ToolCall,
                                             oracle: CallOracle, message: Message)
    requires Closed(head, delivered)
    ensures Closed(head + CallEvents(call, oracle) + MessageEvents(message), delivered + [message])
  {
    CallIsQuiet(call, oracle);
    MessageCloses(message);
    ClosedJoin(head, delivered, CallEvents(call, oracle), []);
    assert delivered + [] == delivered;
    ClosedJoin(head + CallEvents(call, oracle), delivered, MessageEvents(message), [message]);
  }

  lemma {:induction false} ResultsSnoc(calls: seq<ToolCall>, oracles: seq<CallOracle>, n: nat)
    requires |calls| == |oracles| == n + 1
    ensures ResultMessages(Outcomes(calls, oracles))
            == ResultMessages(Outcomes(calls[..n], oracles[..n])) + [ResultMessage(FinalOf(calls[n], oracles[n]))]
  {
  }

  lemma {:induction false} SequentialCloses(calls: seq<ToolCall>, oracles: seq<CallOracle>)
    requires |calls| == |oracles|
    ensures Closed(SequentialEvents(calls, oracles), ResultMessages(Outcomes(calls, oracles)))
  {
    if calls != [] {
      var n := |calls| - 1;
      SequentialCloses(calls[..n], oracles[..n]);
      ResultsSnoc(calls, oracles, n);
      OneMoreCallCloses(SequentialEvents(calls[..n], oracles[..n]), ResultMessages(Outcomes(calls[..n], oracles[..n])),
                        calls[n], oracles[n], ResultMessage(FinalOf(calls[n], oracles[n])));
    }
  }

  lemma {:induction false} ParallelCloses(schedule: seq<nat>, calls: seq<ToolCall>, oracles: seq<CallOracle>)
    requires |calls| == |oracles| && Complete(schedule, calls, oracles)
    ensures InRange(schedule, calls, oracles)
    ensures Closed(ParallelEvents(schedule, calls, oracles), ResultMessages(Outcomes(calls, oracles)))
  {
    PendingAfterParallel({}, schedule, calls, oracles);
    var preflight, running := PreflightEvents(calls, oracles), RunningEvents(schedule, calls, oracles);
    var messages := ResultMessages(Outcomes(calls, oracles));
    PreflightIsToolOnly(calls, oracles);
    RunningIsToolOnly(schedule, calls, oracles);
    ToolEventsAreQuiet(preflight + running);
    MessagesCloseAll(messages);
    PhaseSplit(InTurn, preflight + running, AllMessageEvents(messages));
    EndsSplit(preflight + running, AllMessageEvents(messages));
  }

  lemma {:induction false} BatchCloses(turn: Turn)
    requires ValidTurn(turn)
    ensures Closed(RunBatch(turn).events, RunBatch(turn).messages)
  {
    var message, tools := turn.reply.final, turn.tools;
    var cut := Cut(tools.oracles);
    if message.stop.Length? {
      SequentialCloses(message.calls, TruncatedOracles(message.calls));
    } else if RunsSequentially(tools) {
      SequentialCloses(message.calls[..cut], tools.oracles[..cut]);
    } else {
      ParallelCloses(tools.schedule, message.calls[..cut], tools.oracles[..cut]);
    }
  }

  /** The wire so far: its phase, everything delivered, nothing left pending. */
  ghost predicate Wire(s: Loop, phase: Phase) {
    && PhaseFrom(Idle, s.events) == phase
    && Ends(s.events) == s.newMessages
    && PendingAfter({}, s.events) == {}
  }

  lemma {:induction false} WireClosed(s: Loop, events: seq<Event>, messages: seq<Message>, next: Loop)
    requires Wire(s, InTurn) && Closed(events, messages)
    requires next.events == s.events + events && next.newMessages == s.newMessages + messages
    ensures Wire(next, InTurn)
  {
    PhaseSplit(Idle, s.events, events);
    EndsSplit(s.events, events);
    PendingSplit({}, s.events, events);
  }

  lemma {:induction false} WireStep(s: Loop, phase: Phase, event: Event, next: Loop)
    requires Wire(s, phase) && EventCall(event).None? && !event.MessageEnd?
    requires next.events == s.events + [event] && next.newMessages == s.newMessages
    ensures Wire(next, NextPhase(phase, event))
  {
    assert next.events[..|next.events| - 1] == s.events;
  }

  /** A run is between turns, inside its first turn, or over with its result announced. */
  ghost predicate OnWire(s: Loop) {
    if s.ended then Wire(s, Finished) && s.events != [] && s.events[|s.events| - 1] == AgentEnd(s.newMessages)
    else Wire(s, if s.firstTurn then InTurn else InRun)
  }

  lemma {:induction false} EndRunOnWire(s: Loop)
    requires Wire(s, InRun)
    ensures OnWire(EndRun(s))
  {
    WireStep(s, InRun, AgentEnd(s.newMessages), EndRun(s));
  }

  lemma {:induction false} EndAbortedOnWire(s: Loop, reason: string)
    requires Wire(s, InTurn)
    ensures OnWire(EndAborted(s, reason)) && EndAborted(s, reason).ended
  {
    var note := AbortNote(reason);
    MessageCloses(note);
    var told := Emit(Append(s, [note], Generated), MessageEvents(note));
    WireClosed(s, MessageEvents(note), [note], told);
    var noted := Emit(told, [TurnEnd(note, [])]).(dropped := s.dropped + s.pending, pending := []);
    WireStep(told, InTurn, TurnEnd(note, []), noted);
    EndRunOnWire(noted);
  }

  lemma {:induction false} BeginOnWire(s: Loop)
    requires OnWire(s) && !s.ended
    ensures Wire(BeginTurn(s), InTurn) && !BeginTurn(s).ended
  {
    if !s.firstTurn {
      var counted := Emit(s.(turnIndex := s.turnIndex + 1), [BeforeTurn(s.turnIndex + 1)]);
      WireStep(s, InRun, BeforeTurn(s.turnIndex + 1), counted);
      assert BeginTurn(s).events == counted.events + [TurnStart];
      WireStep(counted, InRun, TurnStart, BeginTurn(s));
    }
  }

  lemma {:induction false} InjectOnWire(s: Loop)
    requires Wire(s, InTurn)
    ensures Wire(Inject(s), InTurn)
  {
    MessagesCloseAll(s.pending);
    WireClosed(s, AllMessageEvents(s.pending), s.pending, Inject(s));
  }

  lemma {:induction false} ToolsOnWire(config: Config, s: Loop, turn: Turn)
    requires ValidConfig(config) && ValidTurn(turn) && s.last >= -1 && Wire(s, InTurn)
    ensures Wire(RunTools(config, s, turn), InTurn)
  {
    if turn.reply.final.calls != [] {
      var batch := RunBatch(turn);
      BatchCloses(turn);
      var acted := Emit(Append(s, batch.messages, Generated), batch.events);
      WireClosed(s, batch.events, batch.messages, acted);
      var plan := PlanOf(config, acted, turn);
      if plan.Some? {
        MessageCloses(BuildMarker(plan.value));
        WireClosed(acted, MessageEvents(BuildMarker(plan.value)), [BuildMarker(plan.value)],
                   Compact(config, acted, turn));
      }
    }
  }

  lemma {:induction false} NextPendingOnWire(s: Loop, turn: Turn)
    requires ValidTurn(turn) && Wire(s, InRun) && !s.firstTurn && !s.ended
    ensures OnWire(NextPending(s, turn))
  {
    if turn.stopAfter {
      EndRunOnWire(s);
    } else {
      ArriveKeeps(s, turn.arrivals);
      var polled := PollSteering(Arrive(s, turn.arrivals));
      ArriveKeeps(polled, turn.lateArrivals);
      var late := PollFollowUp(Arrive(polled, turn.lateArrivals));
      assert Wire(polled, InRun) && Wire(late, InRun);
      if !HasMore(turn) && polled.pending == [] && late.pending == [] {
        EndRunOnWire(late);
      }
    }
  }

  lemma {:induction false} RespondOnWire(config: Config, s: Loop, turn: Turn)
    requires ValidConfig(config) && ValidTurn(turn) && s.last >= -1
    requires Wire(s, InTurn) && !s.firstTurn && !s.ended
    ensures OnWire(RespondAndAct(config, s, turn))
  {
    var replied := StreamReply(s, turn.reply);
    ReplyCloses(turn.reply);
    WireClosed(s, ReplyEvents(turn.reply), [turn.reply.final], replied);
    if Failed(turn.reply.final) {
      var closed := Emit(replied, [TurnEnd(turn.reply.final, [])]);
      WireStep(replied, InTurn, TurnEnd(turn.reply.final, []), closed);
      EndRunOnWire(closed);
    } else {
      ActOnWire(config, replied, turn, RunTools(config, replied, turn));
    }
  }

  lemma {:induction false} ActOnWire(config: Config, replied: Loop, turn: Turn, acted: Loop)
    requires ValidConfig(config) && ValidTurn(turn) && replied.last >= -1
    requires Wire(replied, InTurn) && !replied.firstTurn && !replied.ended && acted == RunTools(config, replied, turn)
    ensures OnWire(NextPending(CloseTurn(acted, turn), turn))
  {
    ToolsOnWire(config, replied, turn);
    WireStep(acted, InTurn, TurnEnd(turn.reply.final, ToolResults(turn)), CloseTurn(acted, turn));
    NextPendingOnWire(CloseTurn(acted, turn), turn);
  }

  lemma {:induction false} TurnOnWire(config: Config, s: Loop, turn: Turn)
    requires ValidConfig(config) && ValidTurn(turn) && s.last >= -1 && OnWire(s) && !s.ended
    ensures OnWire(TurnStep(config, s, turn))
  {
    var begun := BeginTurn(s);
    BeginOnWire(s);
    if !s.firstTurn && turn.beforeTurnAbort.Some? {
      EndAbortedOnWire(begun, turn.beforeTurnAbort.value);
    } else {
      InjectOnWire(begun);
      var injected := Inject(begun);
      if turn.beforeReasoningAbort.Some? {
        EndAbortedOnWire(injected, turn.beforeReasoningAbort.value);
      } else {
        RespondOnWire(config, injected, turn);
      }
    }
  }

  lemma {:induction false} StartOnWire(entry: Entry)
    ensures OnWire(Start(entry))
  {
    var initial := Opened(entry);
    var one, two, head := [AgentStart], [AgentStart, BeforeTurn(0)], [AgentStart, BeforeTurn(0), TurnStart];
    assert head[..2] == two && two[..1] == one && one[..0] == [];
    assert PhaseFrom(Idle, one) == InRun && Ends(one) == [] && PendingAfter({}, one) == {};
    assert PhaseFrom(Idle, two) == InRun && Ends(two) == [] && PendingAfter({}, two) == {};
    MessagesCloseAll(entry.prompts);
    WireClosed(initial.(events := head, newMessages := []), AllMessageEvents(entry.prompts), entry.prompts, initial);
    if entry.beforeTurnAbort.Some? {
      EndAbortedOnWire(initial, entry.beforeTurnAbort.value);
    } else {
      ArriveKeeps(initial.(context := Replay(initial.context)), entry.arrivals);
    }
  }

  /** Every run, from any entry and against any environment, keeps to the protocol; once it is over,
      agent_end carried exactly the messages delivered by message_end. */
  lemma {:induction false} RunOnWire(config: Config, s: Loop, environment: seq<Turn>)
    requires ValidConfig(config) && ValidEnvironment(environment) && s.last >= -1 && OnWire(s)
    ensures OnWire(Run(config, s, environment))
    decreases |environment|
  {
    if !s.ended && environment != [] {
      TurnOnWire(config, s, environment[0]);
      TurnKeepsLast(config, s, environment[0]);
      RunOnWire(config, TurnStep(config, s, environment[0]), environment[1..]);
    }
  }

  // ---------------------------------------------------------------------
  // The Agent's reduced state
  // ---------------------------------------------------------------------

  datatype AgentState = AgentState(
    messages: seq<Message>,
    streamingMessage: Option<Message>,
    pendingToolCalls: set<string>,
    errorMessage: Option<string>)

  function Reduce(state: AgentState, event: Event): AgentState {
    match event
    case MessageStart(m) => state.(streamingMessage := Some(m))
    case MessageUpdate(m) => state.(streamingMessage := Some(m))
    case MessageEnd(m) => state.(streamingMessage := None, messages := state.messages + [m])
    case ToolStart(id, _) => state.(pendingToolCalls := state.pendingToolCalls + {id})
    case ToolEnd(id, _, _, _) => state.(pendingToolCalls := state.pendingToolCalls - {id})
    case TurnEnd(m, _) =>
      if m.Assistant? && m.errorMessage.Some? && m.errorMessage.value != "" then state.(errorMessage := m.errorMessage)
      else state
    case AgentEnd(_) => state.(streamingMessage := None)
    case _ => state
  }

  function ReduceAll(state: AgentState, events: seq<Event>): AgentState {
    if events == [] then state
    else Reduce(ReduceAll(state, events[..|events| - 1]), events[|events| - 1])
  }

  class Agent {
    var state: AgentState

    constructor (state: AgentState)
      ensures this.state == state
    {
      this.state := state;
    }

    method ProcessEvents(event: Event)
      modifies this
      ensures state == Reduce(old(state), event)
    {
      match event {
        case MessageStart(m) => state := state.(streamingMessage := Some(m));
        case MessageUpdate(m) => state := state.(streamingMessage := Some(m));
        case MessageEnd(m) =>
          state := state.(streamingMessage := None);
          state := state.(messages := state.messages + [m]);
        case ToolStart(id, _) => state := state.(pendingToolCalls := state.pendingToolCalls + {id});
        case ToolEnd(id, _, _, _) => state := state.(pendingToolCalls := state.pendingToolCalls - {id});
        case TurnEnd(m, _) =>
          if m.Assistant? && m.errorMessage.Some? && m.errorMessage.value != "" {
            state := state.(errorMessage := m.errorMessage);
          }
        case AgentEnd(_) => state := state.(streamingMessage := None);
        case _ =>
      }
    }

    method ProcessAll(events: seq<Event>)
      modifies this
      ensures state == ReduceAll(old(state), events)
    {
      for k := 0 to |events|
        invariant state == ReduceAll(old(state), events[..k])
      {
        assert events[..k + 1][..k] == events[..k];
        ProcessEvents(events[k]);
      }
      assert events[..|events|] == events;
    }
  }

  lemma {:induction false} ReducedState(state: AgentState, events: seq<Event>)
    ensures ReduceAll(state, events).messages == state.messages + Ends(events)
    ensures ReduceAll(state, events).pendingToolCalls == PendingAfter(state.pendingToolCalls, events)
    ensures events != [] && events[|events| - 1].AgentEnd? ==> ReduceAll(state, events).streamingMessage == None
  {
    if events != [] {
      ReducedState(state, events[..|events| - 1]);
    }
  }

  predicate Streams(event: Event) {
    event.MessageStart? || event.MessageUpdate?
  }

  predicate Closes(event: Event) {
    event.MessageEnd? || event.AgentEnd?
  }

  /** The end of a turn whose assistant message reports an error. */
  predicate ReportsError(event: Event) {
    event.TurnEnd? && event.reply.Assistant? && event.reply.errorMessage.Some? && event.reply.errorMessage.value != ""
  }

  /** The agent shows the message announced or updated last until it is closed, and the error reported last. */
  lemma {:induction false} ReducedFields(state: AgentState, events: seq<Event>, k: nat)
    requires k < |events|
    ensures Streams(events[k]) && (forall j :: k < j < |events| ==> !Streams(events[j]) && !Closes(events[j])) ==>
              ReduceAll(state, events).streamingMessage == Some(events[k].message)
    ensures Closes(events[k]) && (forall j :: k < j < |events| ==> !Streams(events[j])) ==>
              ReduceAll(state, events).streamingMessage == None
    ensures ReportsError(events[k]) && (forall j :: k < j < |events| ==> !ReportsError(events[j])) ==>
              ReduceAll(state, events).errorMessage == events[k].reply.errorMessage
    ensures (forall j :: 0 <= j < |events| ==> !ReportsError(events[j])) ==>
              ReduceAll(state, events).errorMessage == state.errorMessage
    decreases |events|
  {
    var n := |events| - 1;
    if k < n {
      ReducedFields(state, events[..n], k);
      assert forall j :: 0 <= j < n ==> events[..n][j] == events[j];
    } else if n > 0 {
      ReducedFields(state, events[..n], n - 1);
      assert forall j :: 0 <= j < n ==> events[..n][j] == events[j];
    }
  }

  /** After a run that ended, an agent that started idle holds its old transcript followed by exactly the
      messages agent_end announced, with no tool call pending and nothing streaming. */
  lemma {:induction false} TranscriptGrowsByTheResult(config: Config, entry: Entry, environment: seq<Turn>,
                                                      state: AgentState)
    requires ValidConfig(config) && ValidEnvironment(environment)
    requires state.pendingToolCalls == {}
    ensures var s := Run(config, Start(entry), environment);
            var after := ReduceAll(state, s.events);
            && after.messages == state.messages + s.newMessages
            && after.pendingToolCalls == {}
            && (s.ended ==>
                  && PhaseFrom(Idle, s.events) == Finished
                  && s.events[|s.events| - 1] == AgentEnd(s.newMessages)
                  && after.streamingMessage == None)
  {
    var s := Run(config, Start(entry), environment);
    StartOnWire(entry);
    RunOnWire(config, Start(entry), environment);
    ReducedState(state, s.events);
    if s.ended {
      FirstAndLast(s.events);
    }
  }
}
