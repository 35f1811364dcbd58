/** The turn loop (packages/agent/src/agent-loop.ts) and the message queues that feed it
    (packages/agent/src/agent.ts), against an arbitrary environment. */
module AgentLoop {
  import opened Messages
  import opened QueryCompaction
  import opened CompactionReplay
  import opened ToolBatch

  // ---------------------------------------------------------------------
  // Message queues
  // ---------------------------------------------------------------------

  datatype QueueMode = DrainAll | OneAtATime

  datatype Queue = Queue(mode: QueueMode, items: seq<Message>)

  function Drained(queue: Queue): (drained: seq<Message>)
    ensures drained <= queue.items
  {
    if queue.mode.DrainAll? then queue.items
    else if queue.items == [] then []
    else queue.items[..1]
  }

  function AfterDrain(queue: Queue): Queue {
    queue.(items := queue.items[|Drained(queue)|..])
  }

  class PendingMessageQueue {
    var messages: seq<Message>
    var mode: QueueMode

    function View(): Queue
      reads this
    {
      Queue(mode, messages)
    }

    constructor (mode: QueueMode)
      ensures View() == Queue(mode, [])
    {
      messages := [];
      this.mode := mode;
    }

    method Enqueue(message: Message)
      modifies this
      ensures View() == Queue(old(mode), old(messages) + [message])
    {
      messages := messages + [message];
    }

    method HasItems() returns (has: bool)
      ensures has <==> messages != []
    {
      return |messages| > 0;
    }

    method Drain() returns (drained: seq<Message>)
      modifies this
      ensures drained == Drained(old(View())) && View() == AfterDrain(old(View()))
      ensures drained + messages == old(messages) && mode == old(mode)
    {
      if mode == DrainAll {
        drained := messages;
        messages := [];
        return;
      }
      if messages == [] {
        return [];
      }
      drained := [messages[0]];
      messages := messages[1..];
    }

    method Clear()
      modifies this
      ensures View() == Queue(old(mode), [])
    {
      messages := [];
    }
  }

  // ---------------------------------------------------------------------
  // State and environment of one run
  // ---------------------------------------------------------------------

  /** Where a new message of the run came from. */
  datatype Origin = Prompted | Steered | FollowedUp | Generated

  /** Calls made on the agent from outside while the run is under way. */
  datatype Action =
    | Steer(message: Message)
    | FollowUp(message: Message)
    | SetSteeringMode(mode: QueueMode)
    | SetFollowUpMode(mode: QueueMode)

  datatype Config = Config(compaction: Option<CompactorOptions>)

  predicate ValidConfig(config: Config) {
    config.compaction.Some? ==> config.compaction.value.keepRecentBatches >= 1
  }

  /** origins, steered, followedUp and dropped are bookkeeping: the sources of newMessages, everything
      ever enqueued, and the pending messages an aborting turn threw away. */
  datatype Loop = Loop(
    context: seq<Message>,
    newMessages: seq<Message>,
    origins: seq<Origin>,
    events: seq<Event>,
    last: int,
    steering: Queue,
    followUp: Queue,
    steered: seq<Message>,
    followedUp: seq<Message>,
    pending: seq<Message>,
    pendingOrigin: Origin,
    dropped: seq<Message>,
    firstTurn: bool,
    turnIndex: nat,
    ended: bool)

  /** A model reply: the partial it opens with if it streams, the partials after it, and the final message. */
  datatype Reply = Reply(opening: Option<Message>, updates: seq<Message>, final: Message)

  datatype Tools = Tools(sequentialMode: bool, oracles: seq<CallOracle>, schedule: seq<nat>)

  /** Everything the environment decides during one turn. External calls take effect at the polls. */
  datatype Turn = Turn(
    beforeTurnAbort: Option<string>,
    beforeReasoningAbort: Option<string>,
    reply: Reply,
    tools: Tools,
    estimated: int,
    summary: string,
    stopAfter: bool,
    arrivals: seq<Action>,
    lateArrivals: seq<Action>)

  /** Partials and the final message of a reply are assistant messages. */
  predicate ValidReply(reply: Reply) {
    && reply.final.Assistant?
    && (reply.opening.Some? ==> reply.opening.value.Assistant?)
    && (forall k :: 0 <= k < |reply.updates| ==> reply.updates[k].Assistant?)
  }

  predicate ValidTurn(turn: Turn) {
    var calls, tools := turn.reply.final, turn.tools;
    && ValidReply(turn.reply)
    && |tools.oracles| == |calls.calls|
    && Complete(tools.schedule, calls.calls[..Cut(tools.oracles)], tools.oracles[..Cut(tools.oracles)])
  }

  // ---------------------------------------------------------------------
  // Steps
  // ---------------------------------------------------------------------

  function Emit(s: Loop, events: seq<Event>): Loop {
    s.(events := s.events + events)
  }

  function Tags(origin: Origin, count: nat): (tags: seq<Origin>)
    ensures |tags| == count && forall i :: 0 <= i < count ==> tags[i] == origin
  {
    seq(count, _ => origin)
  }

  /** Messages that enter the context and the run's result together. */
  function Append(s: Loop, messages: seq<Message>, origin: Origin): Loop {
    s.(context := s.context + messages,
       newMessages := s.newMessages + messages,
       origins := s.origins + Tags(origin, |messages|))
  }

  /** One external call. */
  function Called(s: Loop, action: Action): Loop {
    match action
    case Steer(m) => s.(steering := s.steering.(items := s.steering.items + [m]), steered := s.steered + [m])
    case FollowUp(m) => s.(followUp := s.followUp.(items := s.followUp.items + [m]), followedUp := s.followedUp + [m])
    case SetSteeringMode(mode) => s.(steering := s.steering.(mode := mode))
    case SetFollowUpMode(mode) => s.(followUp := s.followUp.(mode := mode))
  }

  function Arrive(s: Loop, actions: seq<Action>): Loop
    decreases |actions|
  {
    if actions == [] then s else Arrive(Called(s, actions[0]), actions[1..])
  }

  function PollSteering(s: Loop): Loop {
    s.(pending := Drained(s.steering), pendingOrigin := Steered, steering := AfterDrain(s.steering))
  }

  function PollFollowUp(s: Loop): Loop {
    s.(pending := Drained(s.followUp), pendingOrigin := FollowedUp, followUp := AfterDrain(s.followUp))
  }

  function BeginTurn(s: Loop): Loop {
    if s.firstTurn then s.(firstTurn := false)
    else Emit(s.(turnIndex := s.turnIndex + 1), [BeforeTurn(s.turnIndex + 1), TurnStart])
  }

  function AbortNote(reason: string): Message {
    Assistant("", [], Error, Some(reason))
  }

  function EndRun(s: Loop): Loop {
    Emit(s, [AgentEnd(s.newMessages)]).(ended := true)
  }

  function EndAborted(s: Loop, reason: string): Loop {
    var note := AbortNote(reason);
    var noted := Emit(Emit(Append(s, [note], Generated), MessageEvents(note)), [TurnEnd(note, [])]);
    EndRun(noted.(dropped := s.dropped + s.pending, pending := []))
  }

  function Inject(s: Loop): Loop {
    Emit(Append(s, s.pending, s.pendingOrigin), AllMessageEvents(s.pending)).(pending := [])
  }

  /** Injection one message further. */
  lemma {:induction false} InjectStep(s: Loop, k: nat)
    requires k < |s.pending|
    ensures var message := s.pending[k];
            var so := Emit(Append(s, s.pending[..k], s.pendingOrigin), AllMessageEvents(s.pending[..k]));
            Emit(Append(s, s.pending[..k + 1], s.pendingOrigin), AllMessageEvents(s.pending[..k + 1]))
            == so.(context := so.context + [message], newMessages := so.newMessages + [message],
                   origins := so.origins + [s.pendingOrigin], events := so.events + MessageEvents(message))
  {
    assert s.pending[..k + 1] == s.pending[..k] + [s.pending[k]];
    assert s.pending[..k + 1][..k] == s.pending[..k];
    assert Tags(s.pendingOrigin, k + 1) == Tags(s.pendingOrigin, k) + [s.pendingOrigin];
  }

  function UpdatesOf(reply: Reply): (events: seq<Event>) {
    seq(|reply.updates|, k requires 0 <= k < |reply.updates| => MessageUpdate(reply.updates[k]))
  }

  function ReplyEvents(reply: Reply): seq<Event> {
    match reply.opening
    case Some(partial) => [MessageStart(partial)] + UpdatesOf(reply) + [MessageEnd(reply.final)]
    case None => MessageEvents(reply.final)
  }

  function StreamReply(s: Loop, reply: Reply): Loop {
    Emit(Append(s, [reply.final], Generated), ReplyEvents(reply))
  }

  /** Outcome of a tool batch. */
  datatype Batch = Batch(events: seq<Event>, messages: seq<Message>, terminate: bool)

  /** The oracle of a call that is failed unexecuted because the reply was cut off. */
  function TruncatedOracle(call: ToolCall): CallOracle {
    CallOracle(true, false, Some(call.name), false, None, [], Returns(ErrorResult("")), Keeps, false)
  }

  function TruncatedOracles(calls: seq<ToolCall>): (oracles: seq<CallOracle>)
    ensures |oracles| == |calls|
  {
    seq(|calls|, i requires 0 <= i < |calls| => TruncatedOracle(calls[i]))
  }

  predicate RunsSequentially(tools: Tools) {
    || tools.sequentialMode
    || exists i :: 0 <= i < |tools.oracles| && tools.oracles[i].toolFound && tools.oracles[i].sequentialOnly
  }

  function RunBatch(turn: Turn): Batch
    requires ValidTurn(turn)
  {
    var message, tools := turn.reply.final, turn.tools;
    var cut := Cut(tools.oracles);
    var calls, oracles := message.calls[..cut], tools.oracles[..cut];
    if message.stop.Length? then
      Batch(SequentialEvents(message.calls, TruncatedOracles(message.calls)),
            ResultMessages(Outcomes(message.calls, TruncatedOracles(message.calls))), false)
    else if RunsSequentially(tools) then
      Batch(SequentialEvents(calls, oracles), ResultMessages(Outcomes(calls, oracles)),
            ShouldTerminate(Outcomes(calls, oracles)))
    else
      CompleteInRange(tools.schedule, calls, oracles);
      Batch(ParallelEvents(tools.schedule, calls, oracles), ResultMessages(Outcomes(calls, oracles)),
            ShouldTerminate(Outcomes(calls, oracles)))
  }

  function PlanOf(config: Config, s: Loop, turn: Turn): (plan: Option<Plan>)
    requires ValidConfig(config) && s.last >= -1
    ensures plan.Some? ==> s.last + 1 == plan.value.startIndex < plan.value.endIndex <= |s.context|
  {
    match config.compaction
    case None => None
    case Some(options) =>
      var plan := PlanFor(options, s.last, s.context, turn.estimated, turn.summary);
      if plan.Some? then SegmentBoundaries(s.context, s.last + 1, options.keepRecentBatches); plan
      else None
  }

  function Compact(config: Config, s: Loop, turn: Turn): (next: Loop)
    requires ValidConfig(config) && s.last >= -1
    ensures next.last >= -1
  {
    match PlanOf(config, s, turn)
    case None => s
    case Some(plan) =>
      var marker := BuildMarker(plan);
      Emit(s.(context := Spliced(s.context, plan), last := plan.startIndex,
              newMessages := s.newMessages + [marker], origins := s.origins + [Generated]),
           MessageEvents(marker))
  }

  function RunTools(config: Config, s: Loop, turn: Turn): (next: Loop)
    requires ValidConfig(config) && ValidTurn(turn) && s.last >= -1
    ensures next.last >= -1
  {
    if turn.reply.final.calls == [] then s
    else
      var batch := RunBatch(turn);
      Compact(config, Emit(Append(s, batch.messages, Generated), batch.events), turn)
  }

  function ToolResults(turn: Turn): seq<Message>
    requires ValidTurn(turn)
  {
    if turn.reply.final.calls == [] then [] else RunBatch(turn).messages
  }

  predicate HasMore(turn: Turn)
    requires ValidTurn(turn)
  {
    turn.reply.final.calls != [] && !RunBatch(turn).terminate
  }

  function CloseTurn(s: Loop, turn: Turn): Loop
    requires ValidTurn(turn)
  {
    Emit(s, [TurnEnd(turn.reply.final, ToolResults(turn))])
  }

  /** After a turn: stop on request, else poll steering, else poll follow-ups, else end. */
  function NextPending(s: Loop, turn: Turn): Loop
    requires ValidTurn(turn)
  {
    if turn.stopAfter then EndRun(s)
    else
      var polled := PollSteering(Arrive(s, turn.arrivals));
      if HasMore(turn) || polled.pending != [] then polled
      else
        var late := PollFollowUp(Arrive(polled, turn.lateArrivals));
        if late.pending != [] then late else EndRun(late)
  }

  predicate Failed(reply: Message) {
    reply.Assistant? && (reply.stop.Error? || reply.stop.Aborted?)
  }

  /** The part of a turn after its queued messages have been injected. */
  function RespondAndAct(config: Config, s: Loop, turn: Turn): (next: Loop)
    requires ValidConfig(config) && ValidTurn(turn) && s.last >= -1
  {
    var replied := StreamReply(s, turn.reply);
    if Failed(turn.reply.final) then EndRun(Emit(replied, [TurnEnd(turn.reply.final, [])]))
    else NextPending(CloseTurn(RunTools(config, replied, turn), turn), turn)
  }

  function TurnStep(config: Config, s: Loop, turn: Turn): Loop
    requires ValidConfig(config) && ValidTurn(turn) && s.last >= -1
  {
    var begun := BeginTurn(s);
    if !s.firstTurn && turn.beforeTurnAbort.Some? then EndAborted(begun, turn.beforeTurnAbort.value)
    else
      var injected := Inject(begun);
      if turn.beforeReasoningAbort.Some? then EndAborted(injected, turn.beforeReasoningAbort.value)
      else RespondAndAct(config, injected, turn)
  }

  /** The messages steered by a list of external calls, in order. */
  function Steers(actions: seq<Action>): seq<Message> {
    if actions == [] then []
    else (if actions[0].Steer? then [actions[0].message] else []) + Steers(actions[1..])
  }

  function FollowUps(actions: seq<Action>): seq<Message> {
    if actions == [] then []
    else (if actions[0].FollowUp? then [actions[0].message] else []) + FollowUps(actions[1..])
  }

  /** s grew into a by these messages on the two queues, in order; nothing else changed but the modes. */
  ghost predicate Arrived(s: Loop, a: Loop, steers: seq<Message>, followUps: seq<Message>) {
    && a == s.(steering := a.steering, followUp := a.followUp, steered := a.steered, followedUp := a.followedUp)
    && a.steering.items == s.steering.items + steers && a.steered == s.steered + steers
    && a.followUp.items == s.followUp.items + followUps && a.followedUp == s.followedUp + followUps
  }

  lemma {:induction false} ArrivedTwice(s: Loop, b: Loop, a: Loop, steers: seq<Message>, followUps: seq<Message>,
                                        moreSteers: seq<Message>, moreFollowUps: seq<Message>)
    requires Arrived(s, b, steers, followUps) && Arrived(b, a, moreSteers, moreFollowUps)
    ensures Arrived(s, a, steers + moreSteers, followUps + moreFollowUps)
  {
  }

  /** External calls append their messages to the queues, in order, and touch nothing else but the modes. */
  lemma {:induction false} ArriveKeeps(s: Loop, actions: seq<Action>)
    ensures Arrived(s, Arrive(s, actions), Steers(actions), FollowUps(actions))
    decreases |actions|
  {
    if actions != [] {
      var called := Called(s, actions[0]);
      ArriveKeeps(called, actions[1..]);
      ArrivedTwice(s, called, Arrive(called, actions[1..]),
                   if actions[0].Steer? then [actions[0].message] else [],
                   if actions[0].FollowUp? then [actions[0].message] else [],
                   Steers(actions[1..]), FollowUps(actions[1..]));
    }
  }

  lemma {:induction false} TurnKeepsLast(config: Config, s: Loop, turn: Turn)
    requires ValidConfig(config) && ValidTurn(turn) && s.last >= -1
    ensures TurnStep(config, s, turn).last >= -1
  {
    RespondKeepsLast(config, Inject(BeginTurn(s)), turn);
  }

  lemma {:induction false} NextKeepsLast(s: Loop, turn: Turn)
    requires ValidTurn(turn)
    ensures NextPending(s, turn).last == s.last
  {
    ArriveKeeps(s, turn.arrivals);
    ArriveKeeps(PollSteering(Arrive(s, turn.arrivals)), turn.lateArrivals);
  }

  lemma {:induction false} RespondKeepsLast(config: Config, s: Loop, turn: Turn)
    requires ValidConfig(config) && ValidTurn(turn) && s.last >= -1
    ensures RespondAndAct(config, s, turn).last >= -1
  {
    NextKeepsLast(CloseTurn(RunTools(config, StreamReply(s, turn.reply), turn), turn), turn);
  }

  predicate ValidEnvironment(environment: seq<Turn>) {
    forall k :: 0 <= k < |environment| ==> ValidTurn(environment[k])
  }

  /** The run, observed for as many turns as the environment describes. */
  function Run(config: Config, s: Loop, environment: seq<Turn>): Loop
    requires ValidConfig(config) && ValidEnvironment(environment) && s.last >= -1
    decreases |environment|
  {
    if s.ended || environment == [] then s
    else
      TurnKeepsLast(config, s, environment[0]);
      Run(config, TurnStep(config, s, environment[0]), environment[1..])
  }

  /** How a run is started: the transcript, the prompts and where they came from, the queues left by
      then, and whether the first steering poll is skipped (Agent.continue). */
  datatype Entry = Entry(
    history: seq<Message>,
    prompts: seq<Message>,
    promptOrigin: Origin,
    steering: Queue,
    followUp: Queue,
    skipInitialSteeringPoll: bool,
    beforeTurnAbort: Option<string>,
    arrivals: seq<Action>)

  function Opened(entry: Entry): Loop {
    var fromSteering := if entry.promptOrigin.Steered? then entry.prompts else [];
    var fromFollowUp := if entry.promptOrigin.FollowedUp? then entry.prompts else [];
    Loop(entry.history + entry.prompts, entry.prompts, Tags(entry.promptOrigin, |entry.prompts|),
         [AgentStart, BeforeTurn(0), TurnStart] + AllMessageEvents(entry.prompts),
         -1, entry.steering, entry.followUp,
         fromSteering + entry.steering.items, fromFollowUp + entry.followUp.items,
         [], Generated, [], true, 0, false)
  }

  function Start(entry: Entry): (s: Loop)
    ensures s.last == -1
  {
    var initial := Opened(entry);
    if entry.beforeTurnAbort.Some? then EndAborted(initial, entry.beforeTurnAbort.value)
    else
      ArriveKeeps(initial.(context := Replay(initial.context)), entry.arrivals);
      var arrived := Arrive(initial.(context := Replay(initial.context)), entry.arrivals);
      if entry.skipInitialSteeringPoll then arrived else PollSteering(arrived)
  }
}
