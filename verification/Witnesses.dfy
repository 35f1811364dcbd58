/** Whole runs that reach two of the defects: a replay that orphans a tool result, and an aborted turn that drops a
    message. */
module Witnesses {
  import opened Messages
  import opened Whitespace
  import opened QueryCompaction
  import opened CompactionReplay
  import opened ToolPairing
  import opened ToolBatch
  import opened AgentLoop
  import opened LiveContext
  import QueueConservation

  // ---------------------------------------------------------------------
  // Four tool turns with a compaction after the second and the fourth
  // ---------------------------------------------------------------------

  /** A tool that answers with an empty text. */
  function Answering(): CallOracle {
    CallOracle(true, false, None, false, None, [], Returns(Outcome("", false)), Keeps, false)
  }

  /** One tool turn in sequential mode, with the estimate and the summary the compactor gets to see. */
  function ToolTurn(id: string, estimated: int, summary: string): (turn: Turn)
    ensures ValidTurn(turn)
  {
    var turn := Turn(None, None, Reply(None, [], Calling(id)),
                     Tools(true, [Answering()], [0]), estimated, summary, false, [], []);
    ToolTurnShape(id, turn);
    turn
  }

  /** Compacts above an estimate of 0 and keeps one recent batch. */
  function Compacting(): (config: Config)
    ensures ValidConfig(config)
  {
    Config(Some(CompactorOptions(1, 0, 1)))
  }

  lemma {:induction false} ToolTurnShape(id: string, turn: Turn)
    requires turn.reply == Reply(None, [], Calling(id))
    requires turn.tools == Tools(true, [Answering()], [0])
    ensures ValidTurn(turn)
    ensures ToolResults(turn) == [Result(id)] && HasMore(turn)
  {
    assert Answering().abortedAfter == false;
    assert Cut([Answering()]) == 1;
    assert [Answering()][..1] == [Answering()] && turn.reply.final.calls[..1] == turn.reply.final.calls;
    assert [0][..0] == [];
    assert Count([0], 0) == 1;
    var outcomes := Outcomes(turn.reply.final.calls, [Answering()]);
    assert outcomes == [Finalized(ToolCall(id, "", ""), Outcome("", false), false)];
    assert !outcomes[0].result.terminate;
  }

  /** Nothing waits anywhere, and the run goes on. */
  ghost predicate Quiet(s: Loop) {
    !s.ended && s.pending == [] && s.steering.items == [] && s.followUp.items == [] && s.last >= -1
  }

  /** The context and stream of a state. */
  ghost predicate Holds(s: Loop, context: seq<Message>, newMessages: seq<Message>, last: int) {
    Quiet(s) && s.context == context && s.newMessages == newMessages && s.last == last
  }

  lemma {:induction false} InjectNothing(s: Loop, injected: Loop)
    requires Quiet(s) && injected == Inject(BeginTurn(s))
    ensures Holds(injected, s.context, s.newMessages, s.last) && !injected.firstTurn
  {
  }

  lemma {:induction false} QuietNext(s: Loop, turn: Turn)
    requires ValidTurn(turn) && HasMore(turn) && !turn.stopAfter && turn.arrivals == [] && Quiet(s)
    ensures Holds(NextPending(s, turn), s.context, s.newMessages, s.last)
  {
  }

  lemma {:induction false} QuietTurn(s: Loop, turn: Turn, injected: Loop, acted: Loop)
    requires ValidTurn(turn) && HasMore(turn) && !turn.stopAfter && turn.arrivals == [] && !Failed(turn.reply.final)
    requires turn.beforeTurnAbort.None? && turn.beforeReasoningAbort.None? && Quiet(s)
    requires injected == Inject(BeginTurn(s)) && injected.last >= -1
    requires acted == RunTools(Compacting(), StreamReply(injected, turn.reply), turn) && Quiet(acted)
    ensures Holds(TurnStep(Compacting(), s, turn), acted.context, acted.newMessages, acted.last)
  {
    QuietNext(CloseTurn(acted, turn), turn);
  }

  /** What the lemmas below use of a tool turn. */
  ghost predicate ActsOnce(turn: Turn, id: string, estimated: int, summary: string) {
    && ValidTurn(turn) && ToolResults(turn) == [Result(id)] && HasMore(turn)
    && turn.reply == Reply(None, [], Calling(id))
    && turn.beforeTurnAbort.None? && turn.beforeReasoningAbort.None? && !turn.stopAfter && turn.arrivals == []
    && turn.estimated == estimated && turn.summary == summary
  }

  lemma {:induction false} ToolTurnActs(id: string, estimated: int, summary: string)
    ensures ActsOnce(ToolTurn(id, estimated, summary), id, estimated, summary)
  {
    ToolTurnShape(id, ToolTurn(id, estimated, summary));
  }

  /** Reply and result of a tool turn, before any compaction. */
  lemma {:induction false} ToolActs(s: Loop, id: string, turn: Turn, injected: Loop, acted: Loop)
    requires Quiet(s) && injected == Inject(BeginTurn(s)) && ValidTurn(turn)
    requires turn.reply == Reply(None, [], Calling(id)) && ToolResults(turn) == [Result(id)]
    requires acted == Acted(injected, turn)
    ensures injected.last >= -1
    ensures var more := [Calling(id), Result(id)];
            Holds(acted, s.context + more, s.newMessages + more, s.last)
  {
    InjectNothing(s, injected);
    ActedShape(injected, turn);
    assert [turn.reply.final] + ToolResults(turn) == [Calling(id), Result(id)];
  }

  /** A tool turn that is not compacted adds the reply and its result. */
  lemma {:induction false} PlainTurn(s: Loop, id: string, turn: Turn, next: Loop)
    requires Quiet(s) && ActsOnce(turn, id, 0, "") && next == TurnStep(Compacting(), s, turn)
    ensures var more := [Calling(id), Result(id)];
            Holds(next, s.context + more, s.newMessages + more, s.last)
  {
    var injected := Inject(BeginTurn(s));
    ToolActs(s, id, turn, injected, Acted(injected, turn));
    QuietTurn(s, turn, injected, Acted(injected, turn));
  }

  /** One that is compacted adds the marker too, and puts the summary in the place of the segment. */
  lemma {:induction false} CompactedTurn(s: Loop, id: string, summary: string, segment: Segment, turn: Turn, next: Loop,
                                         context: seq<Message>)
    requires Quiet(s) && ActsOnce(turn, id, 1, summary) && next == TurnStep(Compacting(), s, turn)
    requires Trim(summary) == summary != "" && context == s.context + [Calling(id), Result(id)]
    requires SelectSegment(context, s.last + 1, 1) == Some(segment)
    requires segment.startIndex <= segment.endIndex <= |context|
    ensures var plan := Plan(segment.startIndex, segment.endIndex, summary, 1);
            var stored := s.newMessages + [Calling(id), Result(id)] + [BuildMarker(plan)];
            Holds(next, Spliced(context, plan), stored, segment.startIndex)
  {
    var injected := Inject(BeginTurn(s));
    InjectNothing(s, injected);
    var compacted := RunTools(Compacting(), StreamReply(injected, turn.reply), turn);
    CompactedActs(s, id, summary, segment, turn, injected, compacted, context);
    QuietTurn(s, turn, injected, compacted);
  }

  lemma {:induction false} CompactedActs(s: Loop, id: string, summary: string, segment: Segment, turn: Turn,
                                         injected: Loop, compacted: Loop, context: seq<Message>)
    requires Quiet(s) && ActsOnce(turn, id, 1, summary) && injected == Inject(BeginTurn(s)) && injected.last >= -1
    requires compacted == RunTools(Compacting(), StreamReply(injected, turn.reply), turn)
    requires Trim(summary) == summary != "" && context == s.context + [Calling(id), Result(id)]
    requires SelectSegment(context, s.last + 1, 1) == Some(segment)
    requires segment.startIndex <= segment.endIndex <= |context|
    ensures var plan := Plan(segment.startIndex, segment.endIndex, summary, 1);
            var stored := s.newMessages + [Calling(id), Result(id)] + [BuildMarker(plan)];
            Holds(compacted, Spliced(context, plan), stored, segment.startIndex)
  {
    var acted := Acted(injected, turn);
    ToolActs(s, id, turn, injected, acted);
    CompactsSegment(acted, turn, segment, compacted);
  }

  lemma {:induction false} CompactsSegment(acted: Loop, turn: Turn, segment: Segment, compacted: Loop)
    requires Quiet(acted) && turn.estimated == 1 && Trim(turn.summary) == turn.summary != ""
    requires SelectSegment(acted.context, acted.last + 1, 1) == Some(segment)
    requires segment.startIndex <= segment.endIndex <= |acted.context|
    requires compacted == Compact(Compacting(), acted, turn)
    ensures var plan := Plan(segment.startIndex, segment.endIndex, turn.summary, 1);
            Holds(compacted, Spliced(acted.context, plan), acted.newMessages + [BuildMarker(plan)], segment.startIndex)
  {
    PlansSegment(acted, turn, segment);
    CompactsTo(Compacting(), acted, turn, Plan(segment.startIndex, segment.endIndex, turn.summary, 1), compacted);
  }

  lemma {:induction false} PlansSegment(s: Loop, turn: Turn, segment: Segment)
    requires s.last >= -1 && turn.estimated == 1 && Trim(turn.summary) == turn.summary != ""
    requires SelectSegment(s.context, s.last + 1, 1) == Some(segment)
    ensures PlanOf(Compacting(), s, turn) == Some(Plan(segment.startIndex, segment.endIndex, turn.summary, 1))
  {
  }

  lemma {:induction false} CompactsTo(config: Config, s: Loop, turn: Turn, plan: Plan, next: Loop)
    requires ValidConfig(config) && Quiet(s) && PlanOf(config, s, turn) == Some(plan)
    requires next == Compact(config, s, turn)
    ensures Holds(next, Spliced(s.context, plan), s.newMessages + [BuildMarker(plan)], plan.startIndex)
  {
  }

  lemma {:induction false} FourAreValid(a: Turn, b: Turn, c: Turn, d: Turn)
    requires ValidTurn(a) && ValidTurn(b) && ValidTurn(c) && ValidTurn(d)
    ensures ValidEnvironment([a, b, c, d])
  {
    var turns := [a, b, c, d];
    forall k | 0 <= k < |turns| ensures ValidTurn(turns[k]) {
      assert turns[k] == a || turns[k] == b || turns[k] == c || turns[k] == d;
    }
  }

  function FourTurns(): (turns: seq<Turn>)
    ensures ValidEnvironment(turns)
  {
    FourAreValid(ToolTurn("1", 0, ""), ToolTurn("2", 1, "x"), ToolTurn("3", 0, ""), ToolTurn("4", 1, "y"));
    [ToolTurn("1", 0, ""), ToolTurn("2", 1, "x"), ToolTurn("3", 0, ""), ToolTurn("4", 1, "y")]
  }

  function FirstPrompt(): Entry {
    Entry([], [User("")], Prompted, Queue(DrainAll, []), Queue(DrainAll, []), false, None, [])
  }

  lemma {:induction false} StartsQuietly()
    ensures Holds(Start(FirstPrompt()), [User("")], [User("")], -1)
    ensures Start(FirstPrompt()).steered == [] && Start(FirstPrompt()).dropped == []
  {
    var context := [] + [User("")];
    assert context == [User("")];
    assert Markers(context[..0]) == [] && Markers(context) == [];
    assert Replay(context) == context;
  }

  /** Two tool turns, the second of them compacted: live and stored are what was there before, both what the turns
      add. */
  lemma {:induction false} PairOfTurns(s: Loop, next: Loop, last: Loop, a: string, b: string, summary: string,
                                       segment: Segment, live: seq<Message>, stored: seq<Message>, added: seq<Message>)
    requires Holds(s, live, stored, segment.startIndex - 1) && Trim(summary) == summary != ""
    requires next == TurnStep(Compacting(), s, ToolTurn(a, 0, "")) && next.last >= -1
    requires last == TurnStep(Compacting(), next, ToolTurn(b, 1, summary))
    requires added == [Calling(a), Result(a)] + [Calling(b), Result(b)]
    requires SelectSegment(live + added, segment.startIndex, 1) == Some(segment)
    requires segment.startIndex <= segment.endIndex <= |live| + 4
    ensures var plan := Plan(segment.startIndex, segment.endIndex, summary, 1);
            Holds(last, Spliced(live + added, plan), stored + added + [BuildMarker(plan)], segment.startIndex)
  {
    ToolTurnActs(a, 0, "");
    ToolTurnActs(b, 1, summary);
    PlainTurn(s, a, ToolTurn(a, 0, ""), next);
    Reassociate(live, [Calling(a), Result(a)], [Calling(b), Result(b)]);
    Reassociate(stored, [Calling(a), Result(a)], [Calling(b), Result(b)]);
    CompactedTurn(next, b, summary, segment, ToolTurn(b, 1, summary), last, live + added);
  }

  lemma {:induction false} FirstTurnsAdd()
    ensures [User("")] + ([Calling("1"), Result("1")] + [Calling("2"), Result("2")]) == FirstHalf()
  {
  }

  lemma {:induction false} AfterTwoTurns(s0: Loop, s1: Loop, s2: Loop)
    requires Holds(s0, [User("")], [User("")], -1)
    requires s1 == TurnStep(Compacting(), s0, ToolTurn("1", 0, "")) && s1.last >= -1
    requires s2 == TurnStep(Compacting(), s1, ToolTurn("2", 1, "x"))
    ensures Holds(s2, [Projection("x"), Calling("2"), Result("2")], FirstStored(), 0)
  {
    FirstTurnsAdd();
    OrphaningSegments();
    NoSpaces();
    PairOfTurns(s0, s1, s2, "1", "2", "x", Segment(0, 3), [User("")], [User("")],
                [Calling("1"), Result("1")] + [Calling("2"), Result("2")]);
    FirstSplice();
  }

  lemma {:induction false} SecondTurnsAdd()
    ensures [Projection("x"), Calling("2"), Result("2")] + SecondTurns()
            == [Projection("x"), Calling("2"), Result("2"), Calling("3"), Result("3"),
                Calling("4"), Result("4")]
  {
  }

  lemma {:induction false} AfterFourTurns(s2: Loop, s3: Loop, s4: Loop)
    requires Holds(s2, [Projection("x"), Calling("2"), Result("2")], FirstStored(), 0)
    requires s3 == TurnStep(Compacting(), s2, ToolTurn("3", 0, "")) && s3.last >= -1
    requires s4 == TurnStep(Compacting(), s3, ToolTurn("4", 1, "y"))
    ensures Holds(s4, OrphaningLive(), OrphaningStream(), 1)
  {
    SecondTurnsAdd();
    OrphaningSegments();
    NoSpaces();
    PairOfTurns(s2, s3, s4, "3", "4", "y", Segment(1, 5), [Projection("x"), Calling("2"), Result("2")],
                FirstStored(), SecondTurns());
    SecondSplice();
  }

  lemma {:induction false} NoSpaces()
    ensures Trim("x") == "x" && Trim("y") == "y"
  {
  }

  lemma {:induction false} RunOfFour(s: Loop, turns: seq<Turn>, s1: Loop, s2: Loop, s3: Loop, s4: Loop)
    requires |turns| == 4 && ValidEnvironment(turns) && s.last >= -1 && !s.ended
    requires s1 == TurnStep(Compacting(), s, turns[0]) && s1.last >= -1 && !s1.ended
    requires s2 == TurnStep(Compacting(), s1, turns[1]) && s2.last >= -1 && !s2.ended
    requires s3 == TurnStep(Compacting(), s2, turns[2]) && s3.last >= -1 && !s3.ended
    requires s4 == TurnStep(Compacting(), s3, turns[3]) && s4.last >= -1
    ensures Run(Compacting(), s, turns) == s4
  {
    assert turns[0..] == turns && turns[4..] == [];
    RunFrom(Compacting(), s, turns, 0, s1);
    RunFrom(Compacting(), s1, turns, 1, s2);
    RunFrom(Compacting(), s2, turns, 2, s3);
    RunFrom(Compacting(), s3, turns, 3, s4);
  }

  lemma {:induction false} RunFrom(config: Config, s: Loop, turns: seq<Turn>, k: nat, next: Loop)
    requires ValidConfig(config) && ValidEnvironment(turns) && k < |turns| && s.last >= -1 && !s.ended
    requires next == TurnStep(config, s, turns[k]) && next.last >= -1
    ensures Run(config, s, turns[k..]) == Run(config, next, turns[k + 1..])
  {
    assert turns[k..][0] == turns[k] && turns[k..][1..] == turns[k + 1..];
  }

  /** A whole run, from its first prompt, that leaves this context and this stream. */
  lemma {:induction false} ARunLeavesTheOrphaningStream()
    ensures var s := Run(Compacting(), Start(FirstPrompt()), FourTurns());
            s.context == OrphaningLive() && s.newMessages == OrphaningStream() && Paired(s.context)
  {
    StartsQuietly();
    FourStates(Start(FirstPrompt()));
    LivePaired();
  }

  lemma {:induction false} LivePaired()
    ensures Paired(OrphaningLive())
  {
    ResultFreePaired([Projection("x"), Projection("y")]);
    assert Calling("4").calls[0].id == "4";
    PairedBatch(Calling("4"), [Result("4")]);
    PairedJoin([Projection("x"), Projection("y")], [Calling("4")] + [Result("4")]);
    assert [Projection("x"), Projection("y")] + ([Calling("4")] + [Result("4")]) == OrphaningLive();
  }

  /** The next run over that stream starts with a tool result that lost its call. */
  lemma {:induction false} TheNextRunStartsWithAnOrphan(next: Entry)
    requires next.beforeTurnAbort.None? && next.history == OrphaningStream() && next.prompts == []
    ensures FirstContext(next)
            == [Projection("x"), Projection("y"), Result("3"), Calling("4"), Result("4")]
    ensures !Paired(FirstContext(next))
  {
    assert next.history + next.prompts == next.history;
    ReplayCanOrphanAResult();
  }

  lemma {:induction false} FourStates(s0: Loop)
    requires Holds(s0, [User("")], [User("")], -1)
    ensures Holds(Run(Compacting(), s0, FourTurns()), OrphaningLive(), OrphaningStream(), 1)
  {
    var turns := FourTurns();
    assert ValidTurn(turns[0]) && ValidTurn(turns[1]) && ValidTurn(turns[2]) && ValidTurn(turns[3]);
    var s1 := TurnStep(Compacting(), s0, turns[0]);
    ToolTurnActs("1", 0, "");
    PlainTurn(s0, "1", turns[0], s1);
    var s2 := TurnStep(Compacting(), s1, turns[1]);
    AfterTwoTurns(s0, s1, s2);
    var s3 := TurnStep(Compacting(), s2, turns[2]);
    ToolTurnActs("3", 0, "");
    PlainTurn(s2, "3", turns[2], s3);
    var s4 := TurnStep(Compacting(), s3, turns[3]);
    AfterFourTurns(s2, s3, s4);
    RunOfFour(s0, turns, s1, s2, s3, s4);
  }

  // ---------------------------------------------------------------------
  // A message lost to an aborted turn
  // ---------------------------------------------------------------------

  /** A reply without calls, after which a message is steered in. */
  function SteeredTurn(): (turn: Turn)
    ensures ValidTurn(turn)
  {
    var turn := Turn(None, None, Reply(None, [], Assistant("", [], EndTurn, None)),
                     Tools(true, [], []), 0, "", false, [Steer(User("b"))], []);
    SilentTurn(turn);
    turn
  }

  /** A turn that is aborted before it begins. */
  function GatedTurn(): (turn: Turn)
    ensures ValidTurn(turn)
  {
    SteeredTurn().(beforeTurnAbort := Some("gate"), arrivals := [])
  }

  function SteeredThenAborted(): (turns: seq<Turn>)
    ensures ValidEnvironment(turns)
  {
    [SteeredTurn(), GatedTurn()]
  }

  lemma {:induction false} SilentTurn(turn: Turn)
    requires turn.reply == Reply(None, [], Assistant("", [], EndTurn, None))
    requires turn.tools == Tools(true, [], [])
    ensures ValidTurn(turn)
  {
    assert Cut([]) == 0;
  }

  /** A turn without tool calls, during which one message is steered in: it is polled when the turn ends. */
  lemma {:induction false} SteeredIn(config: Config, s: Loop, turn: Turn, message: Message, next: Loop)
    requires ValidConfig(config) && ValidTurn(turn) && Quiet(s) && next == TurnStep(config, s, turn)
    requires turn.reply.final == Assistant("", [], EndTurn, None) && turn.arrivals == [Steer(message)]
    requires turn.beforeTurnAbort.None? && turn.beforeReasoningAbort.None? && !turn.stopAfter
    ensures !next.ended && !next.firstTurn && next.last == s.last && next.pending == [message]
    ensures next.steering.items == [] && next.steered == s.steered + [message] && next.dropped == s.dropped
    ensures next.newMessages == s.newMessages + [turn.reply.final]
  {
    var injected := Inject(BeginTurn(s));
    InjectNothing(s, injected);
    InjectKeepsAccounts(s, injected);
    var closed := CloseTurn(StreamReply(injected, turn.reply), turn);
    OneArrives(closed, turn.arrivals, message, Arrive(closed, turn.arrivals));
  }

  lemma {:induction false} InjectKeepsAccounts(s: Loop, injected: Loop)
    requires injected == Inject(BeginTurn(s))
    ensures injected.steered == s.steered && injected.dropped == s.dropped
  {
  }

  lemma {:induction false} OneArrives(s: Loop, actions: seq<Action>, message: Message, a: Loop)
    requires actions == [Steer(message)] && a == Arrive(s, actions) && s.steering.items == []
    ensures a == s.(steering := Queue(s.steering.mode, [message]), steered := s.steered + [message])
  {
    assert actions[1..] == [];
    assert Arrive(Called(s, actions[0]), []) == Called(s, actions[0]);
  }

  /** A later turn that is aborted before it begins throws away what was pending. */
  lemma {:induction false} AbortDrops(config: Config, s: Loop, turn: Turn, next: Loop)
    requires ValidConfig(config) && ValidTurn(turn) && s.last >= -1 && next == TurnStep(config, s, turn)
    requires !s.firstTurn && turn.beforeTurnAbort.Some?
    ensures next.ended && next.pending == [] && next.dropped == s.dropped + s.pending
    ensures next.steering == s.steering && next.steered == s.steered
    ensures next.newMessages == s.newMessages + [AbortNote(turn.beforeTurnAbort.value)]
  {
  }

  /** A run that reaches it: the steered message was polled, and is neither injected nor queued when the run ends. */
  lemma {:induction false} AnAbortLosesASteeredMessage()
    ensures var s := Run(Config(None), Start(FirstPrompt()), SteeredThenAborted());
            && s.ended && s.steered == [User("b")] && s.dropped == [User("b")]
            && User("b") !in s.newMessages && s.steering.items == [] && s.pending == []
  {
    StartsQuietly();
    SteeringIsLost(Config(None), Start(FirstPrompt()), SteeredThenAborted(), User("b"));
    NoneOfThese(User(""), SteeredTurn().reply.final, AbortNote("gate"), User("b"));
  }

  lemma {:induction false} NoneOfThese(a: Message, b: Message, c: Message, m: Message)
    requires m != a && m != b && m != c
    ensures m !in [a] + [b] + [c]
  {
  }

  lemma {:induction false} SteeringIsLost(config: Config, s: Loop, turns: seq<Turn>, message: Message)
    requires ValidConfig(config) && |turns| == 2 && ValidEnvironment(turns) && Quiet(s)
    requires turns[0].reply.final == Assistant("", [], EndTurn, None) && turns[0].arrivals == [Steer(message)]
    requires turns[0].beforeTurnAbort.None? && turns[0].beforeReasoningAbort.None? && !turns[0].stopAfter
    requires turns[1].beforeTurnAbort.Some?
    ensures var end := Run(config, s, turns);
            && end.ended && end.steered == s.steered + [message] && end.dropped == s.dropped + [message]
            && end.newMessages
               == s.newMessages + [turns[0].reply.final] + [AbortNote(turns[1].beforeTurnAbort.value)]
            && end.steering.items == [] && end.pending == []
  {
    var s1 := TurnStep(config, s, turns[0]);
    SteeredIn(config, s, turns[0], message, s1);
    var s2 := TurnStep(config, s1, turns[1]);
    AbortDrops(config, s1, turns[1], s2);
    TurnKeepsLast(config, s1, turns[1]);
    assert turns[0..] == turns && turns[2..] == [];
    RunFrom(config, s, turns, 0, s1);
    RunFrom(config, s1, turns, 1, s2);
  }
}
