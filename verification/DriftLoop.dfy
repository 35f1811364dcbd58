/** The model-driven phase machine of one drift run (packages/drift/src/loop-adapter.ts, tools.ts, runtime.ts). */
module DriftLoop {
  import opened Messages
  import S = DriftStore
  import Y = DriftSystem

  const CONSTRAINT_RETRY_LIMIT := 2
  const WRAP_UP_MAX_ATTEMPTS := 2

  datatype Tool = SelectSkill | IdleDrift | MessagePush | FinishDrift | Other(name: string)

  /** What a tool does when it runs: throws before any effect, answers with an error text, or goes through. */
  datatype Work =
    | Throws
    | Refuses
    | Succeeds(skill: string, hash: string, draft: S.Draft, note: Y.FinishNote)

  datatype Reply = LlmFails | NoCall | Calls(tool: Tool, denied: bool, work: Work)

  /** One model call: whether the deadline has passed when it is made, and what comes back. */
  datatype Turn = Turn(late: bool, reply: Reply)

  datatype Phase = Choosing | Acting | Closing

  /** The tools of the current context: the whole registry, or what was allowed when the turn was prepared. */
  datatype Offer = AllTools | ToolsOf(phase: Phase)

  /** A tool that ran, whether the finish was being forced then, and how many transactions the run had made before. */
  datatype Executed = Executed(tool: Tool, forced: bool, before: nat)

  datatype Status = Going | Returned | Failed

  /** The loop's closure variables, with the number of model calls made. */
  datatype Counters = Counters(steps: nat, rejections: nat, forcing: bool, wrapUps: nat, stop: bool, calls: nat)

  /** The tools run, the run's transactions, and the audit steps recorded so far. */
  datatype Trace = Trace(executed: seq<Executed>, acts: seq<Y.Action>, steps: seq<S.StepRow>)

  datatype Loop = Loop(c: Counters, run: Y.Run, offered: Offer, status: Status, trace: Trace)

  datatype Options = Options(runId: string, registry: set<Tool>, maxSteps: int)

  // ---------------------------------------------------------------------
  // Phases
  // ---------------------------------------------------------------------

  function PhaseOf(run: Y.Run, forcing: bool): Phase {
    if forcing then Closing
    else if run.selected == "" then Choosing
    else if run.staged then Closing
    else Acting
  }

  predicate Allows(phase: Phase, tool: Tool) {
    match phase
    case Choosing => tool in {SelectSkill, IdleDrift}
    case Acting => true
    case Closing => tool == FinishDrift
  }

  predicate Offers(o: Options, offer: Offer, tool: Tool) {
    tool in o.registry && (offer.AllTools? || Allows(offer.phase, tool))
  }

  // ---------------------------------------------------------------------
  // Tools as transactions on the context and the store
  // ---------------------------------------------------------------------

  /** The transactions a tool call performs; none when one of the tool's own checks refuses it. */
  function Performs(runId: string, run: Y.Run, tool: Tool, work: Work): seq<Y.Action> {
    if !work.Succeeds? then []
    else match tool
      case SelectSkill =>
        if work.skill == "" || run.selected !in {"", work.skill} then [] else [Y.Select(runId, work.skill)]
      case IdleDrift =>
        if run.selected != "" then [] else [Y.Idle(runId, work.note)]
      case MessagePush =>
        if run.staged || work.hash == "" then [] else [Y.Push(runId, work.hash, work.draft)]
      case FinishDrift =>
        if work.skill == "" || run.selected !in {"", work.skill} then []
        else [Y.BeginFinish(runId, work.skill), Y.EndFinish(runId, work.skill, work.note)]
      case Other(_) => []
  }

  /** The context after a transaction of its own run. */
  function RunAfter(run: Y.Run, a: Y.Action): Y.Run {
    match a
    case Select(_, skill) => run.(selected := skill)
    case Idle(_, _) => run.(selected := "idle", finished := true)
    case Push(_, hash, draft) => run.(staged := true, hash := hash, draft := draft)
    case BeginFinish(_, skill) => run.(selected := skill)
    case EndFinish(_, _, _) => run.(finished := true)
    case Pause(_, _) => run.(finished := true)
    case _ => run
  }

  function RunAfterAll(run: Y.Run, acts: seq<Y.Action>): Y.Run {
    if acts == [] then run else RunAfter(RunAfterAll(run, acts[..|acts| - 1]), acts[|acts| - 1])
  }

  // ---------------------------------------------------------------------
  // One turn
  // ---------------------------------------------------------------------

  /** Before each model call: two rejections or a spent budget turn the run towards its end. */
  function CheckBudgets(c: Counters, o: Options, phase: Phase, finished: bool, late: bool): Counters {
    if c.forcing || finished then c
    else if c.rejections >= CONSTRAINT_RETRY_LIMIT then
      if phase == Closing then c.(forcing := true, wrapUps := 0) else c.(stop := true)
    else if c.steps >= o.maxSteps || late then c.(forcing := true, wrapUps := 0)
    else c
  }

  function LogOf(runId: string, now: int, steps: nat): S.StepRow {
    S.StepRow(None, Some(runId), steps, "", now)
  }

  predicate Blocked(o: Options, offered: Offer, phase: Phase, tool: Tool) {
    !Offers(o, offered, tool) || !Allows(phase, tool)
  }

  /** What happened to a tool call: never run, or run in a phase. */
  datatype Outcome = Rejected | Denied | Ran(performed: seq<Y.Action>, threw: bool)

  function OutcomeOf(l: Loop, o: Options, tool: Tool, denied: bool, work: Work): Outcome {
    if Blocked(o, l.offered, PhaseOf(l.run, l.c.forcing), tool) then Rejected
    else if denied then Denied
    else Ran(Performs(o.runId, l.run, tool, work), work.Throws?)
  }

  function RunWith(run: Y.Run, outcome: Outcome): Y.Run {
    if outcome.Ran? then RunAfterAll(run, outcome.performed) else run
  }

  predicate IsError(outcome: Outcome) {
    outcome.Ran? ==> outcome.threw
  }

  /** A failed call outside the current phase is a rejection; a denial or a tool failure stops the loop, except a
      failing finish while the run is being wrapped up. */
  function CountCall(c: Counters, tool: Tool, outcome: Outcome, phaseAfter: Phase): Counters {
    c.(steps := c.steps + 1,
       rejections := c.rejections + if IsError(outcome) && !Allows(phaseAfter, tool) then 1 else 0,
       stop := c.stop || outcome.Denied? || (outcome.Ran? && outcome.threw && !(c.forcing && tool == FinishDrift)))
  }

  /** Steps recorded for a call: one when it ran or was denied, one when it was rejected by the phase. */
  function LoggedSteps(o: Options, now: int, steps: nat, tool: Tool, outcome: Outcome,
                       phaseAfter: Phase): seq<S.StepRow> {
    (if outcome.Rejected? then [] else [LogOf(o.runId, now, steps)])
    + (if IsError(outcome) && !Allows(phaseAfter, tool) then [LogOf(o.runId, now, steps)] else [])
  }

  function TraceCall(t: Trace, forcing: bool, tool: Tool, outcome: Outcome, logged: seq<S.StepRow>): Trace {
    match outcome
    case Ran(performed, _) => Trace(t.executed + [Executed(tool, forcing, |t.acts|)], t.acts + performed,
                                    t.steps + logged)
    case _ => Trace(t.executed, t.acts, t.steps + logged)
  }

  /** A tool call from its start event to its end event. */
  function CallTool(l: Loop, o: Options, tool: Tool, denied: bool, work: Work): Loop {
    var outcome := OutcomeOf(l, o, tool, denied, work);
    var run := RunWith(l.run, outcome);
    var phaseAfter := PhaseOf(run, l.c.forcing);
    var logged := LoggedSteps(o, run.now, l.c.steps + 1, tool, outcome, phaseAfter);
    Loop(CountCall(l.c, tool, outcome, phaseAfter), run, l.offered, l.status,
         TraceCall(l.trace, l.c.forcing, tool, outcome, logged))
  }

  function PrepareCounters(c: Counters, finished: bool): Counters {
    if finished || (c.forcing && c.wrapUps >= WRAP_UP_MAX_ATTEMPTS) then c.(stop := true)
    else if c.forcing then c.(wrapUps := c.wrapUps + 1)
    else c
  }

  function PrepareOffer(l: Loop): Offer {
    if l.run.finished || (l.c.forcing && l.c.wrapUps >= WRAP_UP_MAX_ATTEMPTS) then l.offered
    else ToolsOf(PhaseOf(l.run, l.c.forcing))
  }

  predicate ShouldStop(c: Counters, finished: bool) {
    c.stop || finished || (c.forcing && c.wrapUps >= WRAP_UP_MAX_ATTEMPTS)
  }

  const PAUSE_NOTE := Y.FinishNote(S.Paused, "", Some(""), map[], [])

  /** The end of the loop pauses a run that has not finished itself. */
  function Conclude(l: Loop, o: Options): Loop {
    if l.run.finished then l.(status := Returned)
    else
      l.(status := Returned, run := l.run.(finished := true),
         trace := l.trace.(acts := l.trace.acts + [Y.Pause(o.runId, PAUSE_NOTE)]))
  }

  /** After the reply: the next turn's tools, then stop on request or when the model called nothing. */
  function EndTurn(l: Loop, o: Options, called: bool): Loop {
    var c := PrepareCounters(l.c, l.run.finished);
    var next := l.(c := c, offered := PrepareOffer(l));
    if ShouldStop(c, l.run.finished) || !called then Conclude(next, o) else next
  }

  function BeforeCall(l: Loop, o: Options, late: bool): Loop {
    var c := CheckBudgets(l.c, o, PhaseOf(l.run, l.c.forcing), l.run.finished, late);
    l.(c := c.(calls := c.calls + 1))
  }

  function TurnStep(l: Loop, o: Options, turn: Turn): Loop {
    var checked := BeforeCall(l, o, turn.late);
    match turn.reply
    case LlmFails => checked.(status := Failed)
    case NoCall => EndTurn(checked, o, false)
    case Calls(tool, denied, work) => EndTurn(CallTool(checked, o, tool, denied, work), o, true)
  }

  // ---------------------------------------------------------------------
  // The bound
  // ---------------------------------------------------------------------

  function Budget(o: Options): nat {
    if o.maxSteps > 0 then o.maxSteps else 0
  }

  /** What the counters satisfy before every model call. */
  ghost predicate InBudget(c: Counters, o: Options) {
    && !c.stop
    && (!c.forcing ==> c.calls == c.steps <= Budget(o))
    && (c.forcing ==> c.wrapUps == 1 && c.calls <= Budget(o) + 1)
  }

  ghost predicate BetweenTurns(l: Loop, o: Options) {
    l.status.Going? ==> !l.run.finished && InBudget(l.c, o)
  }

  /** How many model calls are still possible. */
  function CallsLeft(l: Loop, o: Options): nat {
    if !l.status.Going? then 0
    else if l.c.forcing then 1
    else if l.c.steps <= Budget(o) then Budget(o) - l.c.steps + 2 else 0
  }

  function StartLoop(o: Options, run: Y.Run): Loop {
    Loop(Counters(0, 0, false, 0, false, 0), run, AllTools, Going, Trace([], [], []))
  }

  /** The counters of one turn: what the check, the call and the preparation of the next turn make of them. */
  lemma {:induction false} CountersTowardsTheEnd(c: Counters, o: Options, phase: Phase, late: bool, called: Counters,
                                                 finished: bool)
    requires InBudget(c, o)
    requires var checked := CheckBudgets(c, o, phase, false, late);
             && called.forcing == checked.forcing && called.wrapUps == checked.wrapUps && called.calls == c.calls + 1
             && called.steps == checked.steps + 1 && (checked.stop ==> called.stop)
    ensures called.calls <= Budget(o) + 2
    ensures var next := PrepareCounters(called, finished);
            && next.calls == called.calls && next.steps == c.steps + 1 && next.forcing == called.forcing
            && (!ShouldStop(next, finished) ==>
                  InBudget(next, o) && !c.forcing && (next.forcing || c.steps < Budget(o)))
  {
  }

  lemma {:induction false} CallTurnTowardsTheEnd(l: Loop, o: Options, late: bool, tool: Tool, denied: bool, work: Work)
    requires l.status.Going? && BetweenTurns(l, o)
    ensures var next := EndTurn(CallTool(BeforeCall(l, o, late), o, tool, denied, work), o, true);
            && BetweenTurns(next, o) && CallsLeft(next, o) < CallsLeft(l, o)
            && next.c.calls == l.c.calls + 1 <= Budget(o) + 2
  {
    var checked := BeforeCall(l, o, late);
    var called := CallTool(checked, o, tool, denied, work);
    CountersTowardsTheEnd(l.c, o, PhaseOf(l.run, l.c.forcing), late, called.c, called.run.finished);
  }

  lemma {:induction false} TurnTowardsTheEnd(l: Loop, o: Options, turn: Turn)
    requires l.status.Going? && BetweenTurns(l, o)
    ensures BetweenTurns(TurnStep(l, o, turn), o)
    ensures CallsLeft(TurnStep(l, o, turn), o) < CallsLeft(l, o)
    ensures TurnStep(l, o, turn).c.calls == l.c.calls + 1 <= Budget(o) + 2
  {
    match turn.reply {
      case LlmFails =>
      case NoCall =>
      case Calls(tool, denied, work) => CallTurnTowardsTheEnd(l, o, turn.late, tool, denied, work);
    }
  }

  /** The whole loop for any model behaviour; it ends whatever the model does. */
  function Run(l: Loop, o: Options, model: nat -> Turn): Loop
    requires BetweenTurns(l, o)
    decreases CallsLeft(l, o)
  {
    if !l.status.Going? then l
    else
      TurnTowardsTheEnd(l, o, model(l.c.calls));
      Run(TurnStep(l, o, model(l.c.calls)), o, model)
  }

  lemma {:induction false} CallsAreBounded(l: Loop, o: Options, model: nat -> Turn)
    requires BetweenTurns(l, o) && l.c.calls <= Budget(o) + 2
    ensures !Run(l, o, model).status.Going? && Run(l, o, model).c.calls <= Budget(o) + 2
    decreases CallsLeft(l, o)
  {
    if l.status.Going? {
      TurnTowardsTheEnd(l, o, model(l.c.calls));
      CallsAreBounded(TurnStep(l, o, model(l.c.calls)), o, model);
    }
  }

  // ---------------------------------------------------------------------
  // One staged message, one finish
  // ---------------------------------------------------------------------

  predicate Ending(a: Y.Action) {
    a.Idle? || a.EndFinish? || a.Pause?
  }

  function Endings(acts: seq<Y.Action>): nat {
    if acts == [] then 0 else Endings(acts[..|acts| - 1]) + if Ending(acts[|acts| - 1]) then 1 else 0
  }

  function Pushes(acts: seq<Y.Action>): nat {
    if acts == [] then 0 else Pushes(acts[..|acts| - 1]) + if acts[|acts| - 1].Push? then 1 else 0
  }

  /** The transactions explain the context: one ending exactly when finished, one push exactly when staged. */
  ghost predicate Explains(acts: seq<Y.Action>, run: Y.Run) {
    && Endings(acts) == (if run.finished then 1 else 0)
    && Pushes(acts) == (if run.staged then 1 else 0)
    && (run.staged ==> run.selected != "")
  }

  ghost predicate Accounted(l: Loop) {
    Explains(l.trace.acts, l.run) && (l.status.Returned? ==> l.run.finished)
  }

  lemma {:induction false} CountsJoin(a: seq<Y.Action>, b: seq<Y.Action>)
    ensures Endings(a + b) == Endings(a) + Endings(b)
    ensures Pushes(a + b) == Pushes(a) + Pushes(b)
    decreases |b|
  {
    if b == [] {
      assert a + b == a;
    } else {
      assert (a + b)[..|a + b| - 1] == a + b[..|b| - 1];
      CountsJoin(a, b[..|b| - 1]);
    }
  }

  lemma {:induction false} CountsOfOne(a: Y.Action)
    ensures Endings([a]) == (if Ending(a) then 1 else 0) && Pushes([a]) == (if a.Push? then 1 else 0)
  {
    assert [a][..0] == [];
  }

  /** A transaction that a run may make next without a second ending or staging. */
  predicate Fits(run: Y.Run, a: Y.Action) {
    && (Ending(a) ==> !run.finished) && (a.Push? ==> !run.staged && run.selected != "")
    && (a.Select? || a.BeginFinish? ==> a.skill != "")
  }

  lemma {:induction false} ActExplained(acts: seq<Y.Action>, run: Y.Run, a: Y.Action)
    requires Explains(acts, run) && Fits(run, a)
    ensures Explains(acts + [a], RunAfter(run, a))
  {
    CountsJoin(acts, [a]);
    CountsOfOne(a);
  }

  lemma {:induction false} OneAct(run: Y.Run, a: Y.Action)
    ensures RunAfterAll(run, [a]) == RunAfter(run, a)
  {
    assert RunAfterAll(run, [a][..0]) == run;
  }

  lemma {:induction false} TwoActs(run: Y.Run, a: Y.Action, b: Y.Action)
    ensures RunAfterAll(run, [a, b]) == RunAfter(RunAfter(run, a), b)
  {
    OneAct(run, a);
    assert [a, b][..1] == [a];
  }

  lemma {:induction false} OneExplained(acts: seq<Y.Action>, run: Y.Run, performed: seq<Y.Action>)
    requires Explains(acts, run) && |performed| == 1 && Fits(run, performed[0])
    ensures Explains(acts + performed, RunAfterAll(run, performed))
  {
    ActExplained(acts, run, performed[0]);
    OneAct(run, performed[0]);
    assert performed == [performed[0]];
  }

  lemma {:induction false} TwoExplained(acts: seq<Y.Action>, run: Y.Run, performed: seq<Y.Action>)
    requires Explains(acts, run) && |performed| == 2
    requires Fits(run, performed[0]) && Fits(RunAfter(run, performed[0]), performed[1])
    ensures Explains(acts + performed, RunAfterAll(run, performed))
  {
    ActExplained(acts, run, performed[0]);
    ActExplained(acts + [performed[0]], RunAfter(run, performed[0]), performed[1]);
    TwoActs(run, performed[0], performed[1]);
    assert performed == [performed[0], performed[1]];
    assert acts + performed == acts + [performed[0]] + [performed[1]];
  }

  lemma {:induction false} PerformedExplained(acts: seq<Y.Action>, runId: string, run: Y.Run, forcing: bool,
                                              tool: Tool, work: Work)
    requires Explains(acts, run) && !run.finished && Allows(PhaseOf(run, forcing), tool)
    ensures var performed := Performs(runId, run, tool, work); Explains(acts + performed, RunAfterAll(run, performed))
  {
    var performed := Performs(runId, run, tool, work);
    if performed == [] {
      assert acts + performed == acts;
    } else if tool == FinishDrift {
      TwoExplained(acts, run, performed);
    } else {
      OneExplained(acts, run, performed);
    }
  }

  lemma {:induction false} CallAccounted(l: Loop, o: Options, tool: Tool, denied: bool, work: Work, next: Loop)
    requires Accounted(l) && !l.run.finished && l.status.Going? && next == CallTool(l, o, tool, denied, work)
    ensures Accounted(next)
  {
    var outcome := OutcomeOf(l, o, tool, denied, work);
    if outcome.Ran? {
      PerformedExplained(l.trace.acts, o.runId, l.run, l.c.forcing, tool, work);
      RanAccounted(l, next, outcome.performed);
    } else {
      IdleAccounted(l, next);
    }
  }

  lemma {:induction false} RanAccounted(l: Loop, next: Loop, performed: seq<Y.Action>)
    requires Accounted(l) && next.status.Going? && next.trace.acts == l.trace.acts + performed
    requires Explains(l.trace.acts + performed, next.run)
    ensures Accounted(next)
  {
  }

  lemma {:induction false} IdleAccounted(l: Loop, next: Loop)
    requires Accounted(l) && next.status.Going?
    requires next.trace.acts == l.trace.acts && next.run == l.run
    ensures Accounted(next)
  {
  }

  lemma {:induction false} EndTurnAccounted(l: Loop, o: Options, called: bool)
    requires Accounted(l) && l.status.Going?
    ensures Accounted(EndTurn(l, o, called))
  {
    if !l.run.finished {
      ActExplained(l.trace.acts, l.run, Y.Pause(o.runId, PAUSE_NOTE));
    }
  }

  lemma {:induction false} TurnAccounted(l: Loop, o: Options, turn: Turn)
    requires Accounted(l) && BetweenTurns(l, o) && l.status.Going?
    ensures Accounted(TurnStep(l, o, turn))
  {
    var checked := BeforeCall(l, o, turn.late);
    match turn.reply {
      case LlmFails =>
      case NoCall => EndTurnAccounted(checked, o, false);
      case Calls(tool, denied, work) =>
        CallAccounted(checked, o, tool, denied, work, CallTool(checked, o, tool, denied, work));
        EndTurnAccounted(CallTool(checked, o, tool, denied, work), o, true);
    }
  }

  lemma {:induction false} RunAccounted(l: Loop, o: Options, model: nat -> Turn)
    requires Accounted(l) && BetweenTurns(l, o)
    ensures Accounted(Run(l, o, model))
    decreases CallsLeft(l, o)
  {
    if l.status.Going? {
      TurnAccounted(l, o, model(l.c.calls));
      TurnTowardsTheEnd(l, o, model(l.c.calls));
      RunAccounted(TurnStep(l, o, model(l.c.calls)), o, model);
    }
  }

  /** Any model: at most maxSteps + 2 model calls, at most one staged message, and when the loop returns exactly one
      finish was recorded. */
  lemma {:induction false} DriftRunIsBounded(o: Options, run: Y.Run, model: nat -> Turn)
    requires !run.finished && !run.staged
    ensures var l := Run(StartLoop(o, run), o, model);
            && !l.status.Going?
            && l.c.calls <= Budget(o) + 2
            && Pushes(l.trace.acts) <= 1
            && Endings(l.trace.acts) == (if l.run.finished then 1 else 0)
            && (l.status.Returned? ==> l.run.finished)
  {
    CallsAreBounded(StartLoop(o, run), o, model);
    RunAccounted(StartLoop(o, run), o, model);
  }

  /** A turn that is forced, on which the model duly calls the finish and the tool accepts it. */
  predicate CooperativeFinish(o: Options, l: Loop, turn: Turn) {
    && FinishDrift in o.registry && turn.reply.Calls? && turn.reply.tool == FinishDrift && !turn.reply.denied
    && turn.reply.work.Succeeds? && turn.reply.work.skill != "" && l.run.selected in {"", turn.reply.work.skill}
  }

  predicate ForcedNow(l: Loop, o: Options, late: bool) {
    l.c.rejections < CONSTRAINT_RETRY_LIMIT && (l.c.steps >= o.maxSteps || late)
  }

  /** What is offered between turns: everything at first, later what the phase allowed when the turn was prepared. */
  ghost predicate OfferFollowsPhase(l: Loop) {
    l.status.Going? && !l.c.forcing ==>
      l.offered == if l.c.calls == 0 then AllTools else ToolsOf(PhaseOf(l.run, false))
  }

  /** Once the finish is forced, nothing else is offered in later turns. */
  ghost predicate OnlyFinishOffered(l: Loop) {
    l.status.Going? && l.c.forcing ==> l.offered == ToolsOf(Closing)
  }

  lemma {:induction false} TurnOfferFollowsPhase(l: Loop, o: Options, turn: Turn)
    ensures OfferFollowsPhase(TurnStep(l, o, turn)) && OnlyFinishOffered(TurnStep(l, o, turn))
  {
  }

  /** The loop after at most k turns. */
  function AfterTurns(l: Loop, o: Options, model: nat -> Turn, k: nat): Loop {
    if k == 0 then l
    else
      var before := AfterTurns(l, o, model, k - 1);
      if before.status.Going? then TurnStep(before, o, model(before.c.calls)) else before
  }

  /** What holds of every loop that a run from a working context reaches. */
  lemma {:induction false} ReachedLoop(o: Options, run: Y.Run, model: nat -> Turn, k: nat)
    requires !run.finished
    ensures var l := AfterTurns(StartLoop(o, run), o, model, k); BetweenTurns(l, o) && OfferFollowsPhase(l)
    ensures OnlyFinishOffered(AfterTurns(StartLoop(o, run), o, model, k))
  {
    if k > 0 {
      var before := AfterTurns(StartLoop(o, run), o, model, k - 1);
      ReachedLoop(o, run, model, k - 1);
      if before.status.Going? {
        TurnTowardsTheEnd(before, o, model(before.c.calls));
        TurnOfferFollowsPhase(before, o, model(before.c.calls));
      }
    }
  }

  lemma {:induction false} ForcedTurn(l: Loop, o: Options, turn: Turn, next: Loop)
    requires l.status.Going? && BetweenTurns(l, o) && !l.c.forcing && OfferFollowsPhase(l)
    requires ForcedNow(l, o, turn.late) && CooperativeFinish(o, l, turn) && next == TurnStep(l, o, turn)
    ensures next.run.finished && next.status.Returned? <==> l.c.calls == 0 || l.run.selected != ""
  {
    var checked := BeforeCall(l, o, turn.late);
    var tool, work := turn.reply.tool, turn.reply.work;
    var outcome := OutcomeOf(checked, o, tool, false, work);
    if l.c.calls == 0 || l.run.selected != "" {
      TwoActs(l.run, Y.BeginFinish(o.runId, work.skill), Y.EndFinish(o.runId, work.skill, work.note));
      assert outcome == Ran([Y.BeginFinish(o.runId, work.skill), Y.EndFinish(o.runId, work.skill, work.note)], false);
    } else {
      assert outcome == Rejected;
    }
  }

  /** In any run, when the budget runs out after k turns, the first forced attempt can succeed exactly when it is the
      first model call of all or a skill has been selected: otherwise only the selection tools are still offered. */
  lemma {:induction false} FirstForcedAttemptSucceedsExactly(o: Options, run: Y.Run, model: nat -> Turn, k: nat,
                                                             turn: Turn)
    requires !run.finished
    requires var l := AfterTurns(StartLoop(o, run), o, model, k);
             l.status.Going? && !l.c.forcing && ForcedNow(l, o, turn.late) && CooperativeFinish(o, l, turn)
    ensures var l := AfterTurns(StartLoop(o, run), o, model, k);
            var next := TurnStep(l, o, turn);
            next.run.finished && next.status.Returned? <==> l.c.calls == 0 || l.run.selected != ""
  {
    var l := AfterTurns(StartLoop(o, run), o, model, k);
    ReachedLoop(o, run, model, k);
    ForcedTurn(l, o, turn, TurnStep(l, o, turn));
  }

  lemma {:induction false} WastedTurn(l: Loop, o: Options, turn: Turn, next: Loop)
    requires l.status.Going? && BetweenTurns(l, o) && !l.c.forcing && OfferFollowsPhase(l)
    requires l.c.calls > 0 && l.run.selected == "" && ForcedNow(l, o, turn.late) && turn.reply.Calls?
    requires next == TurnStep(l, o, turn)
    ensures next.status.Going? && next.run == l.run && next.trace.executed == l.trace.executed
    ensures next.c.forcing && next.c.wrapUps == 1
  {
    assert Blocked(o, l.offered, Closing, turn.reply.tool);
  }

  /** In any run, when the budget runs out before a skill is selected, the first forced attempt never executes anything,
      whatever the model calls. One attempt is left. */
  lemma {:induction false} FirstForcedAttemptIsWasted(o: Options, run: Y.Run, model: nat -> Turn, k: nat, turn: Turn)
    requires !run.finished
    requires var l := AfterTurns(StartLoop(o, run), o, model, k);
             && l.status.Going? && !l.c.forcing && ForcedNow(l, o, turn.late) && turn.reply.Calls?
             && l.c.calls > 0 && l.run.selected == ""
    ensures var l := AfterTurns(StartLoop(o, run), o, model, k);
            var next := TurnStep(l, o, turn);
            && next.status.Going? && next.run == l.run && next.trace.executed == l.trace.executed
            && next.c.forcing && next.c.wrapUps == 1
  {
    var l := AfterTurns(StartLoop(o, run), o, model, k);
    ReachedLoop(o, run, model, k);
    WastedTurn(l, o, turn, TurnStep(l, o, turn));
  }

  const SOME_NOTE := Y.FinishNote(S.Completed, "done", None, map[], [])

  /** A model that gets its first selection refused and then calls the finish as told. */
  function LateChooser(): nat -> Turn {
    n => Turn(false, if n == 0 then Calls(SelectSkill, false, Refuses)
                     else Calls(FinishDrift, false, Succeeds("s", "", S.EMPTY_DRAFT, SOME_NOTE)))
  }

  /** A run that reaches it: one step of budget, a refused selection, and a finish that is not even offered. */
  lemma {:induction false} AWastedAttemptIsReachable(run: Y.Run)
    requires !run.finished && !run.staged && run.selected == ""
    ensures var o := Options("r", {SelectSkill, IdleDrift, MessagePush, FinishDrift}, 1);
            var before := AfterTurns(StartLoop(o, run), o, LateChooser(), 1);
            var after := AfterTurns(StartLoop(o, run), o, LateChooser(), 2);
            && before.status.Going? && ForcedNow(before, o, false) && CooperativeFinish(o, before, LateChooser()(1))
            && after.status.Going? && !after.run.finished && after.trace.executed == before.trace.executed
            && after.c.wrapUps == 1
  {
    var o := Options("r", {SelectSkill, IdleDrift, MessagePush, FinishDrift}, 1);
    var start := StartLoop(o, run);
    var before := TurnStep(start, o, LateChooser()(0));
    assert AfterTurns(start, o, LateChooser(), 0) == start;
    assert AfterTurns(start, o, LateChooser(), 1) == before;
    FirstForcedAttemptIsWasted(o, run, LateChooser(), 1, LateChooser()(1));
  }

  // ---------------------------------------------------------------------
  // The loop as it runs
  // ---------------------------------------------------------------------

  /** The budget guards in front of a model call. */
  method StreamFn(l: Loop, o: Options, late: bool) returns (next: Loop)
    ensures next == BeforeCall(l, o, late)
  {
    var forcing, wrapUps, stop := l.c.forcing, l.c.wrapUps, l.c.stop;
    if !forcing && !l.run.finished {
      if l.c.rejections >= CONSTRAINT_RETRY_LIMIT {
        if PhaseOf(l.run, forcing) == Closing {
          forcing, wrapUps := true, 0;
        } else {
          stop := true;
        }
      } else if l.c.steps >= o.maxSteps || late {
        forcing, wrapUps := true, 0;
      }
    }
    next := l.(c := Counters(l.c.steps, l.c.rejections, forcing, wrapUps, stop, l.c.calls + 1));
  }

  /** The hooks around the tool, and the tool itself. */
  method AttemptTool(l: Loop, o: Options, tool: Tool, denied: bool, work: Work) returns (outcome: Outcome, run: Y.Run)
    ensures outcome == OutcomeOf(l, o, tool, denied, work) && run == RunWith(l.run, outcome)
  {
    outcome, run := Rejected, l.run;
    if Offers(o, l.offered, tool) && Allows(PhaseOf(l.run, l.c.forcing), tool) {
      if denied {
        outcome := Denied;
      } else {
        var performed := Performs(o.runId, l.run, tool, work);
        run := RunAfterAll(run, performed);
        outcome := Ran(performed, work.Throws?);
      }
    }
  }

  /** The start event, the hooks around the tool, and the end event. */
  method HandleToolCall(l: Loop, o: Options, tool: Tool, denied: bool, work: Work) returns (next: Loop)
    ensures next == CallTool(l, o, tool, denied, work)
  {
    var outcome, run := AttemptTool(l, o, tool, denied, work);
    var steps, rejections, stop := l.c.steps + 1, l.c.rejections, l.c.stop;
    var executed, acts, logged: seq<S.StepRow> := l.trace.executed, l.trace.acts, [];
    if outcome.Ran? {
      executed := executed + [Executed(tool, l.c.forcing, |acts|)];
      acts := acts + outcome.performed;
    }
    if !outcome.Rejected? {
      logged := [LogOf(o.runId, run.now, steps)];
    }
    if outcome.Denied? || (outcome.Ran? && outcome.threw && !(l.c.forcing && tool == FinishDrift)) {
      stop := true;
    }
    if IsError(outcome) && !Allows(PhaseOf(run, l.c.forcing), tool) {
      rejections := rejections + 1;
      logged := logged + [LogOf(o.runId, run.now, steps)];
    }
    next := Loop(Counters(steps, rejections, l.c.forcing, l.c.wrapUps, stop, l.c.calls), run, l.offered, l.status,
                 Trace(executed, acts, l.trace.steps + logged));
  }

  /** Preparing the next turn, deciding whether to stop, and the pause that ends an unfinished run. */
  method FinishTurn(l: Loop, o: Options, called: bool) returns (next: Loop)
    ensures next == EndTurn(l, o, called)
  {
    var stop, wrapUps, offered := l.c.stop, l.c.wrapUps, l.offered;
    if l.run.finished {
      stop := true;
    } else if l.c.forcing {
      if wrapUps >= WRAP_UP_MAX_ATTEMPTS {
        stop := true;
      } else {
        wrapUps := wrapUps + 1;
        offered := ToolsOf(Closing);
      }
    } else {
      offered := ToolsOf(PhaseOf(l.run, l.c.forcing));
    }
    next := l.(c := l.c.(stop := stop, wrapUps := wrapUps), offered := offered);
    if stop || l.run.finished || (l.c.forcing && wrapUps >= WRAP_UP_MAX_ATTEMPTS) || !called {
      if !next.run.finished {
        next := next.(run := next.run.(finished := true),
                      trace := next.trace.(acts := next.trace.acts + [Y.Pause(o.runId, PAUSE_NOTE)]));
      }
      next := next.(status := Returned);
    }
  }

  /** Terminates for every model, with the result the specification gives. */
  method RunDriftAgentLoop(o: Options, run: Y.Run, model: nat -> Turn) returns (l: Loop)
    requires !run.finished
    ensures l == Run(StartLoop(o, run), o, model)
  {
    l := StartLoop(o, run);
    while l.status.Going?
      invariant BetweenTurns(l, o) && Run(l, o, model) == Run(StartLoop(o, run), o, model)
      decreases CallsLeft(l, o)
    {
      var turn := model(l.c.calls);
      TurnTowardsTheEnd(l, o, turn);
      ghost var step := TurnStep(l, o, turn);
      var next := StreamFn(l, o, turn.late);
      match turn.reply {
        case LlmFails => next := next.(status := Failed);
        case NoCall => next := FinishTurn(next, o, false);
        case Calls(tool, denied, work) =>
          next := HandleToolCall(next, o, tool, denied, work);
          next := FinishTurn(next, o, true);
      }
      assert next == step;
      l := next;
    }
  }

  // ---------------------------------------------------------------------
  // The loop's transactions are possible among those of other processes
  // ---------------------------------------------------------------------

  /** The part of a transaction's guard that concerns the run's own context. */
  predicate Possible(run: Y.Run, a: Y.Action) {
    match a
    case Select(_, skill) => !run.finished && skill != "" && run.selected in {"", skill}
    case Idle(_, _) => !run.finished && run.selected == ""
    case Push(_, hash, _) => !run.finished && run.selected != "" && !run.staged && hash != ""
    case BeginFinish(_, skill) => !run.finished && skill != "" && run.selected in {"", skill}
    case EndFinish(_, skill, _) => !run.finished && skill != "" && run.selected == skill
    case Pause(_, _) => !run.finished
    case GiveBack(_) => run.finished
    case _ => true
  }

  predicate Chain(run: Y.Run, acts: seq<Y.Action>) {
    acts == []
    || (Chain(run, acts[..|acts| - 1]) && Possible(RunAfterAll(run, acts[..|acts| - 1]), acts[|acts| - 1]))
  }

  predicate Own(a: Y.Action, runId: string) {
    (a.Report? || a.Select? || a.Idle? || a.Push? || a.BeginFinish? || a.EndFinish? || a.Pause? || a.GiveBack?)
    && a.runId == runId
  }

  ghost predicate AllOwn(acts: seq<Y.Action>, runId: string) {
    forall i :: 0 <= i < |acts| ==> Own(acts[i], runId)
  }

  /** The transactions performed so far are possible one after the other and lead to the present context. */
  ghost predicate Lawful(start: Y.Run, acts: seq<Y.Action>, runId: string, run: Y.Run) {
    Chain(start, acts) && RunAfterAll(start, acts) == run && AllOwn(acts, runId)
  }

  lemma {:induction false} LawfulStep(start: Y.Run, acts: seq<Y.Action>, runId: string, run: Y.Run, a: Y.Action)
    requires Lawful(start, acts, runId, run) && Possible(run, a) && Own(a, runId)
    ensures Lawful(start, acts + [a], runId, RunAfter(run, a))
  {
    assert (acts + [a])[..|acts|] == acts;
  }

  lemma {:induction false} LawfulOne(start: Y.Run, acts: seq<Y.Action>, runId: string, run: Y.Run,
                                     performed: seq<Y.Action>)
    requires Lawful(start, acts, runId, run) && |performed| == 1
    requires Possible(run, performed[0]) && Own(performed[0], runId)
    ensures Lawful(start, acts + performed, runId, RunAfterAll(run, performed))
  {
    LawfulStep(start, acts, runId, run, performed[0]);
    OneAct(run, performed[0]);
    assert performed == [performed[0]];
  }

  lemma {:induction false} LawfulTwo(start: Y.Run, acts: seq<Y.Action>, runId: string, run: Y.Run,
                                     performed: seq<Y.Action>)
    requires Lawful(start, acts, runId, run) && |performed| == 2
    requires Possible(run, performed[0]) && Own(performed[0], runId)
    requires Possible(RunAfter(run, performed[0]), performed[1]) && Own(performed[1], runId)
    ensures Lawful(start, acts + performed, runId, RunAfterAll(run, performed))
  {
    LawfulStep(start, acts, runId, run, performed[0]);
    LawfulStep(start, acts + [performed[0]], runId, RunAfter(run, performed[0]), performed[1]);
    TwoActs(run, performed[0], performed[1]);
    assert performed == [performed[0], performed[1]];
    assert acts + performed == acts + [performed[0]] + [performed[1]];
  }

  lemma {:induction false} PerformedLawful(start: Y.Run, acts: seq<Y.Action>, runId: string, run: Y.Run, forcing: bool,
                                           tool: Tool, work: Work)
    requires Lawful(start, acts, runId, run) && !run.finished && Allows(PhaseOf(run, forcing), tool)
    ensures var performed := Performs(runId, run, tool, work);
            Lawful(start, acts + performed, runId, RunAfterAll(run, performed))
  {
    var performed := Performs(runId, run, tool, work);
    if performed == [] {
      assert acts + performed == acts;
    } else if tool == FinishDrift {
      LawfulTwo(start, acts, runId, run, performed);
    } else {
      LawfulOne(start, acts, runId, run, performed);
    }
  }

  lemma {:induction false} CallLawful(start: Y.Run, l: Loop, o: Options, tool: Tool, denied: bool, work: Work,
                                      next: Loop)
    requires Lawful(start, l.trace.acts, o.runId, l.run) && !l.run.finished
             && next == CallTool(l, o, tool, denied, work)
    ensures Lawful(start, next.trace.acts, o.runId, next.run) && next.status == l.status
  {
    if OutcomeOf(l, o, tool, denied, work).Ran? {
      PerformedLawful(start, l.trace.acts, o.runId, l.run, l.c.forcing, tool, work);
    }
  }

  lemma {:induction false} EndTurnLawful(start: Y.Run, l: Loop, o: Options, called: bool, next: Loop)
    requires Lawful(start, l.trace.acts, o.runId, l.run) && next == EndTurn(l, o, called)
    ensures Lawful(start, next.trace.acts, o.runId, next.run)
  {
    if !l.run.finished {
      LawfulStep(start, l.trace.acts, o.runId, l.run, Y.Pause(o.runId, PAUSE_NOTE));
    }
  }

  lemma {:induction false} TurnLawful(start: Y.Run, l: Loop, o: Options, turn: Turn)
    requires Lawful(start, l.trace.acts, o.runId, l.run) && BetweenTurns(l, o) && l.status.Going?
    ensures var next := TurnStep(l, o, turn); Lawful(start, next.trace.acts, o.runId, next.run)
  {
    var checked := BeforeCall(l, o, turn.late);
    match turn.reply {
      case LlmFails =>
      case NoCall => EndTurnLawful(start, checked, o, false, EndTurn(checked, o, false));
      case Calls(tool, denied, work) =>
        var called := CallTool(checked, o, tool, denied, work);
        CallLawful(start, checked, o, tool, denied, work, called);
        EndTurnLawful(start, called, o, true, EndTurn(called, o, true));
    }
  }

  lemma {:induction false} RunLawful(start: Y.Run, l: Loop, o: Options, model: nat -> Turn)
    requires Lawful(start, l.trace.acts, o.runId, l.run) && BetweenTurns(l, o)
    ensures var last := Run(l, o, model); Lawful(start, last.trace.acts, o.runId, last.run)
    decreases CallsLeft(l, o)
  {
    if l.status.Going? {
      TurnLawful(start, l, o, model(l.c.calls));
      TurnTowardsTheEnd(l, o, model(l.c.calls));
      RunLawful(start, TurnStep(l, o, model(l.c.calls)), o, model);
    }
  }

  // ---------------------------------------------------------------------
  // The whole pipeline run
  // ---------------------------------------------------------------------

  function DeliveryReports(runId: string, attempted: bool): seq<Y.Action> {
    if attempted then
      [Y.Report(runId, S.DeliveryPending, false, true), Y.Report(runId, S.DeliveryCommitted, false, false)]
    else []
  }

  function PipelineTail(o: Options, l: Loop, delivers: bool): seq<Y.Action> {
    var delivery := DeliveryReports(o.runId, delivers && l.run.staged);
    if l.status.Failed? then
      [Y.Report(o.runId, S.RunFailed, true, true)] + (if l.run.finished then [] else [Y.Pause(o.runId, PAUSE_NOTE)])
      + (delivery + [Y.GiveBack(o.runId)])
    else delivery
  }

  /** The transactions of one pipeline run once its lease is granted: the loop's, then the delivery bookkeeping, or on
      a failure the failed stage, a pause unless it finished, and the lease handed back. */
  function PipelineActs(o: Options, run: Y.Run, model: nat -> Turn, delivers: bool): seq<Y.Action>
    requires !run.finished
  {
    var l := Run(StartLoop(o, run), o, model);
    [Y.Report(o.runId, S.Executing, false, false)] + l.trace.acts + PipelineTail(o, l, delivers)
  }

  /** Appending own transactions that change no context, or pause an unfinished one, or give back a finished one. */
  lemma {:induction false} TailLawful(start: Y.Run, acts: seq<Y.Action>, runId: string, run: Y.Run, tail: seq<Y.Action>)
    requires Lawful(start, acts, runId, run) && AllOwn(tail, runId)
    requires forall i :: 0 <= i < |tail| ==> tail[i].Report? || (tail[i].GiveBack? && run.finished)
    ensures Lawful(start, acts + tail, runId, run) && Endings(acts + tail) == Endings(acts)
    decreases |tail|
  {
    if tail == [] {
      assert acts + tail == acts;
    } else {
      var n := |tail| - 1;
      TailLawful(start, acts, runId, run, tail[..n]);
      LawfulStep(start, acts + tail[..n], runId, run, tail[n]);
      assert acts + tail == acts + tail[..n] + [tail[n]];
      assert (acts + tail)[..|acts + tail| - 1] == acts + tail[..n];
    }
  }

  lemma {:induction false} ReportFirst(start: Y.Run, acts: seq<Y.Action>, runId: string, run: Y.Run, stage: S.Stage)
    requires Lawful(start, acts, runId, run)
    ensures var report := Y.Report(runId, stage, false, false);
            Lawful(start, [report] + acts, runId, run) && Endings([report] + acts) == Endings(acts)
    decreases |acts|
  {
    var report := Y.Report(runId, stage, false, false);
    if acts == [] {
      assert [report] + acts == [report] && [report][..0] == [];
    } else {
      var n := |acts| - 1;
      var before := RunAfterAll(start, acts[..n]);
      ReportFirst(start, acts[..n], runId, before, stage);
      assert ([report] + acts)[..|[report] + acts| - 1] == [report] + acts[..n];
    }
  }

  /** The failure path of a run that had not finished. */
  lemma {:induction false} FailureLawful(start: Y.Run, acts: seq<Y.Action>, runId: string, run: Y.Run,
                                         delivery: seq<Y.Action>)
    requires Lawful(start, acts, runId, run) && !run.finished && Endings(acts) == 0
    requires AllOwn(delivery, runId) && forall i :: 0 <= i < |delivery| ==> delivery[i].Report?
    ensures var tail := [Y.Report(runId, S.RunFailed, true, true)] + [Y.Pause(runId, PAUSE_NOTE)]
                        + (delivery + [Y.GiveBack(runId)]);
            Lawful(start, acts + tail, runId, run.(finished := true)) && Endings(acts + tail) == 1
  {
    var failed, pause := Y.Report(runId, S.RunFailed, true, true), Y.Pause(runId, PAUSE_NOTE);
    var rest := delivery + [Y.GiveBack(runId)];
    AllOwnPush(delivery, Y.GiveBack(runId), runId);
    ReportThenPause(start, acts, runId, run, failed, pause, rest);
  }

  lemma {:induction false} AllOwnPush(acts: seq<Y.Action>, a: Y.Action, runId: string)
    requires AllOwn(acts, runId) && Own(a, runId)
    ensures AllOwn(acts + [a], runId)
  {
  }

  lemma {:induction false} ReportThenPause(start: Y.Run, acts: seq<Y.Action>, runId: string, run: Y.Run,
                                           failed: Y.Action, pause: Y.Action, rest: seq<Y.Action>)
    requires Lawful(start, acts, runId, run) && !run.finished && Endings(acts) == 0
    requires failed.Report? && Own(failed, runId) && pause.Pause? && Own(pause, runId)
    requires AllOwn(rest, runId) && forall i :: 0 <= i < |rest| ==> rest[i].Report? || rest[i].GiveBack?
    ensures var tail := [failed] + [pause] + rest;
            Lawful(start, acts + tail, runId, run.(finished := true)) && Endings(acts + tail) == 1
  {
    TailLawful(start, acts, runId, run, [failed]);
    PauseLawful(start, acts + [failed], runId, run, pause);
    TailLawful(start, acts + [failed] + [pause], runId, run.(finished := true), rest);
    ActsInOrder(acts, failed, pause, rest);
  }

  lemma {:induction false} ActsInOrder(acts: seq<Y.Action>, a: Y.Action, b: Y.Action, rest: seq<Y.Action>)
    ensures acts + ([a] + [b] + rest) == acts + [a] + [b] + rest
  {
  }

  lemma {:induction false} PauseLawful(start: Y.Run, acts: seq<Y.Action>, runId: string, run: Y.Run, pause: Y.Action)
    requires Lawful(start, acts, runId, run) && !run.finished && Endings(acts) == 0
    requires pause.Pause? && Own(pause, runId)
    ensures Lawful(start, acts + [pause], runId, run.(finished := true)) && Endings(acts + [pause]) == 1
  {
    LawfulStep(start, acts, runId, run, pause);
    CountsJoin(acts, [pause]);
    CountsOfOne(pause);
  }

  lemma {:induction false} TailFinishesOnce(start: Y.Run, begun: seq<Y.Action>, o: Options, l: Loop, delivers: bool)
    requires Lawful(start, begun, o.runId, l.run) && Endings(begun) == (if l.run.finished then 1 else 0)
    requires l.status.Returned? ==> l.run.finished
    requires !l.status.Going?
    ensures var tail := PipelineTail(o, l, delivers);
            Lawful(start, begun + tail, o.runId, l.run.(finished := true)) && Endings(begun + tail) == 1
  {
    if l.status.Failed? && !l.run.finished {
      FailureLawful(start, begun, o.runId, l.run, DeliveryReports(o.runId, delivers && l.run.staged));
    } else {
      TailLawful(start, begun, o.runId, l.run, PipelineTail(o, l, delivers));
    }
  }

  /** Whatever the model and the delivery do, and even when the model call throws, a pipeline run is a chain of
      possible transactions with exactly one finish. */
  lemma {:induction false} PipelineFinishesOnce(o: Options, run: Y.Run, model: nat -> Turn, delivers: bool)
    requires !run.finished && !run.staged
    ensures var acts := PipelineActs(o, run, model, delivers);
            Chain(run, acts) && AllOwn(acts, o.runId) && Endings(acts) == 1 && RunAfterAll(run, acts).finished
  {
    var l := Run(StartLoop(o, run), o, model);
    RunLawful(run, StartLoop(o, run), o, model);
    DriftRunIsBounded(o, run, model);
    ReportFirst(run, l.trace.acts, o.runId, l.run, S.Executing);
    TailFinishesOnce(run, [Y.Report(o.runId, S.Executing, false, false)] + l.trace.acts, o, l, delivers);
  }

  // ---------------------------------------------------------------------
  // Interleaved with other processes
  // ---------------------------------------------------------------------

  /** The transactions of one run among those of the whole system. */
  function OwnActs(actions: seq<Y.Action>, runId: string): seq<Y.Action> {
    if actions == [] then []
    else OwnActs(actions[..|actions| - 1], runId)
         + if Own(actions[|actions| - 1], runId) then [actions[|actions| - 1]] else []
  }

  /** The run's process does not crash, and its id is used once. */
  ghost predicate Uninterrupted(actions: seq<Y.Action>, runId: string) {
    forall i :: 0 <= i < |actions| ==> actions[i] != Y.Crash(runId) && !(actions[i].Start? && actions[i].runId == runId)
  }

  lemma {:induction false} OwnStep(s: Y.System, a: Y.Action, runId: string)
    requires runId in s.live && Own(a, runId) && Possible(s.live[runId], a)
    ensures Y.Enabled(s, a) && runId in Y.Next(s, a).live && Y.Next(s, a).live[runId] == RunAfter(s.live[runId], a)
  {
  }

  lemma {:induction false} RecoveringKeepsContexts(s: Y.System, rows: seq<string>, now: int)
    requires forall x :: x in rows ==> x in s.tables.active
    requires forall i, j :: 0 <= i < j < |rows| ==> rows[i] != rows[j]
    ensures Y.Recovering(s, rows, now).live == s.live
    decreases |rows|
  {
    if rows != [] {
      assert rows == rows[..|rows| - 1] + [rows[|rows| - 1]];
      RecoveringKeepsContexts(s, rows[..|rows| - 1], now);
    }
  }

  lemma {:induction false} OtherStep(s: Y.System, a: Y.Action, runId: string)
    requires runId in s.live && !Own(a, runId) && a != Y.Crash(runId) && !(a.Start? && a.runId == runId)
    ensures runId in Y.Next(s, a).live && Y.Next(s, a).live[runId] == s.live[runId]
  {
    if Y.Enabled(s, a) && a.Recover? {
      RecoveringKeepsContexts(s, a.rows, a.now);
    }
  }

  lemma {:induction false} OwnActsStep(run: Y.Run, actions: seq<Y.Action>, runId: string)
    requires actions != [] && Chain(run, OwnActs(actions, runId))
    ensures var own := OwnActs(actions[..|actions| - 1], runId);
            var a := actions[|actions| - 1];
            && Chain(run, own)
            && RunAfterAll(run, OwnActs(actions, runId))
               == (if Own(a, runId) then RunAfter(RunAfterAll(run, own), a) else RunAfterAll(run, own))
            && (Own(a, runId) ==> Possible(RunAfterAll(run, own), a))
  {
    var own := OwnActs(actions[..|actions| - 1], runId);
    var a := actions[|actions| - 1];
    assert (own + [a])[..|own + [a]| - 1] == own;
    assert own + [] == own;
  }

  /** The run's context is the one its own transactions lead to. */
  lemma {:induction false} ContextFollows(s: Y.System, actions: seq<Y.Action>, runId: string)
    requires runId in s.live && Uninterrupted(actions, runId) && Chain(s.live[runId], OwnActs(actions, runId))
    ensures var after := Y.After(s, actions);
            runId in after.live && after.live[runId] == RunAfterAll(s.live[runId], OwnActs(actions, runId))
    decreases |actions|
  {
    if actions != [] {
      var n := |actions| - 1;
      OwnActsStep(s.live[runId], actions, runId);
      ContextFollows(s, actions[..n], runId);
      var before := Y.After(s, actions[..n]);
      if Own(actions[n], runId) {
        OwnStep(before, actions[n], runId);
      } else {
        OtherStep(before, actions[n], runId);
      }
    }
  }

  /** Whatever other processes do in between, every transaction of a pipeline run is enabled when its turn comes: the
      guards of the shared system are discharged by the loop's phases, not assumed. */
  lemma {:induction false} InterleavedRunIsEnabled(s: Y.System, actions: seq<Y.Action>, runId: string, i: nat,
                                                   reached: Y.System)
    requires runId in s.live && Uninterrupted(actions, runId) && Chain(s.live[runId], OwnActs(actions, runId))
    requires i < |actions| && Own(actions[i], runId) && reached == Y.After(s, actions[..i])
    ensures Y.Enabled(reached, actions[i])
  {
    NextIsPossible(s.live[runId], actions, runId, i);
    ContextFollows(s, actions[..i], runId);
    OwnStep(reached, actions[i], runId);
  }

  lemma {:induction false} NextIsPossible(run: Y.Run, actions: seq<Y.Action>, runId: string, i: nat)
    requires Chain(run, OwnActs(actions, runId)) && i < |actions| && Own(actions[i], runId)
    ensures var own := OwnActs(actions[..i], runId); Chain(run, own) && Possible(RunAfterAll(run, own), actions[i])
  {
    ChainOfPrefix(run, actions, runId, i + 1);
    assert actions[..i + 1][..i] == actions[..i];
    OwnActsStep(run, actions[..i + 1], runId);
  }

  lemma {:induction false} ChainOfPrefix(run: Y.Run, actions: seq<Y.Action>, runId: string, k: nat)
    requires k <= |actions| && Chain(run, OwnActs(actions, runId))
    ensures Chain(run, OwnActs(actions[..k], runId))
    decreases |actions|
  {
    if k == |actions| {
      assert actions[..k] == actions;
    } else {
      var n := |actions| - 1;
      OwnActsStep(run, actions, runId);
      ChainOfPrefix(run, actions[..n], runId, k);
      assert actions[..n][..k] == actions[..k];
    }
  }

  lemma {:induction false} AfterJoin(s: Y.System, a: seq<Y.Action>, b: seq<Y.Action>)
    ensures Y.After(s, a + b) == Y.After(Y.After(s, a), b)
    decreases |b|
  {
    if b == [] {
      assert a + b == a;
    } else {
      var heads, last := b[..|b| - 1], b[|b| - 1];
      assert b == heads + [last] && a + b == a + heads + [last];
      AfterJoin(s, a, heads);
      Y.AfterStep(s, heads, last);
      Y.AfterStep(s, a + heads, last);
      Y.AfterStep(Y.After(s, a), heads, last);
    }
  }

  /** A pipeline run whose lease was granted and that runs to its end among any other processes is recorded as finished
      exactly once, as long as history is not pruned meanwhile. */
  lemma {:induction false} PipelineIsRecordedExactlyOnce(before: seq<Y.Action>, rest: seq<Y.Action>, o: Options,
                                                         model: nat -> Turn, delivers: bool)
    requires o.runId in Y.After(Y.INITIAL, before).live
    requires var run := Y.After(Y.INITIAL, before).live[o.runId];
             && !run.finished && !run.staged && OwnActs(rest, o.runId) == PipelineActs(o, run, model, delivers)
    requires Uninterrupted(rest, o.runId) && Y.NoPrune(before + rest)
    ensures var s := Y.After(Y.INITIAL, before + rest); s.finishes[o.runId] == 1 && S.HasRun(s.tables, o.runId)
  {
    var granted := Y.After(Y.INITIAL, before);
    PipelineFinishesOnce(o, granted.live[o.runId], model, delivers);
    ContextFollows(granted, rest, o.runId);
    AfterJoin(Y.INITIAL, before, rest);
    Y.EndedRunIsRecordedExactlyOnce(before + rest, o.runId);
  }
}
