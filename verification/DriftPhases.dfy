/** What the phases of a drift run mean, read off the transactions the run has made
    (packages/drift/src/loop-adapter.ts). */
module DriftPhases {
  import opened Messages
  import S = DriftStore
  import Y = DriftSystem
  import opened DriftLoop

  // ---------------------------------------------------------------------
  // The transactions tell the context
  // ---------------------------------------------------------------------

  /** A message has been staged. */
  predicate Pushed(acts: seq<Y.Action>) {
    exists i :: 0 <= i < |acts| && acts[i].Push?
  }

  /** A skill has been selected, resting included. */
  predicate Chosen(run: Y.Run, acts: seq<Y.Action>) {
    run.selected != "" || exists i :: 0 <= i < |acts| && (acts[i].Select? || acts[i].Idle? || acts[i].BeginFinish?)
  }

  lemma {:induction false} PushedSnoc(acts: seq<Y.Action>, a: Y.Action)
    ensures Pushed(acts + [a]) <==> Pushed(acts) || a.Push?
  {
    var more := acts + [a];
    assert more[|acts|] == a;
    assert forall i :: 0 <= i < |acts| ==> more[i] == acts[i];
  }

  lemma {:induction false} ChosenSnoc(run: Y.Run, acts: seq<Y.Action>, a: Y.Action)
    ensures Chosen(run, acts + [a]) <==> Chosen(run, acts) || a.Select? || a.Idle? || a.BeginFinish?
  {
    var more := acts + [a];
    assert more[|acts|] == a;
    assert forall i :: 0 <= i < |acts| ==> more[i] == acts[i];
  }

  lemma {:induction false} ActsTellContext(start: Y.Run, acts: seq<Y.Action>)
    requires Chain(start, acts) && !start.staged
    ensures RunAfterAll(start, acts).staged <==> Pushed(acts)
    ensures RunAfterAll(start, acts).selected != "" <==> Chosen(start, acts)
  {
    if acts != [] {
      var n := |acts| - 1;
      ActsTellContext(start, acts[..n]);
      assert acts == acts[..n] + [acts[n]];
      PushedSnoc(acts[..n], acts[n]);
      ChosenSnoc(start, acts[..n], acts[n]);
    }
  }

  /** What a run knows of itself is what its transactions say. */
  ghost predicate Told(start: Y.Run, o: Options, l: Loop) {
    && Lawful(start, l.trace.acts, o.runId, l.run)
    && (l.run.staged <==> Pushed(l.trace.acts)) && (l.run.selected != "" <==> Chosen(start, l.trace.acts))
  }

  lemma {:induction false} LawfulTold(start: Y.Run, o: Options, l: Loop)
    requires !start.staged && Lawful(start, l.trace.acts, o.runId, l.run)
    ensures Told(start, o, l)
  {
    ActsTellContext(start, l.trace.acts);
  }

  /** What holds of a loop that a run reaches. */
  ghost predicate Fit(start: Y.Run, o: Options, l: Loop) {
    && BetweenTurns(l, o) && OfferFollowsPhase(l) && OnlyFinishOffered(l) && Told(start, o, l)
    && (l.run.staged ==> l.run.selected != "")
  }

  /** A turn later, or the same loop when it is over. */
  ghost predicate Follows(l: Loop, o: Options, turn: Turn, next: Loop) {
    next == if l.status.Going? then TurnStep(l, o, turn) else l
  }

  lemma {:induction false} ToldNext(start: Y.Run, o: Options, l: Loop, turn: Turn, next: Loop)
    requires !start.staged && Told(start, o, l) && BetweenTurns(l, o)
    requires Follows(l, o, turn, next)
    ensures Told(start, o, next)
  {
    if l.status.Going? {
      TurnLawful(start, l, o, turn);
      LawfulTold(start, o, next);
    }
  }

  lemma {:induction false} OneTurnLater(l: Loop, o: Options, model: nat -> Turn, k: nat, before: Loop, next: Loop)
    requires k > 0 && before == AfterTurns(l, o, model, k - 1) && next == AfterTurns(l, o, model, k)
    ensures Follows(before, o, model(before.c.calls), next)
  {
  }

  lemma {:induction false} StartFit(o: Options, run: Y.Run)
    requires !run.finished && !run.staged
    ensures Fit(run, o, StartLoop(o, run))
  {
    LawfulTold(run, o, StartLoop(o, run));
  }

  lemma {:induction false} FitNext(start: Y.Run, o: Options, l: Loop, turn: Turn, next: Loop)
    requires !start.staged && Fit(start, o, l) && Follows(l, o, turn, next)
    ensures Fit(start, o, next)
  {
    ToldNext(start, o, l, turn, next);
    if l.status.Going? {
      TurnTowardsTheEnd(l, o, turn);
      TurnOfferFollowsPhase(l, o, turn);
      TurnKeepsChoice(l, o, turn);
    }
  }

  lemma {:induction false} ReachedFit(o: Options, run: Y.Run, model: nat -> Turn, k: nat, l: Loop)
    requires !run.finished && !run.staged && l == AfterTurns(StartLoop(o, run), o, model, k)
    ensures Fit(run, o, l)
    decreases k
  {
    if k > 0 {
      var before := AfterTurns(StartLoop(o, run), o, model, k - 1);
      ReachedFit(o, run, model, k - 1, before);
      OneTurnLater(StartLoop(o, run), o, model, k, before, l);
      FitNext(run, o, before, model(before.c.calls), l);
    } else {
      StartFit(o, run);
    }
  }

  lemma {:induction false} TurnKeepsChoice(l: Loop, o: Options, turn: Turn)
    requires l.status.Going? && BetweenTurns(l, o) && (l.run.staged ==> l.run.selected != "")
    ensures var next := TurnStep(l, o, turn); next.run.staged ==> next.run.selected != ""
  {
    match turn.reply {
      case Calls(tool, denied, work) =>
        var checked := BeforeCall(l, o, turn.late);
        var outcome := OutcomeOf(checked, o, tool, denied, work);
        if outcome.Ran? && |outcome.performed| == 1 {
          OneAct(l.run, outcome.performed[0]);
          assert outcome.performed == [outcome.performed[0]];
        } else if outcome.Ran? && |outcome.performed| == 2 {
          TwoActs(l.run, outcome.performed[0], outcome.performed[1]);
          assert outcome.performed == [outcome.performed[0], outcome.performed[1]];
        }
      case _ =>
    }
  }

  // ---------------------------------------------------------------------
  // Which tools run
  // ---------------------------------------------------------------------

  /** The finish runs when it is forced (and was offered for that), the choice or the rest before a selection, any tool
      once a skill was selected, and the finish alone once a message is staged besides. */
  predicate MayRun(o: Options, l: Loop, forced: bool, chosen: bool, pushed: bool, tool: Tool) {
    && tool in o.registry
    && if forced then tool == FinishDrift && (l.c.forcing || l.c.calls == 0 || chosen)
       else if !chosen then tool in {SelectSkill, IdleDrift}
       else pushed ==> tool == FinishDrift
  }

  lemma {:induction false} CallRunsExactly(l: Loop, o: Options, turn: Turn, next: Loop)
    requires l.status.Going? && BetweenTurns(l, o) && OfferFollowsPhase(l) && OnlyFinishOffered(l)
    requires turn.reply.Calls? && next == TurnStep(l, o, turn)
    ensures var tool, forced := turn.reply.tool, next.c.forcing;
            var runs := !turn.reply.denied && MayRun(o, l, forced, l.run.selected != "", l.run.staged, tool);
            next.trace.executed == l.trace.executed + if runs then [Executed(tool, forced, |l.trace.acts|)] else []
  {
  }

  /** A tool that ran was allowed to, given the transactions made before it: once a message is staged or the finish is
      forced nothing but the finish runs, and before a selection nothing but the choice or the rest. */
  predicate Timely(start: Y.Run, acts: seq<Y.Action>, x: Executed) {
    && x.before <= |acts|
    && (x.forced || Pushed(acts[..x.before]) ==> x.tool == FinishDrift)
    && (!x.forced && !Chosen(start, acts[..x.before]) ==> x.tool in {SelectSkill, IdleDrift})
  }

  ghost predicate PhaseSafe(start: Y.Run, l: Loop) {
    forall i :: 0 <= i < |l.trace.executed| ==> Timely(start, l.trace.acts, l.trace.executed[i])
  }

  lemma {:induction false} TimelyStays(start: Y.Run, acts: seq<Y.Action>, more: seq<Y.Action>, x: Executed)
    requires Timely(start, acts, x) && acts <= more
    ensures Timely(start, more, x)
  {
    assert more[..x.before] == acts[..x.before];
  }

  lemma {:induction false} TurnGrows(l: Loop, o: Options, turn: Turn, next: Loop)
    requires next == TurnStep(l, o, turn)
    ensures l.trace.acts <= next.trace.acts
    ensures !turn.reply.Calls? ==> next.trace.executed == l.trace.executed
  {
  }

  lemma {:induction false} TurnSafe(start: Y.Run, l: Loop, o: Options, turn: Turn, next: Loop)
    requires Told(start, o, l) && PhaseSafe(start, l) && next == TurnStep(l, o, turn)
    requires l.status.Going? && BetweenTurns(l, o) && OfferFollowsPhase(l) && OnlyFinishOffered(l)
    requires l.run.staged ==> l.run.selected != ""
    ensures PhaseSafe(start, next)
  {
    var acts := l.trace.acts;
    TurnGrows(l, o, turn, next);
    if turn.reply.Calls? {
      CallRunsExactly(l, o, turn, next);
    }
    forall i | 0 <= i < |next.trace.executed| ensures Timely(start, next.trace.acts, next.trace.executed[i]) {
      if i < |l.trace.executed| {
        TimelyStays(start, acts, next.trace.acts, l.trace.executed[i]);
      } else {
        assert acts[..|acts|] == acts;
        assert Timely(start, acts, next.trace.executed[i]);
        TimelyStays(start, acts, next.trace.acts, next.trace.executed[i]);
      }
    }
  }

  lemma {:induction false} SafeNext(start: Y.Run, o: Options, l: Loop, turn: Turn, next: Loop)
    requires Fit(start, o, l) && PhaseSafe(start, l)
    requires Follows(l, o, turn, next)
    ensures PhaseSafe(start, next)
  {
    if l.status.Going? {
      TurnSafe(start, l, o, turn, next);
    }
  }

  lemma {:induction false} ReachedSafe(o: Options, run: Y.Run, model: nat -> Turn, k: nat, l: Loop)
    requires !run.finished && !run.staged && l == AfterTurns(StartLoop(o, run), o, model, k)
    ensures PhaseSafe(run, l)
    decreases k
  {
    if k > 0 {
      var before := AfterTurns(StartLoop(o, run), o, model, k - 1);
      ReachedSafe(o, run, model, k - 1, before);
      ReachedFit(o, run, model, k - 1, before);
      OneTurnLater(StartLoop(o, run), o, model, k, before, l);
      SafeNext(run, o, before, model(before.c.calls), l);
    }
  }

  /** The loop's result is one of the loops it reaches. */
  lemma {:induction false} ResultIsReached(o: Options, run: Y.Run, model: nat -> Turn, k: nat) returns (last: nat)
    requires !run.finished
    requires BetweenTurns(AfterTurns(StartLoop(o, run), o, model, k), o)
    ensures Run(AfterTurns(StartLoop(o, run), o, model, k), o, model) == AfterTurns(StartLoop(o, run), o, model, last)
    decreases CallsLeft(AfterTurns(StartLoop(o, run), o, model, k), o)
  {
    var l := AfterTurns(StartLoop(o, run), o, model, k);
    if l.status.Going? {
      TurnTowardsTheEnd(l, o, model(l.c.calls));
      assert AfterTurns(StartLoop(o, run), o, model, k + 1) == TurnStep(l, o, model(l.c.calls));
      last := ResultIsReached(o, run, model, k + 1);
    } else {
      last := k;
    }
  }

  /** Any model: at most maxSteps + 2 model calls, no tool but the finish once a message is staged or the finish is
      forced, none but the choice or the rest before a selection, at most one staged message, and when the loop returns
      exactly one finish was recorded. */
  lemma {:induction false} DriftRunIsBoundedAndSafe(o: Options, run: Y.Run, model: nat -> Turn)
    requires !run.finished && !run.staged
    ensures var l := Run(StartLoop(o, run), o, model);
            && !l.status.Going?
            && l.c.calls <= Budget(o) + 2
            && PhaseSafe(run, l)
            && Pushes(l.trace.acts) <= 1
            && Endings(l.trace.acts) == (if l.run.finished then 1 else 0)
            && (l.status.Returned? ==> l.run.finished)
  {
    DriftRunIsBounded(o, run, model);
    var last := ResultIsReached(o, run, model, 0);
    ReachedSafe(o, run, model, last, Run(StartLoop(o, run), o, model));
  }

  // ---------------------------------------------------------------------
  // One turn of any run, in full
  // ---------------------------------------------------------------------

  /** In any run a tool runs exactly when it is not denied and may run, judged by the transactions made before. */
  lemma {:induction false} ToolRunsExactly(o: Options, run: Y.Run, model: nat -> Turn, k: nat, l: Loop, turn: Turn)
    requires !run.finished && !run.staged && l == AfterTurns(StartLoop(o, run), o, model, k)
    requires l.status.Going? && turn.reply.Calls?
    ensures var next := TurnStep(l, o, turn);
            var tool, forced, acts := turn.reply.tool, next.c.forcing, l.trace.acts;
            var runs := !turn.reply.denied && MayRun(o, l, forced, Chosen(run, acts), Pushed(acts), tool);
            next.trace.executed == l.trace.executed + if runs then [Executed(tool, forced, |acts|)] else []
  {
    ReachedFit(o, run, model, k, l);
    CallRunsExactly(l, o, turn, TurnStep(l, o, turn));
  }

  lemma {:induction false} ForcedTurnExactly(l: Loop, o: Options, turn: Turn, next: Loop)
    requires l.status.Going? && BetweenTurns(l, o) && next == TurnStep(l, o, turn)
    requires l.run.staged ==> l.run.selected != ""
    ensures next.c.forcing <==>
              || l.c.forcing
              || (l.c.rejections < 2 && (l.c.steps >= o.maxSteps || turn.late))
              || (l.c.rejections >= 2 && l.run.staged)
    ensures !next.c.forcing && l.c.rejections >= 2 ==> !next.status.Going?
    ensures next.c.calls == l.c.calls + 1
  {
  }

  /** The finish is forced by a spent budget, or by two rejections once a message is staged; two rejections before that
      end the run with this turn. */
  lemma {:induction false} ForcedExactly(o: Options, run: Y.Run, model: nat -> Turn, k: nat, l: Loop, turn: Turn)
    requires !run.finished && !run.staged && l == AfterTurns(StartLoop(o, run), o, model, k) && l.status.Going?
    ensures var next := TurnStep(l, o, turn);
            && (next.c.forcing <==>
                  || l.c.forcing
                  || (l.c.rejections < 2 && (l.c.steps >= o.maxSteps || turn.late))
                  || (l.c.rejections >= 2 && Pushed(l.trace.acts)))
            && (!next.c.forcing && l.c.rejections >= 2 ==> !next.status.Going?)
            && next.c.calls == l.c.calls + 1
  {
    ReachedFit(o, run, model, k, l);
    ForcedTurnExactly(l, o, turn, TurnStep(l, o, turn));
  }

  /** The transactions of a tool that runs and goes through. */
  lemma {:induction false} Effect(o: Options, l: Loop, turn: Turn, next: Loop, performed: seq<Y.Action>)
    requires l.status.Going? && BetweenTurns(l, o) && turn.reply.Calls? && next == TurnStep(l, o, turn)
    requires performed == if |next.trace.executed| > |l.trace.executed|
                          then Performs(o.runId, l.run, turn.reply.tool, turn.reply.work) else []
    ensures var made := l.trace.acts + performed;
            next.trace.acts == made || next.trace.acts == made + [Y.Pause(o.runId, PAUSE_NOTE)]
    ensures RunAfterAll(l.run, performed).finished ==> next.trace.acts == l.trace.acts + performed
  {
  }

  /** What a turn records: a tool that runs and goes through makes its own transactions, each with the check of its
      tool, and any other turn none, but for the pause that may end the loop. */
  lemma {:induction false} ActsExactly(o: Options, run: Y.Run, model: nat -> Turn, k: nat, l: Loop, turn: Turn)
      returns (performed: seq<Y.Action>)
    requires !run.finished && !run.staged && l == AfterTurns(StartLoop(o, run), o, model, k) && l.status.Going?
    requires turn.reply.Calls?
    ensures var next := TurnStep(l, o, turn);
            var tool, work, acts := turn.reply.tool, turn.reply.work, l.trace.acts;
            var ran := |next.trace.executed| > |l.trace.executed| && work.Succeeds?;
            var fits := ran && work.skill != "" && l.run.selected in {"", work.skill};
            && (next.trace.acts == acts + performed
                || next.trace.acts == acts + performed + [Y.Pause(o.runId, PAUSE_NOTE)])
            && performed
               == (if tool == SelectSkill && fits then [Y.Select(o.runId, work.skill)]
                   else if tool == IdleDrift && ran && !Chosen(run, acts) then [Y.Idle(o.runId, work.note)]
                   else if tool == MessagePush && ran && !Pushed(acts) && work.hash != "" then
                     [Y.Push(o.runId, work.hash, work.draft)]
                   else if tool == FinishDrift && fits then
                     [Y.BeginFinish(o.runId, work.skill), Y.EndFinish(o.runId, work.skill, work.note)]
                   else [])
  {
    ReachedFit(o, run, model, k, l);
    var next := TurnStep(l, o, turn);
    performed := if |next.trace.executed| > |l.trace.executed|
                 then Performs(o.runId, l.run, turn.reply.tool, turn.reply.work) else [];
    Effect(o, l, turn, next, performed);
  }

  lemma {:induction false} ActsKeepNow(start: Y.Run, acts: seq<Y.Action>)
    ensures RunAfterAll(start, acts).now == start.now
  {
    if acts != [] {
      ActsKeepNow(start, acts[..|acts| - 1]);
    }
  }

  function Copies(row: S.StepRow, n: nat): (rows: seq<S.StepRow>) {
    seq(n, _ => row)
  }

  /** The call was denied although its tool might have run. */
  predicate Denied(o: Options, l: Loop, turn: Turn, next: Loop)
    requires turn.reply.Calls?
  {
    turn.reply.denied && MayRun(o, l, next.c.forcing, l.run.selected != "", l.run.staged, turn.reply.tool)
  }

  lemma {:induction false} CountedTurn(o: Options, l: Loop, turn: Turn, next: Loop)
    requires l.status.Going? && BetweenTurns(l, o) && OfferFollowsPhase(l) && OnlyFinishOffered(l)
    requires turn.reply.Calls? && next == TurnStep(l, o, turn)
    ensures var tool, forced, after := turn.reply.tool, next.c.forcing, next.run;
            var permitted := if forced then tool == FinishDrift
                             else if after.selected == "" then tool in {SelectSkill, IdleDrift}
                             else after.staged ==> tool == FinishDrift;
            && next.c.steps == l.c.steps + 1
            && next.c.rejections == l.c.rejections + (if Failing(l, turn, next) && !permitted then 1 else 0)
  {
    var checked := BeforeCall(l, o, turn.late);
    var called := CallTool(checked, o, turn.reply.tool, turn.reply.denied, turn.reply.work);
    CountedCall(checked, o, turn.reply.tool, turn.reply.denied, turn.reply.work, called);
    EndAudits(called, o, next);
    CallRunsExactly(l, o, turn, next);
    BlockedExactly(l, o, turn, checked);
  }

  lemma {:induction false} CountedCall(l: Loop, o: Options, tool: Tool, denied: bool, work: Work, called: Loop)
    requires l.status.Going? && called == CallTool(l, o, tool, denied, work) && !l.run.finished
    ensures called.c.steps == l.c.steps + 1
    ensures var permitted := if called.c.forcing then tool == FinishDrift
                             else if called.run.selected == "" then tool in {SelectSkill, IdleDrift}
                             else called.run.staged ==> tool == FinishDrift;
            var fails := || denied || work.Throws? || Blocked(o, l.offered, PhaseOf(l.run, l.c.forcing), tool);
            called.c.rejections == l.c.rejections + (if fails && !permitted then 1 else 0)
  {
  }

  /** The call did not run, or ran and threw. */
  predicate Failing(l: Loop, turn: Turn, next: Loop)
    requires turn.reply.Calls?
  {
    |next.trace.executed| <= |l.trace.executed| || turn.reply.work.Throws?
  }

  lemma {:induction false} AuditedTurn(o: Options, l: Loop, turn: Turn, next: Loop)
    requires l.status.Going? && BetweenTurns(l, o) && OfferFollowsPhase(l) && OnlyFinishOffered(l)
    requires turn.reply.Calls? && next == TurnStep(l, o, turn)
    ensures next.c.rejections == l.c.rejections || next.c.rejections == l.c.rejections + 1
    ensures var ran := |next.trace.executed| > |l.trace.executed|;
            next.trace.steps == l.trace.steps
               + Copies(S.StepRow(None, Some(o.runId), next.c.steps, "", next.run.now),
                        (if ran || Denied(o, l, turn, next) then 1 else 0) + (next.c.rejections - l.c.rejections))
  {
    var checked := BeforeCall(l, o, turn.late);
    var called := CallTool(checked, o, turn.reply.tool, turn.reply.denied, turn.reply.work);
    CallRunsExactly(l, o, turn, next);
    BlockedExactly(l, o, turn, checked);
    AuditedCall(checked, o, turn.reply.tool, turn.reply.denied, turn.reply.work, called);
    EndAudits(called, o, next);
  }

  lemma {:induction false} BlockedExactly(l: Loop, o: Options, turn: Turn, checked: Loop)
    requires l.status.Going? && BetweenTurns(l, o) && OfferFollowsPhase(l) && OnlyFinishOffered(l)
    requires turn.reply.Calls? && checked == BeforeCall(l, o, turn.late)
    ensures Blocked(o, checked.offered, PhaseOf(checked.run, checked.c.forcing), turn.reply.tool)
            <==> !MayRun(o, l, checked.c.forcing, l.run.selected != "", l.run.staged, turn.reply.tool)
  {
  }

  lemma {:induction false} AuditedCall(l: Loop, o: Options, tool: Tool, denied: bool, work: Work, called: Loop)
    requires called == CallTool(l, o, tool, denied, work)
    ensures l.c.rejections <= called.c.rejections <= l.c.rejections + 1
    ensures var passed := !Blocked(o, l.offered, PhaseOf(l.run, l.c.forcing), tool);
            called.trace.steps == l.trace.steps
               + Copies(S.StepRow(None, Some(o.runId), called.c.steps, "", called.run.now),
                        (if passed then 1 else 0) + (called.c.rejections - l.c.rejections))
  {
  }

  lemma {:induction false} EndAudits(called: Loop, o: Options, next: Loop)
    requires next == DriftLoop.EndTurn(called, o, true)
    ensures next.c.rejections == called.c.rejections && next.c.steps == called.c.steps
            && next.c.forcing == called.c.forcing && next.run.now == called.run.now
            && next.run.selected == called.run.selected && next.run.staged == called.run.staged
            && next.trace.steps == called.trace.steps && next.trace.executed == called.trace.executed
  {
  }

  /** A turn's call is one step, and a rejection exactly when it went wrong and, after it, its tool is not one the
      phase permits: only the finish once forced or staged, only the choice or the rest before a selection. */
  lemma {:induction false} CountedExactly(o: Options, run: Y.Run, model: nat -> Turn, k: nat, l: Loop, turn: Turn)
    requires !run.finished && !run.staged && l == AfterTurns(StartLoop(o, run), o, model, k) && l.status.Going?
    requires turn.reply.Calls?
    ensures var next := TurnStep(l, o, turn);
            var ran := |next.trace.executed| > |l.trace.executed|;
            var tool, forced, after := turn.reply.tool, next.c.forcing, next.trace.acts;
            var permitted := if forced then tool == FinishDrift
                             else if !Chosen(run, after) then tool in {SelectSkill, IdleDrift}
                             else Pushed(after) ==> tool == FinishDrift;
            var counted := (!ran || turn.reply.work.Throws?) && !permitted;
            var denied := turn.reply.denied
                          && MayRun(o, l, forced, Chosen(run, l.trace.acts), Pushed(l.trace.acts), tool);
            && next.c.steps == l.c.steps + 1
            && next.c.rejections == l.c.rejections + (if counted then 1 else 0)
            && next.trace.steps == l.trace.steps
               + Copies(S.StepRow(None, Some(o.runId), next.c.steps, "", run.now),
                        (if ran || denied then 1 else 0) + (if counted then 1 else 0))
  {
    var next := TurnStep(l, o, turn);
    ReachedFit(o, run, model, k, l);
    ToldNext(run, o, l, turn, next);
    ActsKeepNow(run, next.trace.acts);
    CountedTurn(o, l, turn, next);
    AuditedTurn(o, l, turn, next);
  }

  lemma {:induction false} EndsByItself(runId: string, run: Y.Run, tool: Tool, work: Work)
    requires !run.finished
    ensures RunAfterAll(run, Performs(runId, run, tool, work)).finished <==>
              && work.Succeeds?
              && ((tool == IdleDrift && run.selected == "")
                  || (tool == FinishDrift && work.skill != "" && run.selected in {"", work.skill}))
  {
    var performed := Performs(runId, run, tool, work);
    if |performed| == 1 {
      OneAct(run, performed[0]);
      assert performed == [performed[0]];
    } else if |performed| == 2 {
      TwoActs(run, performed[0], performed[1]);
      assert performed == [performed[0], performed[1]];
    }
  }

  lemma {:induction false} LastTurn(o: Options, l: Loop, turn: Turn, next: Loop)
    requires l.status.Going? && BetweenTurns(l, o) && OfferFollowsPhase(l) && OnlyFinishOffered(l)
    requires turn.reply.Calls? && next == TurnStep(l, o, turn)
    ensures var tool, work := turn.reply.tool, turn.reply.work;
            var may := MayRun(o, l, next.c.forcing, l.run.selected != "", l.run.staged, tool);
            next.status.Returned? <==>
              || l.c.forcing
              || (!next.c.forcing && l.c.rejections >= 2)
              || (may && turn.reply.denied)
              || (may && work.Throws? && !(next.c.forcing && tool == FinishDrift))
              || (may && RunAfterAll(l.run, Performs(o.runId, l.run, tool, work)).finished)
  {
  }

  /** The loop goes on after a turn unless the model failed or called nothing, or it was the second forced one, or two
      rejections could not be answered by forcing, or a tool that may run was denied, threw (but for a forced finish)
      or ended the run. */
  lemma {:induction false} ReturnsExactly(o: Options, run: Y.Run, model: nat -> Turn, k: nat, l: Loop, turn: Turn)
    requires !run.finished && !run.staged && l == AfterTurns(StartLoop(o, run), o, model, k) && l.status.Going?
    ensures var next := TurnStep(l, o, turn);
            && (next.status.Failed? <==> turn.reply.LlmFails?)
            && (turn.reply.NoCall? ==> next.status.Returned?)
            && (turn.reply.Calls? ==>
                  var tool, work, acts := turn.reply.tool, turn.reply.work, l.trace.acts;
                  var may := MayRun(o, l, next.c.forcing, Chosen(run, acts), Pushed(acts), tool);
                  (next.status.Returned? <==>
                     || l.c.forcing
                     || (!next.c.forcing && l.c.rejections >= 2)
                     || (may && turn.reply.denied)
                     || (may && work.Throws? && !(next.c.forcing && tool == FinishDrift))
                     || (may && work.Succeeds? && tool == IdleDrift && !Chosen(run, acts))
                     || (may && work.Succeeds? && tool == FinishDrift
                         && work.skill != "" && l.run.selected in {"", work.skill})))
  {
    ReachedFit(o, run, model, k, l);
    if turn.reply.Calls? {
      LastTurn(o, l, turn, TurnStep(l, o, turn));
      EndsByItself(o.runId, l.run, turn.reply.tool, turn.reply.work);
    }
  }

  // ---------------------------------------------------------------------
  // What a pipeline reports
  // ---------------------------------------------------------------------

  predicate IsNotice(a: Y.Action) {
    a.Report? || a.GiveBack?
  }

  /** The stages a run reports and the lease it hands back, in order. */
  function Notices(acts: seq<Y.Action>): seq<Y.Action> {
    if acts == [] then []
    else
      var n := |acts| - 1;
      Notices(acts[..n]) + if IsNotice(acts[n]) then [acts[n]] else []
  }

  lemma {:induction false} NoticesJoin(a: seq<Y.Action>, b: seq<Y.Action>)
    ensures Notices(a + b) == Notices(a) + Notices(b)
    decreases |b|
  {
    if b == [] {
      assert a + b == a;
    } else {
      assert (a + b)[..|a + b| - 1] == a + b[..|b| - 1];
      NoticesJoin(a, b[..|b| - 1]);
    }
  }

  lemma {:induction false} NoNotices(acts: seq<Y.Action>)
    requires forall i :: 0 <= i < |acts| ==> !IsNotice(acts[i])
    ensures Notices(acts) == []
  {
    if acts != [] {
      NoNotices(acts[..|acts| - 1]);
    }
  }

  lemma {:induction false} OnlyNotices(acts: seq<Y.Action>)
    requires forall i :: 0 <= i < |acts| ==> IsNotice(acts[i])
    ensures Notices(acts) == acts
  {
    if acts != [] {
      OnlyNotices(acts[..|acts| - 1]);
      assert acts == acts[..|acts| - 1] + [acts[|acts| - 1]];
    }
  }

  ghost predicate Unnoticed(acts: seq<Y.Action>) {
    forall i :: 0 <= i < |acts| ==> !IsNotice(acts[i])
  }

  lemma {:induction false} TurnUnnoticed(l: Loop, o: Options, turn: Turn)
    requires Unnoticed(l.trace.acts)
    ensures Unnoticed(TurnStep(l, o, turn).trace.acts)
  {
    var checked := BeforeCall(l, o, turn.late);
    match turn.reply {
      case LlmFails =>
      case NoCall => EndUnnoticed(checked, o, false);
      case Calls(tool, denied, work) =>
        CallUnnoticed(checked, o, tool, denied, work);
        EndUnnoticed(CallTool(checked, o, tool, denied, work), o, true);
    }
  }

  lemma {:induction false} CallUnnoticed(l: Loop, o: Options, tool: Tool, denied: bool, work: Work)
    requires Unnoticed(l.trace.acts)
    ensures Unnoticed(CallTool(l, o, tool, denied, work).trace.acts)
  {
    assert Unnoticed(Performs(o.runId, l.run, tool, work));
  }

  lemma {:induction false} EndUnnoticed(l: Loop, o: Options, called: bool)
    requires Unnoticed(l.trace.acts)
    ensures Unnoticed(DriftLoop.EndTurn(l, o, called).trace.acts)
  {
  }

  lemma {:induction false} RunUnnoticed(l: Loop, o: Options, model: nat -> Turn)
    requires BetweenTurns(l, o) && Unnoticed(l.trace.acts)
    ensures Unnoticed(Run(l, o, model).trace.acts)
    decreases CallsLeft(l, o)
  {
    if l.status.Going? {
      TurnTowardsTheEnd(l, o, model(l.c.calls));
      TurnUnnoticed(l, o, model(l.c.calls));
      RunUnnoticed(TurnStep(l, o, model(l.c.calls)), o, model);
    }
  }

  /** A pipeline run reports that it is executing, then a failure if the model failed, then the delivery when a message
      was staged and goes out; and it hands its lease back exactly after a failure. */
  lemma {:induction false} PipelineReports(o: Options, run: Y.Run, model: nat -> Turn, delivers: bool)
    requires !run.finished && !run.staged
    ensures var l := Run(StartLoop(o, run), o, model);
            Notices(PipelineActs(o, run, model, delivers))
            == [Y.Report(o.runId, S.Executing, false, false)]
               + ((if l.status.Failed? then [Y.Report(o.runId, S.RunFailed, true, true)] else [])
                  + ((if delivers && Pushed(l.trace.acts) then
                        [Y.Report(o.runId, S.DeliveryPending, false, true),
                         Y.Report(o.runId, S.DeliveryCommitted, false, false)]
                      else [])
                     + (if l.status.Failed? then [Y.GiveBack(o.runId)] else [])))
  {
    var l := Run(StartLoop(o, run), o, model);
    ResultTold(o, run, model, l);
    AllNotices(o, l, l.trace.acts, delivers);
  }

  lemma {:induction false} ResultTold(o: Options, run: Y.Run, model: nat -> Turn, l: Loop)
    requires !run.finished && !run.staged && l == Run(StartLoop(o, run), o, model)
    ensures Unnoticed(l.trace.acts) && (l.run.staged <==> Pushed(l.trace.acts))
  {
    var last := ResultIsReached(o, run, model, 0);
    ReachedFit(o, run, model, last, l);
    RunUnnoticed(StartLoop(o, run), o, model);
  }

  lemma {:induction false} AllNotices(o: Options, l: Loop, acts: seq<Y.Action>, delivers: bool)
    requires Unnoticed(acts) && (l.run.staged <==> Pushed(acts))
    ensures Notices([Y.Report(o.runId, S.Executing, false, false)] + acts + PipelineTail(o, l, delivers))
            == [Y.Report(o.runId, S.Executing, false, false)]
               + ((if l.status.Failed? then [Y.Report(o.runId, S.RunFailed, true, true)] else [])
                  + ((if delivers && Pushed(acts) then
                        [Y.Report(o.runId, S.DeliveryPending, false, true),
                         Y.Report(o.runId, S.DeliveryCommitted, false, false)]
                      else [])
                     + (if l.status.Failed? then [Y.GiveBack(o.runId)] else [])))
  {
    var first, tail := [Y.Report(o.runId, S.Executing, false, false)], PipelineTail(o, l, delivers);
    TailNotices(o, l, delivers, tail);
    AroundTheLoop(first, acts, tail);
  }

  lemma {:induction false} AroundTheLoop(first: seq<Y.Action>, acts: seq<Y.Action>, tail: seq<Y.Action>)
    requires Unnoticed(acts) && forall i :: 0 <= i < |first| ==> IsNotice(first[i])
    ensures Notices(first + acts + tail) == first + Notices(tail)
  {
    OnlyNotices(first);
    NoNotices(acts);
    NoticesJoin(first, acts);
    NoticesJoin(first + acts, tail);
  }

  lemma {:induction false} TailNotices(o: Options, l: Loop, delivers: bool, tail: seq<Y.Action>)
    requires tail == PipelineTail(o, l, delivers)
    ensures Notices(tail)
            == (if l.status.Failed? then [Y.Report(o.runId, S.RunFailed, true, true)] else [])
               + ((if delivers && l.run.staged then
                     [Y.Report(o.runId, S.DeliveryPending, false, true),
                      Y.Report(o.runId, S.DeliveryCommitted, false, false)]
                   else [])
                  + (if l.status.Failed? then [Y.GiveBack(o.runId)] else []))
  {
    var delivery := if delivers && l.run.staged then
                      [Y.Report(o.runId, S.DeliveryPending, false, true),
                       Y.Report(o.runId, S.DeliveryCommitted, false, false)]
                    else [];
    OnlyNotices(delivery);
    if l.status.Failed? {
      FailureNotices([Y.Report(o.runId, S.RunFailed, true, true)],
                     if l.run.finished then [] else [Y.Pause(o.runId, PAUSE_NOTE)], delivery + [Y.GiveBack(o.runId)]);
    }
  }

  lemma {:induction false} FailureNotices(failed: seq<Y.Action>, pause: seq<Y.Action>, rest: seq<Y.Action>)
    requires forall i :: 0 <= i < |failed| ==> IsNotice(failed[i])
    requires forall i :: 0 <= i < |pause| ==> !IsNotice(pause[i])
    requires forall i :: 0 <= i < |rest| ==> IsNotice(rest[i])
    ensures Notices(failed + pause + rest) == failed + rest
  {
    AroundTheLoop(failed, pause, rest);
    OnlyNotices(rest);
  }
}
