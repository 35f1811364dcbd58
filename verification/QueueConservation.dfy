/** No queued message is lost, repeated or reordered by the loop (packages/agent/src/agent.ts,
    packages/agent/src/agent-loop.ts). */
module QueueConservation {
  import opened Messages
  import opened QueryCompaction
  import opened ToolBatch
  import opened AgentLoop

  /** The new messages of one origin, in order. */
  function From(messages: seq<Message>, origins: seq<Origin>, origin: Origin): seq<Message>
    requires |messages| == |origins|
  {
    if messages == [] then []
    else
      var n := |messages| - 1;
      From(messages[..n], origins[..n], origin) + if origins[n] == origin then [messages[n]] else []
  }

  lemma {:induction false} FromAppend(messages: seq<Message>, origins: seq<Origin>, more: seq<Message>,
                                      source: Origin, origin: Origin)
    requires |messages| == |origins|
    ensures From(messages + more, origins + Tags(source, |more|), origin)
            == From(messages, origins, origin) + if source == origin then more else []
    decreases |more|
  {
    var all, tags := messages + more, origins + Tags(source, |more|);
    if more == [] {
      assert all == messages && tags == origins;
    } else {
      var n := |more| - 1;
      assert all[..|all| - 1] == messages + more[..n] && tags[..|all| - 1] == origins + Tags(source, n);
      FromAppend(messages, origins, more[..n], source, origin);
      assert more[..n] + [more[n]] == more;
    }
  }

  /** Messages of one origin that are on their way: polled, or thrown away by an aborting turn. */
  function Waiting(s: Loop, origin: Origin): seq<Message> {
    if s.pendingOrigin == origin then s.dropped + s.pending else []
  }

  /** Everything ever enqueued is what was injected, then what is waiting, then what is queued. */
  ghost predicate Conserved(s: Loop) {
    && |s.origins| == |s.newMessages|
    && s.steered == From(s.newMessages, s.origins, Steered) + Waiting(s, Steered) + s.steering.items
    && s.followedUp == From(s.newMessages, s.origins, FollowedUp) + Waiting(s, FollowedUp) + s.followUp.items
  }

  lemma {:induction false} ConservedArrive(s: Loop, actions: seq<Action>)
    requires Conserved(s)
    ensures Conserved(Arrive(s, actions))
  {
    ArriveKeeps(s, actions);
    ArrivedConserves(s, Arrive(s, actions), Steers(actions), FollowUps(actions));
  }

  lemma {:induction false} ArrivedConserves(s: Loop, a: Loop, steers: seq<Message>, followUps: seq<Message>)
    requires Conserved(s) && Arrived(s, a, steers, followUps)
    ensures Conserved(a)
  {
  }

  lemma {:induction false} ConservedPolls(s: Loop)
    requires Conserved(s) && s.pending == [] && s.dropped == []
    ensures Conserved(PollSteering(s)) && Conserved(PollFollowUp(s))
  {
    assert s.steering.items == Drained(s.steering) + AfterDrain(s.steering).items;
    assert s.followUp.items == Drained(s.followUp) + AfterDrain(s.followUp).items;
  }

  lemma {:induction false} ConservedGenerated(s: Loop, messages: seq<Message>, next: Loop)
    requires Conserved(s)
    requires next.newMessages == s.newMessages + messages
    requires next.origins == s.origins + Tags(Generated, |messages|)
    requires next.steered == s.steered && next.followedUp == s.followedUp
    requires next.steering == s.steering && next.followUp == s.followUp
    requires Waiting(next, Steered) == Waiting(s, Steered) && Waiting(next, FollowedUp) == Waiting(s, FollowedUp)
    ensures Conserved(next)
  {
    FromAppend(s.newMessages, s.origins, messages, Generated, Steered);
    FromAppend(s.newMessages, s.origins, messages, Generated, FollowedUp);
  }

  lemma {:induction false} ConservedInject(s: Loop, injected: Loop)
    requires Conserved(s) && s.dropped == [] && injected == Inject(s)
    ensures Conserved(injected) && injected.pending == [] && injected.dropped == [] && injected.last == s.last
  {
    AccountInject(s, Steered, s.steering.items, s.steered);
    AccountInject(s, FollowedUp, s.followUp.items, s.followedUp);
  }

  lemma {:induction false} AccountInject(s: Loop, origin: Origin, queue: seq<Message>, account: seq<Message>)
    requires |s.origins| == |s.newMessages| && s.dropped == []
    requires account == From(s.newMessages, s.origins, origin) + Waiting(s, origin) + queue
    ensures account
            == From(s.newMessages + s.pending, s.origins + Tags(s.pendingOrigin, |s.pending|), origin) + [] + queue
  {
    FromAppend(s.newMessages, s.origins, s.pending, s.pendingOrigin, origin);
    assert [] + s.pending == s.pending;
  }

  lemma {:induction false} ConservedEndAborted(s: Loop, reason: string, next: Loop)
    requires Conserved(s) && next == EndAborted(s, reason)
    ensures Conserved(next) && next.dropped == s.dropped + s.pending
  {
    ConservedGenerated(s, [AbortNote(reason)], next);
  }

  lemma {:induction false} ConservedTools(config: Config, s: Loop, turn: Turn)
    requires ValidConfig(config) && ValidTurn(turn) && s.last >= -1 && Conserved(s)
    ensures Conserved(RunTools(config, s, turn))
  {
    if turn.reply.final.calls != [] {
      var batch := RunBatch(turn);
      var acted := Emit(Append(s, batch.messages, Generated), batch.events);
      ConservedGenerated(s, batch.messages, acted);
      var plan := PlanOf(config, acted, turn);
      if plan.Some? {
        assert [Generated] == Tags(Generated, 1);
        ConservedGenerated(acted, [BuildMarker(plan.value)], Compact(config, acted, turn));
      }
    }
  }

  lemma {:induction false} ArriveAndPoll(s: Loop, actions: seq<Action>, arrived: Loop)
    requires Conserved(s) && s.pending == [] && s.dropped == [] && arrived == Arrive(s, actions)
    ensures Conserved(PollSteering(arrived)) && PollSteering(arrived).dropped == []
    ensures Conserved(PollFollowUp(arrived)) && PollFollowUp(arrived).dropped == []
  {
    ConservedArrive(s, actions);
    ArriveKeeps(s, actions);
    ConservedPolls(arrived);
  }

  lemma {:induction false} ConservedEnd(s: Loop)
    requires Conserved(s)
    ensures Conserved(EndRun(s)) && EndRun(s).dropped == s.dropped
  {
  }

  lemma {:induction false} ConservedNext(s: Loop, turn: Turn)
    requires ValidTurn(turn) && Conserved(s) && s.pending == [] && s.dropped == []
    ensures Conserved(NextPending(s, turn)) && NextPending(s, turn).dropped == []
  {
    if turn.stopAfter {
      ConservedEnd(s);
    } else {
      var polled := PollSteering(Arrive(s, turn.arrivals));
      ArriveAndPoll(s, turn.arrivals, Arrive(s, turn.arrivals));
      if !HasMore(turn) && polled.pending == [] {
        ArriveAndPoll(polled, turn.lateArrivals, Arrive(polled, turn.lateArrivals));
        ConservedEnd(PollFollowUp(Arrive(polled, turn.lateArrivals)));
      }
    }
  }

  lemma {:induction false} ConservedRespond(config: Config, s: Loop, turn: Turn)
    requires ValidConfig(config) && ValidTurn(turn) && s.last >= -1
    requires Conserved(s) && s.pending == [] && s.dropped == []
    ensures Conserved(RespondAndAct(config, s, turn)) && RespondAndAct(config, s, turn).dropped == []
  {
    var replied := StreamReply(s, turn.reply);
    ConservedGenerated(s, [turn.reply.final], replied);
    if !Failed(turn.reply.final) {
      ConservedTools(config, replied, turn);
      ConservedNext(CloseTurn(RunTools(config, replied, turn), turn), turn);
    }
  }

  /** One turn conserves both queues, and drops messages only when a later turn is aborted before it begins. */
  lemma {:induction false} ConservedTurn(config: Config, s: Loop, turn: Turn)
    requires ValidConfig(config) && ValidTurn(turn) && s.last >= -1
    requires Conserved(s) && s.dropped == []
    ensures Conserved(TurnStep(config, s, turn))
    ensures TurnStep(config, s, turn).dropped
            == if !s.firstTurn && turn.beforeTurnAbort.Some? then s.pending else []
  {
    var begun, next := BeginTurn(s), TurnStep(config, s, turn);
    ConservedBegin(s, begun);
    if !s.firstTurn && turn.beforeTurnAbort.Some? {
      ConservedEndAborted(begun, turn.beforeTurnAbort.value, next);
    } else {
      ConservedInject(begun, Inject(begun));
      if turn.beforeReasoningAbort.Some? {
        ConservedEndAborted(Inject(begun), turn.beforeReasoningAbort.value, next);
      } else {
        ConservedRespond(config, Inject(begun), turn);
      }
    }
  }

  lemma {:induction false} ConservedBegin(s: Loop, begun: Loop)
    requires Conserved(s) && begun == BeginTurn(s)
    ensures Conserved(begun) && begun.pending == s.pending && begun.dropped == s.dropped && begun.last == s.last
  {
  }

  lemma {:induction false} FromOne(messages: seq<Message>, source: Origin, origin: Origin)
    ensures From(messages, Tags(source, |messages|), origin) == if source == origin then messages else []
  {
    if messages != [] {
      var n := |messages| - 1;
      assert Tags(source, |messages|)[..n] == Tags(source, n);
      FromOne(messages[..n], source, origin);
    }
  }

  lemma {:induction false} ConservedOpened(entry: Entry)
    ensures Conserved(Opened(entry))
  {
    var initial := Opened(entry);
    OpenedConserves(entry, initial);
  }

  lemma {:induction false} OpenedConserves(entry: Entry, initial: Loop)
    requires initial == Opened(entry)
    ensures Conserved(initial)
  {
    FromOne(entry.prompts, entry.promptOrigin, Steered);
    FromOne(entry.prompts, entry.promptOrigin, FollowedUp);
    assert Waiting(initial, Steered) == [] && Waiting(initial, FollowedUp) == [];
    EmptyMiddle(if entry.promptOrigin.Steered? then entry.prompts else [], entry.steering.items);
    EmptyMiddle(if entry.promptOrigin.FollowedUp? then entry.prompts else [], entry.followUp.items);
  }

  lemma {:induction false} EmptyMiddle(a: seq<Message>, b: seq<Message>)
    ensures a + [] + b == a + b
  {
  }

  lemma {:induction false} ConservedStart(entry: Entry)
    ensures Conserved(Start(entry)) && Start(entry).dropped == []
  {
    var initial := Opened(entry);
    ConservedOpened(entry);
    if entry.beforeTurnAbort.Some? {
      ConservedEndAborted(initial, entry.beforeTurnAbort.value, Start(entry));
    } else {
      var replayed := initial.(context := Replay(initial.context));
      ConservedArrive(replayed, entry.arrivals);
      ArriveKeeps(replayed, entry.arrivals);
      ConservedPolls(Arrive(replayed, entry.arrivals));
    }
  }

  predicate NoTurnAborts(environment: seq<Turn>) {
    forall k :: 0 <= k < |environment| ==> environment[k].beforeTurnAbort.None?
  }

  /** Every run, whatever arrives when and in whatever mode, injects each queue in the order it was filled,
      each message once, and loses nothing unless a before_turn phase aborts a later turn. */
  lemma {:induction false} RunConserves(config: Config, s: Loop, environment: seq<Turn>)
    requires ValidConfig(config) && ValidEnvironment(environment) && s.last >= -1
    requires Conserved(s) && s.dropped == []
    ensures Conserved(Run(config, s, environment))
    ensures NoTurnAborts(environment) ==> Run(config, s, environment).dropped == []
    ensures Run(config, s, environment).dropped != [] ==> Run(config, s, environment).ended
    decreases |environment|
  {
    if !s.ended && environment != [] {
      var next := TurnStep(config, s, environment[0]);
      ConservedTurn(config, s, environment[0]);
      TurnKeepsLast(config, s, environment[0]);
      DropsEnd(config, s, environment[0], next);
      AbortFree(environment);
      if next.dropped == [] {
        RunConserves(config, next, environment[1..]);
      }
    }
  }

  lemma {:induction false} AbortFree(environment: seq<Turn>)
    requires environment != []
    ensures NoTurnAborts(environment) ==> environment[0].beforeTurnAbort.None? && NoTurnAborts(environment[1..])
  {
  }

  lemma {:induction false} DropsEnd(config: Config, s: Loop, turn: Turn, next: Loop)
    requires ValidConfig(config) && ValidTurn(turn) && s.last >= -1 && Conserved(s) && s.dropped == []
    requires next == TurnStep(config, s, turn)
    ensures next.dropped != [] ==> next.ended && turn.beforeTurnAbort.Some?
  {
    ConservedTurn(config, s, turn);
  }

  // ---------------------------------------------------------------------
  // Whole runs
  // ---------------------------------------------------------------------

  /** The accounts of what was enqueued only grow. */
  ghost predicate Grows(s: Loop, next: Loop) {
    s.steered <= next.steered && s.followedUp <= next.followedUp
  }

  lemma {:induction false} GrowsTwice(s: Loop, mid: Loop, next: Loop)
    requires Grows(s, mid) && Grows(mid, next)
    ensures Grows(s, next)
  {
  }

  lemma {:induction false} ArriveGrows(s: Loop, actions: seq<Action>)
    ensures Grows(s, Arrive(s, actions)) && Grows(s, PollSteering(Arrive(s, actions)))
    ensures Grows(s, PollFollowUp(Arrive(s, actions)))
  {
    ArriveKeeps(s, actions);
  }

  lemma {:induction false} NextGrows(s: Loop, turn: Turn)
    requires ValidTurn(turn)
    ensures Grows(s, NextPending(s, turn))
  {
    if !turn.stopAfter {
      var polled := PollSteering(Arrive(s, turn.arrivals));
      ArriveGrows(s, turn.arrivals);
      ArriveGrows(polled, turn.lateArrivals);
      GrowsTwice(s, polled, PollFollowUp(Arrive(polled, turn.lateArrivals)));
    }
  }

  lemma {:induction false} InjectGrows(s: Loop, begun: Loop, injected: Loop)
    requires begun == BeginTurn(s) && injected == Inject(begun)
    ensures Grows(s, begun) && Grows(s, injected) && injected.last == s.last
  {
  }

  lemma {:induction false} AbortGrows(s: Loop, reason: string)
    ensures Grows(s, EndAborted(s, reason))
  {
  }

  lemma {:induction false} TurnGrows(config: Config, s: Loop, turn: Turn)
    requires ValidConfig(config) && ValidTurn(turn) && s.last >= -1
    ensures Grows(s, TurnStep(config, s, turn))
  {
    var begun := BeginTurn(s);
    InjectGrows(s, begun, Inject(begun));
    if !s.firstTurn && turn.beforeTurnAbort.Some? {
      AbortGrows(begun, turn.beforeTurnAbort.value);
    } else if turn.beforeReasoningAbort.Some? {
      AbortGrows(Inject(begun), turn.beforeReasoningAbort.value);
    } else {
      RespondGrows(config, Inject(begun), turn);
    }
    GrowsVia(s, begun, Inject(begun), TurnStep(config, s, turn));
  }

  lemma {:induction false} GrowsVia(s: Loop, begun: Loop, injected: Loop, next: Loop)
    requires Grows(s, begun) && Grows(s, injected) && (Grows(begun, next) || Grows(injected, next))
    ensures Grows(s, next)
  {
  }

  lemma {:induction false} RespondGrows(config: Config, s: Loop, turn: Turn)
    requires ValidConfig(config) && ValidTurn(turn) && s.last >= -1
    ensures Grows(s, RespondAndAct(config, s, turn))
  {
    var replied := StreamReply(s, turn.reply);
    ToolsKeepAccounts(config, replied, turn);
    NextGrows(CloseTurn(RunTools(config, replied, turn), turn), turn);
  }

  lemma {:induction false} ToolsKeepAccounts(config: Config, s: Loop, turn: Turn)
    requires ValidConfig(config) && ValidTurn(turn) && s.last >= -1
    ensures RunTools(config, s, turn).steered == s.steered && RunTools(config, s, turn).followedUp == s.followedUp
  {
  }

  lemma {:induction false} RunGrows(config: Config, s: Loop, environment: seq<Turn>)
    requires ValidConfig(config) && ValidEnvironment(environment) && s.last >= -1
    ensures Grows(s, Run(config, s, environment))
    decreases |environment|
  {
    if !s.ended && environment != [] {
      TurnGrows(config, s, environment[0]);
      TurnKeepsLast(config, s, environment[0]);
      RunGrows(config, TurnStep(config, s, environment[0]), environment[1..]);
    }
  }

  /** A run from any entry: whatever was queued when it started or arrived since has been injected, is pending or
      is still queued, each once and in order, unless an aborted later turn threw it away. */
  lemma {:induction false} ConservedRun(config: Config, entry: Entry, environment: seq<Turn>)
    requires ValidConfig(config) && ValidEnvironment(environment)
    ensures var s := Run(config, Start(entry), environment);
            && Conserved(s) && Grows(Opened(entry), s)
            && (NoTurnAborts(environment) ==> s.dropped == [])
  {
    ConservedStart(entry);
    RunConserves(config, Start(entry), environment);
    RunGrows(config, Start(entry), environment);
    var replayed := Opened(entry).(context := Replay(Opened(entry).context));
    ArriveKeeps(replayed, entry.arrivals);
  }

  // ---------------------------------------------------------------------
  // Agent.continue
  // ---------------------------------------------------------------------

  datatype ContinueError = NoMessages | EndsWithAssistant

  datatype ContinueResult = Continues(entry: Entry) | Refuses(error: ContinueError)

  /** The run that continuing starts: queued steering first, then queued follow-ups, when the transcript ends
      with an assistant; a plain continuation otherwise. */
  function ContinueEntry(history: seq<Message>, steering: Queue, followUp: Queue, abort: Option<string>,
                         arrivals: seq<Action>): ContinueResult {
    if history == [] then Refuses(NoMessages)
    else if !history[|history| - 1].Assistant? then
      Continues(Entry(history, [], Prompted, steering, followUp, false, abort, arrivals))
    else if Drained(steering) != [] then
      Continues(Entry(history, Drained(steering), Steered, AfterDrain(steering), followUp, true, abort, arrivals))
    else if Drained(followUp) != [] then
      Continues(Entry(history, Drained(followUp), FollowedUp, steering, AfterDrain(followUp), false, abort, arrivals))
    else Refuses(EndsWithAssistant)
  }

  /** Continuing in full: it needs a transcript; it just continues when that does not end with an assistant; otherwise
      the front of the steering queue, and only when that is empty the front of the follow-up queue, become the prompts,
      and with steering the first poll is skipped. With both empty it is refused. */
  lemma {:induction false} ContinueExactly(history: seq<Message>, steering: Queue, followUp: Queue,
                                           abort: Option<string>, arrivals: seq<Action>)
    ensures var result := ContinueEntry(history, steering, followUp, abort, arrivals);
            var answered := history != [] && history[|history| - 1].Assistant?;
            && (history == [] ==> result == Refuses(NoMessages))
            && (answered && steering.items == [] && followUp.items == [] ==> result == Refuses(EndsWithAssistant))
            && (history != [] && !answered ==>
                  result == Continues(Entry(history, [], Prompted, steering, followUp, false, abort, arrivals)))
            && (answered && steering.items != [] ==>
                  && result.Continues? && var e := result.entry;
                  && e.history == history && e.promptOrigin == Steered && e.skipInitialSteeringPoll
                  && e.followUp == followUp && e.steering.mode == steering.mode
                  && e.prompts + e.steering.items == steering.items
                  && |e.prompts| == (if steering.mode.DrainAll? then |steering.items| else 1)
                  && e.beforeTurnAbort == abort && e.arrivals == arrivals)
            && (answered && steering.items == [] && followUp.items != [] ==>
                  && result.Continues? && var e := result.entry;
                  && e.history == history && e.promptOrigin == FollowedUp && !e.skipInitialSteeringPoll
                  && e.steering == steering && e.followUp.mode == followUp.mode
                  && e.prompts + e.followUp.items == followUp.items
                  && |e.prompts| == (if followUp.mode.DrainAll? then |followUp.items| else 1)
                  && e.beforeTurnAbort == abort && e.arrivals == arrivals)
  {
    if steering.items == [] {
      assert steering.(items := []) == steering;
    }
  }

  method Continue(history: seq<Message>, steering: PendingMessageQueue, followUp: PendingMessageQueue,
                  abort: Option<string>, arrivals: seq<Action>) returns (result: ContinueResult)
    requires steering != followUp
    modifies steering, followUp
    ensures result == ContinueEntry(history, old(steering.View()), old(followUp.View()), abort, arrivals)
    ensures match result
            case Continues(entry) => entry.steering == steering.View() && entry.followUp == followUp.View()
            case Refuses(_) => steering.View() == old(steering.View()) && followUp.View() == old(followUp.View())
  {
    if history == [] {
      return Refuses(NoMessages);
    }
    if history[|history| - 1].Assistant? {
      var queuedSteering := steering.Drain();
      if |queuedSteering| > 0 {
        return Continues(Entry(history, queuedSteering, Steered, steering.View(), followUp.View(), true, abort,
                               arrivals));
      }
      var queuedFollowUps := followUp.Drain();
      if |queuedFollowUps| > 0 {
        return Continues(Entry(history, queuedFollowUps, FollowedUp, steering.View(), followUp.View(), false, abort,
                               arrivals));
      }
      return Refuses(EndsWithAssistant);
    }
    return Continues(Entry(history, [], Prompted, steering.View(), followUp.View(), false, abort, arrivals));
  }

  /** Continuing accounts for everything that was queued: the drained messages become prompts, the rest stays. */
  lemma {:induction false} ContinueLosesNothing(history: seq<Message>, steering: Queue, followUp: Queue,
                                                abort: Option<string>, arrivals: seq<Action>)
    requires ContinueEntry(history, steering, followUp, abort, arrivals).Continues?
    ensures var s := Opened(ContinueEntry(history, steering, followUp, abort, arrivals).entry);
            s.steered == steering.items && s.followedUp == followUp.items && Conserved(s)
  {
    var entry := ContinueEntry(history, steering, followUp, abort, arrivals).entry;
    ConservedOpened(entry);
    DrainParts(steering);
    DrainParts(followUp);
    OpenedAccounts(entry, Opened(entry));
  }

  lemma {:induction false} DrainParts(queue: Queue)
    ensures queue.items == Drained(queue) + AfterDrain(queue).items
  {
  }

  lemma {:induction false} OpenedAccounts(entry: Entry, s: Loop)
    requires s == Opened(entry)
    ensures entry.promptOrigin.Steered? ==> s.steered == entry.prompts + entry.steering.items
    ensures !entry.promptOrigin.Steered? ==> s.steered == entry.steering.items
    ensures entry.promptOrigin.FollowedUp? ==> s.followedUp == entry.prompts + entry.followUp.items
    ensures !entry.promptOrigin.FollowedUp? ==> s.followedUp == entry.followUp.items
  {
  }

  /** So a continued run accounts for all that was queued before it, the skipped first poll notwithstanding. */
  lemma {:induction false} ContinuedRunConserves(config: Config, history: seq<Message>, steering: Queue,
                                                 followUp: Queue, abort: Option<string>, arrivals: seq<Action>,
                                                 environment: seq<Turn>)
    requires ValidConfig(config) && ValidEnvironment(environment)
    requires ContinueEntry(history, steering, followUp, abort, arrivals).Continues?
    ensures var entry := ContinueEntry(history, steering, followUp, abort, arrivals).entry;
            var s := Run(config, Start(entry), environment);
            && Conserved(s) && steering.items <= s.steered && followUp.items <= s.followedUp
            && (NoTurnAborts(environment) ==> s.dropped == [])
  {
    ContinueLosesNothing(history, steering, followUp, abort, arrivals);
    ConservedRun(config, ContinueEntry(history, steering, followUp, abort, arrivals).entry, environment);
  }
}
