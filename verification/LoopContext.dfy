/** What a later run finds of the live context of a run over a transcript without markers. */
module LoopContext {
  import opened Messages
  import opened QueryCompaction
  import opened CompactionReplay
  import opened ToolPairing
  import opened ToolBatch
  import opened AgentLoop
  import opened LiveContext
  import opened RunRecord

  /** Every context a run over a marker-free transcript reaches is the one its persisted stream records. */
  lemma {:induction false} RunIsFaithful(config: Config, entry: Entry, environment: seq<Turn>)
    requires ValidConfig(config) && ValidEnvironment(environment) && UnmarkedEnvironment(environment)
    requires Unmarked(entry.history) && UnmarkedEntry(entry)
    ensures var s := Run(config, Start(entry), environment);
            Recorded(s.context, entry.history + s.newMessages, s.last)
  {
    RunIsRecorded(config, entry, environment);
    var s := Run(config, Start(entry), environment);
    UnmarkedContext(entry);
    StreamOfRun(entry.history, entry.prompts, s.newMessages, s.context, s.last);
  }

  lemma {:induction false} StreamOfRun(history: seq<Message>, prompts: seq<Message>, messages: seq<Message>,
                                       live: seq<Message>, last: int)
    requires Unmarked(history + prompts) && prompts <= messages
    requires RecordedOver(history + prompts, live, messages[|prompts|..], last)
    ensures Recorded(live, history + messages, last)
  {
    WholeStream(history + prompts, live, messages[|prompts|..], last);
    assert history + messages == history + prompts + messages[|prompts|..];
  }

  lemma {:induction false} UnmarkedContext(entry: Entry)
    requires Unmarked(entry.history) && Unmarked(entry.prompts)
    ensures Unmarked(entry.history + entry.prompts) && FirstContext(entry) == entry.history + entry.prompts
  {
    UnmarkedStream(entry.history + entry.prompts);
  }

  lemma {:induction false} RecordedAppend(live: seq<Message>, stream: seq<Message>, last: int, more: seq<Message>)
    requires Recorded(live, stream, last) && Unmarked(more)
    ensures Recorded(live + more, stream + more, last)
    ensures Raw(stream + more) == Raw(stream) + more && Markers(stream + more) == Markers(stream)
    decreases |more|
  {
    if more == [] {
      assert live + more == live && stream + more == stream;
    } else {
      var n := |more| - 1;
      RecordedAppend(live, stream, last, more[..n]);
      PushOne(live + more[..n], stream + more[..n], last, more[n]);
      Rejoin(live, more);
      Rejoin(stream, more);
      Rejoin(Raw(stream), more);
    }
  }

  /** The stored transcript gives back every summary and every message still live, and exactly the live context when no
      marker was stored among the messages covered. */
  ghost predicate Rebuilds(live: seq<Message>, stored: seq<Message>) {
    var markers, raw := Markers(stored), Raw(stored);
    var e := Covered(markers);
    && 0 <= e <= |stored| && MarkersBelow(stored) <= e <= |raw|
    && var m := MarkersBelow(stored);
       && live == Projections(markers) + raw[e..]
       && Replay(stored) == Projections(markers) + raw[e - m..]
       && (Replay(stored) == live <==> m == 0)
       && (|markers| <= 1 ==> m == 0)
  }

  lemma {:induction false} RecordedRebuilds(live: seq<Message>, stored: seq<Message>, last: int)
    requires Recorded(live, stored, last)
    ensures Rebuilds(live, stored)
  {
    RoundTrip(live, stored, last);
    if |Markers(stored)| <= 1 {
      SingleCompactionRoundTrip(live, stored, last);
    }
  }

  /** Whatever run started from a marker-free transcript, the next run, with prompts of its own, starts from a context
      rebuilt so out of what the first one left and its prompts. */
  lemma {:induction false} NextRunRebuildsContext(entry: Entry, config: Config, environment: seq<Turn>, next: Entry)
    requires ValidConfig(config) && ValidEnvironment(environment) && UnmarkedEnvironment(environment)
    requires Unmarked(entry.history) && UnmarkedEntry(entry)
    requires next.history == entry.history + Run(config, Start(entry), environment).newMessages
    requires Unmarked(next.prompts) && next.beforeTurnAbort.None?
    ensures var s := Run(config, Start(entry), environment);
            && Rebuilds(s.context + next.prompts, next.history + next.prompts)
            && Start(next).context == Replay(next.history + next.prompts)
            && Markers(next.history + next.prompts) == Markers(next.history)
  {
    var s := Run(config, Start(entry), environment);
    RunIsFaithful(config, entry, environment);
    RecordedAppend(s.context, next.history, s.last, next.prompts);
    RecordedRebuilds(s.context + next.prompts, next.history + next.prompts, s.last);
    StartsFromReplay(next);
  }

  lemma {:induction false} StartsFromReplay(entry: Entry)
    requires entry.beforeTurnAbort.None?
    ensures Start(entry).context == Replay(entry.history + entry.prompts)
  {
    ArriveKeeps(Opened(entry).(context := Replay(entry.history + entry.prompts)), entry.arrivals);
  }

  // ---------------------------------------------------------------------
  // Tool pairing of what is rebuilt
  // ---------------------------------------------------------------------

  lemma {:induction false} StoredAppend(messages: seq<Message>, more: seq<Message>, next: seq<Message>)
    requires Paired(Raw(messages)) && Paired(Raw(more)) && next == messages + more
    ensures Paired(Raw(next))
  {
    RawSplit(messages, more);
    PairedJoin(Raw(messages), Raw(more));
  }

  lemma {:induction false} RawResultFree(messages: seq<Message>)
    requires ResultFree(messages)
    ensures ResultFree(Raw(messages)) && Paired(Raw(messages))
  {
    if messages != [] {
      RawResultFree(messages[..|messages| - 1]);
    }
    ResultFreePaired(Raw(messages));
  }

  lemma {:induction false} StoredReply(messages: seq<Message>, turn: Turn, next: seq<Message>)
    requires ValidTurn(turn) && Paired(Raw(messages)) && next == messages + ([turn.reply.final] + ToolResults(turn))
    ensures Paired(Raw(next))
  {
    ReplyUnmarked(turn);
    UnmarkedStream([turn.reply.final] + ToolResults(turn));
    ReplyWithResultsPaired(turn);
    StoredAppend(messages, [turn.reply.final] + ToolResults(turn), next);
  }

  lemma {:induction false} StoredTools(config: Config, s: Loop, turn: Turn, next: Loop)
    requires ValidConfig(config) && ValidTurn(turn) && s.last >= -1 && Paired(Raw(s.newMessages))
    requires next == RunTools(config, StreamReply(s, turn.reply), turn)
    ensures Paired(Raw(next.newMessages))
  {
    if turn.reply.final.calls == [] {
      assert [turn.reply.final] + ToolResults(turn) == [turn.reply.final];
      StoredReply(s.newMessages, turn, next.newMessages);
    } else {
      ActedShape(s, turn);
      var acted := Acted(s, turn);
      StoredReply(s.newMessages, turn, acted.newMessages);
      StoredCompact(config, acted, turn, next);
    }
  }

  lemma {:induction false} StoredCompact(config: Config, s: Loop, turn: Turn, next: Loop)
    requires ValidConfig(config) && s.last >= -1 && next == Compact(config, s, turn)
    ensures Raw(next.newMessages) == Raw(s.newMessages)
  {
    var plan := PlanOf(config, s, turn);
    if plan.Some? {
      StoredMarker(s.newMessages, plan.value, next.newMessages);
    }
  }

  lemma {:induction false} StoredMarker(messages: seq<Message>, plan: Plan, next: seq<Message>)
    requires 0 <= plan.startIndex < plan.endIndex && next == messages + [BuildMarker(plan)]
    ensures Raw(next) == Raw(messages)
  {
    MarkersPush(messages, BuildMarker(plan));
  }

  lemma {:induction false} StoredRespond(config: Config, s: Loop, turn: Turn)
    requires ValidConfig(config) && ValidTurn(turn) && s.last >= -1 && Paired(Raw(s.newMessages))
    ensures Paired(Raw(RespondAndAct(config, s, turn).newMessages))
  {
    if Failed(turn.reply.final) {
      RawResultFree([turn.reply.final]);
      StoredAppend(s.newMessages, [turn.reply.final], StreamReply(s, turn.reply).newMessages);
    } else {
      var acted := RunTools(config, StreamReply(s, turn.reply), turn);
      StoredTools(config, s, turn, acted);
      NextKeepsContext(CloseTurn(acted, turn), turn);
    }
  }

  lemma {:induction false} StoredAbort(s: Loop, reason: string, next: Loop)
    requires Paired(Raw(s.newMessages)) && next == EndAborted(s, reason)
    ensures Paired(Raw(next.newMessages))
  {
    RawResultFree([AbortNote(reason)]);
    StoredAppend(s.newMessages, [AbortNote(reason)], next.newMessages);
  }

  lemma {:induction false} StoredTurn(config: Config, s: Loop, turn: Turn)
    requires ValidConfig(config) && ValidTurn(turn) && s.last >= -1
    requires ResultFree(s.pending) && Paired(Raw(s.newMessages))
    ensures Paired(Raw(TurnStep(config, s, turn).newMessages))
  {
    var begun, next := BeginTurn(s), TurnStep(config, s, turn);
    if !s.firstTurn && turn.beforeTurnAbort.Some? {
      StoredAbort(begun, turn.beforeTurnAbort.value, next);
    } else {
      var injected := Inject(begun);
      RawResultFree(begun.pending);
      StoredAppend(begun.newMessages, begun.pending, injected.newMessages);
      if turn.beforeReasoningAbort.Some? {
        StoredAbort(injected, turn.beforeReasoningAbort.value, next);
      } else {
        StoredRespond(config, injected, turn);
      }
    }
  }

  /** What a run persists pairs up by itself. */
  lemma {:induction false} RunStoresPairs(config: Config, s: Loop, environment: seq<Turn>)
    requires ValidConfig(config) && ValidEnvironment(environment) && ResultFreeTurns(environment)
    requires s.last >= -1 && PairedLoop(s) && Paired(Raw(s.newMessages))
    ensures PairedLoop(Run(config, s, environment)) && Paired(Raw(Run(config, s, environment).newMessages))
    decreases |environment|
  {
    if !s.ended && environment != [] {
      PairedTurn(config, s, environment[0]);
      StoredTurn(config, s, environment[0]);
      TurnKeepsLast(config, s, environment[0]);
      RunStoresPairs(config, TurnStep(config, s, environment[0]), environment[1..]);
    }
  }

  lemma {:induction false} StartStoresPairs(entry: Entry)
    requires ResultFree(entry.prompts)
    ensures Paired(Raw(Start(entry).newMessages))
  {
    RawResultFree(entry.prompts);
    if entry.beforeTurnAbort.Some? {
      StoredAbort(Opened(entry), entry.beforeTurnAbort.value, Start(entry));
    } else {
      ArriveKeeps(Opened(entry).(context := Replay(entry.history + entry.prompts)), entry.arrivals);
    }
  }

  /** No tool result is put in from outside. */
  predicate ResultFreeEntry(entry: Entry) {
    && ResultFree(entry.prompts) && ResultFree(entry.steering.items) && ResultFree(entry.followUp.items)
    && ResultFreeActions(entry.arrivals)
  }

  /** The first message that a replay keeps after its summaries is not a tool result. */
  predicate KeepsNoResultFirst(stored: seq<Message>) {
    var raw, e := Raw(stored), Covered(Markers(stored));
    && 0 <= e <= |stored| && MarkersBelow(stored) <= e
    && var k := e - MarkersBelow(stored); k < |raw| ==> !raw[k].ToolResult?
  }

  lemma {:induction false} PairsExactly(live: seq<Message>, stored: seq<Message>, last: int)
    requires Recorded(live, stored, last) && Paired(Raw(stored))
    ensures Paired(Replay(stored)) <==> KeepsNoResultFirst(stored)
  {
    ReplayShape(live, stored, last);
    ReplayPairing(live, stored, last);
  }

  /** When the transcript is paired besides, so is the live context; the next run then starts from a paired context
      exactly when the first message it keeps after the summaries is not a tool result. */
  lemma {:induction false} NextRunPairing(entry: Entry, config: Config, environment: seq<Turn>, next: Entry)
    requires ValidConfig(config) && ValidEnvironment(environment) && UnmarkedEnvironment(environment)
    requires Unmarked(entry.history) && UnmarkedEntry(entry)
    requires Paired(entry.history) && ResultFreeEntry(entry) && ResultFreeTurns(environment)
    requires next.history == entry.history + Run(config, Start(entry), environment).newMessages
    requires Unmarked(next.prompts) && ResultFree(next.prompts) && next.beforeTurnAbort.None?
    ensures Paired(Run(config, Start(entry), environment).context + next.prompts)
    ensures Paired(Start(next).context) <==> KeepsNoResultFirst(next.history + next.prompts)
  {
    var s := Run(config, Start(entry), environment);
    RunLeavesPairs(entry, config, environment);
    PairsGoOn(entry.history, s, next.history, next.prompts);
    RunIsFaithful(config, entry, environment);
    RecordedAppend(s.context, next.history, s.last, next.prompts);
    PairsExactly(s.context + next.prompts, next.history + next.prompts, s.last);
    StartsFromReplay(next);
  }

  lemma {:induction false} RunLeavesPairs(entry: Entry, config: Config, environment: seq<Turn>)
    requires ValidConfig(config) && ValidEnvironment(environment)
    requires Unmarked(entry.history) && Unmarked(entry.prompts)
    requires Paired(entry.history) && ResultFreeEntry(entry) && ResultFreeTurns(environment)
    ensures var s := Run(config, Start(entry), environment); Paired(s.context) && Paired(Raw(s.newMessages))
  {
    UnmarkedContext(entry);
    ResultFreePaired(entry.prompts);
    PairedJoin(entry.history, entry.prompts);
    StartKeepsPairing(entry);
    StartStoresPairs(entry);
    RunStoresPairs(config, Start(entry), environment);
  }

  lemma {:induction false} PairsGoOn(history: seq<Message>, s: Loop, stored: seq<Message>, more: seq<Message>)
    requires Unmarked(history) && Paired(history) && ResultFree(more) && stored == history + s.newMessages
    requires Paired(s.context) && Paired(Raw(s.newMessages))
    ensures Paired(s.context + more) && Paired(Raw(stored + more))
  {
    ResultFreePaired(more);
    PairedJoin(s.context, more);
    UnmarkedStream(history);
    StoredAppend(history, s.newMessages, stored);
    RawResultFree(more);
    StoredAppend(stored, more, stored + more);
  }
}
