/** What the messages a run persists say about its live context, over any transcript
    (packages/agent/src/agent-loop.ts). */
module RunRecord {
  import opened Messages
  import opened QueryCompaction
  import opened CompactionReplay
  import opened ToolBatch
  import opened AgentLoop
  import opened LiveContext

  predicate Unmarked(messages: seq<Message>) {
    forall i :: 0 <= i < |messages| ==> !IsMarker(messages[i])
  }

  predicate UnmarkedActions(actions: seq<Action>) {
    Unmarked(Steers(actions)) && Unmarked(FollowUps(actions))
  }

  predicate UnmarkedEnvironment(environment: seq<Turn>) {
    forall k :: 0 <= k < |environment| ==>
      UnmarkedActions(environment[k].arrivals) && UnmarkedActions(environment[k].lateArrivals)
  }

  // ---------------------------------------------------------------------
  // The record
  // ---------------------------------------------------------------------

  /** The live context of a run that started from base and persisted own since: the summaries of its markers in order,
      then base and its other messages after everything covered. Nothing is asked of base, which may hold markers. */
  predicate RecordedOver(base: seq<Message>, live: seq<Message>, own: seq<Message>, last: int) {
    var markers, raw := Markers(own), base + Raw(own);
    && Numbered(own, 0, last)
    && WrittenAfterCovered(markers, |base|)
    && 0 <= Covered(markers) <= |raw|
    && live == Projections(markers) + raw[Covered(markers)..]
  }

  lemma {:induction false} OverStart(base: seq<Message>)
    ensures RecordedOver(base, base, [], -1)
  {
  }

  lemma {:induction false} TailPush(raw: seq<Message>, e: nat, message: Message)
    requires e <= |raw|
    ensures (raw + [message])[e..] == raw[e..] + [message]
  {
  }

  lemma {:induction false} OverPush(base: seq<Message>, live: seq<Message>, own: seq<Message>, last: int,
                                    message: Message)
    requires RecordedOver(base, live, own, last) && !IsMarker(message)
    ensures RecordedOver(base, live + [message], own + [message], last)
  {
    MarkersPush(own, message);
    NumberedPush(own, 0, last, message);
    TailPush(base + Raw(own), Covered(Markers(own)), message);
    assert base + Raw(own) + [message] == base + (Raw(own) + [message]);
  }

  lemma {:induction false} Rejoin(messages: seq<Message>, more: seq<Message>)
    requires more != []
    ensures messages + more[..|more| - 1] + [more[|more| - 1]] == messages + more
  {
  }

  lemma {:induction false} OverAppend(base: seq<Message>, live: seq<Message>, own: seq<Message>, last: int,
                                      more: seq<Message>)
    requires RecordedOver(base, live, own, last) && Unmarked(more)
    ensures RecordedOver(base, live + more, own + more, last)
    decreases |more|
  {
    if more == [] {
      assert live + more == live && own + more == own;
    } else {
      var n := |more| - 1;
      OverAppend(base, live, own, last, more[..n]);
      OverPush(base, live + more[..n], own + more[..n], last, more[n]);
      Rejoin(live, more);
      Rejoin(own, more);
    }
  }

  lemma {:induction false} OverCompact(base: seq<Message>, live: seq<Message>, own: seq<Message>, last: int, plan: Plan)
    requires RecordedOver(base, live, own, last)
    requires plan.startIndex == last + 1 && plan.startIndex < plan.endIndex <= |live|
    ensures RecordedOver(base, Spliced(live, plan), own + [BuildMarker(plan)], plan.startIndex)
  {
    var marker := MarkerAt(BuildMarker(plan), |own|);
    var next := Markers(own + [BuildMarker(plan)]);
    MarkersPush(own, BuildMarker(plan));
    NumberedCompact(own, 0, last, plan);
    RawPlusMarkers(own);
    SpliceShape(live, Markers(own), base + Raw(own), plan, marker, next);
    WrittenAfterPush(Markers(own), |base|, marker);
  }

  // ---------------------------------------------------------------------
  // The whole stream
  // ---------------------------------------------------------------------

  function Shifted(markers: seq<Marker>, offset: nat): seq<Marker> {
    seq(|markers|, i requires 0 <= i < |markers| => markers[i].(index := markers[i].index + offset))
  }

  lemma {:induction false} ShiftedPush(markers: seq<Marker>, marker: Marker, offset: nat)
    ensures Shifted(markers + [marker], offset)
            == Shifted(markers, offset) + [marker.(index := marker.index + offset)]
  {
  }

  lemma {:induction false} MarkersJoin(a: seq<Message>, b: seq<Message>)
    ensures Markers(a + b) == Markers(a) + Shifted(Markers(b), |a|)
    decreases |b|
  {
    if b == [] {
      assert a + b == a;
    } else {
      var n := |b| - 1;
      MarkersJoin(a, b[..n]);
      MarkersJoinOne(a, b[..n], b[n]);
      assert b == b[..n] + [b[n]] && a + b == a + b[..n] + [b[n]];
    }
  }

  lemma {:induction false} MarkersJoinOne(a: seq<Message>, b: seq<Message>, message: Message)
    requires Markers(a + b) == Markers(a) + Shifted(Markers(b), |a|)
    ensures Markers(a + b + [message]) == Markers(a) + Shifted(Markers(b + [message]), |a|)
  {
    MarkersPush(a + b, message);
    MarkersPush(b, message);
    if IsMarker(message) {
      JoinPush(Markers(a), Markers(b), |a|, MarkerAt(message, |b|), MarkerAt(message, |a + b|));
    }
  }

  lemma {:induction false} JoinPush(head: seq<Marker>, markers: seq<Marker>, offset: nat, marker: Marker, moved: Marker)
    requires moved == marker.(index := marker.index + offset)
    ensures head + Shifted(markers, offset) + [moved] == head + Shifted(markers + [marker], offset)
  {
    ShiftedPush(markers, marker, offset);
    PushLast(head, Shifted(markers, offset), moved);
  }

  lemma {:induction false} PushLast(head: seq<Marker>, tail: seq<Marker>, marker: Marker)
    ensures head + tail + [marker] == head + (tail + [marker])
  {
  }

  lemma {:induction false} ShiftedPrefix(markers: seq<Marker>, offset: nat)
    requires markers != []
    ensures Shifted(markers, offset)[..|markers| - 1] == Shifted(markers[..|markers| - 1], offset)
  {
  }

  lemma {:induction false} CoveredShifted(markers: seq<Marker>, offset: nat)
    ensures Covered(Shifted(markers, offset)) == Covered(markers)
    ensures Projections(Shifted(markers, offset)) == Projections(markers)
  {
    if markers != [] {
      ShiftedPrefix(markers, offset);
      CoveredShifted(markers[..|markers| - 1], offset);
    }
  }

  lemma {:induction false} WrittenShifted(markers: seq<Marker>, offset: nat)
    requires WrittenAfterCovered(markers, offset)
    ensures WrittenAfterCovered(Shifted(markers, offset), 0)
  {
    if markers != [] {
      ShiftedPrefix(markers, offset);
      CoveredShifted(markers, offset);
      WrittenShifted(markers[..|markers| - 1], offset);
    }
  }

  /** A run's own numbers stay what they are behind any history. */
  lemma {:induction false} NumberedBehind(history: seq<Message>, own: seq<Message>, last: int)
    requires Numbered(own, 0, last)
    ensures Numbered(history + own, |Markers(history)|, last)
  {
    MarkersJoin(history, own);
  }

  lemma {:induction false} UnmarkedStream(messages: seq<Message>)
    requires Unmarked(messages)
    ensures Markers(messages) == [] && Raw(messages) == messages
  {
    if messages != [] {
      UnmarkedStream(messages[..|messages| - 1]);
      assert messages == messages[..|messages| - 1] + [messages[|messages| - 1]];
    }
  }

  /** Over a base without markers the record is one of the whole stream. */
  lemma {:induction false} WholeStream(base: seq<Message>, live: seq<Message>, own: seq<Message>, last: int)
    requires Unmarked(base) && RecordedOver(base, live, own, last)
    ensures Recorded(live, base + own, last) && Raw(base + own) == base + Raw(own)
  {
    UnmarkedStream(base);
    MarkersJoin(base, own);
    assert [] + Shifted(Markers(own), |base|) == Shifted(Markers(own), |base|);
    RawSplit(base, own);
    NumberedBehind(base, own, last);
    CoveredShifted(Markers(own), |base|);
    WrittenShifted(Markers(own), |base|);
  }

  // ---------------------------------------------------------------------
  // Every run keeps it
  // ---------------------------------------------------------------------

  /** s is the state of a run with these prompts whose context was base when it started. */
  ghost predicate Records(base: seq<Message>, prompts: seq<Message>, s: Loop) {
    && prompts <= s.newMessages
    && RecordedOver(base, s.context, s.newMessages[|prompts|..], s.last)
    && Unmarked(s.pending) && Unmarked(s.steering.items) && Unmarked(s.followUp.items)
  }

  lemma {:induction false} RecordsAppend(base: seq<Message>, prompts: seq<Message>, s: Loop, more: seq<Message>,
                                         next: Loop)
    requires Records(base, prompts, s) && Unmarked(more)
    requires next.context == s.context + more && next.newMessages == s.newMessages + more && next.last == s.last
    requires Unmarked(next.pending) && next.steering == s.steering && next.followUp == s.followUp
    ensures Records(base, prompts, next)
  {
    OverAppend(base, s.context, s.newMessages[|prompts|..], s.last, more);
    assert next.newMessages[|prompts|..] == s.newMessages[|prompts|..] + more;
  }

  lemma {:induction false} RecordsArrive(base: seq<Message>, prompts: seq<Message>, s: Loop, actions: seq<Action>)
    requires Records(base, prompts, s) && UnmarkedActions(actions)
    ensures Records(base, prompts, Arrive(s, actions))
    ensures Records(base, prompts, PollSteering(Arrive(s, actions)))
    ensures Records(base, prompts, PollFollowUp(Arrive(s, actions)))
  {
    ArriveKeeps(s, actions);
  }

  lemma {:induction false} RecordsSplice(base: seq<Message>, prompts: seq<Message>, s: Loop, plan: Plan, next: Loop)
    requires Records(base, prompts, s) && s.last + 1 == plan.startIndex < plan.endIndex <= |s.context|
    requires next.context == Spliced(s.context, plan) && next.last == plan.startIndex
    requires next.newMessages == s.newMessages + [BuildMarker(plan)]
    requires next.pending == s.pending && next.steering == s.steering && next.followUp == s.followUp
    ensures Records(base, prompts, next)
  {
    OverCompact(base, s.context, s.newMessages[|prompts|..], s.last, plan);
    assert next.newMessages[|prompts|..] == s.newMessages[|prompts|..] + [BuildMarker(plan)];
  }

  lemma {:induction false} RecordsCompact(base: seq<Message>, prompts: seq<Message>, config: Config, s: Loop,
                                          turn: Turn)
    requires ValidConfig(config) && s.last >= -1 && Records(base, prompts, s)
    ensures Records(base, prompts, Compact(config, s, turn))
  {
    var plan := PlanOf(config, s, turn);
    if plan.Some? {
      RecordsSplice(base, prompts, s, plan.value, Compact(config, s, turn));
    }
  }

  lemma {:induction false} ReplyUnmarked(turn: Turn)
    requires ValidTurn(turn)
    ensures Unmarked([turn.reply.final] + ToolResults(turn))
  {
    if turn.reply.final.calls != [] {
      BatchAnswersCalls(turn);
    }
  }

  lemma {:induction false} RecordsTools(base: seq<Message>, prompts: seq<Message>, config: Config, s: Loop, turn: Turn,
                                        next: Loop)
    requires ValidConfig(config) && ValidTurn(turn) && s.last >= -1 && Records(base, prompts, s)
    requires next == RunTools(config, StreamReply(s, turn.reply), turn)
    ensures Records(base, prompts, next)
  {
    ReplyUnmarked(turn);
    if turn.reply.final.calls == [] {
      assert [turn.reply.final] + ToolResults(turn) == [turn.reply.final];
      RecordsAppend(base, prompts, s, [turn.reply.final], next);
    } else {
      ActedShape(s, turn);
      RecordsAppend(base, prompts, s, [turn.reply.final] + ToolResults(turn), Acted(s, turn));
      RecordsCompact(base, prompts, config, Acted(s, turn), turn);
    }
  }

  lemma {:induction false} RecordsNext(base: seq<Message>, prompts: seq<Message>, s: Loop, turn: Turn)
    requires ValidTurn(turn) && Records(base, prompts, s)
    requires UnmarkedActions(turn.arrivals) && UnmarkedActions(turn.lateArrivals)
    ensures Records(base, prompts, NextPending(s, turn))
  {
    if !turn.stopAfter {
      RecordsArrive(base, prompts, s, turn.arrivals);
      RecordsArrive(base, prompts, PollSteering(Arrive(s, turn.arrivals)), turn.lateArrivals);
    }
  }

  lemma {:induction false} RecordsRespond(base: seq<Message>, prompts: seq<Message>, config: Config, s: Loop,
                                          turn: Turn)
    requires ValidConfig(config) && ValidTurn(turn) && s.last >= -1 && Records(base, prompts, s)
    requires UnmarkedActions(turn.arrivals) && UnmarkedActions(turn.lateArrivals)
    ensures Records(base, prompts, RespondAndAct(config, s, turn))
  {
    if Failed(turn.reply.final) {
      RecordsAppend(base, prompts, s, [turn.reply.final], StreamReply(s, turn.reply));
    } else {
      var acted := RunTools(config, StreamReply(s, turn.reply), turn);
      RecordsTools(base, prompts, config, s, turn, acted);
      RecordsNext(base, prompts, CloseTurn(acted, turn), turn);
    }
  }

  lemma {:induction false} RecordsTurn(base: seq<Message>, prompts: seq<Message>, config: Config, s: Loop, turn: Turn)
    requires ValidConfig(config) && ValidTurn(turn) && s.last >= -1 && Records(base, prompts, s)
    requires UnmarkedActions(turn.arrivals) && UnmarkedActions(turn.lateArrivals)
    ensures Records(base, prompts, TurnStep(config, s, turn))
  {
    var begun := BeginTurn(s);
    if !s.firstTurn && turn.beforeTurnAbort.Some? {
      var reason := turn.beforeTurnAbort.value;
      RecordsAppend(base, prompts, begun, [AbortNote(reason)], EndAborted(begun, reason));
    } else {
      var injected := Inject(begun);
      RecordsAppend(base, prompts, begun, begun.pending, injected);
      if turn.beforeReasoningAbort.Some? {
        var reason := turn.beforeReasoningAbort.value;
        RecordsAppend(base, prompts, injected, [AbortNote(reason)], EndAborted(injected, reason));
      } else {
        RecordsRespond(base, prompts, config, injected, turn);
      }
    }
  }

  /** Whatever the run does, its context stays the one its own messages record. */
  lemma {:induction false} RunKeepsRecord(base: seq<Message>, prompts: seq<Message>, config: Config, s: Loop,
                                          environment: seq<Turn>)
    requires ValidConfig(config) && ValidEnvironment(environment) && UnmarkedEnvironment(environment)
    requires s.last >= -1 && Records(base, prompts, s)
    ensures Records(base, prompts, Run(config, s, environment))
    decreases |environment|
  {
    if !s.ended && environment != [] {
      RecordsTurn(base, prompts, config, s, environment[0]);
      TurnKeepsLast(config, s, environment[0]);
      RunKeepsRecord(base, prompts, config, TurnStep(config, s, environment[0]), environment[1..]);
    }
  }

  /** No marker is put in from outside, as a prompt, a queued message or an arrival. */
  predicate UnmarkedEntry(entry: Entry) {
    && Unmarked(entry.prompts) && Unmarked(entry.steering.items) && Unmarked(entry.followUp.items)
    && UnmarkedActions(entry.arrivals)
  }

  lemma {:induction false} StartRecords(entry: Entry)
    requires UnmarkedEntry(entry)
    ensures Records(FirstContext(entry), entry.prompts, Start(entry))
  {
    var initial := Opened(entry).(context := FirstContext(entry));
    OverStart(FirstContext(entry));
    assert initial.newMessages[|entry.prompts|..] == [];
    if entry.beforeTurnAbort.Some? {
      var reason := entry.beforeTurnAbort.value;
      RecordsAppend(FirstContext(entry), entry.prompts, initial, [AbortNote(reason)], EndAborted(initial, reason));
    } else {
      RecordsArrive(FirstContext(entry), entry.prompts, initial, entry.arrivals);
    }
  }

  /** A run over any transcript, markers and unanswered calls in it or not: its live context is what it started from and
      what it persisted, with the summaries of its own compactions for everything they cover. */
  lemma {:induction false} RunIsRecorded(config: Config, entry: Entry, environment: seq<Turn>)
    requires ValidConfig(config) && ValidEnvironment(environment) && UnmarkedEnvironment(environment)
    requires UnmarkedEntry(entry)
    ensures var s := Run(config, Start(entry), environment);
            && entry.prompts <= s.newMessages
            && RecordedOver(FirstContext(entry), s.context, s.newMessages[|entry.prompts|..], s.last)
  {
    StartRecords(entry);
    RunKeepsRecord(FirstContext(entry), entry.prompts, config, Start(entry), environment);
  }
}
