/** Transcripts written by several runs: when their compactions still apply. */
module Transcripts {
  import opened Messages
  import opened QueryCompaction
  import opened CompactionReplay
  import opened AgentLoop
  import opened LiveContext
  import opened RunRecord
  import opened LoopContext

  // ---------------------------------------------------------------------
  // Messages after an accepted stream
  // ---------------------------------------------------------------------

  lemma {:induction false} UnmarkedAfter(stream: seq<Message>, more: seq<Message>)
    requires Unmarked(more)
    ensures Markers(stream + more) == Markers(stream) && Raw(more) == more
  {
    UnmarkedStream(more);
    MarkersJoin(stream, more);
    assert Markers(stream) + Shifted([], |stream|) == Markers(stream);
  }

  lemma {:induction false} BetweenExtends(stream: seq<Message>, more: seq<Message>, from: nat, end: nat)
    requires from <= end <= |stream|
    ensures RawBetween(stream + more, from, end) == RawBetween(stream, from, end)
  {
    RawBetweenIsRaw(stream, from, end);
    RawBetweenIsRaw(stream + more, from, end);
    assert (stream + more)[from..end] == stream[from..end];
  }

  lemma {:induction false} TailExtends(stream: seq<Message>, more: seq<Message>, cursor: nat)
    requires cursor <= |stream| && Raw(more) == more
    ensures RawBetween(stream + more, cursor, |stream + more|) == RawBetween(stream, cursor, |stream|) + more
  {
    RawBetweenIsRaw(stream, cursor, |stream|);
    RawBetweenIsRaw(stream + more, cursor, |stream + more|);
    assert (stream + more)[cursor..|stream + more|] == stream[cursor..|stream|] + more;
    RawSplit(stream[cursor..|stream|], more);
  }

  lemma {:induction false} RebuildExtends(stream: seq<Message>, more: seq<Message>, ranges: seq<Range>, cursor: nat)
    requires Contiguous(ranges, cursor, |stream|) && Raw(more) == more
    ensures Rebuild(stream + more, ranges, cursor) == Rebuild(stream, ranges, cursor) + more
    decreases |ranges|
  {
    if ranges == [] {
      TailExtends(stream, more, cursor);
    } else {
      ContiguousTail(ranges, cursor, |stream|);
      BetweenExtends(stream, more, cursor, ranges[0].from);
      RebuildExtends(stream, more, ranges[1..], ranges[0].to);
      AppendOutside(RawBetween(stream, cursor, ranges[0].from) + [User(ranges[0].summary)],
                    Rebuild(stream, ranges[1..], ranges[0].to), more);
    }
  }

  lemma {:induction false} AppendOutside(a: seq<Message>, b: seq<Message>, more: seq<Message>)
    ensures a + (b + more) == a + b + more
  {
  }

  /** An accepted stream stays accepted when ordinary messages follow it, and they are what its replay gains. */
  lemma {:induction false} ReplayExtends(stream: seq<Message>, more: seq<Message>)
    requires Accepts(stream) && Unmarked(more)
    ensures Accepts(stream + more) && Replay(stream + more) == Replay(stream) + more
  {
    UnmarkedAfter(stream, more);
    if Markers(stream) != [] {
      MarkersAreMarkers(stream);
      AcceptedContiguous(Markers(stream), |stream|);
      RebuildExtends(stream, more, Ranges(Markers(stream)), 0);
    }
  }

  // ---------------------------------------------------------------------
  // One more run
  // ---------------------------------------------------------------------

  lemma {:induction false} UnmarkedExactly(messages: seq<Message>)
    ensures Unmarked(messages) <==> Markers(messages) == []
  {
    if messages != [] {
      var n := |messages| - 1;
      UnmarkedExactly(messages[..n]);
      assert messages == messages[..n] + [messages[n]];
      UnmarkedJoin(messages[..n], [messages[n]]);
      assert [messages[n]][0] == messages[n];
    }
  }

  lemma {:induction false} MarkersBehind(history: seq<Message>, prompts: seq<Message>, own: seq<Message>)
    requires Unmarked(prompts)
    ensures Markers(history + (prompts + own)) == Markers(history) + Shifted(Markers(own), |history| + |prompts|)
  {
    UnmarkedAfter(history, prompts);
    MarkersJoin(history + prompts, own);
    assert history + (prompts + own) == history + prompts + own;
  }

  /** Messages that a run with this compaction point may have added. */
  ghost predicate AddedBy(history: seq<Message>, added: seq<Message>, last: int) {
    && Numbered(history + added, |Markers(history)|, last)
    && (last < 0 <==> Unmarked(added))
    && (last >= 0 && Markers(history) != [] ==> Restarts(history, history + added))
  }

  /** What a run adds to a transcript: nothing but ordinary messages when it does not compact, and otherwise markers
      numbered from zero behind those of the transcript. */
  lemma {:induction false} RunAdds(config: Config, entry: Entry, environment: seq<Turn>)
    requires ValidConfig(config) && ValidEnvironment(environment) && UnmarkedEnvironment(environment)
    requires UnmarkedEntry(entry)
    ensures var s := Run(config, Start(entry), environment); AddedBy(entry.history, s.newMessages, s.last)
  {
    StartRecords(entry);
    RunKeepsRecord(FirstContext(entry), entry.prompts, config, Start(entry), environment);
    RecordAdds(FirstContext(entry), entry.prompts, Run(config, Start(entry), environment), entry.history);
  }

  lemma {:induction false} RecordAdds(base: seq<Message>, prompts: seq<Message>, s: Loop, history: seq<Message>)
    requires Records(base, prompts, s) && Unmarked(prompts)
    ensures AddedBy(history, s.newMessages, s.last)
  {
    OwnMarkers(history, prompts, s.newMessages[|prompts|..], s.newMessages, s.last);
  }

  lemma {:induction false} OwnMarkers(history: seq<Message>, prompts: seq<Message>, own: seq<Message>,
                                      added: seq<Message>, last: int)
    requires Unmarked(prompts) && Numbered(own, 0, last) && added == prompts + own
    ensures AddedBy(history, added, last)
  {
    MarkersBehind(history, prompts, own);
    UnmarkedExactly(own);
    UnmarkedJoin(prompts, own);
  }

  lemma {:induction false} UnmarkedJoin(a: seq<Message>, b: seq<Message>)
    ensures Unmarked(a + b) <==> Unmarked(a) && Unmarked(b)
  {
    if Unmarked(a + b) {
      assert forall i :: 0 <= i < |a| ==> a[i] == (a + b)[i];
      assert forall i :: 0 <= i < |b| ==> b[i] == (a + b)[|a| + i];
    }
  }

  /** The numbers of a single run's markers. */
  predicate FirstNumbering(stream: seq<Message>) {
    Markers(stream) != [] && Numbered(stream, 0, |Markers(stream)| - 1)
  }

  /** Compaction does not accumulate across runs: behind a run that compacted, the transcript of another run is accepted
      by the replay exactly when that one did not compact. Ordinary messages that follow are appended to what the replay
      gives either way. */
  lemma {:induction false} SecondRunDecidesReplay(entry: Entry, config: Config, environment: seq<Turn>,
                                                  more: seq<Message>)
    requires FirstNumbering(entry.history) && Accepts(entry.history)
    requires ValidConfig(config) && ValidEnvironment(environment) && UnmarkedEnvironment(environment)
    requires UnmarkedEntry(entry) && Unmarked(more)
    ensures var s := Run(config, Start(entry), environment);
            var stored := entry.history + s.newMessages;
            && (Accepts(stored) <==> s.last < 0)
            && Replay(stored) == (if s.last < 0 then Replay(entry.history) + s.newMessages else stored)
            && Replay(stored + more) == Replay(stored) + more
  {
    var s := Run(config, Start(entry), environment);
    var stored := entry.history + s.newMessages;
    RunAdds(config, entry, environment);
    if s.last < 0 {
      ReplayExtends(entry.history, s.newMessages);
      ReplayExtends(stored, more);
    } else {
      SecondCompactingRunIsNotReplayed(entry, config, environment, []);
      SecondCompactingRunIsNotReplayed(entry, config, environment, more);
      assert stored + [] == stored;
    }
  }

  /** Once it did, nothing whatever that is appended later brings the compactions back. */
  lemma {:induction false} SecondCompactingRunIsNotReplayed(entry: Entry, config: Config, environment: seq<Turn>,
                                                            more: seq<Message>)
    requires FirstNumbering(entry.history)
    requires ValidConfig(config) && ValidEnvironment(environment) && UnmarkedEnvironment(environment)
    requires UnmarkedEntry(entry)
    ensures var s := Run(config, Start(entry), environment);
            var stored := entry.history + s.newMessages;
            s.last >= 0 ==>
              Restarts(entry.history, stored) && !Accepts(stored + more) && Replay(stored + more) == stored + more
  {
    var s := Run(config, Start(entry), environment);
    RunAdds(config, entry, environment);
    if s.last >= 0 {
      StaysRejected(entry.history, |Markers(entry.history)| - 1, entry.history + s.newMessages, more);
    }
  }

  /** So every later run over that transcript starts from all of it, markers included. */
  lemma {:induction false} LaterRunsStartVerbatim(first: seq<Message>, stored: seq<Message>, later: Entry)
    requires FirstNumbering(first) && Restarts(first, stored)
    requires stored <= later.history && later.beforeTurnAbort.None?
    ensures Start(later).context == later.history + later.prompts
  {
    var all := later.history + later.prompts;
    StaysRejected(first, |Markers(first)| - 1, stored, all[|stored|..]);
    assert stored + all[|stored|..] == all;
    StartsFromReplay(later);
  }

  // ---------------------------------------------------------------------
  // Any number of runs
  // ---------------------------------------------------------------------

  /** One run over the transcript so far; the history of its entry is that transcript. */
  datatype Session = Session(config: Config, entry: Entry, environment: seq<Turn>)

  predicate ValidSession(x: Session) {
    && ValidConfig(x.config) && ValidEnvironment(x.environment) && UnmarkedEnvironment(x.environment)
    && UnmarkedEntry(x.entry)
  }

  function Outcome(transcript: seq<Message>, x: Session): Loop
    requires ValidSession(x)
  {
    Run(x.config, Start(x.entry.(history := transcript)), x.environment)
  }

  function Transcript(history: seq<Message>, sessions: seq<Session>): seq<Message>
    requires forall k :: 0 <= k < |sessions| ==> ValidSession(sessions[k])
  {
    if sessions == [] then history
    else
      var before := Transcript(history, sessions[..|sessions| - 1]);
      before + Outcome(before, sessions[|sessions| - 1]).newMessages
  }

  /** How many of the runs compacted. */
  function CompactingRuns(history: seq<Message>, sessions: seq<Session>): nat
    requires forall k :: 0 <= k < |sessions| ==> ValidSession(sessions[k])
  {
    if sessions == [] then 0
    else
      var earlier := sessions[..|sessions| - 1];
      CompactingRuns(history, earlier)
      + if Outcome(Transcript(history, earlier), sessions[|sessions| - 1]).last >= 0 then 1 else 0
  }

  ghost predicate Overruled(transcript: seq<Message>) {
    exists first :: FirstNumbering(first) && Restarts(first, transcript)
  }

  /** What the number of compacting runs says about the transcript they wrote. */
  ghost predicate Standing(transcript: seq<Message>, compacting: nat) {
    && (compacting == 0 ==> Unmarked(transcript))
    && (compacting == 1 ==> FirstNumbering(transcript) && Accepts(transcript))
    && (compacting >= 2 ==> Overruled(transcript))
  }

  lemma {:induction false} RestartsExtend(first: seq<Message>, stream: seq<Message>, more: seq<Message>)
    requires Restarts(first, stream)
    ensures Restarts(first, stream + more)
  {
    MarkersJoin(stream, more);
  }

  lemma {:induction false} FirstCompactingRun(transcript: seq<Message>, x: Session)
    requires ValidSession(x) && Unmarked(transcript) && Outcome(transcript, x).last >= 0
    ensures Standing(transcript + Outcome(transcript, x).newMessages, 1)
  {
    var entry := x.entry.(history := transcript);
    var s := Outcome(transcript, x);
    RunIsFaithful(x.config, entry, x.environment);
    RecordedAccepted(s.context, transcript + s.newMessages, s.last);
  }

  lemma {:induction false} OneMoreRun(transcript: seq<Message>, compacting: nat, x: Session)
    requires ValidSession(x) && Standing(transcript, compacting)
    ensures var s := Outcome(transcript, x);
            Standing(transcript + s.newMessages, compacting + if s.last >= 0 then 1 else 0)
  {
    var entry := x.entry.(history := transcript);
    var s := Outcome(transcript, x);
    RunAdds(x.config, entry, x.environment);
    if compacting == 0 && s.last >= 0 {
      FirstCompactingRun(transcript, x);
    } else if compacting == 1 && s.last < 0 {
      ReplayExtends(transcript, s.newMessages);
      UnmarkedAfter(transcript, s.newMessages);
    } else if compacting >= 2 {
      var first :| FirstNumbering(first) && Restarts(first, transcript);
      RestartsExtend(first, transcript, s.newMessages);
    }
  }

  lemma {:induction false} RunsStand(history: seq<Message>, sessions: seq<Session>)
    requires Unmarked(history) && forall k :: 0 <= k < |sessions| ==> ValidSession(sessions[k])
    ensures Standing(Transcript(history, sessions), CompactingRuns(history, sessions))
    decreases |sessions|
  {
    if sessions != [] {
      var earlier := sessions[..|sessions| - 1];
      RunsStand(history, earlier);
      OneMoreRun(Transcript(history, earlier), CompactingRuns(history, earlier), sessions[|sessions| - 1]);
    }
  }

  /** Any number of runs, one after another over one transcript: replay applies to it exactly when at most one of them
      compacted, and whatever ordinary messages follow are appended to what it gives. */
  lemma {:induction false} ReplayAppliesExactly(history: seq<Message>, sessions: seq<Session>, more: seq<Message>)
    requires Unmarked(history) && forall k :: 0 <= k < |sessions| ==> ValidSession(sessions[k])
    requires Unmarked(more)
    ensures var transcript := Transcript(history, sessions);
            && (Accepts(transcript) <==> CompactingRuns(history, sessions) <= 1)
            && (!Accepts(transcript) ==> Replay(transcript) == transcript)
            && Replay(transcript + more) == Replay(transcript) + more
  {
    RunsStand(history, sessions);
    var transcript, compacting := Transcript(history, sessions), CompactingRuns(history, sessions);
    if compacting == 0 {
      UnmarkedStream(transcript);
    }
    if compacting <= 1 {
      ReplayExtends(transcript, more);
    } else {
      var first :| FirstNumbering(first) && Restarts(first, transcript);
      StaysRejected(first, |Markers(first)| - 1, transcript, []);
      StaysRejected(first, |Markers(first)| - 1, transcript, more);
      assert transcript + [] == transcript;
    }
  }

  /** The context the next run starts from. */
  lemma {:induction false} NextRunStartsFrom(history: seq<Message>, sessions: seq<Session>, next: Entry)
    requires Unmarked(history) && forall k :: 0 <= k < |sessions| ==> ValidSession(sessions[k])
    requires next.history == Transcript(history, sessions) && Unmarked(next.prompts) && next.beforeTurnAbort.None?
    ensures Start(next).context
            == (if CompactingRuns(history, sessions) <= 1 then Replay(next.history) else next.history) + next.prompts
  {
    ReplayAppliesExactly(history, sessions, next.prompts);
    StartsFromReplay(next);
  }
}
