/** What the store's transactions write, field by field (packages/drift/src/state.ts). */
module DriftRecords {
  import opened Messages
  import opened Whitespace
  import opened DriftStore
  import Y = DriftSystem

  // ---------------------------------------------------------------------
  // A finish
  // ---------------------------------------------------------------------

  /** The new history row has what the run reported; every other row is as it was. */
  lemma {:induction false} FinishWritesTheRow(t: Tables, f: Finish, status: Status, now: int)
    requires !Repeated(t, f) && forall id :: id in t.runs ==> id <= t.lastRun
    ensures var next, id := SaveFinish(t, f, status, now), t.lastRun + 1;
            && next.lastRun == id && id in next.runs && next.runs - {id} == t.runs
            && var row := next.runs[id];
               && row.runId == f.runKey && row.sessionKey == f.sessionKey && row.skill == f.skill
               && row.status == status
               && row.startedAt == f.startedAt && row.runAt == now && row.finishedAt == Some(now)
               && row.briefing == Given(f.briefing) && row.messageResult == f.messageResult
               && row.hash == f.hash && row.draft == f.draft
  {
    var next, id := SaveFinish(t, f, status, now), t.lastRun + 1;
    assert id !in t.runs;
    assert next.runs - {id} == t.runs;
  }

  /** The skill's continuity counts one more run and remembers this one; a scratchpad stays unless a new one that is
      not blank was given, and so does every cursor entry that was not named, while a named one is replaced or, without
      a value, deleted. */
  lemma {:induction false} FinishWritesContinuity(t: Tables, f: Finish, status: Status, now: int)
    requires !Repeated(t, f)
    ensures var next := SaveFinish(t, f, status, now);
            && f.skill in next.continuum && next.continuum - {f.skill} == t.continuum - {f.skill}
            && var after := next.continuum[f.skill];
               && after.runCount == (if f.skill in t.continuum then t.continuum[f.skill].runCount else 0) + 1
               && after.lastRunAt == now && after.lastStatus == status && after.lastBriefing == Given(f.briefing)
               && after.scratchpad
                  == (if f.scratchpad.Some? && !Blank(f.scratchpad.value) then Given(f.scratchpad.value)
                      else if f.skill in t.continuum then t.continuum[f.skill].scratchpad
                      else Given(""))
               && forall key :: CursorEntry(after.cursor, t, f, key)
  {
    var next := SaveFinish(t, f, status, now);
    assert next.continuum - {f.skill} == t.continuum - {f.skill};
    forall key ensures CursorEntry(next.continuum[f.skill].cursor, t, f, key) {
    }
  }

  /** What becomes of one cursor entry. */
  predicate CursorEntry(after: map<string, string>, t: Tables, f: Finish, key: string) {
    if key in f.cursor then
      match f.cursor[key]
      case Some(value) => key in after && after[key] == value
      case None => key !in after
    else if f.skill in t.continuum && key in t.continuum[f.skill].cursor then
      key in after && after[key] == t.continuum[f.skill].cursor[key]
    else key !in after
  }

  /** The steps of the run, or without a key the unlinked ones of this moment, get the new row's id; no other moves. */
  lemma {:induction false} FinishLinksItsSteps(t: Tables, f: Finish, status: Status, now: int, k: nat)
    requires !Repeated(t, f)
    ensures var next := SaveFinish(t, f, status, now);
            && (k in next.steps <==> k in t.steps)
            && (k in t.steps ==>
                  var own := if f.runKey.Some? then t.steps[k].runKey == f.runKey
                             else t.steps[k].runId.None? && t.steps[k].createdAt == now;
                  next.steps[k] == if own then t.steps[k].(runId := Some(t.lastRun + 1)) else t.steps[k])
            && next.lastStep == t.lastStep
  {
  }

  /** The entries that have a type. */
  function Typed(entries: seq<JournalEntry>): seq<string> {
    if entries == [] then []
    else
      Typed(entries[..|entries| - 1])
      + if entries[|entries| - 1].entryType != "" then [entries[|entries| - 1].entryType] else []
  }

  /** The journal gained exactly these typed entries after its last row. */
  ghost predicate Gained(before: Journal, after: Journal, skill: string, typed: seq<string>, id: nat, now: int) {
    && after.last == before.last + |typed|
    && (forall k :: k in before.rows ==> k in after.rows && after.rows[k] == before.rows[k])
    && (forall k :: k in after.rows ==> k in before.rows || before.last < k <= after.last)
    && (forall i :: 0 <= i < |typed| ==>
          HasEntry(after, before.last + 1 + i, JournalRow(skill, typed[i], Some(id), now)))
  }

  predicate HasEntry(journal: Journal, k: nat, row: JournalRow) {
    k in journal.rows && journal.rows[k] == row
  }

  lemma {:induction false} GainedOne(before: Journal, mid: Journal, after: Journal, skill: string, typed: seq<string>,
                                     entry: string, id: nat, now: int)
    requires (forall k :: k in before.rows ==> k <= before.last) && Gained(before, mid, skill, typed, id, now)
    requires after == Journal(mid.rows[mid.last + 1 := JournalRow(skill, entry, Some(id), now)], mid.last + 1)
    ensures Gained(before, after, skill, typed + [entry], id, now)
  {
    var more := typed + [entry];
    forall k | k in after.rows ensures k in before.rows || before.last < k <= after.last {
      assert k in mid.rows || k == after.last;
    }
    forall k | k in before.rows ensures k in after.rows && after.rows[k] == before.rows[k] {
      assert k in mid.rows && k <= before.last <= mid.last;
    }
    forall i | 0 <= i < |more|
      ensures HasEntry(after, before.last + 1 + i, JournalRow(skill, more[i], Some(id), now))
    {
      if i < |typed| {
        assert HasEntry(mid, before.last + 1 + i, JournalRow(skill, typed[i], Some(id), now));
      }
    }
    assert after.last == before.last + |more|;
    assert Gained(before, after, skill, more, id, now);
  }

  lemma {:induction false} EntriesWritten(journal: Journal, skill: string, entries: seq<JournalEntry>, id: nat,
                                          now: int)
    requires forall k :: k in journal.rows ==> k <= journal.last
    ensures Gained(journal, AddEntries(journal, skill, entries, id, now), skill, Typed(entries), id, now)
  {
    var after := AddEntries(journal, skill, entries, id, now);
    if entries == [] {
      assert after == journal;
    } else {
      var n := |entries| - 1;
      var before, entry := AddEntries(journal, skill, entries[..n], id, now), entries[n].entryType;
      EntriesWritten(journal, skill, entries[..n], id, now);
      if entry != "" {
        assert after == Journal(before.rows[before.last + 1 := JournalRow(skill, entry, Some(id), now)],
                                before.last + 1);
        GainedOne(journal, before, after, skill, Typed(entries[..n]), entry, id, now);
        assert Typed(entries) == Typed(entries[..n]) + [entry];
      } else {
        assert after == before;
        assert Typed(entries) == Typed(entries[..n]);
      }
    }
  }

  /** The typed entries follow the journal's last row in order, under the new history row; earlier ones stay. */
  lemma {:induction false} FinishWritesTheJournal(t: Tables, f: Finish, status: Status, now: int)
    requires !Repeated(t, f) && forall k :: k in t.journal.rows ==> k <= t.journal.last
    ensures Gained(t.journal, SaveFinish(t, f, status, now).journal, f.skill, Typed(f.journal), t.lastRun + 1, now)
  {
    EntriesWritten(t.journal, f.skill, f.journal, t.lastRun + 1, now);
  }

  /** Either way the lease of the run ends, and no other. */
  lemma {:induction false} FinishEndsTheLease(t: Tables, f: Finish, status: Status, now: int)
    ensures var next := SaveFinish(t, f, status, now);
            && next.active == (if f.runKey.Some? then t.active - {f.runKey.value} else t.active)
            && (f.runKey.Some? && HasRun(t, f.runKey.value) ==> next == t.(active := next.active))
  {
  }

  // ---------------------------------------------------------------------
  // A recovery
  // ---------------------------------------------------------------------

  /** A stale run becomes a paused history row that carries its message, and counts for its skill; its cursor stays. */
  lemma {:induction false} RecoveryWrites(t: Tables, runId: string, now: int)
    requires runId in t.active && forall id :: id in t.runs ==> id <= t.lastRun
    ensures var next, id, row := RecoverOne(t, runId, now), t.lastRun + 1, t.active[runId];
            var skill := if row.skill == "" then "unknown" else row.skill;
            && next.active == t.active - {runId} && next.lastRun == id && id in next.runs && next.runs - {id} == t.runs
            && next.steps == t.steps && next.journal == t.journal && next.lastStep == t.lastStep
            && next.runs[id] == RunRow(Some(runId), row.sessionKey, row.startedAt, row.startedAt, Some(now), skill,
                                       Paused, Interrupted, if row.hash == None then Silent else Staged,
                                       row.hash, row.draft)
            && skill in next.continuum && next.continuum - {skill} == t.continuum - {skill}
            && var after := next.continuum[skill];
               && after.runCount == (if skill in t.continuum then t.continuum[skill].runCount else 0) + 1
               && after.lastRunAt == row.startedAt && after.lastStatus == Paused
               && after.lastBriefing == Interrupted && after.scratchpad == Interrupted
               && after.cursor == (if skill in t.continuum then t.continuum[skill].cursor else map[])
  {
    var next, id := RecoverOne(t, runId, now), t.lastRun + 1;
    assert id !in t.runs;
    assert next.runs - {id} == t.runs;
    var skill := RecoveredSkill(t.active[runId]);
    assert next.continuum - {skill} == t.continuum - {skill};
  }

  /** A run counts as abandoned when its last update lies further back than the given time, or than nothing when that
      is negative. */
  lemma {:induction false} AbandonedExactly(rows: seq<string>, active: map<string, ActiveRow>, now: int,
                                            staleAfterMs: int, runId: string)
    requires IsScan(rows, active, Cutoff(now, staleAfterMs))
    ensures runId in rows <==>
              && runId in active
              && now - active[runId].updatedAt > if staleAfterMs >= 0 then staleAfterMs else 0
  {
  }

  // ---------------------------------------------------------------------
  // Delivery marks
  // ---------------------------------------------------------------------

  /** A successful delivery marks the rows of its run sent, a failed one nothing; a confirmation marks the staged rows
      with its hash. Nothing else of any row changes. */
  lemma {:induction false} MarksExactly(t: Tables, runId: string, success: bool, hash: string, id: nat)
    requires id in t.runs
    ensures var row := t.runs[id];
            && id in MarkDelivery(t, runId, success).runs && id in MarkSent(t, hash).runs
            && MarkDelivery(t, runId, success).runs[id]
               == (if success && row.runId == Some(runId) then row.(messageResult := Sent) else row)
            && MarkSent(t, hash).runs[id]
               == (if row.hash == Some(hash) && row.messageResult == Staged then row.(messageResult := Sent) else row)
  {
  }

  // ---------------------------------------------------------------------
  // What the tools of a run write
  // ---------------------------------------------------------------------

  /** The note of an ending. */
  function NoteOf(a: Y.Action): Y.FinishNote
    requires a.Idle? || a.EndFinish? || a.Pause?
  {
    match a
    case Idle(_, note) => note
    case EndFinish(_, _, note) => note
    case Pause(_, note) => note
  }

  /** The first ending of a run writes its history row: the skill it ended with, completed when it rested, paused when
      it was paused and as it reported otherwise, and with its staged message unless it rested. */
  lemma {:induction false} EndingWrites(s: Y.System, a: Y.Action, runId: string, next: Y.System)
    requires Y.Ends(a, runId) && Y.Enabled(s, a) && next == Y.Next(s, a) && !HasRun(s.tables, runId)
    requires forall id :: id in s.tables.runs ==> id <= s.tables.lastRun
    ensures runId in s.live && runId in next.live && next.live[runId].finished
    ensures s.tables.lastRun + 1 in next.tables.runs
    ensures var run, row, note := s.live[runId], next.tables.runs[s.tables.lastRun + 1], NoteOf(a);
            && row.runId == Some(runId) && row.sessionKey == run.sessionKey
            && row.startedAt == run.now && row.runAt == run.now && row.finishedAt == Some(run.now)
            && row.briefing == Given(note.briefing)
            && (a.Idle? ==> row.skill == "idle" && row.status == Completed)
            && (a.EndFinish? ==> row.skill == a.skill && row.status == note.status)
            && (a.Pause? ==>
                  row.status == Paused && row.skill == if run.selected == "" then "unknown" else run.selected)
            && (if run.staged && !a.Idle? then
                  row.messageResult == Staged && row.draft == run.draft
                  && row.hash == (if run.hash == "" then None else Some(run.hash))
                else row.messageResult == Silent && row.hash == None)
  {
    var run, note := s.live[runId], NoteOf(a);
    match a {
      case Idle(_, _) =>
        FinishWritesTheRow(s.tables, Y.IdleFinish(runId, run.(selected := "idle"), note), Completed, run.now);
      case EndFinish(_, skill, _) =>
        FinishWritesTheRow(s.tables, Y.FinishOf(runId, run, skill, note), note.status, run.now);
      case Pause(_, _) =>
        FinishWritesTheRow(s.tables, Y.FinishOf(runId, run, Y.PausedSkill(run), note), Paused, run.now);
    }
  }

  /** An unfinished run's own row, while it has its lease. */
  ghost predicate Leased(s: Y.System, runId: string) {
    runId in s.live && runId in s.tables.active
  }

  /** The lease row after each kind of progress: the stage reported, and of skill and message what came with it. */
  lemma {:induction false} ProgressWrites(s: Y.System, a: Y.Action, runId: string, next: Y.System)
    requires (a.Report? || a.Select? || a.Push? || a.BeginFinish?) && a.runId == runId
    requires Y.Enabled(s, a) && Leased(s, runId) && next == Y.Next(s, a)
    ensures Leased(next, runId)
    ensures var run, row, after := s.live[runId], s.tables.active[runId], next.tables.active[runId];
            && after.sessionKey == row.sessionKey && after.startedAt == row.startedAt && after.updatedAt == run.now
            && match a
               case Report(_, stage, withSkill, withMessage) =>
                 && after.stage == stage && after.skill == (if withSkill then run.selected else row.skill)
                 && after.draft == (if withMessage then run.draft else row.draft)
                 && (withMessage && run.staged && run.hash != "" ==> after.hash == Some(run.hash))
                 && (!withMessage || !run.staged ==> after.hash == if row.hash == Some("") then None else row.hash)
               case Select(_, skill) =>
                 && after.stage == Selected && after.skill == skill && after.draft == row.draft
                 && next.live[runId] == run.(selected := skill)
               case Push(_, hash, draft) =>
                 && after.stage == MessageStaged && after.skill == row.skill
                 && after.hash == Some(hash) && after.draft == draft
                 && next.live[runId] == run.(staged := true, hash := hash, draft := draft)
               case BeginFinish(_, skill) =>
                 && after.stage == Stage.Finishing && after.skill == skill && after.draft == run.draft
                 && next.live[runId] == run.(selected := skill)
               case _ => true
  {
  }

  /** A run starts by leasing its session when no other run holds it, and its context starts empty. */
  lemma {:induction false} StartWrites(s: Y.System, runId: string, sessionKey: string, now: int, next: Y.System)
    requires Y.Enabled(s, Y.Start(runId, sessionKey, now)) && next == Y.Next(s, Y.Start(runId, sessionKey, now))
    ensures runId in next.used
    ensures if exists r :: r in s.tables.active && s.tables.active[r].sessionKey == sessionKey then
              next == s.(used := next.used)
            else
              && Leased(next, runId)
              && next.tables.active[runId] == ActiveRow(sessionKey, now, now, Started, "", None, EMPTY_DRAFT)
              && next.live[runId] == Y.Run(sessionKey, now, "", false, "", EMPTY_DRAFT, false)
              && next.tables == s.tables.(active := next.tables.active)
              && next.tables.active - {runId} == s.tables.active - {runId}
  {
    assert Y.Next(s, Y.Start(runId, sessionKey, now)).tables.active - {runId} == s.tables.active - {runId};
  }

  // ---------------------------------------------------------------------
  // What the account of messages means
  // ---------------------------------------------------------------------

  /** The account knows every message that a lease row holds. */
  ghost predicate AccountKnows(s: Y.System) {
    forall r :: r in s.tables.active && s.tables.active[r].hash.Some? ==>
      Y.Pushed(r, s.tables.active[r].hash.value, s.tables.active[r].draft) in s.recorded
  }

  lemma {:induction false} FewerLeasesKnown(s: Y.System, next: Y.System)
    requires AccountKnows(s) && s.recorded <= next.recorded
    requires forall r :: r in next.tables.active ==>
               (r in s.tables.active && next.tables.active[r] == s.tables.active[r]) || next.tables.active[r].hash.None?
    ensures AccountKnows(next)
  {
  }

  lemma {:induction false} RecoveringLeases(s: Y.System, rows: seq<string>, now: int)
    requires forall x :: x in rows ==> x in s.tables.active
    requires forall i, j :: 0 <= i < j < |rows| ==> rows[i] != rows[j]
    ensures Y.Recovering(s, rows, now).recorded == s.recorded
  {
    if rows != [] {
      assert rows == rows[..|rows| - 1] + [rows[|rows| - 1]];
      RecoveringLeases(s, rows[..|rows| - 1], now);
    }
  }

  lemma {:induction false} StepKnown(s: Y.System, a: Y.Action)
    requires AccountKnows(s) && Y.Enabled(s, a)
    ensures AccountKnows(Y.Apply(s, a))
  {
    if a.Recover? {
      RecoveringLeases(s, a.rows, a.now);
      FewerLeasesKnown(s, Y.Apply(s, a));
    } else if a.Report? || a.Select? || a.Push? || a.BeginFinish? {
      ProgressKnown(s, a);
    } else {
      FewerLeasesKnown(s, Y.Apply(s, a));
    }
  }

  lemma {:induction false} ProgressKnown(s: Y.System, a: Y.Action)
    requires AccountKnows(s) && Y.Enabled(s, a) && (a.Report? || a.Select? || a.Push? || a.BeginFinish?)
    ensures AccountKnows(Y.Apply(s, a))
  {
  }

  /** Every message that is durable in some lease row is on the account that no message is lost from. */
  lemma {:induction false} DurableMessagesAreRecorded(actions: seq<Y.Action>)
    ensures AccountKnows(Y.After(Y.INITIAL, actions))
    decreases |actions|
  {
    if actions != [] {
      var n := |actions| - 1;
      DurableMessagesAreRecorded(actions[..n]);
      if Y.Enabled(Y.After(Y.INITIAL, actions[..n]), actions[n]) {
        StepKnown(Y.After(Y.INITIAL, actions[..n]), actions[n]);
      }
    }
  }

  /** A history row that says this message was sent. */
  ghost predicate SaysSent(t: Tables, m: Y.Pushed, id: nat) {
    && id in t.runs && t.runs[id].messageResult == Sent
    && t.runs[id].runId == Some(m.runId) && t.runs[id].hash == Some(m.hash) && t.runs[id].draft == m.draft
  }

  lemma {:induction false} RecoveringSends(s: Y.System, rows: seq<string>, now: int)
    requires forall x :: x in rows ==> x in s.tables.active
    requires forall i, j :: 0 <= i < j < |rows| ==> rows[i] != rows[j]
    ensures Y.Recovering(s, rows, now).sent == s.sent
  {
    if rows != [] {
      assert rows == rows[..|rows| - 1] + [rows[|rows| - 1]];
      RecoveringSends(s, rows[..|rows| - 1], now);
    }
  }

  /** A message enters the account of sent ones only by a delivery or a confirmation that leaves a history row saying
      so. */
  lemma {:induction false} SentOnlyWhenMarked(s: Y.System, a: Y.Action, m: Y.Pushed)
    requires m in Y.Next(s, a).sent && m !in s.sent
    ensures (a.Deliver? || a.Confirm?) && exists id :: SaysSent(Y.Next(s, a).tables, m, id)
  {
    if a.Recover? && Y.Enabled(s, a) {
      RecoveringSends(s, a.rows, a.now);
    }
    var t := Y.Next(s, a).tables;
    if a.Deliver? || a.Confirm? {
      var id :| id in t.runs && t.runs[id].messageResult == Sent && t.runs[id].runId == Some(m.runId)
                && t.runs[id].hash == Some(m.hash) && t.runs[id].draft == m.draft;
      assert SaysSent(t, m, id);
    }
  }

  /** A delivery decides the rows of its run: sent when it succeeded, staged again when it failed. A confirmation marks
      the staged rows with its hash sent. No other field and no other row changes. */
  lemma {:induction false} DeliveryWrites(s: Y.System, a: Y.Action, id: nat)
    requires (a.Deliver? || a.Confirm?) && Y.Enabled(s, a) && id in s.tables.runs
    ensures var next, row := Y.Next(s, a).tables, s.tables.runs[id];
            && next == s.tables.(runs := next.runs) && id in next.runs
            && next.runs[id]
               == (if a.Deliver? && row.runId == Some(a.runId) then
                     row.(messageResult := if a.success then Sent else Staged)
                   else if a.Confirm? && row.hash == Some(a.hash) && row.messageResult == Staged then
                     row.(messageResult := Sent)
                   else row)
  {
  }
}
