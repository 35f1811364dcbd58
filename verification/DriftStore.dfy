/** The durable tables of drift runs and the transactions over them (packages/drift/src/state.ts). */
module DriftStore {
  import opened Messages
  import opened Whitespace

  // ---------------------------------------------------------------------
  // Tables
  // ---------------------------------------------------------------------

  datatype Stage =
    | Started | Selected | Executing | MessageStaged | Finishing | DeliveryPending | DeliveryCommitted | RunFailed

  /** The outbound message of a run; its parts are always written together. */
  datatype Draft = Draft(message: string, media: seq<string>, attachments: seq<string>, channel: string, chatId: string)

  const EMPTY_DRAFT := Draft("", [], [], "", "")

  /** A row of drift_active_runs; the run id is the table's key. */
  datatype ActiveRow = ActiveRow(sessionKey: string, startedAt: int, updatedAt: int, stage: Stage, skill: string,
                                 hash: Option<string>, draft: Draft)

  datatype Status = Completed | Paused

  datatype MessageResult = Silent | Staged | Sent

  datatype Text = Given(text: string) | Interrupted

  /** A row of runs; finishedAt is null only in rows older than the column. */
  datatype RunRow = RunRow(runId: Option<string>, sessionKey: string, runAt: int, startedAt: int,
                           finishedAt: Option<int>, skill: string, status: Status, briefing: Text,
                             messageResult: MessageResult, hash: Option<string>, draft: Draft)

  datatype Continuum = Continuum(runCount: nat, lastRunAt: int, lastStatus: Status, lastBriefing: Text,
                                 scratchpad: Text, cursor: map<string, string>)

  datatype StepRow = StepRow(runId: Option<nat>, runKey: Option<string>, index: nat, tool: string, createdAt: int)

  datatype JournalRow = JournalRow(skill: string, entry: string, runId: Option<nat>, createdAt: int)

  /** Journal rows by their AUTOINCREMENT id, and its counter. */
  datatype Journal = Journal(rows: map<nat, JournalRow>, last: nat)

  /** runs and steps are keyed by their AUTOINCREMENT ids too, with counters lastRun and lastStep. */
  datatype Tables = Tables(active: map<string, ActiveRow>, runs: map<nat, RunRow>, continuum: map<string, Continuum>,
                           steps: map<nat, StepRow>, journal: Journal, lastRun: nat, lastStep: nat)

  const NO_TABLES := Tables(map[], map[], map[], map[], Journal(map[], 0), 0, 0)

  const MIN_STALE_MS := 60000
  const DEFAULT_STALE_MS := 1800000

  function Max(a: int, b: int): int {
    if a >= b then a else b
  }

  // ---------------------------------------------------------------------
  // Claim, progress, release
  // ---------------------------------------------------------------------

  datatype Claimed = Leased | AlreadyActive(activeRunId: string) | KeyConflict

  /** The run holding the session's lease, when there is one. */
  ghost predicate Holds(t: Tables, runId: string, sessionKey: string) {
    runId in t.active && t.active[runId].sessionKey == sessionKey
  }

  ghost predicate SessionFree(t: Tables, sessionKey: string) {
    forall r :: r in t.active ==> t.active[r].sessionKey != sessionKey
  }

  function Claim(t: Tables, runId: string, sessionKey: string, now: int): Tables {
    t.(active := t.active[runId := ActiveRow(sessionKey, now, now, Started, "", None, EMPTY_DRAFT)])
  }

  /** The fields a progress update carries; an absent one keeps the stored value. */
  datatype Progress = Progress(stage: Stage, skill: Option<string>, hash: Option<string>, draft: Option<Draft>)

  function Pick<T>(given: Option<T>, stored: T): T {
    match given
    case Some(value) => value
    case None => stored
  }

  function NonEmpty(s: string): Option<string> {
    if s == "" then None else Some(s)
  }

  function Advanced(row: ActiveRow, p: Progress, now: int): ActiveRow {
    row.(updatedAt := now, stage := p.stage, skill := Pick(p.skill, row.skill),
         hash := NonEmpty(Pick(p.hash, Pick(row.hash, ""))), draft := Pick(p.draft, row.draft))
  }

  function UpdateProgress(t: Tables, runId: string, p: Progress, now: int): Tables {
    if runId in t.active then t.(active := t.active[runId := Advanced(t.active[runId], p, now)]) else t
  }

  function Release(t: Tables, runId: string): Tables {
    t.(active := t.active - {runId})
  }

  // ---------------------------------------------------------------------
  // Recovery of abandoned runs
  // ---------------------------------------------------------------------

  /** The order in which the recovery query yields the stale rows: each once, oldest update first. */
  ghost predicate IsScan(order: seq<string>, active: map<string, ActiveRow>, cutoff: int) {
    && (forall r :: r in order <==> r in active && active[r].updatedAt < cutoff)
    && (forall i, j :: 0 <= i < j < |order| ==> order[i] != order[j])
    && (forall i, j :: 0 <= i < j < |order| && order[i] in active && order[j] in active ==>
          active[order[i]].updatedAt <= active[order[j]].updatedAt)
  }

  function RecoveredSkill(row: ActiveRow): string {
    if row.skill == "" then "unknown" else row.skill
  }

  function RecoveredRun(runId: string, row: ActiveRow, now: int): RunRow {
    RunRow(Some(runId), row.sessionKey, row.startedAt, row.startedAt, Some(now), RecoveredSkill(row), Paused,
           Interrupted, if row.hash.Some? then Staged else Silent, row.hash, row.draft)
  }

  function RunCount(t: Tables, skill: string): nat {
    if skill in t.continuum then t.continuum[skill].runCount else 0
  }

  function StoredCursor(t: Tables, skill: string): map<string, string> {
    if skill in t.continuum then t.continuum[skill].cursor else map[]
  }

  function RecoverOne(t: Tables, runId: string, now: int): Tables
    requires runId in t.active
  {
    var row := t.active[runId];
    var skill := RecoveredSkill(row);
    t.(runs := t.runs[t.lastRun + 1 := RecoveredRun(runId, row, now)],
       lastRun := t.lastRun + 1,
       continuum := t.continuum[skill := Continuum(RunCount(t, skill) + 1, row.startedAt, Paused, Interrupted,
                                                   Interrupted, StoredCursor(t, skill))],
       active := t.active - {runId})
  }

  function RecoverAll(t: Tables, order: seq<string>, now: int): (r: Tables)
    requires forall x :: x in order ==> x in t.active
    requires forall i, j :: 0 <= i < j < |order| ==> order[i] != order[j]
    ensures forall x :: x in r.active <==> x in t.active && x !in order
    ensures forall x :: x in r.active ==> r.active[x] == t.active[x]
  {
    if order == [] then t
    else
      var last := order[|order| - 1];
      assert order == order[..|order| - 1] + [last];
      RecoverOne(RecoverAll(t, order[..|order| - 1], now), last, now)
  }

  lemma {:induction false} RecoverAllSnoc(t: Tables, rows: seq<string>, i: nat, now: int)
    requires i < |rows|
    requires forall x :: x in rows ==> x in t.active
    requires forall a, b :: 0 <= a < b < |rows| ==> rows[a] != rows[b]
    ensures rows[i] in RecoverAll(t, rows[..i], now).active
    ensures RecoverAll(t, rows[..i + 1], now) == RecoverOne(RecoverAll(t, rows[..i], now), rows[i], now)
  {
    assert rows[..i + 1][..i] == rows[..i];
  }

  function Cutoff(now: int, staleAfterMs: int): int {
    now - Max(0, staleAfterMs)
  }

  // ---------------------------------------------------------------------
  // Finish
  // ---------------------------------------------------------------------

  datatype StatusText = Valid(status: Status) | Invalid

  datatype JournalEntry = JournalEntry(entryType: string, payload: string)

  datatype Finish = Finish(runKey: Option<string>, sessionKey: string, startedAt: int, skill: string,
                           status: StatusText, briefing: string, messageResult: MessageResult,
                             scratchpad: Option<string>, cursor: map<string, Option<string>>,
                               journal: seq<JournalEntry>, hash: Option<string>, draft: Draft)

  predicate HasRun(t: Tables, runKey: string) {
    exists id :: id in t.runs && t.runs[id].runId == Some(runKey)
  }

  function FinishedRun(f: Finish, status: Status, now: int): RunRow {
    RunRow(f.runKey, f.sessionKey, now, f.startedAt, Some(now), f.skill, status, Given(f.briefing), f.messageResult,
           f.hash, f.draft)
  }

  /** A null value deletes the key, any other replaces it. */
  function MergedCursor(stored: map<string, string>, update: map<string, Option<string>>): map<string, string> {
    map k | k in stored.Keys + update.Keys && (k in update ==> update[k].Some?) ::
      if k in update then update[k].value else stored[k]
  }

  function FinishedContinuum(t: Tables, f: Finish, status: Status, now: int): Continuum {
    Continuum(RunCount(t, f.skill) + 1, now, status, Given(f.briefing),
              if f.scratchpad.Some? && !Blank(f.scratchpad.value) then Given(f.scratchpad.value)
              else if f.skill in t.continuum then t.continuum[f.skill].scratchpad else Given(""),
              MergedCursor(StoredCursor(t, f.skill), f.cursor))
  }

  predicate Links(step: StepRow, runKey: Option<string>, now: int) {
    if runKey.Some? then step.runKey == runKey else step.runId.None? && step.createdAt == now
  }

  /** The steps of the run get the id of its history row. */
  function LinkSteps(steps: map<nat, StepRow>, runKey: Option<string>, id: nat, now: int): map<nat, StepRow> {
    map k | k in steps :: if Links(steps[k], runKey, now) then steps[k].(runId := Some(id)) else steps[k]
  }

  /** Appends the entries to the journal; those without a type are skipped. */
  function AddEntries(journal: Journal, skill: string, entries: seq<JournalEntry>, id: nat, now: int): Journal {
    if entries == [] then journal
    else
      var entry := entries[|entries| - 1];
      var before := AddEntries(journal, skill, entries[..|entries| - 1], id, now);
      if entry.entryType == "" then before
      else Journal(before.rows[before.last + 1 := JournalRow(skill, entry.entryType, Some(id), now)], before.last + 1)
  }

  function WithoutKey(active: map<string, ActiveRow>, runKey: Option<string>): map<string, ActiveRow> {
    if runKey.Some? then active - {runKey.value} else active
  }

  function InsertFinish(t: Tables, f: Finish, status: Status, now: int): Tables {
    var id := t.lastRun + 1;
    t.(runs := t.runs[id := FinishedRun(f, status, now)],
       lastRun := id,
       steps := LinkSteps(t.steps, f.runKey, id, now),
       continuum := t.continuum[f.skill := FinishedContinuum(t, f, status, now)],
       journal := AddEntries(t.journal, f.skill, f.journal, id, now),
       active := WithoutKey(t.active, f.runKey))
  }

  predicate Repeated(t: Tables, f: Finish) {
    f.runKey.Some? && HasRun(t, f.runKey.value)
  }

  /** Recording a finish; repeating one only gives the lease back. */
  function SaveFinish(t: Tables, f: Finish, status: Status, now: int): Tables {
    if Repeated(t, f) then Release(t, f.runKey.value) else InsertFinish(t, f, status, now)
  }

  // ---------------------------------------------------------------------
  // Delivery marks and steps
  // ---------------------------------------------------------------------

  /** The WHERE clause of an update of message results. */
  datatype Selector = OfRun(runId: string) | OfId(id: nat) | StagedWith(hash: string)

  predicate Selects(which: Selector, id: nat, row: RunRow) {
    match which
    case OfRun(runId) => row.runId == Some(runId)
    case OfId(wanted) => id == wanted
    case StagedWith(hash) => row.hash == Some(hash) && row.messageResult == Staged
  }

  function WithResults(runs: map<nat, RunRow>, which: Selector, result: MessageResult): map<nat, RunRow> {
    map id | id in runs ::
      if Selects(which, id, runs[id]) then runs[id].(messageResult := result) else runs[id]
  }

  function SetResults(t: Tables, which: Selector, result: MessageResult): Tables {
    t.(runs := WithResults(t.runs, which, result))
  }

  /** Only a successful delivery turns the message result into sent. */
  function MarkDelivery(t: Tables, runId: string, success: bool): Tables {
    if success then SetResults(t, OfRun(runId), Sent) else t
  }

  function MarkSent(t: Tables, hash: string): Tables {
    SetResults(t, StagedWith(hash), Sent)
  }

  function AppendStep(t: Tables, step: StepRow): Tables {
    t.(steps := t.steps[t.lastStep + 1 := step.(runId := None)], lastStep := t.lastStep + 1)
  }

  // ---------------------------------------------------------------------
  // The store
  // ---------------------------------------------------------------------

  /** The database file several processes share. */
  class Database {
    var tables: Tables

    constructor ()
      ensures tables == NO_TABLES
    {
      tables := NO_TABLES;
    }
  }

  datatype StartResult = Lease(startedAt: int) | Conflict(activeRunId: string) | KeysRequired | DuplicateRunId

  class DriftStateStore {
    const db: Database
    var lastSavedRunId: Option<nat>

    constructor (shared: Database)
      ensures db == shared && lastSavedRunId == None
    {
      db := shared;
      lastSavedRunId := None;
    }

    /** One stale row: history gains a paused run, the skill's continuum one more run, the lease ends. */
    method RecoverRow(t: Tables, runId: string, now: int) returns (next: Tables)
      requires runId in t.active
      ensures next == RecoverOne(t, runId, now)
    {
      var row := t.active[runId];
      var skill := if row.skill == "" then "unknown" else row.skill;
      var id := t.lastRun + 1;
      next := t.(runs := t.runs[id := RecoveredRun(runId, row, now)], lastRun := id);
      var count := if skill in t.continuum then t.continuum[skill].runCount else 0;
      var cursor := if skill in t.continuum then t.continuum[skill].cursor else map[];
      next := next.(continuum :=
        next.continuum[skill := Continuum(count + 1, row.startedAt, Paused, Interrupted, Interrupted, cursor)]);
      next := next.(active := next.active - {runId});
    }

    /** Recovery transaction; rows is what the stale-run query returned. */
    method RecoverAbandonedRuns(now: int, staleAfterMs: int, rows: seq<string>) returns (recovered: nat)
      requires IsScan(rows, db.tables.active, Cutoff(now, staleAfterMs))
      modifies db
      ensures db.tables == RecoverAll(old(db.tables), rows, now) && recovered == |rows|
    {
      ghost var before := db.tables;
      var t := db.tables;
      for i := 0 to |rows|
        invariant t == RecoverAll(before, rows[..i], now)
        invariant db.tables == before
      {
        RecoverAllSnoc(before, rows, i, now);
        t := RecoverRow(t, rows[i], now);
      }
      assert rows[..|rows|] == rows;
      db.tables := t;
      recovered := |rows|;
    }

    /** Claims the session after recovering what was abandoned; the claim is refused while another run holds it. */
    method StartRun(runId: string, sessionKey: string, now: int, staleAfterMs: Option<int>, rows: seq<string>)
        returns (result: StartResult)
      requires IsScan(rows, db.tables.active, Cutoff(now, Max(MIN_STALE_MS, Pick(staleAfterMs, DEFAULT_STALE_MS))))
      modifies db
      ensures result.KeysRequired? <==> runId == "" || sessionKey == ""
      ensures result.KeysRequired? ==> db.tables == old(db.tables)
      ensures !result.KeysRequired? ==>
                var t := RecoverAll(old(db.tables), rows, now);
                match result
                case Lease(startedAt) =>
                  SessionFree(t, sessionKey) && runId !in t.active && startedAt == now
                  && db.tables == Claim(t, runId, sessionKey, now)
                case Conflict(activeRunId) => Holds(t, activeRunId, sessionKey) && db.tables == t
                case DuplicateRunId => SessionFree(t, sessionKey) && runId in t.active && db.tables == t
                case KeysRequired => false
    {
      if runId == "" || sessionKey == "" {
        return KeysRequired;
      }
      var _ := RecoverAbandonedRuns(now, Max(MIN_STALE_MS, Pick(staleAfterMs, DEFAULT_STALE_MS)), rows);
      var t := db.tables;
      var holders := set r | r in t.active && t.active[r].sessionKey == sessionKey;
      if holders != {} {
        var holder :| holder in holders;
        return Conflict(holder);
      }
      assert SessionFree(t, sessionKey) by {
        forall r | r in t.active ensures t.active[r].sessionKey != sessionKey {
          assert r !in holders;
        }
      }
      if runId in t.active {
        return DuplicateRunId;
      }
      db.tables := t.(active := t.active[runId := ActiveRow(sessionKey, now, now, Started, "", None, EMPTY_DRAFT)]);
      return Lease(now);
    }

    method UpdateRunProgress(runId: string, p: Progress, now: int)
      modifies db
      ensures db.tables == UpdateProgress(old(db.tables), runId, p, now)
    {
      if runId !in db.tables.active {
        return;
      }
      var current := db.tables.active[runId];
      var skill := if p.skill.Some? then p.skill.value else current.skill;
      var hash := if p.hash.Some? then p.hash.value else if current.hash.Some? then current.hash.value else "";
      var draft := if p.draft.Some? then p.draft.value else current.draft;
      var row := ActiveRow(current.sessionKey, current.startedAt, now, p.stage, skill,
                           if hash == "" then None else Some(hash), draft);
      db.tables := db.tables.(active := db.tables.active[runId := row]);
    }

    method ReleaseActiveRun(runId: string)
      modifies db
      ensures db.tables == if runId == "" then old(db.tables) else Release(old(db.tables), runId)
    {
      if runId == "" {
        return;
      }
      db.tables := db.tables.(active := db.tables.active - {runId});
    }

    method FindRun(runKey: string) returns (found: Option<nat>)
      ensures found.Some? <==> HasRun(db.tables, runKey)
      ensures found.Some? ==> found.value in db.tables.runs && db.tables.runs[found.value].runId == Some(runKey)
    {
      var t := db.tables;
      var ids := set id | id in t.runs && t.runs[id].runId == Some(runKey);
      if ids == {} {
        assert forall id :: id in t.runs ==> t.runs[id].runId == Some(runKey) ==> id in ids;
        return None;
      }
      var id :| id in ids;
      return Some(id);
    }

    method AppendJournalEntries(journal: Journal, skill: string, entries: seq<JournalEntry>, id: nat, now: int)
        returns (written: Journal)
      ensures written == AddEntries(journal, skill, entries, id, now)
    {
      written := journal;
      for i := 0 to |entries|
        invariant written == AddEntries(journal, skill, entries[..i], id, now)
      {
        assert entries[..i + 1][..i] == entries[..i];
        if entries[i].entryType != "" {
          var row := JournalRow(skill, entries[i].entryType, Some(id), now);
          written := Journal(written.rows[written.last + 1 := row], written.last + 1);
        }
      }
      assert entries[..|entries|] == entries;
    }

    /** Returns false, changing nothing, for a status that is neither completed nor paused. */
    method Save(f: Finish, now: int) returns (ok: bool)
      modifies db, this`lastSavedRunId
      ensures ok <==> f.status.Valid?
      ensures ok ==> db.tables == SaveFinish(old(db.tables), f, f.status.status, now)
      ensures ok ==> lastSavedRunId.Some? && lastSavedRunId.value in db.tables.runs
                     && db.tables.runs[lastSavedRunId.value].runId == f.runKey
      ensures ok && !Repeated(old(db.tables), f) ==> lastSavedRunId == Some(db.tables.lastRun)
      ensures !ok ==> db.tables == old(db.tables) && lastSavedRunId == old(lastSavedRunId)
    {
      if f.status.Invalid? {
        return false;
      }
      var t := db.tables;
      if f.runKey.Some? {
        var existing := FindRun(f.runKey.value);
        if existing.Some? {
          db.tables := t.(active := t.active - {f.runKey.value});
          lastSavedRunId := existing;
          return true;
        }
      }
      var id := t.lastRun + 1;
      t := t.(runs := t.runs[id := FinishedRun(f, f.status.status, now)], lastRun := id);
      lastSavedRunId := Some(id);
      t := t.(steps := LinkSteps(t.steps, f.runKey, id, now));
      t := t.(continuum := t.continuum[f.skill := FinishedContinuum(t, f, f.status.status, now)]);
      var journal := AppendJournalEntries(t.journal, f.skill, f.journal, id, now);
      t := t.(journal := journal);
      if f.runKey.Some? {
        t := t.(active := t.active - {f.runKey.value});
      }
      db.tables := t;
      ok := true;
    }

    /** By run id when one is given, otherwise the row this process saved last. */
    method UpdateLastMessageResult(result: MessageResult, runId: string)
      modifies db
      ensures runId != "" ==> db.tables == SetResults(old(db.tables), OfRun(runId), result)
      ensures runId == "" && lastSavedRunId.None? ==> db.tables == old(db.tables)
      ensures runId == "" && lastSavedRunId.Some? ==>
                db.tables == SetResults(old(db.tables), OfId(lastSavedRunId.value), result)
    {
      if runId != "" {
        db.tables := SetResults(db.tables, OfRun(runId), result);
      } else if lastSavedRunId.Some? {
        db.tables := SetResults(db.tables, OfId(lastSavedRunId.value), result);
      }
    }

    method RecordStep(step: StepRow)
      modifies db
      ensures db.tables == AppendStep(old(db.tables), step)
    {
      var id := db.tables.lastStep + 1;
      var row := StepRow(None, step.runKey, step.index, step.tool, step.createdAt);
      db.tables := db.tables.(steps := db.tables.steps[id := row], lastStep := id);
    }
  }
}
