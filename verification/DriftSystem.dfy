/** Several processes sharing the drift tables: one atomic transaction of some process at a time. */
module DriftSystem {
  import opened Messages
  import opened DriftStore
  import R = DriftRetention

  // ---------------------------------------------------------------------
  // State
  // ---------------------------------------------------------------------

  /** The in-memory context of one run; a process that crashes loses it. */
  datatype Run = Run(sessionKey: string, now: int, selected: string, staged: bool, hash: string, draft: Draft,
                     finished: bool)

  datatype Pushed = Pushed(runId: string, hash: string, draft: Draft)

  /** The tables and live contexts, with what happened so far: run ids ever used, messages durably recorded and
      marked sent, and for each run id and skill how often a finish was recorded or a history row pruned. */
  datatype System = System(tables: Tables, live: map<string, Run>, used: set<string>,
                           recorded: set<Pushed>, sent: set<Pushed>,
                           finishes: multiset<string>, counted: multiset<string>, removed: multiset<string>)

  const INITIAL := System(NO_TABLES, map[], {}, {}, {}, multiset{}, multiset{}, multiset{})

  datatype FinishNote = FinishNote(status: Status, briefing: string, scratchpad: Option<string>,
                                   cursor: map<string, Option<string>>, journal: seq<JournalEntry>)

  datatype Action =
    | Recover(now: int, staleAfterMs: int, rows: seq<string>)
    | Start(runId: string, sessionKey: string, now: int)
    | Report(runId: string, stage: Stage, withSkill: bool, withMessage: bool)
    | Select(runId: string, skill: string)
    | Idle(runId: string, note: FinishNote)
    | Push(runId: string, hash: string, draft: Draft)
    | BeginFinish(runId: string, skill: string)
    | EndFinish(runId: string, skill: string, note: FinishNote)
    | Pause(runId: string, note: FinishNote)
    | GiveBack(runId: string)
    | Crash(runId: string)
    | Deliver(runId: string, success: bool)
    | Confirm(hash: string)
    | Prune(id: nat)
    | LogStep(step: StepRow)

  // ---------------------------------------------------------------------
  // Transitions
  // ---------------------------------------------------------------------

  predicate Working(s: System, runId: string) {
    runId in s.live && !s.live[runId].finished
  }

  /** When an action can happen: the run id is fresh on start, a tool's own checks and the phase allowlist pass. */
  ghost predicate Enabled(s: System, a: Action) {
    match a
    case Recover(now, staleAfterMs, rows) => IsScan(rows, s.tables.active, Cutoff(now, staleAfterMs))
    case Start(runId, sessionKey, _) => runId != "" && sessionKey != "" && runId !in s.used
    case Report(runId, _, _, _) => runId in s.live
    case Select(runId, skill) => Working(s, runId) && skill != "" && s.live[runId].selected in {"", skill}
    case Idle(runId, _) => Working(s, runId) && s.live[runId].selected == ""
    case Push(runId, hash, _) =>
      Working(s, runId) && s.live[runId].selected != "" && !s.live[runId].staged && hash != ""
    case BeginFinish(runId, skill) => Working(s, runId) && skill != "" && s.live[runId].selected in {"", skill}
    case EndFinish(runId, skill, _) => Working(s, runId) && skill != "" && s.live[runId].selected == skill
    case Pause(runId, _) => Working(s, runId)
    case GiveBack(runId) => runId in s.live && s.live[runId].finished
    case Crash(runId) => runId in s.live
    case Deliver(runId, _) => runId != ""
    case Confirm(hash) => hash != ""
    case Prune(id) => R.Terminal(s.tables, id)
    case LogStep(_) => true
  }

  function StagedHash(run: Run): Option<string> {
    if run.staged then NonEmpty(run.hash) else None
  }

  /** The skill a pause names when none was selected is the word unknown. */
  function PausedSkill(run: Run): string {
    if run.selected == "" then "unknown" else run.selected
  }

  function FinishOf(runId: string, run: Run, skill: string, note: FinishNote): Finish {
    Finish(Some(runId), run.sessionKey, run.now, skill, Valid(note.status), note.briefing,
           if run.staged then Staged else Silent, note.scratchpad, note.cursor, note.journal,
           StagedHash(run), run.draft)
  }

  /** Resting is recorded without any message. */
  function IdleFinish(runId: string, run: Run, note: FinishNote): Finish {
    Finish(Some(runId), run.sessionKey, run.now, "idle", Valid(Completed), note.briefing, Silent, None, map[], [], None,
           EMPTY_DRAFT)
  }

  function Recorded(t: Tables, runId: string): set<Pushed> {
    if runId in t.active && t.active[runId].hash.Some? then
      {Pushed(runId, t.active[runId].hash.value, t.active[runId].draft)}
    else {}
  }

  function Progressing(s: System, runId: string, run: Run, p: Progress): System {
    var t := UpdateProgress(s.tables, runId, p, run.now);
    s.(tables := t, live := s.live[runId := run], recorded := s.recorded + Recorded(t, runId))
  }

  function FinishRun(s: System, runId: string, run: Run, f: Finish, status: Status): System {
    var t := SaveFinish(s.tables, f, status, run.now);
    var done := s.(tables := t, live := s.live[runId := run.(finished := true)]);
    if Repeated(s.tables, f) then done
    else done.(finishes := s.finishes + multiset{runId}, counted := s.counted + multiset{f.skill})
  }

  function RecoverRun(s: System, runId: string, now: int): System
    requires runId in s.tables.active
  {
    s.(tables := RecoverOne(s.tables, runId, now), finishes := s.finishes + multiset{runId},
       counted := s.counted + multiset{RecoveredSkill(s.tables.active[runId])})
  }

  function Recovering(s: System, rows: seq<string>, now: int): (r: System)
    requires forall x :: x in rows ==> x in s.tables.active
    requires forall i, j :: 0 <= i < j < |rows| ==> rows[i] != rows[j]
    ensures r.tables == RecoverAll(s.tables, rows, now)
  {
    if rows == [] then s
    else
      var last := rows[|rows| - 1];
      assert rows == rows[..|rows| - 1] + [last];
      RecoverRun(Recovering(s, rows[..|rows| - 1], now), last, now)
  }

  function SentMessages(t: Tables): set<Pushed> {
    set id | id in t.runs && t.runs[id].messageResult == Sent && t.runs[id].runId.Some? && t.runs[id].hash.Some? ::
      Pushed(t.runs[id].runId.value, t.runs[id].hash.value, t.runs[id].draft)
  }

  function Marking(s: System, t: Tables): System {
    s.(tables := t, sent := s.sent + SentMessages(t))
  }

  function Starting(s: System, runId: string, sessionKey: string, now: int): System {
    s.(tables := Claim(s.tables, runId, sessionKey, now), used := s.used + {runId},
       live := s.live[runId := Run(sessionKey, now, "", false, "", EMPTY_DRAFT, false)])
  }

  function Removing(s: System, id: nat): System
    requires id in s.tables.runs
  {
    var t := R.Without(s.tables, {id});
    match s.tables.runs[id].runId
    case Some(runId) => s.(tables := t, removed := s.removed + multiset{runId})
    case None => s.(tables := t)
  }

  ghost function Apply(s: System, a: Action): System
    requires Enabled(s, a)
  {
    match a
    case Recover(now, _, rows) => Recovering(s, rows, now)
    case Start(runId, sessionKey, now) =>
      if SessionFree(s.tables, sessionKey) then Starting(s, runId, sessionKey, now) else s.(used := s.used + {runId})
    case Report(runId, stage, withSkill, withMessage) =>
      var run := s.live[runId];
      Progressing(s, runId, run,
                  Progress(stage, if withSkill then Some(run.selected) else None,
                           if withMessage then StagedHash(run) else None,
                           if withMessage then Some(run.draft) else None))
    case Select(runId, skill) =>
      Progressing(s, runId, s.live[runId].(selected := skill), Progress(Selected, Some(skill), None, None))
    case Idle(runId, note) =>
      var run := s.live[runId].(selected := "idle");
      FinishRun(s, runId, run, IdleFinish(runId, run, note), Completed)
    case Push(runId, hash, draft) =>
      Progressing(s, runId, s.live[runId].(staged := true, hash := hash, draft := draft),
                  Progress(MessageStaged, None, Some(hash), Some(draft)))
    case BeginFinish(runId, skill) =>
      var run := s.live[runId].(selected := skill);
      Progressing(s, runId, run, Progress(DriftStore.Finishing, Some(skill), StagedHash(run), Some(run.draft)))
    case EndFinish(runId, skill, note) =>
      FinishRun(s, runId, s.live[runId], FinishOf(runId, s.live[runId], skill, note), note.status)
    case Pause(runId, note) =>
      var run := s.live[runId];
      FinishRun(s, runId, run, FinishOf(runId, run, PausedSkill(run), note), Paused)
    case GiveBack(runId) => s.(tables := Release(s.tables, runId))
    case Crash(runId) => s.(live := s.live - {runId})
    case Deliver(runId, success) =>
      Marking(s, if success then MarkDelivery(s.tables, runId, true)
                 else SetResults(MarkDelivery(s.tables, runId, false), OfRun(runId), Staged))
    case Confirm(hash) => Marking(s, MarkSent(s.tables, hash))
    case Prune(id) => Removing(s, id)
    case LogStep(step) => s.(tables := AppendStep(s.tables, step))
  }

  ghost function Next(s: System, a: Action): System {
    if Enabled(s, a) then Apply(s, a) else s
  }

  ghost function After(s: System, actions: seq<Action>): System {
    if actions == [] then s else Next(After(s, actions[..|actions| - 1]), actions[|actions| - 1])
  }

  // ---------------------------------------------------------------------
  // The invariant
  // ---------------------------------------------------------------------

  /** Each session is leased to at most one run. */
  ghost predicate OneLeasePerSession(t: Tables) {
    forall a, b :: a in t.active && b in t.active && t.active[a].sessionKey == t.active[b].sessionKey ==> a == b
  }

  /** A run id has at most one history row, and none while it is active. */
  ghost predicate OneRowPerRun(t: Tables) {
    && (forall id :: id in t.runs ==> id <= t.lastRun)
    && (forall a, b :: a in t.runs && b in t.runs && t.runs[a].runId == t.runs[b].runId && t.runs[a].runId.Some? ==>
          a == b)
    && (forall id :: id in t.runs && t.runs[id].runId.Some? ==> t.runs[id].runId.value !in t.active)
  }

  ghost predicate IdsUsed(s: System) {
    && s.live.Keys <= s.used && s.tables.active.Keys <= s.used
    && (forall id :: id in s.tables.runs && s.tables.runs[id].runId.Some? ==> s.tables.runs[id].runId.value in s.used)
  }

  /** Every recorded finish counted once for its skill, and is in the history unless it was pruned. */
  ghost predicate FinishesCounted(s: System) {
    && (forall skill :: RunCount(s.tables, skill) == s.counted[skill])
    && (forall r :: s.finishes[r] == s.removed[r] + if HasRun(s.tables, r) then 1 else 0)
  }

  ghost predicate Owned(t: Tables, runId: string, run: Run) {
    && (run.staged ==> run.selected != "" && run.hash != "")
    && (run.finished ==> runId !in t.active)
    && (runId in t.active && t.active[runId].hash.Some? ==>
          run.staged && t.active[runId].hash == Some(run.hash) && t.active[runId].draft == run.draft)
  }

  ghost predicate ContextsAgree(s: System) {
    forall r :: r in s.live ==> Owned(s.tables, r, s.live[r])
  }

  ghost predicate HeldIn(t: Tables, m: Pushed, id: nat) {
    id in t.runs && t.runs[id].runId == Some(m.runId) && t.runs[id].hash == Some(m.hash) && t.runs[id].draft == m.draft
    && t.runs[id].messageResult == Staged
  }

  ghost predicate Kept(s: System, m: Pushed) {
    || m in s.sent
    || m in Recorded(s.tables, m.runId)
    || exists id: nat :: HeldIn(s.tables, m, id)
  }

  /** Every durably recorded message is in the active row, in a staged history row, or was marked sent. */
  ghost predicate NothingLost(s: System) {
    forall m :: m in s.recorded ==> Kept(s, m)
  }

  /** Progress is stamped with the run's start time. */
  ghost predicate StampedAtStart(s: System) {
    && (forall r :: r in s.tables.active ==> s.tables.active[r].updatedAt == s.tables.active[r].startedAt)
    && (forall r :: r in s.tables.active && r in s.live ==> s.live[r].now == s.tables.active[r].startedAt)
  }

  ghost predicate Inv(s: System) {
    && OneLeasePerSession(s.tables) && OneRowPerRun(s.tables) && IdsUsed(s) && FinishesCounted(s)
    && ContextsAgree(s) && NothingLost(s) && StampedAtStart(s)
  }

  // ---------------------------------------------------------------------
  // Every transition keeps it
  // ---------------------------------------------------------------------

  lemma {:induction false} KeptUnlessMoved(s: System, next: System, except: string)
    requires NothingLost(s) && s.sent <= next.sent
    requires forall m :: m in next.recorded ==> m in s.recorded || m in Recorded(next.tables, m.runId)
    requires forall r :: r in s.tables.active && r != except ==> Recorded(s.tables, r) <= Recorded(next.tables, r)
    requires forall m, id: nat :: HeldIn(s.tables, m, id) ==> m in next.sent || HeldIn(next.tables, m, id)
    requires forall m :: m in Recorded(s.tables, except) && m.runId == except ==> Kept(next, m)
    ensures NothingLost(next)
  {
    forall m | m in next.recorded ensures Kept(next, m) {
      if m in Recorded(next.tables, m.runId) {
      } else {
        assert Kept(s, m);
        if m in s.sent {
        } else if m in Recorded(s.tables, m.runId) {
          assert m.runId in s.tables.active;
        } else {
          var id :| HeldIn(s.tables, m, id);
          assert m in next.sent || HeldIn(next.tables, m, id);
        }
      }
    }
  }

  lemma {:induction false} ProgressKeeps(s: System, runId: string, run: Run, p: Progress)
    requires Inv(s) && runId in s.live && run.now == s.live[runId].now && run.finished == s.live[runId].finished
    requires run.staged ==> run.selected != "" && run.hash != ""
    requires runId in s.tables.active ==>
               var row := Advanced(s.tables.active[runId], p, run.now);
               && (row.hash.Some? ==> run.staged && row.hash == Some(run.hash) && row.draft == run.draft)
               && (Recorded(s.tables, runId) <= Recorded(UpdateProgress(s.tables, runId, p, run.now), runId))
    ensures Inv(Progressing(s, runId, run, p))
  {
    var next := Progressing(s, runId, run, p);
    ProgressMoves(s, runId, run, p, next);
    MovedKeepsTables(s, runId, run, next);
    MovedKeepsContexts(s, runId, run, next);
    SameCounts(s, next);
    KeptUnlessMoved(s, next, runId);
  }

  /** A progress update touches the lease of its own run, and the time of its last update. */
  ghost predicate Moved(s: System, runId: string, run: Run, next: System) {
    && next.tables == s.tables.(active := next.tables.active) && next.live == s.live[runId := run]
    && next.used == s.used
    && next.tables.active.Keys == s.tables.active.Keys
    && (forall r :: r in s.tables.active && r != runId ==> next.tables.active[r] == s.tables.active[r])
    && (runId in s.tables.active ==>
          && next.tables.active[runId].sessionKey == s.tables.active[runId].sessionKey
          && next.tables.active[runId].startedAt == s.tables.active[runId].startedAt
          && next.tables.active[runId].updatedAt == run.now)
  }

  lemma {:induction false} ProgressMoves(s: System, runId: string, run: Run, p: Progress, next: System)
    requires next == Progressing(s, runId, run, p)
    ensures Moved(s, runId, run, next)
  {
  }

  lemma {:induction false} MovedKeepsTables(s: System, runId: string, run: Run, next: System)
    requires OneLeasePerSession(s.tables) && OneRowPerRun(s.tables) && IdsUsed(s)
    requires runId in s.live && Moved(s, runId, run, next)
    ensures OneLeasePerSession(next.tables) && OneRowPerRun(next.tables) && IdsUsed(next)
  {
    forall r ensures r in next.tables.active <==> r in s.tables.active {
      assert r in next.tables.active.Keys <==> r in s.tables.active.Keys;
    }
  }

  lemma {:induction false} MovedKeepsContexts(s: System, runId: string, run: Run, next: System)
    requires ContextsAgree(s) && StampedAtStart(s) && Moved(s, runId, run, next) && runId in s.live
    requires run.now == s.live[runId].now && Owned(next.tables, runId, run)
    ensures ContextsAgree(next) && StampedAtStart(next)
  {
    forall r ensures r in next.tables.active <==> r in s.tables.active {
      assert r in next.tables.active.Keys <==> r in s.tables.active.Keys;
    }
    forall r | r in next.live ensures Owned(next.tables, r, next.live[r]) {
      assert r in s.live ==> Owned(s.tables, r, s.live[r]);
    }
  }

  lemma {:induction false} SameCounts(s: System, next: System)
    requires FinishesCounted(s) && next.tables.runs == s.tables.runs && next.tables.continuum == s.tables.continuum
    requires next.finishes == s.finishes && next.counted == s.counted && next.removed == s.removed
    ensures FinishesCounted(next)
  {
    forall skill ensures RunCount(next.tables, skill) == RunCount(s.tables, skill) {
    }
    forall r ensures HasRun(next.tables, r) == HasRun(s.tables, r) {
    }
  }

  lemma {:induction false} RowAdded(t: Tables, next: Tables, row: RunRow, r: string)
    requires forall id :: id in t.runs ==> id <= t.lastRun
    requires next.runs == t.runs[t.lastRun + 1 := row]
    ensures HasRun(next, r) <==> HasRun(t, r) || row.runId == Some(r)
  {
    var id := t.lastRun + 1;
    assert id in next.runs && next.runs[id] == row;
    if HasRun(t, r) {
      var x :| x in t.runs && t.runs[x].runId == Some(r);
      assert x in next.runs && next.runs[x].runId == Some(r);
    }
    if HasRun(next, r) && row.runId != Some(r) {
      var x :| x in next.runs && next.runs[x].runId == Some(r);
      assert x in t.runs && t.runs[x].runId == Some(r);
    }
  }

  /** Adding the history row of a run, counting it and ending its lease; shared by finish and recovery. */
  ghost predicate Closes(s: System, next: System, runId: string, row: RunRow, skill: string) {
    && next.tables.runs == s.tables.runs[s.tables.lastRun + 1 := row] && next.tables.lastRun == s.tables.lastRun + 1
    && next.tables.active == s.tables.active - {runId} && row.runId == Some(runId)
    && (forall x :: RunCount(next.tables, x) == RunCount(s.tables, x) + if x == skill then 1 else 0)
    && next.finishes == s.finishes + multiset{runId} && next.counted == s.counted + multiset{skill}
    && next.removed == s.removed && next.recorded == s.recorded && next.sent == s.sent && next.used == s.used
  }

  lemma {:induction false} ClosingKeepsTables(s: System, next: System, runId: string, row: RunRow, skill: string)
    requires Inv(s) && Closes(s, next, runId, row, skill) && !HasRun(s.tables, runId) && runId in s.used
    ensures OneLeasePerSession(next.tables) && OneRowPerRun(next.tables) && FinishesCounted(next)
  {
    var t := s.tables;
    forall id | id in t.runs ensures t.runs[id].runId != Some(runId) {
      assert !HasRun(t, runId);
    }
    forall r ensures next.finishes[r] == next.removed[r] + if HasRun(next.tables, r) then 1 else 0 {
      RowAdded(t, next.tables, row, r);
    }
  }

  lemma {:induction false} ClosingLosesNothing(s: System, next: System, runId: string, row: RunRow, skill: string)
    requires Inv(s) && Closes(s, next, runId, row, skill)
    requires runId in s.tables.active && s.tables.active[runId].hash.Some? ==>
               row.hash == s.tables.active[runId].hash && row.draft == s.tables.active[runId].draft
               && row.messageResult == Staged
    ensures NothingLost(next)
  {
    var id := s.tables.lastRun + 1;
    forall m | m in Recorded(s.tables, runId) ensures Kept(next, m) {
      assert HeldIn(next.tables, m, id);
    }
    forall m, x: nat | HeldIn(s.tables, m, x) ensures HeldIn(next.tables, m, x) {
      assert x <= s.tables.lastRun;
    }
    KeptUnlessMoved(s, next, runId);
  }

  lemma {:induction false} RepeatKeeps(s: System, runId: string, run: Run, f: Finish, status: Status)
    requires Inv(s) && runId in s.live && f.runKey == Some(runId) && Repeated(s.tables, f)
    ensures var next := FinishRun(s, runId, run, f, status);
            && next == s.(live := s.live[runId := run.(finished := true)])
            && OneLeasePerSession(next.tables) && OneRowPerRun(next.tables) && FinishesCounted(next)
            && NothingLost(next)
  {
    assert runId !in s.tables.active;
    assert s.tables.active - {runId} == s.tables.active;
    var next := FinishRun(s, runId, run, f, status);
    forall m | m in next.recorded ensures Kept(next, m) {
      assert Kept(s, m);
    }
  }

  lemma {:induction false} FirstFinishKeeps(s: System, runId: string, run: Run, f: Finish, status: Status)
    requires Inv(s) && runId in s.live && f.runKey == Some(runId) && !Repeated(s.tables, f)
    requires runId in s.tables.active && s.tables.active[runId].hash.Some? ==>
               f.hash == s.tables.active[runId].hash && f.draft == s.tables.active[runId].draft
               && f.messageResult == Staged
    ensures var next := FinishRun(s, runId, run, f, status);
            && OneLeasePerSession(next.tables) && OneRowPerRun(next.tables) && FinishesCounted(next)
            && NothingLost(next)
  {
    var next := FinishRun(s, runId, run, f, status);
    var row := FinishedRun(f, status, run.now);
    assert Closes(s, next, runId, row, f.skill);
    ClosingKeepsTables(s, next, runId, row, f.skill);
    ClosingLosesNothing(s, next, runId, row, f.skill);
  }

  lemma {:induction false} FinishKeepsContexts(s: System, runId: string, run: Run, f: Finish, status: Status)
    requires Inv(s) && runId in s.live && run.now == s.live[runId].now && f.runKey == Some(runId)
    requires run.staged ==> run.selected != "" && run.hash != ""
    ensures var next := FinishRun(s, runId, run, f, status);
            IdsUsed(next) && ContextsAgree(next) && StampedAtStart(next)
  {
    var next := FinishRun(s, runId, run, f, status);
    FinishMoves(s, runId, run, f, status, next);
    FinishedIds(s, next, runId);
    FinishedContexts(s, next, runId, run);
  }

  lemma {:induction false} FinishMoves(s: System, runId: string, run: Run, f: Finish, status: Status, next: System)
    requires f.runKey == Some(runId) && next == FinishRun(s, runId, run, f, status)
    ensures next.live == s.live[runId := run.(finished := true)] && next.used == s.used
    ensures next.tables.active == s.tables.active - {runId}
    ensures forall id :: id in next.tables.runs ==>
              next.tables.runs[id].runId == Some(runId)
              || (id in s.tables.runs && next.tables.runs[id] == s.tables.runs[id])
  {
  }

  lemma {:induction false} FinishedIds(s: System, next: System, runId: string)
    requires IdsUsed(s) && runId in s.live
    requires forall id :: id in next.tables.runs ==>
               next.tables.runs[id].runId == Some(runId)
               || (id in s.tables.runs && next.tables.runs[id] == s.tables.runs[id])
    ensures forall id :: id in next.tables.runs && next.tables.runs[id].runId.Some? ==>
                           next.tables.runs[id].runId.value in s.used
  {
  }

  lemma {:induction false} FinishedContexts(s: System, next: System, runId: string, run: Run)
    requires IdsUsed(s) && ContextsAgree(s) && StampedAtStart(s)
    requires runId in s.live && run.now == s.live[runId].now
    requires run.staged ==> run.selected != "" && run.hash != ""
    requires next.live == s.live[runId := run.(finished := true)] && next.used == s.used
    requires next.tables.active == s.tables.active - {runId}
    requires forall id :: id in next.tables.runs && next.tables.runs[id].runId.Some? ==>
                            next.tables.runs[id].runId.value in s.used
    ensures IdsUsed(next) && ContextsAgree(next) && StampedAtStart(next)
  {
    forall r | r in next.live ensures Owned(next.tables, r, next.live[r]) {
      assert r in s.live;
      assert Owned(s.tables, r, s.live[r]);
    }
  }

  lemma {:induction false} FinishKeeps(s: System, runId: string, run: Run, f: Finish, status: Status)
    requires Inv(s) && runId in s.live && run.now == s.live[runId].now && f.runKey == Some(runId)
    requires run.staged ==> run.selected != "" && run.hash != ""
    requires runId in s.tables.active && s.tables.active[runId].hash.Some? ==>
               f.hash == s.tables.active[runId].hash && f.draft == s.tables.active[runId].draft
               && f.messageResult == Staged
    ensures Inv(FinishRun(s, runId, run, f, status))
  {
    FinishKeepsContexts(s, runId, run, f, status);
    if Repeated(s.tables, f) {
      RepeatKeeps(s, runId, run, f, status);
    } else {
      FirstFinishKeeps(s, runId, run, f, status);
    }
  }

  lemma {:induction false} RecoverRunKeeps(s: System, runId: string, now: int)
    requires Inv(s) && runId in s.tables.active
    ensures Inv(RecoverRun(s, runId, now))
  {
    var next := RecoverRun(s, runId, now);
    var active := s.tables.active[runId];
    var row := RecoveredRun(runId, active, now);
    assert !HasRun(s.tables, runId);
    assert Closes(s, next, runId, row, RecoveredSkill(active));
    ClosingKeepsTables(s, next, runId, row, RecoveredSkill(active));
    ClosingLosesNothing(s, next, runId, row, RecoveredSkill(active));
    forall r | r in next.live ensures Owned(next.tables, r, next.live[r]) {
      assert Owned(s.tables, r, s.live[r]);
    }
  }

  lemma {:induction false} RecoveringKeeps(s: System, rows: seq<string>, now: int)
    requires Inv(s)
    requires forall x :: x in rows ==> x in s.tables.active
    requires forall i, j :: 0 <= i < j < |rows| ==> rows[i] != rows[j]
    ensures Inv(Recovering(s, rows, now))
    decreases |rows|
  {
    if rows != [] {
      var last := rows[|rows| - 1];
      assert rows == rows[..|rows| - 1] + [last];
      RecoveringKeeps(s, rows[..|rows| - 1], now);
      RecoverRunKeeps(Recovering(s, rows[..|rows| - 1], now), last, now);
    }
  }

  lemma {:induction false} StartKeeps(s: System, runId: string, sessionKey: string, now: int)
    requires Inv(s) && runId !in s.used && SessionFree(s.tables, sessionKey)
    ensures Inv(Starting(s, runId, sessionKey, now))
  {
    var next := Starting(s, runId, sessionKey, now);
    forall r | r in next.live ensures Owned(next.tables, r, next.live[r]) {
      assert r in s.live ==> Owned(s.tables, r, s.live[r]);
    }
    SameCounts(s, next);
    KeptUnlessMoved(s, next, runId);
  }

  /** Changing only message results, with everything that became sent on record. */
  lemma {:induction false} MarkingKeeps(s: System, which: Selector, result: MessageResult)
    requires Inv(s) && result in {Sent, Staged}
    ensures Inv(Marking(s, SetResults(s.tables, which, result)))
  {
    var next := Marking(s, SetResults(s.tables, which, result));
    SameHistory(s, next);
    forall m, id: nat | HeldIn(s.tables, m, id) ensures m in next.sent || HeldIn(next.tables, m, id) {
      MarkedOrHeld(s, which, result, m, id);
    }
    KeptUnlessMoved(s, next, "");
  }

  lemma {:induction false} MarkedOrHeld(s: System, which: Selector, result: MessageResult, m: Pushed, id: nat)
    requires HeldIn(s.tables, m, id) && result in {Sent, Staged}
    ensures var t := SetResults(s.tables, which, result); m in SentMessages(t) || HeldIn(t, m, id)
  {
    var t := SetResults(s.tables, which, result);
    if t.runs[id].messageResult == Sent {
      assert m == Pushed(t.runs[id].runId.value, t.runs[id].hash.value, t.runs[id].draft);
    }
  }

  lemma {:induction false} SameHistory(s: System, next: System)
    requires Inv(s) && next.tables.active == s.tables.active && next.tables.continuum == s.tables.continuum
    requires next.tables.lastRun == s.tables.lastRun && next.live == s.live && next.used == s.used
    requires next.finishes == s.finishes && next.counted == s.counted && next.removed == s.removed
    requires forall id :: id in next.tables.runs <==> id in s.tables.runs
    requires forall id :: id in next.tables.runs ==> next.tables.runs[id].runId == s.tables.runs[id].runId
    ensures OneLeasePerSession(next.tables) && OneRowPerRun(next.tables) && IdsUsed(next) && FinishesCounted(next)
    ensures ContextsAgree(next) && StampedAtStart(next)
  {
    forall skill ensures RunCount(next.tables, skill) == s.counted[skill] {
      assert RunCount(next.tables, skill) == RunCount(s.tables, skill);
    }
    forall r ensures HasRun(next.tables, r) == HasRun(s.tables, r) {
      if HasRun(s.tables, r) {
        var id :| id in s.tables.runs && s.tables.runs[id].runId == Some(r);
        assert id in next.tables.runs && next.tables.runs[id].runId == Some(r);
      }
    }
    forall r | r in next.live ensures Owned(next.tables, r, next.live[r]) {
      assert Owned(s.tables, r, s.live[r]);
    }
  }

  lemma {:induction false} PruneKeepsCounts(s: System, id: nat)
    requires Inv(s) && R.Terminal(s.tables, id)
    ensures FinishesCounted(Removing(s, id)) && OneRowPerRun(Removing(s, id).tables)
  {
    RemovedCounts(s, Removing(s, id), id);
  }

  lemma {:induction false} RemovedCounts(s: System, next: System, id: nat)
    requires FinishesCounted(s) && OneRowPerRun(s.tables) && id in s.tables.runs
    requires next.tables.runs == s.tables.runs - {id} && next.tables.continuum == s.tables.continuum
    requires next.tables.active == s.tables.active && next.tables.lastRun == s.tables.lastRun
    requires next.finishes == s.finishes && next.counted == s.counted
    requires next.removed
             == s.removed
                + if s.tables.runs[id].runId.Some? then multiset{s.tables.runs[id].runId.value} else multiset{}
    ensures FinishesCounted(next) && OneRowPerRun(next.tables)
  {
    forall skill ensures RunCount(next.tables, skill) == next.counted[skill] {
      assert RunCount(next.tables, skill) == RunCount(s.tables, skill);
    }
    forall r ensures next.finishes[r] == next.removed[r] + if HasRun(next.tables, r) then 1 else 0 {
      RowRemoved(s.tables, next.tables, id, r);
    }
  }

  lemma {:induction false} PruneKeeps(s: System, id: nat)
    requires Inv(s) && R.Terminal(s.tables, id)
    ensures Inv(Removing(s, id))
  {
    PruneKeepsCounts(s, id);
    RowGoneKeeps(s, Removing(s, id), id);
  }

  lemma {:induction false} RowGoneKeeps(s: System, next: System, id: nat)
    requires Inv(s) && R.Terminal(s.tables, id)
    requires next.tables.runs == s.tables.runs - {id} && next.tables.active == s.tables.active
    requires next.live == s.live && next.used == s.used && next.recorded == s.recorded && next.sent == s.sent
    ensures OneLeasePerSession(next.tables) && IdsUsed(next) && ContextsAgree(next) && NothingLost(next)
            && StampedAtStart(next)
  {
    forall r | r in next.live ensures Owned(next.tables, r, next.live[r]) {
      assert Owned(s.tables, r, s.live[r]);
    }
    forall m, x: nat | HeldIn(s.tables, m, x) ensures HeldIn(next.tables, m, x) {
      assert x != id;
    }
    KeptUnlessMoved(s, next, "");
  }

  lemma {:induction false} RowRemoved(t: Tables, next: Tables, id: nat, r: string)
    requires OneRowPerRun(t) && id in t.runs && next.runs == t.runs - {id}
    ensures HasRun(t, r) <==> HasRun(next, r) || t.runs[id].runId == Some(r)
    ensures !(HasRun(next, r) && t.runs[id].runId == Some(r))
  {
    if HasRun(t, r) && t.runs[id].runId != Some(r) {
      var x :| x in t.runs && t.runs[x].runId == Some(r);
      assert x in next.runs && next.runs[x].runId == Some(r);
    }
    if HasRun(next, r) {
      var x :| x in next.runs && next.runs[x].runId == Some(r);
      assert x in t.runs && x != id;
    }
  }

  lemma {:induction false} SimpleStepKeeps(s: System, a: Action)
    requires Inv(s) && Enabled(s, a) && (a.GiveBack? || a.Crash? || a.LogStep? || a.Start?)
    ensures Inv(Apply(s, a))
  {
    var next := Apply(s, a);
    match a {
      case Start(runId, sessionKey, now) =>
        if SessionFree(s.tables, sessionKey) {
          StartKeeps(s, runId, sessionKey, now);
        } else {
          OnlyLiveOrUsed(s, next);
        }
      case GiveBack(runId) =>
        assert Owned(s.tables, runId, s.live[runId]);
        assert next.tables.active == s.tables.active;
        OnlyLiveOrUsed(s, next);
      case Crash(runId) => OnlyLiveOrUsed(s, next);
      case LogStep(step) => OnlyLiveOrUsed(s, next);
    }
  }

  lemma {:induction false} OnlyLiveOrUsed(s: System, next: System)
    requires Inv(s) && next.tables.active == s.tables.active && next.tables.continuum == s.tables.continuum
    requires next.tables.runs == s.tables.runs && next.tables.lastRun == s.tables.lastRun
    requires next == s.(tables := next.tables, live := next.live, used := next.used) && s.used <= next.used
    requires next.live.Keys <= s.live.Keys && forall r :: r in next.live ==> next.live[r] == s.live[r]
    ensures Inv(next)
  {
    var same := s.(tables := next.tables);
    SameHistory(s, same);
    KeptUnlessMoved(s, same, "");
    forall m | m in next.recorded ensures Kept(next, m) {
      assert Kept(same, m);
    }
    forall r | r in next.live ensures Owned(next.tables, r, next.live[r]) {
      assert Owned(s.tables, r, s.live[r]);
    }
    assert FinishesCounted(same);
  }

  lemma {:induction false} ToolStepKeeps(s: System, a: Action)
    requires Inv(s) && Enabled(s, a) && (a.Report? || a.Select? || a.Push? || a.BeginFinish?)
    ensures Inv(Apply(s, a))
  {
    var r := a.runId;
    assert Owned(s.tables, r, s.live[r]);
    var run := s.live[r];
    match a {
      case Report(_, stage, withSkill, withMessage) =>
        ProgressKeeps(s, r, run,
                      Progress(stage, if withSkill then Some(run.selected) else None,
                               if withMessage then StagedHash(run) else None,
                               if withMessage then Some(run.draft) else None));
      case Select(_, skill) => ProgressKeeps(s, r, run.(selected := skill),
                                             Progress(Selected, Some(skill), None, None));
      case Push(_, hash, draft) =>
        ProgressKeeps(s, r, run.(staged := true, hash := hash, draft := draft),
                      Progress(MessageStaged, None, Some(hash), Some(draft)));
      case BeginFinish(_, skill) =>
        ProgressKeeps(s, r, run.(selected := skill),
                      Progress(DriftStore.Finishing, Some(skill), StagedHash(run), Some(run.draft)));
    }
  }

  lemma {:induction false} EndingStepKeeps(s: System, a: Action)
    requires Inv(s) && Enabled(s, a) && (a.Idle? || a.EndFinish? || a.Pause?)
    ensures Inv(Apply(s, a))
  {
    var r := a.runId;
    assert Owned(s.tables, r, s.live[r]);
    var run := s.live[r];
    match a {
      case Idle(_, note) =>
        var idle := run.(selected := "idle");
        FinishKeeps(s, r, idle, IdleFinish(r, idle, note), Completed);
      case EndFinish(_, skill, note) => FinishKeeps(s, r, run, FinishOf(r, run, skill, note), note.status);
      case Pause(_, note) =>
        FinishKeeps(s, r, run, FinishOf(r, run, PausedSkill(run), note), Paused);
    }
  }

  lemma {:induction false} DeliveryStepKeeps(s: System, a: Action)
    requires Inv(s) && Enabled(s, a) && (a.Deliver? || a.Confirm?)
    ensures Inv(Apply(s, a))
  {
    match a {
      case Deliver(runId, success) => MarkingKeeps(s, OfRun(runId), if success then Sent else Staged);
      case Confirm(hash) => MarkingKeeps(s, StagedWith(hash), Sent);
    }
  }

  lemma {:induction false} StepKeeps(s: System, a: Action)
    requires Inv(s)
    ensures Inv(Next(s, a))
  {
    if Enabled(s, a) {
      match a {
        case Recover(now, _, rows) => RecoveringKeeps(s, rows, now);
        case Start(_, _, _) => SimpleStepKeeps(s, a);
        case Report(_, _, _, _) => ToolStepKeeps(s, a);
        case Select(_, _) => ToolStepKeeps(s, a);
        case Idle(_, _) => EndingStepKeeps(s, a);
        case Push(_, _, _) => ToolStepKeeps(s, a);
        case BeginFinish(_, _) => ToolStepKeeps(s, a);
        case EndFinish(_, _, _) => EndingStepKeeps(s, a);
        case Pause(_, _) => EndingStepKeeps(s, a);
        case GiveBack(_) => SimpleStepKeeps(s, a);
        case Crash(_) => SimpleStepKeeps(s, a);
        case Deliver(_, _) => DeliveryStepKeeps(s, a);
        case Confirm(_) => DeliveryStepKeeps(s, a);
        case Prune(id) => PruneKeeps(s, id);
        case LogStep(_) => SimpleStepKeeps(s, a);
      }
    }
  }

  /** Every state that any interleaving of any processes reaches satisfies the invariant. */
  lemma {:induction false} EveryReachableState(actions: seq<Action>)
    ensures Inv(After(INITIAL, actions))
    decreases |actions|
  {
    if actions != [] {
      EveryReachableState(actions[..|actions| - 1]);
      StepKeeps(After(INITIAL, actions[..|actions| - 1]), actions[|actions| - 1]);
    }
  }

  // ---------------------------------------------------------------------
  // What the invariant says about whole runs
  // ---------------------------------------------------------------------

  ghost predicate NoPrune(actions: seq<Action>) {
    forall i :: 0 <= i < |actions| ==> !actions[i].Prune?
  }

  lemma {:induction false} RecoveringRemovesNothing(s: System, rows: seq<string>, now: int)
    requires forall x :: x in rows ==> x in s.tables.active
    requires forall i, j :: 0 <= i < j < |rows| ==> rows[i] != rows[j]
    ensures Recovering(s, rows, now).removed == s.removed
    decreases |rows|
  {
    if rows != [] {
      assert rows == rows[..|rows| - 1] + [rows[|rows| - 1]];
      RecoveringRemovesNothing(s, rows[..|rows| - 1], now);
    }
  }

  lemma {:induction false} NothingRemoved(actions: seq<Action>)
    requires NoPrune(actions)
    ensures After(INITIAL, actions).removed == multiset{}
    decreases |actions|
  {
    if actions != [] {
      var before := After(INITIAL, actions[..|actions| - 1]);
      NothingRemoved(actions[..|actions| - 1]);
      var a := actions[|actions| - 1];
      if Enabled(before, a) && a.Recover? {
        RecoveringRemovesNothing(before, a.rows, a.now);
      }
    }
  }

  /** Unless history is pruned, no run is ever recorded as finished twice, whoever finishes or recovers it. */
  lemma {:induction false} FinishedAtMostOnce(actions: seq<Action>, runId: string)
    requires NoPrune(actions)
    ensures After(INITIAL, actions).finishes[runId] <= 1
  {
    EveryReachableState(actions);
    NothingRemoved(actions);
  }

  /** Whatever is pruned, a run is finished again only after its earlier history rows were all pruned. */
  lemma {:induction false} FinishedAgainOnlyAfterPruning(actions: seq<Action>, runId: string)
    ensures var s := After(INITIAL, actions);
            s.finishes[runId] == s.removed[runId] + if HasRun(s.tables, runId) then 1 else 0
  {
    EveryReachableState(actions);
  }

  /** Every run that ended is on record. */
  ghost predicate EndedRunsRecorded(s: System) {
    forall r :: r in s.live && s.live[r].finished ==> s.finishes[r] >= 1
  }

  lemma {:induction false} RecoveringGrows(s: System, rows: seq<string>, now: int)
    requires forall x :: x in rows ==> x in s.tables.active
    requires forall i, j :: 0 <= i < j < |rows| ==> rows[i] != rows[j]
    ensures Recovering(s, rows, now).live == s.live && s.finishes <= Recovering(s, rows, now).finishes
    decreases |rows|
  {
    if rows != [] {
      assert rows == rows[..|rows| - 1] + [rows[|rows| - 1]];
      RecoveringGrows(s, rows[..|rows| - 1], now);
    }
  }

  lemma {:induction false} FinishIsRecorded(s: System, runId: string, run: Run, f: Finish, status: Status)
    requires FinishesCounted(s) && EndedRunsRecorded(s) && f.runKey == Some(runId)
    ensures EndedRunsRecorded(FinishRun(s, runId, run, f, status))
  {
    if Repeated(s.tables, f) {
      assert s.finishes[runId] >= 1;
    }
  }

  lemma {:induction false} StepRecords(s: System, a: Action)
    requires FinishesCounted(s) && EndedRunsRecorded(s) && Enabled(s, a)
    ensures EndedRunsRecorded(Apply(s, a))
  {
    match a {
      case Recover(now, _, rows) => RecoveringGrows(s, rows, now);
      case Idle(r, note) =>
        var idle := s.live[r].(selected := "idle");
        FinishIsRecorded(s, r, idle, IdleFinish(r, idle, note), Completed);
      case EndFinish(r, skill, note) =>
        FinishIsRecorded(s, r, s.live[r], FinishOf(r, s.live[r], skill, note), note.status);
      case Pause(r, note) =>
        var run := s.live[r];
        FinishIsRecorded(s, r, run, FinishOf(r, run, PausedSkill(run), note), Paused);
      case _ =>
    }
  }

  lemma {:induction false} EveryEndedRunIsRecorded(actions: seq<Action>)
    ensures EndedRunsRecorded(After(INITIAL, actions))
    decreases |actions|
  {
    if actions != [] {
      var before := After(INITIAL, actions[..|actions| - 1]);
      EveryEndedRunIsRecorded(actions[..|actions| - 1]);
      EveryReachableState(actions[..|actions| - 1]);
      if Enabled(before, actions[|actions| - 1]) {
        StepRecords(before, actions[|actions| - 1]);
      }
    }
  }

  /** Exactly once: without pruning, a run that ended has one history row and one recorded finish, its own or the one a
      recovery made for it. */
  lemma {:induction false} EndedRunIsRecordedExactlyOnce(actions: seq<Action>, runId: string)
    requires NoPrune(actions)
    requires runId in After(INITIAL, actions).live && After(INITIAL, actions).live[runId].finished
    ensures var s := After(INITIAL, actions); s.finishes[runId] == 1 && HasRun(s.tables, runId)
  {
    EveryReachableState(actions);
    EveryEndedRunIsRecorded(actions);
    NothingRemoved(actions);
  }

  ghost predicate Ends(a: Action, runId: string) {
    (a.Idle? || a.EndFinish? || a.Pause?) && a.runId == runId
  }

  /** An ending is recorded exactly when the run has no history row yet. */
  lemma {:induction false} EndingIsRecordedExactly(s: System, a: Action, runId: string)
    requires Ends(a, runId) && Enabled(s, a)
    ensures Next(s, a).finishes == s.finishes + if HasRun(s.tables, runId) then multiset{} else multiset{runId}
  {
  }

  /** A run that was recovered while still working can end as it likes: no table, count or lease changes. It does so
      exactly when the run already has a history row. */
  lemma {:induction false} LateFinishChangesNothing(actions: seq<Action>, a: Action, runId: string)
    requires Ends(a, runId) && Enabled(After(INITIAL, actions), a)
    ensures var s := After(INITIAL, actions);
            Next(s, a) == s.(live := Next(s, a).live) <==> HasRun(s.tables, runId)
  {
    EndingIsRecordedExactly(After(INITIAL, actions), a, runId);
    if HasRun(After(INITIAL, actions).tables, runId) {
      RepeatedEnding(actions, a, runId);
    }
  }

  lemma {:induction false} RepeatedEnding(actions: seq<Action>, a: Action, runId: string)
    requires Ends(a, runId) && Enabled(After(INITIAL, actions), a) && HasRun(After(INITIAL, actions).tables, runId)
    ensures var s := After(INITIAL, actions); Next(s, a) == s.(live := Next(s, a).live)
  {
    var s := After(INITIAL, actions);
    EveryReachableState(actions);
    var run := s.live[runId];
    match a {
      case Idle(_, note) =>
        var idle := run.(selected := "idle");
        RepeatKeeps(s, runId, idle, IdleFinish(runId, idle, note), Completed);
      case EndFinish(_, skill, note) => RepeatKeeps(s, runId, run, FinishOf(runId, run, skill, note), note.status);
      case Pause(_, note) =>
        RepeatKeeps(s, runId, run, FinishOf(runId, run, PausedSkill(run), note), Paused);
    }
  }

  /** The recovery window runs from the start of a run: progress reported since does not extend it. */
  lemma {:induction false} ProgressDoesNotRenewTheLease(actions: seq<Action>, runId: string, cutoff: int,
                                                        rows: seq<string>)
    requires runId in After(INITIAL, actions).tables.active
             && IsScan(rows, After(INITIAL, actions).tables.active, cutoff)
    ensures runId in rows <==> After(INITIAL, actions).tables.active[runId].startedAt < cutoff
  {
    EveryReachableState(actions);
  }

  /** A durably recorded message is where a recovery or a delivery will find it, until it was marked sent. */
  lemma {:induction false} NoStagedMessageIsLost(actions: seq<Action>, m: Pushed)
    requires m in After(INITIAL, actions).recorded
    ensures Kept(After(INITIAL, actions), m)
  {
    EveryReachableState(actions);
  }

  const NOTE := FinishNote(Paused, "", None, map[], [])

  /** A recovered run whose history row is pruned while its process still works. */
  function PrunedTrace(): seq<Action> {
    [Start("r", "k", 0), Recover(100, 50, ["r"]), Prune(1), Pause("r", NOTE)]
  }

  lemma {:induction false} AfterStep(s: System, actions: seq<Action>, a: Action)
    ensures After(s, actions + [a]) == Next(After(s, actions), a)
  {
    assert (actions + [a])[..|actions|] == actions;
  }

  /** The state once the lease was claimed and the stale run recovered. */
  lemma {:induction false} RecoveredState() returns (s: System)
    ensures s == Next(Next(INITIAL, PrunedTrace()[0]), PrunedTrace()[1])
    ensures s.tables.runs.Keys == {1} && s.tables.runs[1].runId == Some("r") && s.tables.runs[1].messageResult == Silent
    ensures RunCount(s.tables, "unknown") == 1 && s.finishes == multiset{"r"}
    ensures s.live.Keys == {"r"} && !s.live["r"].finished && s.live["r"].selected == ""
  {
    var claimed := Next(INITIAL, PrunedTrace()[0]);
    assert claimed == Starting(INITIAL, "r", "k", 0);
    var rows := ["r"];
    assert IsScan(rows, claimed.tables.active, Cutoff(100, 50));
    assert rows[..|rows| - 1] == [];
    assert Recovering(claimed, rows, 100) == RecoverRun(Recovering(claimed, [], 100), "r", 100);
    s := RecoverRun(claimed, "r", 100);
  }

  lemma {:induction false} PauseCounts(s: System, runId: string)
    requires Working(s, runId) && !HasRun(s.tables, runId) && s.live[runId].selected == ""
    ensures Next(s, Pause(runId, NOTE)).finishes == s.finishes + multiset{runId}
    ensures RunCount(Next(s, Pause(runId, NOTE)).tables, "unknown") == RunCount(s.tables, "unknown") + 1
  {
    var run := s.live[runId];
    assert Next(s, Pause(runId, NOTE)) == FinishRun(s, runId, run, FinishOf(runId, run, "unknown", NOTE), Paused);
  }

  lemma {:induction false} PruneForgets(s: System)
    requires s.tables.runs.Keys == {1} && s.tables.runs[1].messageResult == Silent
    ensures var pruned := Next(s, Prune(1));
            && pruned.tables.runs == map[] && pruned.tables.continuum == s.tables.continuum
            && pruned.finishes == s.finishes && pruned.live == s.live
  {
    assert s.tables.runs - {1} == map[];
  }

  /** Pruning does defeat the finish-once check: the late finish of such a run is recorded a second time. */
  lemma {:induction false} PruningLetsARunFinishTwice()
    ensures var s := After(INITIAL, PrunedTrace()); s.finishes["r"] == 2 && RunCount(s.tables, "unknown") == 2
  {
    var recovered := RecoveredState();
    PruneForgets(recovered);
    PauseCounts(Next(recovered, Prune(1)), "r");
    PrunedTraceUnrolled();
  }

  lemma {:induction false} PrunedTraceUnrolled()
    ensures var trace := PrunedTrace();
            After(INITIAL, trace) == Next(Next(Next(Next(INITIAL, trace[0]), trace[1]), trace[2]), trace[3])
  {
    var trace := PrunedTrace();
    FourSteps(trace);
  }

  lemma {:induction false} FourSteps(trace: seq<Action>)
    requires |trace| == 4
    ensures After(INITIAL, trace) == Next(Next(Next(Next(INITIAL, trace[0]), trace[1]), trace[2]), trace[3])
  {
    assert trace[..0] == [] && trace[..4] == trace;
    PrefixStep(trace, 0);
    PrefixStep(trace, 1);
    PrefixStep(trace, 2);
    PrefixStep(trace, 3);
  }

  lemma {:induction false} PrefixStep(trace: seq<Action>, k: nat)
    requires k < |trace|
    ensures After(INITIAL, trace[..k + 1]) == Next(After(INITIAL, trace[..k]), trace[k])
  {
    assert trace[..k + 1] == trace[..k] + [trace[k]];
    AfterStep(INITIAL, trace[..k], trace[k]);
  }

  /** Without the phase rule that a message needs a selected skill, resting would drop it: the finish that idling
      records carries no message, and it removes the only row that had one. */
  lemma {:induction false} IdlingAfterAPushWouldLoseIt(t: Tables, runId: string, run: Run, note: FinishNote)
    requires runId in t.active && t.active[runId].hash.Some? && OneRowPerRun(t)
    ensures var after := SaveFinish(t, IdleFinish(runId, run, note), Completed, run.now);
            var m := Pushed(runId, t.active[runId].hash.value, t.active[runId].draft);
            m in Recorded(t, runId) && m !in Recorded(after, runId) && forall id: nat :: !HeldIn(after, m, id)
  {
  }

  // ---------------------------------------------------------------------
  // Steps belong to one run
  // ---------------------------------------------------------------------

  ghost predicate Linked(t: Tables, step: StepRow) {
    step.runId.Some? ==>
      (step.runId.value <= t.lastRun && step.runKey.Some?
       && (step.runId.value in t.runs ==> t.runs[step.runId.value].runId == step.runKey))
  }

  /** A step that names a history row names the one of its own run. */
  ghost predicate StepsLinked(t: Tables) {
    forall k :: k in t.steps ==> Linked(t, t.steps[k])
  }

  lemma {:induction false} RecoveringKeepsLinks(s: System, rows: seq<string>, now: int)
    requires StepsLinked(s.tables)
    requires forall x :: x in rows ==> x in s.tables.active
    requires forall i, j :: 0 <= i < j < |rows| ==> rows[i] != rows[j]
    ensures StepsLinked(Recovering(s, rows, now).tables)
    decreases |rows|
  {
    if rows != [] {
      var last := rows[|rows| - 1];
      assert rows == rows[..|rows| - 1] + [last];
      RecoveringKeepsLinks(s, rows[..|rows| - 1], now);
      var before := Recovering(s, rows[..|rows| - 1], now);
      forall k | k in before.tables.steps ensures Linked(RecoverRun(before, last, now).tables, before.tables.steps[k]) {
        assert Linked(before.tables, before.tables.steps[k]);
      }
    }
  }

  lemma {:induction false} FinishingKeepsLinks(s: System, runId: string, run: Run, f: Finish, status: Status)
    requires StepsLinked(s.tables) && f.runKey == Some(runId)
    ensures StepsLinked(FinishRun(s, runId, run, f, status).tables)
  {
    var t := FinishRun(s, runId, run, f, status).tables;
    forall k | k in t.steps ensures Linked(t, t.steps[k]) {
      assert Linked(s.tables, s.tables.steps[k]);
    }
  }

  lemma {:induction false} StepKeepsLinks(s: System, a: Action)
    requires StepsLinked(s.tables) && Enabled(s, a)
    ensures StepsLinked(Apply(s, a).tables)
  {
    var t := Apply(s, a).tables;
    match a {
      case Recover(now, _, rows) => RecoveringKeepsLinks(s, rows, now);
      case Idle(r, note) =>
        var idle := s.live[r].(selected := "idle");
        FinishingKeepsLinks(s, r, idle, IdleFinish(r, idle, note), Completed);
      case EndFinish(r, skill, note) =>
        FinishingKeepsLinks(s, r, s.live[r], FinishOf(r, s.live[r], skill, note), note.status);
      case Pause(r, note) =>
        var run := s.live[r];
        FinishingKeepsLinks(s, r, run, FinishOf(r, run, PausedSkill(run), note), Paused);
      case _ => OtherStepKeepsLinks(s, a);
    }
  }

  lemma {:induction false} OtherStepKeepsLinks(s: System, a: Action)
    requires StepsLinked(s.tables) && Enabled(s, a) && !a.Recover? && !a.Idle? && !a.EndFinish? && !a.Pause?
    ensures StepsLinked(Apply(s, a).tables)
  {
    if a.Deliver? || a.Confirm? || a.Prune? || a.LogStep? {
      HistoryStepKeepsLinks(s, a);
    } else {
      LeaseStepKeepsHistory(s, a);
    }
  }

  lemma {:induction false} LeaseStepKeepsHistory(s: System, a: Action)
    requires Enabled(s, a) && !a.Recover? && !a.Idle? && !a.EndFinish? && !a.Pause?
    requires !a.Deliver? && !a.Confirm? && !a.Prune? && !a.LogStep?
    ensures var t := Apply(s, a).tables;
            t.runs == s.tables.runs && t.steps == s.tables.steps && t.lastRun == s.tables.lastRun
  {
  }

  lemma {:induction false} HistoryStepKeepsLinks(s: System, a: Action)
    requires StepsLinked(s.tables) && Enabled(s, a) && (a.Deliver? || a.Confirm? || a.Prune? || a.LogStep?)
    ensures StepsLinked(Apply(s, a).tables)
  {
    match a {
      case Deliver(runId, success) =>
        if success {
          MarksKeepLinks(s.tables, OfRun(runId), Sent);
        } else {
          MarksKeepLinks(s.tables, OfRun(runId), Staged);
        }
      case Confirm(hash) => MarksKeepLinks(s.tables, StagedWith(hash), Sent);
      case Prune(id) => PruneKeepsLinks(s.tables, id);
      case LogStep(step) => LinksFrame(s.tables, AppendStep(s.tables, step), step.(runId := None));
    }
  }

  lemma {:induction false} MarksKeepLinks(t: Tables, which: Selector, result: MessageResult)
    requires StepsLinked(t)
    ensures StepsLinked(SetResults(t, which, result))
  {
    LinksFrame(t, SetResults(t, which, result), StepRow(None, None, 0, "", 0));
  }

  lemma {:induction false} PruneKeepsLinks(t: Tables, id: nat)
    requires StepsLinked(t)
    ensures StepsLinked(R.Without(t, {id}))
  {
    LinksFrame(t, R.Without(t, {id}), StepRow(None, None, 0, "", 0));
  }

  lemma {:induction false} LinksFrame(t: Tables, next: Tables, added: StepRow)
    requires StepsLinked(t) && next.lastRun == t.lastRun && added.runId.None?
    requires forall id :: id in next.runs ==> id in t.runs && next.runs[id].runId == t.runs[id].runId
    requires forall k :: k in next.steps ==> next.steps[k] == added || (k in t.steps && next.steps[k] == t.steps[k])
    ensures StepsLinked(next)
  {
    forall k | k in next.steps ensures Linked(next, next.steps[k]) {
      assert k in t.steps ==> Linked(t, t.steps[k]);
    }
  }

  lemma {:induction false} EveryReachableStateIsLinked(actions: seq<Action>)
    ensures StepsLinked(After(INITIAL, actions).tables)
    decreases |actions|
  {
    if actions != [] {
      EveryReachableStateIsLinked(actions[..|actions| - 1]);
      var before := After(INITIAL, actions[..|actions| - 1]);
      if Enabled(before, actions[|actions| - 1]) {
        StepKeepsLinks(before, actions[|actions| - 1]);
      }
    }
  }

  /** In every reachable state a step belongs to at most one history row, so pruning any rows leaves the steps and
      journal entries of all other runs alone. */
  lemma {:induction false} PruningSparesOtherRuns(actions: seq<Action>, options: R.Retention, id: nat)
    requires id in After(INITIAL, actions).tables.runs && id !in R.Doomed(After(INITIAL, actions).tables, options)
    ensures var t := After(INITIAL, actions).tables;
            var pruned := R.Without(t, R.Doomed(t, options));
            (forall k :: k in t.steps && R.Belongs(t, id, t.steps[k]) ==>
               k in pruned.steps && pruned.steps[k] == t.steps[k])
            && (forall e :: e in t.journal.rows && t.journal.rows[e].runId == Some(id) ==>
                  e in pruned.journal.rows && pruned.journal.rows[e] == t.journal.rows[e])
  {
    var t := After(INITIAL, actions).tables;
    EveryReachableState(actions);
    EveryReachableStateIsLinked(actions);
    forall k, a, b | k in t.steps && a in t.runs && b in t.runs
                     && R.Belongs(t, a, t.steps[k]) && R.Belongs(t, b, t.steps[k])
      ensures a == b
    {
      assert Linked(t, t.steps[k]);
    }
    R.KeptRunsUntouched(t, options, id);
  }
}
