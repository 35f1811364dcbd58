/** Pruning of terminal drift history (packages/drift/src/state.ts, pruneHistory). */
module DriftRetention {
  import opened Messages
  import opened DriftStore

  const DAY_MS := 86400000.0

  /** The caller's limits as given; a negative one counts as absent and a run limit is rounded down. */
  datatype Retention = Retention(maxAgeDays: Option<real>, maxRuns: Option<real>, now: int)

  function Normalized(value: Option<real>): Option<real> {
    if value.Some? && value.value >= 0.0 then value else None
  }

  function MaxRuns(options: Retention): (limit: Option<nat>)
    ensures limit.None? <==> options.maxRuns.None? || options.maxRuns.value < 0.0
    ensures limit.Some? ==>
              options.maxRuns.Some? && limit.value as real <= options.maxRuns.value < limit.value as real + 1.0
  {
    match Normalized(options.maxRuns)
    case Some(value) => Some(value.Floor)
    case None => None
  }

  function AgeCutoff(options: Retention): Option<real> {
    match Normalized(options.maxAgeDays)
    case Some(days) => Some(options.now as real - days * DAY_MS)
    case None => None
  }

  // ---------------------------------------------------------------------
  // Which rows go
  // ---------------------------------------------------------------------

  predicate Terminal(t: Tables, id: nat) {
    id in t.runs && t.runs[id].messageResult != Staged
  }

  function EndedAt(row: RunRow): int {
    Pick(row.finishedAt, row.runAt)
  }

  predicate Newer(t: Tables, a: nat, b: nat)
    requires a in t.runs && b in t.runs
  {
    EndedAt(t.runs[a]) > EndedAt(t.runs[b]) || (EndedAt(t.runs[a]) == EndedAt(t.runs[b]) && a > b)
  }

  function NewerTerminal(t: Tables, id: nat): set<nat>
    requires id in t.runs
  {
    set other | other in t.runs && Terminal(t, other) && Newer(t, other, id)
  }

  predicate AgeExpired(t: Tables, options: Retention, id: nat)
    requires id in t.runs
  {
    AgeCutoff(options).Some? && EndedAt(t.runs[id]) as real < AgeCutoff(options).value
  }

  /** Not among the maxRuns newest terminal rows. */
  predicate CountExpired(t: Tables, options: Retention, id: nat)
    requires id in t.runs
  {
    MaxRuns(options).Some? && |NewerTerminal(t, id)| >= MaxRuns(options).value
  }

  function Doomed(t: Tables, options: Retention): set<nat> {
    set id | id in t.runs && Terminal(t, id) && (AgeExpired(t, options, id) || CountExpired(t, options, id))
  }

  // ---------------------------------------------------------------------
  // What goes with them
  // ---------------------------------------------------------------------

  predicate Belongs(t: Tables, id: nat, step: StepRow)
    requires id in t.runs
  {
    || step.runId == Some(id)
    || (t.runs[id].runId.Some? && t.runs[id].runId.value != "" && step.runKey == t.runs[id].runId)
  }

  function StepsOf(t: Tables, ids: set<nat>): set<nat> {
    set s, id | id in ids && id in t.runs && s in t.steps && Belongs(t, id, t.steps[s]) :: s
  }

  function EntriesOf(t: Tables, ids: set<nat>): set<nat> {
    set e, id | id in ids && e in t.journal.rows && t.journal.rows[e].runId == Some(id) :: e
  }

  /** The tables without the given runs, their steps and their journal entries; nothing else changes. */
  function Without(t: Tables, ids: set<nat>): Tables {
    t.(runs := t.runs - ids, steps := t.steps - StepsOf(t, ids),
       journal := t.journal.(rows := t.journal.rows - EntriesOf(t, ids)))
  }

  lemma {:induction false} WithoutOneMore(t: Tables, gone: set<nat>, id: nat)
    requires id in t.runs && id !in gone
    ensures Without(Without(t, gone), {id}) == Without(t, gone + {id})
  {
    var u := Without(t, gone);
    forall s | s in t.steps ensures s in StepsOf(t, gone + {id}) <==> s in StepsOf(t, gone) || s in StepsOf(u, {id}) {
      if s in StepsOf(t, gone + {id}) {
        var x :| x in gone + {id} && x in t.runs && Belongs(t, x, t.steps[s]);
        if x != id {
          assert x in gone;
        } else if s in u.steps {
          assert Belongs(u, id, u.steps[s]);
        }
      }
      if s in StepsOf(u, {id}) {
        assert Belongs(t, id, t.steps[s]);
      }
    }
    assert Without(u, {id}).steps == Without(t, gone + {id}).steps;
    assert Without(u, {id}).journal.rows == Without(t, gone + {id}).journal.rows;
    assert Without(u, {id}).runs == Without(t, gone + {id}).runs;
  }

  // ---------------------------------------------------------------------
  // The scan's order and the rank of a row
  // ---------------------------------------------------------------------

  /** The rows of the history query: all terminal ones, newest first, ties by descending id. */
  ghost predicate IsHistoryScan(rows: seq<nat>, t: Tables) {
    && (forall id :: id in rows <==> Terminal(t, id))
    && (forall i :: 0 <= i < |rows| ==> rows[i] in t.runs)
    && (forall i, j :: 0 <= i < j < |rows| ==> Newer(t, rows[i], rows[j]))
  }

  function Elements(rows: seq<nat>): set<nat> {
    set id | id in rows
  }

  lemma {:induction false} DistinctCount(rows: seq<nat>)
    requires forall i, j :: 0 <= i < j < |rows| ==> rows[i] != rows[j]
    ensures |Elements(rows)| == |rows|
    decreases |rows|
  {
    if rows != [] {
      var n := |rows| - 1;
      DistinctCount(rows[..n]);
      assert Elements(rows) == Elements(rows[..n]) + {rows[n]};
    }
  }

  lemma {:induction false} NewerOneWay(t: Tables, a: nat, b: nat)
    requires a in t.runs && b in t.runs && Newer(t, a, b)
    ensures a != b && !Newer(t, b, a)
  {
  }

  lemma {:induction false} NewerComesFirst(rows: seq<nat>, t: Tables, i: nat, k: nat)
    requires IsHistoryScan(rows, t) && i < |rows| && k < |rows| && Newer(t, rows[i], rows[k])
    ensures i < k
  {
    NewerOneWay(t, rows[i], rows[k]);
  }

  /** The position of a terminal row in the scan is the number of newer terminal rows. */
  lemma {:induction false} PositionIsRank(rows: seq<nat>, t: Tables, k: nat)
    requires IsHistoryScan(rows, t) && k < |rows|
    ensures |NewerTerminal(t, rows[k])| == k
  {
    forall i, j | 0 <= i < j < |rows[..k]| ensures rows[..k][i] != rows[..k][j] {
      assert Newer(t, rows[i], rows[j]);
    }
    DistinctCount(rows[..k]);
    forall id ensures id in NewerTerminal(t, rows[k]) <==> id in Elements(rows[..k]) {
      if id in Elements(rows[..k]) {
        var i :| 0 <= i < k && rows[i] == id;
        assert Newer(t, rows[i], rows[k]);
      }
      if id in NewerTerminal(t, rows[k]) {
        assert id in rows;
        var i :| 0 <= i < |rows| && rows[i] == id;
        NewerComesFirst(rows, t, i, k);
      }
    }
    assert NewerTerminal(t, rows[k]) == Elements(rows[..k]);
  }

  // ---------------------------------------------------------------------
  // Pruning
  // ---------------------------------------------------------------------

  datatype PruneCounts = PruneCounts(runs: nat, steps: nat, entries: nat)

  function Kept(options: Retention, rows: seq<nat>): set<nat> {
    match MaxRuns(options)
    case Some(limit) => Elements(rows[..if limit <= |rows| then limit else |rows|])
    case None => {}
  }

  lemma {:induction false} KeptMeansNewest(options: Retention, rows: seq<nat>, t: Tables, k: nat)
    requires IsHistoryScan(rows, t) && k < |rows| && MaxRuns(options).Some?
    ensures rows[k] !in Kept(options, rows) <==> CountExpired(t, options, rows[k])
  {
    PositionIsRank(rows, t, k);
    var limit := MaxRuns(options).value;
    if k < limit {
      assert rows[..if limit <= |rows| then limit else |rows|][k] == rows[k];
    } else {
      forall i | 0 <= i < limit ensures rows[i] != rows[k] {
        assert Newer(t, rows[i], rows[k]);
      }
    }
  }

  /** The rows the two limits reject, in scan order. */
  method SelectDoomed(t: Tables, options: Retention, rows: seq<nat>) returns (doomed: seq<nat>)
    requires IsHistoryScan(rows, t)
    ensures Elements(doomed) == Doomed(t, options)
    ensures forall i, j :: 0 <= i < j < |doomed| ==> doomed[i] != doomed[j]
  {
    var keep := Kept(options, rows);
    var cutoff := AgeCutoff(options);
    doomed := [];
    for k := 0 to |rows|
      invariant forall id :: id in doomed <==> id in rows[..k] && id in Doomed(t, options)
      invariant forall i, j :: 0 <= i < j < |doomed| ==> doomed[i] != doomed[j]
    {
      var row := t.runs[rows[k]];
      var ageExpired := cutoff.Some? && Pick(row.finishedAt, row.runAt) as real < cutoff.value;
      var countExpired := MaxRuns(options).Some? && rows[k] !in keep;
      if MaxRuns(options).Some? {
        KeptMeansNewest(options, rows, t, k);
      }
      assert rows[..k + 1] == rows[..k] + [rows[k]];
      assert rows[k] !in rows[..k] by {
        forall i | 0 <= i < k ensures rows[i] != rows[k] {
          assert Newer(t, rows[i], rows[k]);
        }
      }
      assert Terminal(t, rows[k]) && (ageExpired <==> AgeExpired(t, options, rows[k]));
      if ageExpired || countExpired {
        doomed := doomed + [rows[k]];
      }
    }
    assert rows[..|rows|] == rows;
  }

  function WithRunKey(steps: map<nat, StepRow>, runKey: Option<string>): set<nat> {
    set s | s in steps && runKey.Some? && runKey.value != "" && steps[s].runKey == runKey
  }

  function WithRunId(steps: map<nat, StepRow>, id: nat): set<nat> {
    set s | s in steps && steps[s].runId == Some(id)
  }

  lemma {:induction false} BothDeletes(t: Tables, id: nat)
    requires id in t.runs
    ensures var afterKey := t.steps - WithRunKey(t.steps, t.runs[id].runId);
            afterKey - WithRunId(afterKey, id) == t.steps - StepsOf(t, {id})
  {
    var afterKey := t.steps - WithRunKey(t.steps, t.runs[id].runId);
    forall s | s in t.steps
      ensures s in StepsOf(t, {id}) <==> s in WithRunKey(t.steps, t.runs[id].runId) || s in WithRunId(afterKey, id)
    {
      assert s in StepsOf(t, {id}) <==> Belongs(t, id, t.steps[s]);
    }
  }

  method DeleteSteps(t: Tables, id: nat) returns (left: map<nat, StepRow>, deleted: nat)
    requires id in t.runs
    ensures left == t.steps - StepsOf(t, {id})
    ensures deleted == |t.steps| - |left|
  {
    var byKey := WithRunKey(t.steps, t.runs[id].runId);
    var afterKey := t.steps - byKey;
    var byId := WithRunId(afterKey, id);
    left := afterKey - byId;
    deleted := |byKey| + |byId|;
    SubsetSize(byKey, t.steps);
    SubsetSize(byId, afterKey);
    BothDeletes(t, id);
  }

  method DeleteEntries(t: Tables, id: nat) returns (left: map<nat, JournalRow>, deleted: nat)
    ensures left == t.journal.rows - EntriesOf(t, {id})
    ensures deleted == |t.journal.rows| - |left|
  {
    var entries := set e | e in t.journal.rows && t.journal.rows[e].runId == Some(id);
    left := t.journal.rows - entries;
    SubsetSize(entries, t.journal.rows);
    deleted := |entries|;
    assert EntriesOf(t, {id}) == entries;
  }

  /** The deletes of one row, with the number of records each removed. */
  method DeleteRun(t: Tables, id: nat, counts: PruneCounts) returns (next: Tables, total: PruneCounts)
    requires Terminal(t, id)
    ensures next == Without(t, {id})
    ensures total.runs == counts.runs + 1
    ensures total.steps == counts.steps + |t.steps| - |next.steps|
    ensures total.entries == counts.entries + |t.journal.rows| - |next.journal.rows|
  {
    var steps, stepsDeleted := DeleteSteps(t, id);
    var entries, entriesDeleted := DeleteEntries(t, id);
    next := t.(steps := steps, journal := t.journal.(rows := entries));
    if t.runs[id].messageResult != Staged {
      next := next.(runs := next.runs - {id});
    }
    total := PruneCounts(counts.runs + 1, counts.steps + stepsDeleted, counts.entries + entriesDeleted);
  }

  lemma {:induction false} SubsetSize<T>(gone: set<nat>, rows: map<nat, T>)
    requires gone <= rows.Keys
    ensures |rows - gone| == |rows| - |gone|
  {
    assert (rows - gone).Keys == rows.Keys - gone;
    assert |rows| == |rows.Keys| && |rows - gone| == |(rows - gone).Keys|;
  }

  /** The first i doomed rows are gone, and the counts say what went with them. */
  ghost predicate GoneSoFar(before: Tables, doomed: seq<nat>, i: nat, t: Tables, counts: PruneCounts)
    requires i <= |doomed|
  {
    && t == Without(before, Elements(doomed[..i]))
    && counts.runs == i && counts.steps == |before.steps| - |t.steps|
    && counts.entries == |before.journal.rows| - |t.journal.rows|
  }

  lemma {:induction false} NoneGoneSoFar(before: Tables, doomed: seq<nat>)
    ensures GoneSoFar(before, doomed, 0, before, PruneCounts(0, 0, 0))
  {
    NothingGone(before);
    assert Elements(doomed[..0]) == {};
  }

  method DeleteNext(before: Tables, doomed: seq<nat>, i: nat, t: Tables, counts: PruneCounts)
      returns (next: Tables, total: PruneCounts)
    requires forall a, b :: 0 <= a < b < |doomed| ==> doomed[a] != doomed[b]
    requires i < |doomed| && Terminal(before, doomed[i]) && GoneSoFar(before, doomed, i, t, counts)
    ensures GoneSoFar(before, doomed, i + 1, next, total)
  {
    NextGone(before, doomed, i, t);
    next, total := DeleteRun(t, doomed[i], counts);
  }

  method DeleteRuns(before: Tables, doomed: seq<nat>) returns (t: Tables, counts: PruneCounts)
    requires forall i :: 0 <= i < |doomed| ==> Terminal(before, doomed[i])
    requires forall i, j :: 0 <= i < j < |doomed| ==> doomed[i] != doomed[j]
    ensures t == Without(before, Elements(doomed))
    ensures counts.runs == |doomed| && counts.steps == |before.steps| - |t.steps|
    ensures counts.entries == |before.journal.rows| - |t.journal.rows|
  {
    t, counts := before, PruneCounts(0, 0, 0);
    NoneGoneSoFar(before, doomed);
    for i := 0 to |doomed|
      invariant GoneSoFar(before, doomed, i, t, counts)
    {
      t, counts := DeleteNext(before, doomed, i, t, counts);
    }
    assert doomed[..|doomed|] == doomed;
  }

  lemma {:induction false} NextGone(before: Tables, doomed: seq<nat>, i: nat, t: Tables)
    requires forall a, b :: 0 <= a < b < |doomed| ==> doomed[a] != doomed[b]
    requires i < |doomed| && Terminal(before, doomed[i]) && t == Without(before, Elements(doomed[..i]))
    ensures Terminal(t, doomed[i])
    ensures Without(t, {doomed[i]}) == Without(before, Elements(doomed[..i + 1]))
  {
    NotAmong(doomed, i);
    WithoutOneMore(before, Elements(doomed[..i]), doomed[i]);
  }

  lemma {:induction false} NotAmong(rows: seq<nat>, i: nat)
    requires i < |rows| && forall a, b :: 0 <= a < b < |rows| ==> rows[a] != rows[b]
    ensures rows[i] !in Elements(rows[..i])
    ensures Elements(rows[..i + 1]) == Elements(rows[..i]) + {rows[i]}
  {
    assert rows[..i + 1] == rows[..i] + [rows[i]];
  }

  /** Deletes exactly the doomed rows with their records, and reports how many records went. */
  method PruneHistory(db: Database, options: Retention, rows: seq<nat>) returns (counts: PruneCounts)
    requires IsHistoryScan(rows, db.tables)
    modifies db
    ensures db.tables == Without(old(db.tables), Doomed(old(db.tables), options))
    ensures counts.runs == |Doomed(old(db.tables), options)|
    ensures counts.steps == |old(db.tables).steps| - |db.tables.steps|
    ensures counts.entries == |old(db.tables).journal.rows| - |db.tables.journal.rows|
  {
    counts := PruneCounts(0, 0, 0);
    NothingGone(db.tables);
    if Normalized(options.maxAgeDays).None? && Normalized(options.maxRuns).None? {
      assert Doomed(db.tables, options) == {};
      return;
    }
    var doomed := SelectDoomed(db.tables, options, rows);
    DistinctCount(doomed);
    if |doomed| == 0 {
      return;
    }
    forall i | 0 <= i < |doomed| ensures Terminal(db.tables, doomed[i]) {
      assert doomed[i] in Elements(doomed);
    }
    var t;
    t, counts := DeleteRuns(db.tables, doomed);
    db.tables := t;
  }

  lemma {:induction false} NothingGone(t: Tables)
    ensures Without(t, {}) == t
  {
    assert t.runs - {} == t.runs && t.steps - {} == t.steps && t.journal.rows - {} == t.journal.rows;
    assert StepsOf(t, {}) == {} && EntriesOf(t, {}) == {};
  }

  // ---------------------------------------------------------------------
  // What pruning keeps
  // ---------------------------------------------------------------------

  /** When a run ended; a row without that time counts from when it was recorded. */
  function EndOf(row: RunRow): int {
    if row.finishedAt.Some? then row.finishedAt.value else row.runAt
  }

  /** The terminal rows that ended later, or at the same time with a later id. */
  function LaterRows(t: Tables, id: nat): set<nat>
    requires id in t.runs
  {
    set x | x in t.runs && t.runs[x].messageResult != Staged
            && (EndOf(t.runs[x]) > EndOf(t.runs[id]) || (EndOf(t.runs[x]) == EndOf(t.runs[id]) && x > id))
  }

  /** In terms of the tables: a row goes exactly when its message is not staged and it either ended more than the given
      days ago or has at least as many later rows as may be kept; negative limits do not count. What stays is
      unchanged. */
  lemma {:induction false} PrunedExactly(t: Tables, options: Retention, id: nat)
    requires id in t.runs
    ensures var after, row := Without(t, Doomed(t, options)), t.runs[id];
            var tooOld := options.maxAgeDays.Some? && options.maxAgeDays.value >= 0.0
                          && EndOf(row) as real < options.now as real - options.maxAgeDays.value * (24.0 * 3600000.0);
            var tooMany := options.maxRuns.Some? && options.maxRuns.value >= 0.0
                           && |LaterRows(t, id)| >= options.maxRuns.value.Floor;
            && (id !in after.runs <==> row.messageResult != Staged && (tooOld || tooMany))
            && (id in after.runs ==> after.runs[id] == row)
  {
    assert LaterRows(t, id) == NewerTerminal(t, id);
  }

  /** A row survives exactly when it is staged, or neither too old nor beyond the newest maxRuns; and then unchanged. */
  lemma {:induction false} SurvivorsExactly(t: Tables, options: Retention, id: nat)
    requires id in t.runs
    ensures var after := Without(t, Doomed(t, options));
            (id in after.runs <==>
              !Terminal(t, id) || (!AgeExpired(t, options, id) && !CountExpired(t, options, id)))
            && (id in after.runs ==> after.runs[id] == t.runs[id])
  {
    assert id in Doomed(t, options) <==>
             Terminal(t, id) && (AgeExpired(t, options, id) || CountExpired(t, options, id));
  }

  /** No step or journal entry of a removed run is left, and only those went. */
  lemma {:induction false} NoOrphans(t: Tables, options: Retention, id: nat)
    requires id in Doomed(t, options)
    ensures var after := Without(t, Doomed(t, options));
            (forall s :: s in after.steps ==> !Belongs(t, id, after.steps[s]))
            && (forall e :: e in after.journal.rows ==> after.journal.rows[e].runId != Some(id))
  {
    var gone := Doomed(t, options);
    var after := Without(t, gone);
    forall s | s in after.steps ensures !Belongs(t, id, after.steps[s]) {
      assert Belongs(t, id, t.steps[s]) ==> s in StepsOf(t, gone);
    }
    forall e | e in after.journal.rows ensures after.journal.rows[e].runId != Some(id) {
      assert t.journal.rows[e].runId == Some(id) ==> e in EntriesOf(t, gone);
    }
  }

  /** Every step belongs to at most one run. */
  ghost predicate StepsUnshared(t: Tables) {
    forall s, a, b :: s in t.steps && a in t.runs && b in t.runs
                      && Belongs(t, a, t.steps[s]) && Belongs(t, b, t.steps[s])
      ==> a == b
  }

  /** Nothing that belongs to a kept run, and nothing of the skills' continuity or the live leases, changes. */
  lemma {:induction false} KeptRunsUntouched(t: Tables, options: Retention, id: nat)
    requires StepsUnshared(t) && id in t.runs && id !in Doomed(t, options)
    ensures var after := Without(t, Doomed(t, options));
            (forall s :: s in t.steps && Belongs(t, id, t.steps[s]) ==>
               s in after.steps && after.steps[s] == t.steps[s])
            && (forall e :: e in t.journal.rows && t.journal.rows[e].runId == Some(id) ==>
                  e in after.journal.rows && after.journal.rows[e] == t.journal.rows[e])
            && after.continuum == t.continuum && after.active == t.active && after.lastRun == t.lastRun
  {
    var gone := Doomed(t, options);
    forall s | s in t.steps && Belongs(t, id, t.steps[s]) ensures s !in StepsOf(t, gone) {
      forall x | x in gone && x in t.runs ensures !Belongs(t, x, t.steps[s]) {
        assert Belongs(t, x, t.steps[s]) ==> x == id;
      }
    }
  }

  /** At most maxRuns terminal rows are left. */
  lemma {:induction false} AtMostMaxRuns(t: Tables, options: Retention, rows: seq<nat>)
    requires IsHistoryScan(rows, t) && MaxRuns(options).Some?
    ensures var after := Without(t, Doomed(t, options));
            |set id | id in after.runs && Terminal(after, id)| <= MaxRuns(options).value
  {
    var after := Without(t, Doomed(t, options));
    var limit := MaxRuns(options).value;
    var left := set id | id in after.runs && Terminal(after, id);
    var newest := rows[..if limit <= |rows| then limit else |rows|];
    forall id | id in left ensures id in Elements(newest) {
      SurvivorsExactly(t, options, id);
      assert id in rows;
      var k :| 0 <= k < |rows| && rows[k] == id;
      KeptMeansNewest(options, rows, t, k);
    }
    forall i, j | 0 <= i < j < |newest| ensures newest[i] != newest[j] {
      assert Newer(t, rows[i], rows[j]);
    }
    DistinctCount(newest);
    SubsetCount(left, Elements(newest));
  }

  lemma {:induction false} SubsetCount(a: set<nat>, b: set<nat>)
    requires a <= b
    ensures |a| <= |b|
  {
    assert b == a + (b - a);
    assert |b| == |a| + |b - a|;
  }
}
