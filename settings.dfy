/**
 * The settings screen's data exports (src/components/Settings.tsx): the CSV
 * file built from the workout logs and the record list prepared for the
 * spreadsheet sync.
 */
module Settings {
  import opened Records
  import opened Text

  const Header := "Date,Exercise,Sets,Reps,Weight,RPE,XP"

  /** `ex.exercise_name || ex.exercise_id`: the id stands in for a missing or empty name. */
  function Label(ex: LoggedExercise): (s: string)
  {
    if ex.exerciseName.Some? && ex.exerciseName.value != "" then ex.exerciseName.value else ex.exerciseId
  }

  /** `set.rpe || ''`: no RPE and an RPE of 0 both leave the column empty. */
  function RpeField(rpe: Option<int>): (s: string)
  {
    if rpe.Some? && rpe.value != 0 then IntToString(rpe.value) else ""
  }

  /** The seven values of one row, in column order. */
  function RowFields(date: string, title: string, index: nat, logged: LoggedSet, xp: int): (fields: seq<string>)
  {
    [date, title, NatToString(index), IntToString(logged.reps), IntToString(logged.weight), RpeField(logged.rpe), IntToString(xp)]
  }

  /** One row of the file: the values joined by commas, without quoting. */
  function Row(date: string, title: string, index: nat, logged: LoggedSet, xp: int): (row: string)
  {
    Join(RowFields(date, title, index, logged, xp), ",")
  }

  lemma NumberExcludes(n: int, c: char)
    requires c != '-' && !('0' <= c <= '9')
    ensures Excludes(IntToString(n), c)
  {
  }

  lemma RpeFieldExcludes(rpe: Option<int>, c: char)
    requires c != '-' && !('0' <= c <= '9')
    ensures Excludes(RpeField(rpe), c)
  {
    if rpe.Some? && rpe.value != 0 {
      NumberExcludes(rpe.value, c);
    }
  }

  /** With a comma-free date and title a row splits back into its seven values. */
  lemma RowSplitsIntoFields(date: string, title: string, index: nat, logged: LoggedSet, xp: int)
    requires Excludes(date, ',') && Excludes(title, ',')
    ensures Split(Row(date, title, index, logged, xp), ',') == RowFields(date, title, index, logged, xp)
    ensures |Split(Row(date, title, index, logged, xp), ',')| == 7
  {
    var fields := RowFields(date, title, index, logged, xp);
    NumberExcludes(index, ',');
    NumberExcludes(logged.reps, ',');
    NumberExcludes(logged.weight, ',');
    RpeFieldExcludes(logged.rpe, ',');
    NumberExcludes(xp, ',');
    SplitJoinRoundTrip(fields, ',');
  }

  /**
   * Nothing is quoted, so a comma inside an exercise name shifts the columns:
   * such a row splits into eight values (section 2, item 6 of RFC 4180 asks
   * for such a field to be enclosed in double quotes).
   */
  lemma CommaInLabelAddsAColumn(date: string, a: string, b: string, index: nat, logged: LoggedSet, xp: int)
    requires Excludes(date, ',') && Excludes(a, ',') && Excludes(b, ',')
    ensures |Split(Row(date, a + "," + b, index, logged, xp), ',')| == 8
  {
    var rest := [NatToString(index), IntToString(logged.reps), IntToString(logged.weight), RpeField(logged.rpe), IntToString(xp)];
    var spread := [date] + ([a] + ([b] + rest));
    assert RowFields(date, a + "," + b, index, logged, xp) == [date] + ([a + "," + b] + rest);
    JoinSpread(date, a, b, rest, ",");
    NumberExcludes(index, ',');
    NumberExcludes(logged.reps, ',');
    NumberExcludes(logged.weight, ',');
    RpeFieldExcludes(logged.rpe, ',');
    NumberExcludes(xp, ',');
    ExcludesCons(b, rest, ',');
    ExcludesCons(a, [b] + rest, ',');
    ExcludesCons(date, [a] + ([b] + rest), ',');
    SplitJoinRoundTrip(spread, ',');
  }

  /** The Sets column counts the sets of an exercise from 1. */
  function SetRows(date: string, ex: LoggedExercise, xp: int): (rows: seq<string>)
    ensures |rows| == |ex.sets|
  {
    seq(|ex.sets|, k requires 0 <= k < |ex.sets| => Row(date, Label(ex), k + 1, ex.sets[k], xp))
  }

  /** Row k of an exercise is its k-th set under the Sets value k + 1. */
  lemma SetRowsPointwise(date: string, ex: LoggedExercise, xp: int)
    ensures forall k :: 0 <= k < |ex.sets| ==> SetRows(date, ex, xp)[k] == Row(date, Label(ex), k + 1, ex.sets[k], xp)
  {
  }

  /** The rows of a log's exercises, exercise by exercise. */
  function ExercisesRows(date: string, exercises: seq<LoggedExercise>, xp: int): seq<string>
  {
    if exercises == [] then []
    else ExercisesRows(date, exercises[..|exercises| - 1], xp) + SetRows(date, exercises[|exercises| - 1], xp)
  }

  /** The rows of all logs, log by log. */
  function LogsRows(logs: seq<WorkoutLog>): seq<string>
  {
    if logs == [] then []
    else
      var log := logs[|logs| - 1];
      LogsRows(logs[..|logs| - 1]) + ExercisesRows(log.date, log.exercises, log.xpGained)
  }

  lemma ExercisesRowsSnoc(date: string, exercises: seq<LoggedExercise>, j: nat, xp: int)
    requires j < |exercises|
    ensures ExercisesRows(date, exercises[..j + 1], xp)
         == ExercisesRows(date, exercises[..j], xp) + SetRows(date, exercises[j], xp)
  {
    assert exercises[..j + 1][..j] == exercises[..j];
  }

  lemma LogsRowsSnoc(logs: seq<WorkoutLog>, i: nat)
    requires i < |logs|
    ensures LogsRows(logs[..i + 1])
         == LogsRows(logs[..i]) + ExercisesRows(logs[i].date, logs[i].exercises, logs[i].xpGained)
  {
    assert logs[..i + 1][..i] == logs[..i];
  }

  /** The lines of the exported file: the header, then one row per logged set. */
  function CsvLines(logs: seq<WorkoutLog>): (lines: seq<string>)
    ensures |lines| >= 1 && lines[0] == Header
  {
    [Header] + LogsRows(logs)
  }

  function CsvText(logs: seq<WorkoutLog>): string
  {
    Join(CsvLines(logs), "\n")
  }

  /** What pressing Export CSV produces: nothing without logs, otherwise the file's text. */
  datatype ExportOutcome = NoDataToExport | Exported(csv: string)

  /** The message the screen shows afterwards. */
  function ExportMessage(o: ExportOutcome): (m: string)
  {
    if o.NoDataToExport? then "No workout data to export" else "CSV exported successfully"
  }

  /** The innermost `forEach`: pushes one row per set of an exercise, numbering the sets from 1. */
  method PushSetRows(rows: seq<string>, date: string, ex: LoggedExercise, xp: int) returns (out: seq<string>)
    ensures out == rows + SetRows(date, ex, xp)
  {
    out := rows;
    var k := 0;
    while k < |ex.sets|
      invariant 0 <= k <= |ex.sets|
      invariant out == rows + SetRows(date, ex, xp)[..k]
    {
      out := out + [Row(date, Label(ex), k + 1, ex.sets[k], xp)];
      assert SetRows(date, ex, xp)[..k + 1] == SetRows(date, ex, xp)[..k] + [SetRows(date, ex, xp)[k]];
      k := k + 1;
    }
    assert SetRows(date, ex, xp)[..k] == SetRows(date, ex, xp);
  }

  /** The middle `forEach`: pushes the rows of a log's exercises in order. */
  method PushLogRows(rows: seq<string>, log: WorkoutLog) returns (out: seq<string>)
    ensures out == rows + ExercisesRows(log.date, log.exercises, log.xpGained)
  {
    out := rows;
    var j := 0;
    while j < |log.exercises|
      invariant 0 <= j <= |log.exercises|
      invariant out == rows + ExercisesRows(log.date, log.exercises[..j], log.xpGained)
    {
      ghost var done := ExercisesRows(log.date, log.exercises[..j], log.xpGained);
      ghost var next := SetRows(log.date, log.exercises[j], log.xpGained);
      ghost var prev := out;
      out := PushSetRows(out, log.date, log.exercises[j], log.xpGained);
      assert out == prev + next && prev == rows + done;
      assert out == rows + (done + next);
      ExercisesRowsSnoc(log.date, log.exercises, j, log.xpGained);
      j := j + 1;
    }
    assert log.exercises[..j] == log.exercises;
  }

  /** `exportCSV`: the header, then the rows of the logs in order, joined by line breaks. */
  method ExportCsv(logs: Option<seq<WorkoutLog>>) returns (outcome: ExportOutcome)
    ensures logs.None? || logs.value == [] ==> outcome == NoDataToExport
    ensures logs.Some? && logs.value != [] ==> outcome == Exported(CsvText(logs.value))
  {
    if logs.None? || |logs.value| == 0 {
      return NoDataToExport;
    }
    var all := logs.value;
    var rows := [Header];
    var i := 0;
    while i < |all|
      invariant 0 <= i <= |all|
      invariant rows == [Header] + LogsRows(all[..i])
    {
      rows := PushLogRows(rows, all[i]);
      LogsRowsSnoc(all, i);
      i := i + 1;
    }
    assert all[..i] == all;
    return Exported(Join(rows, "\n"));
  }

  /** Number of logged sets over a list of exercises. */
  function SetCount(exercises: seq<LoggedExercise>): nat
  {
    if exercises == [] then 0
    else SetCount(exercises[..|exercises| - 1]) + |exercises[|exercises| - 1].sets|
  }

  /** Number of logged sets over all logs. */
  function TotalSets(logs: seq<WorkoutLog>): nat
  {
    if logs == [] then 0 else TotalSets(logs[..|logs| - 1]) + SetCount(logs[|logs| - 1].exercises)
  }

  lemma {:induction false} ExercisesRowsCount(date: string, exercises: seq<LoggedExercise>, xp: int)
    ensures |ExercisesRows(date, exercises, xp)| == SetCount(exercises)
  {
    if exercises != [] {
      ExercisesRowsCount(date, exercises[..|exercises| - 1], xp);
    }
  }

  /** The file has one line for the header and one per logged set. */
  lemma {:induction false} LineCount(logs: seq<WorkoutLog>)
    ensures |CsvLines(logs)| == 1 + TotalSets(logs)
  {
    if logs != [] {
      LineCount(logs[..|logs| - 1]);
      var log := logs[|logs| - 1];
      ExercisesRowsCount(log.date, log.exercises, log.xpGained);
    }
  }

  /** Rows follow the order of the logs: the rows of a concatenation are the concatenated rows. */
  lemma {:induction false} LogsRowsConcat(a: seq<WorkoutLog>, b: seq<WorkoutLog>)
    ensures LogsRows(a + b) == LogsRows(a) + LogsRows(b)
  {
    if b == [] {
      assert a + b == a;
    } else {
      var init, last := b[..|b| - 1], b[|b| - 1];
      assert (a + b)[..|a + b| - 1] == a + init;
      assert (a + b)[|a + b| - 1] == last;
      LogsRowsConcat(a, init);
      var tail := ExercisesRows(last.date, last.exercises, last.xpGained);
      assert LogsRows(a + b) == LogsRows(a + init) + tail;
      assert LogsRows(b) == LogsRows(init) + tail;
      assert LogsRows(a + b) == (LogsRows(a) + LogsRows(init)) + tail;
    }
  }

  /** Within a log, rows follow the order of the exercises. */
  lemma {:induction false} ExercisesRowsConcat(date: string, a: seq<LoggedExercise>, b: seq<LoggedExercise>, xp: int)
    ensures ExercisesRows(date, a + b, xp) == ExercisesRows(date, a, xp) + ExercisesRows(date, b, xp)
  {
    if b == [] {
      assert a + b == a;
    } else {
      var init := b[..|b| - 1];
      assert (a + b)[..|a + b| - 1] == a + init;
      assert (a + b)[|a + b| - 1] == b[|b| - 1];
      ExercisesRowsConcat(date, a, init, xp);
      assert ExercisesRows(date, b, xp) == ExercisesRows(date, init, xp) + SetRows(date, b[|b| - 1], xp);
    }
  }

  /** The rows of a single one-exercise log are that exercise's sets, numbered from 1. */
  lemma SingleExerciseRows(log: WorkoutLog)
    requires |log.exercises| == 1
    ensures LogsRows([log]) == SetRows(log.date, log.exercises[0], log.xpGained)
  {
    assert log.exercises[..0] == [];
    assert [log][..0] == [];
    assert ExercisesRows(log.date, log.exercises, log.xpGained)
        == ExercisesRows(log.date, [], log.xpGained) + SetRows(log.date, log.exercises[0], log.xpGained);
  }

  /** The Sets value of row k of an exercise reads back as k + 1. */
  lemma SetsColumnCountsFromOne(date: string, ex: LoggedExercise, xp: int, k: nat)
    requires k < |ex.sets|
    requires Excludes(date, ',') && Excludes(Label(ex), ',')
    ensures |Split(SetRows(date, ex, xp)[k], ',')| == 7
    ensures IsDigits(Split(SetRows(date, ex, xp)[k], ',')[2])
    ensures DigitsValue(Split(SetRows(date, ex, xp)[k], ',')[2]) == k + 1
  {
    RowSplitsIntoFields(date, Label(ex), k + 1, ex.sets[k], xp);
    NatToStringValue(k + 1);
  }

  /** A row is never empty and never ends in a line break; with newline-free text it holds none. */
  lemma RowShape(date: string, title: string, index: nat, logged: LoggedSet, xp: int)
    ensures |Row(date, title, index, logged, xp)| >= 1
    ensures Row(date, title, index, logged, xp)[|Row(date, title, index, logged, xp)| - 1] != '\n'
    ensures Excludes(date, '\n') && Excludes(title, '\n') ==> Excludes(Row(date, title, index, logged, xp), '\n')
  {
    var fields := RowFields(date, title, index, logged, xp);
    JoinEndsLikeLast(fields, ",");
    if Excludes(date, '\n') && Excludes(title, '\n') {
      NumberExcludes(index, '\n');
      NumberExcludes(logged.reps, '\n');
      NumberExcludes(logged.weight, '\n');
      RpeFieldExcludes(logged.rpe, '\n');
      NumberExcludes(xp, '\n');
      JoinExcludes(fields, ",", '\n');
    }
  }

  /** No text of a log contains a line break: its date and its exercise labels. */
  predicate LogNewlineFree(log: WorkoutLog)
  {
    Excludes(log.date, '\n') && forall j :: 0 <= j < |log.exercises| ==> Excludes(Label(log.exercises[j]), '\n')
  }

  predicate NewlineFree(logs: seq<WorkoutLog>)
  {
    forall i :: 0 <= i < |logs| ==> LogNewlineFree(logs[i])
  }

  /** A line ending in something other than a line break. */
  predicate EndsOpen(line: string)
  {
    |line| >= 1 && line[|line| - 1] != '\n'
  }

  /** The rows of one exercise: none ends in a line break, and none holds one when its texts hold none. */
  lemma SetRowsShape(date: string, ex: LoggedExercise, xp: int)
    ensures forall k :: 0 <= k < |SetRows(date, ex, xp)| ==> EndsOpen(SetRows(date, ex, xp)[k])
    ensures Excludes(date, '\n') && Excludes(Label(ex), '\n') ==>
      forall k :: 0 <= k < |SetRows(date, ex, xp)| ==> Excludes(SetRows(date, ex, xp)[k], '\n')
  {
    var rows := SetRows(date, ex, xp);
    SetRowsPointwise(date, ex, xp);
    forall k | 0 <= k < |rows|
      ensures EndsOpen(rows[k])
      ensures Excludes(date, '\n') && Excludes(Label(ex), '\n') ==> Excludes(rows[k], '\n')
    {
      RowShape(date, Label(ex), k + 1, ex.sets[k], xp);
    }
  }

  lemma EndsOpenConcat(a: seq<string>, b: seq<string>)
    requires forall k :: 0 <= k < |a| ==> EndsOpen(a[k])
    requires forall k :: 0 <= k < |b| ==> EndsOpen(b[k])
    ensures forall k :: 0 <= k < |a + b| ==> EndsOpen((a + b)[k])
  {
    forall k | 0 <= k < |a + b| ensures EndsOpen((a + b)[k]) {
      if k >= |a| {
        assert (a + b)[k] == b[k - |a|];
      }
    }
  }

  lemma NewlineFreeConcat(a: seq<string>, b: seq<string>)
    requires forall k :: 0 <= k < |a| ==> Excludes(a[k], '\n')
    requires forall k :: 0 <= k < |b| ==> Excludes(b[k], '\n')
    ensures forall k :: 0 <= k < |a + b| ==> Excludes((a + b)[k], '\n')
  {
    forall k | 0 <= k < |a + b| ensures Excludes((a + b)[k], '\n') {
      if k >= |a| {
        assert (a + b)[k] == b[k - |a|];
      }
    }
  }

  lemma {:induction false} ExercisesRowsShape(date: string, exercises: seq<LoggedExercise>, xp: int)
    ensures forall k :: 0 <= k < |ExercisesRows(date, exercises, xp)| ==> EndsOpen(ExercisesRows(date, exercises, xp)[k])
    ensures Excludes(date, '\n') && (forall j :: 0 <= j < |exercises| ==> Excludes(Label(exercises[j]), '\n')) ==>
      forall k :: 0 <= k < |ExercisesRows(date, exercises, xp)| ==> Excludes(ExercisesRows(date, exercises, xp)[k], '\n')
  {
    if exercises != [] {
      var init := exercises[..|exercises| - 1];
      var ex := exercises[|exercises| - 1];
      ExercisesRowsShape(date, init, xp);
      SetRowsShape(date, ex, xp);
      var front := ExercisesRows(date, init, xp);
      var back := SetRows(date, ex, xp);
      assert ExercisesRows(date, exercises, xp) == front + back;
      EndsOpenConcat(front, back);
      if Excludes(date, '\n') && (forall j :: 0 <= j < |exercises| ==> Excludes(Label(exercises[j]), '\n')) {
        assert forall j :: 0 <= j < |init| ==> init[j] == exercises[j];
        assert Excludes(Label(ex), '\n');
        NewlineFreeConcat(front, back);
      }
    }
  }

  lemma {:induction false} LogsRowsShape(logs: seq<WorkoutLog>)
    ensures forall k :: 0 <= k < |LogsRows(logs)| ==> EndsOpen(LogsRows(logs)[k])
    ensures NewlineFree(logs) ==> forall k :: 0 <= k < |LogsRows(logs)| ==> Excludes(LogsRows(logs)[k], '\n')
  {
    if logs != [] {
      var init := logs[..|logs| - 1];
      var log := logs[|logs| - 1];
      LogsRowsShape(init);
      ExercisesRowsShape(log.date, log.exercises, log.xpGained);
      if NewlineFree(logs) {
        assert LogNewlineFree(logs[|logs| - 1]);
        forall i | 0 <= i < |init| ensures LogNewlineFree(init[i]) {
          assert init[i] == logs[i];
        }
      }
    }
  }

  /** The file starts with the header row. */
  lemma ExportStartsWithHeader(logs: seq<WorkoutLog>)
    ensures |Header| <= |CsvText(logs)| && CsvText(logs)[..|Header|] == Header
  {
    JoinStartsWithFirst(CsvLines(logs), "\n");
  }

  /** The rows are joined without a final line break. */
  lemma ExportHasNoTrailingNewline(logs: seq<WorkoutLog>)
    ensures |CsvText(logs)| >= 1 && CsvText(logs)[|CsvText(logs)| - 1] != '\n'
  {
    var lines := CsvLines(logs);
    LogsRowsShape(logs);
    if |lines| > 1 {
      assert lines[|lines| - 1] == LogsRows(logs)[|lines| - 2];
    }
    JoinEndsLikeLast(lines, "\n");
  }

  /** With newline-free dates and labels the file's lines are exactly the header and the rows. */
  lemma ExportLinesRoundTrip(logs: seq<WorkoutLog>)
    requires NewlineFree(logs)
    ensures Split(CsvText(logs), '\n') == CsvLines(logs)
  {
    var lines := CsvLines(logs);
    LogsRowsShape(logs);
    forall k | 0 <= k < |lines| ensures Excludes(lines[k], '\n') {
      if k > 0 {
        assert lines[k] == LogsRows(logs)[k - 1];
      }
    }
    SplitJoinRoundTrip(lines, '\n');
  }

  /** One entry of the spreadsheet sync: an exercise of a log with the log's date and xp. */
  datatype SyncRecord = SyncRecord(
    date: string,
    exerciseId: string,
    exerciseName: string,
    sets: seq<LoggedSet>,
    xpGained: int)

  /** The records of one log, one per exercise. */
  function LogRecords(log: WorkoutLog): (records: seq<SyncRecord>)
    ensures |records| == |log.exercises|
    ensures forall j :: 0 <= j < |records| ==>
      records[j] == SyncRecord(log.date, log.exercises[j].exerciseId, Label(log.exercises[j]),
                               log.exercises[j].sets, log.xpGained)
  {
    seq(|log.exercises|, j requires 0 <= j < |log.exercises| =>
      SyncRecord(log.date, log.exercises[j].exerciseId, Label(log.exercises[j]), log.exercises[j].sets, log.xpGained))
  }

  /** `logs.map(...).flat()`. */
  function SyncRecords(logs: seq<WorkoutLog>): seq<SyncRecord>
  {
    if logs == [] then [] else LogRecords(logs[0]) + SyncRecords(logs[1..])
  }

  /** Number of exercises over all logs. */
  function ExerciseCount(logs: seq<WorkoutLog>): nat
  {
    if logs == [] then 0 else |logs[0].exercises| + ExerciseCount(logs[1..])
  }

  /** There is one record per exercise of every log. */
  lemma {:induction false} SyncRecordCount(logs: seq<WorkoutLog>)
    ensures |SyncRecords(logs)| == ExerciseCount(logs)
  {
    if logs != [] {
      SyncRecordCount(logs[1..]);
    }
  }

  /** Every record carries the date and the xp of the log it comes from. */
  lemma {:induction false} SyncRecordsCarryTheirLog(logs: seq<WorkoutLog>, r: SyncRecord)
    requires r in SyncRecords(logs)
    ensures exists i :: 0 <= i < |logs| && r.date == logs[i].date && r.xpGained == logs[i].xpGained
  {
    var head := LogRecords(logs[0]);
    if r in head {
      var j :| 0 <= j < |head| && head[j] == r;
    } else {
      SyncRecordsCarryTheirLog(logs[1..], r);
      var i :| 0 <= i < |logs[1..]| && r.date == logs[1..][i].date && r.xpGained == logs[1..][i].xpGained;
      assert logs[1..][i] == logs[i + 1];
    }
  }

  /** What pressing Sync produces: nothing without logs, otherwise the records and a count message. */
  datatype SyncOutcome = NothingToSync | ReadyToSync(records: seq<SyncRecord>, message: string)

  /** `syncToDrive`, up to the message it shows; the upload itself does not exist in the app. */
  function SyncToDrive(logs: Option<seq<WorkoutLog>>): (o: SyncOutcome)
    ensures logs.None? || logs.value == [] <==> o.NothingToSync?
    ensures o.ReadyToSync? ==> |o.records| == ExerciseCount(logs.value)
    ensures o.ReadyToSync? ==>
      o.message == "Ready to sync " + NatToString(ExerciseCount(logs.value))
                   + " exercise records. Google Drive integration requires OAuth configuration."
  {
    if logs.None? || |logs.value| == 0 then NothingToSync
    else
      var records := SyncRecords(logs.value);
      SyncRecordCount(logs.value);
      ReadyToSync(records, "Ready to sync " + NatToString(|records|)
        + " exercise records. Google Drive integration requires OAuth configuration.")
  }

  /** The message when there is nothing to sync. */
  function SyncMessage(o: SyncOutcome): (m: string)
    ensures o.NothingToSync? ==> m == "No workout data to sync"
    ensures o.ReadyToSync? ==> m == o.message
  {
    if o.NothingToSync? then "No workout data to sync" else o.message
  }
}
