/** The batch controller: row gate, fallback skip action, per-row dispatch,
    the short-circuiting series over the dispatched tasks, and the exported
    runner's argument validation and single terminal callback. */
module ControlRunner {
  import opened Js
  import opened Sheet

  // ---------------------------------------------------------------------------
  // Row gate and dispatch

  /** `isRowProcessable`: strict string equality on the two status cells. */
  predicate IsRowProcessable(d: RowData) {
    d.progress == NotStarted && d.skippable == "FALSE"
  }

  /** The task a row is mapped to: the caller's processor or the fallback. */
  datatype Task = Provided | Fallback

  function Choose(d: RowData): Task {
    if IsRowProcessable(d) then Provided else Fallback
  }

  /** `rows.map(row => isRowProcessable(row) ? providedRowProcessor(row) : fallbackRowProcessor(row))` */
  function Dispatch(rows: seq<RowData>): (tasks: seq<Task>)
    ensures |tasks| == |rows|
    ensures forall i :: 0 <= i < |rows| ==> (tasks[i] == Provided <==> IsRowProcessable(rows[i]))
  {
    if rows == [] then [] else [Choose(rows[0])] + Dispatch(rows[1..])
  }

  // ---------------------------------------------------------------------------
  // What a task does to its row

  /** The observable behaviour of one task on its row: the `progress` values it
      writes, each followed by a save, then how it ends. */
  datatype Step = Step(writes: seq<string>, completion: Completion)

  /** A caller-supplied row processor, given by what its task does to a row
      with the given cells. */
  type RowProcessor = RowData -> Step

  function SkipMessage(id: string): string {
    "Skipped row: " + id
  }

  /** `fallbackRowProcessor(row)`: only a NOT_STARTED row is rewritten. */
  function FallbackStep(d: RowData): Step {
    Step(if d.progress == NotStarted then [Skipped] else [], Completed(Signal(Null, Str(SkipMessage(d.id)))))
  }

  lemma FallbackContract(d: RowData)
    ensures FallbackStep(d).completion == Completed(Signal(Null, Str(SkipMessage(d.id))))
    ensures !FallbackStep(d).completion.Stops()
    ensures FallbackStep(d).writes != [] <==> d.progress == NotStarted
    ensures FallbackStep(d).writes != [] ==> FallbackStep(d).writes == [Skipped]
    ensures Lifecycle(d.progress, FallbackStep(d).writes)
  {
  }

  /** Running the fallback on a row it has already handled writes nothing. */
  lemma FallbackIdempotent(d: RowData)
    ensures FallbackStep(Applied(d, FallbackStep(d).writes)).writes == []
    ensures FallbackStep(Applied(d, FallbackStep(d).writes)).completion == FallbackStep(d).completion
  {
  }

  /** The fallback task run on a mutable row. */
  method FallbackRowProcessor(row: Row) returns (signal: Signal)
    modifies row`progress, row`saved, row.sheet`log
    ensures row.saved == old(row.saved) + FallbackStep(old(row.Data())).writes
    ensures row.sheet.log == old(row.sheet.log) + Saves(row, FallbackStep(old(row.Data())).writes)
    ensures row.Data() == Applied(old(row.Data()), FallbackStep(old(row.Data())).writes)
    ensures Completed(signal) == FallbackStep(old(row.Data())).completion
  {
    if row.progress == NotStarted {
      row.progress := Skipped;
      row.Save();
    }
    signal := Signal(Null, Str(SkipMessage(row.id)));
  }

  /** Carries out a processor's writes on a row, saving after each one. */
  method Perform(row: Row, writes: seq<string>)
    modifies row`progress, row`saved, row.sheet`log
    ensures row.saved == old(row.saved) + writes
    ensures row.sheet.log == old(row.sheet.log) + Saves(row, writes)
    ensures row.Data() == Applied(old(row.Data()), writes)
  {
    var k := 0;
    while k < |writes|
      invariant 0 <= k <= |writes|
      invariant row.saved == old(row.saved) + writes[..k]
      invariant row.sheet.log == old(row.sheet.log) + Saves(row, writes[..k])
      invariant row.Data() == Applied(old(row.Data()), writes[..k])
    {
      row.progress := writes[k];
      row.Save();
      k := k + 1;
    }
    assert writes[..k] == writes;
  }

  /** Runs one dispatched task on its row. */
  method RunTask(row: Row, t: Task, processor: RowProcessor) returns (completion: Completion)
    modifies row`progress, row`saved, row.sheet`log
    ensures row.saved == old(row.saved) + TaskStep(t, old(row.Data()), processor).writes
    ensures row.sheet.log == old(row.sheet.log) + Saves(row, TaskStep(t, old(row.Data()), processor).writes)
    ensures row.Data() == Applied(old(row.Data()), TaskStep(t, old(row.Data()), processor).writes)
    ensures completion == TaskStep(t, old(row.Data()), processor).completion
  {
    if t == Provided {
      var step := processor(row.Data());
      Perform(row, step.writes);
      completion := step.completion;
    } else {
      var signal := FallbackRowProcessor(row);
      completion := Completed(signal);
    }
  }

  function TaskStep(t: Task, d: RowData, processor: RowProcessor): Step {
    match t
    case Provided => processor(d)
    case Fallback => FallbackStep(d)
  }

  /** The step each fetched row's dispatched task takes, in fetch order. */
  function Plan(rows: seq<RowData>, processor: RowProcessor): (steps: seq<Step>)
    ensures |steps| == |rows|
    ensures forall i :: 0 <= i < |rows| ==> steps[i] == TaskStep(Choose(rows[i]), rows[i], processor)
  {
    var tasks := Dispatch(rows);
    seq(|rows|, i requires 0 <= i < |rows| => TaskStep(tasks[i], rows[i], processor))
  }

  /** Only rows that pass the gate reach the caller's processor, and every
      one of them does. */
  lemma {:induction false} PlanRoutesByGate(rows: seq<RowData>, processor: RowProcessor, i: nat)
    requires i < |rows|
    ensures IsRowProcessable(rows[i]) ==> Plan(rows, processor)[i] == processor(rows[i])
    ensures !IsRowProcessable(rows[i]) ==> Plan(rows, processor)[i] == FallbackStep(rows[i])
  {
  }

  function Completions(steps: seq<Step>): (s: seq<Completion>)
    ensures |s| == |steps|
    ensures forall i :: 0 <= i < |steps| ==> s[i] == steps[i].completion
  {
    if steps == [] then [] else [steps[0].completion] + Completions(steps[1..])
  }

  // ---------------------------------------------------------------------------
  // async.series over the tasks

  /** What `async.series(tasks, step)` calls `step` with, or None when it never
      calls it. Tasks run in order. The first one that errs ends the series
      with its error; one that throws before calling back leaves the series
      waiting forever. Otherwise the results, one per task, in order. */
  function SeriesOutcome(cs: seq<Completion>): Option<Result<seq<Value>, Value>> {
    if cs == [] then Some(Ok([]))
    else match cs[0]
      case Threw => None
      case Completed(s) =>
        if s.IsError() then Some(Err(s.err))
        else match SeriesOutcome(cs[1..])
          case Some(Ok(rest)) => Some(Ok([s.result] + rest))
          case other => other
  }

  /** Index of the first task the series does not go on past, or `|cs|`. */
  function FirstStop(cs: seq<Completion>): (k: nat)
    ensures k <= |cs|
    ensures forall i :: 0 <= i < k ==> !cs[i].Stops()
    ensures k < |cs| ==> cs[k].Stops()
  {
    if cs == [] then 0
    else if cs[0].Stops() then 0
    else 1 + FirstStop(cs[1..])
  }

  /** How many tasks the series starts: up to and including the first stopping one. */
  function TasksRun(cs: seq<Completion>): nat {
    if FirstStop(cs) < |cs| then FirstStop(cs) + 1 else |cs|
  }

  function Results(cs: seq<Completion>): (r: seq<Value>)
    ensures |r| == |cs|
    ensures forall i :: 0 <= i < |cs| ==> r[i] == ResultOf(cs[i])
  {
    if cs == [] then [] else [ResultOf(cs[0])] + Results(cs[1..])
  }

  /** The series calls back with the first error when a task errs before any
      throws, never calls back when a task throws before any errs, and
      otherwise yields every task's result at its own position. */
  lemma {:induction false} SeriesCharacterised(cs: seq<Completion>)
    ensures FirstStop(cs) < |cs| && cs[FirstStop(cs)].Threw? ==> SeriesOutcome(cs) == None
    ensures FirstStop(cs) < |cs| && cs[FirstStop(cs)].Completed? ==>
      SeriesOutcome(cs) == Some(Err(cs[FirstStop(cs)].signal.err))
    ensures FirstStop(cs) == |cs| ==> SeriesOutcome(cs) == Some(Ok(Results(cs)))
  {
    if cs != [] && !cs[0].Stops() {
      SeriesCharacterised(cs[1..]);
      assert cs[1..][FirstStop(cs[1..])..] == cs[FirstStop(cs)..];
      assert [ResultOf(cs[0])] + Results(cs[1..]) == Results(cs);
    }
  }

  lemma SeriesOkIff(cs: seq<Completion>)
    ensures SeriesOutcome(cs).Some? && SeriesOutcome(cs).value.Ok? <==> forall i :: 0 <= i < |cs| ==> !cs[i].Stops()
    ensures SeriesOutcome(cs).Some? && SeriesOutcome(cs).value.Ok? ==>
      |SeriesOutcome(cs).value.value| == |cs|
      && forall i :: 0 <= i < |cs| ==> SeriesOutcome(cs).value.value[i] == ResultOf(cs[i])
  {
    SeriesCharacterised(cs);
  }

  /** The series never calls back exactly when some task throws with no
      earlier task erring. */
  lemma SeriesSilentIff(cs: seq<Completion>)
    ensures SeriesOutcome(cs).None? <==> exists k :: 0 <= k < |cs| && cs[k].Threw? && forall j :: 0 <= j < k ==> !cs[j].Stops()
  {
    SeriesCharacterised(cs);
    var k := FirstStop(cs);
    if k < |cs| && cs[k].Threw? {
      assert forall j :: 0 <= j < k ==> !cs[j].Stops();
    }
  }

  /** Completions after the first stop do not affect the outcome: the tasks
      that produce them are never started. */
  lemma SeriesIgnoresUnrunTasks(cs: seq<Completion>, later: seq<Completion>)
    requires FirstStop(cs) < |cs|
    ensures SeriesOutcome(cs[..TasksRun(cs)] + later) == SeriesOutcome(cs)
  {
    var k := FirstStop(cs);
    var s := cs[..k + 1] + later;
    assert forall i :: 0 <= i <= k ==> s[i] == cs[i];
    assert FirstStop(s) == k;
    SeriesCharacterised(s);
    SeriesCharacterised(cs);
  }

  /** Row `r`, which had cells `d` and save history `log`, has since taken
      exactly the writes `writes`, each followed by a save. */
  ghost predicate Took(r: Row, d: RowData, log: seq<string>, writes: seq<string>)
    reads r
  {
    r.saved == log + writes && r.Data() == Applied(d, writes)
  }

  /** The first `i` rows took their planned writes; the rest are untouched. */
  ghost predicate Progressed(rows: seq<Row>, init: seq<RowData>, logs: seq<seq<string>>, plan: seq<Step>, i: nat)
    requires |init| == |logs| == |plan| == |rows|
    reads rows
  {
    forall j :: 0 <= j < |rows| ==> Took(rows[j], init[j], logs[j], if j < i then plan[j].writes else [])
  }

  /** No row has changed or been saved since it had cells `init` and save history `logs`. */
  ghost predicate Untouched(rows: seq<Row>, init: seq<RowData>, logs: seq<seq<string>>)
    requires |init| == |logs| == |rows|
    reads rows
  {
    forall j :: 0 <= j < |rows| ==> rows[j].saved == logs[j] && rows[j].Data() == init[j]
  }

  /** The worksheet log entries of rows 0 to k-1 taking their planned writes,
      one row after another in row order. */
  ghost function SeriesSaves(rows: seq<Row>, plan: seq<Step>, k: nat): seq<(Row, string)>
    requires k <= |rows| && k <= |plan|
  {
    if k == 0 then [] else SeriesSaves(rows, plan, k - 1) + Saves(rows[k - 1], plan[k - 1].writes)
  }

  /** Every entry of the series' saves belongs to one of the rows that ran,
      and a later entry never belongs to an earlier row. */
  lemma {:induction false} SeriesSavesOrdered(rows: seq<Row>, plan: seq<Step>, k: nat, p: nat, q: nat)
    requires k <= |rows| && k <= |plan|
    requires p <= q < |SeriesSaves(rows, plan, k)|
    ensures exists a, b :: 0 <= a <= b < k && SeriesSaves(rows, plan, k)[p].0 == rows[a] && SeriesSaves(rows, plan, k)[q].0 == rows[b]
  {
    var before := SeriesSaves(rows, plan, k - 1);
    var s := SeriesSaves(rows, plan, k);
    assert s == before + Saves(rows[k - 1], plan[k - 1].writes);
    if q < |before| {
      SeriesSavesOrdered(rows, plan, k - 1, p, q);
      var a, b :| 0 <= a <= b < k - 1 && before[p].0 == rows[a] && before[q].0 == rows[b];
      assert s[p].0 == rows[a] && s[q].0 == rows[b];
    } else if p < |before| {
      SeriesSavesOrdered(rows, plan, k - 1, p, p);
      var a, b :| 0 <= a <= b < k - 1 && before[p].0 == rows[a] && before[p].0 == rows[b];
      assert s[p].0 == rows[a] && s[q].0 == rows[k - 1];
    } else {
      assert s[p].0 == rows[k - 1] && s[q].0 == rows[k - 1];
    }
  }

  /** The worksheet sees the series' saves in row order: of two saves, the
      later one is never of an earlier row. */
  lemma SavesInRowOrder(rows: seq<Row>, plan: seq<Step>, k: nat, p: nat, q: nat, a: nat, b: nat)
    requires Distinct(rows) && k <= |rows| && k <= |plan|
    requires p <= q < |SeriesSaves(rows, plan, k)| && a < |rows| && b < |rows|
    requires SeriesSaves(rows, plan, k)[p].0 == rows[a] && SeriesSaves(rows, plan, k)[q].0 == rows[b]
    ensures a <= b < k
  {
    SeriesSavesOrdered(rows, plan, k, p, q);
  }

  /** Runs row `i`'s task, the next one in the series. */
  method RunNext(rows: seq<Row>, i: nat, t: Task, processor: RowProcessor, ghost sheet: Worksheet,
                 ghost init: seq<RowData>, ghost logs: seq<seq<string>>, ghost plan: seq<Step>,
                 ghost start: seq<(Row, string)>)
    returns (completion: Completion)
    requires Distinct(rows) && i < |rows| && OnSheet(rows, sheet)
    requires |init| == |logs| == |plan| == |rows|
    requires t == Choose(init[i]) && plan[i] == TaskStep(t, init[i], processor)
    requires Progressed(rows, init, logs, plan, i)
    requires sheet.log == start + SeriesSaves(rows, plan, i)
    modifies rows[i], sheet`log
    ensures Progressed(rows, init, logs, plan, i + 1)
    ensures sheet.log == start + SeriesSaves(rows, plan, i + 1)
    ensures completion == plan[i].completion
  {
    assert Took(rows[i], init[i], logs[i], []);
    label before:
    completion := RunTask(rows[i], t, processor);
    assert Took(rows[i], init[i], logs[i], plan[i].writes);
    assert sheet.log == start + (SeriesSaves(rows, plan, i) + Saves(rows[i], plan[i].writes));
    forall j | 0 <= j < |rows| && j != i
      ensures Took(rows[j], init[j], logs[j], if j < i + 1 then plan[j].writes else [])
    {
      assert rows[j] != rows[i];
      assert old@before(Took(rows[j], init[j], logs[j], if j < i + 1 then plan[j].writes else []));
    }
  }

  /** Runs the dispatched tasks one after another, stopping at the first one
      that errs or throws. Rows whose tasks ran took their planned writes, and
      the worksheet saw their saves row by row in fetch order; the others are
      untouched. */
  method RunSeries(rows: seq<Row>, processor: RowProcessor, ghost sheet: Worksheet)
    returns (outcome: Option<Result<seq<Value>, Value>>, ghost ran: nat)
    requires Distinct(rows) && OnSheet(rows, sheet)
    modifies rows, sheet`log
    ensures var plan := Plan(old(Snapshot(rows)), processor);
      outcome == SeriesOutcome(Completions(plan)) && ran == TasksRun(Completions(plan))
      && Progressed(rows, old(Snapshot(rows)), old(Logs(rows)), plan, ran)
      && sheet.log == old(sheet.log) + SeriesSaves(rows, plan, ran)
  {
    ghost var init := Snapshot(rows);
    ghost var logs := Logs(rows);
    var tasks := Dispatch(Snapshot(rows));
    ghost var plan := Plan(init, processor);
    ghost var cs := Completions(plan);
    var results: seq<Value> := [];
    var i := 0;
    var stopped := false;
    var last := Completed(Signal(Undefined, Undefined));
    NothingRunYet(rows, plan);
    while i < |rows| && !stopped
      invariant 0 <= i <= |rows|
      invariant SeriesSoFar(cs, results, i, stopped, last)
      invariant Progressed(rows, init, logs, plan, i)
      invariant sheet.log == old(sheet.log) + SeriesSaves(rows, plan, i)
    {
      last := RunNext(rows, i, tasks[i], processor, sheet, init, logs, plan, old(sheet.log));
      SeriesAdvances(cs, results, i, last);
      stopped := last.Stops();
      results := results + [ResultOf(last)];
      i := i + 1;
    }
    SeriesEnds(cs, results, i, stopped, last);
    outcome := if !stopped then Some(Ok(results)) else if last.Threw? then None else Some(Err(last.signal.err));
    ran := if stopped then i else |rows|;
  }

  lemma NothingRunYet(rows: seq<Row>, plan: seq<Step>)
    requires |plan| == |rows|
    ensures Progressed(rows, Snapshot(rows), Logs(rows), plan, 0)
  {
    var init, logs := Snapshot(rows), Logs(rows);
    forall j | 0 <= j < |rows| ensures Took(rows[j], init[j], logs[j], []) {
      assert logs[j] + [] == logs[j];
    }
  }

  /** The series has run the first `i` tasks: all but possibly the last of
      them went on, `stopped` says whether the last one stopped the series,
      and `results` holds their results in order. */
  ghost predicate SeriesSoFar(cs: seq<Completion>, results: seq<Value>, i: nat, stopped: bool, last: Completion) {
    i <= |cs|
    && (forall j :: 0 <= j < i ==> !cs[j].Stops() || (stopped && j == i - 1))
    && (stopped ==> 0 < i && last == cs[i - 1] && last.Stops())
    && |results| == i && (forall j :: 0 <= j < i ==> results[j] == ResultOf(cs[j]))
  }

  lemma SeriesAdvances(cs: seq<Completion>, results: seq<Value>, i: nat, next: Completion)
    requires i < |cs| && next == cs[i]
    requires forall j :: 0 <= j < i ==> !cs[j].Stops()
    requires |results| == i && forall j :: 0 <= j < i ==> results[j] == ResultOf(cs[j])
    ensures SeriesSoFar(cs, results + [ResultOf(next)], i + 1, next.Stops(), next)
  {
  }

  /** What the series reports once its loop has stopped. */
  lemma SeriesEnds(cs: seq<Completion>, results: seq<Value>, i: nat, stopped: bool, last: Completion)
    requires SeriesSoFar(cs, results, i, stopped, last) && (stopped || i == |cs|)
    ensures SeriesOutcome(cs) == if !stopped then Some(Ok(results)) else if last.Threw? then None else Some(Err(last.signal.err))
    ensures TasksRun(cs) == if stopped then i else |cs|
  {
    if stopped {
      SeriesStopsAt(cs, i - 1);
    } else {
      SeriesSucceeds(cs);
      assert results == Results(cs);
    }
  }

  /** If task k is the first to stop the series, the series ends there after
      starting exactly k+1 tasks: with its error, or without calling back. */
  lemma SeriesStopsAt(cs: seq<Completion>, k: nat)
    requires k < |cs| && cs[k].Stops()
    requires forall j :: 0 <= j < k ==> !cs[j].Stops()
    ensures SeriesOutcome(cs) == if cs[k].Threw? then None else Some(Err(cs[k].signal.err))
    ensures TasksRun(cs) == k + 1
  {
    FirstStopAt(cs, k);
    SeriesCharacterised(cs);
  }

  lemma SeriesSucceeds(cs: seq<Completion>)
    requires forall j :: 0 <= j < |cs| ==> !cs[j].Stops()
    ensures SeriesOutcome(cs) == Some(Ok(Results(cs))) && TasksRun(cs) == |cs|
  {
    FirstStopAt(cs, |cs|);
    SeriesCharacterised(cs);
  }

  /** The first stop is at `k` when every earlier task goes on and `k` stops
      (or is the end). */
  lemma FirstStopAt(cs: seq<Completion>, k: nat)
    requires k <= |cs|
    requires forall j :: 0 <= j < k ==> !cs[j].Stops()
    requires k < |cs| ==> cs[k].Stops()
    ensures FirstStop(cs) == k
  {
  }

  // ---------------------------------------------------------------------------
  // The exported runner

  /** The three required arguments, in the order they are checked. */
  datatype Param = SpreadsheetId | RowProcessorArg | ResultsCallback

  function Position(p: Param): nat {
    match p
    case SpreadsheetId => 0
    case RowProcessorArg => 1
    case ResultsCallback => 2
  }

  /** The arguments that survive validation, after defaulting. */
  datatype Settings = Settings(spreadsheet: Value, startingRow: Value, numberOfRows: Value, credentials: Value)

  /** A run that never starts (with the diagnostics it reports), or one that does. */
  datatype Invocation = Rejected(missing: seq<Param>) | Accepted(settings: Settings)

  const DefaultCredentials := "./google-creds.json"

  /** Whether required argument `p` is present; a missing processor is any falsy value. */
  predicate Supplied(p: Param, spreadsheetUUID: Value, rowProcessor: Option<RowProcessor>, errorResultsCallback: Value) {
    match p
    case SpreadsheetId => Truthy(spreadsheetUUID)
    case RowProcessorArg => rowProcessor.Some?
    case ResultsCallback => Truthy(errorResultsCallback)
  }

  predicate InCheckOrder(ps: seq<Param>) {
    forall i, j :: 0 <= i < j < |ps| ==> Position(ps[i]) < Position(ps[j])
  }

  /** What the exported function decides before doing any work. */
  function Validation(spreadsheetUUID: Value, rowProcessor: Option<RowProcessor>, errorResultsCallback: Value,
                      startingRow: Value, numberOfRows: Value, googleCredsLocation: Value): (r: Invocation)
    ensures r.Accepted? <==> Truthy(spreadsheetUUID) && rowProcessor.Some? && Truthy(errorResultsCallback)
    ensures r.Rejected? ==>
      (forall p :: p in r.missing <==> !Supplied(p, spreadsheetUUID, rowProcessor, errorResultsCallback))
      && InCheckOrder(r.missing)
    ensures r.Accepted? ==>
      r.settings.spreadsheet == spreadsheetUUID
      && (Truthy(startingRow) ==> r.settings.startingRow == startingRow)
      && (!Truthy(startingRow) ==> r.settings.startingRow == Num(1))
      && (Truthy(numberOfRows) ==> r.settings.numberOfRows == numberOfRows)
      && (!Truthy(numberOfRows) ==> r.settings.numberOfRows == Num(1))
      && (Truthy(googleCredsLocation) ==> r.settings.credentials == googleCredsLocation)
      && (!Truthy(googleCredsLocation) ==> r.settings.credentials == Str(DefaultCredentials))
  {
    var missing :=
      (if Truthy(spreadsheetUUID) then [] else [SpreadsheetId])
      + (if rowProcessor.Some? then [] else [RowProcessorArg])
      + (if Truthy(errorResultsCallback) then [] else [ResultsCallback]);
    if missing == [] then
      Accepted(Settings(spreadsheetUUID, OrDefault(startingRow, Num(1)), OrDefault(numberOfRows, Num(1)),
                        OrDefault(googleCredsLocation, Str(DefaultCredentials))))
    else
      Rejected(missing)
  }

  /** The checks and defaulting at the top of the exported function, step by step. */
  method Initialise(spreadsheetUUID: Value, rowProcessor: Option<RowProcessor>, errorResultsCallback: Value,
                    startingRow: Value, numberOfRows: Value, googleCredsLocation: Value) returns (inv: Invocation)
    ensures inv == Validation(spreadsheetUUID, rowProcessor, errorResultsCallback, startingRow, numberOfRows, googleCredsLocation)
  {
    var allGood := true;
    var diagnostics: seq<Param> := [];
    if !Truthy(spreadsheetUUID) {
      diagnostics := diagnostics + [SpreadsheetId];
      allGood := false;
    }
    if rowProcessor.None? {
      diagnostics := diagnostics + [RowProcessorArg];
      allGood := false;
    }
    if !Truthy(errorResultsCallback) {
      diagnostics := diagnostics + [ResultsCallback];
      allGood := false;
    }
    var start, count, creds := startingRow, numberOfRows, googleCredsLocation;
    if !Truthy(start) {
      start := Num(1);
    }
    if !Truthy(count) {
      count := Num(1);
    }
    if !Truthy(creds) {
      creds := Str(DefaultCredentials);
    }
    if allGood {
      inv := Accepted(Settings(spreadsheetUUID, start, count, creds));
    } else {
      inv := Rejected(diagnostics);
    }
  }


  /** The range asked of the sheet: `getRows({offset, limit})`. */
  datatype Fetch = Fetch(offset: Value, limit: Value)

  /** The waterfall's outcome, or None when it never calls back:
      authentication, then the series over the fetched rows, whose results the
      last step passes on unchanged. */
  function Pipeline(authError: Value, rows: seq<RowData>, processor: RowProcessor): Option<Result<seq<Value>, Value>> {
    if Truthy(authError) then Some(Err(authError)) else SeriesOutcome(Completions(Plan(rows, processor)))
  }

  /** The exported runner. `authError` is what the authentication step
      completes with; `fetched` are the rows the sheet returns for the fetch.
      `calls` lists every invocation of the terminal callback. */
  method Run(spreadsheetUUID: Value, rowProcessor: Option<RowProcessor>, errorResultsCallback: Value,
             startingRow: Value, numberOfRows: Value, googleCredsLocation: Value,
             authError: Value, fetched: seq<Row>, ghost sheet: Worksheet)
    returns (inv: Invocation, fetch: Option<Fetch>, calls: seq<Result<seq<Value>, Value>>)
    requires Distinct(fetched) && OnSheet(fetched, sheet)
    modifies fetched, sheet`log
    ensures inv == Validation(spreadsheetUUID, rowProcessor, errorResultsCallback, startingRow, numberOfRows, googleCredsLocation)
    ensures inv.Rejected? ==> calls == [] && fetch == None
    ensures inv.Accepted? ==>
      var outcome := Pipeline(authError, old(Snapshot(fetched)), rowProcessor.value);
      calls == if outcome.Some? then [outcome.value] else []
    ensures inv.Accepted? ==>
      fetch == if Truthy(authError) then None else Some(Fetch(inv.settings.startingRow, inv.settings.numberOfRows))
    ensures inv.Rejected? || Truthy(authError) ==>
      Untouched(fetched, old(Snapshot(fetched)), old(Logs(fetched))) && sheet.log == old(sheet.log)
    ensures inv.Accepted? && !Truthy(authError) ==>
      var plan := Plan(old(Snapshot(fetched)), rowProcessor.value);
      Progressed(fetched, old(Snapshot(fetched)), old(Logs(fetched)), plan, TasksRun(Completions(plan)))
      && sheet.log == old(sheet.log) + SeriesSaves(fetched, plan, TasksRun(Completions(plan)))
  {
    inv := Initialise(spreadsheetUUID, rowProcessor, errorResultsCallback, startingRow, numberOfRows, googleCredsLocation);
    fetch := None;
    calls := [];
    if inv.Accepted? {
      var outcome: Option<Result<seq<Value>, Value>>;
      if Truthy(authError) {
        outcome := Some(Err(authError));
      } else {
        fetch := Some(Fetch(inv.settings.startingRow, inv.settings.numberOfRows));
        ghost var ran;
        outcome, ran := RunSeries(fetched, rowProcessor.value, sheet);
      }
      if outcome.Some? {
        calls := calls + [outcome.value];
      }
    }
  }
}
