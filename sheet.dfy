/** The spreadsheet row handle: its status fields, its save request and
    the lifecycle its `progress` column is meant to follow. */
module Sheet {

  const NotStarted := "NOT_STARTED"
  const Processing := "PROCESSING"
  const Done := "DONE"
  const Failed := "FAILED"
  const Skipped := "SKIPPED"

  /** The value of a row's cells at one moment. */
  datatype RowData = RowData(id: string, progress: string, skippable: string, accountid: string, crmid: string)

  /** The worksheet the rows are fetched from. `log` records every save
      requested on any of its rows, oldest first, as the row and the
      `progress` value it was asked to save. */
  class Worksheet {
    ghost var log: seq<(Row, string)>

    constructor ()
      ensures log == []
    {
      log := [];
    }
  }

  /** A mutable row as the spreadsheet library hands it out. `saved` is the
      history of `progress` values that `Save` was asked to save, oldest first. */
  class Row {
    const sheet: Worksheet
    const id: string
    var progress: string
    const skippable: string
    const accountid: string
    const crmid: string
    ghost var saved: seq<string>

    constructor (sheet: Worksheet, d: RowData)
      ensures this.sheet == sheet && Data() == d && saved == []
    {
      this.sheet := sheet;
      id, progress, skippable := d.id, d.progress, d.skippable;
      accountid, crmid := d.accountid, d.crmid;
      saved := [];
    }

    function Data(): RowData
      reads this
    {
      RowData(id, progress, skippable, accountid, crmid)
    }

    /** `row.save()`: a request to save the current `progress`, recorded in the
        row's history and, after every earlier request, in its worksheet's log. */
    method Save()
      modifies this`saved, sheet`log
      ensures saved == old(saved) + [progress]
      ensures sheet.log == old(sheet.log) + [(this, progress)]
    {
      saved := saved + [progress];
      sheet.log := sheet.log + [(this, progress)];
    }
  }

  /** Rows fetched from a sheet are separate objects. */
  ghost predicate Distinct(rows: seq<Row>) {
    forall i, j :: 0 <= i < |rows| && 0 <= j < |rows| && i != j ==> rows[i] != rows[j]
  }

  /** The rows all belong to `sheet`. */
  ghost predicate OnSheet(rows: seq<Row>, sheet: Worksheet) {
    forall i :: 0 <= i < |rows| ==> rows[i].sheet == sheet
  }

  /** The log entries of row `r` being saved with each of `writes` in turn. */
  ghost function Saves(r: Row, writes: seq<string>): (s: seq<(Row, string)>)
    ensures |s| == |writes|
    ensures forall j :: 0 <= j < |writes| ==> s[j] == (r, writes[j])
  {
    if writes == [] then [] else Saves(r, writes[..|writes| - 1]) + [(r, writes[|writes| - 1])]
  }

  function Snapshot(rows: seq<Row>): (s: seq<RowData>)
    reads rows
    ensures |s| == |rows|
    ensures forall i :: 0 <= i < |rows| ==> s[i] == rows[i].Data()
  {
    if rows == [] then [] else [rows[0].Data()] + Snapshot(rows[1..])
  }

  ghost function Logs(rows: seq<Row>): (s: seq<seq<string>>)
    reads rows
    ensures |s| == |rows|
    ensures forall i :: 0 <= i < |rows| ==> s[i] == rows[i].saved
  {
    if rows == [] then [] else [rows[0].saved] + Logs(rows[1..])
  }

  /** A row's cells after its `progress` was written with each of `writes` in turn. */
  function Applied(d: RowData, writes: seq<string>): RowData {
    if writes == [] then d else d.(progress := writes[|writes| - 1])
  }

  /** One legal step of the status ledger: NOT_STARTED to PROCESSING or
      SKIPPED, PROCESSING to DONE or FAILED. */
  predicate Transition(from: string, to: string) {
    (from == NotStarted && (to == Processing || to == Skipped))
    || (from == Processing && (to == Done || to == Failed))
  }

  /** `writes`, starting from status `start`, is a path of legal transitions. */
  predicate Lifecycle(start: string, writes: seq<string>)
    decreases |writes|
  {
    writes == [] || (Transition(start, writes[0]) && Lifecycle(writes[0], writes[1..]))
  }

  predicate IsTerminal(status: string) {
    status == Done || status == Failed || status == Skipped
  }

  /** No legal path leaves a terminal status, so a row that is DONE, FAILED or
      SKIPPED can only be written with the empty sequence. */
  lemma {:induction false} TerminalIsFinal(status: string, writes: seq<string>)
    requires IsTerminal(status)
    ensures Lifecycle(status, writes) <==> writes == []
  {
  }

  /** A legal non-empty path from NOT_STARTED has at most two writes and ends
      in SKIPPED, PROCESSING, DONE or FAILED. */
  lemma {:induction false} LifecycleFromNotStarted(writes: seq<string>)
    requires Lifecycle(NotStarted, writes)
    ensures |writes| <= 2
    ensures |writes| == 2 ==> writes[0] == Processing && (writes[1] == Done || writes[1] == Failed)
    ensures |writes| == 1 ==> writes[0] == Processing || writes[0] == Skipped
  {
    if |writes| > 0 {
      var rest := writes[1..];
      if writes[0] == Skipped {
        TerminalIsFinal(Skipped, rest);
      } else if |rest| > 0 {
        assert Transition(Processing, rest[0]);
        TerminalIsFinal(rest[0], rest[1..]);
      }
    }
  }
}
