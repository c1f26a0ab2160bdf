/** The deployment plugged into the runner: each processable row's billing
    account gets its CRM id through one remote update, and the row's
    `progress` records PROCESSING and then DONE or FAILED. */
module Deployment {
  import opened Js
  import opened Sheet
  import opened ControlRunner

  // ---------------------------------------------------------------------------
  // The remote account update

  /** The parts of the update request that depend on the row. */
  datatype Request = Request(url: string, verb: string, crmId: string)

  const AccountsPath := "/rest/v1/accounts/"

  function AccountUpdateRequest(base: string, accountid: string, crmid: string): Request {
    Request(base + AccountsPath + accountid, "PUT", crmid)
  }

  /** Every update is a PUT addressed to the row's own account under the
      accounts path, and different rows' requests differ. */
  lemma {:induction false} RequestAddressesAccount(base: string, a1: string, c1: string, a2: string, c2: string)
    ensures AccountUpdateRequest(base, a1, c1).verb == "PUT"
    ensures AccountUpdateRequest(base, a1, c1).crmId == c1
    ensures var url := AccountUpdateRequest(base, a1, c1).url;
      |url| == |base + AccountsPath| + |a1| && url[..|base + AccountsPath|] == base + AccountsPath && url[|base + AccountsPath|..] == a1
    ensures AccountUpdateRequest(base, a1, c1) == AccountUpdateRequest(base, a2, c2) <==> a1 == a2 && c1 == c2
  {
    var prefix := base + AccountsPath;
    assert AccountUpdateRequest(base, a1, c1).url == prefix + a1;
    assert (prefix + a1)[|prefix|..] == a1;
    assert (prefix + a2)[|prefix|..] == a2;
    assert (prefix + a1)[..|prefix|] == prefix;
  }

  /** JSON text is never empty. */
  type JsonText = s: string | s != "" witness "{}"

  /** The parsed body of a reply. */
  datatype Body =
    | Absent                                  // no body at all: `response.body` is undefined
    | JsonNull                                // the body is JSON `null`
    | JsonObject(success: Value, text: JsonText)   // an object, its `success` member and its serialisation
    | JsonOther(text: JsonText)               // any other JSON value: it has no `success` member

  /** What the HTTP call hands its callback: a transport error (with the
      error's string form), or a response. */
  datatype Reply = TransportError(message: string) | Response(statusCode: int, body: Body)

  /** `JSON.stringify(response.body)`: undefined for an absent body. */
  function Stringify(b: Body): (v: Value)
    ensures Truthy(v) <==> !b.Absent?
  {
    match b
    case Absent => Undefined
    case JsonNull => Str("null")
    case JsonObject(_, t) => Str(t)
    case JsonOther(t) => Str(t)
  }

  function TransportMessage(message: string): string {
    "error while updating account: " + message + "."
  }

  /** `isSuccess(res)` as written: the value of `res.statusCode == 200 &&
      res.body.success`, or None where reading `res.body.success` throws
      (a 200 reply whose body is absent or null). */
  function IsSuccess(statusCode: int, body: Body): (r: Option<Value>)
    ensures r.None? <==> statusCode == 200 && (body.Absent? || body.JsonNull?)
    ensures r.Some? ==> (Truthy(r.value) <==> statusCode == 200 && body.JsonObject? && Truthy(body.success))
  {
    if statusCode != 200 then Some(Bool(false))
    else match body
      case Absent => None
      case JsonNull => None
      case JsonObject(success, _) => Some(success)
      case JsonOther(_) => Some(Undefined)
  }

  /** `updateAccount`'s response handler as written: how it ends, calling back
      `(err, result)` or throwing. */
  function UpdateAccount(reply: Reply): (r: Completion)
    ensures r.Threw? <==> reply.Response? && reply.statusCode == 200 && (reply.body.Absent? || reply.body.JsonNull?)
    ensures reply.TransportError? ==> r == Completed(Signal(Str(TransportMessage(reply.message)), Undefined))
    ensures reply.Response? && r.Completed? ==> (r.signal.err == Null <==> IsSuccessChecked(reply))
    ensures reply.Response? && IsSuccessChecked(reply) ==> r == Completed(Signal(Null, Obj(reply.body.text)))
    ensures reply.Response? && r.Completed? && !IsSuccessChecked(reply) ==> r.signal == Signal(Stringify(reply.body), Undefined)
  {
    match reply
    case TransportError(m) => Completed(Signal(Str(TransportMessage(m)), Undefined))
    case Response(code, body) =>
      match IsSuccess(code, body)
      case None => Threw
      case Some(ok) =>
        if Truthy(ok) && body.JsonObject? then Completed(Signal(Null, Obj(body.text)))
        else Completed(Signal(Stringify(body), Undefined))
  }

  /** The success test with the body's presence checked first: it never reads
      a member of a missing body, and it agrees with `isSuccess` wherever that
      does not throw. */
  function IsSuccessChecked(reply: Reply): (ok: bool)
    ensures ok ==> reply.Response? && reply.statusCode == 200 && reply.body.JsonObject?
    ensures reply.Response? && IsSuccess(reply.statusCode, reply.body).Some? ==>
      (ok <==> Truthy(IsSuccess(reply.statusCode, reply.body).value))
  {
    reply.Response? && reply.statusCode == 200 && reply.body.JsonObject? && Truthy(reply.body.success)
  }

  /** `updateAccount`'s handler with both defects removed: every reply that is
      not a success is reported as an error, and none throws. */
  function UpdateAccountChecked(reply: Reply): (s: Signal)
    ensures s.IsError() <==> !IsSuccessChecked(reply)
    ensures IsSuccessChecked(reply) ==> s == Signal(Null, Obj(reply.body.text))
    ensures reply.TransportError? ==> s == Signal(Str(TransportMessage(reply.message)), Undefined)
  {
    match reply
    case TransportError(m) => Signal(Str(TransportMessage(m)), Undefined)
    case Response(code, body) =>
      if IsSuccessChecked(reply) then Signal(Null, Obj(body.text))
      else if body.Absent? then Signal(Str("undefined"), Undefined)
      else Signal(Stringify(body), Undefined)
  }

  /** The replies on which the handler as written goes wrong. */
  predicate Divergent(reply: Reply) {
    reply.Response? && (reply.body.Absent? || (reply.statusCode == 200 && reply.body.JsonNull?))
  }

  /** The corrected handler behaves exactly as the original on every other reply. */
  lemma CheckedAgreesWithWritten(reply: Reply)
    ensures UpdateAccount(reply) == Completed(UpdateAccountChecked(reply)) <==> !Divergent(reply)
  {
    if reply.Response? && reply.body.Absent? && reply.statusCode != 200 {
      assert UpdateAccount(reply) == Completed(Signal(Undefined, Undefined));
      assert UpdateAccountChecked(reply).IsError();
    }
  }

  /** A failing reply without a body is not reported as an error (so the row
      would be marked DONE), while the corrected handler reports it. */
  lemma BodilessFailureLooksLikeSuccess()
    ensures UpdateAccount(Response(500, Absent)) == Completed(Signal(Undefined, Undefined))
    ensures HandledStatus(Signal(Undefined, Undefined)) == Done
    ensures !IsSuccessChecked(Response(500, Absent))
    ensures HandledStatus(UpdateAccountChecked(Response(500, Absent))) == Failed
  {
  }

  /** A 200 reply whose body is absent or null makes `isSuccess` throw; the
      corrected test answers "not a success". */
  lemma BodilessOkThrows()
    ensures IsSuccess(200, Absent).None? && UpdateAccount(Response(200, Absent)) == Threw
    ensures IsSuccess(200, JsonNull).None? && UpdateAccount(Response(200, JsonNull)) == Threw
    ensures !IsSuccessChecked(Response(200, Absent)) && !IsSuccessChecked(Response(200, JsonNull))
  {
  }

  // ---------------------------------------------------------------------------
  // The row processor

  /** The status `handleResponse` writes: FAILED on error, DONE otherwise. */
  function HandledStatus(s: Signal): string {
    if s.IsError() then Failed else Done
  }

  function RowRequest(base: string, d: RowData): Request {
    AccountUpdateRequest(base, d.accountid, d.crmid)
  }

  /** What the task of `processSubscription(row)` does to a row: it writes
      PROCESSING and sends the update. When the update's handler calls back,
      the task writes the outcome status and completes with `step()`. When
      the handler throws, nothing more happens and the task never completes. */
  function SubscriptionStep(base: string, remote: Request -> Reply, d: RowData): Step {
    match UpdateAccount(remote(RowRequest(base, d)))
    case Threw => Step([Processing], Threw)
    case Completed(s) => Step([Processing, HandledStatus(s)], Completed(Signal(Undefined, Undefined)))
  }

  /** `processSubscription` as the runner sees it. `remote` answers the update
      request; `base` is the configured endpoint. */
  function SubscriptionProcessor(base: string, remote: Request -> Reply): RowProcessor {
    d => SubscriptionStep(base, remote, d)
  }

  /** The row is processed, and its update reply makes the handler throw. */
  predicate Hangs(base: string, remote: Request -> Reply, d: RowData) {
    IsRowProcessable(d) && UpdateAccount(remote(RowRequest(base, d))).Threw?
  }

  /** A processed row records PROCESSING. Then one of three things happens:
      - the handler throws, exactly on a 200 reply with an absent or null
        body, and the row stays PROCESSING and the task never completes;
      - the row ends FAILED, exactly when the reply is not a success and has a
        body (or is a transport error);
      - otherwise the row ends DONE.
      A task that completes does so with `step()`, no error and no value. */
  lemma SubscriptionLifecycle(base: string, remote: Request -> Reply, d: RowData)
    requires IsRowProcessable(d)
    ensures var step := SubscriptionStep(base, remote, d);
      var reply := remote(RowRequest(base, d));
      Lifecycle(d.progress, step.writes)
      && (step.completion.Threw? <==> reply.Response? && reply.statusCode == 200 && (reply.body.Absent? || reply.body.JsonNull?))
      && (step.completion.Threw? ==> step.writes == [Processing])
      && (step.completion.Completed? ==>
            step.completion.signal == Signal(Undefined, Undefined)
            && (step.writes == [Processing, Done] || step.writes == [Processing, Failed])
            && (step.writes[1] == Failed <==> !IsSuccessChecked(reply) && !(reply.Response? && reply.body.Absent?)))
  {
  }

  /** As written, a processed row whose update fails without a body ends DONE;
      with the corrected handler it ends FAILED. */
  lemma BodilessFailureMarkedDone(base: string, remote: Request -> Reply, d: RowData)
    requires IsRowProcessable(d)
    requires remote(RowRequest(base, d)).Response? && remote(RowRequest(base, d)).statusCode != 200
    requires remote(RowRequest(base, d)).body.Absent?
    ensures SubscriptionStep(base, remote, d) == Step([Processing, Done], Completed(Signal(Undefined, Undefined)))
    ensures CheckedSubscriptionStep(base, remote, d) == Step([Processing, Failed], Completed(Signal(Undefined, Undefined)))
  {
  }

  /** As written, a processed row whose update gets a 200 reply with an absent
      or null body keeps PROCESSING and its task never completes; with the
      corrected handler it ends FAILED and the task completes. */
  lemma BodilessOkLeavesProcessing(base: string, remote: Request -> Reply, d: RowData)
    requires remote(RowRequest(base, d)).Response? && remote(RowRequest(base, d)).statusCode == 200
    requires remote(RowRequest(base, d)).body.Absent? || remote(RowRequest(base, d)).body.JsonNull?
    ensures SubscriptionStep(base, remote, d) == Step([Processing], Threw)
    ensures CheckedSubscriptionStep(base, remote, d) == Step([Processing, Failed], Completed(Signal(Undefined, Undefined)))
  {
  }

  /** `setRowProgress`: write the status, then save once. */
  method SetRowProgress(row: Row, state: string)
    modifies row`progress, row`saved, row.sheet`log
    ensures row.Data() == old(row.Data()).(progress := state)
    ensures row.saved == old(row.saved) + [state]
    ensures row.sheet.log == old(row.sheet.log) + [(row, state)]
  {
    row.progress := state;
    row.Save();
  }

  /** The billing service as the deployment reaches it: a fixed answer per
      request, and a ghost log of every request sent, each paired with the
      row it was sent for and that row's save history at the moment of sending. */
  class Remote {
    const answer: Request -> Reply
    ghost var sent: seq<(Request, Row, seq<string>)>

    constructor (answer: Request -> Reply)
      ensures this.answer == answer && sent == []
    {
      this.answer := answer;
      sent := [];
    }

    /** `request(req, callback)`: the reply the callback receives. */
    method Send(req: Request, ghost row: Row) returns (reply: Reply)
      modifies this`sent
      ensures reply == answer(req)
      ensures sent == old(sent) + [(req, row, row.saved)]
    {
      reply := answer(req);
      sent := sent + [(req, row, row.saved)];
    }
  }

  /** The task `processSubscription(row)` returns, run on the row. The single
      request it sends is recorded with the row already saved as PROCESSING. */
  method ProcessSubscription(row: Row, base: string, remote: Remote) returns (completion: Completion)
    modifies row`progress, row`saved, row.sheet`log, remote`sent
    ensures var step := SubscriptionStep(base, remote.answer, old(row.Data()));
      row.saved == old(row.saved) + step.writes
      && row.sheet.log == old(row.sheet.log) + Saves(row, step.writes)
      && row.Data() == Applied(old(row.Data()), step.writes)
      && completion == step.completion
    ensures remote.sent == old(remote.sent) + [(RowRequest(base, old(row.Data())), row, old(row.saved) + [Processing])]
  {
    SetRowProgress(row, Processing);
    var reply := remote.Send(AccountUpdateRequest(base, row.accountid, row.crmid), row);
    match UpdateAccount(reply)
    case Threw =>
      completion := Threw;
    case Completed(outcome) =>
      if outcome.IsError() {
        SetRowProgress(row, Failed);
      } else {
        SetRowProgress(row, Done);
      }
      completion := Completed(Signal(Undefined, Undefined));
  }

  // ---------------------------------------------------------------------------
  // The processor with the corrected handler

  /** The same task built on the corrected handler: it always completes. */
  function CheckedSubscriptionStep(base: string, remote: Request -> Reply, d: RowData): Step {
    var outcome := UpdateAccountChecked(remote(RowRequest(base, d)));
    Step([Processing, HandledStatus(outcome)], Completed(Signal(Undefined, Undefined)))
  }

  function CheckedSubscriptionProcessor(base: string, remote: Request -> Reply): RowProcessor {
    d => CheckedSubscriptionStep(base, remote, d)
  }

  /** With the corrected handler a processed row records exactly [PROCESSING,
      DONE] or [PROCESSING, FAILED], FAILED precisely when the update did not
      succeed, and the task always completes with `step()`. */
  lemma CheckedSubscriptionLifecycle(base: string, remote: Request -> Reply, d: RowData)
    requires IsRowProcessable(d)
    ensures var step := CheckedSubscriptionStep(base, remote, d);
      Lifecycle(d.progress, step.writes)
      && (step.writes == [Processing, Done] || step.writes == [Processing, Failed])
      && (step.writes[1] == Failed <==> !IsSuccessChecked(remote(RowRequest(base, d))))
      && step.completion == Completed(Signal(Undefined, Undefined))
  {
  }

  /** The two processors take the same step on a row exactly when its reply is
      not one of those the handler as written gets wrong. */
  lemma CheckedAgreesOnRow(base: string, remote: Request -> Reply, d: RowData)
    ensures SubscriptionStep(base, remote, d) == CheckedSubscriptionStep(base, remote, d)
        <==> !Divergent(remote(RowRequest(base, d)))
  {
    var reply := remote(RowRequest(base, d));
    CheckedAgreesWithWritten(reply);
    if reply.Response? && reply.body.Absent? && reply.statusCode != 200 {
      assert SubscriptionStep(base, remote, d).writes == [Processing, Done];
    }
  }

  /** With the corrected processor no task errs or throws, so the series always
      yields one result per row: `undefined` for a processed row, the skip
      message for any other. */
  lemma {:induction false} CheckedBatchSucceeds(base: string, remote: Request -> Reply, rows: seq<RowData>)
    ensures var cs := Completions(Plan(rows, CheckedSubscriptionProcessor(base, remote)));
      var outcome := SeriesOutcome(cs);
      outcome.Some? && outcome.value.Ok? && TasksRun(cs) == |rows| && |outcome.value.value| == |rows|
      && forall i :: 0 <= i < |rows| ==> outcome.value.value[i] == BatchResult(rows[i])
  {
    var cs := Completions(Plan(rows, CheckedSubscriptionProcessor(base, remote)));
    forall i | 0 <= i < |rows|
      ensures !cs[i].Stops() && ResultOf(cs[i]) == BatchResult(rows[i])
    {
      PlanRoutesByGate(rows, CheckedSubscriptionProcessor(base, remote), i);
      FallbackContract(rows[i]);
    }
    SeriesSucceeds(cs);
    SeriesOkIff(cs);
  }

  // ---------------------------------------------------------------------------
  // The batch this deployment runs

  /** The result a row's task contributes when it completes: `undefined` for a
      processed row, the skip message for any other. */
  function BatchResult(d: RowData): Value {
    if IsRowProcessable(d) then Undefined else Str(SkipMessage(d.id))
  }

  predicate SomeRowHangs(base: string, remote: Request -> Reply, rows: seq<RowData>) {
    exists i :: 0 <= i < |rows| && Hangs(base, remote, rows[i])
  }

  /** With this processor no task ever reports an error. The series never calls
      back exactly when some processed row's handler throws; it then stops at
      the first such row, and no later row is started. Otherwise it yields one
      result per row. */
  lemma {:induction false} DeploymentBatch(base: string, remote: Request -> Reply, rows: seq<RowData>)
    ensures var cs := Completions(Plan(rows, SubscriptionProcessor(base, remote)));
      var outcome := SeriesOutcome(cs);
      (outcome.None? <==> SomeRowHangs(base, remote, rows))
      && (outcome.Some? ==>
            outcome.value.Ok? && TasksRun(cs) == |rows| && |outcome.value.value| == |rows|
            && forall i :: 0 <= i < |rows| ==> outcome.value.value[i] == BatchResult(rows[i]))
      && (outcome.None? ==>
            0 < TasksRun(cs) && Hangs(base, remote, rows[TasksRun(cs) - 1])
            && forall j :: 0 <= j < TasksRun(cs) - 1 ==> !Hangs(base, remote, rows[j]))
  {
    var cs := Completions(Plan(rows, SubscriptionProcessor(base, remote)));
    forall i | 0 <= i < |rows|
      ensures cs[i].Stops() <==> Hangs(base, remote, rows[i])
      ensures cs[i].Stops() ==> cs[i].Threw?
      ensures !cs[i].Stops() ==> ResultOf(cs[i]) == BatchResult(rows[i])
    {
      PlanRoutesByGate(rows, SubscriptionProcessor(base, remote), i);
      FallbackContract(rows[i]);
    }
    SeriesCharacterised(cs);
    var k := FirstStop(cs);
    if k < |cs| {
      assert Hangs(base, remote, rows[k]);
    } else {
      assert Results(cs) == seq(|rows|, i requires 0 <= i < |rows| => BatchResult(rows[i]));
    }
  }

  /** Every row's writes are a legal ledger path. A processed row goes
      PROCESSING and then DONE or FAILED, or stays PROCESSING exactly when its
      handler throws. A NOT_STARTED row marked skippable goes to SKIPPED, and
      every other row is left alone. */
  lemma DeploymentRowLifecycle(base: string, remote: Request -> Reply, rows: seq<RowData>, i: nat)
    requires i < |rows|
    ensures var writes := Plan(rows, SubscriptionProcessor(base, remote))[i].writes;
      Lifecycle(rows[i].progress, writes)
      && (IsRowProcessable(rows[i]) ==>
            writes == [Processing, Done] || writes == [Processing, Failed] || writes == [Processing])
      && (IsRowProcessable(rows[i]) ==> (writes == [Processing] <==> Hangs(base, remote, rows[i])))
      && (rows[i].progress == NotStarted && rows[i].skippable != "FALSE" ==> writes == [Skipped])
      && (rows[i].progress != NotStarted ==> writes == [])
  {
    PlanRoutesByGate(rows, SubscriptionProcessor(base, remote), i);
    FallbackContract(rows[i]);
    if IsRowProcessable(rows[i]) {
      SubscriptionLifecycle(base, remote, rows[i]);
    }
  }

  const SpreadsheetPlaceholder := "[SPREADSHEET_ID]"

  /** The deployment's arguments pass validation and fill in only the
      credentials default. */
  lemma DeploymentAccepted(processor: RowProcessor)
    ensures Validation(Str(SpreadsheetPlaceholder), Some(processor), Obj("endCallback"), Num(1), Num(57), Undefined)
         == Accepted(Settings(Str(SpreadsheetPlaceholder), Num(1), Num(57), Str(DefaultCredentials)))
  {
  }

  /** The deployment's invocation: `runner('[SPREADSHEET_ID]', processSubscription,
      endCallback, 1, 57)`, with the default credentials path. */
  method Deploy(base: string, remote: Request -> Reply, authError: Value, fetched: seq<Row>, ghost sheet: Worksheet)
    returns (inv: Invocation, fetch: Option<Fetch>, calls: seq<Result<seq<Value>, Value>>)
    requires Distinct(fetched) && OnSheet(fetched, sheet)
    modifies fetched, sheet`log
    ensures inv.Accepted? && inv.settings.credentials == Str(DefaultCredentials)
    ensures |calls| <= 1
    ensures Truthy(authError) ==>
      calls == [Err(authError)] && fetch == None
      && Untouched(fetched, old(Snapshot(fetched)), old(Logs(fetched))) && sheet.log == old(sheet.log)
    ensures !Truthy(authError) ==>
      var plan := Plan(old(Snapshot(fetched)), SubscriptionProcessor(base, remote));
      fetch == Some(Fetch(Num(1), Num(57)))
      && (calls == [] <==> SomeRowHangs(base, remote, old(Snapshot(fetched))))
      && (calls != [] ==>
            calls[0].Ok? && |calls[0].value| == |fetched|
            && forall i :: 0 <= i < |fetched| ==> calls[0].value[i] == BatchResult(old(Snapshot(fetched))[i]))
      && Progressed(fetched, old(Snapshot(fetched)), old(Logs(fetched)), plan, TasksRun(Completions(plan)))
      && sheet.log == old(sheet.log) + SeriesSaves(fetched, plan, TasksRun(Completions(plan)))
  {
    ghost var init := Snapshot(fetched);
    var processor := SubscriptionProcessor(base, remote);
    DeploymentBatch(base, remote, init);
    DeploymentAccepted(processor);
    inv, fetch, calls := Run(Str(SpreadsheetPlaceholder), Some(processor), Obj("endCallback"),
                             Num(1), Num(57), Undefined, authError, fetched, sheet);
  }

  // ---------------------------------------------------------------------------
  // Worked batches

  /** A processable row whose update succeeds, a NOT_STARTED row marked
      skippable, and a row already DONE. */
  lemma MixedBatch(base: string, remote: Request -> Reply)
    requires IsSuccessChecked(remote(AccountUpdateRequest(base, "acc-a", "crm-a")))
    ensures var rows := [RowData("A", NotStarted, "FALSE", "acc-a", "crm-a"),
                         RowData("B", NotStarted, "TRUE", "acc-b", "crm-b"),
                         RowData("C", Done, "FALSE", "acc-c", "crm-c")];
      var plan := Plan(rows, SubscriptionProcessor(base, remote));
      SeriesOutcome(Completions(plan)) == Some(Ok([Undefined, Str("Skipped row: B"), Str("Skipped row: C")]))
      && plan[0].writes == [Processing, Done] && plan[1].writes == [Skipped] && plan[2].writes == []
  {
    var rows := [RowData("A", NotStarted, "FALSE", "acc-a", "crm-a"),
                 RowData("B", NotStarted, "TRUE", "acc-b", "crm-b"),
                 RowData("C", Done, "FALSE", "acc-c", "crm-c")];
    var plan := Plan(rows, SubscriptionProcessor(base, remote));
    SubscriptionLifecycle(base, remote, rows[0]);
    assert !Hangs(base, remote, rows[0]);
    assert !SomeRowHangs(base, remote, rows);
    DeploymentBatch(base, remote, rows);
    var outcome := SeriesOutcome(Completions(plan)).value;
    assert |outcome.value| == 3;
    assert outcome.value[0] == Undefined;
    assert outcome.value[1] == Str(SkipMessage("B"));
    assert outcome.value[2] == Str(SkipMessage("C"));
    assert SkipMessage("B") == "Skipped row: B" && SkipMessage("C") == "Skipped row: C";
    assert outcome.value == [Undefined, Str("Skipped row: B"), Str("Skipped row: C")];
  }

  /** A processable row whose update is refused ends FAILED, yet the batch
      still reports success with that row's result slot undefined. */
  lemma RefusedUpdate(base: string, remote: Request -> Reply, text: JsonText)
    requires remote(AccountUpdateRequest(base, "acc-d", "crm-d")) == Response(404, JsonObject(Bool(false), text))
    ensures var rows := [RowData("D", NotStarted, "FALSE", "acc-d", "crm-d")];
      var plan := Plan(rows, SubscriptionProcessor(base, remote));
      SeriesOutcome(Completions(plan)) == Some(Ok([Undefined])) && plan[0].writes == [Processing, Failed]
  {
    var rows := [RowData("D", NotStarted, "FALSE", "acc-d", "crm-d")];
    assert !Hangs(base, remote, rows[0]);
    assert !SomeRowHangs(base, remote, rows);
    DeploymentBatch(base, remote, rows);
    var outcome := SeriesOutcome(Completions(Plan(rows, SubscriptionProcessor(base, remote)))).value;
    assert outcome.value[0] == Undefined;
    assert outcome.value == [Undefined];
  }

  /** A processable row whose update gets an empty 200 reply stays PROCESSING,
      the processable row after it is never started, and the batch never
      calls back. */
  lemma StalledBatch(base: string, remote: Request -> Reply)
    requires remote(AccountUpdateRequest(base, "acc-e", "crm-e")) == Response(200, Absent)
    ensures var rows := [RowData("E", NotStarted, "FALSE", "acc-e", "crm-e"),
                         RowData("F", NotStarted, "FALSE", "acc-f", "crm-f")];
      var plan := Plan(rows, SubscriptionProcessor(base, remote));
      SeriesOutcome(Completions(plan)) == None && plan[0].writes == [Processing]
      && TasksRun(Completions(plan)) == 1
  {
    var rows := [RowData("E", NotStarted, "FALSE", "acc-e", "crm-e"),
                 RowData("F", NotStarted, "FALSE", "acc-f", "crm-f")];
    assert Hangs(base, remote, rows[0]);
    DeploymentBatch(base, remote, rows);
  }
}
