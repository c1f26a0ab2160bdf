# updateCrmIds — a Dafny model of the spreadsheet control runner

The repository is a small batch job. A Google spreadsheet is a work ledger, one
row per billing account. The runner (`google-spreadsheet-control-runner.js`)
validates its arguments and fills in defaults. It authenticates and fetches a
window of rows. It then gates each row: a row whose `progress` is exactly
`NOT_STARTED` and whose `skippable` is exactly `FALSE` goes to the
caller-supplied processor. Every other row goes to a fallback, which marks a
`NOT_STARTED` row `SKIPPED`. The tasks run one after another as an `async.series`
that stops at the first task to report an error. The runner then calls the
caller's callback once with the outcome, unless some task never completes.

The deployment (`index.js`) supplies the processor. For each processable row it
sets `progress` to `PROCESSING` and saves the row. It then sends one `PUT` to the
billing system's accounts endpoint carrying the row's CRM id. When the reply's
handler calls back, the processor writes `DONE` or `FAILED`, saves again and
completes without error. When the handler throws instead, the row stays
`PROCESSING` and the task never completes.

The model has four modules:

- `Js` (js.dfy): JavaScript values as far as the code inspects them, namely
  truthiness, `if (!v) v = d` defaulting, and the `(err, result)` arguments of a
  completion callback.
- `Sheet` (sheet.dfy): the row handle as a class. Its `progress` field is
  mutable, and a ghost `saved` log records the `progress` value of every
  `save()` requested. Every row belongs to a `Worksheet`, whose ghost `log`
  records the save requests of all its rows in the order they were made. The
  module also defines the status ledger's legal transitions.
- `ControlRunner` (control_runner.dfy): the gate, the fallback and the dispatch.
  The series is a pure specification (`SeriesOutcome`) that an imperative loop
  over the rows (`RunSeries`) is proved against. The argument validation is a
  specification (`Validation`) with a step-by-step method (`Initialise`) proved
  equal to it. `Run` is the exported function.
- `Deployment` (deployment.dfy): the update request and the reply
  classification, both as written and corrected. The row processor as written
  (`SubscriptionStep`, `SetRowProgress`, `ProcessSubscription`) is what the
  deployment runs. A processor built on the corrected classification
  (`CheckedSubscriptionStep`) stands beside it. The module ends with the
  deployment's single invocation (`Deploy`).

A row processor is supplied by the caller. It is modelled by what its task does
to the row it was given. A `Step` lists the `progress` values the task writes,
each followed by one save. It also says how the task ends: it either calls back
with `(err, result)` or throws before calling back. A task that throws never
completes, so the series stalls and the terminal callback is never called.
This lets the runner be proved against any processor, and the deployment's
processor is one instance.

A processor that signalled a failed update would stop the series at that row.
But `processSubscription` always completes with `step()` and no error
(index.js:54), so a refused update marks its row `FAILED` and the batch goes on
(`Deployment.RefusedUpdate`).

## Model

| member | source | states |
|---|---|---|
| Sheet.Row.Save | google-spreadsheet-control-runner.js:13 | a save request appends the current `progress` to the row's save history and, paired with the row, to its worksheet's log, and changes nothing else |
| Sheet.TerminalIsFinal | google-spreadsheet-control-runner.js:5-11 | from DONE, FAILED or SKIPPED the only legal sequence of writes is the empty one |
| Sheet.LifecycleFromNotStarted | index.js:45-53 | a legal path from NOT_STARTED is empty, SKIPPED alone, PROCESSING alone, or PROCESSING then DONE or FAILED |
| ControlRunner.IsRowProcessable | google-spreadsheet-control-runner.js:4-6 | the gate: progress exactly NOT_STARTED and skippable exactly FALSE, by strict string equality |
| ControlRunner.Dispatch | google-spreadsheet-control-runner.js:36 | one task per fetched row, in fetch order; row i gets the provided processor exactly when it passes the gate |
| ControlRunner.FallbackStep | google-spreadsheet-control-runner.js:8-17 | the fallback's effect on a row: SKIPPED written (and saved) only over NOT_STARTED, then a call back with no error and the skip message |
| ControlRunner.FallbackContract | google-spreadsheet-control-runner.js:8-17 | the fallback never errs or throws, and its result is "Skipped row: " plus the id; it writes exactly [SKIPPED] if and only if progress was NOT_STARTED, otherwise nothing; its writes are a legal ledger path |
| ControlRunner.FallbackIdempotent | google-spreadsheet-control-runner.js:11-14 | running the fallback again on a row it already handled writes nothing and completes the same way |
| ControlRunner.FallbackRowProcessor | google-spreadsheet-control-runner.js:8-17 | on the row object: the save history and the worksheet's log grow by exactly the fallback's writes, the cells end as those writes leave them, and the signal is the fallback's |
| ControlRunner.RunTask | google-spreadsheet-control-runner.js:36 | running a row's task leaves the row as its step says, adds exactly that row's saves to the worksheet's log, and ends as that step ends |
| ControlRunner.Plan | google-spreadsheet-control-runner.js:36 | the dispatched tasks' steps: one per row, in order, each the one the gate chooses for that row |
| ControlRunner.PlanRoutesByGate | google-spreadsheet-control-runner.js:36 | a row that passes the gate gets the provided processor's step, and any other row gets the fallback's; ineligible rows never reach the provided processor |
| ControlRunner.SeriesOutcome | google-spreadsheet-control-runner.js:36 | `async.series`: tasks run in order; the first that errs ends the series with its error; one that throws before calling back leaves the series waiting, so it never calls back; otherwise one result per task, in order |
| ControlRunner.FirstStop | google-spreadsheet-control-runner.js:36 | the index of the first task that errs or throws: no task before it does, and the one at it does (or it is the length when none does) |
| ControlRunner.SeriesCharacterised | google-spreadsheet-control-runner.js:36 | the series fails with the first error when that stop is an error, never calls back when it is a throw, and otherwise yields every task's result at its own position |
| ControlRunner.SeriesOkIff | google-spreadsheet-control-runner.js:36-41 | the series succeeds if and only if no task errs or throws, and then has one result per row, entry i being row i's |
| ControlRunner.SeriesSilentIff | google-spreadsheet-control-runner.js:36 | the series never calls back if and only if some task throws with no earlier task erring or throwing |
| ControlRunner.SeriesIgnoresUnrunTasks | google-spreadsheet-control-runner.js:36 | how tasks after the first stop would end cannot change the outcome, because they never run |
| ControlRunner.SeriesStopsAt | google-spreadsheet-control-runner.js:36 | if task k is the first to err or throw, the series ends there after starting exactly k+1 tasks, with its error or without calling back |
| ControlRunner.SeriesSucceeds | google-spreadsheet-control-runner.js:36 | if no task errs or throws, the series yields all results and starts every task |
| ControlRunner.RunNext | google-spreadsheet-control-runner.js:36 | running task i takes row i's planned writes, appends row i's saves to the worksheet's log, leaves every other row as it was, and ends as planned |
| ControlRunner.RunSeries | google-spreadsheet-control-runner.js:30-38 | the loop over the rows returns the series specification's outcome for the planned completions; exactly the tasks the series starts have run, one after another in row order: the worksheet's log grows by row 0's saves, then row 1's, up to the last row started; each of those rows is left as planned, and every later row is untouched |
| ControlRunner.SeriesSavesOrdered | google-spreadsheet-control-runner.js:36 | every save the series makes belongs to a row it started, and a later save never belongs to an earlier row |
| ControlRunner.SavesInRowOrder | google-spreadsheet-control-runner.js:36 | for distinct rows, if save p comes no later than save q in the series' log, then save p's row comes no later in fetch order than save q's row, and both rows were started |
| ControlRunner.Validation | google-spreadsheet-control-runner.js:46-74 | the run is accepted if and only if all three required arguments are present; when rejected, every missing one is reported, without short-circuit and in check order; when accepted, missing starting row and row count become 1, the missing credentials path becomes ./google-creds.json, and present values pass through |
| ControlRunner.Initialise | google-spreadsheet-control-runner.js:47-74 | the step-by-step checks with the `allGood` flag and parameter reassignment decide exactly what `Validation` specifies |
| ControlRunner.Pipeline | google-spreadsheet-control-runner.js:79-82 | the waterfall's outcome: a truthy authentication error is forwarded; otherwise the series outcome over the fetched rows, passed on unchanged (none when the series never calls back) |
| ControlRunner.Run | google-spreadsheet-control-runner.js:46-88 | when rejected: no fetch, no callback, no row touched. When accepted: the callback is called once with the waterfall's outcome, or never when the series never calls back. An authentication error is forwarded, with nothing fetched and no row touched; otherwise the fetch uses the (defaulted) starting row and row count, and the rows the series started took their planned writes, with their saves reaching the worksheet row by row in fetch order, while the others are untouched. Nothing reaches the worksheet's log when no row is run. |
| Deployment.AccountUpdateRequest | index.js:19-24 | the update request for one account: a PUT to the base URL plus /rest/v1/accounts/ plus the account id, carrying the CRM id |
| Deployment.RequestAddressesAccount | index.js:19-24 | the update is a PUT to the base URL plus /rest/v1/accounts/ plus the row's account id, carrying its CRM id; two requests are equal only for the same account and CRM id |
| Deployment.Stringify | index.js:31 | the serialised body is falsy exactly when there is no body |
| Deployment.IsSuccess | index.js:15-17 | the test throws exactly on a 200 reply with an absent or null body; otherwise it is truthy if and only if the status is 200 and the body's `success` is truthy |
| Deployment.UpdateAccount | index.js:26-33 | as written: a transport error gives "error while updating account: " plus the message plus "."; the handler throws exactly where `isSuccess` does; a success calls back with a null error and the body; a response that is not a success calls back with the serialised body as the error |
| Deployment.IsSuccessChecked | index.js:15-17 | corrected test: a success is a 200 reply with an object body; it never reads a missing body, and agrees with `isSuccess` wherever that does not throw |
| Deployment.UpdateAccountChecked | index.js:26-33 | corrected handler: an error exactly when the reply is not a success; on success a null error and the body; on a transport error the message above |
| Deployment.CheckedAgreesWithWritten | index.js:26-33 | the corrected handler gives exactly the original's completion on every reply except one without a body, or a 200 reply with a null body |
| Deployment.BodilessFailureLooksLikeSuccess | index.js:31 | a 500 reply without a body completes with no error, so the row would be marked DONE; the corrected handler marks it FAILED |
| Deployment.BodilessOkThrows | index.js:16 | a 200 reply with an absent or null body makes `isSuccess` throw; the corrected test says "not a success" |
| Deployment.SubscriptionStep | index.js:42-58 | the task of `processSubscription` on a row: PROCESSING, the update, then the handled status and `step()` when the handler calls back, and nothing more when it throws |
| Deployment.SubscriptionProcessor | index.js:42-58 | `processSubscription` as the row processor handed to the runner |
| Deployment.SubscriptionLifecycle | index.js:42-58 | a processed row records PROCESSING, then stays there with its task never completing exactly on a 200 reply with an absent or null body; ends FAILED exactly when the reply is not a success and has a body (or is a transport error); and otherwise ends DONE; a completed task calls back with no error and no value |
| Deployment.BodilessFailureMarkedDone | index.js:31 | as written, a processed row whose update fails without a body ends [PROCESSING, DONE]; the corrected processor gives [PROCESSING, FAILED] |
| Deployment.BodilessOkLeavesProcessing | index.js:16 | as written, a processed row whose update gets a 200 reply with an absent or null body records only PROCESSING and its task never completes; the corrected processor writes FAILED and completes |
| Deployment.SetRowProgress | index.js:37-40 | progress becomes the given state, saved exactly once (one entry for this row in the worksheet's log), and no other cell changes |
| Deployment.Remote.Send | index.js:19-25 | sending a request yields the service's reply to it and logs the request together with the row it is sent for and that row's save history at that moment |
| Deployment.ProcessSubscription | index.js:42-58 | on the row object: the one request sent is the row's update, logged against this row, and it is sent after PROCESSING has been written and saved; the row then takes exactly the task's writes, which are also all that reaches the worksheet's log, and the task ends as `SubscriptionStep` says |
| Deployment.CheckedSubscriptionStep | index.js:42-58 | the same task built on the corrected handler: PROCESSING, then DONE on success and FAILED otherwise, always completing with `step()` |
| Deployment.CheckedSubscriptionLifecycle | index.js:42-58 | with the corrected handler a processed row records exactly [PROCESSING, DONE] or [PROCESSING, FAILED], FAILED precisely when the update did not succeed, and the task always completes with no error |
| Deployment.CheckedAgreesOnRow | index.js:42-58 | the processor as written and the corrected one take the same step on a row exactly when its reply is not one the handler as written gets wrong |
| Deployment.CheckedBatchSucceeds | index.js:54 | with the corrected processor, the series always succeeds with one result per row: undefined for a processed row, the skip message for any other |
| Deployment.DeploymentBatch | index.js:54 | as written, no task ever reports an error. The series never calls back exactly when some processed row's handler throws; it then stops at the first such row and starts no later one. Otherwise it succeeds with one result per row: undefined for a processed row, the skip message for any other. |
| Deployment.DeploymentRowLifecycle | index.js:42-58 | every row's writes are a legal ledger path. Processed rows go PROCESSING then DONE or FAILED, or stay PROCESSING exactly when their handler throws. Skippable NOT_STARTED rows go to SKIPPED, and every other row is left alone. |
| Deployment.DeploymentAccepted | index.js:67 | the deployment's arguments pass validation, with only the credentials path defaulted |
| Deployment.Deploy | index.js:67 | the deployment's run is accepted with the default credentials, and the callback is called at most once. An authentication error is forwarded with no row touched. Otherwise rows are fetched at offset 1 with limit 57. The callback is never called exactly when some fetched processed row's handler throws; otherwise it receives one result per fetched row: undefined for a processed row, the skip message for any other. The rows the series started took their planned writes, their saves reaching the worksheet row by row in fetch order. |
| Deployment.MixedBatch | google-spreadsheet-control-runner.js:36 | a processable row (update succeeds), a skippable NOT_STARTED row and a DONE row yield [undefined, "Skipped row: B", "Skipped row: C"] with writes [PROCESSING, DONE], [SKIPPED] and none |
| Deployment.RefusedUpdate | index.js:54 | a refused update marks its row FAILED, yet the batch still succeeds with that row's result undefined |
| Deployment.StalledBatch | index.js:16 | a processed row whose update gets an empty 200 reply stays PROCESSING; the next processed row is never started and the batch never calls back |

## Left out

- Google authentication, `getInfo` and `getRows` (google-spreadsheet-control-runner.js:20-35) call a foreign library over the network. Instead, the authentication error and the fetched rows are parameters of `Run`. The errors of `getInfo` and `getRows` are ignored by the code and are not modelled.
- The log lines of `getInfo` read the sheet's title and size. They are not modelled, nor is the crash they would cause on an undefined `info`.
- The HTTP request is reduced to its URL, verb and CRM id; headers, the `json` flag and the empty configuration constants are left out. The remote service is a function parameter from request to reply.
- `JSON.stringify` is an opaque non-empty text per body, except that an absent body serialises to `undefined`.
- Loading the credentials file with `require` is not modelled. The credentials are kept as the path string that would be loaded.
- All logging is left out. So is `endCallback`, which only logs. It would throw on `results.length` after an authentication error, and that is not modelled either.
- The unused `moment` import is left out.
- Asynchrony is not modelled: `async.series` and `async.waterfall` are sequential loops and folds.
- ControlRunner.SeriesOutcome: the version of async.js is not pinned by the source files. The model follows async 2.x, where a task that calls back with any falsy error, `false` included, lets the series go on. In async 3.x a callback with `false` as the error cancels the series without calling the final callback; that rule is not modelled. Neither processor in the repository calls back with `false`.
- A task that throws before calling back is modelled as one that never completes. What Node then does with the uncaught exception is not modelled; by default it ends the process. Either way, no later row is started and the terminal callback is not called.
- ControlRunner.RunSeries, ControlRunner.SeriesOutcome, ControlRunner.Pipeline, ControlRunner.Run: on an error, the partial results array async.js passes beside the error (and the waterfall hands to the terminal callback) is not modelled; only the error is.
- A caller-supplied processor is assumed to save after each `progress` write, to change no other cell, and to call back at most once (`Step`). Rows are assumed to be distinct objects (`Distinct`).
- A truthy processor that is not a function is not modelled. A present processor is `Some`, and a missing one is `None`. Likewise a truthy `errorResultsCallback` that is not a function is not modelled: the waterfall's callback would throw calling it (google-spreadsheet-control-runner.js:81), while `Run` records the call as made.
- `row.save()` is called without a callback, so a save that fails or has not finished is not noticed by the code. The model's save history holds the saves requested, not the ones confirmed; in particular, saves still in flight when a throwing handler ends the process are recorded as made.
- Numbers are integers or NaN. Fractional and infinite values are left out, since the code only tests them for truthiness.

## Findings

| source | as written | input that shows it | evidently intended | confidence | as-written member | corrected member |
|---|---|---|---|---|---|---|
| index.js:31 | an unsuccessful response reports its serialised body as the error, and the serialised form of a missing body is `undefined`, which is not an error, so the row ends DONE | a reply with status 500 and no body | every unsuccessful response is reported as an error, so the row ends FAILED | not executed | Deployment.BodilessFailureMarkedDone | Deployment.UpdateAccountChecked |
| index.js:16 | the success test reads `success` from the body without checking that the body exists, so the handler throws, the row stays PROCESSING and the batch never calls back | a reply with status 200 and an absent or JSON-null body | such a reply is not a success and is reported as an error | not executed | Deployment.BodilessOkLeavesProcessing | Deployment.IsSuccessChecked |
