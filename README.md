# Form-response ingestion, modelled in Dafny

This project models the ingestion step of the PEA submission site
(`insercion.js`). A Google Form writes its responses to the sheet `Hoja1`.
Once a minute, the poller does three things:

1. It reads the range `Hoja1!B2:P`.
2. It inserts every response with a usable e-mail address into the MySQL
   table `practica`, all inside one transaction. Before each INSERT it
   downloads the two attachments named by URL: the authorisation letter in
   cell 13 and the file in cell 5.
3. After each successful INSERT it clears the whole data range
   `Hoja1!A2:P`.

The first error rolls the transaction back and ends the batch. A failing
clear is only logged. Whatever happens, the poller then sleeps for 60 000 ms.

## How the model is built

- **State.** The world outside the script is the datatype `External.World`:
  - the committed rows of `practica`;
  - the rows of the open transaction, and whether one is open;
  - the rows still in the sheet, and whether a clear has succeeded;
  - the trace of every call made: START TRANSACTION, download, INSERT,
    clear, COMMIT, ROLLBACK, sleep.
- **Call outcomes.** The outcome of every call that can fail comes from an
  `Oracle`:
  - the body served at each URL (a download of any other URL throws);
  - the batch positions whose INSERT throws;
  - the batch positions whose clear throws.
- **Library calls.** `External.Backend` is a class holding the same state.
  Each of its methods stands for one call the script makes through a
  library. Each method is proved against a transition function on `World`.
- **The script's functions.** `Ingestion.InsertIntoDatabase`,
  `DeleteRowFromSpreadsheet` and `ProcessResponsesOnce` are written
  statement by statement in the shape of the JavaScript. They are proved to
  produce the state given by the specification functions `RunBatch` and
  `PollCycle`.
- **Properties.** The properties are proved about those specification
  functions in `IngestionProperties`, `BatchProperties`, `BatchOutcomes` and
  `LostResponse`.
- **Clearing inside the transaction.** The sheet is cleared after every
  INSERT, inside the transaction, exactly as the code does it. It is not
  cleared once after COMMIT. Clearing once after COMMIT would close the
  gaps below; the model follows the code as written.
- **Consequences of that.** They are proved:
  - `ClearedSheetButRolledBack` and `LostResponseExample`: a later failing
    row leaves the sheet empty and the table unchanged, so a response is
    lost;
  - `CommittedButNotCleared` and `UnclearedResponsesStoredTwice`: failing
    clears leave committed responses on the sheet, so they are stored again;
  - `LateResponsesCleared`: a response the form adds after the read of
    `B2:P` is wiped by the clear of `A2:P` without ever being stored, even
    in a batch that commits.

## Model

| member | source | states |
|---|---|---|
| JsValues.TrimStartSpec | insercion.js:90 | `trim`'s leading part removes a prefix made only of whitespace and stops at a non-whitespace character |
| JsValues.TrimEndSpec | insercion.js:90 | `trim`'s trailing part removes a suffix made only of whitespace and stops at a non-whitespace character |
| JsValues.TrimEmptyIffBlank | insercion.js:90 | `s.trim() === ''` holds exactly when every character of `s` is whitespace |
| JsValues.TrimIsInnerSlice | insercion.js:90 | `s.trim()` is a contiguous slice of `s`; when it is non-empty, it starts and ends with a non-whitespace character |
| Records.ShouldSkipIsSourceTest | insercion.js:90-94 | the skip rule is exactly `!row[0] \|\| typeof row[0] !== 'string' \|\| row[0].trim() === ''`, a missing cell counting as `undefined` |
| Records.SkipUnlessEmailHasText | insercion.js:90 | a row is processed iff its first cell is a string with at least one non-whitespace character |
| Records.BuildRecord | insercion.js:83-126 | the INSERT parameters are 14 values in column order: cells 0-4 and 6-12 unchanged, the file download in `descarga` (slot 5), the letter download in `carta_autorizacion` (slot 13) |
| Records.ScalarCellsRoundTrip | insercion.js:111-126 | the 12 cells passed through can be read back from the record, unchanged and in order |
| Ingestion.ClearRangeOf | insercion.js:158 | the range cleared lies on the given sheet, starts at the read range's first row and ends at its last column, is one column wider, and covers the read range iff the sheet is `Hoja1` |
| Ingestion.RangeNotations | insercion.js:51-158 | the range read is `Hoja1!B2:P`, one column wider than the 14 INSERT parameters, and the range cleared is `Hoja1!A2:P` |
| Ingestion.RecordOf | insercion.js:97-126 | slot 5 / 13 is NULL iff cell 5 / 13 is falsy, and otherwise holds the body downloaded from that cell's URL; the other 12 slots are the row's cells |
| Ingestion.FetchNewResponses | insercion.js:46-62 | a read that throws fails; otherwise the result is the sheet's rows, with `[]` in place of the `values` the API omits for an empty range |
| Ingestion.DeleteRowFromSpreadsheet | insercion.js:153-165 | clears `Hoja1!A2:P`: the sheet is emptied when the call succeeds and otherwise only the attempt is recorded; the table and the transaction are never touched |
| Ingestion.InsertIntoDatabase | insercion.js:82-141 | the `for` loop with its `continue`, downloads, INSERT, clear, and early `return` after ROLLBACK ends in the state `RunBatch` specifies |
| Ingestion.ProcessResponsesOnce | insercion.js:172-191 | one iteration of the poll loop ends in the state `PollCycle` specifies |
| External.Backend.constructor | insercion.js:14 | a connection to a table holding the given rows, with the given responses on the sheet and no transaction open |
| External.Backend.StartTransaction | insercion.js:86 | a transaction is opened; one that was still open is committed first, as MySQL does |
| External.Backend.DownloadFile | insercion.js:69-72 | returns the body served at the URL, or nothing when the request throws; the call is recorded |
| External.Backend.InsertRecord | insercion.js:111-126 | a successful INSERT joins the open transaction (or the table, under autocommit); a failing one changes no rows |
| External.Backend.CommitTransaction | insercion.js:140 | the transaction's rows are appended to the table and no transaction stays open |
| External.Backend.RollbackTransaction | insercion.js:134 | the transaction's rows are discarded, the table is unchanged, and no transaction stays open |
| External.Backend.ClearRange | insercion.js:156-159 | a successful clear of a range covering the read range empties the sheet; a clear of another sheet leaves it as it was; a clear never touches the table or the transaction |
| External.Backend.Sleep | insercion.js:188 | the pause is recorded and nothing else changes |
| IngestionProperties.ProcessedCount | insercion.js:88-94 | the number of rows in a range that the skip rule lets through, never more than the range's length |
| IngestionProperties.ValidRecords | insercion.js:88-126 | the records of the non-skipped rows in a range, in row order; exactly one per non-skipped row |
| IngestionProperties.ProcessedRowTrace | insercion.js:96-129 | a row that gets through makes only downloads, its INSERT and one clear |
| IngestionProperties.RowsTrace | insercion.js:88-129 | the calls of rows that all get through, in row order, are only downloads, INSERTs and clears |
| IngestionProperties.FirstFailure | insercion.js:88-136 | the first row that throws: every row before it is skipped or gets through |
| IngestionProperties.SkippedRowChangesNothing | insercion.js:90-94 | a skipped row makes no call, changes nothing, and the loop goes on |
| IngestionProperties.ProcessedRow | insercion.js:96-129 | a row whose downloads and INSERT succeed adds its record to the transaction and its calls to the trace; the sheet is emptied iff its clear succeeds; the loop goes on |
| IngestionProperties.FailedRowTrace | insercion.js:96-126 | a row that throws makes at least one call, and every call it makes is a download or the INSERT for that row |
| IngestionProperties.FailedRow | insercion.js:130-135 | a row that throws changes neither the transaction nor the sheet before the ROLLBACK, and the loop stops |
| IngestionProperties.ContinueStep | insercion.js:88-129 | the loop goes past a row that does not throw in the state `Advance` gives |
| IngestionProperties.StopStep | insercion.js:130-136 | the loop ends at a row that throws with that row's calls and a ROLLBACK |
| BatchProperties.ProcessRowsCommits | insercion.js:88-140 | when no row throws, the loop ends with everything pending plus every processed row's record committed, its calls in order, and one COMMIT |
| BatchProperties.ProcessRowsRollsBackAt | insercion.js:88-136 | when row `f` is the first to throw, the loop ends with the transaction discarded, the calls of the rows before `f`, those of `f`, and one ROLLBACK |
| BatchProperties.ProcessRowsRollsBack | insercion.js:88-136 | the same at the first row that throws |
| BatchProperties.BatchCommits | insercion.js:82-141 | a batch where no row throws: the table grows by the records of the non-skipped rows in source order; the trace is one START, the rows' calls, one COMMIT |
| BatchProperties.BatchRollsBack | insercion.js:82-141 | a batch where a row throws: the table is unchanged; the trace is one START, the calls of the rows up to the failing one, one ROLLBACK and no COMMIT; no later row is touched |
| BatchOutcomes.AllOrNothing | insercion.js:85-140 | a batch stores the records of all its processed rows or none, and leaves no transaction open |
| BatchOutcomes.BatchTraceShape | insercion.js:86-140 | a batch's calls are one START first, then only downloads, INSERTs and clears, then COMMIT iff no row threw and ROLLBACK iff one did |
| BatchOutcomes.ClearFailuresNeverAbort | insercion.js:153-165 | runs that differ only in which clears fail store the same records and make the same calls |
| BatchOutcomes.SkippedRowsContributeNothing | insercion.js:90-94 | skipped rows contribute no record, no call and no clear |
| BatchOutcomes.AllRowsSkipped | insercion.js:86-140 | a batch where every row is skipped still makes START and COMMIT, and nothing else |
| BatchOutcomes.ClearedSheetButRolledBack | insercion.js:129-135 | when a row throws after an earlier row's clear succeeded, the sheet is empty and the table unchanged |
| BatchOutcomes.PollCycleSleeps | insercion.js:172-191 | every cycle ends with a sleep of 60 000 ms, and leaves no transaction open when it started with none |
| BatchOutcomes.NothingToProcess | insercion.js:175-188 | a failed read, or one that finds no responses, opens no transaction and only sleeps |
| BatchOutcomes.CommittedButNotCleared | insercion.js:153-165 | a committed batch whose clears all failed leaves its responses on the sheet |
| BatchOutcomes.UnclearedResponsesStoredTwice | insercion.js:172-191 | two such cycles in a row store the same records twice |
| BatchOutcomes.OneRecordPerProcessedRow | insercion.js:88-140 | a batch where no row throws adds exactly one row to the table per response that passes the skip rule |
| BatchOutcomes.LateResponsesCleared | insercion.js:155-158 | responses the form adds after the read are wiped by a successful clear in a committed batch, and only the responses read are stored |
| BatchOutcomes.RetryAfterRollback | insercion.js:172-191 | a rolled-back batch with no successful clear leaves the table and the sheet as they were; the next cycle that commits stores what one successful cycle would have stored |
| LostResponse.LostResponseExample | insercion.js:129-135 | two responses, the second's INSERT failing: after the cycle the table and the sheet are both empty, and the next cycle only sleeps |

## Left out

- The HTTP server (`server.js`) and its manual trigger of the ingestion step are not part of this model. So is any concurrency between that trigger and the poller.
- `authorize` and the Google, axios and MySQL client libraries are not modelled. Their calls are the `Backend` methods, and their outcomes come from the `Oracle`.
- Every log line is left out, and so is the SQL text.
- `processResponsesAtIntervals` loops forever. The model covers one iteration, and `sleep` is recorded in the trace rather than timed.
- START TRANSACTION, COMMIT and ROLLBACK are assumed to succeed. Their failures would escape `insertIntoDatabase` and be caught by the poll loop. They are not modelled.
- Downloads are decided by URL: the same URL yields the same body, or throws, on every call.
- The oracle says which batch positions' INSERTs and clears throw. It does not model the reasons, such as constraint violations, timeouts or quota.
- Cell values are `undefined`, strings or integers. JavaScript's non-integer numbers, `NaN` and `-0` are not modelled. For truthiness only `0` among the numbers matters, and only strings pass the skip rule.
- The read range starts at column B, but the clear range starts at column A. The model records both ranges as values. The sheet's rows are modelled as read, so column A (the form's timestamp) is not represented.
- External.ClearValues: only the two kinds of clear the script can make are given an effect: a range covering the read range empties the sheet, and a range on another sheet changes nothing. A partial clear of `Hoja1` is not modelled.
- Cell 14 of each row, column P, is read but never used by the INSERT, so the record ignores it.
- Ingestion.FetchNewResponses: the error message text is not modelled, only the fact that the read failed.
- Ingestion.DeleteRowFromSpreadsheet: the sheet holds the rows read, plus what the form appends between the read and the batch (`External.FormSubmits`). Submissions that arrive between two calls inside one batch are not represented; `LateResponsesCleared` shows the loss for those that arrive after the read.
- Records.BuildRecord: the MySQL driver sends an `undefined` parameter as NULL. The record keeps `CellParam(Undefined)` apart from `SqlNull`, so the model does not identify the two.
