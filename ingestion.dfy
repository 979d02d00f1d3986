/** The batch-ingestion step of `insercion.js`: one batch of sheet rows
    inserted under one transaction, the sheet cleared after every insert,
    and one cycle of the polling loop. Each operation is given as a function
    over `World` (its specification) and as a method over `Backend` that
    follows the JavaScript statement by statement. */
module Ingestion {
  import opened Wrappers
  import opened JsValues
  import opened Records
  import opened External

  /** Milliseconds slept after every poll cycle. */
  const IntervalMs: nat := 60 * 1000

  /** The range `deleteRowFromSpreadsheet` clears: columns A to P of
      `sheetName` below the header. For the form's sheet it covers the range
      read, starting on the same row and ending in the same column, with
      column A to the left of it as well. */
  function ClearRangeOf(sheetName: string): (range: SheetRange)
    ensures range.sheet == sheetName
    ensures range.Covers(ReadRange) <==> sheetName == SheetName
    ensures range.firstRow == ReadRange.firstRow && range.lastColumn == ReadRange.lastColumn
    ensures range.Width() == ReadRange.Width() + 1
  {
    SheetRange(sheetName, 'A', 2, 'P')
  }

  /** The ranges in the notation the two API calls are given, and the read
      range's columns, one per cell a row can hold (cells 0 to 14, the last
      of which no INSERT uses). */
  lemma RangeNotations()
    ensures ReadRange.Notation() == "Hoja1!B2:P"
    ensures ClearRangeOf(SheetName).Notation() == "Hoja1!A2:P"
    ensures ReadRange.Width() == Columns + 1
  {
  }

  // ---------------------------------------------------------------------
  // Specification of one row

  /** The value an attachment cell contributes: NULL without a download when
      the cell is falsy, the downloaded bytes otherwise, `None` when the
      download throws. */
  function Resolve(url: Cell, downloads: map<Cell, Bytes>): Option<Param> {
    if !Truthy(url) then Some(SqlNull)
    else match Body(downloads, url)
      case Some(body) => Some(Blob(body))
      case None => None
  }

  /** Both attachments of the row resolve. */
  predicate Resolves(row: Row, downloads: map<Cell, Bytes>) {
    Resolve(CellAt(row, LetterColumn), downloads).Some? &&
    Resolve(CellAt(row, DownloadColumn), downloads).Some?
  }

  /** The record inserted for a row whose attachments resolve. */
  function RecordOf(row: Row, downloads: map<Cell, Bytes>): (r: Record)
    requires Resolves(row, downloads)
    ensures |r| == Columns
    ensures forall k :: 0 <= k < Columns && k != DownloadColumn && k != LetterColumn ==>
      r[k] == CellParam(CellAt(row, k))
    ensures !Truthy(CellAt(row, DownloadColumn)) <==> r[DownloadColumn] == SqlNull
    ensures !Truthy(CellAt(row, LetterColumn)) <==> r[LetterColumn] == SqlNull
    ensures Truthy(CellAt(row, DownloadColumn)) ==>
      r[DownloadColumn] == Blob(Body(downloads, CellAt(row, DownloadColumn)).value)
    ensures Truthy(CellAt(row, LetterColumn)) ==>
      r[LetterColumn] == Blob(Body(downloads, CellAt(row, LetterColumn)).value)
  {
    BuildRecord(row,
      Resolve(CellAt(row, DownloadColumn), downloads).value,
      Resolve(CellAt(row, LetterColumn), downloads).value)
  }

  /** A processed row at batch position `i` gets through: both downloads
      and the INSERT succeed. The clear's outcome plays no part. */
  predicate Inserts(row: Row, i: nat, o: Oracle) {
    Resolves(row, o.downloads) && o.InsertOk(i)
  }

  /** The row at batch position `i` does not abort the batch: it is skipped,
      or it gets through. */
  predicate RowSucceeds(row: Row, i: nat, o: Oracle) {
    ShouldSkip(row) || Inserts(row, i, o)
  }

  /** The downloads a processed row makes: the letter (cell 13) first, then
      the file (cell 5), each only when its cell is truthy. */
  function DownloadOps(row: Row, i: nat): seq<Op> {
    (if Truthy(CellAt(row, LetterColumn)) then [Download(i, CellAt(row, LetterColumn))] else []) +
    (if Truthy(CellAt(row, DownloadColumn)) then [Download(i, CellAt(row, DownloadColumn))] else [])
  }

  /** The call is a download or an INSERT made for row `i`. */
  predicate MadeFor(op: Op, i: nat) {
    (op.Download? && op.row == i) || (op.Insert? && op.row == i)
  }

  /** The state after attempting the download of `url` for row `i`: a
      call is made only when the cell is truthy. */
  function AfterDownload(w: World, i: nat, url: Cell): World {
    if Truthy(url) then DownloadCall(w, i, url) else w
  }

  /** The INSERT of `rec` for row `i` and, when it succeeds, the clear of
      the sheet that follows it. */
  function InsertThenClear(w: World, i: nat, rec: Record, o: Oracle): World {
    var w1 := InsertTx(w, i, rec, o.InsertOk(i));
    if o.InsertOk(i) then ClearValues(w1, ClearRangeOf(SheetName), o.ClearOk(i)) else w1
  }

  /** The loop body for a row that is not skipped: download the letter,
      then the file, insert, and clear. The second component says whether
      the loop goes on (`false` once something threw, before the ROLLBACK). */
  function ProcessValidRow(w: World, row: Row, i: nat, o: Oracle): (World, bool) {
    var letterUrl := CellAt(row, LetterColumn);
    var fileUrl := CellAt(row, DownloadColumn);
    var w1 := AfterDownload(w, i, letterUrl);
    var w2 := AfterDownload(w1, i, fileUrl);
    if Resolve(letterUrl, o.downloads).None? then (w1, false)
    else if Resolve(fileUrl, o.downloads).None? then (w2, false)
    else (InsertThenClear(w2, i, RecordOf(row, o.downloads), o), o.InsertOk(i))
  }

  /** One pass of the `for` loop's body for the row at batch position `i`. */
  function ProcessRow(w: World, row: Row, i: nat, o: Oracle): (World, bool) {
    if ShouldSkip(row) then (w, true) else ProcessValidRow(w, row, i, o)
  }

  // ---------------------------------------------------------------------
  // Specification of a batch and of a poll cycle

  /** The rest of the `for` loop from batch position `i`, ending in COMMIT
      or, at the first row that throws, ROLLBACK. */
  function ProcessRows(w: World, data: seq<Row>, i: nat, o: Oracle): World
    requires i <= |data|
    decreases |data| - i
  {
    if i == |data| then CommitTx(w)
    else
      var step := ProcessRow(w, data[i], i, o);
      if step.1 then ProcessRows(step.0, data, i + 1, o) else RollbackTx(step.0)
  }

  /** `insertIntoDatabase(data, ...)`. */
  function RunBatch(w: World, data: seq<Row>, o: Oracle): World {
    ProcessRows(StartTx(w), data, 0, o)
  }

  /** What the Sheets API returns for the read range: no `values` at all
      when the range is empty. */
  function SheetValues(sheet: seq<Row>): Option<seq<Row>> {
    if sheet == [] then None else Some(sheet)
  }

  /** `fetchNewResponses()`: the rows of the sheet, `[]` in place of a
      missing `values`, or `SourceUnavailable` when the read throws. */
  function FetchNewResponses(sheet: seq<Row>, reachable: bool): (r: Result<seq<Row>>)
    ensures r.Success? <==> reachable
    ensures r.Success? ==> r.value == sheet
  {
    if !reachable then Failure(SourceUnavailable)
    else Success(SheetValues(sheet).GetOr([]))
  }

  /** One iteration of the `while (true)` loop of
      `processResponsesAtIntervals`: fetch, ingest a non-empty batch, and
      sleep whatever happened. */
  function PollCycle(w: World, reachable: bool, o: Oracle): World {
    var fetched := FetchNewResponses(w.sheet, reachable);
    var w1 := if fetched.Success? && |fetched.value| > 0 then RunBatch(w, fetched.value, o) else w;
    SleepFor(w1, IntervalMs)
  }

  // ---------------------------------------------------------------------
  // The JavaScript functions, call by call

  /** `deleteRowFromSpreadsheet(sheets, spreadsheetId, sheetName)`: clears the
      whole data range and swallows a failure; nothing is returned. */
  method DeleteRowFromSpreadsheet(b: Backend, sheetName: string, ok: bool)
    modifies b
    ensures b.State() == ClearValues(old(b.State()), ClearRangeOf(sheetName), ok)
  {
    var _ := b.ClearRange(ClearRangeOf(sheetName), ok);
  }

  /** `insertIntoDatabase(data, sheets, spreadsheetId)`. */
  method InsertIntoDatabase(b: Backend, data: seq<Row>, o: Oracle)
    modifies b
    ensures b.State() == RunBatch(old(b.State()), data, o)
  {
    b.StartTransaction();
    for i := 0 to |data|
      invariant RunBatch(old(b.State()), data, o) == ProcessRows(b.State(), data, i, o)
    {
      var row := data[i];
      if ShouldSkip(row) {
        continue;
      }

      var letterUrl := CellAt(row, LetterColumn);
      var letter := SqlNull;
      if Truthy(letterUrl) {
        var body := b.DownloadFile(i, letterUrl, o);
        if body.None? {
          b.RollbackTransaction();
          return;
        }
        letter := Blob(body.value);
      }

      var fileUrl := CellAt(row, DownloadColumn);
      var file := SqlNull;
      if Truthy(fileUrl) {
        var body := b.DownloadFile(i, fileUrl, o);
        if body.None? {
          b.RollbackTransaction();
          return;
        }
        file := Blob(body.value);
      }

      var inserted := b.InsertRecord(i, BuildRecord(row, file, letter), o);
      if !inserted {
        b.RollbackTransaction();
        return;
      }

      DeleteRowFromSpreadsheet(b, SheetName, o.ClearOk(i));
    }
    b.CommitTransaction();
  }

  /** One iteration of `processResponsesAtIntervals`; `reachable` says
      whether the sheet can be read this time. */
  method ProcessResponsesOnce(b: Backend, reachable: bool, o: Oracle)
    modifies b
    ensures b.State() == PollCycle(old(b.State()), reachable, o)
  {
    var newResponses := FetchNewResponses(b.sheet, reachable);
    if newResponses.Success? && |newResponses.value| > 0 {
      InsertIntoDatabase(b, newResponses.value, o);
    }
    b.Sleep(IntervalMs);
  }
}
