/** What one batch and one poll cycle of the ingestion step do to the
    table, the transaction, the sheet and the call trace. Batch positions
    `i <= k < j` index the batch `data` as `insertIntoDatabase` receives it. */
module IngestionProperties {
  import opened Wrappers
  import opened JsValues
  import opened Records
  import opened External
  import opened Ingestion

  // ---------------------------------------------------------------------
  // Reference definitions, independent of `World`

  /** No row from batch position `i` on aborts the batch. */
  predicate SucceedsFrom(data: seq<Row>, i: nat, o: Oracle) {
    forall k {:trigger RowSucceeds(data[k], k, o)} :: i <= k < |data| ==> RowSucceeds(data[k], k, o)
  }

  /** Every row at positions `i` to `j - 1` that is not skipped has both
      attachments resolved. */
  predicate AllResolve(data: seq<Row>, i: nat, j: nat, downloads: map<Cell, Bytes>) {
    forall k {:trigger Resolves(data[k], downloads)} ::
      i <= k < j <= |data| && !ShouldSkip(data[k]) ==> Resolves(data[k], downloads)
  }

  /** The number of rows at positions `i` to `j - 1` that are not skipped. */
  function ProcessedCount(data: seq<Row>, i: nat, j: nat): (n: nat)
    requires i <= j <= |data|
    ensures n <= j - i
    decreases j - i
  {
    if i == j then 0
    else (if ShouldSkip(data[i]) then 0 else 1) + ProcessedCount(data, i + 1, j)
  }

  /** The records of the rows at positions `i` to `j - 1` that are not
      skipped, in the rows' order: one per such row. */
  function ValidRecords(data: seq<Row>, i: nat, j: nat, downloads: map<Cell, Bytes>): (r: seq<Record>)
    requires i <= j <= |data| && AllResolve(data, i, j, downloads)
    ensures |r| == ProcessedCount(data, i, j)
    decreases j - i
  {
    if i == j then []
    else (if ShouldSkip(data[i]) then [] else [RecordOf(data[i], downloads)]) +
         ValidRecords(data, i + 1, j, downloads)
  }

  /** The call is one a row makes: a download, an INSERT or a clear. */
  predicate IsRowOp(op: Op) {
    op.Download? || op.Insert? || op.Clear?
  }

  /** The calls a processed row makes when it does not abort: its
      downloads, its INSERT and one clear of A2:P. */
  function ProcessedRowTrace(row: Row, i: nat, downloads: map<Cell, Bytes>): (t: seq<Op>)
    requires Resolves(row, downloads)
    ensures forall k :: 0 <= k < |t| ==> IsRowOp(t[k])
  {
    DownloadOps(row, i) + [Insert(i, RecordOf(row, downloads)), Clear(ClearRangeOf(SheetName))]
  }

  /** The calls the rows at positions `i` to `j - 1` make when none aborts. */
  function RowsTrace(data: seq<Row>, i: nat, j: nat, downloads: map<Cell, Bytes>): (t: seq<Op>)
    requires i <= j <= |data| && AllResolve(data, i, j, downloads)
    ensures forall k :: 0 <= k < |t| ==> IsRowOp(t[k])
    decreases j - i
  {
    if i == j then []
    else
      var head := if ShouldSkip(data[i]) then [] else ProcessedRowTrace(data[i], i, downloads);
      var tail := RowsTrace(data, i + 1, j, downloads);
      assert forall k :: 0 <= k < |head| ==> IsRowOp(head[k]);
      head + tail
  }

  /** Some processed row at positions `i` to `j - 1` had its clear succeed. */
  predicate ClearedIn(data: seq<Row>, i: nat, j: nat, o: Oracle) {
    exists k :: i <= k < j <= |data| && !ShouldSkip(data[k]) && o.ClearOk(k)
  }

  /** The position of the first row from `i` on that aborts the batch. */
  function FirstFailure(data: seq<Row>, i: nat, o: Oracle): (f: nat)
    requires i <= |data| && !SucceedsFrom(data, i, o)
    ensures i <= f < |data| && !RowSucceeds(data[f], f, o)
    ensures forall k {:trigger RowSucceeds(data[k], k, o)} :: i <= k < f ==> RowSucceeds(data[k], k, o)
    decreases |data| - i
  {
    if !RowSucceeds(data[i], i, o) then i else FirstFailure(data, i + 1, o)
  }

  // ---------------------------------------------------------------------
  // One row

  /** A skipped row makes no call and changes nothing, and the loop goes on. */
  lemma SkippedRowChangesNothing(w: World, row: Row, i: nat, o: Oracle)
    requires ShouldSkip(row)
    ensures ProcessRow(w, row, i, o) == (w, true)
  {
  }

  /** A processed row that gets through downloads its truthy attachment
      cells (cell 13, then cell 5), adds its record to the transaction,
      then clears the sheet; only a successful clear empties the sheet. */
  lemma ProcessedRow(w: World, row: Row, i: nat, o: Oracle)
    requires w.inTransaction && Inserts(row, i, o)
    ensures ProcessValidRow(w, row, i, o).1
    ensures ProcessValidRow(w, row, i, o).0 == w.(
      pending := w.pending + [RecordOf(row, o.downloads)],
      sheet := if o.ClearOk(i) then [] else w.sheet,
      cleared := w.cleared || o.ClearOk(i),
      trace := w.trace + ProcessedRowTrace(row, i, o.downloads))
  {
    var w2 := AfterDownload(AfterDownload(w, i, CellAt(row, LetterColumn)), i, CellAt(row, DownloadColumn));
    assert w2 == w.(trace := w.trace + DownloadOps(row, i));
  }

  /** The calls a processed row that does not get through makes: the
      downloads up to the one that throws, or both downloads and the
      INSERT that throws. All of them are made for the row. */
  function FailedRowTrace(row: Row, i: nat, o: Oracle): (t: seq<Op>)
    requires !Inserts(row, i, o)
    ensures 0 < |t| && forall k :: 0 <= k < |t| ==> MadeFor(t[k], i)
  {
    var letterUrl := CellAt(row, LetterColumn);
    var fileUrl := CellAt(row, DownloadColumn);
    if Resolve(letterUrl, o.downloads).None? then [Download(i, letterUrl)]
    else if Resolve(fileUrl, o.downloads).None? then DownloadOps(row, i)
    else DownloadOps(row, i) + [Insert(i, RecordOf(row, o.downloads))]
  }

  /** A processed row that does not get through stops the loop having
      touched neither the transaction nor the sheet. */
  lemma FailedRow(w: World, row: Row, i: nat, o: Oracle)
    requires !Inserts(row, i, o)
    ensures ProcessValidRow(w, row, i, o) == (w.(trace := w.trace + FailedRowTrace(row, i, o)), false)
  {
    var letterUrl, fileUrl := CellAt(row, LetterColumn), CellAt(row, DownloadColumn);
    var w1 := AfterDownload(w, i, letterUrl);
    var w2 := AfterDownload(w1, i, fileUrl);
    if Resolve(letterUrl, o.downloads).Some? {
      assert w2 == w.(trace := w.trace + DownloadOps(row, i));
      if Resolve(fileUrl, o.downloads).Some? {
        var rec := RecordOf(row, o.downloads);
        assert InsertThenClear(w2, i, rec, o) == w2.(trace := w2.trace + [Insert(i, rec)]);
        assert w2.trace + [Insert(i, rec)] == w.trace + (DownloadOps(row, i) + [Insert(i, rec)]);
      }
    }
  }

  /** The state after a row that does not abort: unchanged for a skipped
      row; otherwise its record joins the transaction, its calls join the
      trace and a successful clear empties the sheet. */
  function Advance(w: World, row: Row, i: nat, o: Oracle): World
    requires RowSucceeds(row, i, o)
  {
    if ShouldSkip(row) then w
    else w.(
      pending := w.pending + [RecordOf(row, o.downloads)],
      sheet := if o.ClearOk(i) then [] else w.sheet,
      cleared := w.cleared || o.ClearOk(i),
      trace := w.trace + ProcessedRowTrace(row, i, o.downloads))
  }

  /** The loop goes past a row that does not abort, in the state `Advance` gives. */
  lemma ContinueStep(w: World, data: seq<Row>, i: nat, o: Oracle)
    requires i < |data| && w.inTransaction && RowSucceeds(data[i], i, o)
    ensures ProcessRows(w, data, i, o) == ProcessRows(Advance(w, data[i], i, o), data, i + 1, o)
  {
    if !ShouldSkip(data[i]) {
      ProcessedRow(w, data[i], i, o);
    }
  }

  /** The loop stops at a row that aborts, with its calls and a ROLLBACK. */
  lemma StopStep(w: World, data: seq<Row>, i: nat, o: Oracle)
    requires i < |data| && !RowSucceeds(data[i], i, o)
    ensures ProcessRows(w, data, i, o) == RollbackTx(w.(trace := w.trace + FailedRowTrace(data[i], i, o)))
  {
    FailedRow(w, data[i], i, o);
  }
}
