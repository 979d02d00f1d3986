/** What a batch and a poll cycle leave behind: all-or-nothing storage,
    the shape of the call trace, the effect of failing clears, and the
    consequences of clearing the sheet from inside the transaction. */
module BatchOutcomes {
  import opened Wrappers
  import opened JsValues
  import opened Records
  import opened External
  import opened Ingestion
  import opened IngestionProperties
  import opened BatchProperties

  /** A batch stores the records of all its processed rows, or none: the
      table grows by exactly `ValidRecords` when no row aborts and is left
      as it was otherwise, and no transaction stays open either way. */
  lemma AllOrNothing(w: World, data: seq<Row>, o: Oracle)
    requires Idle(w)
    ensures Idle(RunBatch(w, data, o))
    ensures SucceedsFrom(data, 0, o) ==>
      AllResolve(data, 0, |data|, o.downloads) &&
      RunBatch(w, data, o).table == w.table + ValidRecords(data, 0, |data|, o.downloads)
    ensures !SucceedsFrom(data, 0, o) ==> RunBatch(w, data, o).table == w.table
  {
    if SucceedsFrom(data, 0, o) {
      BatchCommits(w, data, o);
    } else {
      BatchRollsBack(w, data, o);
    }
  }

  /** Every call a failing row makes is a row call. */
  lemma FailedRowOps(row: Row, i: nat, o: Oracle)
    requires !Inserts(row, i, o)
    ensures forall k :: 0 <= k < |FailedRowTrace(row, i, o)| ==> IsRowOp(FailedRowTrace(row, i, o)[k])
  {
    var t := FailedRowTrace(row, i, o);
    forall k | 0 <= k < |t| ensures IsRowOp(t[k]) {
      assert MadeFor(t[k], i);
    }
  }

  /** `t` is `prefix`, then START TRANSACTION, then only downloads,
      INSERTs and clears, then `last`. */
  predicate FramedBy(t: seq<Op>, prefix: seq<Op>, last: Op) {
    var n := |prefix|;
    n + 2 <= |t| && t[..n] == prefix && t[n] == StartTransaction &&
    (forall k :: n < k < |t| - 1 ==> IsRowOp(t[k])) && t[|t| - 1] == last
  }

  lemma Framed(prefix: seq<Op>, middle: seq<Op>, last: Op)
    requires forall k :: 0 <= k < |middle| ==> IsRowOp(middle[k])
    ensures FramedBy(prefix + [StartTransaction] + middle + [last], prefix, last)
  {
    var t := prefix + [StartTransaction] + middle + [last];
    var n := |prefix|;
    assert t[..n] == prefix;
    forall k | n < k < |t| - 1 ensures IsRowOp(t[k]) {
      assert t[k] == middle[k - n - 1];
    }
  }

  lemma CommitFramed(w: World, data: seq<Row>, o: Oracle)
    requires Idle(w) && SucceedsFrom(data, 0, o)
    ensures FramedBy(RunBatch(w, data, o).trace, w.trace, Commit)
  {
    BatchCommits(w, data, o);
    Framed(w.trace, RowsTrace(data, 0, |data|, o.downloads), Commit);
  }

  lemma FramedTwo(prefix: seq<Op>, rows: seq<Op>, failed: seq<Op>, last: Op)
    requires forall k :: 0 <= k < |rows| ==> IsRowOp(rows[k])
    requires forall k :: 0 <= k < |failed| ==> IsRowOp(failed[k])
    ensures FramedBy(prefix + [StartTransaction] + rows + failed + [last], prefix, last)
  {
    var middle := rows + failed;
    forall k | 0 <= k < |middle| ensures IsRowOp(middle[k]) {
      if k < |rows| {
        assert middle[k] == rows[k];
      } else {
        assert middle[k] == failed[k - |rows|];
      }
    }
    Framed(prefix, middle, last);
    assert prefix + [StartTransaction] + rows + failed + [last] ==
           prefix + [StartTransaction] + middle + [last];
  }

  lemma RollbackFramed(w: World, data: seq<Row>, o: Oracle)
    requires Idle(w) && !SucceedsFrom(data, 0, o)
    ensures FramedBy(RunBatch(w, data, o).trace, w.trace, Rollback)
  {
    BatchRollsBack(w, data, o);
    var f := FirstFailure(data, 0, o);
    FailedRowOps(data[f], f, o);
    FramedTwo(w.trace, RowsTrace(data, 0, f, o.downloads), FailedRowTrace(data[f], f, o), Rollback);
  }

  /** The calls of a batch: one START TRANSACTION first, then only
      downloads, INSERTs and clears, and last a COMMIT when no row aborts
      or a ROLLBACK when one does; so there is exactly one START and at
      most one COMMIT, and the START precedes every INSERT. */
  lemma BatchTraceShape(w: World, data: seq<Row>, o: Oracle)
    requires Idle(w)
    ensures FramedBy(RunBatch(w, data, o).trace, w.trace,
                     if SucceedsFrom(data, 0, o) then Commit else Rollback)
  {
    if SucceedsFrom(data, 0, o) {
      CommitFramed(w, data, o);
    } else {
      RollbackFramed(w, data, o);
    }
  }

  /** Failing clears never abort a batch: two runs that differ only in which
      clears fail store the same records and make the same calls. */
  lemma ClearFailuresNeverAbort(w: World, data: seq<Row>, o: Oracle, o': Oracle)
    requires Idle(w)
    requires o'.downloads == o.downloads && o'.failedInserts == o.failedInserts
    ensures RunBatch(w, data, o').table == RunBatch(w, data, o).table
    ensures RunBatch(w, data, o').trace == RunBatch(w, data, o).trace
  {
    assert forall k :: 0 <= k < |data| ==> (RowSucceeds(data[k], k, o) <==> RowSucceeds(data[k], k, o'));
    if SucceedsFrom(data, 0, o) {
      assert SucceedsFrom(data, 0, o');
      BatchCommits(w, data, o);
      BatchCommits(w, data, o');
    } else {
      assert !SucceedsFrom(data, 0, o');
      BatchRollsBack(w, data, o);
      BatchRollsBack(w, data, o');
      var f, f' := FirstFailure(data, 0, o), FirstFailure(data, 0, o');
      assert !RowSucceeds(data[f], f, o');
      assert !RowSucceeds(data[f'], f', o);
      assert f == f';
      assert FailedRowTrace(data[f], f, o) == FailedRowTrace(data[f'], f', o');
    }
  }

  /** Skipped rows contribute no record, no call and no clear. */
  lemma {:induction false} SkippedRowsContributeNothing(data: seq<Row>, i: nat, j: nat, o: Oracle)
    requires i <= j <= |data|
    requires forall k :: i <= k < j ==> ShouldSkip(data[k])
    ensures AllResolve(data, i, j, o.downloads)
    ensures ValidRecords(data, i, j, o.downloads) == []
    ensures RowsTrace(data, i, j, o.downloads) == []
    ensures !ClearedIn(data, i, j, o)
    decreases j - i
  {
    if i < j {
      SkippedRowsContributeNothing(data, i + 1, j, o);
      ClearedInStep(data, i, j, o);
    }
  }

  /** A batch whose every row is skipped still opens and commits a
      transaction, and does nothing else. */
  lemma AllRowsSkipped(w: World, data: seq<Row>, o: Oracle)
    requires Idle(w)
    requires forall k :: 0 <= k < |data| ==> ShouldSkip(data[k])
    ensures RunBatch(w, data, o) == w.(trace := w.trace + [StartTransaction, Commit])
  {
    assert SucceedsFrom(data, 0, o) by {
      forall k | 0 <= k < |data| ensures RowSucceeds(data[k], k, o) {
        assert ShouldSkip(data[k]);
      }
    }
    SkippedRowsContributeNothing(data, 0, |data|, o);
    BatchCommits(w, data, o);
  }

  /** The clears run inside the transaction: when a row aborts after an
      earlier row's clear succeeded, the sheet is empty although nothing
      was stored, so the responses read for this batch are in neither. */
  lemma ClearedSheetButRolledBack(w: World, data: seq<Row>, o: Oracle)
    requires Idle(w) && !SucceedsFrom(data, 0, o)
    requires ClearedIn(data, 0, FirstFailure(data, 0, o), o)
    ensures RunBatch(w, data, o).table == w.table
    ensures RunBatch(w, data, o).sheet == []
    ensures Idle(RunBatch(w, data, o))
  {
    BatchRollsBack(w, data, o);
  }

  /** A committed batch stores one record per processed row: the table
      grows by exactly the number of rows that are not skipped. */
  lemma OneRecordPerProcessedRow(w: World, data: seq<Row>, o: Oracle)
    requires Idle(w) && SucceedsFrom(data, 0, o)
    ensures |RunBatch(w, data, o).table| == |w.table| + ProcessedCount(data, 0, |data|)
  {
    BatchCommits(w, data, o);
  }

  /** Responses the form adds after the batch was read are not part of it,
      yet the whole-range clear removes them from the sheet: when a clear of
      the batch succeeds, they end up neither in the sheet nor in the table,
      even though the batch commits. */
  lemma LateResponsesCleared(w: World, data: seq<Row>, late: seq<Row>, o: Oracle)
    requires Idle(w) && SucceedsFrom(data, 0, o) && ClearedIn(data, 0, |data|, o)
    ensures AllResolve(data, 0, |data|, o.downloads)
    ensures var r := RunBatch(FormSubmits(w, late), data, o);
      r.sheet == [] && r.table == w.table + ValidRecords(data, 0, |data|, o.downloads)
  {
    BatchCommits(FormSubmits(w, late), data, o);
  }

  // ---------------------------------------------------------------------
  // Poll cycles

  /** A cycle always ends with the pause, and a cycle that starts with no
      transaction open ends with none open. */
  lemma PollCycleSleeps(w: World, reachable: bool, o: Oracle)
    ensures var w' := PollCycle(w, reachable, o);
      |w'.trace| > 0 && w'.trace[|w'.trace| - 1] == Sleep(IntervalMs) &&
      (Idle(w) ==> Idle(w'))
  {
    if reachable && w.sheet != [] && Idle(w) {
      AllOrNothing(w, w.sheet, o);
    }
  }

  /** A cycle whose read fails, or whose read finds no responses (the API
      omits `values` and the cycle takes `[]`), opens no transaction and
      only pauses. */
  lemma NothingToProcess(w: World, reachable: bool, o: Oracle)
    requires !reachable || w.sheet == []
    ensures PollCycle(w, reachable, o) == w.(trace := w.trace + [Sleep(IntervalMs)])
  {
  }

  /** A cycle whose batch commits while every clear fails leaves the
      responses on the sheet: they are read again by the next cycle. */
  lemma CommittedButNotCleared(w: World, o: Oracle)
    requires Idle(w) && w.sheet != []
    requires SucceedsFrom(w.sheet, 0, o) && !ClearedIn(w.sheet, 0, |w.sheet|, o)
    ensures var w' := PollCycle(w, true, o);
      Idle(w') && w'.sheet == w.sheet &&
      AllResolve(w.sheet, 0, |w.sheet|, o.downloads) &&
      w'.table == w.table + ValidRecords(w.sheet, 0, |w.sheet|, o.downloads)
  {
    BatchCommits(w, w.sheet, o);
  }

  /** Two such cycles in a row store the same records twice. */
  lemma UnclearedResponsesStoredTwice(w: World, o: Oracle)
    requires Idle(w) && w.sheet != []
    requires SucceedsFrom(w.sheet, 0, o) && !ClearedIn(w.sheet, 0, |w.sheet|, o)
    ensures AllResolve(w.sheet, 0, |w.sheet|, o.downloads)
    ensures var records := ValidRecords(w.sheet, 0, |w.sheet|, o.downloads);
      PollCycle(PollCycle(w, true, o), true, o).table == w.table + records + records
  {
    CommittedButNotCleared(w, o);
    CommittedButNotCleared(PollCycle(w, true, o), o);
  }

  /** Retrying after a rolled-back batch whose rows' clears all failed:
      the rollback leaves table and sheet as they were, so the next cycle
      reads the same rows, and once it commits the table is what a single
      successful cycle would have produced. */
  lemma RetryAfterRollback(w: World, o1: Oracle, o2: Oracle)
    requires Idle(w) && w.sheet != []
    requires !SucceedsFrom(w.sheet, 0, o1)
    requires !ClearedIn(w.sheet, 0, FirstFailure(w.sheet, 0, o1), o1)
    requires SucceedsFrom(w.sheet, 0, o2)
    ensures var w1 := PollCycle(w, true, o1);
      Idle(w1) && w1.table == w.table && w1.sheet == w.sheet &&
      PollCycle(w1, true, o2).table == PollCycle(w, true, o2).table
  {
    BatchRollsBack(w, w.sheet, o1);
    var w1 := PollCycle(w, true, o1);
    BatchCommits(w1, w.sheet, o2);
    BatchCommits(w, w.sheet, o2);
  }
}
