/** The batch as a whole: the state the loop ends in when no row aborts
    and when one does, proved by induction over the batch. */
module BatchProperties {
  import opened Wrappers
  import opened JsValues
  import opened Records
  import opened External
  import opened Ingestion
  import opened IngestionProperties

  /** Rows that do not abort have their attachments resolved. */
  lemma SucceedingRowsResolve(data: seq<Row>, i: nat, j: nat, o: Oracle)
    requires i <= j <= |data|
    requires forall k {:trigger RowSucceeds(data[k], k, o)} :: i <= k < j ==> RowSucceeds(data[k], k, o)
    ensures AllResolve(data, i, j, o.downloads)
  {
    forall k | i <= k < j && !ShouldSkip(data[k]) ensures Resolves(data[k], o.downloads) {
      assert RowSucceeds(data[k], k, o);
    }
  }

  /** Whether some clear succeeded over positions `i` to `j - 1`, split at `i`. */
  lemma ClearedInStep(data: seq<Row>, i: nat, j: nat, o: Oracle)
    requires i < j <= |data|
    ensures ClearedIn(data, i, j, o) <==>
      (!ShouldSkip(data[i]) && o.ClearOk(i)) || ClearedIn(data, i + 1, j, o)
  {
    if ClearedIn(data, i, j, o) {
      var k :| i <= k < j <= |data| && !ShouldSkip(data[k]) && o.ClearOk(k);
      if k != i {
        assert ClearedIn(data, i + 1, j, o);
      }
    }
  }

  /** Regrouping a concatenation. Dafny knows this; naming the instance
      needed keeps the step lemmas below from searching for it. */
  lemma AppendAssoc<T>(a: seq<T>, b: seq<T>, c: seq<T>)
    ensures (a + b) + c == a + (b + c)
  {
  }

  /** The state the loop ends in from position `i` on when no row aborts:
      the records of the processed rows committed after whatever the
      transaction held, the calls of `RowsTrace` and a COMMIT, and the
      sheet cleared if any of the clears succeeded. */
  function Committed(w: World, data: seq<Row>, i: nat, o: Oracle): World
    requires i <= |data| && AllResolve(data, i, |data|, o.downloads)
  {
    w.(table := w.table + w.pending + ValidRecords(data, i, |data|, o.downloads),
       pending := [],
       inTransaction := false,
       sheet := if ClearedIn(data, i, |data|, o) then [] else w.sheet,
       cleared := w.cleared || ClearedIn(data, i, |data|, o),
       trace := w.trace + RowsTrace(data, i, |data|, o.downloads) + [Commit])
  }

  /** The state the loop ends in from position `i` on when the row at `f`
      is the first to abort: the transaction discarded, the calls of the
      rows before `f`, those of row `f` and a ROLLBACK, and the sheet
      cleared if a clear before `f` succeeded. */
  function RolledBack(w: World, data: seq<Row>, i: nat, f: nat, o: Oracle): World
    requires i <= f < |data| && AllResolve(data, i, f, o.downloads) && !Inserts(data[f], f, o)
  {
    w.(pending := [],
       inTransaction := false,
       sheet := if ClearedIn(data, i, f, o) then [] else w.sheet,
       cleared := w.cleared || ClearedIn(data, i, f, o),
       trace := w.trace + RowsTrace(data, i, f, o.downloads) + FailedRowTrace(data[f], f, o) + [Rollback])
  }

  /** The processed row's record and calls come first in what committing
      from its position adds. */
  lemma ProcessedRowCommits(w: World, data: seq<Row>, i: nat, o: Oracle)
    requires i < |data| && AllResolve(data, i, |data|, o.downloads)
    requires !ShouldSkip(data[i]) && Inserts(data[i], i, o)
    ensures var w1 := Advance(w, data[i], i, o);
      w1.table + w1.pending + ValidRecords(data, i + 1, |data|, o.downloads) ==
        w.table + w.pending + ValidRecords(data, i, |data|, o.downloads) &&
      w1.trace + RowsTrace(data, i + 1, |data|, o.downloads) ==
        w.trace + RowsTrace(data, i, |data|, o.downloads)
  {
    var dl := o.downloads;
    var n := |data|;
    var w1 := Advance(w, data[i], i, o);
    var rec := RecordOf(data[i], dl);
    var t := ProcessedRowTrace(data[i], i, dl);
    assert w1.pending == w.pending + [rec];
    assert ValidRecords(data, i, n, dl) == [rec] + ValidRecords(data, i + 1, n, dl);
    AppendAssoc(w.table + w.pending, [rec], ValidRecords(data, i + 1, n, dl));
    assert w1.trace == w.trace + t;
    assert RowsTrace(data, i, n, dl) == t + RowsTrace(data, i + 1, n, dl);
    AppendAssoc(w.trace, t, RowsTrace(data, i + 1, n, dl));
  }

  /** Going past row `i` first and committing from `i + 1` ends where
      committing from `i` does. */
  lemma CommittedStep(w: World, data: seq<Row>, i: nat, o: Oracle)
    requires i < |data| && AllResolve(data, i, |data|, o.downloads) && RowSucceeds(data[i], i, o)
    ensures Committed(Advance(w, data[i], i, o), data, i + 1, o) == Committed(w, data, i, o)
  {
    var dl := o.downloads;
    var n := |data|;
    ClearedInStep(data, i, n, o);
    var w1 := Advance(w, data[i], i, o);
    if ShouldSkip(data[i]) {
      assert ValidRecords(data, i, n, dl) == ValidRecords(data, i + 1, n, dl);
      assert RowsTrace(data, i, n, dl) == RowsTrace(data, i + 1, n, dl);
    } else {
      ProcessedRowCommits(w, data, i, o);
    }
    assert w1.table + w1.pending + ValidRecords(data, i + 1, n, dl) ==
           w.table + w.pending + ValidRecords(data, i, n, dl);
    assert w1.trace + RowsTrace(data, i + 1, n, dl) == w.trace + RowsTrace(data, i, n, dl);
  }

  /** Going past row `i < f` first and rolling back from `i + 1` ends where
      rolling back from `i` does. */
  lemma RolledBackStep(w: World, data: seq<Row>, i: nat, f: nat, o: Oracle)
    requires i < f < |data| && AllResolve(data, i, f, o.downloads) && !Inserts(data[f], f, o)
    requires RowSucceeds(data[i], i, o)
    ensures RolledBack(Advance(w, data[i], i, o), data, i + 1, f, o) == RolledBack(w, data, i, f, o)
  {
    var dl := o.downloads;
    ClearedInStep(data, i, f, o);
    var w1 := Advance(w, data[i], i, o);
    var tail := FailedRowTrace(data[f], f, o) + [Rollback];
    if ShouldSkip(data[i]) {
      assert RowsTrace(data, i, f, dl) == RowsTrace(data, i + 1, f, dl);
    } else {
      var t := ProcessedRowTrace(data[i], i, dl);
      assert w1.trace == w.trace + t;
      assert RowsTrace(data, i, f, dl) == t + RowsTrace(data, i + 1, f, dl);
      AppendAssoc(w.trace, t, RowsTrace(data, i + 1, f, dl));
    }
    assert w1.trace + RowsTrace(data, i + 1, f, dl) == w.trace + RowsTrace(data, i, f, dl);
  }

  /** A row that aborts, reached in a transaction, rolls back at once. */
  lemma StopsHere(w: World, data: seq<Row>, i: nat, o: Oracle)
    requires i < |data| && !RowSucceeds(data[i], i, o)
    ensures ProcessRows(w, data, i, o) == RolledBack(w, data, i, i, o)
  {
    StopStep(w, data, i, o);
    assert RowsTrace(data, i, i, o.downloads) == [];
    assert !ClearedIn(data, i, i, o);
  }

  /** From position `i` on, when no row aborts, the loop ends in `Committed`. */
  lemma {:induction false} ProcessRowsCommits(w: World, data: seq<Row>, i: nat, o: Oracle)
    requires i <= |data| && w.inTransaction && SucceedsFrom(data, i, o)
    requires AllResolve(data, i, |data|, o.downloads)
    ensures ProcessRows(w, data, i, o) == Committed(w, data, i, o)
    decreases |data| - i, 1
  {
    if i < |data| {
      assert RowSucceeds(data[i], i, o);
      CommitsPastRow(w, data, i, o);
    }
  }

  /** The inductive step of `ProcessRowsCommits`: a row that does not
      abort, followed by a commit from the next position. */
  lemma {:induction false} CommitsPastRow(w: World, data: seq<Row>, i: nat, o: Oracle)
    requires i < |data| && w.inTransaction
    requires RowSucceeds(data[i], i, o) && SucceedsFrom(data, i + 1, o)
    requires AllResolve(data, i, |data|, o.downloads) && AllResolve(data, i + 1, |data|, o.downloads)
    ensures ProcessRows(w, data, i, o) == Committed(w, data, i, o)
    decreases |data| - i, 0
  {
    var w1 := Advance(w, data[i], i, o);
    ContinueStep(w, data, i, o);
    CommittedStep(w, data, i, o);
    ProcessRowsCommits(w1, data, i + 1, o);
  }

  /** From position `i` on, when the row at `f` aborts and none before it
      does, the loop ends in `RolledBack` at `f`. */
  lemma {:induction false} ProcessRowsRollsBackAt(w: World, data: seq<Row>, i: nat, f: nat, o: Oracle)
    requires i <= f < |data| && w.inTransaction && !RowSucceeds(data[f], f, o)
    requires forall k {:trigger RowSucceeds(data[k], k, o)} :: i <= k < f ==> RowSucceeds(data[k], k, o)
    requires AllResolve(data, i, f, o.downloads)
    ensures ProcessRows(w, data, i, o) == RolledBack(w, data, i, f, o)
    decreases f - i, 1
  {
    if f == i {
      StopsHere(w, data, i, o);
    } else {
      assert RowSucceeds(data[i], i, o);
      RollsBackPastRow(w, data, i, f, o);
    }
  }

  /** The inductive step of `ProcessRowsRollsBackAt`: a row before the
      failing one, followed by a rollback from the next position. */
  lemma {:induction false} RollsBackPastRow(w: World, data: seq<Row>, i: nat, f: nat, o: Oracle)
    requires i < f < |data| && w.inTransaction && !RowSucceeds(data[f], f, o)
    requires RowSucceeds(data[i], i, o)
    requires forall k {:trigger RowSucceeds(data[k], k, o)} :: i + 1 <= k < f ==> RowSucceeds(data[k], k, o)
    requires AllResolve(data, i, f, o.downloads) && AllResolve(data, i + 1, f, o.downloads)
    ensures ProcessRows(w, data, i, o) == RolledBack(w, data, i, f, o)
    decreases f - i, 0
  {
    var w1 := Advance(w, data[i], i, o);
    ProcessRowsRollsBackAt(w1, data, i + 1, f, o);
    ContinueStep(w, data, i, o);
    RolledBackStep(w, data, i, f, o);
  }

  /** From position `i` on, when some row aborts, the loop ends in
      `RolledBack` at the first row that aborts. */
  lemma ProcessRowsRollsBack(w: World, data: seq<Row>, i: nat, o: Oracle)
    requires i <= |data| && w.inTransaction && !SucceedsFrom(data, i, o)
    ensures AllResolve(data, i, FirstFailure(data, i, o), o.downloads)
    ensures ProcessRows(w, data, i, o) == RolledBack(w, data, i, FirstFailure(data, i, o), o)
  {
    var f := FirstFailure(data, i, o);
    SucceedingRowsResolve(data, i, f, o);
    ProcessRowsRollsBackAt(w, data, i, f, o);
  }

  /** A batch in which no row aborts: one START TRANSACTION, the calls of
      the rows in source order, one COMMIT; the table grows by the records
      of the processed rows, in source order. */
  lemma BatchCommits(w: World, data: seq<Row>, o: Oracle)
    requires Idle(w) && SucceedsFrom(data, 0, o)
    ensures AllResolve(data, 0, |data|, o.downloads)
    ensures RunBatch(w, data, o) == w.(
      table := w.table + ValidRecords(data, 0, |data|, o.downloads),
      sheet := if ClearedIn(data, 0, |data|, o) then [] else w.sheet,
      cleared := w.cleared || ClearedIn(data, 0, |data|, o),
      trace := w.trace + [StartTransaction] + RowsTrace(data, 0, |data|, o.downloads) + [Commit])
  {
    var w0 := StartTx(w);
    assert w0 == w.(inTransaction := true, trace := w.trace + [StartTransaction]);
    SucceedingRowsResolve(data, 0, |data|, o);
    ProcessRowsCommits(w0, data, 0, o);
    assert w0.table + w0.pending == w.table;
    assert w0.trace + RowsTrace(data, 0, |data|, o.downloads) ==
           w.trace + [StartTransaction] + RowsTrace(data, 0, |data|, o.downloads);
  }

  /** A batch in which some row aborts: one START TRANSACTION, the calls of
      the rows before the first failing one, the failing row's calls, one
      ROLLBACK and no COMMIT; no later row is touched and the table is
      left as it was. */
  lemma BatchRollsBack(w: World, data: seq<Row>, o: Oracle)
    requires Idle(w) && !SucceedsFrom(data, 0, o)
    ensures var f := FirstFailure(data, 0, o);
      AllResolve(data, 0, f, o.downloads) &&
      RunBatch(w, data, o) == w.(
        sheet := if ClearedIn(data, 0, f, o) then [] else w.sheet,
        cleared := w.cleared || ClearedIn(data, 0, f, o),
        trace := w.trace + [StartTransaction] + RowsTrace(data, 0, f, o.downloads) +
                 FailedRowTrace(data[f], f, o) + [Rollback])
  {
    ProcessRowsRollsBack(StartTx(w), data, 0, o);
  }
}
