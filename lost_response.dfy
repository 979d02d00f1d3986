/** A concrete run that loses a response: two responses, the first stored
    and cleared, the second's INSERT failing. */
module LostResponse {
  import opened JsValues
  import opened Records
  import opened External
  import opened Ingestion
  import opened IngestionProperties
  import opened BatchOutcomes

  const Response: Row := [Str("ana@example.org")]

  /** After the cycle the table is still empty and so is the sheet, and the
      following cycle finds nothing to do: the first response is lost. */
  lemma LostResponseExample()
    ensures var w := World([], [], false, [Response, Response], false, []);
      var o := Oracle(map[], {1}, {});
      var w1 := PollCycle(w, true, o);
      w1.table == [] && w1.sheet == [] && Idle(w1) &&
      PollCycle(w1, true, o) == w1.(trace := w1.trace + [Sleep(IntervalMs)])
  {
    var o := Oracle(map[], {1}, {});
    var data := [Response, Response];
    var w := World([], [], false, data, false, []);
    assert !IsBlank(Response[0].s) by {
      assert !IsWhitespace(Response[0].s[0]);
    }
    assert RowSucceeds(data[0], 0, o);
    assert !RowSucceeds(data[1], 1, o);
    assert !SucceedsFrom(data, 0, o);
    assert FirstFailure(data, 0, o) == 1;
    assert ClearedIn(data, 0, 1, o);
    ClearedSheetButRolledBack(w, data, o);
    NothingToProcess(PollCycle(w, true, o), true, o);
  }
}
