/** The outside world of the ingestion step: the MySQL connection (committed
    table, open transaction), the Google sheet, and a trace of every call the
    step makes. The outcomes of calls that can fail are given by an oracle. */
module External {
  import opened Wrappers
  import opened JsValues
  import opened Records

  /** A range in A1 notation, `sheet!<firstColumn><firstRow>:<lastColumn>`,
      reaching down to the sheet's last row. Columns are single letters. */
  datatype SheetRange = SheetRange(sheet: string, firstColumn: char, firstRow: nat, lastColumn: char)
  {
    /** The number of columns the range spans. */
    function Width(): int {
      lastColumn as int - firstColumn as int + 1
    }

    /** Every cell of `other` lies inside this range. */
    predicate Covers(other: SheetRange) {
      sheet == other.sheet && firstRow <= other.firstRow &&
      firstColumn <= other.firstColumn && other.lastColumn <= lastColumn
    }

    /** The range as the API is given it, for ranges that start in rows 1 to 9. */
    function Notation(): string
      requires 1 <= firstRow <= 9
    {
      sheet + "!" + [firstColumn] + [('0' as int + firstRow) as char] + ":" + [lastColumn]
    }
  }

  /** The sheet the form writes its responses to. */
  const SheetName: string := "Hoja1"

  /** The range `fetchNewResponses` reads: columns B to P below the header.
      `World.sheet` holds the rows of this range. */
  const ReadRange: SheetRange := SheetRange(SheetName, 'B', 2, 'P')

  /** One call made by the ingestion step, in the order it was made. `row` is
      the position, in the batch, of the row the call was made for. */
  datatype Op =
    | StartTransaction
    | Download(row: nat, url: Cell)
    | Insert(row: nat, rec: Record)
    | Clear(range: SheetRange)
    | Commit
    | Rollback
    | Sleep(ms: nat)

  /** The abstract state: committed rows of `practica`, rows inserted by the
      open transaction, whether one is open, the rows still in the sheet,
      whether a clear of the sheet has succeeded, and the call trace. */
  datatype World = World(
    table: seq<Record>,
    pending: seq<Record>,
    inTransaction: bool,
    sheet: seq<Row>,
    cleared: bool,
    trace: seq<Op>)

  /** No transaction is open and none has uncommitted rows. */
  predicate Idle(w: World) {
    !w.inTransaction && w.pending == []
  }

  /** The body `downloads` serves at `url`, or `None` when fetching it throws. */
  function Body(downloads: map<Cell, Bytes>, url: Cell): Option<Bytes> {
    if url in downloads then Some(downloads[url]) else None
  }

  /** How the calls that can fail turn out: the body served at each URL
      (a download of any other URL throws), and the batch positions of the
      rows whose INSERT, or whose clear of the sheet, throws. */
  datatype Oracle = Oracle(
    downloads: map<Cell, Bytes>,
    failedInserts: set<nat>,
    failedClears: set<nat>)
  {
    /** `downloadFile(url)`: the body, or `None` when the request throws. */
    function Download(url: Cell): Option<Bytes> {
      Body(downloads, url)
    }

    predicate InsertOk(i: nat) {
      i !in failedInserts
    }

    predicate ClearOk(i: nat) {
      i !in failedClears
    }
  }

  /** `START TRANSACTION`; as in MySQL, a transaction still open is
      committed first. */
  function StartTx(w: World): World {
    w.(table := w.table + w.pending, pending := [], inTransaction := true,
       trace := w.trace + [StartTransaction])
  }

  /** A download of `url` for the row at batch position `i`. */
  function DownloadCall(w: World, i: nat, url: Cell): World {
    w.(trace := w.trace + [Download(i, url)])
  }

  /** The INSERT of `rec` for row `i`: a successful one joins the open
      transaction, or the table itself outside a transaction (autocommit). */
  function InsertTx(w: World, i: nat, rec: Record, ok: bool): World {
    var w' := w.(trace := w.trace + [Insert(i, rec)]);
    if !ok then w'
    else if w.inTransaction then w'.(pending := w.pending + [rec])
    else w'.(table := w.table + [rec])
  }

  /** `COMMIT`: the transaction's rows become part of the table. */
  function CommitTx(w: World): World {
    w.(table := w.table + w.pending, pending := [], inTransaction := false,
       trace := w.trace + [Commit])
  }

  /** `ROLLBACK`: the transaction's rows are discarded. */
  function RollbackTx(w: World): World {
    w.(pending := [], inTransaction := false, trace := w.trace + [Rollback])
  }

  /** `spreadsheets.values.clear` over `range`. A successful clear of a range
      covering `ReadRange` empties the sheet; a clear of another sheet leaves
      it as it was. */
  function ClearValues(w: World, range: SheetRange, ok: bool): World {
    var w' := w.(trace := w.trace + [Clear(range)]);
    if ok && range.Covers(ReadRange) then w'.(sheet := [], cleared := true) else w'
  }

  /** The form appends `rows` to the sheet below the responses already there. */
  function FormSubmits(w: World, rows: seq<Row>): World {
    w.(sheet := w.sheet + rows)
  }

  /** Waiting `ms` milliseconds. */
  function SleepFor(w: World, ms: nat): World {
    w.(trace := w.trace + [Sleep(ms)])
  }

  /** The MySQL connection, the spreadsheet API and the HTTP client as one
      object whose fields the ingestion step changes call by call. */
  class Backend {
    var table: seq<Record>
    var pending: seq<Record>
    var inTransaction: bool
    var sheet: seq<Row>
    var cleared: bool
    var trace: seq<Op>

    function State(): World
      reads this
    {
      World(table, pending, inTransaction, sheet, cleared, trace)
    }

    /** A fresh connection to a `practica` table holding `stored`, with no
        transaction open, and a sheet holding `rows`. */
    constructor (stored: seq<Record>, rows: seq<Row>)
      ensures State() == World(stored, [], false, rows, false, [])
      ensures Idle(State())
    {
      table, pending, inTransaction := stored, [], false;
      sheet, cleared, trace := rows, false, [];
    }

    method StartTransaction()
      modifies this
      ensures State() == StartTx(old(State()))
      ensures inTransaction && pending == [] && table == old(table + pending)
    {
      table, pending, inTransaction := table + pending, [], true;
      trace := trace + [Op.StartTransaction];
    }

    /** `downloadFile(url)`: the body, or `None` when the request throws. */
    method DownloadFile(i: nat, url: Cell, o: Oracle) returns (body: Option<Bytes>)
      modifies this
      ensures body == o.Download(url)
      ensures State() == DownloadCall(old(State()), i, url)
    {
      body := o.Download(url);
      trace := trace + [Download(i, url)];
    }

    /** The parameterised INSERT into `practica`; `ok` is false when it throws. */
    method InsertRecord(i: nat, rec: Record, o: Oracle) returns (ok: bool)
      modifies this
      ensures ok == o.InsertOk(i)
      ensures State() == InsertTx(old(State()), i, rec, ok)
      ensures ok && old(inTransaction) ==> pending == old(pending) + [rec] && table == old(table)
      ensures !ok ==> pending == old(pending) && table == old(table)
    {
      ok := o.InsertOk(i);
      trace := trace + [Insert(i, rec)];
      if ok {
        if inTransaction {
          pending := pending + [rec];
        } else {
          table := table + [rec];
        }
      }
    }

    method CommitTransaction()
      modifies this
      ensures State() == CommitTx(old(State()))
      ensures Idle(State()) && table == old(table + pending)
    {
      table, pending, inTransaction := table + pending, [], false;
      trace := trace + [Op.Commit];
    }

    method RollbackTransaction()
      modifies this
      ensures State() == RollbackTx(old(State()))
      ensures Idle(State()) && table == old(table)
    {
      pending, inTransaction := [], false;
      trace := trace + [Op.Rollback];
    }

    /** `spreadsheets.values.clear`; `ok` is false when it throws. */
    method ClearRange(range: SheetRange, ok: bool) returns (cleared': bool)
      modifies this
      ensures cleared' == ok
      ensures State() == ClearValues(old(State()), range, ok)
      ensures table == old(table) && pending == old(pending) && inTransaction == old(inTransaction)
    {
      trace := trace + [Clear(range)];
      if ok && range.Covers(ReadRange) {
        sheet, cleared := [], true;
      }
      cleared' := ok;
    }

    method Sleep(ms: nat)
      modifies this
      ensures State() == SleepFor(old(State()), ms)
    {
      trace := trace + [Op.Sleep(ms)];
    }
  }
}
