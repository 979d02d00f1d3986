/** Spreadsheet rows, the rule that skips rows without an e-mail address,
    and the 14-column record that is inserted into the `practica` table. */
module Records {
  import opened JsValues

  newtype byte = x: int | 0 <= x < 256

  /** The body of a downloaded attachment. */
  type Bytes = seq<byte>

  /** One row of the form's sheet, cell 0 being the e-mail address. */
  type Row = seq<Cell>

  /** One parameter of the parameterised INSERT statement: a cell passed
      through, the bytes of a downloaded attachment, or SQL NULL. The MySQL
      driver sends an `undefined` cell as NULL too; the model keeps
      `CellParam(Undefined)` apart from `SqlNull` so that the record still
      says which cell it came from. */
  datatype Param = CellParam(cell: Cell) | Blob(bytes: Bytes) | SqlNull

  /** The parameter list of one INSERT, column by column. */
  type Record = seq<Param>

  /** Number of columns the INSERT statement fills. */
  const Columns: nat := 14
  /** Cell holding the URL of the `descarga` file. */
  const DownloadColumn: nat := 5
  /** Cell holding the URL of the `carta_autorizacion` letter. */
  const LetterColumn: nat := 13

  /** The columns of table `practica` in the order the INSERT names them. */
  const ColumnNames: seq<string> := [
    "correo", "tipo_contenido", "titulo", "materia", "descripcion", "descarga",
    "privacidad", "audiencia", "nombre", "apellido_paterno", "apellido_materno",
    "nacionalidad", "institucion", "carta_autorizacion"
  ]

  /** `row[i]`: `undefined` past the end of the row. */
  function CellAt(row: Row, i: nat): Cell {
    if i < |row| then row[i] else Undefined
  }

  /** Every character of `s` is one that `trim` removes. */
  predicate IsBlank(s: string) {
    forall k :: 0 <= k < |s| ==> IsWhitespace(s[k])
  }

  /** The row is skipped when its first cell is falsy, not a string, or
      blank. */
  predicate ShouldSkip(row: Row) {
    var email := CellAt(row, 0);
    !Truthy(email) || !email.Str? || IsBlank(email.s)
  }

  /** `ShouldSkip` is the test the loop makes,
      `!row[0] || typeof row[0] !== 'string' || row[0].trim() === ''`. */
  lemma ShouldSkipIsSourceTest(row: Row)
    ensures ShouldSkip(row) <==>
      var email := CellAt(row, 0);
      !Truthy(email) || !email.Str? || Trim(email.s) == ""
  {
    var email := CellAt(row, 0);
    if email.Str? {
      TrimEmptyIffBlank(email.s);
    }
  }

  /** A row is processed exactly when its first cell is a string holding at
      least one non-whitespace character. */
  lemma SkipUnlessEmailHasText(row: Row)
    ensures !ShouldSkip(row) <==>
      |row| > 0 && row[0].Str? && exists k :: 0 <= k < |row[0].s| && !IsWhitespace(row[0].s[k])
  {
    if |row| > 0 && row[0].Str? && !IsBlank(row[0].s) {
      var k :| 0 <= k < |row[0].s| && !IsWhitespace(row[0].s[k]);
      assert row[0].s != "";
    }
  }

  /** The parameters of the INSERT for `row`, with `download` in the
      `descarga` column and `letter` in the `carta_autorizacion` column. */
  function BuildRecord(row: Row, download: Param, letter: Param): (r: Record)
    ensures |r| == Columns == |ColumnNames|
    ensures forall k :: 0 <= k < Columns && k != DownloadColumn && k != LetterColumn ==>
      r[k] == CellParam(CellAt(row, k))
    ensures r[DownloadColumn] == download && r[LetterColumn] == letter
    ensures ColumnNames[DownloadColumn] == "descarga" && ColumnNames[LetterColumn] == "carta_autorizacion"
  {
    [ CellParam(CellAt(row, 0)), CellParam(CellAt(row, 1)), CellParam(CellAt(row, 2)),
      CellParam(CellAt(row, 3)), CellParam(CellAt(row, 4)),
      download,
      CellParam(CellAt(row, 6)), CellParam(CellAt(row, 7)), CellParam(CellAt(row, 8)),
      CellParam(CellAt(row, 9)), CellParam(CellAt(row, 10)), CellParam(CellAt(row, 11)),
      CellParam(CellAt(row, 12)),
      letter ]
  }

  /** The twelve scalar cells of a row, in column order. */
  function ScalarCells(row: Row): seq<Cell> {
    var cells := seq(Columns, k requires 0 <= k => CellAt(row, k));
    cells[..DownloadColumn] + cells[DownloadColumn + 1..LetterColumn]
  }

  /** The scalar cells stored in a record whose scalar columns all hold
      passed-through cells. */
  function RecordScalars(r: Record): (cells: seq<Cell>)
    requires |r| == Columns
    requires forall k :: 0 <= k < Columns && k != DownloadColumn && k != LetterColumn ==> r[k].CellParam?
  {
    seq(DownloadColumn, k requires 0 <= k < DownloadColumn => r[k].cell) +
    seq(LetterColumn - DownloadColumn - 1, k requires 0 <= k < LetterColumn - DownloadColumn - 1 => r[DownloadColumn + 1 + k].cell)
  }

  /** Reading the scalar columns back out of a built record gives the row's
      twelve scalar cells, whatever the attachments are. */
  lemma ScalarCellsRoundTrip(row: Row, download: Param, letter: Param)
    ensures RecordScalars(BuildRecord(row, download, letter)) == ScalarCells(row)
    ensures |ScalarCells(row)| == Columns - 2
  {
    var r := BuildRecord(row, download, letter);
    var got := RecordScalars(r);
    var want := ScalarCells(row);
    assert |got| == |want|;
    forall k | 0 <= k < |got| ensures got[k] == want[k] {
      if k < DownloadColumn {
        assert got[k] == CellAt(row, k);
      } else {
        assert got[k] == CellAt(row, k + 1);
      }
    }
  }
}
