/**
 * The spreadsheet reader: an immutable snapshot of one sheet's rows, whose first
 * row names the columns, with cell access by row number and column heading.
 */
module Reader {
  import opened Errors
  import opened Text
  import opened Collaborators

  /** The rows of a sheet as the workbook library returns them: text cells, rows of any length. */
  type Grid = seq<seq<string>>

  datatype Spreadsheet = Spreadsheet(headings: seq<string>, rows: Grid)

  /** A spreadsheet as construction leaves it: at least the header row, and the headings are that row. */
  predicate Valid(s: Spreadsheet) {
    |s.rows| > 0 && s.headings == s.rows[0]
  }

  /** The number of rows, the header row included: a valid snapshot has at least one, and one fewer data rows. */
  function Size(s: Spreadsheet): (n: nat)
    ensures Valid(s) ==> n >= 1 && n - 1 == |s.rows[1..]|
  {
    |s.rows|
  }

  /**
   * Builds the snapshot from what reading the sheet returned. A read error is
   * passed on, an empty sheet is an error, and otherwise row 0 becomes the headings
   * and every row, the header included, is kept.
   */
  function ProcessData(read: Outcome<Grid>): (r: Result<Spreadsheet>)
    ensures r.Ok? <==> read.err.None? && read.value != []
    ensures read.err.Some? ==> r == Err(read.err.value)
    ensures read.err.None? && read.value == [] ==> r == Err(EmptyData)
    ensures r.Ok? ==> Valid(r.value) && r.value.rows == read.value && Size(r.value) == |read.value|
  {
    if read.err.Some? then Err(read.err.value)
    else if read.value == [] then Err(EmptyData)
    else Ok(Spreadsheet(read.value[0], read.value))
  }

  /** How a Go call ends: it returns a value and an error, or it panics. */
  datatype Run<+T> = Returned(value: T, err: Option<Error>) | Panicked(reason: string)

  /**
   * ProcessData as the Go code is written: the empty-sheet error is recorded, but
   * row 0 is read regardless, which panics with an index out of range.
   */
  function ProcessDataAsWritten(read: Outcome<Grid>): (r: Run<Spreadsheet>)
    ensures r.Panicked? <==> read.err.None? && read.value == []
    ensures r.Returned? ==> r.err == read.err
  {
    if read.err.Some? then Returned(Spreadsheet([], []), read.err)
    else
      var err := if read.value == [] then Some(EmptyData) else None;
      if read.value == [] then Panicked("index out of range [0] with length 0")
      else Returned(Spreadsheet(read.value[0], read.value), err)
  }

  /** The empty sheet never produces the error meant for it: the call panics instead. */
  lemma EmptySheetPanics()
    ensures ProcessDataAsWritten(Outcome([], None)).Panicked?
    ensures ProcessData(Outcome([], None)) == Err(EmptyData)
  {
  }

  /** On every input that does not panic, the as-written code and the corrected one agree. */
  lemma AsWrittenAgreesOtherwise(read: Outcome<Grid>)
    requires read.err.None? && read.value != []
    ensures ProcessDataAsWritten(read) == Returned(ProcessData(read).value, None)
  {
  }

  /** The position of the first heading equal to `name`, or `|headings|` when none is. */
  function FirstIndex(headings: seq<string>, name: string): (i: nat)
    ensures i <= |headings|
    ensures i < |headings| ==> headings[i] == name
    ensures forall j :: 0 <= j < i ==> headings[j] != name
  {
    if headings == [] then 0
    else if headings[0] == name then 0
    else 1 + FirstIndex(headings[1..], name)
  }

  /**
   * The column of a heading. An empty heading is refused before any search; a
   * heading that is present gives its first position; a missing one is an error
   * that names it. The index returned beside an error is the one Go returns.
   */
  function Column(s: Spreadsheet, heading: string): (r: Outcome<int>)
    ensures heading == "" ==> r == Outcome(0, Some(HeadingEmpty))
    ensures heading != "" && heading !in s.headings ==>
      r == Outcome(|s.headings|, Some(HeadingNotFound(heading)))
    ensures heading != "" && heading in s.headings ==>
      r.err == None && 0 <= r.value < |s.headings| && s.headings[r.value] == heading
      && forall j :: 0 <= j < r.value ==> s.headings[j] != heading
  {
    if heading == "" then Outcome(0, Some(HeadingEmpty))
    else
      var i := FirstIndex(s.headings, heading);
      if i < |s.headings| then Outcome(i, None) else Outcome(i, Some(HeadingNotFound(heading)))
  }

  /** The heading search as the Go loop runs it. */
  method ColumnSearch(s: Spreadsheet, heading: string) returns (column: int, err: Option<Error>)
    ensures Outcome(column, err) == Column(s, heading)
  {
    column := 0;
    if heading == "" {
      err := Some(HeadingEmpty);
      return;
    }
    while column < |s.headings|
      invariant 0 <= column <= |s.headings|
      invariant forall j :: 0 <= j < column ==> s.headings[j] != heading
    {
      if s.headings[column] == heading {
        err := None;
        return;
      }
      column := column + 1;
    }
    err := Some(HeadingNotFound(heading));
  }

  /**
   * The text of a cell. A heading error comes first, then the row must be a data
   * row (the header row 0 never is). A row too short for the column reads as "";
   * otherwise the cell's text is returned trimmed.
   */
  function Cell(s: Spreadsheet, row: int, heading: string): (r: Outcome<string>)
    ensures r.err.None? <==> heading != "" && heading in s.headings && 1 <= row < Size(s)
    ensures heading == "" ==> r.err == Some(HeadingEmpty)
    ensures heading != "" && heading !in s.headings ==> r.err == Some(HeadingNotFound(heading))
    ensures heading != "" && heading in s.headings && !(1 <= row < Size(s)) ==>
      r.err == Some(InvalidRow(row))
    ensures r.err.Some? ==> r.value == ""
    ensures Unpadded(r.value)
    ensures r.err.None? ==>
      var c := FirstIndex(s.headings, heading);
      if c < |s.rows[row]| then r.value == TrimSpace(s.rows[row][c]) else r.value == ""
  {
    var col := Column(s, heading);
    if col.err.Some? then Outcome("", col.err)
    else if row < 1 || row >= Size(s) then Outcome("", Some(InvalidRow(row)))
    else if col.value >= |s.rows[row]| then Outcome("", None)
    else Outcome(TrimSpace(s.rows[row][col.value]), None)
  }

  /** The header row is never readable as data, whatever the heading. */
  lemma HeaderRowUnreadable(s: Spreadsheet, heading: string)
    ensures Cell(s, 0, heading).err.Some?
  {
  }

  /** Commas stripped, an empty text is zero, anything else goes to the decimal parser. */
  function DecimalText<D>(text: string, lib: DecimalLib<D>): (r: Outcome<D>)
    ensures StripAll(text, ',') == "" ==> r == Outcome(lib.zero, None)
    ensures StripAll(text, ',') != "" ==> r == lib.parse(StripAll(text, ','))
  {
    var value := StripAll(text, ',');
    if value == "" then Outcome(lib.zero, None) else lib.parse(value)
  }

  /**
   * A cell read as a decimal amount. A failing Cell gives zero with Cell's error;
   * otherwise the trimmed text goes through the comma-insensitive coercion.
   */
  function CellDecimal<D>(s: Spreadsheet, row: int, heading: string, lib: DecimalLib<D>): (r: Outcome<D>)
    ensures Cell(s, row, heading).err.Some? ==> r == Outcome(lib.zero, Cell(s, row, heading).err)
    ensures Cell(s, row, heading).err.None? ==> r == DecimalText(Cell(s, row, heading).value, lib)
  {
    var cell := Cell(s, row, heading);
    if cell.err.Some? then Outcome(lib.zero, cell.err) else DecimalText(cell.value, lib)
  }

  /** A thousands separator anywhere in the text does not change the amount read. */
  lemma DecimalIgnoresCommas<D>(a: string, b: string, lib: DecimalLib<D>)
    ensures DecimalText(a + "," + b, lib) == DecimalText(a + b, lib)
  {
    StripAllInsert(a, b, ',');
  }

  /** "1,234.56" and "1234.56" read as the same amount, and "," alone reads as zero. */
  lemma DecimalExamples<D>(lib: DecimalLib<D>)
    ensures DecimalText("1,234.56", lib) == DecimalText("1234.56", lib)
    ensures DecimalText(",", lib) == Outcome(lib.zero, None)
    ensures DecimalText("", lib) == Outcome(lib.zero, None)
  {
    DecimalIgnoresCommas("1", "234.56", lib);
    assert "1" + "," + "234.56" == "1,234.56";
    assert "1" + "234.56" == "1234.56";
  }

  /** A cell on a data row that is shorter than the header reads as zero without error. */
  lemma TruncatedRowIsZero<D>(s: Spreadsheet, row: int, heading: string, lib: DecimalLib<D>)
    requires heading != "" && heading in s.headings && 1 <= row < Size(s)
    requires FirstIndex(s.headings, heading) >= |s.rows[row]|
    ensures CellDecimal(s, row, heading, lib) == Outcome(lib.zero, None)
  {
  }

  /**
   * The text a decimal is written as reads back as that decimal, provided the
   * library parses its own rendering and the rendering holds no comma or padding.
   */
  lemma {:induction false} DecimalTextRoundTrip<D>(d: D, lib: DecimalLib<D>)
    requires lib.parse(lib.render(d)) == Outcome(d, None)
    requires lib.render(d) != "" && ',' !in lib.render(d) && Unpadded(lib.render(d))
    ensures DecimalText(TrimSpace(lib.render(d)), lib) == Outcome(d, None)
  {
    var t := lib.render(d);
    assert [] + t + [] == t;
    TrimSpaceOfPadded([], t, []);
    StripAllAbsent(t, ',');
  }

  /**
   * A cell read as a date: a failing Cell gives the minimum date with Cell's
   * error, and otherwise exactly what the date parser makes of the trimmed text.
   */
  function CellDate<T>(s: Spreadsheet, row: int, heading: string, lib: DateLib<T>): (r: Outcome<T>)
    ensures Cell(s, row, heading).err.Some? ==> r == Outcome(lib.minDate, Cell(s, row, heading).err)
    ensures Cell(s, row, heading).err.None? ==> r == lib.parse(Cell(s, row, heading).value)
  {
    var cell := Cell(s, row, heading);
    if cell.err.Some? then Outcome(lib.minDate, cell.err) else lib.parse(cell.value)
  }

  /** There is no default for an empty date cell: it is whatever the parser makes of "". */
  lemma EmptyDateCellIsParsed<T>(s: Spreadsheet, row: int, heading: string, lib: DateLib<T>)
    requires heading != "" && heading in s.headings && 1 <= row < Size(s)
    requires FirstIndex(s.headings, heading) >= |s.rows[row]|
    ensures CellDate(s, row, heading, lib) == lib.parse("")
  {
  }
}
