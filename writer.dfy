/**
 * The spreadsheet writer. A SpreadsheetFile is a view: a file name, the sheet it
 * writes to, and a reference to the workbook handle. Views made by AddSheet share
 * their handle, so a write through one is seen through all of them.
 */
module Writer {
  import opened Errors
  import opened Collaborators
  import opened Workbook
  import opened Text

  /** A built-in number format of the workbook, by its index. */
  type FormatIndex = int

  const FormatPerCent: FormatIndex := 9
  const FormatDate: FormatIndex := 15
  const FormatMoney: FormatIndex := 2
  const FormatInt: FormatIndex := 1

  /** The indices the writer accepts: the built-in formats 0 to 49. */
  predicate ValidFormatIndex(index: FormatIndex) {
    0 <= index <= 49
  }

  /** The package's own format constants are never refused by the index check. */
  lemma NamedFormatsAreValid()
    ensures ValidFormatIndex(FormatInt) && ValidFormatIndex(FormatMoney)
    ensures ValidFormatIndex(FormatPerCent) && ValidFormatIndex(FormatDate)
  {
  }

  /** The decimal places SetCellFloat asks the workbook to keep: none, so floats are shown rounded. */
  const FloatPrecision: int := 0

  datatype SpreadsheetFile = SpreadsheetFile(filename: string, sheetname: string, file: Handle)

  /**
   * Creates a workbook whose only sheet is `sheetname`. The file name is checked
   * first, then the sheet name; a refused call creates no handle.
   */
  method New(filename: string, sheetname: string) returns (r: Result<SpreadsheetFile>)
    ensures r.Ok? <==> filename != "" && sheetname != ""
    ensures filename == "" ==> r == Err(EmptyFilename)
    ensures filename != "" && sheetname == "" ==> r == Err(EmptySheetname)
    ensures r.Ok? ==>
      var f := r.value.file;
      r.value.filename == filename && r.value.sheetname == sheetname && fresh(f)
      && f.Valid() && f.BuiltInFormats()
      && f.sheets == {sheetname} && f.values == map[] && f.styles == map[] && f.registry == []
  {
    if filename == "" {
      return Err(EmptyFilename);
    }
    if sheetname == "" {
      return Err(EmptySheetname);
    }
    var f := new Handle();
    f.NewSheet(sheetname);
    if sheetname != DefaultSheet {
      assert |{DefaultSheet} + {sheetname}| == 2;
    }
    f.DeleteSheet(DefaultSheet);
    r := Ok(SpreadsheetFile(filename, sheetname, f));
  }

  /**
   * Adds a sheet to the workbook and returns a view of it that shares the handle
   * and the file name. An empty name is refused and adds nothing.
   */
  method AddSheet(view: SpreadsheetFile, sheetname: string) returns (r: Result<SpreadsheetFile>)
    requires view.file.Valid()
    modifies view.file
    ensures view.file.Valid()
    ensures sheetname == "" ==> r == Err(EmptySheetname) && unchanged(view.file)
    ensures sheetname != "" ==>
      r == Ok(SpreadsheetFile(view.filename, sheetname, view.file))
      && view.file.sheets == old(view.file.sheets) + {sheetname}
      && view.file.values == old(view.file.values)
      && view.file.styles == old(view.file.styles)
      && view.file.registry == old(view.file.registry)
  {
    if sheetname == "" {
      return Err(EmptySheetname);
    }
    r := Ok(SpreadsheetFile(view.filename, sheetname, view.file));
    view.file.NewSheet(sheetname);
  }

  /** Stores text in one cell of the view's sheet; an empty reference is refused and changes nothing. */
  method SetCell(view: SpreadsheetFile, ref: string, value: string) returns (err: Option<Error>)
    requires view.file.Valid()
    modifies view.file
    ensures view.file.Valid()
    ensures ref == "" ==> err == Some(EmptyCellName) && unchanged(view.file)
    ensures ref != "" ==>
      err == old(view.file.CellError(view.sheetname, ref))
      && view.file.values == (if err.None? then old(view.file.values)[CellKey(view.sheetname, ref) := TextValue(value)]
                              else old(view.file.values))
      && view.file.sheets == old(view.file.sheets)
      && view.file.styles == old(view.file.styles)
      && view.file.registry == old(view.file.registry)
  {
    if ref == "" {
      return Some(EmptyCellName);
    }
    err := view.file.SetCellValue(view.sheetname, ref, TextValue(value));
  }

  /**
   * Stores a float, kept as its bit pattern, in one cell with FloatPrecision
   * decimal places; an empty reference is refused and changes nothing.
   */
  method SetCellFloat(view: SpreadsheetFile, ref: string, value: bv64) returns (err: Option<Error>)
    requires view.file.Valid()
    modifies view.file
    ensures view.file.Valid()
    ensures ref == "" ==> err == Some(EmptyCellName) && unchanged(view.file)
    ensures ref != "" ==>
      err == old(view.file.CellError(view.sheetname, ref))
      && view.file.values == (if err.None? then old(view.file.values)[CellKey(view.sheetname, ref) := FloatValue(value, FloatPrecision)]
                              else old(view.file.values))
      && view.file.sheets == old(view.file.sheets)
      && view.file.styles == old(view.file.styles)
      && view.file.registry == old(view.file.registry)
  {
    if ref == "" {
      return Some(EmptyCellName);
    }
    err := view.file.SetCellValue(view.sheetname, ref, FloatValue(value, FloatPrecision));
  }

  /**
   * Gives one cell a built-in number format. An index outside 0..49 is refused
   * and registers nothing; otherwise a new style is registered, and the cell gets
   * it if the workbook accepts the cell.
   */
  method SetNumFmt(view: SpreadsheetFile, ref: string, index: FormatIndex) returns (err: Option<Error>)
    requires view.file.Valid()
    modifies view.file
    ensures view.file.Valid()
    ensures old(view.file.BuiltInFormats()) ==> view.file.BuiltInFormats()
    ensures !ValidFormatIndex(index) ==> err == Some(InvalidFormatIndex(index)) && unchanged(view.file)
    ensures ValidFormatIndex(index) ==>
      err == old(view.file.CellError(view.sheetname, ref))
      && view.file.registry == old(view.file.registry) + [index]
      && view.file.styles == (if err.None? then old(view.file.styles)[CellKey(view.sheetname, ref) := |old(view.file.registry)|]
                              else old(view.file.styles))
      && view.file.sheets == old(view.file.sheets)
      && view.file.values == old(view.file.values)
  {
    if index < 0 || index > 49 {
      return Some(InvalidFormatIndex(index));
    }
    var st := view.file.NewStyle(index);
    err := view.file.SetCellStyle(view.sheetname, ref, st);
  }

  /**
   * Stores an integer, then gives the cell the integer format. A refused write
   * stops before any style is registered.
   */
  method SetCellInt(view: SpreadsheetFile, ref: string, value: int) returns (err: Option<Error>)
    requires view.file.Valid()
    modifies view.file
    ensures view.file.Valid()
    ensures old(view.file.BuiltInFormats()) ==> view.file.BuiltInFormats()
    ensures ref == "" ==> err == Some(EmptyCellName) && unchanged(view.file)
    ensures ref != "" ==> err == old(view.file.CellError(view.sheetname, ref))
    ensures err.Some? ==> unchanged(view.file)
    ensures err.None? ==>
      view.file.values == old(view.file.values)[CellKey(view.sheetname, ref) := IntValue(value)]
      && view.file.registry == old(view.file.registry) + [FormatInt]
      && view.file.styles == old(view.file.styles)[CellKey(view.sheetname, ref) := |old(view.file.registry)|]
      && view.file.sheets == old(view.file.sheets)
  {
    if ref == "" {
      return Some(EmptyCellName);
    }
    err := view.file.SetCellValue(view.sheetname, ref, IntValue(value));
    if err.None? {
      assert view.file.CellError(view.sheetname, ref) == None;
      err := SetNumFmt(view, ref, FormatInt);
    }
  }

  /**
   * Formats the cell first and writes the decimal's canonical text only if that
   * succeeded: a refused index changes nothing, and a refused cell still leaves
   * the new style registered but writes no value.
   */
  method SetCellDecimal<D>(view: SpreadsheetFile, ref: string, amount: D, index: FormatIndex, lib: DecimalLib<D>)
    returns (err: Option<Error>)
    requires view.file.Valid()
    modifies view.file
    ensures view.file.Valid()
    ensures old(view.file.BuiltInFormats()) ==> view.file.BuiltInFormats()
    ensures ref == "" ==> err == Some(EmptyCellName) && unchanged(view.file)
    ensures ref != "" && !ValidFormatIndex(index) ==> err == Some(InvalidFormatIndex(index)) && unchanged(view.file)
    ensures ref != "" && ValidFormatIndex(index) ==>
      err == old(view.file.CellError(view.sheetname, ref))
      && view.file.registry == old(view.file.registry) + [index]
      && view.file.sheets == old(view.file.sheets)
      && view.file.values == (if err.None? then old(view.file.values)[CellKey(view.sheetname, ref) := TextValue(lib.render(amount))]
                              else old(view.file.values))
      && view.file.styles == (if err.None? then old(view.file.styles)[CellKey(view.sheetname, ref) := |old(view.file.registry)|]
                              else old(view.file.styles))
  {
    if ref == "" {
      return Some(EmptyCellName);
    }
    var value := lib.render(amount);
    err := SetNumFmt(view, ref, index);
    if err.None? {
      err := view.file.SetCellValue(view.sheetname, ref, TextValue(value));
    }
  }

  /**
   * Formats the cell as a date, then writes the date's canonical text. The date
   * format is always accepted, so only the reference can be refused.
   */
  method SetCellDate<T>(view: SpreadsheetFile, ref: string, date: T, lib: DateLib<T>) returns (err: Option<Error>)
    requires view.file.Valid()
    modifies view.file
    ensures view.file.Valid()
    ensures old(view.file.BuiltInFormats()) ==> view.file.BuiltInFormats()
    ensures ref == "" ==> err == Some(EmptyCellName) && unchanged(view.file)
    ensures ref != "" ==>
      err == old(view.file.CellError(view.sheetname, ref))
      && view.file.registry == old(view.file.registry) + [FormatDate]
      && view.file.sheets == old(view.file.sheets)
      && view.file.values == (if err.None? then old(view.file.values)[CellKey(view.sheetname, ref) := TextValue(lib.render(date))]
                              else old(view.file.values))
      && view.file.styles == (if err.None? then old(view.file.styles)[CellKey(view.sheetname, ref) := |old(view.file.registry)|]
                              else old(view.file.styles))
  {
    if ref == "" {
      return Some(EmptyCellName);
    }
    var value := lib.render(date);
    err := SetNumFmt(view, ref, FormatDate);
    if err.None? {
      err := view.file.SetCellValue(view.sheetname, ref, TextValue(value));
    }
  }

  /**
   * Saves the workbook under the view's file name. A nil view is refused without
   * touching any handle; otherwise the result is what writing the file reported.
   */
  method Save(view: Option<SpreadsheetFile>, written: Option<Error>) returns (err: Option<Error>)
    ensures view.None? ==> err == Some(NilFile)
    ensures view.Some? ==> err == written
  {
    if view.None? {
      return Some(NilFile);
    }
    err := written;
  }

  /**
   * Closes the workbook. A nil view is refused without touching any handle;
   * otherwise the result is what closing the handle reported.
   */
  method Close(view: Option<SpreadsheetFile>, closed: Option<Error>) returns (err: Option<Error>)
    ensures view.None? ==> err == Some(NilFile)
    ensures view.Some? ==> err == closed
  {
    if view.None? {
      return Some(NilFile);
    }
    err := closed;
  }

  /**
   * Two views of one workbook: text written through the first and through the
   * view AddSheet returns both end up in the one shared handle.
   */
  method TwoSheetsOneHandle() returns (first: SpreadsheetFile, second: SpreadsheetFile)
    ensures first.file == second.file
    ensures first.file.sheets == {"Data", "Next"}
    ensures first.file.values == map[CellKey("Data", "A1") := TextValue("Test"),
                                     CellKey("Next", "A1") := TextValue("Other")]
  {
    var r := New("out.xlsx", "Data");
    first := r.value;
    assert FirstDigit("A1") == 1;
    assert "A1"[1..] == "1";
    var err := SetCell(first, "A1", "Test");
    var added := AddSheet(first, "Next");
    second := added.value;
    err := SetCell(second, "A1", "Other");
  }
}
