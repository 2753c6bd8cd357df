/**
 * Cell references built from a column and a row number, and the helpers that
 * write one typed value at such a reference through a writer view.
 */
module Support {
  import opened Errors
  import opened Text
  import opened Collaborators
  import opened Workbook
  import opened Writer

  function DigitChar(d: nat): (c: char)
    requires d < 10
    ensures IsDigit(c) && c as int - '0' as int == d
  {
    ('0' as int + d) as char
  }

  /**
   * The base-10 rendering of a natural number: at least one digit, no leading
   * zero except for 0 itself, and it reads back as the number.
   */
  function NatToString(n: nat): (s: string)
    ensures |s| >= 1 && AllDigits(s)
    ensures (s[0] == '0') == (n == 0)
    ensures n == 0 ==> s == "0"
    ensures DigitsValue(s) == n
  {
    if n < 10 then [DigitChar(n)]
    else
      var prefix := NatToString(n / 10);
      var s := prefix + [DigitChar(n % 10)];
      assert s[..|s| - 1] == prefix;
      s
  }

  /**
   * Go's `strconv.Itoa`: the base-10 digits of the magnitude, without leading
   * zeros except for 0 itself, after a minus sign when the number is negative.
   */
  function Itoa(n: int): (s: string)
    ensures |s| >= 1
    ensures n >= 0 ==> AllDigits(s) && (s[0] == '0' <==> n == 0) && DigitsValue(s) == n
    ensures n == 0 ==> s == "0"
    ensures n < 0 ==>
      |s| >= 2 && s[0] == '-' && AllDigits(s[1..]) && s[1] != '0' && DigitsValue(s[1..]) == -n
  {
    if n < 0 then
      var digits := NatToString(-n);
      assert ("-" + digits)[1..] == digits;
      "-" + digits
    else NatToString(n)
  }

  /**
   * The reference of the cell in `column` and `row`: the column followed by the
   * row's decimal text. For a row of 0 or more that text is all digits, has no
   * leading zero unless the row is 0, and reads back as the row; a negative row
   * is a minus sign followed by the digits of its magnitude.
   */
  function CellName(column: string, row: int): (name: string)
    ensures |name| > |column| && name[..|column|] == column
    ensures row >= 0 ==>
      var suffix := name[|column|..];
      AllDigits(suffix) && (suffix[0] == '0' <==> row == 0) && DigitsValue(suffix) == row
    ensures row == 0 ==> name[|column|..] == "0"
    ensures row < 0 ==>
      |name| > |column| + 1 && name[|column|] == '-'
      && var digits := name[|column| + 1..];
      AllDigits(digits) && digits[0] != '0' && DigitsValue(digits) == -row
  {
    var name := column + Itoa(row);
    assert name[|column|..] == Itoa(row);
    assert name[|column| + 1..] == Itoa(row)[1..];
    name
  }

  /**
   * A column without digits and a row of 0 or more can be recovered from the
   * reference: it splits at its first digit into the column and the row's digits.
   */
  lemma CellNameSplits(column: string, row: int)
    requires NoDigits(column) && row >= 0
    ensures var name := CellName(column, row);
      FirstDigit(name) == |column| && name[..|column|] == column
      && AllDigits(name[|column|..]) && DigitsValue(name[|column|..]) == row
  {
    var name := CellName(column, row);
    assert name[|column|] == name[|column|..][0];
  }

  /** Distinct cells get distinct references, as long as columns hold no digits and rows are not negative. */
  lemma CellNameInjective(column1: string, row1: int, column2: string, row2: int)
    requires NoDigits(column1) && NoDigits(column2) && row1 >= 0 && row2 >= 0
    requires CellName(column1, row1) == CellName(column2, row2)
    ensures column1 == column2 && row1 == row2
  {
    CellNameSplits(column1, row1);
    CellNameSplits(column2, row2);
  }

  /** A reference built from column letters and a row of at least 1 is one the workbook accepts. */
  lemma CellNameAccepted(column: string, row: int)
    requires column != "" && AllLetters(column) && row >= 1
    ensures RefAccepted(CellName(column, row))
  {
    assert NoDigits(column) by {
      forall i | 0 <= i < |column| ensures !IsDigit(column[i]) {
        assert IsLetter(column[i]);
      }
    }
    CellNameSplits(column, row);
  }

  /** A column of letters, a row of at least 1, on a sheet of the workbook: a cell that can be written. */
  predicate Writable(view: SpreadsheetFile, column: string, row: int)
    reads view.file
  {
    column != "" && AllLetters(column) && row >= 1 && view.sheetname in view.file.sheets
  }

  /** Writes text at the cell named by `column` and `row`, and reports the setter's error. */
  method WriteCell(view: SpreadsheetFile, column: string, row: int, value: string) returns (err: Option<Error>)
    requires view.file.Valid()
    modifies view.file
    ensures view.file.Valid()
    ensures err == old(view.file.CellError(view.sheetname, CellName(column, row)))
    ensures old(Writable(view, column, row)) ==> err.None?
    ensures view.file.values ==
      (if err.None? then old(view.file.values)[CellKey(view.sheetname, CellName(column, row)) := TextValue(value)]
       else old(view.file.values))
    ensures view.file.sheets == old(view.file.sheets)
    ensures view.file.styles == old(view.file.styles)
    ensures view.file.registry == old(view.file.registry)
  {
    if Writable(view, column, row) {
      CellNameAccepted(column, row);
    }
    var cell := CellName(column, row);
    err := SetCell(view, cell, value);
  }

  /** Writes an integer with the integer format at the cell named by `column` and `row`. */
  method WriteCellInt(view: SpreadsheetFile, column: string, row: int, value: int) returns (err: Option<Error>)
    requires view.file.Valid()
    modifies view.file
    ensures view.file.Valid()
    ensures old(view.file.BuiltInFormats()) ==> view.file.BuiltInFormats()
    ensures err == old(view.file.CellError(view.sheetname, CellName(column, row)))
    ensures old(Writable(view, column, row)) ==> err.None?
    ensures err.Some? ==> unchanged(view.file)
    ensures err.None? ==>
      var key := CellKey(view.sheetname, CellName(column, row));
      view.file.values == old(view.file.values)[key := IntValue(value)]
      && view.file.registry == old(view.file.registry) + [FormatInt]
      && view.file.styles == old(view.file.styles)[key := |old(view.file.registry)|]
      && view.file.sheets == old(view.file.sheets)
  {
    if Writable(view, column, row) {
      CellNameAccepted(column, row);
    }
    var cell := CellName(column, row);
    err := SetCellInt(view, cell, value);
  }

  /** Writes a float, kept as its bit pattern, at the cell named by `column` and `row`. */
  method WriteCellFloat(view: SpreadsheetFile, column: string, row: int, value: bv64) returns (err: Option<Error>)
    requires view.file.Valid()
    modifies view.file
    ensures view.file.Valid()
    ensures err == old(view.file.CellError(view.sheetname, CellName(column, row)))
    ensures old(Writable(view, column, row)) ==> err.None?
    ensures view.file.values ==
      (if err.None? then old(view.file.values)[CellKey(view.sheetname, CellName(column, row)) := FloatValue(value, FloatPrecision)]
       else old(view.file.values))
    ensures view.file.sheets == old(view.file.sheets)
    ensures view.file.styles == old(view.file.styles)
    ensures view.file.registry == old(view.file.registry)
  {
    if Writable(view, column, row) {
      CellNameAccepted(column, row);
    }
    var cell := CellName(column, row);
    err := SetCellFloat(view, cell, value);
  }

  /**
   * Writes a decimal's canonical text with the money format at the cell named by
   * `column` and `row`. The style registered is always the money format, and on
   * success it is the style the cell gets.
   */
  method WriteCellDecimal<D>(view: SpreadsheetFile, column: string, row: int, value: D, lib: DecimalLib<D>)
    returns (err: Option<Error>)
    requires view.file.Valid()
    modifies view.file
    ensures view.file.Valid()
    ensures old(view.file.BuiltInFormats()) ==> view.file.BuiltInFormats()
    ensures err == old(view.file.CellError(view.sheetname, CellName(column, row)))
    ensures old(Writable(view, column, row)) ==> err.None?
    ensures view.file.registry == old(view.file.registry) + [FormatMoney]
    ensures view.file.sheets == old(view.file.sheets)
    ensures err.None? ==>
      var key := CellKey(view.sheetname, CellName(column, row));
      view.file.values == old(view.file.values)[key := TextValue(lib.render(value))]
      && view.file.styles == old(view.file.styles)[key := |old(view.file.registry)|]
      && view.file.registry[view.file.styles[key]] == FormatMoney
    ensures err.Some? ==>
      view.file.values == old(view.file.values) && view.file.styles == old(view.file.styles)
  {
    if Writable(view, column, row) {
      CellNameAccepted(column, row);
    }
    var cell := CellName(column, row);
    err := SetCellDecimal(view, cell, value, FormatMoney, lib);
  }

  /** Writes a date's canonical text with the date format at the cell named by `column` and `row`. */
  method WriteCellDate<T>(view: SpreadsheetFile, column: string, row: int, date: T, lib: DateLib<T>)
    returns (err: Option<Error>)
    requires view.file.Valid()
    modifies view.file
    ensures view.file.Valid()
    ensures old(view.file.BuiltInFormats()) ==> view.file.BuiltInFormats()
    ensures err == old(view.file.CellError(view.sheetname, CellName(column, row)))
    ensures old(Writable(view, column, row)) ==> err.None?
    ensures view.file.registry == old(view.file.registry) + [FormatDate]
    ensures view.file.sheets == old(view.file.sheets)
    ensures err.None? ==>
      var key := CellKey(view.sheetname, CellName(column, row));
      view.file.values == old(view.file.values)[key := TextValue(lib.render(date))]
      && view.file.styles == old(view.file.styles)[key := |old(view.file.registry)|]
    ensures err.Some? ==>
      view.file.values == old(view.file.values) && view.file.styles == old(view.file.styles)
  {
    if Writable(view, column, row) {
      CellNameAccepted(column, row);
    }
    var cell := CellName(column, row);
    err := SetCellDate(view, cell, date, lib);
  }
}
