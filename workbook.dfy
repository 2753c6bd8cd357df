/**
 * The workbook handle the writer drives (an `*excelize.File`), reduced to what the
 * writer can observe: its sheet names, the value and the style of each cell, and
 * the registry of number-format styles, where a style's id is its position.
 */
module Workbook {
  import opened Errors
  import opened Text

  /** A cell of the workbook: its sheet and its reference, such as "A1". */
  datatype CellKey = CellKey(sheet: string, ref: string)

  /**
   * What a cell holds: text, an integer, or a 64-bit float kept as its bit
   * pattern together with the number of decimal places it is to be shown with.
   */
  datatype CellValue = TextValue(text: string) | IntValue(n: int) | FloatValue(bits: bv64, places: int)

  /** The placeholder sheet a new workbook starts with. */
  const DefaultSheet: string := "Sheet1"

  /** A reference the workbook can parse: column letters, then a row number of at least 1. */
  predicate RefAccepted(ref: string) {
    var k := FirstDigit(ref);
    0 < k < |ref| && AllLetters(ref[..k]) && AllDigits(ref[k..]) && DigitsValue(ref[k..]) >= 1
  }

  class Handle {
    var sheets: set<string>
    var values: map<CellKey, CellValue>
    var styles: map<CellKey, nat>
    var registry: seq<int>

    /** The handle's own consistency: there is a sheet, and cells and styles belong to existing sheets and styles. */
    ghost predicate Valid()
      reads this
    {
      sheets != {}
      && (forall k :: k in values ==> k.sheet in sheets)
      && (forall k :: k in styles ==> k.sheet in sheets && styles[k] < |registry|)
    }

    /** Every registered style is one of the built-in number formats 0 to 49. */
    ghost predicate BuiltInFormats()
      reads this
    {
      forall i :: 0 <= i < |registry| ==> 0 <= registry[i] <= 49
    }

    /** Why a cell of `sheet` at `ref` cannot be written, if it cannot. */
    function CellError(sheet: string, ref: string): (e: Option<Error>)
      reads this
      ensures e.None? <==> sheet in sheets && RefAccepted(ref)
    {
      if sheet !in sheets then Some(SheetNotFound(sheet))
      else if !RefAccepted(ref) then Some(InvalidCellRef(ref))
      else None
    }

    /** `excelize.NewFile`: one placeholder sheet, no cells, no styles. */
    constructor ()
      ensures Valid() && BuiltInFormats()
      ensures sheets == {DefaultSheet} && values == map[] && styles == map[] && registry == []
    {
      sheets := {DefaultSheet};
      values := map[];
      styles := map[];
      registry := [];
    }

    /** `NewSheet`: adds the sheet, or leaves an existing one as it is. */
    method NewSheet(name: string)
      requires Valid()
      modifies this
      ensures Valid()
      ensures sheets == old(sheets) + {name}
      ensures values == old(values) && styles == old(styles) && registry == old(registry)
    {
      sheets := sheets + {name};
    }

    /** `DeleteSheet`: removes the sheet and its cells, unless it is missing or the only sheet. */
    method DeleteSheet(name: string)
      requires Valid()
      modifies this
      ensures Valid()
      ensures sheets == if name in old(sheets) && |old(sheets)| > 1 then old(sheets) - {name} else old(sheets)
      ensures values == map k | k in old(values) && k.sheet in sheets :: old(values)[k]
      ensures styles == map k | k in old(styles) && k.sheet in sheets :: old(styles)[k]
      ensures registry == old(registry)
    {
      if name in sheets && |sheets| > 1 {
        assert |sheets - {name}| == |sheets| - 1;
        sheets := sheets - {name};
        values := map k | k in values && k.sheet in sheets :: values[k];
        styles := map k | k in styles && k.sheet in sheets :: styles[k];
      }
    }

    /** `SetCellValue`, `SetCellInt`, `SetCellFloat`: stores `v` in one cell, or fails and changes nothing. */
    method SetCellValue(sheet: string, ref: string, v: CellValue) returns (err: Option<Error>)
      requires Valid()
      modifies this
      ensures Valid()
      ensures err == old(CellError(sheet, ref))
      ensures err.Some? ==> unchanged(this)
      ensures values == if err.None? then old(values)[CellKey(sheet, ref) := v] else old(values)
      ensures sheets == old(sheets) && styles == old(styles) && registry == old(registry)
    {
      err := CellError(sheet, ref);
      if err.None? {
        values := values[CellKey(sheet, ref) := v];
      }
    }

    /** `NewStyle` with a number format: registers a style and returns its id. */
    method NewStyle(numFmt: int) returns (id: nat)
      requires Valid()
      modifies this
      ensures Valid()
      ensures id == |old(registry)| && registry == old(registry) + [numFmt]
      ensures sheets == old(sheets) && values == old(values) && styles == old(styles)
    {
      id := |registry|;
      registry := registry + [numFmt];
    }

    /** `SetCellStyle` over the one-cell range `ref:ref`: gives that cell the style, or fails and changes nothing. */
    method SetCellStyle(sheet: string, ref: string, id: nat) returns (err: Option<Error>)
      requires Valid() && id < |registry|
      modifies this
      ensures Valid()
      ensures err == old(CellError(sheet, ref))
      ensures err.Some? ==> unchanged(this)
      ensures styles == if err.None? then old(styles)[CellKey(sheet, ref) := id] else old(styles)
      ensures sheets == old(sheets) && values == old(values) && registry == old(registry)
    {
      err := CellError(sheet, ref);
      if err.None? {
        styles := styles[CellKey(sheet, ref) := id];
      }
    }
  }
}
