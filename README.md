# spreadsheet — a Dafny model of the typed spreadsheet reader and writer

This project models the Go package `pkg/spreadsheet`. The package has three parts:

- **Reader** (`reader.dfy`, from `reader.go`). `Spreadsheet` is an immutable snapshot of one sheet. Row 0 holds the column headings. Cells are read by row number and heading. `Cell` returns the trimmed text. `CellDecimal` drops thousands separators and reads an empty text as zero. `CellDate` hands the text to a date parser.
- **Writer** (`writer.dfy`, from `writer.go`). A `SpreadsheetFile` view holds a file name, a sheet name and a reference to a workbook handle. `AddSheet` returns a second view that shares the same handle. The setters check the cell reference, write values and attach number formats. The format index must lie between 0 and 49.
- **Cell references** (`support.dfy`, from `spreadsheetsupport.go`). `CellName` builds a reference such as `A1` from a column and a row. The `Write*` helpers build that name and call the matching setter.

The supporting modules are:

- `errors.dfy`: the error values and Go's `(value, error)` pair, written `Outcome`.
- `collaborators.dfy`: the decimal and date libraries, each a record of functions passed in as a parameter.
- `text.dfy`: `strings.TrimSpace`, `strings.ReplaceAll` with an empty replacement, and decimal digits.
- `workbook.dfy`: the workbook handle (`*excelize.File`) as a class. It holds the sheet names, each cell's value and style, and a registry of number-format styles. A style's id is its position in the registry.

The handle's `Valid()` says there is at least one sheet, that every cell and style belongs to an existing sheet, and that every style id is registered. Every writer method keeps `Valid()`. Every writer method also keeps `BuiltInFormats()`: every registered format is a built-in code from 0 to 49, which is what the index check in `SetNumFmt` guarantees.

Three behaviours of the code that callers might not expect, which the model keeps:

- **Empty sheet.** `ProcessData` reads `rows[0]` even when the sheet has no rows (reader.go:100), so an empty sheet panics instead of returning its error (see Findings).
- **`CellDate` on failure.** When `Cell` fails, `CellDate` returns `d.MinDate` together with `Cell`'s error (reader.go:185-191).
- **Parse errors.** The decimal and date parsers' errors are returned unwrapped (reader.go:174, 189).

## Model

| member | source | states |
|---|---|---|
| Reader.ProcessData | pkg/spreadsheet/reader.go:83-103 | A read error is passed on. An empty sheet is the EmptyData error and never yields a snapshot. Otherwise the headings are row 0, every row including the header is kept, and Size is the number of rows including the header. |
| Reader.ProcessDataAsWritten | pkg/spreadsheet/reader.go:90-102 | The code as written panics exactly when the read succeeded with zero rows. Whenever it does return, the error is the read's own, so the empty-sheet error set at line 95 never reaches the caller. |
| Reader.EmptySheetPanics | pkg/spreadsheet/reader.go:94-100 | For zero rows, the as-written code panics while the corrected ProcessData returns EmptyData. |
| Reader.AsWrittenAgreesOtherwise | pkg/spreadsheet/reader.go:98-102 | On every non-empty successful read, the as-written code and the corrected one return the same snapshot and no error. |
| Reader.Size | pkg/spreadsheet/reader.go:109-113 | Counts the header row: a valid snapshot has Size at least 1 and Size - 1 data rows. |
| Reader.FirstIndex | pkg/spreadsheet/reader.go:127-131 | Gives the smallest position holding the name, or the heading count when no heading equals it. |
| Reader.Column | pkg/spreadsheet/reader.go:118-134 | An empty heading fails with HeadingEmpty before any search. A present heading gives its first position, so the first match wins. A missing heading fails with HeadingNotFound naming it, with the index Go returns beside the error. |
| Reader.ColumnSearch | pkg/spreadsheet/reader.go:118-134 | The Go loop, with its early return, computes exactly Column's index and error. |
| Reader.Cell | pkg/spreadsheet/reader.go:137-160 | Succeeds exactly when the heading is non-empty and present and 1 <= row < Size. Heading errors take precedence over the row check. A bad row gives InvalidRow. Failures return "". A row too short for the column gives "" with no error. Otherwise the result is the trimmed cell text, and it never starts or ends with white space. |
| Reader.HeaderRowUnreadable | pkg/spreadsheet/reader.go:146-149 | Row 0, the header, is never readable as data, whatever the heading. |
| Reader.DecimalText | pkg/spreadsheet/reader.go:169-176 | If the text is empty once every comma is removed, the result is zero with no error. Otherwise the result is exactly the decimal parser's answer on the comma-free text. |
| Reader.CellDecimal | pkg/spreadsheet/reader.go:163-179 | If Cell fails, the result is zero plus Cell's error. Otherwise it is the comma-insensitive coercion of Cell's text. |
| Reader.DecimalIgnoresCommas | pkg/spreadsheet/reader.go:169 | A comma inserted anywhere in a text does not change the amount read. |
| Reader.DecimalExamples | pkg/spreadsheet/reader.go:169-173 | "1,234.56" and "1234.56" read alike. "," and "" read as zero with no error. |
| Reader.TruncatedRowIsZero | pkg/spreadsheet/reader.go:153-173 | A valid cell beyond the end of a short row reads as zero with no error. |
| Reader.DecimalTextRoundTrip | pkg/spreadsheet/reader.go:169-174 | The canonical text a decimal is written as reads back as that decimal, provided the library parses its own rendering and that rendering holds no comma or padding. |
| Reader.CellDate | pkg/spreadsheet/reader.go:182-192 | If Cell fails, the result is MinDate plus Cell's error. Otherwise it is exactly the date parser's result on the trimmed text. |
| Reader.EmptyDateCellIsParsed | pkg/spreadsheet/reader.go:185-190 | An empty cell has no special case: it yields whatever the date parser makes of "". |
| Text.TrimSpace | pkg/spreadsheet/reader.go:157 | The result is the stretch of the input left after removing the white space at both ends, and it is itself free of white space at both ends. |
| Text.TrimSpaceOfPadded | pkg/spreadsheet/reader.go:157 | Trimming any white-space padding around a text with no white space at either end gives that text back. |
| Text.TrimSpaceIdempotent | pkg/spreadsheet/reader.go:157 | Trimming twice is trimming once. |
| Text.StripAll | pkg/spreadsheet/reader.go:169 | The result holds no comma and is no longer than the input. |
| Text.StripAllAppend | pkg/spreadsheet/reader.go:169 | Removing commas distributes over concatenation, so every other character stays in order. |
| Text.StripAllAbsent | pkg/spreadsheet/reader.go:169 | A text without commas is left unchanged. |
| Text.StripAllInsert | pkg/spreadsheet/reader.go:169 | Inserting one more comma anywhere leaves the stripped text unchanged. |
| Writer.NamedFormatsAreValid | pkg/spreadsheet/writer.go:44-49 | FormatInt=1, FormatMoney=2, FormatPerCent=9 and FormatDate=15 all lie in [0,49]. |
| Writer.New | pkg/spreadsheet/writer.go:57-87 | An empty file name fails with EmptyFilename before the sheet name is checked. An empty sheet name fails with EmptySheetname. Neither failure creates a handle. On success the handle is fresh and its only sheet is `sheetname` ("Sheet1" is deleted). It has no cells and no styles, and the view carries both arguments. |
| Writer.AddSheet | pkg/spreadsheet/writer.go:131-152 | An empty name fails and leaves the handle unchanged. Otherwise the returned view has the same file name and the same handle (aliasing) and the new sheet name. The shared handle gains that sheet and nothing else changes. |
| Writer.SetCell | pkg/spreadsheet/writer.go:155-171 | An empty reference fails and leaves the handle unchanged. Otherwise the text is stored at (view's sheet, reference) when the workbook accepts that cell, and nothing else changes. |
| Writer.SetCellFloat | pkg/spreadsheet/writer.go:174-190 | The same as SetCell, for a float value. The cell records the value's bit pattern and the precision argument 0 passed at line 188. |
| Writer.SetNumFmt | pkg/spreadsheet/writer.go:264-283 | Fails with InvalidFormatIndex exactly when the index is outside [0,49], and then registers nothing. Otherwise it appends one style with that code and gives it to the single cell (sheet, reference) when the workbook accepts the cell. Registered formats stay within 0..49. |
| Writer.SetCellInt | pkg/spreadsheet/writer.go:193-212 | The value is written first and the integer format is applied after. A refused write registers no style and leaves the handle unchanged. A successful write stores the integer and gives the cell a new FormatInt style. |
| Writer.SetCellDecimal | pkg/spreadsheet/writer.go:215-236 | The format is applied first. An invalid index leaves the handle, including the cell's value, unchanged. A refused cell leaves the new style registered but writes no value. On success the cell holds the decimal's canonical text and the new style. |
| Writer.SetCellDate | pkg/spreadsheet/writer.go:239-260 | The cell is formatted with FormatDate, which the index check never refuses, and then the date's canonical text is written. Only an empty or refused reference fails. |
| Writer.Save | pkg/spreadsheet/writer.go:94-109 | A nil view fails with the nil-file error and touches no handle. Otherwise the result is what writing the file reported. |
| Writer.Close | pkg/spreadsheet/writer.go:112-126 | A nil view fails with the nil-file error and touches no handle. Otherwise the result is what closing the handle reported. |
| Writer.TwoSheetsOneHandle | pkg/spreadsheet/writer.go:128-152 | A view from New and the view AddSheet derives from it share one handle, and text written through both ends up in that handle. |
| Workbook.Handle.constructor | pkg/spreadsheet/writer.go:76 | A new workbook has only the placeholder sheet "Sheet1", no cells and no styles. |
| Workbook.Handle.NewSheet | pkg/spreadsheet/writer.go:81 | Adding a sheet adds its name and changes nothing else. |
| Workbook.Handle.DeleteSheet | pkg/spreadsheet/writer.go:85 | Deleting a sheet removes it and its cells, unless it is missing or is the only sheet. |
| Workbook.Handle.CellError | pkg/spreadsheet/writer.go:169 | A cell can be written exactly when its sheet exists and its reference is column letters followed by a row number of at least 1. |
| Workbook.Handle.SetCellValue | pkg/spreadsheet/writer.go:169 | Stores one value in an accepted cell. A refused cell fails and changes nothing. |
| Workbook.Handle.NewStyle | pkg/spreadsheet/writer.go:277 | Appends one style with the given format code and returns its id. |
| Workbook.Handle.SetCellStyle | pkg/spreadsheet/writer.go:281 | Gives one accepted cell the style. A refused cell fails and changes nothing. |
| Support.NatToString | pkg/spreadsheet/spreadsheetsupport.go:35 | The rendering of a row of 0 or more is non-empty and all digits. It starts with '0' only for 0, which is exactly "0", and it reads back as the number. |
| Support.Itoa | pkg/spreadsheet/spreadsheetsupport.go:35 | `strconv.Itoa`: for n of 0 or more, all digits, with no leading zero, reading back as n; 0 is exactly "0". For a negative n, a minus sign followed by the digits of -n, with no leading zero. |
| Support.CellName | pkg/spreadsheet/spreadsheetsupport.go:34-37 | The name starts with the column. For a row of 0 or more, the rest is non-empty, all digits, has no leading zero, and reads back as the row; for row 0 it is exactly "0". For a negative row, the rest is a minus sign followed by the digits of -row, with no leading zero. |
| Support.CellNameSplits | pkg/spreadsheet/spreadsheetsupport.go:35 | Take a column without digits and a row of 0 or more. Splitting the name at its first digit recovers the column, and the remainder parses back to the row. |
| Support.CellNameInjective | pkg/spreadsheet/spreadsheetsupport.go:35 | Distinct (column, row) pairs with digit-free columns and rows of 0 or more get distinct names. |
| Support.CellNameAccepted | pkg/spreadsheet/spreadsheetsupport.go:35 | A name built from column letters and a row of at least 1 is a reference the workbook accepts. |
| Support.WriteCell | pkg/spreadsheet/spreadsheetsupport.go:40-49 | Stores the text at exactly CellName(column, row) on the view's sheet, by way of SetCell. The call always succeeds for letter columns, rows of at least 1 and an existing sheet. |
| Support.WriteCellInt | pkg/spreadsheet/spreadsheetsupport.go:52-61 | Addresses CellName(column, row) and delegates to SetCellInt: the integer is written, then the FormatInt style is applied. |
| Support.WriteCellFloat | pkg/spreadsheet/spreadsheetsupport.go:64-73 | Addresses CellName(column, row) and delegates to SetCellFloat, so the cell records the float with precision 0. |
| Support.WriteCellDecimal | pkg/spreadsheet/spreadsheetsupport.go:76-85 | Addresses CellName(column, row) and always uses FormatMoney (code 2). The registered style is code 2, and on success it is the cell's style. |
| Support.WriteCellDate | pkg/spreadsheet/spreadsheetsupport.go:88-96 | Addresses CellName(column, row) and delegates to SetCellDate with FormatDate. |

## Left out

- `readData` (reader.go:50-79) opens the file, reads the rows and closes the file. It is file I/O: `ProcessData` takes the outcome of that read, rows plus error, as its argument.
- `Check` (called by every `Write*` helper) is not part of this model. The helpers return the setter's error instead of passing it to `Check`.
- The decimal library (`dec.Zero`, `dec.NewFromString`, `Decimal.String`) and the date library (`d.MinDate`, `d.NewFromString`, `Date.String`) are parameters. Results that depend on them are stated in terms of their answers.
- `SaveAs` and the handle's `Close` are I/O. `Save` and `Close` take their reported result as a parameter, and only the nil-view guard is modelled.
- Workbook.Handle.CellError: approximates the workbook library's reference parser as ASCII column letters followed by a row number of at least 1. It does not model `$` markers, the upper bounds on columns (XFD) and rows (1048576), or case-insensitive matching of references.
- Workbook.Handle.NewSheet: never fails, because the workbook library's sheet-name rules (length, forbidden characters) are left out.
- Writer.New: does not model a failing sheet creation (writer.go:81-84), because the model's NewSheet never fails.
- Writer.AddSheet: does not model a failing sheet creation (writer.go:150-151), for the same reason.
- Workbook.Handle.DeleteSheet: follows the workbook library's rule that the only remaining sheet is never deleted. That rule is why `New(f, "Sheet1")` keeps its sheet.
- Workbook.Handle.NewStyle: always appends a new style. Whether the library reuses an identical style internally does not affect what the writer does.
- Writer.SetCellFloat: the cell records the `float64` as its 64-bit pattern, together with the precision argument 0 that writer.go:188 passes to the workbook library. By that argument's documented meaning the library stores the value as text with no decimal places, rounded to a whole number (3.75 is stored as 4), so the fraction is lost from the file. The model does not state that rounding, because floating-point formatting is out of scope and the library's source is not part of this model.
- Go's `int` is 64 bits wide. Row numbers, column indices and integer cell values are unbounded here, which matters only beyond 2^63.
- `strings.TrimSpace` works on UTF-8 bytes. Strings here are sequences of Unicode characters, so invalid UTF-8 is not modelled. The white-space set is the full Unicode White_Space set, as `unicode.IsSpace` defines it.
- Calling a writer method through a nil pointer, or on a zero-valued view whose handle is nil, panics in Go. Views in the model always hold a handle, and only `Save` and `Close` take a possibly absent view, as their nil guards do.
- Concurrent use of views that share a handle is not modelled.

## Findings

| source | as written | input that shows it | evidently intended | confidence | as-written member | corrected member |
|---|---|---|---|---|---|---|
| pkg/spreadsheet/reader.go:94-100 | The empty-sheet error is recorded at line 95, but line 100 still reads `rows[0]`. | A sheet whose read returns zero rows and no error. | Return the "spreadsheet is empty" error and no snapshot. | High: the index is out of range for every empty slice (not executed). | Reader.ProcessDataAsWritten | Reader.ProcessData |
