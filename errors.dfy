/** Error values and the result shapes the package's Go functions return. */
module Errors {

  datatype Option<+T> = None | Some(value: T)

  /** A plain success-or-failure result, for operations that return no partial value on failure. */
  datatype Result<+T> = Ok(value: T) | Err(error: Error)

  /** Go's `(value, error)` pair: the value is returned even when the error is set. */
  datatype Outcome<+T> = Outcome(value: T, err: Option<Error>)

  /** The errors the package reports. Go carries them as messages; the model keeps what each message names. */
  datatype Error =
    | EmptyData                          // "spreadsheet is empty"
    | HeadingEmpty                       // "heading must not be empty"
    | HeadingNotFound(heading: string)   // "heading not found in headings: <heading>"
    | InvalidRow(row: int)               // "invalid row for spreadsheet: <row>"
    | EmptyFilename                      // "spreadsheet filename must not be an empty string"
    | EmptySheetname                     // "sheetname must not be an empty string"
    | EmptyCellName                      // "cell name must not be empty"
    | InvalidFormatIndex(index: int)     // "Invalid value for format index: <index>"
    | NilFile                            // "pointer to spreadsheet file is nil"
    | SheetNotFound(sheet: string)       // the workbook has no sheet of that name
    | InvalidCellRef(ref: string)        // the workbook cannot parse the cell reference
    | External(message: string)          // an error produced by a library or the file system
}
