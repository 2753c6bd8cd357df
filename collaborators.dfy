/**
 * The decimal and date libraries the package consumes, reduced to the operations it calls.
 * Each is a record of functions, so every operation that uses a library takes it as a parameter
 * and its results are stated in terms of that library's answers.
 */
module Collaborators {
  import opened Errors

  /** shopspring/decimal: `dec.Zero`, `dec.NewFromString` and `Decimal.String`. */
  datatype DecimalLib<!D> = DecimalLib(zero: D, parse: string -> Outcome<D>, render: D -> string)

  /** waydate: `d.MinDate`, `d.NewFromString` and `Date.String`. */
  datatype DateLib<!T> = DateLib(minDate: T, parse: string -> Outcome<T>, render: T -> string)
}
