/** The failures the engine can report.  Both revisions of the source raise
    Python exceptions; here every operation that can fail returns a `Result`
    (or an `Option<Error>` when it produces nothing but a state change). */
module Errors {

  /** One constructor per exception class the engine raises.  The legacy
      revision raises `DimensionError` for a unit mismatch (`IncompatibleUnits`)
      and for a unit where none is allowed (`ShouldBeUnitless`), and
      `UnumError` with its three messages for the other three kinds. */
  datatype Error =
    | NameConflict(symbol: string)   // a symbol registered twice
    | NonBasicUnit                   // a conversion target that is not "1 unit"
    | IncompatibleUnits              // units that matching cannot reconcile
    | ShouldBeUnitless               // a unit left where a pure number is needed
    | NoConversion                   // `converted()` on a unit without a definition
    | ZeroDivision                   // division by zero, or 0 to a negative power
    | NonIntegerExponent             // a unit raised to a non-integer power

  datatype Option<T> = None | Some(value: T)

  datatype Result<T> = Ok(value: T) | Err(error: Error)
}
