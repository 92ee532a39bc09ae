/** Option and Result types shared by the CODE128 modules, and the error conditions
    the barcode code raises. */
module Wrappers {

  datatype Option<+T> = None | Some(value: T)

  datatype Result<+R, +E> = Success(value: R) | Failure(error: E)

  /** The conditions under which the barcode functions throw. */
  datatype Error =
    | UnsupportedChar(index: nat)     // a code unit outside 32..127, with its 0-based index
    | InvalidPatternIndex(code: int)  // a symbol code with no entry in the pattern table
    | MissingRgb                      // opts.rgb is not a function
}
