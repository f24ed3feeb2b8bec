/** Failure-carrying results for the operations that raise in the source. */
module Wrappers {

  /** The exceptions the modelled code can raise. */
  datatype Error =
    | ZeroDivision    // division by a zero total area (ZeroDivisionError)
    | InvalidCupType  // a fixture type code other than 1 or 2 (ValueError)
    | ZeroTotalArea   // the selected fixtures have no area (ValueError)
    | MissingKey      // a fixture type absent from a dimension table (KeyError)

  datatype Result<T> = Ok(value: T) | Err(error: Error)
}
