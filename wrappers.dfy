/** Missing values and raised errors. */
module Wrappers {

  /** A cell or conversion result that may be missing (pandas' NaN / NaT). */
  datatype Option<+T> = None | Some(value: T)

  /** The outcome of a step that may raise an exception instead of returning. */
  datatype Result<+R, +E> = Success(value: R) | Failure(error: E)
}
