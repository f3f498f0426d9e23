/** Failure-carrying wrappers shared by the rest of the model. */
module Wrappers {

  /** A value that may be absent; stands for Python's `None` on optional arguments. */
  datatype Option<+T> = None | Some(value: T)

  /** Either a computed value or the exception raised instead of it. */
  datatype Result<+R, +E> = Success(value: R) | Failure(error: E)

  /** The contents of an Option as a sequence of at most one element. */
  function OptionToSeq<T>(o: Option<T>): seq<T> {
    match o
    case None => []
    case Some(v) => [v]
  }
}
