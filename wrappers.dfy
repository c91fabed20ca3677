/** Optional values, results and the platform's error value, shared by every module. */
module Wrappers {

  /** Swift's `T?`. */
  datatype Option<+T> = None | Some(value: T)

  /** The outcome of a Swift call marked `throws`: a value, or the error it threw. */
  datatype Result<+T> = Success(value: T) | Failure(error: Error)

  /** A Swift `Error`; only the text of `localizedDescription` is observable here. */
  datatype Error = Error(localizedDescription: string)

  /** `Optional.map`: applies `f` to a present value. */
  function MapOption<T, U>(o: Option<T>, f: T -> U): Option<U>
  {
    match o
    case None => None
    case Some(v) => Some(f(v))
  }
}
