/** Option and Result: the model's rendering of Java's null and of thrown exceptions. */
module Wrappers {

  /** None stands for a Java null reference. */
  datatype Option<+T> = None | Some(value: T)

  /** Failure stands for an exception thrown by the modelled code. */
  datatype Result<+R, +E> = Success(value: R) | Failure(error: E)

  /** The elements of a Java varargs array, which may be null: a null array holds nothing. */
  function ElementsOf<T>(o: Option<seq<T>>): seq<T>
  {
    match o
    case None => []
    case Some(s) => s
  }
}
