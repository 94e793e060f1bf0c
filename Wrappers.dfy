/** Option and Result, used for Java's null and for constructors that throw. */
module Wrappers {

  /** A value that Java allows to be null: None stands for null. */
  datatype Option<+T> = None | Some(value: T)

  /** The outcome of an operation that either produces a value or throws. */
  datatype Result<+R, +E> = Success(value: R) | Failure(error: E)

  /** The two exception kinds the tracker raises. UnsupportedOperation belongs to
      the state transitions, which have no implementation and are not modelled. */
  datatype ErrorKind = IllegalArgument | UnsupportedOperation
}
