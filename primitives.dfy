/** Failure-compatible wrappers and the scalar types shared by every layer. */
module Primitives {

  /** An identifier produced by `uuid4`; the model only needs equality. */
  type Uuid = int

  /** A reading of `datetime.utcnow`, as an integer instant. */
  type Timestamp = int

  /** The identity of one pooled database connection. */
  type ConnId = nat

  datatype Option<+T> = None | Some(value: T)

  datatype Result<+T, +E> = Success(value: T) | Failure(error: E)

  /** The outcome of an operation that returns nothing but may raise. */
  datatype Outcome<+E> = Pass | Fail(error: E)
}
