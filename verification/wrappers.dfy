/** Failure-compatible wrappers shared by the whole model, and the Java
    exceptions of the generator written as values. */
module Wrappers {

  datatype Option<+T> = None | Some(value: T) {
    function GetOr(default: T): T {
      if Some? then value else default
    }
  }

  /** The exceptions the generator lets escape, as values. */
  datatype Error =
    | IllegalArgument(message: string)   // Guava checkArgument, IllegalArgumentException
    | NullPointer                        // a null dereference or unboxing
    | ClassCast                          // an unchecked cast of a catalog value
    | NumberFormat                       // Integer.parseInt of a non-digit
    | IndexOutOfBounds                   // charAt, array store or array index
    | EmptyChoice                        // a random element of an empty collection
    | BadRange                           // a random number with min > max
    | NegativeArraySize                  // an array allocated with a negative length

  datatype Result<+T> = Success(value: T) | Failure(error: Error) {
    predicate IsFailure() { Failure? }

    function PropagateFailure<U>(): Result<U>
      requires Failure?
    {
      Failure(error)
    }

    function Extract(): T
      requires Success?
    {
      value
    }
  }

  /** The result of a step that changes state and returns nothing. */
  datatype Outcome = Pass | Fail(error: Error) {
    predicate IsFailure() { Fail? }

    function PropagateFailure<U>(): Result<U>
      requires Fail?
    {
      Failure(error)
    }
  }
}
