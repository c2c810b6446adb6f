/** Error taxonomy of the pose container and a failure-compatible result
    type, so that every error path of an operator is a value rather than a
    precondition. */
module Results {

  /** Why an operation on a pose container is refused. */
  datatype Error =
    | InvalidGroupElement  // a constructor was handed a matrix outside the group
    | DimensionMismatch    // operand kinds or matrix/vector sizes differ
    | BroadcastMismatch    // both operands hold more than one element, in unequal numbers
    | IndexOutOfRange      // element access outside [0, length)
    | EmptyContainer       // a container was to be built from no elements
    | ZeroDivision         // division of the entries by the scalar 0
    | Unsupported          // an operand combination the operator does not define

  datatype Result<+T> = Ok(value: T) | Err(error: Error) {

    predicate IsFailure() {
      Err?
    }

    function PropagateFailure<U>(): Result<U>
      requires Err?
    {
      Err(error)
    }

    function Extract(): T
      requires Ok?
    {
      value
    }
  }
}
