/** The result of a call that may throw. */
module Results {
  datatype Result<+T> = Done(value: T) | Threw {
    predicate IsFailure() { Threw? }
    function PropagateFailure<U>(): Result<U> requires Threw? { Threw }
    function Extract(): T requires Done? { value }
  }
}
