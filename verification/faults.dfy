/**
 * Failures of awaited calls to Redis, the problem service or Kafka. A handler's awaited
 * calls are numbered in the order it makes them; `FailsAt(n)` makes call `n` throw and
 * `NoFault` lets every call succeed.
 */
module Faults {
  datatype Fault = NoFault | FailsAt(call: nat)

  /** Whether call number `n` throws. */
  predicate Throws(fault: Fault, n: nat) {
    fault == FailsAt(n)
  }

  /** Whether calls `0 .. n - 1` all return, so that the caller reaches call `n`. */
  predicate Reaches(fault: Fault, n: nat) {
    !(fault.FailsAt? && fault.call < n)
  }
}
