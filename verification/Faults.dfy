/** The ways a call to a store, a queue or a model can end. */
module Faults {
  /**
    An exception, the run's deadline, or the death of the worker can each fall before the effect
    or after it.  Only an exception can be caught by best-effort code; after a death nothing more
    is written at all.
   */
  datatype Fault = Fine | Raise(applied: bool) | Deadline(applied: bool) | Crash(applied: bool)

  datatype Signal = Proceed | Raised | TimedOut | Dead

  function Strike(f: Fault): Signal {
    match f
    case Fine => Proceed
    case Raise(_) => Raised
    case Deadline(_) => TimedOut
    case Crash(_) => Dead
  }

  predicate Applied(f: Fault) {
    f.Fine? || f.applied
  }
}
