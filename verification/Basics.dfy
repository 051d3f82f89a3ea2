/** Shared vocabulary: optional values, and the three ways a modelled call can end. */
module Basics {

  datatype Option<+T> = None | Some(value: T) {
    function GetOr(default: T): T {
      match this
      case Some(v) => v
      case None => default
    }
  }

  /** Why a call threw. Messages are not modelled, only which check refused. */
  datatype Fault =
    | RunExists
    | RunNotFound
    | UnsupportedTransaction
    | TransactionIdentity
    | CorruptLog
    | ConflictingEvent
    | SequenceGap
    | StaleManifest
    | UnknownTask
    | LeaseHeld(owner: string)
    | LeaseLost(owner: string)
    | GitFailure
    | ProcessFailure
    | InvalidPlan
    | EvidenceFailure
    | StoreFailure

  /**
    * The end of a call: it returned, it threw an exception that a caller may catch, or the
    * process died. Only durable state survives `Crashed`.
    */
  datatype Exit<+T> = Done(value: T) | Thrown(fault: Fault) | Crashed {
    /** A file operation failed, or the process died: the call may have got anywhere. */
    predicate BrokeOff() {
      Crashed? || (Thrown? && fault == StoreFailure)
    }

    predicate IsFailure() {
      !Done?
    }

    function PropagateFailure<U>(): Exit<U>
      requires !Done?
    {
      match this
      case Thrown(fault) => Thrown(fault)
      case Crashed => Crashed
    }

    function Extract(): T
      requires Done?
    {
      value
    }
  }
}
