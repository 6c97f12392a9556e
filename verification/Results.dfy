/** The two outcome types used by every module: a value that may be absent, and a
    computation that may throw. */
module Results {

  datatype Option<+T> = None | Some(value: T) {

    /** `value ?? fallback` */
    function GetOr(fallback: T): T {
      if Some? then value else fallback
    }
  }

  /** `Err` stands for a thrown exception; `:-` propagates it. */
  datatype Result<+T, +E> = Ok(value: T) | Err(error: E) {

    predicate IsFailure() {
      Err?
    }

    function PropagateFailure<U>(): Result<U, E>
      requires Err?
    {
      Err(error)
    }

    function Extract(): T
      requires Ok?
    {
      value
    }
  }
}
