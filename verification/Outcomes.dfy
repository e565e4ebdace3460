/** What a call of the original can end in, and the usual optional value. */
module Outcomes {
  datatype Option<+T> = None | Some(value: T)

  /** The original aborts the process on a failed `assert!` or `unreachable!`.
      `Panic` stands for that; every caller propagates it with `:-`. */
  datatype Outcome<+T> = Ok(value: T) | Panic {
    predicate IsFailure() {
      Panic?
    }

    function PropagateFailure<U>(): Outcome<U>
      requires Panic?
    {
      Panic
    }

    function Extract(): T
      requires Ok?
    {
      value
    }
  }
}
