/** Failure-carrying result types shared by every module of the model.
    A Rust `panic!`, `todo!()` or failed `unwrap()` aborts the compiler; the
    model turns each of them into a `Panic` value that callers pass upwards. */
module Wrappers {

  datatype Option<+T> = None | Some(value: T)

  /** The outcome of an operation that can abort the compiler. `Diverged` is
      produced only by operations that carry a step budget, when the budget
      runs out before the source loop would have ended. */
  datatype Outcome<+T> = Ok(value: T) | Panic(reason: string) | Diverged
  {
    predicate IsFailure() {
      !Ok?
    }

    function PropagateFailure<U>(): Outcome<U>
      requires !Ok?
    {
      match this
      case Panic(r) => Panic(r)
      case Diverged => Diverged
    }

    function Extract(): T
      requires Ok?
    {
      value
    }
  }
}
