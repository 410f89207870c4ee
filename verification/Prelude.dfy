/** Option, Result and Outcome: the shapes that stand for Python's None and for its exceptions. */
module Prelude {

  datatype Option<+T> = None | Some(value: T)

  datatype Result<+T, +E> = Ok(value: T) | Err(error: E) {
    predicate IsFailure() { Err? }

    function PropagateFailure<U>(): Result<U, E>
      requires Err?
    {
      Err(error)
    }

    function Extract(): T
      requires Ok?
    {
      value
    }
  }

  /** How a call that returns nothing ended. */
  datatype Outcome<+E> = Done | Raise(error: E) {
    predicate IsFailure() { Raise? }

    function PropagateFailure(): Outcome<E>
      requires Raise?
    {
      this
    }
  }

  lemma TailMultiset<T>(s: seq<T>)
    requires s != []
    ensures multiset(s[1..]) == multiset(s) - multiset{s[0]}
  {
    assert s == [s[0]] + s[1..];
  }
}
