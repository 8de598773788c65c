/** Result types shared by every model in this project. */
module Prelude {

  datatype Option<+T> = None | Some(value: T)

  /** The value returned by an operation, or the reason the source raises. */
  datatype Result<+T, +E> = Ok(value: T) | Err(reason: E) {
    predicate IsFailure() { Err? }
    function PropagateFailure<U>(): Result<U, E> requires Err? { Err(reason) }
    function Extract(): T requires Ok? { value }
  }

  /** What a step of a worker process leaves behind: `Dead` is a kill, or an exception that ends the worker. */
  datatype Outcome<+T> = Alive(value: T) | Dead {
    predicate IsFailure() { Dead? }
    function PropagateFailure<U>(): Outcome<U> requires Dead? { Dead }
    function Extract(): T requires Alive? { value }
  }

  /** The answer of an external call; `Raised` is an exception out of it. */
  datatype Reply<+T> = Returned(value: T) | Raised

  function Max(a: int, b: int): int { if a < b then b else a }
  function Min(a: int, b: int): int { if a < b then a else b }

  lemma SubsetSize<T>(a: set<T>, b: set<T>)
    requires a <= b
    ensures |a| <= |b|
  {
    assert b == a + (b - a);
  }
}
