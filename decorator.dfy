/** The capturing adapters `catch(*errors)` and `catch_async(*errors)`: they
    turn a function that returns or raises into one that returns a `Result`,
    capturing only the listed exception classes and their subclasses.

    A synchronous Python callable is modelled as a function from the world
    state and its arguments to the new world state and its outcome, so that
    its side effects are visible. An asynchronous one is modelled by what
    awaiting it does: the new world state, the suspension points it passes to
    the scheduler, and the outcome it resumes with. */
module Adapters {
  import opened Python
  import opened Results

  /** Awaiting a coroutine: the values yielded to the scheduler at its
      suspension points, in order, then its final outcome. */
  datatype Task<Y, T> = Task(suspensions: seq<Y>, outcome: Outcome<T>)

  /** `k` is a subclass of some listed class. */
  predicate CaughtBy(errors: seq<Kind>, k: Kind)
  {
    exists i :: 0 <= i < |errors| && IsSubclass(k, errors[i])
  }

  /** An `except errors` clause with `errors` a tuple of classes: Python
      tries the classes in order and matches at the first one the raised
      exception's class is a subclass of. This ordered, first-match test
      catches exactly the subclasses of the listed classes. */
  function Matches(errors: seq<Kind>, k: Kind): (b: bool)
    ensures b <==> CaughtBy(errors, k)
  {
    if |errors| == 0 then false
    else if IsSubclass(k, errors[0]) then true
    else
      var rest := Matches(errors[1..], k);
      assert forall i :: 1 <= i < |errors| ==> errors[i] == errors[1..][i - 1];
      rest
  }

  /** The `try`/`except errors as e`/`return` logic shared by both wrappers,
      applied to how the wrapped call finished: a returned value `v` becomes
      `Ok(v)`; a raised exception of a listed class (or subclass) becomes
      `Err` of that very exception object; any other exception is raised
      again unchanged and no result is produced. */
  function Capture<T>(errors: seq<Kind>, o: Outcome<T>): (r: Outcome<Result<T>>)
    ensures o.Returned? ==> r == Returned(Ok(o.value))
    ensures o.Raised? && CaughtBy(errors, o.error.kind) ==> r == Returned(Err(o.error))
    ensures o.Raised? && !CaughtBy(errors, o.error.kind) ==> r == Raised(o.error)
  {
    match o
    case Returned(v) => Returned(Ok(v))
    case Raised(e) =>
      if Matches(errors, e.kind) then Returned(Err(e)) else Raised(e)
  }

  /** `catch(*errors)(func)`: the wrapper calls `func` once, with the
      arguments and in the world it was given, so its effect on the world
      is exactly that one call's; it returns `Ok` of what `func` returned,
      `Err` of what `func` raised when that is of a listed class, and
      otherwise raises what `func` raised. */
  function Catch<W(!new), A(!new), T>(errors: seq<Kind>, func: (W, A) -> (W, Outcome<T>)): (wrapper: (W, A) -> (W, Outcome<Result<T>>))
    ensures forall w, a :: wrapper(w, a).0 == func(w, a).0
    ensures forall w, a :: func(w, a).1.Returned? ==> wrapper(w, a).1 == Returned(Ok(func(w, a).1.value))
    ensures forall w, a :: func(w, a).1.Raised? && CaughtBy(errors, func(w, a).1.error.kind) ==>
              wrapper(w, a).1 == Returned(Err(func(w, a).1.error))
    ensures forall w, a :: func(w, a).1.Raised? && !CaughtBy(errors, func(w, a).1.error.kind) ==>
              wrapper(w, a).1 == Raised(func(w, a).1.error)
  {
    (w, a) => var run := func(w, a); (run.0, Capture(errors, run.1))
  }

  /** `catch_async(*errors)(func)`: awaiting the wrapper awaits `func` once,
      with the same arguments, passes on exactly its suspension points (the
      adapter adds none), and maps the outcome it resumes with as `catch`
      does. */
  function CatchAsync<W(!new), A(!new), Y, T>(errors: seq<Kind>, func: (W, A) -> (W, Task<Y, T>)): (wrapper: (W, A) -> (W, Task<Y, Result<T>>))
    ensures forall w, a :: wrapper(w, a).0 == func(w, a).0
    ensures forall w, a :: wrapper(w, a).1.suspensions == func(w, a).1.suspensions
    ensures forall w, a :: func(w, a).1.outcome.Returned? ==>
              wrapper(w, a).1.outcome == Returned(Ok(func(w, a).1.outcome.value))
    ensures forall w, a :: func(w, a).1.outcome.Raised? && CaughtBy(errors, func(w, a).1.outcome.error.kind) ==>
              wrapper(w, a).1.outcome == Returned(Err(func(w, a).1.outcome.error))
    ensures forall w, a :: func(w, a).1.outcome.Raised? && !CaughtBy(errors, func(w, a).1.outcome.error.kind) ==>
              wrapper(w, a).1.outcome == Raised(func(w, a).1.outcome.error)
  {
    (w, a) =>
      var run := func(w, a);
      (run.0, Task(run.1.suspensions, Capture(errors, run.1.outcome)))
  }

  /** With no classes listed nothing is captured: returns become `Ok`, and
      every raised exception propagates. */
  lemma EmptyCatchesNothing<T>(o: Outcome<T>)
    ensures o.Returned? ==> Capture([], o) == Returned(Ok(o.value))
    ensures o.Raised? ==> Capture([], o) == Raised(o.error)
  {
  }

  /** Unwrapping what the wrapper returns gives back exactly what the
      wrapped call did: its value, or a raise of the identical exception. */
  lemma UnwrapUndoesCapture<T>(errors: seq<Kind>, o: Outcome<T>)
    ensures Capture(errors, o).Returned? ==> Unwrap(Capture(errors, o).value) == o
    ensures Capture(errors, o).Raised? ==> Capture(errors, o) == Raised(o.error)
  {
  }

  /** The adapter never widens what it catches: listing classes that are all
      covered by a second list captures no more than the second list does,
      and in the same way. */
  lemma {:induction false} CaptureMonotone<T>(errors: seq<Kind>, wider: seq<Kind>, o: Outcome<T>)
    requires forall i :: 0 <= i < |errors| ==> CaughtBy(wider, errors[i])
    ensures Capture(errors, o).Returned? ==> Capture(wider, o) == Capture(errors, o)
  {
    if o.Raised? && CaughtBy(errors, o.error.kind) {
      var i :| 0 <= i < |errors| && IsSubclass(o.error.kind, errors[i]);
      var j :| 0 <= j < |wider| && IsSubclass(errors[i], wider[j]);
      SubclassTransitive(o.error.kind, errors[i], wider[j]);
    }
  }

  /** Listing `BaseException` captures every exception, since every
      exception class derives from it. */
  lemma BaseExceptionCapturesAll<T>(errors: seq<Kind>, e: Exc)
    requires IsSubclass(e.kind, BaseExceptionKind)
    requires BaseExceptionKind in errors
    ensures Capture<T>(errors, Raised(e)) == Returned(Err(e))
  {
  }

  /** The async wrapper, resumed with the same world and outcome as the sync
      wrapper's call, ends in the same world with the same result or raise. */
  lemma AsyncParity<W(!new), A(!new), Y, T>(errors: seq<Kind>, f: (W, A) -> (W, Outcome<T>), g: (W, A) -> (W, Task<Y, T>), w: W, a: A)
    requires g(w, a).0 == f(w, a).0 && g(w, a).1.outcome == f(w, a).1
    ensures CatchAsync(errors, g)(w, a).0 == Catch(errors, f)(w, a).0
    ensures CatchAsync(errors, g)(w, a).1.outcome == Catch(errors, f)(w, a).1
  {
  }
}
