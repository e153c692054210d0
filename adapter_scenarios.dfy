/** Concrete uses of the capturing adapters: capture, non-capture, success,
    capture through a superclass, the same through one suspension point for
    the async adapter, and what happens to task cancellation. The world is an
    `int` counter and the arguments a sequence of `Arg`s. */
module AdapterScenarios {
  import opened Python
  import opened Results
  import opened Adapters

  const Abc := Exc(ValueErrorKind, [Str("abc")], State(7, None, None))

  /** A function that raises `ValueError("abc")` and changes nothing. */
  function RaisesAbc(w: int, a: seq<Arg>): (int, Outcome<string>)
  {
    (w, Raised(Abc))
  }

  /** A function that bumps the world counter and returns `"abc"`. */
  function ReturnsAbc(w: int, a: seq<Arg>): (int, Outcome<string>)
  {
    (w + 1, Returned("abc"))
  }

  /** An async function that suspends once (yielding 0), then raises
      `ValueError("abc")`. */
  function SuspendsThenRaises(w: int, a: seq<Arg>): (int, Task<int, string>)
  {
    (w, Task([0], Raised(Abc)))
  }

  /** An async function that suspends once (yielding 0), bumps the world
      counter and returns `"abc"`. */
  function SuspendsThenReturns(w: int, a: seq<Arg>): (int, Task<int, string>)
  {
    (w + 1, Task([0], Returned("abc")))
  }

  /** An async function that is cancelled at its first suspension point. */
  function Cancelled(w: int, a: seq<Arg>): (int, Task<int, string>)
  {
    (w, Task([0], Raised(Exc(CancelledErrorKind, [], State(8, None, None)))))
  }

  lemma SyncScenarios(w: int, a: seq<Arg>)
    ensures Catch([ValueErrorKind], RaisesAbc)(w, a) == (w, Returned(Err(Abc)))
    ensures Catch([ExceptionKind], RaisesAbc)(w, a) == (w, Returned(Err(Abc)))
    ensures Catch([TypeErrorKind], RaisesAbc)(w, a) == (w, Raised(Abc))
    ensures Catch([], RaisesAbc)(w, a) == (w, Raised(Abc))
    ensures Catch([ValueErrorKind], ReturnsAbc)(w, a) == (w + 1, Returned(Ok("abc")))
  {
    StandardKinds();
    assert IsSubclass(Abc.kind, [ValueErrorKind][0]);
    assert IsSubclass(Abc.kind, [ExceptionKind][0]);
  }

  lemma AsyncScenarios(w: int, a: seq<Arg>)
    ensures CatchAsync([ValueErrorKind], SuspendsThenRaises)(w, a) == (w, Task([0], Returned(Err(Abc))))
    ensures CatchAsync([TypeErrorKind], SuspendsThenRaises)(w, a) == (w, Task([0], Raised(Abc)))
    ensures CatchAsync([ValueErrorKind], SuspendsThenReturns)(w, a) == (w + 1, Task([0], Returned(Ok("abc"))))
  {
    StandardKinds();
    assert IsSubclass(Abc.kind, [ValueErrorKind][0]);
  }

  /** Catching `Exception` lets a cancellation through, but the adapter
      captures it like any other exception once `BaseException` is listed. */
  lemma CancellationScenarios(w: int, a: seq<Arg>)
    ensures CatchAsync([ExceptionKind], Cancelled)(w, a).1.outcome == Raised(Cancelled(w, a).1.outcome.error)
    ensures CatchAsync([BaseExceptionKind], Cancelled)(w, a).1.outcome == Returned(Err(Cancelled(w, a).1.outcome.error))
  {
    StandardKinds();
    assert IsSubclass(CancelledErrorKind, [BaseExceptionKind][0]);
  }
}
