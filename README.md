# poltergeist in Dafny

A model of poltergeist's Rust-like error handling for Python. The model covers:

- the closed result type `Result = Ok | Err` with its operations `err`, `unwrap`, `unwrap_or` and `unwrap_or_else`;
- its custom equality and the hash that agrees with it;
- the capturing adapters `catch(*errors)` and `catch_async(*errors)`, which turn a function that returns or raises into one that returns a `Result`.

Files and modules:

- `python.dfy`, module `Python`: the parts of Python's runtime that the library observes.
  - `Option` stands for a value or `None`.
  - `Kind` is an exception class, given by its qualified name and its base classes.
  - `IsSubclass` is the subtype test of an `except` clause: membership in the method resolution order, reached through the bases (`Ancestors`).
  - `Exc` is an exception object: its class, its `args`, and a `State` holding three more fields: its identity, `__cause__` and `__context__`.
  - `Outcome` is how a call finishes: `Returned(v)` or `Raised(e)`.
  - The standard classes used below are `BaseException`, `Exception`, `ValueError`, `TypeError` and `asyncio.CancelledError`.
- `result.dfy`, module `Results`: `poltergeist/result.py`.
  - `Result<T> = Ok(value) | Err(error)` is the union at line 110. `Ok` and `Err` are the `__init__` of each class, and the datatype makes the union closed.
  - `Operand` is the right-hand side of `==`: a result, or any other object.
  - `HashKey` is the tuple that `__hash__` hashes.
- `decorator.py` is modelled by `decorator.dfy`, module `Adapters`.
  - `Capture` is the `try`/`except errors as e`/`return` logic that both wrappers share.
  - `Catch(errors, func)` is `catch(*errors)(func)`.
  - `CatchAsync(errors, func)` is `catch_async(*errors)(func)`.
- `result_tests.dfy`, module `ResultTests`: the expectations of `tests/test_result.py`, restated with the same values.
- `adapter_scenarios.dfy`, module `AdapterScenarios`: concrete capture, non-capture, success, async and cancellation cases for the adapters.

How Python callables are modelled:

- A synchronous callable is a total function `(W, A) -> (W, Outcome<T>)`. `W` is an abstract world state and `A` the call's arguments. The new `W` carries the call's side effects. This lets the model say that the wrapper calls `func` exactly once, with the same arguments. It also lets it say that `unwrap_or_else` never invokes `op` on `Ok`: the world is left exactly as it was.
- An async callable is modelled by what awaiting it does. That is the new world, then a `Task`: the values passed to the scheduler at each suspension point, followed by the final outcome.

What the code does at its edges:

- `catch()` accepts any tuple of classes. The empty tuple captures nothing (`EmptyCatchesNothing`). `BaseException` captures everything (`BaseExceptionCapturesAll`).
- `asyncio.CancelledError` is captured once `BaseException` or `CancelledError` is listed. Listing only `Exception` lets it through (`AdapterScenarios.CancellationScenarios`).
- `hash` raises `TypeError` for unhashable payloads or args. The model has no concrete hash (see below).

## Model

| member | source | states |
|---|---|---|
| `Python.IsSubclass` | poltergeist/decorator.py:36 | The subtype test of `except` holds exactly when the listed class is in the raised class's method resolution order, the set of the class and all ancestors through its bases. |
| `Python.SubclassReflexive` | poltergeist/decorator.py:36 | Every exception class matches an `except` clause that names it. |
| `Python.SubclassTransitive` | poltergeist/decorator.py:36 | A subclass of a subclass of a listed class is caught too: the MRO test is transitive. |
| `Python.StandardKinds` | poltergeist/decorator.py:36 | `ValueError` derives from `Exception` and `BaseException`. `Exception` is not a `ValueError`. `ValueError` and `TypeError` are unrelated. `CancelledError` derives from `BaseException` but not from `Exception`. |
| `Results.ErrOf` | poltergeist/result.py:87-89 | `err()` gives `None` exactly for `Ok` (lines 42-43). For `Err` it gives the held exception. |
| `Results.Unwrap` | poltergeist/result.py:91-93 | `unwrap()` returns exactly when the result is `Ok`, and returns its payload (lines 45-47). On `Err` it raises the held exception object itself. |
| `Results.UnwrapOr` | poltergeist/result.py:101-103 | `unwrap_or(default)` with `default` omitted meaning `None`: `Ok` gives its payload whatever the default (lines 55-57); `Err` gives the default. |
| `Results.UnwrapOrElse` | poltergeist/result.py:105-107 | `Ok` returns its payload and leaves the world untouched, so `op` is never invoked (lines 59-61). `Err` is exactly one call `op(error)`, including a raise from `op`. |
| `Results.Equals` | poltergeist/result.py:77-82 | A result never equals a non-result. `Ok` equals exactly an `Ok` with an equal payload (lines 36-37). `Err` equals exactly an `Err` whose exception has the identical class and equal `args`. Equal results always share a variant. |
| `Results.HashKeyOf` | poltergeist/result.py:84-85 | `__hash__` hashes `("Ok", value)` for `Ok` (lines 39-40) and `("Err", type, args)` for `Err`. The key uses nothing else of the exception. Its agreement with `==` is `HashAgreesWithEquals`. |
| `Results.HashAgreesWithEquals` | poltergeist/result.py:84-85 | Two results are `==` if and only if their hash tuples (`("Ok", v)` at line 40, `("Err", type, args)`) are equal, so equal results hash alike. |
| `Results.EqualsReflexive` | poltergeist/result.py:77-82 | Every result equals itself. |
| `Results.EqualsSymmetric` | poltergeist/result.py:77-82 | `a == b` exactly when `b == a`. |
| `Results.EqualsTransitive` | poltergeist/result.py:77-82 | `a == b` and `b == c` give `a == c`. |
| `Results.VariantsNeverEqual` | poltergeist/result.py:36-37 | An `Ok` never equals an `Err`, in either order. |
| `Results.ErrEqualsIgnoresExtraState` | poltergeist/result.py:77-82 | `Err` of two exception objects differing only in identity, cause or context are equal. |
| `Results.ErrEqualsNeedsExactKind` | poltergeist/result.py:80 | An exception of a proper subclass and one of its superclass give unequal `Err`s, whatever their `args`. |
| `Results.ErrOfAgreesWithUnwrap` | poltergeist/result.py:87-93 | `err()` is `None` exactly when `unwrap()` returns. `err()` is `e` exactly when `unwrap()` raises `e`. |
| `Results.FallbacksAgreeWithUnwrap` | poltergeist/result.py:101-107 | `unwrap_or(d)` is what `unwrap()` returns, or `d` where `unwrap()` would raise. `unwrap_or_else(op)` calls `op` exactly where `unwrap()` would raise, on the exception it would raise (Ok side at lines 55-61). |
| `Results.UnwrapOrElseRepeatable` | poltergeist/result.py:105-107 | With an `op` that changes no state, a second `unwrap_or_else` gives the same answer as the first. |
| `Adapters.Matches` | poltergeist/decorator.py:36 | `except errors` tries the tuple in order. It matches exactly when the raised class is a subclass of some listed class. |
| `Adapters.Capture` | poltergeist/decorator.py:34-38 | A return `v` becomes `Ok(v)`. An exception of a listed class or its subclass becomes `Err` of that same object. Any other exception is raised again unchanged. |
| `Adapters.Catch` | poltergeist/decorator.py:26-42 | The wrapper's effect on the world is that of one call of `func` with the same world and arguments. Its outcome is `Ok` of the return, `Err` of a listed exception, or a re-raise of an unlisted one. |
| `Adapters.CatchAsync` | poltergeist/decorator.py:45-64 | Awaiting the wrapper has the effect of awaiting `func` once with the same arguments, with the same suspension points. The awaited outcome is mapped as in `catch`. |
| `Adapters.EmptyCatchesNothing` | poltergeist/decorator.py:26-38 | With no listed classes, returns still become `Ok` and every exception propagates. |
| `Adapters.UnwrapUndoesCapture` | poltergeist/decorator.py:34-38 | If the wrapper produces a result, `unwrap()` on it reproduces `func`'s own outcome (value, or a raise of the identical exception). If the wrapper raises, it raises `func`'s exception. |
| `Adapters.CaptureMonotone` | poltergeist/decorator.py:36 | If every listed class is a subclass of some class in a wider list, whatever the first list captures is captured the same way by the wider one. |
| `Adapters.BaseExceptionCapturesAll` | poltergeist/decorator.py:36-37 | Listing `BaseException` captures every exception. |
| `Adapters.AsyncParity` | poltergeist/decorator.py:55-60 | For equal outcomes and worlds, `catch_async`'s wrapper ends in the same world with the same result or raise as `catch`'s. |
| `ResultTests.TestOk` | tests/test_result.py:11-24 | For `Ok("abc")`: `err()` is `None`. `unwrap()`, `unwrap_or()`, `unwrap_or("aaa")` and `unwrap_or_else(op)` give `"abc"`. |
| `ResultTests.TestOkEq` | tests/test_result.py:27-32 | `Ok("abc")` equals `Ok("abc")`. It differs from `Ok("aaa")`, from `Err(Exception("abc"))` and from `"abc"`. |
| `ResultTests.TestError` | tests/test_result.py:40-63 | For `Err(ValueError("abc"))`: `err()` is that `ValueError` with args `("abc",)`, and `unwrap()` raises it. `unwrap_or()` is `None` and `unwrap_or("aaa")` is `"aaa"`. The formatting callback gives `"Exception is abc"`. |
| `ResultTests.TestErrEq` | tests/test_result.py:66-73 | `Err(ValueError("abc"))` equals an `Err` of another `ValueError("abc")` object. It differs from `Err(ValueError("aaa"))`, `Err(ValueError("abc", 1))`, `Err(Exception("abc"))`, `Ok("abc")` and `"abc"`. |
| `AdapterScenarios.SyncScenarios` | poltergeist/decorator.py:31-40 | A `ValueError("abc")` is captured by `catch(ValueError)` and by `catch(Exception)`. It is re-raised by `catch(TypeError)` and by `catch()`. A function returning `"abc"` gives `Ok("abc")`, and its one side effect happens once. |
| `AdapterScenarios.AsyncScenarios` | poltergeist/decorator.py:53-62 | Through one suspension point, `catch_async(ValueError)` captures a `ValueError("abc")` and `catch_async(TypeError)` re-raises it. A function that returns `"abc"` after suspending gives `Ok("abc")` after a single world step. The suspension point is passed on in every case. |
| `AdapterScenarios.CancellationScenarios` | poltergeist/decorator.py:56-59 | `catch_async(Exception)` lets a `CancelledError` through. `catch_async(BaseException)` captures it as `Err`. |

## Left out

- `__repr__` of `Ok` and `Err`: text formatting that relies on Python's `repr` of arbitrary payloads.
- Concrete hash numbers and Python's `hash`. Only the hash tuple and its agreement with `==` are modelled. The `TypeError` that `hash` raises for an unhashable payload or argument is not modelled.
- Typing machinery (TypeVars, variance, `@overload`, `@final`, `__slots__`, `__match_args__`, ParamSpec): it has no runtime behaviour. Pattern matching on `Ok(v)` / `Err(e)` is Dafny's `match` on the datatype.
- `functools.wraps` metadata copying: introspection only.
- Async scheduling, interleaving with other tasks and the cancellation mechanism itself. Only what awaiting the function yields and resumes with is modelled.
- Class identity is modelled as equality of qualified name and bases. Two distinct classes with the same qualified name and bases are one class in the model.
- `Results.Unwrap`: `raise` changes the held exception object in place. Raised inside an `except` block it sets `__context__` to the exception being handled, and it extends `__traceback__`. Because the `Err` and the raised exception are one object, the `Err` sees the change too. The model's exception is an immutable value, so this contract does not follow that change.
- `Adapters.Capture`: an exception that propagates through `wrapper` gains the wrapper's frame in its `__traceback__`. The captured `Err` holds an object whose traceback includes the wrapped call. The model does not follow these tracebacks. `Catch` and `CatchAsync` inherit this.
- `Exc`: `__traceback__`, `__notes__` and user-set attributes are not modelled. `State` holds only identity, `__cause__` and `__context__`.
- `errors` entries that are not exception classes (Python raises `TypeError` when matching against them), and nested tuples inside `errors`.
- `Err` holding a non-exception value: Python does not check this at runtime, and such a value would fail in `__eq__` and `__hash__`. The model's `Err` always holds an exception.
- `Results.Equals`: payloads and exception arguments are compared with Dafny's equality. It does not model a user-defined or raising `__eq__`, a non-reflexive one (`nan`), or Python's cross-type equalities (`1 == 1.0 == True`). Exception arguments are limited to strings and integers.
- `Results.UnwrapOr`: the default and the result range over the payload type (`Option<T>`, where `None` is Python's `None`) rather than a separate default type `D`.
- `Results.UnwrapOrElse`: `op`'s result type is the payload type rather than a separate type `D`.
- `Adapters.Catch`: `catch(*errors)` and the returned decorator are combined into one function of `errors` and `func`. A Python callable is total and deterministic given the world and its arguments.
- `ResultTests.TestError`: `str(e)` inside the formatting callback is modelled only for exceptions whose one argument is a string, the case the test uses.
- `poltergeist/__init__.py`: re-exports only.
