/** The part of Python's runtime that the result types and the capturing
    adapters observe: the `None` marker, exception classes and their
    inheritance, exception objects, and the two ways a call can finish. */
module Python {

  /** Python's `None` (absent), or a present value. */
  datatype Option<+T> = None | Some(value: T)

  /** An exception class: its qualified name and its direct base classes in
      declaration order. Two kinds are the same class (`type(x) is type(y)`)
      exactly when they are equal as values. */
  datatype Kind = Kind(name: string, bases: seq<Kind>)

  /** The classes of the method resolution order of `k`, as a set: `k`
      itself and every ancestor reachable through the bases. */
  ghost function Ancestors(k: Kind): set<Kind>
    decreases k
  {
    {k} + (set i, x | 0 <= i < |k.bases| && x in Ancestors(k.bases[i]) :: x)
  }

  /** The subtype test of an `except` clause: whether `of` occurs in the
      method resolution order of `k`, searched through the bases. */
  function IsSubclass(k: Kind, of: Kind): (b: bool)
    ensures b <==> of in Ancestors(k)
    decreases k
  {
    k == of || exists i :: 0 <= i < |k.bases| && IsSubclass(k.bases[i], of)
  }

  lemma SubclassReflexive(k: Kind)
    ensures IsSubclass(k, k)
  {
  }

  /** A subclass of a subclass is a subclass. */
  lemma {:induction false} SubclassTransitive(a: Kind, b: Kind, c: Kind)
    requires IsSubclass(a, b) && IsSubclass(b, c)
    ensures IsSubclass(a, c)
    decreases a
  {
    if a != b {
      var i :| 0 <= i < |a.bases| && IsSubclass(a.bases[i], b);
      SubclassTransitive(a.bases[i], b, c);
    }
  }

  /** A constructor argument of an exception (`e.args[i]`). */
  datatype Arg = Str(s: string) | Int(i: int)

  /** An exception object: its concrete class, its constructor arguments, and
      the rest of its instance state. `extra` holds what equality of results
      ignores: the object's identity and its chained cause and context. */
  datatype Exc = Exc(kind: Kind, args: seq<Arg>, extra: State)

  /** Instance state of an exception beyond its class and `args`. */
  datatype State = State(identity: nat, cause: Option<Exc>, context: Option<Exc>)

  /** How a Python call finishes: it returns a value or raises an exception
      object. */
  datatype Outcome<+T> = Returned(value: T) | Raised(error: Exc)

  const BaseExceptionKind := Kind("BaseException", [])
  const ExceptionKind := Kind("Exception", [BaseExceptionKind])
  const ValueErrorKind := Kind("ValueError", [ExceptionKind])
  const TypeErrorKind := Kind("TypeError", [ExceptionKind])
  /** `asyncio.CancelledError`, which derives from `BaseException` directly. */
  const CancelledErrorKind := Kind("asyncio.exceptions.CancelledError", [BaseExceptionKind])

  /** The concrete standard classes used by the scenarios relate as Python
      declares them. */
  lemma StandardKinds()
    ensures IsSubclass(ValueErrorKind, ExceptionKind)
    ensures IsSubclass(ValueErrorKind, BaseExceptionKind)
    ensures !IsSubclass(ExceptionKind, ValueErrorKind)
    ensures !IsSubclass(ValueErrorKind, TypeErrorKind)
    ensures !IsSubclass(TypeErrorKind, ValueErrorKind)
    ensures IsSubclass(CancelledErrorKind, BaseExceptionKind)
    ensures !IsSubclass(CancelledErrorKind, ExceptionKind)
  {
    assert IsSubclass(ExceptionKind.bases[0], BaseExceptionKind);
    assert IsSubclass(ValueErrorKind.bases[0], ExceptionKind);
    SubclassTransitive(ValueErrorKind, ExceptionKind, BaseExceptionKind);
    assert !IsSubclass(BaseExceptionKind, ValueErrorKind);
    assert !IsSubclass(BaseExceptionKind, TypeErrorKind);
    assert !IsSubclass(ExceptionKind, TypeErrorKind);
    assert !IsSubclass(ExceptionKind, ValueErrorKind);
    assert IsSubclass(CancelledErrorKind.bases[0], BaseExceptionKind);
    assert !IsSubclass(BaseExceptionKind, ExceptionKind);
  }
}
