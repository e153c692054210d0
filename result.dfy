/** The closed two-variant result type: `Ok` holds a success payload, `Err`
    holds an exception object. Both variants are immutable once built. */
module Results {
  import opened Python

  datatype Result<+T> = Ok(value: T) | Err(error: Exc)

  /** The right-hand operand of `==`: another result, or any object that is
      not a result (such as the bare payload `"abc"`). */
  datatype Operand<T> = Res(result: Result<T>) | Raw(value: T)

  /** The tuple a result is hashed through: `("Ok", value)` for `Ok` and
      `("Err", type(error), error.args)` for `Err`; the constructor stands for
      the leading tag string, and tuples of different tags or lengths are
      never equal. */
  datatype HashKey<T> = OkKey(value: T) | ErrKey(kind: Kind, args: seq<Arg>)

  /** `r.err()`: the held exception for `Err`, `None` for `Ok`. */
  function ErrOf<T>(r: Result<T>): (e: Option<Exc>)
    ensures e == None <==> r.Ok?
    ensures r.Err? ==> e == Some(r.error)
  {
    match r
    case Ok(_) => None
    case Err(x) => Some(x)
  }

  /** `r.unwrap()`: returns the payload of `Ok`; raises the very exception
      object held by `Err`. */
  function Unwrap<T>(r: Result<T>): (o: Outcome<T>)
    ensures o.Returned? <==> r.Ok?
    ensures r.Ok? ==> o.value == r.value
    ensures r.Err? ==> o.error == r.error
  {
    match r
    case Ok(v) => Returned(v)
    case Err(x) => Raised(x)
  }

  /** `r.unwrap_or(default)`, where an omitted default is `None`: the payload
      of `Ok` whatever the default, the default itself for `Err`. `Ok`
      delegates to `unwrap`, which cannot raise there. */
  function UnwrapOr<T>(r: Result<T>, default: Option<T> := None): (o: Option<T>)
    ensures r.Ok? ==> o == Some(r.value)
    ensures r.Err? ==> o == default
  {
    match r
    case Ok(_) => Some(Unwrap(r).value)
    case Err(_) => default
  }

  /** `r.unwrap_or_else(op)`, with `op` a Python callable run from world
      state `w`: `Ok` returns its payload and leaves the world as it was, so
      `op` is never invoked (even an `op` that raises on every input cannot
      make it raise); `Err` is exactly one call of `op` on the held
      exception, including whatever `op` raises. */
  function UnwrapOrElse<W, T>(r: Result<T>, op: (W, Exc) -> (W, Outcome<T>), w: W): (out: (W, Outcome<T>))
    ensures r.Ok? ==> out == (w, Returned(r.value))
    ensures r.Err? ==> out == op(w, r.error)
  {
    match r
    case Ok(_) => (w, Unwrap(r))
    case Err(x) => op(w, x)
  }

  /** `self == other`. `Ok` equals only an `Ok` with an equal payload. `Err`
      equals only an `Err` whose exception has exactly the same class (not a
      subclass or superclass) and equal `args`; the rest of the exception's
      state is not compared. Nothing that is not a result is ever equal. */
  function Equals<T(==)>(self: Result<T>, other: Operand<T>): (b: bool)
    ensures other.Raw? ==> !b
    ensures b ==> other.result.Ok? == self.Ok?
    ensures self.Ok? ==> (b <==> other == Res(Ok(self.value)))
    ensures self.Err? ==> (b <==> other.Res? && other.result.Err?
                                  && other.result.error.kind == self.error.kind
                                  && other.result.error.args == self.error.args)
  {
    match self
    case Ok(v) => other.Res? && other.result.Ok? && v == other.result.value
    case Err(e) =>
      && other.Res?
      && other.result.Err?
      && other.result.error.kind == e.kind
      && other.result.error.args == e.args
  }

  /** `hash(r)` is `hash` of this key. It is built from the payload of `Ok`,
      and from only the class and `args` of the exception of `Err`, so the
      rest of the exception's state never reaches the hash. */
  function HashKeyOf<T>(r: Result<T>): (k: HashKey<T>)
    ensures k.OkKey? <==> r.Ok?
    ensures r.Ok? ==> k.value == r.value
    ensures r.Err? ==> k.kind == r.error.kind && k.args == r.error.args
  {
    match r
    case Ok(v) => OkKey(v)
    case Err(e) => ErrKey(e.kind, e.args)
  }

  /** Equal results have equal hash keys, and equal hash keys come only from
      equal results: hashing is exactly as fine as `==`. */
  lemma HashAgreesWithEquals<T>(a: Result<T>, b: Result<T>)
    ensures Equals(a, Res(b)) <==> HashKeyOf(a) == HashKeyOf(b)
  {
  }

  /** `==` on results is an equivalence relation. */
  lemma EqualsReflexive<T>(r: Result<T>)
    ensures Equals(r, Res(r))
  {
  }

  lemma EqualsSymmetric<T>(a: Result<T>, b: Result<T>)
    ensures Equals(a, Res(b)) <==> Equals(b, Res(a))
  {
  }

  lemma EqualsTransitive<T>(a: Result<T>, b: Result<T>, c: Result<T>)
    requires Equals(a, Res(b)) && Equals(b, Res(c))
    ensures Equals(a, Res(c))
  {
  }

  /** `Ok` and `Err` are never equal, in either order. */
  lemma VariantsNeverEqual<T>(v: T, e: Exc)
    ensures !Equals(Ok(v), Res(Err(e)))
    ensures !Equals(Err(e), Res(Ok(v)))
  {
  }

  /** `Err` equality ignores identity, cause and context: two distinct
      exception objects of one class with equal `args` give equal results. */
  lemma ErrEqualsIgnoresExtraState<T>(k: Kind, args: seq<Arg>, s1: State, s2: State)
    ensures Equals<T>(Err(Exc(k, args, s1)), Res(Err(Exc(k, args, s2))))
  {
  }

  /** `Err` equality asks for the exact class: an exception of a subclass is
      not equal to one of its superclass with the same `args`. */
  lemma ErrEqualsNeedsExactKind<T>(e1: Exc, e2: Exc)
    requires IsSubclass(e1.kind, e2.kind) && e1.kind != e2.kind
    ensures !Equals<T>(Err(e1), Res(Err(e2)))
    ensures !Equals<T>(Err(e2), Res(Err(e1)))
  {
  }

  /** `err()` yields `e` exactly when `unwrap()` raises `e`, and `None`
      exactly when `unwrap()` returns. */
  lemma ErrOfAgreesWithUnwrap<T>(r: Result<T>)
    ensures ErrOf(r) == None <==> Unwrap(r).Returned?
    ensures forall e :: ErrOf(r) == Some(e) <==> Unwrap(r) == Raised(e)
  {
  }

  /** `unwrap_or(d)` is what `unwrap()` returns when it returns, and `d` when
      `unwrap()` would raise; `unwrap_or_else` runs `op` exactly where
      `unwrap()` would raise, on the exception it would raise. */
  lemma FallbacksAgreeWithUnwrap<W, T>(r: Result<T>, d: Option<T>, op: (W, Exc) -> (W, Outcome<T>), w: W)
    ensures Unwrap(r).Returned? ==> UnwrapOr(r, d) == Some(Unwrap(r).value)
    ensures Unwrap(r).Raised? ==> UnwrapOr(r, d) == d
    ensures Unwrap(r).Returned? ==> UnwrapOrElse(r, op, w) == (w, Unwrap(r))
    ensures Unwrap(r).Raised? ==> UnwrapOrElse(r, op, w) == op(w, Unwrap(r).error)
  {
  }

  /** No hidden state: a result keeps nothing of a call of `unwrap_or_else`,
      so with an `op` that changes no world state a second call from the
      resulting world gives the same answer. In this model the property holds
      by construction, since the result is an immutable value. */
  lemma UnwrapOrElseRepeatable<W, T>(r: Result<T>, op: (W, Exc) -> (W, Outcome<T>), w: W)
    requires forall e :: op(w, e).0 == w
    ensures UnwrapOrElse(r, op, UnwrapOrElse(r, op, w).0) == UnwrapOrElse(r, op, w)
  {
  }
}
