/** The expectations of the repository's tests for `Ok` and `Err`, stated
    about the model with the same concrete values. */
module ResultTests {
  import opened Python
  import opened Results

  /** A fresh `ValueError(*args)` object with the given identity. */
  function ValueError(args: seq<Arg>, identity: nat): Exc
  {
    Exc(ValueErrorKind, args, State(identity, None, None))
  }

  /** A fresh `Exception(*args)` object with the given identity. */
  function Exception(args: seq<Arg>, identity: nat): Exc
  {
    Exc(ExceptionKind, args, State(identity, None, None))
  }

  /** `lambda e: f"Exception is {e}"`, for exceptions whose only argument is
      a string (then `str(e)` is that string); it changes no world state. */
  function Describe(w: int, e: Exc): (int, Outcome<string>)
  {
    (w, Returned("Exception is " + (if |e.args| == 1 && e.args[0].Str? then e.args[0].s else "")))
  }

  /** `Ok("abc")`: `err()` is `None`; `unwrap()`, `unwrap_or()`,
      `unwrap_or("aaa")` and `unwrap_or_else(op)` all give `"abc"`, the last
      for any `op` and without touching the world. */
  lemma TestOk(op: (int, Exc) -> (int, Outcome<string>), w: int)
    ensures Ok("abc").value == "abc"
    ensures ErrOf(Ok("abc")) == None
    ensures Unwrap(Ok("abc")) == Returned("abc")
    ensures UnwrapOr(Ok("abc")) == Some("abc")
    ensures UnwrapOr(Ok("abc"), Some("aaa")) == Some("abc")
    ensures UnwrapOrElse(Ok("abc"), op, w) == (w, Returned("abc"))
  {
  }

  /** `Ok("abc")` equals a second `Ok("abc")` and nothing else tried. */
  lemma TestOkEq()
    ensures Equals(Ok("abc"), Res(Ok("abc")))
    ensures !Equals(Ok("abc"), Res(Ok("aaa")))
    ensures !Equals(Ok("abc"), Res(Err(Exception([Str("abc")], 1))))
    ensures !Equals(Ok("abc"), Raw("abc"))
  {
  }

  /** `Err(ValueError("abc"))`: `err()` is the held `ValueError` with args
      `("abc",)`; `unwrap()` raises that very object; `unwrap_or()` is `None`,
      `unwrap_or("aaa")` is `"aaa"`, and `unwrap_or_else` applies the
      formatting callable to the exception. */
  lemma TestError(w: int)
    ensures ErrOf<string>(Err(ValueError([Str("abc")], 1))) == Some(ValueError([Str("abc")], 1))
    ensures ErrOf<string>(Err(ValueError([Str("abc")], 1))).value.args == [Str("abc")]
    ensures ErrOf<string>(Err(ValueError([Str("abc")], 1))).value.kind == ValueErrorKind
    ensures Unwrap<string>(Err(ValueError([Str("abc")], 1))) == Raised(ValueError([Str("abc")], 1))
    ensures UnwrapOr<string>(Err(ValueError([Str("abc")], 1))) == None
    ensures UnwrapOr(Err(ValueError([Str("abc")], 1)), Some("aaa")) == Some("aaa")
    ensures UnwrapOrElse(Err(ValueError([Str("abc")], 1)), Describe, w) == (w, Returned("Exception is abc"))
  {
    assert "Exception is " + "abc" == "Exception is abc";
  }

  /** `Err(ValueError("abc"))` equals an `Err` of a different `ValueError("abc")`
      object, and not an `Err` with other args, more args or another class,
      nor `Ok("abc")` or the bare `"abc"`. */
  lemma TestErrEq()
    ensures Equals<string>(Err(ValueError([Str("abc")], 1)), Res(Err(ValueError([Str("abc")], 2))))
    ensures !Equals<string>(Err(ValueError([Str("abc")], 1)), Res(Err(ValueError([Str("aaa")], 2))))
    ensures !Equals<string>(Err(ValueError([Str("abc")], 1)), Res(Err(ValueError([Str("abc"), Int(1)], 2))))
    ensures !Equals<string>(Err(ValueError([Str("abc")], 1)), Res(Err(Exception([Str("abc")], 2))))
    ensures !Equals(Err(ValueError([Str("abc")], 1)), Res(Ok("abc")))
    ensures !Equals(Err(ValueError([Str("abc")], 1)), Raw("abc"))
  {
  }
}
