/** Result tagging: a value denotes an error iff it is an `ErrorValue`; anything else is success. */
module Error {

  /** The Ruby values the engine passes around. `ErrorValue` is the one-field struct that marks
      a failure; every other constructor stands for an ordinary (successful) Ruby value. */
  datatype Value =
    | ErrorValue(value: Value)
    | Nil
    | Bool(b: bool)
    | Int(i: int)
    | Str(s: string)
    | Sym(name: string)

  /** `Error.error?`: the type test `ErrorValue === e`, which holds for an error value
      whatever its payload. */
  predicate IsError(e: Value)
    ensures IsError(e) <==> exists p :: e == ErrorValue(p)
  {
    if e.ErrorValue? then assert e == ErrorValue(e.value); true else false
  }

  /** `Error.success?`: the negation of `error?`, so it holds exactly for the values that are
      not an `ErrorValue` of any payload. */
  predicate IsSuccess(e: Value)
    ensures IsSuccess(e) <==> forall p :: e != ErrorValue(p)
  {
    !IsError(e)
  }

  /** `Error.to_error`: an existing error is returned as it is, anything else is wrapped. */
  function ToError(e: Value): (r: Value)
    ensures IsError(r)
    ensures IsError(e) ==> r == e
    ensures IsSuccess(e) ==> r == ErrorValue(e) && r.value == e
  {
    match e
    case ErrorValue(_) => e
    case _ => ErrorValue(e)
  }

  /** Plain values such as `true`, `5` and `"abc"` are successes, not errors. */
  lemma PlainValuesAreSuccesses()
    ensures !IsError(Bool(true)) && !IsError(Int(5)) && !IsError(Str("abc"))
    ensures IsSuccess(Bool(true)) && IsSuccess(Int(5)) && IsSuccess(Str("abc"))
    ensures IsError(ErrorValue(Str("abc"))) && !IsSuccess(ErrorValue(Str("abc")))
  {
  }

  /** `success?` is the complement of `error?` on every value. */
  lemma SuccessIsNotError(e: Value)
    ensures IsSuccess(e) != IsError(e)
  {
  }

  /** Converting twice is the same as converting once. */
  lemma ToErrorIdempotent(e: Value)
    ensures ToError(ToError(e)) == ToError(e)
  {
  }

  /** Two error values are equal iff their payloads are (struct equality). */
  lemma ErrorValueEquality(p: Value, q: Value)
    ensures ErrorValue(p) == ErrorValue(q) <==> p == q
  {
  }
}
