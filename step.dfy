/** Step helpers: markers a step uses to say what its return means. */
module Step {
  import opened Error

  /** `success!(value = true)`: the value itself, `true` when none is given. */
  function Success(value: Value := Bool(true)): (r: Value)
    ensures r == value
  {
    value
  }

  /** `failure!(value = false)`: the value as an error, `false` when none is given. */
  function Failure(value: Value := Bool(false)): (r: Value)
    ensures IsError(r)
    ensures r == ToError(value)
  {
    ToError(value)
  }

  lemma SuccessDefaultIsTrue()
    ensures Success() == Bool(true)
  {
  }

  /** A non-error value marked as success still reads as success. */
  lemma SuccessKeepsSuccess(v: Value)
    requires IsSuccess(v)
    ensures IsSuccess(Success(v))
  {
  }

  lemma FailureDefaultIsFalse()
    ensures Failure() == ErrorValue(Bool(false))
  {
  }

  /** An existing error is not wrapped a second time; a plain value becomes the payload. */
  lemma FailureWrapsOnce(v: Value)
    ensures IsError(v) ==> Failure(v) == v
    ensures IsSuccess(v) ==> Failure(v) == ErrorValue(v)
    ensures Failure(Failure(v)) == Failure(v)
  {
    ToErrorIdempotent(v);
  }
}
