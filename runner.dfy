/** The default runner: calls a pipeline inside a transaction and then exactly one of the
    caller's callbacks, depending on whether the pipeline returned an error. */
module Runner {
  import opened Error
  import opened Trace
  import SC = StepComposer

  /** A caller-supplied lambda, reduced to what the runner inspects: its Ruby `arity`
      (`n` for `n` required parameters, `-(n + 1)` for `n` required ones and a splat). */
  datatype Callback = Callback(arity: int)

  datatype RubyError = ArgumentError(message: string)

  /** How `call` ends: normally, or by raising. */
  datatype Completion = Returned | Raised(error: RubyError)

  /** What one `call` does: how it ends and what it appends to the caller's log. */
  datatype Report = Report(completion: Completion, trace: seq<Entry>)

  const FailureArityMessage := "failure lambda requires an error value argument."
  const WrongArgumentCount := "wrong number of arguments"

  /** Whether a lambda of this arity can be called with `argc` arguments. */
  predicate Accepts(cb: Callback, argc: nat) {
    if cb.arity >= 0 then argc == cb.arity else argc >= -cb.arity - 1
  }

  /** Ruby truthiness: everything except `nil` and `false`. */
  predicate Truthy(v: Value) {
    v != Nil && v != Bool(false)
  }

  /** A callback entry of the log, as opposed to a step's push or a transaction event. */
  predicate IsCallback(e: Entry) {
    e.Called?
  }

  /** The whole behaviour of `call(fn, failure:, success:)`. */
  function Behaviour(fn: SC.Pipeline, failure: Callback, success: Callback): (r: Report)
    ensures r.trace == [] <==> failure.arity != 1
    ensures r.trace != [] ==> r.trace[0] == TransactionOpened
    ensures r.completion.Raised? ==> r.trace == [] || r.trace[|r.trace| - 1] == Committed
    ensures r.completion.Returned? ==> |r.trace| >= 3 && IsCallback(r.trace[|r.trace| - 1])
  {
    if failure.arity != 1 then Report(Raised(ArgumentError(FailureArityMessage)), [])
    else
      var o := SC.Eval(fn);
      if IsError(o.ret) then
        Report(Returned, [TransactionOpened] + o.effects + [RolledBack, Called(OnFailure, [o.ret.value])])
      else
        var args := if success.arity == 1 then [o.ret] else [];
        var committed := [TransactionOpened] + o.effects + [Committed];
        if Accepts(success, |args|) then Report(Returned, committed + [Called(OnSuccess, args)])
        else Report(Raised(ArgumentError(WrongArgumentCount)), committed)
  }

  /** Calls a callback lambda with `args`; a lambda that cannot take that many raises. */
  method Invoke(cb: Callback, role: Role, args: seq<Value>, log: Log) returns (c: Completion)
    modifies log
    ensures Accepts(cb, |args|) ==> c == Returned && log.entries == old(log.entries) + [Called(role, args)]
    ensures !Accepts(cb, |args|) ==> c == Raised(ArgumentError(WrongArgumentCount)) && log.entries == old(log.entries)
  {
    if Accepts(cb, |args|) {
      log.entries := log.entries + [Called(role, args)];
      c := Returned;
    } else {
      c := Raised(ArgumentError(WrongArgumentCount));
    }
  }

  /** `call(fn, failure:, success:)`. */
  method Call(fn: SC.Pipeline, failure: Callback, success: Callback, log: Log) returns (c: Completion)
    modifies log
    ensures c == Behaviour(fn, failure, success).completion
    ensures log.entries == old(log.entries) + Behaviour(fn, failure, success).trace
  {
    var error := Nil;
    var result := Nil;
    if failure.arity != 1 {
      c := Raised(ArgumentError(FailureArityMessage));
      return;
    }
    // the transaction block: the pipeline runs inside it, and an error result rolls it back
    ghost var before := log.entries;
    log.entries := log.entries + [TransactionOpened];
    result := SC.Run(fn, log);
    if IsError(result) {
      error := result;
      log.entries := log.entries + [RolledBack];
    } else {
      log.entries := log.entries + [Committed];
    }
    ghost var ended := log.entries;
    assert ended == before + ([TransactionOpened] + SC.Eval(fn).effects + [if IsError(result) then RolledBack else Committed]);
    // the transaction has ended; now exactly one callback is called
    if Truthy(error) {
      c := Invoke(failure, OnFailure, [error.value], log);
    } else if success.arity == 1 {
      c := Invoke(success, OnSuccess, [result], log);
    } else {
      c := Invoke(success, OnSuccess, [], log);
    }
  }

  /** `call_each(*fns, failure:, success:)`: compose the steps, then `call` the pipeline. */
  method CallEach(items: seq<SC.Item>, failure: Callback, success: Callback, log: Log) returns (c: Completion)
    modifies log
    ensures c == Behaviour(SC.Compose(items), failure, success).completion
    ensures log.entries == old(log.entries) + Behaviour(SC.Compose(items), failure, success).trace
  {
    c := Call(SC.Compose(items), failure, success, log);
  }

  // ---------------------------------------------------------------------------------------
  // Properties of `call`

  /** A `failure` lambda that does not take exactly one argument is rejected before the
      transaction opens and before `fn` runs: nothing is logged. */
  lemma FailureArityCheckedFirst(fn: SC.Pipeline, failure: Callback, success: Callback)
    requires failure.arity != 1
    ensures Behaviour(fn, failure, success) == Report(Raised(ArgumentError(FailureArityMessage)), [])
  {
  }

  /** On an error result the transaction rolls back, `failure` gets the unwrapped payload and
      `success` is never called: `fn` ran once, inside the transaction. */
  lemma ErrorRollsBack(fn: SC.Pipeline, failure: Callback, success: Callback)
    requires failure.arity == 1 && IsError(SC.Eval(fn).ret)
    ensures var r := Behaviour(fn, failure, success);
      && r.completion == Returned
      && r.trace == [TransactionOpened] + SC.Eval(fn).effects + [RolledBack, Called(OnFailure, [SC.Eval(fn).ret.value])]
      && Committed !in r.trace
      && (forall i :: 0 <= i < |r.trace| ==> !(r.trace[i].Called? && r.trace[i].role == OnSuccess))
  {
    var r := Behaviour(fn, failure, success);
    var o := SC.Eval(fn);
    forall i | 0 <= i < |r.trace|
      ensures !(r.trace[i].Called? && r.trace[i].role == OnSuccess) && r.trace[i] != Committed
    {
      if 1 <= i < 1 + |o.effects| {
        assert r.trace[i] == o.effects[i - 1];
      }
    }
  }

  /** On a non-error result the transaction commits; a one-argument `success` receives the
      result, and `failure` is never called. */
  lemma SuccessGetsResult(fn: SC.Pipeline, failure: Callback, success: Callback)
    requires failure.arity == 1 && IsSuccess(SC.Eval(fn).ret) && success.arity == 1
    ensures var r := Behaviour(fn, failure, success);
      && r.completion == Returned
      && r.trace == [TransactionOpened] + SC.Eval(fn).effects + [Committed, Called(OnSuccess, [SC.Eval(fn).ret])]
      && RolledBack !in r.trace
      && (forall i :: 0 <= i < |r.trace| ==> !(r.trace[i].Called? && r.trace[i].role == OnFailure))
  {
    var r := Behaviour(fn, failure, success);
    var o := SC.Eval(fn);
    forall i | 0 <= i < |r.trace|
      ensures !(r.trace[i].Called? && r.trace[i].role == OnFailure) && r.trace[i] != RolledBack
    {
      if 1 <= i < 1 + |o.effects| {
        assert r.trace[i] == o.effects[i - 1];
      }
    }
  }

  /** On a non-error result with a `success` of any other arity, `success` is called with no
      arguments, which works for a lambda that takes none (or only a splat) and raises
      `ArgumentError` after the commit for one that needs arguments. */
  lemma SuccessWithoutResult(fn: SC.Pipeline, failure: Callback, success: Callback)
    requires failure.arity == 1 && IsSuccess(SC.Eval(fn).ret) && success.arity != 1
    ensures var r := Behaviour(fn, failure, success);
      var committed := [TransactionOpened] + SC.Eval(fn).effects + [Committed];
      && (success.arity == 0 || success.arity == -1 ==> r == Report(Returned, committed + [Called(OnSuccess, [])]))
      && (success.arity != 0 && success.arity != -1 ==> r == Report(Raised(ArgumentError(WrongArgumentCount)), committed))
  {
  }

  /** Whenever `call` returns normally, exactly one callback was called, as the very last
      event, right after the transaction ended (committed or rolled back), and the
      transaction was opened once, first, before any step ran. */
  lemma ExactlyOneCallbackAfterTransaction(fn: SC.Pipeline, failure: Callback, success: Callback)
    requires Behaviour(fn, failure, success).completion == Returned
    ensures var t := Behaviour(fn, failure, success).trace;
      && |t| >= 3
      && IsCallback(t[|t| - 1])
      && (t[|t| - 2] == Committed || t[|t| - 2] == RolledBack)
      && t[0] == TransactionOpened
      && t[1..|t| - 2] == SC.Eval(fn).effects
      && (forall i :: 0 <= i < |t| - 1 ==> !IsCallback(t[i]))
      && (forall i :: 0 < i < |t| - 2 ==> t[i].Pushed?)
  {
    var t := Behaviour(fn, failure, success).trace;
    var o := SC.Eval(fn);
    assert t[1..|t| - 2] == o.effects;
    forall i | 0 < i < |t| - 2
      ensures t[i].Pushed?
    {
      assert t[i] == o.effects[i - 1];
    }
  }

  // ---------------------------------------------------------------------------------------
  // The scenarios of the runner's own test suite

  /** `call_each(ok, fail, ok)`: the third step never runs, the transaction rolls back, and
      `failure` receives `:failed`. */
  lemma CallEachStopsAtFailure(ok: SC.Fn, fail: SC.Fn, failure: Callback, success: Callback)
    requires ok == SC.Effect([Sym("success")], Sym("success"))
    requires fail == SC.Effect([Sym("failed")], ErrorValue(Sym("failed")))
    requires failure.arity == 1
    ensures Behaviour(SC.Compose([SC.Callable(ok), SC.Callable(fail), SC.Callable(ok)]), failure, success)
      == Report(Returned, [TransactionOpened, Pushed(Sym("success")), Pushed(Sym("failed")),
                           RolledBack, Called(OnFailure, [Sym("failed")])])
  {
    SC.ComposesErrorHandling(ok, fail, ok);
    assert Pushes([Sym("success"), Sym("failed")]) == [Pushed(Sym("success")), Pushed(Sym("failed"))];
  }

  /** `call_each(ok, ok, ok)`: every step runs once and `success` receives `:success` once. */
  lemma CallEachRunsAll(ok: SC.Fn, failure: Callback, success: Callback)
    requires ok == SC.Effect([Sym("success")], Sym("success"))
    requires failure.arity == 1 && success.arity == 1
    ensures Behaviour(SC.Compose([SC.Callable(ok), SC.Callable(ok), SC.Callable(ok)]), failure, success)
      == Report(Returned, [TransactionOpened, Pushed(Sym("success")), Pushed(Sym("success")), Pushed(Sym("success")),
                           Committed, Called(OnSuccess, [Sym("success")])])
  {
    var items := [SC.Callable(ok), SC.Callable(ok), SC.Callable(ok)];
    SC.FlatStepsOfThree(ok, ok, ok);
    SC.NoErrorRunsEveryStep(items);
    SC.EffectsListEachStepOnce([ok, ok, ok]);
  }
}
