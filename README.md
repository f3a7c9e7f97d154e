# hopscotch step composition, modelled in Dafny

This project models the core of the Ruby gem hopscotch. The gem chains side-effecting
"steps" into one zero-argument pipeline. The pipeline stops at the first step that returns an
`ErrorValue`. The gem then runs that pipeline inside a database transaction and calls either
the caller's `success` callback or its `failure` callback.

The Dafny files follow the gem's own files:

- `error.dfy` (module `Error`): `lib/hopscotch/error.rb`. Ruby values are the datatype
  `Value`. `ErrorValue(value)` is the one-field struct that marks a failure, and every other
  constructor is an ordinary value. `IsError`, `IsSuccess` and `ToError` are `error?`,
  `success?` and `to_error`.
- `step.dfy` (module `Step`): `lib/hopscotch/step.rb`. `Success` and `Failure` are `success!`
  and `failure!`, with Ruby's default arguments kept as Dafny default parameters (`true` and
  `false`).
- `trace.dfy` (module `Trace`): the state that steps and callbacks change, as the gem's tests
  observe it. It is the class `Log`, whose `entries` field is an append-only sequence. It
  records the values steps push onto caller arrays (`handled << :a`), the opening and end of
  the transaction, and each callback call with its arguments.
- `step_composer.dfy` (module `StepComposer`): `lib/hopscotch/step_composers/default.rb`.
  - A step (`Fn`) is either `Effect(pushes, ret)`, meaning `-> { log << p1; ...; ret }`, or
    `Nested(p)`, a step whose body calls the pipeline `p`. So a step that runs
    `call_each(*fns)` is `Nested(Compose(fns))`.
  - The argument list is a tree of `Item`s: steps, `nil`s and nested arrays.
  - `Flatten` and `Compact` are `Array#flatten` (to any depth) and `Array#compact`.
  - `Inject` is the fold without an initial value, so it yields `None` for an empty list.
  - `Compose` is `compose_with_error_handling`. It uses the `Fallback` pipeline when nothing
    is left.
  - `Pipeline` is the shape of the closures the fold builds. `Eval` is what calling them
    does.
  - `LeftToRight` is an independent reference definition: run the steps in order up to the
    first error. The lemma `EvalIsLeftToRight` proves that the closures behave like it.
  - `Run`/`RunSteps` is the imperative execution against a `Log`: a loop over the chained
    steps. `Invoke` calls one step, and for a nested step it runs that step's own pipeline.
- `runner.dfy` (module `Runner`): `lib/hopscotch/runners/default.rb`.
  - A callback is a record with its Ruby `arity`.
  - `Call` follows the source statement by statement. It keeps the locals `error` and
    `result`, checks the arity first, runs the transaction block and then picks one callback.
    `Behaviour` is the pure description of a whole call.
  - Calling a lambda with a number of arguments it does not accept raises `ArgumentError`, as
    Ruby lambdas do. So a `success` lambda with two required parameters raises after the
    commit.

The composer's test file (`spec/hopscotch/step_composers/default_spec.rb:40-72`) expects two
things the code does not do:

- each step receives the previous step's return value;
- steps with more than one parameter are curried.

The composer as written calls every step with no arguments and builds a zero-argument
lambda, and the model follows the code. `Array#flatten` with no argument flattens to any
depth, not one level; `Flatten` does the same (`FlatStepsOfArray`).

## Model

| member | source | states |
|---|---|---|
| `Error.IsError` | lib/hopscotch/error.rb:20-22 | `error?` holds iff the value is an `ErrorValue` of some payload; the payload plays no part |
| `Error.IsSuccess` | lib/hopscotch/error.rb:25-27 | `success?` holds iff the value is not an `ErrorValue` of any payload |
| `Error.SuccessIsNotError` | lib/hopscotch/error.rb:25-27 | `success?` is the negation of `error?` on every value |
| `Error.PlainValuesAreSuccesses` | spec/hopscotch/error_spec.rb:7-25 | `true`, `5` and `"abc"` are not errors and are successes; an `ErrorValue` is an error and not a success |
| `Error.ToError` | lib/hopscotch/error.rb:30-37 | the result is always an error; an existing error comes back unchanged; a plain value becomes the payload of a new `ErrorValue` |
| `Error.ToErrorIdempotent` | lib/hopscotch/error.rb:32-33 | converting twice gives the same as converting once |
| `Error.ErrorValueEquality` | lib/hopscotch/error.rb:12 | two error values are equal iff their payloads are equal (struct equality) |
| `Step.Success` | lib/hopscotch/step.rb:5-7 | returns its argument unchanged |
| `Step.SuccessDefaultIsTrue` | lib/hopscotch/step.rb:5 | with no argument, `success!` returns `true` |
| `Step.SuccessKeepsSuccess` | spec/hopscotch/step_spec.rb:8-10 | a non-error value passed through `success!` is still a success |
| `Step.Failure` | lib/hopscotch/step.rb:9-11 | the result is always an error, and it is what `to_error` makes of the argument |
| `Step.FailureDefaultIsFalse` | lib/hopscotch/step.rb:9-10 | with no argument, `failure!` returns `ErrorValue(false)` |
| `Step.FailureWrapsOnce` | lib/hopscotch/step.rb:10 | an existing error is returned without a second wrapping; a plain value becomes the payload; applying it twice equals applying it once |
| `StepComposer.Flatten` | lib/hopscotch/step_composers/default.rb:32 | a leading step or `nil` stays first; with `FlattenAppend` and `FlatStepsOfArray`, flattening keeps order and splices nested arrays at any depth |
| `StepComposer.Compact` | lib/hopscotch/step_composers/default.rb:32 | the result is never longer, and is exactly as long iff there was no `nil`; with `CompactKeepsSteps` and `CompactAppend`, it keeps exactly the steps, in order |
| `StepComposer.FlatSteps` | lib/hopscotch/step_composers/default.rb:32 | a leading step stays first and the result is at most as long as the flattened list; `FlatStepsAppend`, `FlatStepsOfEntry` and `FlatStepsOfArray` determine it completely |
| `StepComposer.FlattenAppend` | lib/hopscotch/step_composers/default.rb:32 | flattening a concatenation is the concatenation of the flattenings, so order is kept |
| `StepComposer.CompactAppend` | lib/hopscotch/step_composers/default.rb:32 | compacting a concatenation is the concatenation of the compactions |
| `StepComposer.CompactKeepsSteps` | lib/hopscotch/step_composers/default.rb:32 | `compact` keeps exactly the steps: a step is in the result iff it was in the input |
| `StepComposer.FlatStepsAppend` | lib/hopscotch/step_composers/default.rb:32 | `flatten.compact` splits over concatenation, so it keeps the left-to-right order of the steps |
| `StepComposer.FlatStepsOfEntry` | lib/hopscotch/step_composers/default.rb:32 | a step survives `flatten.compact` as itself and `nil` disappears |
| `StepComposer.FlatStepsOfArray` | lib/hopscotch/step_composers/default.rb:32 | wrapping entries in an array changes nothing, so nesting to any depth is transparent |
| `StepComposer.Inject` | lib/hopscotch/step_composers/default.rb:32-41 | the fold gives nothing for an empty list and otherwise a pipeline that chains exactly the given steps in order |
| `StepComposer.Compose` | lib/hopscotch/step_composers/default.rb:31-43 | the pipeline chains exactly the steps left by `flatten.compact`, and it is the fallback iff none is left |
| `StepComposer.Exec` | lib/hopscotch/step_composers/default.rb:38 | calling a step logs only pushes, never a transaction or callback event |
| `StepComposer.Eval` | lib/hopscotch/step_composers/default.rb:33-42 | calling a composed pipeline logs only pushes, never a transaction or callback event; which steps' pushes appear is stated by `EvalIsLeftToRight` |
| `StepComposer.FirstError` | lib/hopscotch/step_composers/default.rb:34-36 | the index of the first step whose return is an error: every earlier step succeeds and the step at that index, if any, fails |
| `StepComposer.LeftToRightFirst` | lib/hopscotch/step_composers/default.rb:32 | a one-step list behaves as that step |
| `StepComposer.LeftToRightAfterError` | lib/hopscotch/step_composers/default.rb:34-36 | once an error has been returned, a further step changes neither the result nor the log |
| `StepComposer.LeftToRightAfterSuccess` | lib/hopscotch/step_composers/default.rb:37-38 | after a success the next step runs; its return becomes the result and its pushes follow the earlier ones |
| `StepComposer.EvalIsLeftToRight` | lib/hopscotch/step_composers/default.rb:32-42 | calling the nested closures equals running the chained steps left to right and stopping after the first error (or `true` for no step) |
| `StepComposer.EmptyListReturnsTrue` | lib/hopscotch/step_composers/default.rb:42 | a list that flattens to nothing gives the fallback pipeline, which runs no step and returns `true` |
| `StepComposer.NoErrorRunsEveryStep` | lib/hopscotch/step_composers/default.rb:32-40 | if no step fails, every step runs once in order and the result is the last step's return |
| `StepComposer.FirstErrorStops` | lib/hopscotch/step_composers/default.rb:34-36 | if step k is the first to fail, steps 0..k run, no later step runs, and the result is step k's `ErrorValue` itself |
| `StepComposer.SingleStepIsTheStep` | lib/hopscotch/step_composers/default.rb:32 | with one surviving step the pipeline is that step and behaves exactly as it does |
| `StepComposer.SuccessReturnDiscarded` | lib/hopscotch/step_composers/default.rb:37-38 | a non-error return is discarded: the next step's result does not depend on it |
| `StepComposer.EffectsListEachStepOnce` | lib/hopscotch/step_composers/default.rb:33-40 | when each step pushes one value, running the steps logs those values once each, in step order |
| `StepComposer.ComposesNestedList` | spec/hopscotch/step_composers/default_spec.rb:5-20 | steps `a, [b, nil, c], d` all run in order and the result is `d`'s return |
| `StepComposer.ComposesErrorHandling` | spec/hopscotch/step_composers/default_spec.rb:22-33 | with `a, b (error), c`, only `a` and `b` run and the result is `b`'s error value |
| `StepComposer.AllNilReturnsTrue` | spec/hopscotch/step_composers/default_spec.rb:35-38 | `[[], [nil], nil]` gives a pipeline that returns `true` and logs nothing |
| `StepComposer.NestedCallEachInPlace` | spec/hopscotch/step_composers/default_spec.rb:76-90 | a step running a nested `call_each(x, y)` contributes `x`'s and `y`'s pushes in its own place |
| `StepComposer.Invoke` | lib/hopscotch/step_composers/default.rb:38 | calling one step appends its pushes to the log and returns its return value |
| `StepComposer.Run` | lib/hopscotch/step_composers/default.rb:33-40 | calling a pipeline returns what `Eval` says and appends exactly `Eval`'s entries to the log |
| `StepComposer.RunSteps` | lib/hopscotch/step_composers/default.rb:32-40 | the loop over the chained steps leaves the log and the result the reference `LeftToRight` describes |
| `StepComposer.CallEach` | lib/hopscotch/step_composers/default.rb:14-16 | `call_each` is composing and then calling the pipeline once |
| `Runner.Behaviour` | lib/hopscotch/runners/default.rb:20-42 | `call` logs nothing iff the `failure` arity is wrong; otherwise the transaction opens first; it raises only before the transaction or right after the commit; a normal return ends with a callback; `ExactlyOneCallbackAfterTransaction` and the branch lemmas below pin down the rest |
| `Runner.Invoke` | lib/hopscotch/runners/default.rb:38-40 | a callback runs and is logged with its arguments iff its arity accepts them; otherwise it raises `ArgumentError` and nothing is logged |
| `Runner.Call` | lib/hopscotch/runners/default.rb:20-42 | `call` ends as `Behaviour` says and appends exactly `Behaviour`'s trace to the log |
| `Runner.CallEach` | lib/hopscotch/runners/default.rb:52-54 | `call_each` is `call` of the composed pipeline |
| `Runner.FailureArityCheckedFirst` | lib/hopscotch/runners/default.rb:24-26 | a `failure` whose arity is not 1 raises `ArgumentError` before any transaction opens and before `fn` runs |
| `Runner.ErrorRollsBack` | lib/hopscotch/runners/default.rb:31-38 | on an error result `fn` ran once inside the transaction, the transaction rolls back, `failure` gets the unwrapped payload, and there is no commit and no `success` call |
| `Runner.SuccessGetsResult` | lib/hopscotch/runners/default.rb:40 | on a non-error result with a one-argument `success`, the transaction commits and `success` receives the result; there is no rollback and no `failure` call |
| `Runner.SuccessWithoutResult` | lib/hopscotch/runners/default.rb:40 | with any other arity `success` is called with no arguments after the commit; if it needs arguments, the call raises `ArgumentError` |
| `Runner.ExactlyOneCallbackAfterTransaction` | lib/hopscotch/runners/default.rb:28-41 | when `call` returns normally, exactly one callback runs, as the last event and right after the commit or rollback, and only the pipeline's pushes lie inside the transaction |
| `Runner.CallEachStopsAtFailure` | spec/hopscotch/runners/default_spec.rb:69-78 | `call_each(ok, fail, ok)`: the third step never runs, the transaction rolls back and `failure` receives `:failed` |
| `Runner.CallEachRunsAll` | spec/hopscotch/runners/default_spec.rb:58-67 | `call_each(ok, ok, ok)`: each step runs once, the transaction commits and `success` receives `:success` once |

## Left out

- Value threading and currying between steps are not modelled, because the composer never
  passes a value to a step (`lib/hopscotch/step_composers/default.rb:33,38`). Only the tests
  expect them.
- Steps that take parameters are not modelled. Every step is called with no arguments, and a
  Ruby lambda that needs arguments would raise there; the model has zero-argument steps only.
- Exceptions raised inside a step are not modelled. Nothing in the core catches them, so they
  just propagate out of the transaction.
- The transaction is modelled only as "opened", "committed" and "rolled back" log entries.
  ActiveRecord's own behaviour is foreign code: how it swallows `ActiveRecord::Rollback` and
  how transactions nest.
- The value that `call` returns (whatever the chosen callback returns) is not modelled. The
  model records only whether `call` returned normally or raised, and the callback call in the
  log.
- The model reduces arity to the integer Ruby reports. A negative arity is read as "at least
  `-arity - 1` arguments", which holds for splats. Lambdas with optional parameters also have
  a negative arity but an upper bound, and that bound is not modelled. Non-lambda procs, which
  ignore arity, are not modelled either.
- Runtime duck typing is not modelled: anything that "responds to `call`", singleton modules
  used as steps, and non-callable entries other than `nil` (which would raise when called).
  The entries are exactly steps, `nil` and arrays.
- Subclasses of `ErrorValue` are not modelled. Ruby's `===` also matches them, but the model
  has one error constructor.
- A step's return value is a plain value. A Ruby step such as `-> { handled << :a }` returns
  the caller's array itself, and that aliasing is not captured.
- The facade module and the global logger (`lib/hopscotch.rb`) are not modelled. They only
  forward calls and hold configuration.
- `StepComposer.Compact` states only length facts in its own contract. Membership and order
  are stated by the lemmas `CompactKeepsSteps` and `CompactAppend`.
