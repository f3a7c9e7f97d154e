/** The default step composer: flattens a nested list of steps, drops the nils, and folds the
    steps into one zero-argument pipeline that stops at the first error. */
module StepComposer {
  import opened Error
  import Step
  import opened Trace

  datatype Option<T> = None | Some(value: T)

  /** A step: a zero-argument callable. `Effect(pushes, ret)` is `-> { log << p1; ...; ret }`;
      `Nested(p)` is a step whose body calls the pipeline `p` and returns what it returns
      (a step that runs `call_each(*fns)` is `Nested(Compose(fns))`). */
  datatype Fn =
    | Effect(pushes: seq<Value>, ret: Value)
    | Nested(pipeline: Pipeline)

  /** The callable `compose_with_error_handling` builds. `Single(fn)` is the first step itself
      (what `inject` returns for a one-element list), `Then(composed, fn)` is the lambda the
      fold block builds around the previous accumulator, and `Fallback` is
      `-> { Hopscotch::Step.success! }` for a list that flattens to nothing. */
  datatype Pipeline =
    | Fallback
    | Single(fn: Fn)
    | Then(composed: Pipeline, next: Fn)

  /** An entry of the argument list: a step, `nil`, or a (possibly nested) Ruby array. */
  datatype Item =
    | Callable(fn: Fn)
    | NilItem
    | Array(elems: seq<Item>)

  /** What calling a step or a pipeline returns and the entries it appends to the log. */
  datatype Outcome = Outcome(ret: Value, effects: seq<Entry>)

  // ---------------------------------------------------------------------------------------
  // Composition: `fns.flatten.compact.inject { ... } || fallback`

  /** `Array#flatten` with no depth: every nested array is spliced in, to any depth; `nil`
      becomes `None` and a step `Some(step)`. */
  function Flatten(items: seq<Item>): (r: seq<Option<Fn>>)
    ensures |items| > 0 && items[0].Callable? ==> |r| > 0 && r[0] == Some(items[0].fn)
    ensures |items| > 0 && items[0].NilItem? ==> |r| > 0 && r[0] == None
    decreases items
  {
    if items == [] then []
    else
      (match items[0]
       case Callable(f) => [Some(f)]
       case NilItem => [None]
       case Array(elems) => Flatten(elems))
      + Flatten(items[1..])
  }

  /** `Array#compact`: drop the `nil`s, keep the steps in order. */
  function Compact(xs: seq<Option<Fn>>): (r: seq<Fn>)
    ensures |r| <= |xs|
    ensures |r| == |xs| <==> None !in xs
  {
    if xs == [] then []
    else
      assert xs == [xs[0]] + xs[1..];
      (if xs[0].Some? then [xs[0].value] else []) + Compact(xs[1..])
  }

  /** `compact` keeps exactly the steps: a step is in the result iff it was in the input. */
  lemma {:induction false} CompactKeepsSteps(xs: seq<Option<Fn>>, f: Fn)
    ensures f in Compact(xs) <==> Some(f) in xs
  {
    if xs != [] {
      CompactKeepsSteps(xs[1..], f);
      assert xs == [xs[0]] + xs[1..];
    }
  }

  /** `fns.flatten.compact`. */
  function FlatSteps(items: seq<Item>): (r: seq<Fn>)
    ensures |items| > 0 && items[0].Callable? ==> |r| > 0 && r[0] == items[0].fn
    ensures |r| <= |Flatten(items)|
  {
    Compact(Flatten(items))
  }

  /** The steps a pipeline chains, first to last. */
  function Steps(p: Pipeline): seq<Fn> {
    match p
    case Fallback => []
    case Single(f) => [f]
    case Then(composed, f) => Steps(composed) + [f]
  }

  /** `inject` without an initial value: `nil` for an empty list, the first step for a
      one-element list, otherwise the fold block applied left to right. */
  function Inject(fns: seq<Fn>): (r: Option<Pipeline>)
    ensures r.None? <==> fns == []
    ensures r.Some? ==> Steps(r.value) == fns && r.value != Fallback
    decreases |fns|
  {
    if fns == [] then None
    else if |fns| == 1 then Some(Single(fns[0]))
    else Some(Then(Inject(fns[..|fns| - 1]).value, fns[|fns| - 1]))
  }

  /** `compose_with_error_handling(*fns)`. */
  function Compose(items: seq<Item>): (p: Pipeline)
    ensures Steps(p) == FlatSteps(items)
    ensures p == Fallback <==> FlatSteps(items) == []
  {
    match Inject(FlatSteps(items))
    case None => Fallback
    case Some(reduced) => reduced
  }

  // ---------------------------------------------------------------------------------------
  // Calling: what the composed closures do

  /** Calling one step. */
  function Exec(f: Fn): (r: Outcome)
    ensures OnlyPushes(r.effects)
    decreases f
  {
    match f
    case Effect(pushes, ret) => Outcome(ret, Pushes(pushes))
    case Nested(p) => Eval(p)
  }

  /** Calling a pipeline: the fold block calls the accumulator, returns its result unchanged
      if it is an error, and otherwise discards it and calls the next step with no arguments. */
  function Eval(p: Pipeline): (r: Outcome)
    ensures OnlyPushes(r.effects)
    decreases p
  {
    match p
    case Fallback => Outcome(Step.Success(), [])
    case Single(f) => Exec(f)
    case Then(composed, f) =>
      var last := Eval(composed);
      if IsError(last.ret) then last
      else
        var next := Exec(f);
        Outcome(next.ret, last.effects + next.effects)
  }

  // ---------------------------------------------------------------------------------------
  // Reference behaviour: run the steps left to right and stop after the first error

  /** The index of the first step that returns an error, or `|fns|` when none does. */
  function FirstError(fns: seq<Fn>): (k: nat)
    ensures k <= |fns|
    ensures forall i :: 0 <= i < k ==> IsSuccess(Exec(fns[i]).ret)
    ensures k < |fns| ==> IsError(Exec(fns[k]).ret)
  {
    if fns == [] then 0
    else if IsError(Exec(fns[0]).ret) then 0
    else 1 + FirstError(fns[1..])
  }

  /** The entries of running every step of `fns` once, in order. */
  function Effects(fns: seq<Fn>): (t: seq<Entry>)
    ensures OnlyPushes(t)
  {
    if fns == [] then []
    else Effects(fns[..|fns| - 1]) + Exec(fns[|fns| - 1]).effects
  }

  /** Runs `fns[0]`, `fns[1]`, ... up to and including the first one that returns an error (or
      the last one), and returns what that step returned; `true` when there is no step. */
  function LeftToRight(fns: seq<Fn>): Outcome {
    if fns == [] then Outcome(Bool(true), [])
    else
      var k := if FirstError(fns) < |fns| then FirstError(fns) else |fns| - 1;
      Outcome(Exec(fns[k]).ret, Effects(fns[..k + 1]))
  }

  lemma {:induction false} FirstErrorSnoc(s: seq<Fn>, f: Fn)
    ensures FirstError(s) < |s| ==> FirstError(s + [f]) == FirstError(s)
    ensures FirstError(s) == |s| ==> FirstError(s + [f]) >= |s|
  {
    if s != [] {
      var t := s + [f];
      assert t[0] == s[0];
      assert t[1..] == s[1..] + [f];
      FirstErrorSnoc(s[1..], f);
      if IsSuccess(Exec(s[0]).ret) {
        assert FirstError(s) == 1 + FirstError(s[1..]);
        assert FirstError(t) == 1 + FirstError(s[1..] + [f]);
      }
    }
  }

  lemma LeftToRightFirst(f: Fn)
    ensures LeftToRight([f]) == Exec(f)
  {
    assert [f][..1] == [f] && [f][..0] == [];
    assert Effects([f]) == Effects([]) + Exec(f).effects;
  }

  /** The reference returns an error exactly when some step does. */
  lemma LeftToRightErrorIff(s: seq<Fn>)
    requires s != []
    ensures IsError(LeftToRight(s).ret) <==> FirstError(s) < |s|
  {
    if FirstError(s) == |s| {
      assert IsSuccess(Exec(s[|s| - 1]).ret);
    }
  }

  /** After an error the next step does not change the reference outcome. */
  lemma LeftToRightAfterError(s: seq<Fn>, f: Fn)
    requires s != [] && IsError(LeftToRight(s).ret)
    ensures LeftToRight(s + [f]) == LeftToRight(s)
  {
    FirstErrorSnoc(s, f);
    LeftToRightErrorIff(s);
    var t := s + [f];
    var k := FirstError(s);
    assert t[..k + 1] == s[..k + 1];
    assert t[k] == s[k];
  }

  /** After a success the next step runs and its return becomes the outcome. */
  lemma LeftToRightAfterSuccess(s: seq<Fn>, f: Fn)
    requires s != [] && IsSuccess(LeftToRight(s).ret)
    ensures LeftToRight(s + [f]) == Outcome(Exec(f).ret, LeftToRight(s).effects + Exec(f).effects)
  {
    FirstErrorSnoc(s, f);
    LeftToRightErrorIff(s);
    var t := s + [f];
    assert t[..|s| + 1] == t;
    assert t[..|s|] == s;
    assert s[..|s|] == s;
    assert t[|s|] == f;
  }

  /** The nested closures built by the fold behave as the left-to-right reference. */
  lemma {:induction false} EvalIsLeftToRight(p: Pipeline)
    ensures Eval(p) == LeftToRight(Steps(p))
  {
    match p
    case Fallback =>
    case Single(f) =>
      LeftToRightFirst(f);
    case Then(composed, f) =>
      EvalIsLeftToRight(composed);
      var s := Steps(composed);
      if s == [] {
        assert s + [f] == [f];
        LeftToRightFirst(f);
      } else if IsError(LeftToRight(s).ret) {
        LeftToRightAfterError(s, f);
      } else {
        LeftToRightAfterSuccess(s, f);
      }
  }

  /** The first-error index is determined by its defining properties. */
  lemma {:induction false} FirstErrorAt(fns: seq<Fn>, k: nat)
    requires k < |fns|
    requires forall i :: 0 <= i < k ==> IsSuccess(Exec(fns[i]).ret)
    requires IsError(Exec(fns[k]).ret)
    ensures FirstError(fns) == k
  {
    if k > 0 {
      assert IsSuccess(Exec(fns[0]).ret);
      var rest := fns[1..];
      assert forall i :: 0 <= i < k - 1 ==> rest[i] == fns[i + 1];
      FirstErrorAt(rest, k - 1);
    }
  }

  // ---------------------------------------------------------------------------------------
  // Properties of the composed pipeline

  /** Flattening distributes over concatenation, so the order of the steps is kept. */
  lemma {:induction false} FlattenAppend(a: seq<Item>, b: seq<Item>)
    ensures Flatten(a + b) == Flatten(a) + Flatten(b)
  {
    if a == [] {
      assert a + b == b;
    } else {
      var ab := a + b;
      assert ab[0] == a[0];
      assert ab[1..] == a[1..] + b;
      FlattenAppend(a[1..], b);
      var head := match a[0]
        case Callable(f) => [Some(f)]
        case NilItem => [None]
        case Array(elems) => Flatten(elems);
      assert Flatten(ab) == head + Flatten(a[1..] + b);
      assert Flatten(a) == head + Flatten(a[1..]);
    }
  }

  lemma {:induction false} CompactAppend(a: seq<Option<Fn>>, b: seq<Option<Fn>>)
    ensures Compact(a + b) == Compact(a) + Compact(b)
  {
    if a == [] {
      assert a + b == b;
    } else {
      var ab := a + b;
      assert ab[0] == a[0];
      assert ab[1..] == a[1..] + b;
      CompactAppend(a[1..], b);
      var head := if a[0].Some? then [a[0].value] else [];
      assert Compact(ab) == head + Compact(a[1..] + b);
      assert Compact(a) == head + Compact(a[1..]);
    }
  }

  /** `flatten.compact` of a concatenation is the concatenation, so the order of steps is kept. */
  lemma FlatStepsAppend(a: seq<Item>, b: seq<Item>)
    ensures FlatSteps(a + b) == FlatSteps(a) + FlatSteps(b)
  {
    FlattenAppend(a, b);
    CompactAppend(Flatten(a), Flatten(b));
  }

  /** A step survives `flatten.compact` as itself, and `nil` disappears. */
  lemma FlatStepsOfEntry(f: Fn)
    ensures FlatSteps([Callable(f)]) == [f]
    ensures FlatSteps([NilItem]) == []
  {
    assert [Callable(f)][1..] == [] && [NilItem][1..] == [];
    assert Flatten([Callable(f)]) == [Some(f)];
    assert [Some(f)][1..] == [];
    assert Flatten([NilItem]) == [None];
    var nils: seq<Option<Fn>> := [None];
    assert nils[1..] == [];
  }

  /** A nested array, at any depth, is spliced in: wrapping entries in an array changes nothing. */
  lemma FlatStepsOfArray(elems: seq<Item>)
    ensures FlatSteps([Array(elems)]) == FlatSteps(elems)
  {
    assert [Array(elems)][1..] == [];
    assert Flatten([Array(elems)]) == Flatten(elems) + Flatten([]);
    assert Flatten(elems) + [] == Flatten(elems);
  }

  /** A list that flattens to nothing gives the pipeline that runs no step and returns `true`. */
  lemma EmptyListReturnsTrue(items: seq<Item>)
    requires FlatSteps(items) == []
    ensures Compose(items) == Fallback
    ensures Eval(Compose(items)) == Outcome(Bool(true), [])
  {
  }

  /** If no step returns an error, every step runs once, in order, and the pipeline returns
      what the last step returned. */
  lemma NoErrorRunsEveryStep(items: seq<Item>)
    requires FlatSteps(items) != []
    requires forall i :: 0 <= i < |FlatSteps(items)| ==> IsSuccess(Exec(FlatSteps(items)[i]).ret)
    ensures Eval(Compose(items)).effects == Effects(FlatSteps(items))
    ensures Eval(Compose(items)).ret == Exec(FlatSteps(items)[|FlatSteps(items)| - 1]).ret
  {
    var fns := FlatSteps(items);
    EvalIsLeftToRight(Compose(items));
    assert FirstError(fns) == |fns|;
    assert fns[..|fns|] == fns;
  }

  /** If step `k` is the first to return an error, steps `0..k` run, no later step runs, and
      the pipeline returns step `k`'s error value itself, not unwrapped. */
  lemma FirstErrorStops(items: seq<Item>, k: nat)
    requires k < |FlatSteps(items)|
    requires forall i :: 0 <= i < k ==> IsSuccess(Exec(FlatSteps(items)[i]).ret)
    requires IsError(Exec(FlatSteps(items)[k]).ret)
    ensures Eval(Compose(items)) == Outcome(Exec(FlatSteps(items)[k]).ret, Effects(FlatSteps(items)[..k + 1]))
    ensures IsError(Eval(Compose(items)).ret)
  {
    var fns := FlatSteps(items);
    EvalIsLeftToRight(Compose(items));
    FirstErrorAt(fns, k);
  }

  /** With one surviving step the pipeline is that step itself. */
  lemma SingleStepIsTheStep(items: seq<Item>)
    requires |FlatSteps(items)| == 1
    ensures Compose(items) == Single(FlatSteps(items)[0])
    ensures Eval(Compose(items)) == Exec(FlatSteps(items)[0])
  {
  }

  /** A non-error return is thrown away: the next step's result and effects do not depend on it. */
  lemma SuccessReturnDiscarded(p: Pipeline, q: Pipeline, f: Fn)
    requires IsSuccess(Eval(p).ret) && IsSuccess(Eval(q).ret)
    requires Eval(p).effects == Eval(q).effects
    ensures Eval(Then(p, f)) == Eval(Then(q, f))
    ensures Eval(Then(p, f)).ret == Exec(f).ret
  {
  }

  /** When every step pushes exactly one value, the log lists those values once each, in order. */
  lemma {:induction false} EffectsListEachStepOnce(fns: seq<Fn>)
    requires forall i :: 0 <= i < |fns| ==> fns[i].Effect? && |fns[i].pushes| == 1
    ensures |Effects(fns)| == |fns|
    ensures forall i :: 0 <= i < |fns| ==> Effects(fns)[i] == Pushed(fns[i].pushes[0])
  {
    if fns != [] {
      var init := fns[..|fns| - 1];
      EffectsListEachStepOnce(init);
      assert forall i :: 0 <= i < |init| ==> init[i] == fns[i];
    }
  }

  // ---------------------------------------------------------------------------------------
  // The scenarios of the composer's own test suite (those about zero-argument steps)

  /** A step that pushes one value and returns a non-error value. */
  predicate PushesOnce(f: Fn) {
    f.Effect? && |f.pushes| == 1 && IsSuccess(f.ret)
  }

  /** `flatten.compact` of three entries. */
  lemma FlatSteps3(x: Item, y: Item, z: Item)
    ensures FlatSteps([x, y, z]) == FlatSteps([x]) + FlatSteps([y]) + FlatSteps([z])
  {
    assert [x, y, z] == [x] + ([y] + [z]);
    FlatStepsAppend([x], [y] + [z]);
    FlatStepsAppend([y], [z]);
  }

  lemma FlatStepsOfThree(a: Fn, b: Fn, c: Fn)
    ensures FlatSteps([Callable(a), Callable(b), Callable(c)]) == [a, b, c]
  {
    FlatSteps3(Callable(a), Callable(b), Callable(c));
    FlatStepsOfEntry(a);
    FlatStepsOfEntry(b);
    FlatStepsOfEntry(c);
  }

  lemma FlatStepsOfTwo(a: Fn, b: Fn)
    ensures FlatSteps([Callable(a), Callable(b)]) == [a, b]
  {
    assert [Callable(a), Callable(b)] == [Callable(a)] + [Callable(b)];
    FlatStepsAppend([Callable(a)], [Callable(b)]);
    FlatStepsOfEntry(a);
    FlatStepsOfEntry(b);
  }

  lemma FlatStepsOfNestedList(a: Fn, b: Fn, c: Fn, d: Fn)
    ensures FlatSteps([Callable(a), Array([Callable(b), NilItem, Callable(c)]), Callable(d)]) == [a, b, c, d]
  {
    var inner := [Callable(b), NilItem, Callable(c)];
    FlatStepsOfStepNilStep(b, c);
    FlatStepsOfArray(inner);
    FlatSteps3(Callable(a), Array(inner), Callable(d));
    FlatStepsOfEntry(a);
    FlatStepsOfEntry(d);
  }

  lemma FlatStepsOfStepNilStep(b: Fn, c: Fn)
    ensures FlatSteps([Callable(b), NilItem, Callable(c)]) == [b, c]
  {
    FlatSteps3(Callable(b), NilItem, Callable(c));
    FlatStepsOfEntry(b);
    FlatStepsOfEntry(c);
  }

  /** Steps `a`, `[b, nil, c]`, `d`: all four run in order and `d`'s return is the result. */
  lemma ComposesNestedList(a: Fn, b: Fn, c: Fn, d: Fn)
    requires PushesOnce(a) && PushesOnce(b) && PushesOnce(c) && PushesOnce(d)
    ensures var o := Eval(Compose([Callable(a), Array([Callable(b), NilItem, Callable(c)]), Callable(d)]));
      o.effects == Pushes(a.pushes + b.pushes + c.pushes + d.pushes) && o.ret == d.ret
  {
    var items := [Callable(a), Array([Callable(b), NilItem, Callable(c)]), Callable(d)];
    FlatStepsOfNestedList(a, b, c, d);
    NoErrorRunsEveryStep(items);
    EffectsListEachStepOnce([a, b, c, d]);
  }

  /** Steps `a`, `b` (returns an error), `c`: `c` never runs and `b`'s error value is returned. */
  lemma ComposesErrorHandling(a: Fn, b: Fn, c: Fn)
    requires PushesOnce(a) && PushesOnce(c)
    requires b.Effect? && |b.pushes| == 1 && IsError(b.ret)
    ensures var o := Eval(Compose([Callable(a), Callable(b), Callable(c)]));
      o.effects == Pushes(a.pushes + b.pushes) && o.ret == b.ret
  {
    var items := [Callable(a), Callable(b), Callable(c)];
    FlatStepsOfThree(a, b, c);
    FirstErrorStops(items, 1);
    assert [a, b, c][..2] == [a, b];
    EffectsListEachStepOnce([a, b]);
  }

  /** `[[], [nil], nil]` flattens to nothing, and the pipeline returns `true`. */
  lemma AllNilReturnsTrue()
    ensures Eval(Compose([Array([]), Array([NilItem]), NilItem])) == Outcome(Bool(true), [])
  {
    FlatSteps3(Array([]), Array([NilItem]), NilItem);
    FlatStepsOfArray([]);
    FlatStepsOfArray([NilItem]);
    FlatStepsOfEntry(Effect([], Nil));
  }

  /** Two steps that each push once: both push, in order, and the second's return is the result. */
  lemma ComposesTwo(x: Fn, y: Fn)
    requires PushesOnce(x) && PushesOnce(y)
    ensures Eval(Compose([Callable(x), Callable(y)])) == Outcome(y.ret, Pushes(x.pushes + y.pushes))
  {
    FlatStepsOfTwo(x, y);
    NoErrorRunsEveryStep([Callable(x), Callable(y)]);
    EffectsListEachStepOnce([x, y]);
  }

  /** A step that runs `call_each(x, y)` contributes their pushes in its place. */
  lemma NestedCallEachInPlace(a: Fn, x: Fn, y: Fn, c: Fn)
    requires PushesOnce(a) && PushesOnce(x) && PushesOnce(y) && PushesOnce(c)
    ensures var n := Nested(Compose([Callable(x), Callable(y)]));
      Eval(Compose([Callable(a), Callable(n), Callable(c)])).effects
        == Pushes(a.pushes + x.pushes + y.pushes + c.pushes)
  {
    var n := Nested(Compose([Callable(x), Callable(y)]));
    NestedStep(x, y);
    NestedEffects(a, n, c);
    PushesAppend(a.pushes, x.pushes + y.pushes, c.pushes);
  }

  lemma NestedStep(x: Fn, y: Fn)
    requires PushesOnce(x) && PushesOnce(y)
    ensures Exec(Nested(Compose([Callable(x), Callable(y)]))) == Outcome(y.ret, Pushes(x.pushes + y.pushes))
  {
    ComposesTwo(x, y);
  }

  lemma PushesAppend(a: seq<Value>, b: seq<Value>, c: seq<Value>)
    ensures Pushes(a) + Pushes(b) + Pushes(c) == Pushes(a + b + c)
  {
  }

  lemma NestedEffects(a: Fn, n: Fn, c: Fn)
    requires IsSuccess(Exec(a).ret) && IsSuccess(Exec(n).ret) && IsSuccess(Exec(c).ret)
    ensures Eval(Compose([Callable(a), Callable(n), Callable(c)])).effects
      == Exec(a).effects + Exec(n).effects + Exec(c).effects
  {
    var items := [Callable(a), Callable(n), Callable(c)];
    FlatStepsOfThree(a, n, c);
    var fns := FlatSteps(items);
    assert forall i :: 0 <= i < |fns| ==> IsSuccess(Exec(fns[i]).ret);
    NoErrorRunsEveryStep(items);
    EffectsOfThree(a, n, c);
  }

  lemma EffectsOfThree(a: Fn, n: Fn, c: Fn)
    ensures Effects([a, n, c]) == Exec(a).effects + Exec(n).effects + Exec(c).effects
  {
    var fns := [a, n, c];
    assert fns[..2] == [a, n] && [a, n][..1] == [a] && [a][..0] == [];
    assert Effects([a]) == Exec(a).effects;
  }

  // ---------------------------------------------------------------------------------------
  // Running a pipeline against the caller's log

  function FnSize(f: Fn): nat {
    match f
    case Effect(_, _) => 1
    case Nested(p) => PipeSize(p) + 1
  }

  function PipeSize(p: Pipeline): nat {
    match p
    case Fallback => 1
    case Single(f) => FnSize(f) + 1
    case Then(composed, f) => PipeSize(composed) + FnSize(f) + 1
  }

  lemma {:induction false} StepIsSmaller(p: Pipeline, i: nat)
    requires i < |Steps(p)|
    ensures FnSize(Steps(p)[i]) < PipeSize(p)
  {
    match p
    case Fallback =>
    case Single(f) =>
    case Then(composed, f) =>
      if i < |Steps(composed)| {
        StepIsSmaller(composed, i);
      }
  }

  /** Calls one step: its pushes go to the log. */
  method Invoke(f: Fn, log: Log) returns (r: Value)
    modifies log
    ensures r == Exec(f).ret
    ensures log.entries == old(log.entries) + Exec(f).effects
    decreases FnSize(f), 0
  {
    match f
    case Effect(pushes, ret) =>
      log.entries := log.entries + Pushes(pushes);
      r := ret;
    case Nested(p) =>
      r := Run(p, log);
  }

  /** Where the loop of `Run` stops, the state is the reference outcome. */
  lemma LoopExit(fns: seq<Fn>, i: nat, r: Value)
    requires 0 < i <= |fns|
    requires forall j :: 0 <= j < i - 1 ==> IsSuccess(Exec(fns[j]).ret)
    requires r == Exec(fns[i - 1]).ret
    requires i == |fns| || IsError(r)
    ensures LeftToRight(fns) == Outcome(r, Effects(fns[..i]))
  {
    if IsError(r) {
      FirstErrorAt(fns, i - 1);
    } else {
      assert i == |fns|;
      assert FirstError(fns) >= |fns| - 1;
    }
  }

  lemma EffectsSnoc(fns: seq<Fn>, i: nat)
    requires i < |fns|
    ensures Effects(fns[..i + 1]) == Effects(fns[..i]) + Exec(fns[i]).effects
  {
    assert fns[..i + 1][..i] == fns[..i];
  }

  /** Calls a pipeline: the steps it chains run one after another until one returns an error. */
  method Run(p: Pipeline, log: Log) returns (r: Value)
    modifies log
    ensures r == Eval(p).ret
    ensures log.entries == old(log.entries) + Eval(p).effects
    decreases PipeSize(p), 2
  {
    forall i | 0 <= i < |Steps(p)|
      ensures FnSize(Steps(p)[i]) < PipeSize(p)
    {
      StepIsSmaller(p, i);
    }
    r := RunSteps(Steps(p), log, PipeSize(p));
    EvalIsLeftToRight(p);
  }

  /** The loop over a flat list of steps: run each in turn, stop after the first error. */
  method RunSteps(fns: seq<Fn>, log: Log, ghost bound: nat) returns (r: Value)
    requires forall i :: 0 <= i < |fns| ==> FnSize(fns[i]) < bound
    modifies log
    ensures r == LeftToRight(fns).ret
    ensures log.entries == old(log.entries) + LeftToRight(fns).effects
    decreases bound, 1
  {
    if fns == [] {
      r := Step.Success();
      return;
    }
    r := Nil;
    var i := 0;
    while i < |fns| && (i == 0 || IsSuccess(r))
      invariant 0 <= i <= |fns|
      invariant forall j :: 0 <= j < i - 1 ==> IsSuccess(Exec(fns[j]).ret)
      invariant i > 0 ==> r == Exec(fns[i - 1]).ret
      invariant log.entries == old(log.entries) + Effects(fns[..i])
    {
      ghost var before := log.entries;
      EffectsSnoc(fns, i);
      r := Invoke(fns[i], log);
      assert log.entries == before + Exec(fns[i]).effects;
      i := i + 1;
    }
    LoopExit(fns, i, r);
  }

  /** `call_each(*fns)`: compose, then call the result once. */
  method CallEach(items: seq<Item>, log: Log) returns (r: Value)
    modifies log
    ensures r == Eval(Compose(items)).ret
    ensures log.entries == old(log.entries) + Eval(Compose(items)).effects
  {
    r := Run(Compose(items), log);
  }
}
