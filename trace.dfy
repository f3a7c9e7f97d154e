/** The caller-visible state that steps and callbacks change: an append-only log of events,
    like the `handled`, `calls` and `messages` arrays the steps and callbacks push onto. */
module Trace {
  import opened Error

  /** Which caller callback was invoked. */
  datatype Role = OnSuccess | OnFailure

  datatype Entry =
    | Pushed(v: Value)                       // a step appended `v` to a caller array
    | TransactionOpened
    | Committed
    | RolledBack
    | Called(role: Role, args: seq<Value>)   // a callback ran with these arguments

  /** Every entry of `t` was produced by a step body, none by the runner. */
  predicate OnlyPushes(t: seq<Entry>) {
    forall i :: 0 <= i < |t| ==> t[i].Pushed?
  }

  /** The entries of a step body that pushes `vs` in order. */
  function Pushes(vs: seq<Value>): (t: seq<Entry>)
    ensures |t| == |vs| && OnlyPushes(t)
    ensures forall i :: 0 <= i < |vs| ==> t[i] == Pushed(vs[i])
  {
    seq(|vs|, i requires 0 <= i < |vs| => Pushed(vs[i]))
  }

  class Log {
    var entries: seq<Entry>

    constructor ()
      ensures entries == []
    {
      entries := [];
    }
  }
}
