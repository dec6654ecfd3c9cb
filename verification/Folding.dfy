// Repeating one step over a sequence of arguments.
module Folding {

  // The last argument is applied last.
  ghost function Fold<S, T>(step: (S, T) -> S, s: S, args: seq<T>): S {
    if args == [] then s else step(Fold(step, s, args[..|args| - 1]), args[|args| - 1])
  }

  lemma {:induction false} FoldAppend<S, T>(step: (S, T) -> S, s: S, args: seq<T>, more: seq<T>)
    ensures Fold(step, Fold(step, s, args), more) == Fold(step, s, args + more)
    decreases |more|
  {
    if more == [] {
      assert args + more == args;
    } else {
      FoldAppend(step, s, args, more[..|more| - 1]);
      assert (args + more)[..|args + more| - 1] == args + more[..|more| - 1];
    }
  }
}
