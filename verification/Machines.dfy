/** Labelled transition systems and their runs.

    A concurrent protocol is modelled as a partial function from a state and an
    action to the next state: `None` says that the action is not enabled. A run is
    any sequence of actions that is enabled step by step, so a statement about
    every sequence `actions` with `Run(step, s, actions).Some?` is a statement about
    every interleaving of the threads that own the actions. */
module Machines {

  datatype Option<+T> = None | Some(value: T)

  /** The state reached from `s` by `actions`, if every one of them is enabled in turn. */
  function Run<S, A>(step: (S, A) -> Option<S>, s: S, actions: seq<A>): Option<S>
    decreases |actions|
  {
    if |actions| == 0 then Some(s)
    else
      match Run(step, s, actions[..|actions| - 1])
      case None => None
      case Some(before) => step(before, actions[|actions| - 1])
  }

  lemma RunSnoc<S, A>(step: (S, A) -> Option<S>, s: S, actions: seq<A>, a: A)
    ensures Run(step, s, actions + [a]) ==
            match Run(step, s, actions)
            case None => None
            case Some(before) => step(before, a)
  {
    assert (actions + [a])[..|actions|] == actions;
  }

  /** Running two sequences one after the other is running their concatenation. */
  lemma {:induction false} RunConcat<S, A>(step: (S, A) -> Option<S>, s: S, first: seq<A>, second: seq<A>)
    ensures Run(step, s, first + second) ==
            match Run(step, s, first)
            case None => None
            case Some(mid) => Run(step, mid, second)
    decreases |second|
  {
    if |second| == 0 {
      assert first + second == first;
    } else {
      var n := |second| - 1;
      assert first + second == (first + second[..n]) + [second[n]];
      RunSnoc(step, s, first + second[..n], second[n]);
      RunConcat(step, s, first, second[..n]);
    }
  }

  /** Induction over runs: what every step keeps, every run keeps. */
  lemma {:induction false} RunKeeps<S(!new), A(!new)>(
    step: (S, A) -> Option<S>, inv: S -> bool, s: S, actions: seq<A>)
    requires inv(s)
    requires forall t, a :: inv(t) && step(t, a).Some? ==> inv(step(t, a).value)
    ensures Run(step, s, actions).Some? ==> inv(Run(step, s, actions).value)
    decreases |actions|
  {
    if |actions| == 0 {
    } else {
      RunKeeps(step, inv, s, actions[..|actions| - 1]);
    }
  }

  function Total<A>(cost: A -> int, actions: seq<A>): int {
    if |actions| == 0 then 0
    else Total(cost, actions[..|actions| - 1]) + cost(actions[|actions| - 1])
  }

  /** Amortised bound: a potential that grows by at most the cost of each step grows by at most
      the total cost of a run. */
  lemma {:induction false} RunPotential<S(!new), A(!new)>(
    step: (S, A) -> Option<S>, inv: S -> bool, potential: S -> int, cost: A -> int, s: S, actions: seq<A>)
    requires inv(s)
    requires forall t, a :: inv(t) && step(t, a).Some? ==>
                              inv(step(t, a).value) && potential(step(t, a).value) <= potential(t) + cost(a)
    requires Run(step, s, actions).Some?
    ensures inv(Run(step, s, actions).value)
    ensures potential(Run(step, s, actions).value) <= potential(s) + Total(cost, actions)
    decreases |actions|
  {
    if |actions| == 0 {
    } else {
      RunPotential(step, inv, potential, cost, s, actions[..|actions| - 1]);
    }
  }

  /** A machine that always answers: its final state and its answers. */
  function Trace<S, A, O>(step: (S, A) -> (S, O), s: S, acts: seq<A>): (S, seq<O>)
    decreases |acts|
  {
    if |acts| == 0 then (s, [])
    else
      var (t, answers) := Trace(step, s, acts[..|acts| - 1]);
      var (u, answer) := step(t, acts[|acts| - 1]);
      (u, answers + [answer])
  }

  /** Later actions do not change earlier answers. */
  lemma {:induction false} TracePrefix<S, A, O>(step: (S, A) -> (S, O), s: S, acts: seq<A>, n: nat)
    requires n <= |acts|
    ensures |Trace(step, s, acts).1| == |acts| && |Trace(step, s, acts[..n]).1| == n
    ensures Trace(step, s, acts).1[..n] == Trace(step, s, acts[..n]).1
    decreases |acts|
  {
    if n < |acts| {
      TracePrefix(step, s, acts[..|acts| - 1], n);
      assert acts[..|acts| - 1][..n] == acts[..n];
    } else {
      assert acts[..n] == acts;
      if n > 0 {
        TracePrefix(step, s, acts[..n - 1], n - 1);
      }
    }
  }
}
