/** Runs of a step system: finite sequences of steps, each taken from the state the previous one left. A
    step that is not possible in a state has no successor. */
module Runs {

  datatype Option<+T> = None | Some(value: T)

  function Run<S, T>(next: (S, T) -> Option<S>, s: S, steps: seq<T>): Option<S> {
    if steps == [] then Some(s)
    else
      match Run(next, s, steps[..|steps| - 1])
      case None => None
      case Some(u) => next(u, steps[|steps| - 1])
  }

  lemma {:induction false} RunAppends<S, T>(next: (S, T) -> Option<S>, s: S, first: seq<T>, second: seq<T>)
    requires Run(next, s, first).Some?
    ensures Run(next, s, first + second) == Run(next, Run(next, s, first).value, second)
  {
    if second == [] {
      assert first + second == first;
    } else {
      RunAppends(next, s, first, second[..|second| - 1]);
      assert (first + second)[..|first + second| - 1] == first + second[..|second| - 1];
    }
  }

  /** A run given by its states. */
  lemma {:induction false} TraceIsRun<S, T>(next: (S, T) -> Option<S>, states: seq<S>, steps: seq<T>)
    requires |states| == |steps| + 1
    requires forall i | 0 <= i < |steps| :: next(states[i], steps[i]) == Some(states[i + 1])
    ensures Run(next, states[0], steps) == Some(states[|steps|])
  {
    if steps != [] {
      TraceIsRun(next, states[..|steps|], steps[..|steps| - 1]);
    }
  }

  /** What every step that may be taken keeps, and what it must be, along a whole run. */
  lemma {:induction false} AlongARun<S(!new), T(!new)>(next: (S, T) -> Option<S>, s: S, steps: seq<T>,
                                                       keeps: S -> bool, may: T -> bool, must: T -> bool)
    requires keeps(s) && Run(next, s, steps).Some? && forall i | 0 <= i < |steps| :: may(steps[i])
    requires forall u, t | keeps(u) && may(t) && next(u, t).Some? :: keeps(next(u, t).value) && must(t)
    ensures keeps(Run(next, s, steps).value)
    ensures forall i | 0 <= i < |steps| :: must(steps[i])
  {
    if steps != [] {
      var front := steps[..|steps| - 1];
      AlongARun(next, s, front, keeps, may, must);
      forall i | 0 <= i < |steps|
        ensures must(steps[i])
      {
        assert i < |front| ==> front[i] == steps[i];
      }
    }
  }

  // ---------------------------------------------------------------- steps of actors

  datatype ActorStep<C> = Step(actor: nat, choice: C)

  function StepsOf<C>(steps: seq<ActorStep<C>>, a: nat): nat {
    if steps == [] then 0
    else StepsOf(steps[..|steps| - 1], a) + if steps[|steps| - 1].actor == a then 1 else 0
  }

  predicate OnlyBy<C>(steps: seq<ActorStep<C>>, actors: set<nat>) {
    forall i | 0 <= i < |steps| :: steps[i].actor in actors
  }
}
