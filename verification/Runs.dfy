/** Runs of a transition system: sequences of states, each led to from the one before by a step. */
module Runs {
  ghost predicate Path<S(!new), E(!new)>(step: (S, E, S) -> bool, states: seq<S>, steps: seq<E>) {
    |states| == |steps| + 1 && forall i :: 0 <= i < |steps| ==> step(states[i], steps[i], states[i + 1])
  }

  function Final<S>(states: seq<S>): S
    requires states != []
  {
    states[|states| - 1]
  }

  lemma Join<S(!new), E(!new)>(step: (S, E, S) -> bool, states: seq<S>, steps: seq<E>, more: seq<S>, taken: seq<E>)
    returns (states': seq<S>, steps': seq<E>)
    requires Path(step, states, steps) && Path(step, more, taken) && more[0] == Final(states)
    ensures Path(step, states', steps') && states'[0] == states[0] && Final(states') == Final(more)
  {
    states', steps' := states + more[1..], steps + taken;
    forall i | 0 <= i < |steps'|
      ensures step(states'[i], steps'[i], states'[i + 1])
    {
      if i < |steps| {
        assert states'[i] == states[i] && states'[i + 1] == states[i + 1] && steps'[i] == steps[i];
      } else {
        var j := i - |steps|;
        assert states'[i] == more[j] && states'[i + 1] == more[j + 1] && steps'[i] == taken[j];
      }
    }
  }

  lemma Extend<S(!new), E(!new)>(step: (S, E, S) -> bool, states: seq<S>, steps: seq<E>, e: E, s: S)
    returns (states': seq<S>, steps': seq<E>)
    requires Path(step, states, steps) && step(Final(states), e, s)
    ensures Path(step, states', steps') && states'[0] == states[0] && Final(states') == s
  {
    states', steps' := Join(step, states, steps, [Final(states), s], [e]);
  }

  lemma Prepend<S(!new), E(!new)>(step: (S, E, S) -> bool, s: S, e: E, states: seq<S>, steps: seq<E>)
    returns (states': seq<S>, steps': seq<E>)
    requires states != [] && Path(step, states, steps) && step(s, e, states[0])
    ensures Path(step, states', steps') && states'[0] == s && Final(states') == Final(states)
  {
    states', steps' := Join(step, [s, states[0]], [e], states, steps);
  }
}
