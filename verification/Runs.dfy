/** Runs of a transition system, and induction over them. */
module Runs {
  ghost predicate StepAt<S, T>(step: (S, T, S) -> bool, states: seq<S>, steps: seq<T>, i: int) {
    0 <= i < |steps| < |states| ==> step(states[i], steps[i], states[i + 1])
  }

  /** `states[i]` steps to `states[i + 1]` by `steps[i]`. */
  ghost predicate IsTrace<S, T>(step: (S, T, S) -> bool, states: seq<S>, steps: seq<T>) {
    && |states| == |steps| + 1
    && (forall i :: StepAt(step, states, steps, i))
  }

  /** What holds at one state and is kept by every step holds at every later state. */
  lemma {:induction false} Induction<S(!new), T(!new)>(
      inv: S -> bool, step: (S, T, S) -> bool, states: seq<S>, steps: seq<T>, m: nat, n: nat)
    requires IsTrace(step, states, steps) && m <= n < |states|
    requires inv(states[m])
    requires forall s, t, s' {:trigger step(s, t, s')} :: inv(s) && step(s, t, s') ==> inv(s')
    ensures inv(states[n])
    decreases n
  {
    if m < n {
      Induction(inv, step, states, steps, m, n - 1);
      assert StepAt(step, states, steps, n - 1);
    }
  }

  /**
   Where, in every reachable state, a step keeps what is good if and only if it
   is not a bad step, a whole run is good if and only if it has no bad step.
   */
  lemma {:induction false} ExactInduction<S(!new), T(!new)>(
      inv: S -> bool, good: S -> bool, bad: (S, T) -> bool, step: (S, T, S) -> bool, states: seq<S>, steps: seq<T>, n: nat)
    requires IsTrace(step, states, steps) && n < |states|
    requires inv(states[0]) && good(states[0])
    requires forall s, t, s' {:trigger step(s, t, s')} ::
      inv(s) && step(s, t, s') ==> inv(s') && (good(s) ==> (good(s') <==> !bad(s, t)))
    ensures inv(states[n])
    ensures (forall m :: 0 <= m <= n ==> good(states[m])) <==> (forall i :: 0 <= i < n ==> !bad(states[i], steps[i]))
    decreases n
  {
    if n > 0 {
      ExactInduction(inv, good, bad, step, states, steps, n - 1);
      assert StepAt(step, states, steps, n - 1);
      assert step(states[n - 1], steps[n - 1], states[n]);
    }
  }

  lemma TraceGrows<S, T>(step: (S, T, S) -> bool, states: seq<S>, steps: seq<T>, t: T, s': S)
    requires IsTrace(step, states, steps) && step(states[|steps|], t, s')
    ensures IsTrace(step, states + [s'], steps + [t])
  {
    forall i ensures StepAt(step, states + [s'], steps + [t], i) {
      assert StepAt(step, states, steps, i);
    }
  }
}
