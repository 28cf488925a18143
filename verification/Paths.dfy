/** Finite paths of an arbitrary step relation. */
module Paths {

  ghost predicate ReachesIn<S(!new)>(step: (S, S) -> bool, s: S, t: S, n: nat)
    decreases n
  {
    if n == 0 then s == t else exists u :: step(s, u) && ReachesIn(step, u, t, n - 1)
  }

  ghost predicate Reaches<S(!new)>(step: (S, S) -> bool, s: S, t: S) {
    exists n :: ReachesIn(step, s, t, n)
  }

  lemma {:induction false} ReachesInTransitive<S(!new)>(step: (S, S) -> bool, s: S, t: S, u: S, n: nat, m: nat)
    requires ReachesIn(step, s, t, n) && ReachesIn(step, t, u, m)
    ensures ReachesIn(step, s, u, n + m)
    decreases n
  {
    if n > 0 {
      var v :| step(s, v) && ReachesIn(step, v, t, n - 1);
      ReachesInTransitive(step, v, t, u, n - 1, m);
    }
  }

  lemma ReachesTransitive<S(!new)>(step: (S, S) -> bool, s: S, t: S, u: S)
    requires Reaches(step, s, t) && Reaches(step, t, u)
    ensures Reaches(step, s, u)
  {
    var n :| ReachesIn(step, s, t, n);
    var m :| ReachesIn(step, t, u, m);
    ReachesInTransitive(step, s, t, u, n, m);
  }

  lemma StepReaches<S(!new)>(step: (S, S) -> bool, s: S, t: S)
    ensures Reaches(step, s, s)
    ensures step(s, t) ==> Reaches(step, s, t)
  {
    assert ReachesIn(step, t, t, 0) && ReachesIn(step, s, s, 0);
    if step(s, t) {
      assert ReachesIn(step, s, t, 1);
    }
  }

  /** Consecutive states of a trace are related by the step. */
  ghost predicate Trace<S(!new)>(step: (S, S) -> bool, states: seq<S>) {
    states != [] && forall i :: 0 <= i < |states| - 1 ==> step(states[i], states[i + 1])
  }

  lemma {:induction false} Always<S(!new)>(step: (S, S) -> bool, inv: S -> bool, states: seq<S>, n: nat)
    requires Trace(step, states) && n < |states| && inv(states[0])
    requires forall s, t :: inv(s) && step(s, t) ==> inv(t)
    ensures inv(states[n])
  {
    if n > 0 {
      Always(step, inv, states, n - 1);
      assert step(states[n - 1], states[n - 1 + 1]);
    }
  }

  /** A reflexive and transitive relation that every step from an invariant state respects holds between any two states. */
  lemma {:induction false} Along<S(!new)>(step: (S, S) -> bool, inv: S -> bool, rel: (S, S) -> bool, states: seq<S>, i: nat, j: nat)
    requires Trace(step, states) && i <= j < |states| && inv(states[0])
    requires forall s, t :: inv(s) && step(s, t) ==> inv(t) && rel(s, t)
    requires forall s :: rel(s, s)
    requires forall s, t, u :: rel(s, t) && rel(t, u) ==> rel(s, u)
    ensures rel(states[i], states[j])
    decreases j
  {
    if i < j {
      Along(step, inv, rel, states, i, j - 1);
      Always(step, inv, states, j - 1);
      assert step(states[j - 1], states[j - 1 + 1]);
    }
  }
}
