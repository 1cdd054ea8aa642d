/** Finite runs of a transition system given as a partial step function. */
module Runs {
  import opened ColodTypes

  /** `moves`, each possible when it is made, lead from `s0` to `s`. */
  ghost predicate Reaches<S(!new), M(!new)>(step: (S, M) -> Option<S>, s0: S, moves: seq<M>, s: S)
    decreases |moves|
  {
    if moves == [] then s == s0
    else
      var next := step(s0, moves[0]);
      next.Some? && Reaches(step, next.value, moves[1..], s)
  }

  lemma {:induction false} Concat<S(!new), M(!new)>(step: (S, M) -> Option<S>, s0: S, a: seq<M>, s1: S, b: seq<M>,
                                                    s2: S)
    requires Reaches(step, s0, a, s1) && Reaches(step, s1, b, s2)
    ensures Reaches(step, s0, a + b, s2)
    decreases |a|
  {
    if a == [] {
      assert a + b == b;
    } else {
      assert (a + b)[1..] == a[1..] + b;
      Concat(step, step(s0, a[0]).value, a[1..], s1, b, s2);
    }
  }

  lemma One<S(!new), M(!new)>(step: (S, M) -> Option<S>, s0: S, m: M)
    requires step(s0, m).Some?
    ensures Reaches(step, s0, [m], step(s0, m).value)
  {
    assert Reaches(step, step(s0, m).value, [m][1..], step(s0, m).value);
  }

  /** A run followed by one more move. */
  lemma Extend<S(!new), M(!new)>(step: (S, M) -> Option<S>, s0: S, moves: seq<M>, s: S, m: M)
    requires Reaches(step, s0, moves, s) && step(s, m).Some?
    ensures Reaches(step, s0, moves + [m], step(s, m).value)
  {
    One(step, s, m);
    Concat(step, s0, moves, s, [m], step(s, m).value);
  }

  /** A property every step keeps holds at the end of every run. */
  lemma {:induction false} Invariant<S(!new), M(!new)>(step: (S, M) -> Option<S>, inv: S -> bool, s0: S,
                                                       moves: seq<M>, s: S)
    requires Reaches(step, s0, moves, s) && inv(s0)
    requires forall t, m :: inv(t) && step(t, m).Some? ==> inv(step(t, m).value)
    ensures inv(s)
    decreases |moves|
  {
    if moves != [] {
      Invariant(step, inv, step(s0, moves[0]).value, moves[1..], s);
    }
  }
}
