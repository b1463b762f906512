/** Finite runs of a transition system, given by its partial step function. */
module Runs {

  ghost predicate IsRun<S, A>(next: (S, A) --> S, s: S, steps: seq<A>)
    decreases |steps|
  {
    steps == [] || (next.requires(s, steps[0]) && IsRun(next, next(s, steps[0]), steps[1..]))
  }

  ghost function After<S, A>(next: (S, A) --> S, s: S, steps: seq<A>): S
    requires IsRun(next, s, steps)
    decreases |steps|
  {
    if steps == [] then s else After(next, next(s, steps[0]), steps[1..])
  }

  lemma {:induction false} RunsConcat<S, A>(next: (S, A) --> S, s: S, a: seq<A>, b: seq<A>)
    requires IsRun(next, s, a) && IsRun(next, After(next, s, a), b)
    ensures IsRun(next, s, a + b) && After(next, s, a + b) == After(next, After(next, s, a), b)
    decreases |a|
  {
    if a == [] {
      assert a + b == b;
    } else {
      assert (a + b)[0] == a[0] && (a + b)[1..] == a[1..] + b;
      RunsConcat(next, next(s, a[0]), a[1..], b);
    }
  }

  lemma OneStep<S, A>(next: (S, A) --> S, s: S, a: A)
    requires next.requires(s, a)
    ensures IsRun(next, s, [a]) && After(next, s, [a]) == next(s, a)
  {
    assert [a][1..] == [];
    assert IsRun(next, next(s, a), []);
  }

  lemma Cons<S, A>(next: (S, A) --> S, s: S, a: A, steps: seq<A>)
    requires next.requires(s, a) && IsRun(next, next(s, a), steps)
    ensures IsRun(next, s, [a] + steps) && After(next, s, [a] + steps) == After(next, next(s, a), steps)
  {
    assert ([a] + steps)[1..] == steps;
  }

  /** The first i steps are a run themselves. */
  ghost predicate RunPrefix<S, A>(next: (S, A) --> S, s: S, steps: seq<A>, i: nat) {
    i <= |steps| && IsRun(next, s, steps[..i])
  }

  /** A run, seen one step after the other. */
  lemma {:induction false} RunAt<S, A>(next: (S, A) --> S, s: S, steps: seq<A>, i: nat)
    requires IsRun(next, s, steps) && i <= |steps|
    ensures RunPrefix(next, s, steps, i) && IsRun(next, After(next, s, steps[..i]), steps[i..])
    ensures i == 0 ==> After(next, s, steps[..i]) == s
    ensures i < |steps| ==> next.requires(After(next, s, steps[..i]), steps[i]) && RunPrefix(next, s, steps, i + 1)
    ensures i < |steps| ==> After(next, s, steps[..i + 1]) == next(After(next, s, steps[..i]), steps[i])
    decreases i
  {
    if i == 0 {
      assert steps[..0] == [] && steps[0..] == steps;
    } else {
      RunAt(next, s, steps, i - 1);
      assert steps[i - 1..][1..] == steps[i..];
    }
    if i < |steps| {
      OneStep(next, After(next, s, steps[..i]), steps[i]);
      RunsConcat(next, s, steps[..i], [steps[i]]);
      assert steps[..i] + [steps[i]] == steps[..i + 1];
    }
  }

  /** ok holds in every state that the run passes, the first and the last included. */
  ghost predicate Throughout<S(!new), A(!new)>(next: (S, A) --> S, ok: S -> bool, s: S, steps: seq<A>)
    requires IsRun(next, s, steps)
    decreases |steps|
  {
    ok(s) && (steps == [] || Throughout(next, ok, next(s, steps[0]), steps[1..]))
  }
}
