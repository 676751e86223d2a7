/** Runs of a machine, and what its every step keeps. */
module Runs {
  function Run<S, M>(step: (S, M) -> S, start: S, moments: seq<M>, n: nat): S
    requires n <= |moments|
  {
    if n == 0 then start else step(Run(step, start, moments, n - 1), moments[n - 1])
  }

  /** What holds after `m` moments and is kept by every step holds from then on. */
  lemma {:induction false} RunKeeps<S(!new), M(!new)>(
    step: (S, M) -> S, start: S, moments: seq<M>, m: nat, n: nat, kept: S -> bool)
    requires m <= n <= |moments| && kept(Run(step, start, moments, m))
    requires forall state, moment :: moment in moments && kept(state) ==> kept(step(state, moment))
    ensures kept(Run(step, start, moments, n))
    decreases n
  {
    if m < n {
      RunKeeps(step, start, moments, m, n - 1, kept);
    }
  }

  /** Each of the first `n` moments comes where `comes` lets it. */
  predicate AllCome<S, M>(step: (S, M) -> S, start: S, moments: seq<M>, n: nat, comes: (S, M) -> bool)
    requires n <= |moments|
  {
    n == 0
    || (AllCome(step, start, moments, n - 1, comes) && comes(Run(step, start, moments, n - 1), moments[n - 1]))
  }

  /** No more moments come than there is work, when each does some. */
  lemma {:induction false} WorkRunsOut<S(!new), M(!new)>(
    step: (S, M) -> S, start: S, moments: seq<M>, n: nat,
    comes: (S, M) -> bool, kept: S -> bool, work: S -> nat)
    requires n <= |moments| && kept(start) && AllCome(step, start, moments, n, comes)
    requires forall state, moment :: kept(state) && comes(state, moment) ==>
               kept(step(state, moment)) && work(step(state, moment)) < work(state)
    ensures kept(Run(step, start, moments, n))
    ensures n + work(Run(step, start, moments, n)) <= work(start)
  {
    if n > 0 {
      WorkRunsOut(step, start, moments, n - 1, comes, kept, work);
      var before := Run(step, start, moments, n - 1);
      assert kept(before) && comes(before, moments[n - 1]);
    }
  }

  lemma {:induction false} RunOfPrefix<S, M>(step: (S, M) -> S, start: S, moments: seq<M>, more: seq<M>, n: nat)
    requires n <= |moments|
    ensures Run(step, start, moments + more, n) == Run(step, start, moments, n)
  {
    if n > 0 {
      RunOfPrefix(step, start, moments, more, n - 1);
    }
  }

  /** One moment more. */
  lemma RunThen<S, M>(step: (S, M) -> S, start: S, moments: seq<M>, moment: M)
    ensures Run(step, start, moments + [moment], |moments| + 1)
         == step(Run(step, start, moments, |moments|), moment)
  {
    RunOfPrefix(step, start, moments, [moment], |moments|);
  }

  lemma RunOfFour<S, M>(step: (S, M) -> S, start: S, a: M, b: M, c: M, d: M)
    ensures Run(step, start, [a, b, c, d], 3) == step(step(step(start, a), b), c)
    ensures Run(step, start, [a, b, c, d], 4) == step(step(step(step(start, a), b), c), d)
  {
    assert Run(step, start, [a, b, c, d], 1) == step(start, a);
    assert Run(step, start, [a, b, c, d], 2) == step(step(start, a), b);
  }

  lemma RunOfFive<S, M>(step: (S, M) -> S, start: S, a: M, b: M, c: M, d: M, e: M)
    ensures Run(step, start, [a, b, c, d, e], 5) == step(step(step(step(step(start, a), b), c), d), e)
  {
    assert Run(step, start, [a, b, c, d, e], 1) == step(start, a);
    assert Run(step, start, [a, b, c, d, e], 2) == step(step(start, a), b);
    assert Run(step, start, [a, b, c, d, e], 3) == step(step(step(start, a), b), c);
    assert Run(step, start, [a, b, c, d, e], 4) == step(step(step(step(start, a), b), c), d);
  }
}
