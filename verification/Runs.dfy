/** Finite runs of a transition system and the induction principle over them.
    Every protocol of the library is stated as an initial-state predicate and a
    step relation; a claim about "every reachable state" is a claim about every
    position of every run. */
module Runs {

  ghost predicate IsRun<S(!new)>(init: S -> bool, next: (S, S) -> bool, run: seq<S>) {
    && 0 < |run|
    && init(run[0])
    && forall i :: 0 < i < |run| ==> next(run[i - 1], run[i])
  }

  /** What holds initially and is kept by every step holds at every position. */
  lemma {:induction false} Invariance<S(!new)>(
    init: S -> bool, next: (S, S) -> bool, inv: S -> bool, run: seq<S>, i: nat)
    requires IsRun(init, next, run) && i < |run|
    requires forall s :: init(s) ==> inv(s)
    requires forall s, t :: inv(s) && next(s, t) ==> inv(t)
    ensures inv(run[i])
  {
    if i > 0 {
      Invariance(init, next, inv, run, i - 1);
    }
  }

  /** What reachable states keep once it holds, they keep from then on. */
  lemma {:induction false} Stays<S(!new)>(
    init: S -> bool, next: (S, S) -> bool, inv: S -> bool, kept: S -> bool, run: seq<S>, i: nat, k: nat)
    requires IsRun(init, next, run) && i <= k < |run|
    requires forall s :: init(s) ==> inv(s)
    requires forall s, t :: inv(s) && next(s, t) ==> inv(t)
    requires forall s, t :: inv(s) && kept(s) && next(s, t) ==> kept(t)
    requires kept(run[i])
    ensures kept(run[k])
  {
    if i < k {
      Stays(init, next, inv, kept, run, i, k - 1);
      Invariance(init, next, inv, run, k - 1);
    }
  }

  /** A run goes on with any next step. */
  lemma Extended<S(!new)>(init: S -> bool, next: (S, S) -> bool, run: seq<S>, s: S)
    requires IsRun(init, next, run) && next(run[|run| - 1], s)
    ensures IsRun(init, next, run + [s]) && (run + [s])[|run + [s]| - 1] == s
  {
  }

  /** A run together with the steps taken. */
  ghost predicate IsHistory<S(!new), A(!new)>(
    init: S -> bool, act: (S, A, S) -> bool, run: seq<S>, steps: seq<A>)
  {
    && |run| == |steps| + 1
    && init(run[0])
    && forall i :: 0 <= i < |steps| ==> act(run[i], steps[i], run[i + 1])
  }

  /** Every point of a history is the end of one, and histories are runs. */
  lemma HistoryUpTo<S(!new), A(!new)>(
    init: S -> bool, act: (S, A, S) -> bool, next: (S, S) -> bool, run: seq<S>, steps: seq<A>, n: nat)
    requires IsHistory(init, act, run, steps) && n <= |steps|
    requires forall s, a, s' :: act(s, a, s') ==> next(s, s')
    ensures IsHistory(init, act, run[..n + 1], steps[..n]) && IsRun(init, next, run)
  {
    forall i | 0 < i < |run| ensures next(run[i - 1], run[i]) {
      assert act(run[i - 1], steps[i - 1], run[i - 1 + 1]);
    }
  }
}
