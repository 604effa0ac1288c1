/**
 Runs of a transition system and the one induction every safety theorem uses.
 */
module Runs {

  /** `run` starts in an initial state and every two neighbours are one step apart. */
  ghost predicate IsRun<S(!new)>(init: S -> bool, next: (S, S) -> bool, run: seq<S>) {
    && |run| > 0
    && init(run[0])
    && forall i :: 0 <= i < |run| - 1 ==> next(run[i], run[i + 1])
  }

  ghost predicate Reachable<S(!new)>(init: S -> bool, next: (S, S) -> bool, s: S) {
    exists run :: IsRun(init, next, run) && run[|run| - 1] == s
  }

  ghost predicate Inductive<S(!new)>(init: S -> bool, next: (S, S) -> bool, inv: S -> bool) {
    && (forall s :: init(s) ==> inv(s))
    && (forall s, s' :: inv(s) && next(s, s') ==> inv(s'))
  }

  /** An inductive predicate holds at every point of every run. */
  lemma {:induction false} InvariantOnRun<S(!new)>(init: S -> bool, next: (S, S) -> bool, inv: S -> bool,
      run: seq<S>, i: nat)
    requires IsRun(init, next, run) && Inductive(init, next, inv)
    requires i < |run|
    ensures inv(run[i])
  {
    if i > 0 {
      InvariantOnRun(init, next, inv, run, i - 1);
      assert next(run[i - 1], run[i - 1 + 1]);
    }
  }

  lemma Invariant<S(!new)>(init: S -> bool, next: (S, S) -> bool, inv: S -> bool, s: S)
    requires Reachable(init, next, s) && Inductive(init, next, inv)
    ensures inv(s)
  {
    var run :| IsRun(init, next, run) && run[|run| - 1] == s;
    InvariantOnRun(init, next, inv, run, |run| - 1);
  }

  /** One more step from a reachable state reaches a reachable state. */
  lemma ReachableStep<S(!new)>(init: S -> bool, next: (S, S) -> bool, s: S, s': S)
    requires Reachable(init, next, s) && next(s, s')
    ensures Reachable(init, next, s')
  {
    var run :| IsRun(init, next, run) && run[|run| - 1] == s;
    var longer := run + [s'];
    forall i | 0 <= i < |longer| - 1
      ensures next(longer[i], longer[i + 1])
    {
      if i < |run| - 1 {
        assert next(run[i], run[i + 1]);
      }
    }
    assert IsRun(init, next, longer);
  }

  lemma ReachableInit<S(!new)>(init: S -> bool, next: (S, S) -> bool, s: S)
    requires init(s)
    ensures Reachable(init, next, s)
  {
    assert IsRun(init, next, [s]);
  }

  /** `rel` is a preorder that contains every step out of an `inv` state. */
  ghost predicate Monotone<S(!new)>(next: (S, S) -> bool, inv: S -> bool, rel: (S, S) -> bool) {
    && (forall s :: rel(s, s))
    && (forall a, b, c :: rel(a, b) && rel(b, c) ==> rel(a, c))
    && (forall s, s' :: inv(s) && next(s, s') ==> rel(s, s'))
  }

  /** Such a preorder relates any earlier point of a run to any later one. */
  lemma {:induction false} MonotoneOnRun<S(!new)>(
      init: S -> bool, next: (S, S) -> bool, inv: S -> bool, rel: (S, S) -> bool, run: seq<S>, i: nat, j: nat)
    requires IsRun(init, next, run) && Inductive(init, next, inv) && Monotone(next, inv, rel)
    requires i <= j < |run|
    ensures rel(run[i], run[j])
    decreases j
  {
    if i < j {
      MonotoneOnRun(init, next, inv, rel, run, i, j - 1);
      InvariantOnRun(init, next, inv, run, j - 1);
      assert next(run[j - 1], run[j - 1 + 1]);
    }
  }

  /** What no step out of an `inv` state ends, once it holds, holds at every later point of the run. */
  lemma {:induction false} StaysOnRun<S(!new)>(
      init: S -> bool, next: (S, S) -> bool, inv: S -> bool, p: S -> bool, run: seq<S>, i: nat, j: nat)
    requires IsRun(init, next, run) && Inductive(init, next, inv) && i <= j < |run| && p(run[i])
    requires forall s, s' :: inv(s) && p(s) && next(s, s') ==> p(s')
    ensures p(run[j])
    decreases j
  {
    if i < j {
      StaysOnRun(init, next, inv, p, run, i, j - 1);
      InvariantOnRun(init, next, inv, run, j - 1);
      assert next(run[j - 1], run[j - 1 + 1]);
    }
  }

  /** What holds at one point of a run and not at a later one is left in some step between, in the way `exit` says. */
  lemma {:induction false} LeavesOnRun<S(!new)>(
      init: S -> bool, next: (S, S) -> bool, inv: S -> bool, p: S -> bool, exit: (S, S) -> bool, run: seq<S>, i: nat,
      j: nat) returns (k: nat)
    requires IsRun(init, next, run) && Inductive(init, next, inv) && i <= j < |run| && p(run[i]) && !p(run[j])
    requires forall s, s' :: inv(s) && p(s) && next(s, s') ==> p(s') || exit(s, s')
    ensures i <= k < j && p(run[k]) && exit(run[k], run[k + 1])
    decreases j - i
  {
    InvariantOnRun(init, next, inv, run, i);
    assert next(run[i], run[i + 1]);
    if p(run[i + 1]) {
      k := LeavesOnRun(init, next, inv, p, exit, run, i + 1, j);
    } else {
      k := i;
    }
  }

  /** How often `event` happens between two points of a run. */
  ghost function Count<S(!new)>(event: (S, S) -> bool, run: seq<S>, i: nat, j: nat): nat
    requires i <= j < |run|
    decreases j - i
  {
    if i == j then 0 else (if event(run[i], run[i + 1]) then 1 else 0) + Count(event, run, i + 1, j)
  }

  /** A rank that no step raises and every event lowers bounds how often the event happens. */
  lemma {:induction false} RankOnRun<S(!new)>(
      init: S -> bool, next: (S, S) -> bool, inv: S -> bool, p: S -> bool, event: (S, S) -> bool, rank: S -> nat,
      run: seq<S>, i: nat, j: nat)
    requires IsRun(init, next, run) && Inductive(init, next, inv) && i <= j < |run| && p(run[i])
    requires forall s, s' :: inv(s) && p(s) && next(s, s') ==>
               p(s') && rank(s') + (if event(s, s') then 1 else 0) <= rank(s)
    ensures p(run[j]) && Count(event, run, i, j) + rank(run[j]) <= rank(run[i])
    decreases j - i
  {
    if i < j {
      InvariantOnRun(init, next, inv, run, i);
      assert next(run[i], run[i + 1]);
      RankOnRun(init, next, inv, p, event, rank, run, i + 1, j);
    }
  }
}
