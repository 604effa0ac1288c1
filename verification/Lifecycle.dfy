/**
 The lifecycle of a session: close goals, abort ownership and terminal marking.

 Every function below is one section under the lifecycle mutex; the signals an operation closes
 after unlocking are separate steps of the session machine.
 */
module Lifecycle {
  import opened Bytes

  datatype Goal = GoalRunning | GoalWrite | GoalFull | GoalAbort

  function Rank(g: Goal): nat {
    match g
    case GoalRunning => 0
    case GoalWrite => 1
    case GoalFull => 2
    case GoalAbort => 3
  }

  datatype Reason = NoAbort | Explicit | CallerGone | Failure

  type Cause = nat

  /** The mutex-protected fields, the six once-only signals, and the session's stored error. */
  datatype Life = Life(
    goal: Goal, why: Reason, terminal: bool,
    writeReq: bool, fullReq: bool, abortCh: bool, readCh: bool, writeCh: bool, termCh: bool,
    err: Maybe<Cause>)

  const NEW := Life(GoalRunning, NoAbort, false, false, false, false, false, false, false, None)

  predicate Ended(l: Life) { l.terminal || l.goal == GoalAbort }

  /** A graceful request wins only if it raises the goal of a session that has not ended. */
  predicate RequestWins(l: Life, goal: Goal) {
    (goal == GoalWrite || goal == GoalFull) && !l.terminal && Rank(l.goal) < Rank(goal)
  }

  function Request(l: Life, goal: Goal): Life {
    if RequestWins(l, goal) then l.(goal := goal) else l
  }

  /** The winning abort records its reason and publishes the error before anyone can see a signal. */
  function Abort(l: Life, reason: Reason, cause: Maybe<Cause>): Life {
    if Ended(l) then l else l.(goal := GoalAbort, why := reason, err := cause)
  }

  function TryTerminal(l: Life): Life {
    if Ended(l) then l else l.(terminal := true)
  }

  function ForceTerminal(l: Life): Life {
    l.(terminal := true)
  }

  class SessionLifecycle {
    var goal: Goal
    var why: Reason
    var terminal: bool
    var writeReq: bool
    var fullReq: bool
    var abortCh: bool
    var readCh: bool
    var writeCh: bool
    var termCh: bool
    var err: Maybe<Cause>

    ghost function State(): Life
      reads this
    {
      Life(goal, why, terminal, writeReq, fullReq, abortCh, readCh, writeCh, termCh, err)
    }

    constructor ()
      ensures State() == NEW
    {
      goal, why, terminal := GoalRunning, NoAbort, false;
      writeReq, fullReq, abortCh, readCh, writeCh, termCh := false, false, false, false, false, false;
      err := None;
    }

    method RequestWithPrevious(wanted: Goal) returns (owner: bool, previous: Goal)
      modifies this
      ensures owner == ((wanted == GoalWrite || wanted == GoalFull) && !old(terminal) && Rank(old(goal)) < Rank(wanted))
      ensures owner ==> State() == old(State()).(goal := wanted, writeReq := true,
                                                 fullReq := old(fullReq) || wanted == GoalFull)
      ensures !owner ==> State() == old(State())
      ensures owner == RequestWins(old(State()), wanted)
      ensures wanted == GoalWrite || wanted == GoalFull ==> previous == old(goal)
      ensures State() == var l := Request(old(State()), wanted);
                         if owner then l.(writeReq := true, fullReq := l.fullReq || wanted == GoalFull) else l
    {
      if wanted == GoalRunning || wanted == GoalAbort {
        return false, GoalRunning;
      }
      previous := goal;
      if terminal || Rank(goal) >= Rank(wanted) {
        return false, previous;
      }
      goal := wanted;
      writeReq := true;
      if Rank(wanted) >= Rank(GoalFull) {
        fullReq := true;
      }
      owner := true;
    }

    method AbortWith(reason: Reason, cause: Maybe<Cause>) returns (won: bool)
      modifies this
      ensures won == (!old(terminal) && old(goal) != GoalAbort) && (!won ==> State() == old(State()))
      ensures won ==> State() == old(State()).(goal := GoalAbort, why := reason, err := cause, writeReq := true,
                          fullReq := true, abortCh := true, readCh := true, writeCh := true)
      ensures State() == var l := Abort(old(State()), reason, cause);
                         if won then l.(writeReq := true, fullReq := true, abortCh := true, readCh := true,
                             writeCh := true) else l
    {
      if terminal || goal == GoalAbort {
        return false;
      }
      goal := GoalAbort;
      why := reason;
      err := cause;
      writeReq, fullReq, abortCh := true, true, true;
      readCh, writeCh := true, true;
      won := true;
    }

    method TryMarkTerminal() returns (won: bool)
      modifies this
      ensures won == (!old(terminal) && old(goal) != GoalAbort) && (!won ==> State() == old(State()))
      ensures won ==> State() == old(State()).(terminal := true, readCh := true, writeCh := true, termCh := true)
      ensures State() == var l := TryTerminal(old(State()));
                         if won then l.(readCh := true, writeCh := true, termCh := true) else l
    {
      if terminal || goal == GoalAbort {
        return false;
      }
      terminal := true;
      readCh, writeCh, termCh := true, true, true;
      won := true;
    }

    method MarkTerminal()
      modifies this
      ensures State() == ForceTerminal(old(State())).(readCh := true, writeCh := true, termCh := true)
    {
      terminal := true;
      readCh, writeCh, termCh := true, true, true;
    }
  }
}
