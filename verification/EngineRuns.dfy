/**
 Runs of the engine: a graceful shutdown that succeeds, an abort with a listener and an activity outstanding,
 and a lease that changes hands.
 */
module EngineRuns {
  import opened Runs
  import opened Engine

  ghost predicate Possible(s: System) { Reachable(Init, Next, s) }

  lemma {:induction false} InSection(s: System, s': System)
    requires Possible(s) && SectionStep(s, s')
    ensures Possible(s')
  {
    ReachableStep(Init, Next, s, s');
  }

  lemma {:induction false} ByHolder(s: System, s': System)
    requires Possible(s) && HolderOfMutexStep(s, s')
    ensures Possible(s')
  {
    ReachableStep(Init, Next, s, s');
  }

  lemma {:induction false} Outside(s: System, s': System)
    requires Possible(s) && OutsideStep(s, s')
    ensures Possible(s')
  {
    ReachableStep(Init, Next, s, s');
  }

  const START := System(NEW, Free, [], false, false)

  lemma {:induction false} Starts()
    ensures Possible(START)
  {
    ReachableInit(Init, Next, START);
  }

  // ------------------------------------------------- a shutdown that succeeds

  lemma {:induction false} OpeningOne() returns (s: System)
    ensures Reachable(Init, Next, s)
    ensures s == System(Core(NEW_BOOK.(activeOps := 1), map[], [Opening(0)], []), Free, [Holding(0)], false, false)
  {
    var s0 := START;
    var s1 := s0.WithBook(OpBegun(NEW_BOOK)).(ops := [Begun]);
    s := s1.With(s1.core.(leases := [Opening(0)])).Set(0, Holding(0));
    Starts();
    assert BeginOpStep(s0, s1);
    InSection(s0, s1);
    assert AcquireStep(s1, s, 0);
    assert OpLeaseStep(s1, s, 0);
    Outside(s1, s);
  }

  /** A session is opened, and the operation that opened it has ended. */
  lemma {:induction false} Serving() returns (s: System)
    ensures Reachable(Init, Next, s)
    ensures s == System(Core(NEW_BOOK.(sessions := {5}), map[5 := 0], [Active(5)], []), Free, [Ended], false, false)
  {
    var s2 := OpeningOne();
    var s3 := s2.With(Adopted(s2.core, 5, 0)).Set(0, Begun);
    var s4 := s3.WithBook(OpEnded(s3.core.book)).(mutex := Checking).Set(0, Ended);
    s := s4.(mutex := Free);
    assert AdoptStep(s2, s3, 0, 5);
    InSection(s2, s3);
    assert EndOpStep(s3, s4, 0);
    InSection(s3, s4);
    assert CheckStep(s4, s);
    ByHolder(s4, s);
  }

  lemma {:induction false} DrainingOne() returns (s: System)
    ensures Reachable(Init, Next, s)
    ensures s == System(Core(NEW_BOOK.(phase := Draining, sessions := {5}), map[5 := 0], [Drained(5)], []), Free,
        [Ended], true, false)
  {
    var s0 := Serving();
    var s1 := s0.WithBook(s0.core.book.(phase := Draining)).(mutex := DrainLoop({5}), graceful := true);
    var s2 := s1.With(PutLease(s1.core, 0, Drained(5))).(mutex := DrainLoop({}));
    var s3 := s2.(mutex := Checking);
    s := s3.(mutex := Free);
    assert s0.core.tracked.Keys == {5} && {5} - {5} == {};
    assert GracefulStep(s0, s1);
    InSection(s0, s1);
    assert DrainOneStep(s1, s2, 5);
    ByHolder(s1, s2);
    assert DrainedStep(s2, s3);
    ByHolder(s2, s3);
    assert CheckStep(s3, s);
    ByHolder(s3, s);
  }

  /** A graceful shutdown of an engine with a session completes and reports success. */
  lemma {:induction false} ShutdownSucceeds() returns (s: System)
    ensures Reachable(Init, Next, s) && s.graceful && s.core.leases == [Gone] && s.ops == [Ended]
    ensures s.core.book.closed && ShutdownResult(s.core.book) == Success
  {
    var s0 := DrainingOne();
    var s1 := s0.With(Forgotten(s0.core, 5)).(mutex := Returner(0));
    var s2 := s1.With(PutLease(s1.core, 0, Gone)).(mutex := Checking);
    s := s2.WithBook(s2.core.book.(phase := Done, closed := true)).(mutex := Free);
    assert RemoveStep(s0, s1, 5);
    InSection(s0, s1);
    assert ReturnedStep(s1, s2);
    ByHolder(s1, s2);
    assert CheckStep(s2, s);
    ByHolder(s2, s);
  }

  // ------------------------------------------------- an abort

  const LISTENING := NEW_BOOK.(listeners := {7})

  /** A listener and an activity are outstanding, and perhaps an error was recorded. */
  lemma {:induction false} Serves(failed: bool) returns (s: System)
    ensures Possible(s) && s == START.With(Core(LISTENING.(failed := failed), map[], [], [Busy]))
  {
    Starts();
    var s1 := START.WithBook(LISTENING);
    assert AddListenerStep(START, s1, 7);
    InSection(START, s1);
    s := s1.With(s1.core.(activities := [Busy]));
    assert AcquireActivityStep(s1, s);
    InSection(s1, s);
    if failed {
      var s2 := s;
      s := s2.WithBook(s2.core.book.(failed := true));
      assert RecordErrorStep(s2, s);
      InSection(s2, s);
    }
  }

  /** The engine aborts and its listener goes; the activity keeps it from being done. */
  lemma {:induction false} Aborts(failed: bool, why: AbortReason) returns (s: System)
    requires why != NoAbort
    ensures Possible(s)
    ensures s == START.With(Core(NEW_BOOK.(phase := Aborting, reason := why, failed := failed), map[], [], [Busy]))
  {
    var s0 := Serves(failed);
    var s1 := s0.WithBook(s0.core.book.(phase := Aborting, reason := why)).(mutex := Checking);
    assert AbortStep(s0, s1, why);
    InSection(s0, s1);
    var s2 := s1.(mutex := Free);
    assert CheckStep(s1, s2);
    ByHolder(s1, s2);
    var s3 := s2.WithBook(s2.core.book.(listeners := {})).(mutex := Checking);
    assert RemoveListenerStep(s2, s3, 7);
    InSection(s2, s3);
    s := s3.(mutex := Free);
    assert s3.core.activities[0] == Busy;
    assert CheckStep(s3, s);
    ByHolder(s3, s);
  }

  /** When the activity is back and its thread has checked, the engine is done and reports why. */
  lemma {:induction false} AbortCompletes(failed: bool, why: AbortReason) returns (s: System)
    requires why != NoAbort
    ensures Reachable(Init, Next, s) && s.core.book.closed && s.core.activities == [Over]
    ensures ShutdownResult(s.core.book) == if failed then OtherError else ClosedError
  {
    var s0 := Aborts(failed, why);
    var s1 := s0.With(s0.core.(activities := [ReturningCount]));
    assert ActivityDropStep(s0, s1, 0);
    Outside(s0, s1);
    var s2 := s1.With(s1.core.(activities := [Returned]));
    assert ActivityDroppedStep(s1, s2, 0);
    Outside(s1, s2);
    var s3 := s2.With(s2.core.(activities := [Over])).(mutex := Checking);
    assert ActivityCheckStep(s2, s3, 0);
    InSection(s2, s3);
    s := s3.WithBook(s3.core.book.(phase := Done, closed := true)).(mutex := Free);
    assert CheckStep(s3, s);
    ByHolder(s3, s);
  }

  // ------------------------------------------------- a lease changes hands

  lemma {:induction false} BeginsTwice() returns (s: System)
    ensures Possible(s) && s == START.WithBook(NEW_BOOK.(activeOps := 2)).(ops := [Begun, Begun])
  {
    Starts();
    var s1 := START.WithBook(NEW_BOOK.(activeOps := 1)).(ops := [Begun]);
    assert BeginOpStep(START, s1);
    InSection(START, s1);
    s := s1.WithBook(NEW_BOOK.(activeOps := 2)).(ops := [Begun, Begun]);
    assert BeginOpStep(s1, s);
    InSection(s1, s);
  }

  /** One operation acquires a lease and leaves it with the tracker, another takes it over. */
  lemma {:induction false} TakesOver() returns (s: System)
    ensures Possible(s)
    ensures s == START.With(Core(NEW_BOOK.(activeOps := 2), map[], [Opening(1)], []))
                      .(ops := [Begun, Holding(0)])
  {
    var s0 := BeginsTwice();
    var s1 := s0.With(s0.core.(leases := [Opening(0)])).Set(0, Holding(0));
    assert AcquireStep(s0, s1, 0) && OpLeaseStep(s0, s1, 0);
    Outside(s0, s1);
    var s2 := s1.With(PutLease(s1.core, 0, Held)).Set(0, Begun);
    assert HandOverStep(s1, s2, 0) && OpLeaseStep(s1, s2, 0);
    Outside(s1, s2);
    s := s2.With(PutLease(s2.core, 0, Opening(1))).Set(1, Holding(0));
    assert TakeHeld(s2, s, 1, 0) && OpLeaseStep(s2, s, 1);
    Outside(s2, s);
  }

  /** And it can give the lease back, in two halves, and go on. */
  lemma {:induction false} GivesBack() returns (s: System)
    ensures Reachable(Init, Next, s) && s.core.leases == [Gone] && s.ops == [Begun, Begun] && !s.stale
    ensures s.core.book == NEW_BOOK.(activeOps := 2)
  {
    var s0 := TakesOver();
    var s1 := s0.With(PutLease(s0.core, 0, Settling(1))).Set(1, Dropping(0));
    assert DropStep(s0, s1, 1) && OpLeaseStep(s0, s1, 1);
    Outside(s0, s1);
    s := s1.With(PutLease(s1.core, 0, Gone)).Set(1, Begun);
    assert DroppedStep(s1, s, 1) && OpLeaseStep(s1, s, 1);
    Outside(s1, s);
  }
}
