/**
 Runs of the WebSocket arbitration: a graceful shutdown, an abort, and every way a failure is recorded.
 */
module WsRuns {
  import opened Bytes
  import opened Lifecycle
  import opened Runs
  import opened WsArbiter

  ghost predicate Possible(s: Session) { Reachable(Init, Next, s) }

  lemma {:induction false} ByWriter(s: Session, s': Session)
    requires Possible(s) && WriterStep(s, s')
    ensures Possible(s')
  {
    ReachableStep(Init, Next, s, s');
  }

  lemma {:induction false} ByReader(s: Session, s': Session)
    requires Possible(s) && ReaderStep(s, s')
    ensures Possible(s')
  {
    ReachableStep(Init, Next, s, s');
  }

  lemma {:induction false} ByOthers(s: Session, s': Session)
    requires Possible(s) && OutsideStep(s, s')
    ensures Possible(s')
  {
    ReachableStep(Init, Next, s, s');
  }

  const START := Session(NEW, false, false, WriteState(false, None), Looping, Reading, None, None, 0, None)

  const FULL := NEW.(goal := GoalFull, writeReq := true, fullReq := true)

  lemma {:induction false} Starts()
    ensures Possible(START)
  {
    ReachableInit(Init, Next, START);
  }

  /** A shutdown was requested, the writer is drained and in the close handshake. */
  lemma {:induction false} ClosesHandshake() returns (s: Session)
    ensures Possible(s) && s == START.(life := FULL, drained := true, writer := ClosingHandshake)
  {
    Starts();
    var s1 := START.(life := NEW.(goal := GoalFull));
    ByOthers(START, s1);
    var s2 := s1.(life := FULL);
    ByOthers(s1, s2);
    s := s2.(drained := true, writer := ClosingHandshake);
    ByWriter(s2, s);
  }

  /** The reader meets any failure in the handshake and leaves it to the writer. */
  lemma {:induction false} ReaderLeaves(e: ReadError) returns (s: Session)
    ensures Possible(s)
    ensures s == START.(life := FULL.(readCh := true), drained := true, writer := ClosingHandshake,
                        reader := ReaderGone(LeftToWriter), observed := Some(e))
  {
    var s0 := ClosesHandshake();
    var s1 := s0.(reader := Failed(e), observed := Some(e));
    ByReader(s0, s1);
    var s2 := s1.(reader := SawFull(e));
    ByReader(s1, s2);
    var s3 := s2.(reader := SawNoAbort(e));
    ByReader(s2, s3);
    s := s3.(life := FULL.(readCh := true), reader := ReaderGone(LeftToWriter));
    ByReader(s3, s);
  }

  /** A graceful shutdown ends the session without a cause, whatever failure the reader met in the handshake. */
  lemma {:induction false} GracefulShutdown(e: ReadError) returns (s: Session)
    ensures Reachable(Init, Next, s) && s.writer == WriterGone && s.reader == ReaderGone(LeftToWriter) && s.closing
    ensures s.life.terminal && s.life.goal == GoalFull && s.cause.None? && s.observed == Some(e)
  {
    var s0 := ReaderLeaves(e);
    var s1 := s0.(writer := Finishing);
    ByWriter(s0, s1);
    var s2 := s1.(life := s1.life.(terminal := true, readCh := true, writeCh := true), writer := WriterGone);
    ByWriter(s1, s2);
    s := s2.(closing := true);
    ByOthers(s2, s);
  }

  /** A close handshake that fails is the cause. */
  lemma {:induction false} HandshakeFails() returns (s: Session)
    ensures Reachable(Init, Next, s) && s.writer == WriterGone && s.cause == Some(CloseFailed)
    ensures s.life.goal == GoalAbort
  {
    var s0 := ClosesHandshake();
    var s1 := s0.(writer := Aborting(CloseFailed, false));
    ByWriter(s0, s1);
    s := s1.Abort(Failure, CloseFailed).(writer := WriterGone);
    ByWriter(s1, s);
  }

  lemma {:induction false} IsAborted(reason: Reason) returns (s: Session)
    requires reason != NoAbort
    ensures Possible(s)
    ensures s == START.(life := Life(GoalAbort, reason, false, true, true, true, true, true, false, None),
                        closing := true, cause := Some(Outside))
  {
    Starts();
    var s1 := START.(life := NEW.(goal := GoalAbort, why := reason), cause := Some(Outside));
    assert s1 == START.Abort(reason, Outside);
    ByOthers(START, s1);
    var s2 := s1.(life := s1.life.(writeReq := true, fullReq := true));
    ByOthers(s1, s2);
    var s3 := s2.(life := s2.life.(abortCh := true));
    ByOthers(s2, s3);
    var s4 := s3.(life := s3.life.(readCh := true, writeCh := true));
    ByOthers(s3, s4);
    s := s4.(closing := true);
    ByOthers(s4, s);
  }

  /** After an abort from outside, reader and writer see that the session is closing and leave. */
  lemma {:induction false} AbortedFromOutside(reason: Reason) returns (s: Session)
    requires reason != NoAbort
    ensures Reachable(Init, Next, s) && s.life.why == reason && s.cause == Some(Outside)
    ensures s.writer == WriterGone && s.reader == ReaderGone(SawClosing) && s.drained
  {
    var s0 := IsAborted(reason);
    var s1 := s0.(writer := WriterGone);
    ByWriter(s0, s1);
    var s2 := s1.(reader := ReaderGone(SawClosing));
    ByReader(s1, s2);
    s := s2.(drained := true);
    ByWriter(s2, s);
  }

  /** A message that cannot be decoded is the cause. */
  lemma {:induction false} UndecodableIsRecorded() returns (s: Session)
    ensures Reachable(Init, Next, s) && s.cause == Some(Undecodable) && s.reader == ReaderGone(Aborted)
  {
    Starts();
    var s1 := START.(reader := ReaderAborting(Undecodable));
    ByReader(START, s1);
    s := s1.Abort(Failure, Undecodable).(reader := ReaderGone(Aborted));
    ByReader(s1, s);
  }

  /** The reader has met a failure and is at its timeout checks, with or without a write in flight. */
  lemma {:induction false} MeetsFailure(e: ReadError, writing: bool) returns (s: Session)
    ensures Possible(s)
    ensures s == (if writing then START.(write := WriteState(true, None), writer := Writing) else START)
                 .(reader := CheckingTimeouts(e), observed := Some(e))
  {
    Starts();
    var s0 := START;
    if writing {
      s0 := START.(write := WriteState(true, None), writer := Writing);
      ByWriter(START, s0);
    }
    var s1 := s0.(reader := Failed(e), observed := Some(e));
    ByReader(s0, s1);
    s := s1.(reader := CheckingTimeouts(e));
    ByReader(s1, s);
  }

  /**
   Without a write in flight, every failure is recorded by the reader: a timeout as that, any other as
   itself, also during a shutdown that has not drained.
   */
  lemma {:induction false} ReaderRecords(e: ReadError, shuttingDown: bool) returns (s: Session)
    requires shuttingDown ==> !e.normalClose
    ensures Reachable(Init, Next, s) && s.reader == ReaderGone(Aborted) && s.life.fullReq == shuttingDown
    ensures s.cause == Some(if e.idle then IdleTimedOut else if e.benign then NoBlame else ReadFailed(e))
  {
    var s0;
    if shuttingDown {
      s0 := FailureBeforeDrain(e);
    } else {
      s0 := MeetsFailure(e, false);
    }
    var blame := if e.idle then IdleTimedOut else Report(e);
    var s2 := s0.(reader := ReaderAborting(blame));
    if e.idle {
      ByReader(s0, s2);
    } else {
      var s1 := s0.(reader := Deferring(e));
      ByReader(s0, s1);
      ByReader(s1, s2);
    }
    s := s2.Abort(Failure, blame).(reader := ReaderGone(Aborted));
    ByReader(s2, s);
  }

  /** A shutdown that has not drained yet does not hide a failure of the connection. */
  lemma {:induction false} FailureBeforeDrain(e: ReadError) returns (s: Session)
    requires !e.normalClose
    ensures Possible(s)
    ensures s == START.(life := FULL, reader := CheckingTimeouts(e), observed := Some(e))
  {
    Starts();
    var s1 := START.(life := NEW.(goal := GoalFull));
    ByOthers(START, s1);
    var s2 := s1.(life := FULL);
    ByOthers(s1, s2);
    var s3 := s2.(reader := Failed(e), observed := Some(e));
    ByReader(s2, s3);
    var s4 := s3.(reader := SawFull(e));
    ByReader(s3, s4);
    var s5 := s4.(reader := SawNoAbort(e));
    ByReader(s4, s5);
    s := s5.(reader := CheckingTimeouts(e));
    ByReader(s5, s);
  }

  /** With a write in flight whose deadline has passed, the reader records the write's timeout. */
  lemma {:induction false} WriteTimeoutRecorded(e: ReadError) returns (s: Session)
    requires !e.idle
    ensures Reachable(Init, Next, s) && s.reader == ReaderGone(Aborted) && s.cause == Some(WriteTimedOut)
  {
    var s0 := MeetsFailure(e, true);
    var s1 := s0.(reader := ReaderAborting(WriteTimedOut));
    ByReader(s0, s1);
    s := s1.Abort(Failure, WriteTimedOut).(reader := ReaderGone(Aborted));
    ByReader(s1, s);
  }

  lemma {:induction false} Defers(e: ReadError) returns (s: Session)
    requires !e.idle
    ensures Possible(s)
    ensures s == START.(write := WriteState(true, Some(e)), writer := Writing, reader := ReaderGone(Deferred),
                        observed := Some(e), deferred := Some(e))
  {
    var s0 := MeetsFailure(e, true);
    var s1 := s0.(reader := Deferring(e));
    ByReader(s0, s1);
    s := s1.(write := WriteState(true, Some(e)), deferred := Some(e), reader := ReaderGone(Deferred));
    ByReader(s1, s);
  }

  /** A failure deferred to a write that succeeds is recorded by the writer, handed back once. */
  lemma {:induction false} WriterRecords(e: ReadError) returns (s: Session)
    requires !e.idle
    ensures Reachable(Init, Next, s) && s.writer == WriterGone && s.reader == ReaderGone(Deferred)
    ensures s.cause == Some(if e.benign then NoBlame else ReadFailed(e)) && s.returned == 1
  {
    var s0 := Defers(e);
    var s1 := s0.(writer := Returned(true, false));
    ByWriter(s0, s1);
    var s2 := s1.(write := WriteState(false, None), writer := Settled(Some(e)), returned := 1);
    ByWriter(s1, s2);
    var s3 := s2.(writer := Aborting(Report(e), false));
    ByWriter(s2, s3);
    s := s3.Abort(Failure, Report(e)).(writer := WriterGone);
    ByWriter(s3, s);
  }
}
