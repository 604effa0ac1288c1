/**
 Runs in which a session ends other than by `Shutdown`: `Close` with a frame still queued, a failing write, a
 failing read, a failing half-close, and a peer that closes last. Each goes through to the end.
 */
module SessionEnds {
  import opened Bytes
  import opened Wire
  import opened Gate
  import opened Lifecycle
  import opened Runs
  import opened Session
  import opened SessionRun

  /** The finalizer finishes a session that is closing, once both loops have stopped. */
  lemma {:induction false} Finalizes(s: Conn) returns (t: Conn)
    requires Possible(s) && s.writer == Stopped && s.reader == ReaderStopped && s.finalizer == Waiting
    requires !s.ctl.life.termCh && s.Closing()
    ensures Possible(t)
    ensures t == s.(finalizer := Finalized,
                    ctl := s.ctl.(life := Marked(s.ctl.life), onCloseReturned := true, done := true))
  {
    FinalizerMarks(s);
    var s1 := s.(ctl := s.ctl.(life := Marked(s.ctl.life)), finalizer := CallingOnClose);
    FinalizerEnds(s1);
    t := s1.(ctl := s1.ctl.(onCloseReturned := true, done := true), finalizer := Finalized);
  }

  /** Reader, writer and finalizer finish a session that is closing and has nothing queued. */
  lemma {:induction false} Winds(s: Conn) returns (t: Conn)
    requires Possible(s) && s.writer == Exit && s.gate.Drained() && s.pipe.queue == [] && s.finalizer == Waiting
    requires s.reader == ReaderStopped && !s.ctl.life.termCh && s.Closing()
    ensures Possible(t)
    ensures t == s.(writer := Stopped, finalizer := Finalized,
                    ctl := s.ctl.(life := Marked(s.ctl.life), onCloseReturned := true, done := true))
  {
    WriterLeaves(s);
    t := Finalizes(s.(writer := Stopped));
  }

  // ------------------------------------------------- Close with a frame queued

  lemma {:induction false} WriterTakesBack(s: Conn, m: Message, f: ByteString) returns (t: Conn)
    requires Possible(s) && s.writer == Sweep && s.pipe == Queued(m, f, false)
    ensures Possible(t)
    ensures t == s.(pipe := Queued(m, f, false).(slots := 0, used := 0, queue := []),
                    writer := SweepAck(One(m, f, false)))
  {
    var r := One(m, f, false);
    var s1 := s.(pipe := Queued(m, f, false).(queue := []), writer := SweepQuota(r));
    assert [r][1..] == [];
    ByWriter(s, s1);
    t := QuotaAndSlotBack(s1, r);
  }

  lemma {:induction false} QuotaAndSlotBack(s: Conn, r: Outbound) returns (t: Conn)
    requires Possible(s) && s.writer == SweepQuota(r) && s.pipe.slots == 1 && s.pipe.used == |r.frame|
    ensures Possible(t) && t == s.(pipe := s.pipe.(slots := 0, used := 0), writer := SweepAck(r))
  {
    var s1 := s.(pipe := s.pipe.(used := 0), writer := SweepSlot(r));
    ByWriter(s, s1);
    t := s1.(pipe := s1.pipe.(slots := 0), writer := SweepAck(r));
    ByWriter(s1, t);
  }

  lemma {:induction false} WriterSweeps(s: Conn, m: Message, f: ByteString) returns (t: Conn)
    requires Possible(s) && s.writer == Sweep && s.pipe == Queued(m, f, false)
    ensures Possible(t)
    ensures t == s.(pipe := Queued(m, f, false).(slots := 0, used := 0, queue := []), writer := Stopped)
  {
    var s5 := WriterTakesBack(s, m, f);
    var s6 := s5.(writer := Sweep);
    ByWriter(s5, s6);
    t := s6.(writer := Stopped);
    ByWriter(s6, t);
  }

  lemma {:induction false} CallerAndReaderLeave(s: Conn) returns (t: Conn)
    requires Possible(s) && s.Closing() && s.callers == [InAbort(0)] && s.TailFinished(0) && s.reader == Receiving
    ensures Possible(t) && t == s.(callers := [Gone], reader := ReaderStopped)
  {
    var s1 := s.Answer(0, Gone);
    ByCaller(s, s1);
    t := s1.(reader := ReaderStopped);
    ByReader(s1, t);
  }

  lemma {:induction false} LoopsSeeClosing(cfg: Config, m: Message, f: ByteString) returns (t: Conn)
    requires Room(cfg, m, f)
    ensures Possible(t) && t.Closing() && t.pipe == Queued(m, f, false) && t.writer == Sweep
    ensures t.reader == ReaderStopped && t.finalizer == Waiting && t.callers == [Gone] && !t.ctl.life.termCh
    ensures t.ctl.life.why == Explicit
  {
    var s0 := ClosesEarly(cfg, m, f);
    var s2 := CallerAndReaderLeave(s0);
    var s3 := s2.(writer := Exit);
    ByWriter(s2, s3);
    t := s3.(writer := Sweep);
    ByWriter(s3, t);
  }

  /** `Close` with a frame still queued gives every token back, writes nothing, and the session is done. */
  lemma {:induction false} CloseSweeps(cfg: Config, m: Message, f: ByteString) returns (t: Conn)
    requires Room(cfg, m, f)
    ensures Reachable(Init, Next, t) && t.ctl.done && t.ctl.life.why == Explicit && t.callers == [Gone]
    ensures t.pipe == Queued(m, f, false).(slots := 0, used := 0, queue := [])
  {
    var s3 := LoopsSeeClosing(cfg, m, f);
    var s4 := WriterSweeps(s3, m, f);
    t := Finalizes(s4);
  }

  // ------------------------------------------------- a failing write

  lemma {:induction false} TakesPart(cfg: Config, m: Message, f: ByteString, k: nat) returns (s: Conn)
    requires Room(cfg, m, f) && k < |f|
    ensures Possible(s)
    ensures s == Idle(cfg, INSIDE, Queued(m, f, true).(queue := [], wire := f[..k]), FRESH_CONTROL,
                      [AwaitAck(m, 0)], [])
                 .(writer := Writing(Plain, One(m, f, true), k))
  {
    var s0 := Queues(cfg, Job(m, true), f);
    s := Dequeue(s0, Plain);
    ByWriter(s0, s);
    if k > 0 {
      var s1 := s;
      s := WriteSome(s1, Plain, One(m, f, true), 0, k);
      ByWriter(s1, s);
      assert s.pipe.wire == f[..k];
    }
  }

  lemma {:induction false} WriteBreaks(cfg: Config, m: Message, f: ByteString, k: nat, cause: Maybe<Cause>)
      returns (s: Conn)
    requires Room(cfg, m, f) && k < |f|
    ensures Possible(s) && JustAborted(s)
    ensures s == Idle(cfg, INSIDE, Queued(m, f, true).(slots := 0, used := 0, queue := [], wire := f[..k]),
                      Control(NEW.(goal := GoalAbort, why := Failure, err := cause), [Tail(AbortTail, 0, cause)], false,
                              0, false, 0, 0, false, false),
                      [AwaitAck(m, 0)], []).(writer := FailAborting(One(m, f, true), 0))
  {
    var r := One(m, f, true);
    var s0 := TakesPart(cfg, m, f, k);
    var s1 := s0.(writer := Wrote(Plain, r, false));
    ByWriter(s0, s1);
    var s2 := s1.(pipe := s1.pipe.(used := 0), writer := QuotaBack(Plain, r, false));
    ByWriter(s1, s2);
    var s3 := s2.(pipe := s2.pipe.(slots := 0), writer := SlotBack(Plain, r, false));
    ByWriter(s2, s3);
    s := s3.AbortEntry(Failure, cause).(writer := FailAborting(r, 0));
    ByWriter(s3, s);
  }

  lemma {:induction false} FailureIsAcknowledged(s: Conn, m: Message, f: ByteString) returns (t: Conn)
    requires Possible(s) && s.writer == FailAborting(One(m, f, true), 0) && s.TailFinished(0)
    requires s.pipe.acks == [[]] && s.pipe.ackSends == [0]
    ensures Possible(t) && t == s.(pipe := s.pipe.(acks := [[false]], ackSends := [1]), writer := Exit)
  {
    var s1 := s.(writer := FailAck(One(m, f, true)));
    ByWriter(s, s1);
    t := s1.(pipe := s1.pipe.(acks := [[false]], ackSends := [1]), writer := Exit);
    assert [] + [false] == [false];
    ByWriter(s1, t);
  }

  lemma {:induction false} SendIsRefused(s: Conn, m: Message) returns (t: Conn)
    requires Possible(s) && s.pipe.acks == [[false]] && s.senders == [AwaitAck(m, 0)] && s.gate == GateState(true, 1, 0)
    ensures Possible(t)
    ensures t == s.(pipe := s.pipe.(acks := [[]]), senders := [Returned(Refused)], gate := GateState(true, 0, 1))
  {
    var s1 := s.(pipe := s.pipe.(acks := [[]])).Go(0, Leaving(Refused));
    assert [false][1..] == [];
    BySender(s, s1);
    t := s1.(gate := GateState(true, 0, 1)).Go(0, Returned(Refused));
    BySender(s1, t);
  }

  /**
   A write that fails after any part of the frame: `Send` is refused by its ack, every token is back, the
   failure is the session's error, and the session is done.
   */
  lemma {:induction false} FailedWriteEnds(cfg: Config, m: Message, f: ByteString, k: nat, cause: Maybe<Cause>)
      returns (t: Conn)
    requires Room(cfg, m, f) && k < |f|
    ensures Reachable(Init, Next, t) && t.ctl.done && t.ctl.life.why == Failure && t.ctl.life.err == cause
    ensures t.senders == [Returned(Refused)] && t.pipe.wire == f[..k] && t.pipe.written == []
    ensures t.pipe.slots == 0 && t.pipe.used == 0 && t.pipe.ackSends == [1]
  {
    var s0 := WriteBreaks(cfg, m, f, k, cause);
    AbortGoesOn(s0, 7);
    var s1 := AbortTailAfter(s0, 7);
    var s2 := FailureIsAcknowledged(s1, m, f);
    var s3 := SendIsRefused(s2, m);
    var s4 := s3.(reader := ReaderStopped);
    ByReader(s3, s4);
    t := Winds(s4);
  }

  // ------------------------------------------------- a failing read

  /** A read that fails ends the session, and the failure is its error. */
  lemma {:induction false} FailedReadEnds(cfg: Config, cause: Maybe<Cause>) returns (t: Conn)
    ensures Reachable(Init, Next, t) && t.ctl.done && t.ctl.life.why == Failure && t.ctl.life.err == cause
    ensures t.cfg == cfg && t.pipe == EMPTY
  {
    var s0 := Idle(cfg, OPEN, EMPTY, FRESH_CONTROL, [], []);
    ReachableInit(Init, Next, s0);
    var s1 := s0.(reader := Broken(cause));
    ByReader(s0, s1);
    var s2 := s1.AbortEntry(Failure, cause).(reader := ReaderAborting(0));
    ByReader(s1, s2);
    AbortGoesOn(s2, 7);
    var s3 := AbortTailAfter(s2, 7);
    var s4 := s3.(reader := ReaderStopped);
    ByReader(s3, s4);
    var s5 := s4.(writer := Exit);
    ByWriter(s4, s5);
    t := Winds(s5);
  }

  /** A failure from outside reader and writer, such as an idle timeout, has won the abort. */
  lemma {:induction false} FailsFromOutside(cfg: Config, cause: Maybe<Cause>) returns (t: Conn)
    ensures Possible(t) && JustAborted(t)
    ensures t == Idle(cfg, OPEN, EMPTY,
                      Control(NEW.(goal := GoalAbort, why := Failure, err := cause), [Tail(AbortTail, 0, cause)], false,
                              0, false, 0, 0, false, false), [], [InAbort(0)])
  {
    var s1 := WantsAbort(cfg, cause);
    t := s1.AbortEntry(Failure, cause).Answer(0, InAbort(0));
    ByCaller(s1, t);
  }

  lemma {:induction false} WantsAbort(cfg: Config, cause: Maybe<Cause>) returns (t: Conn)
    ensures Possible(t) && t == Idle(cfg, OPEN, EMPTY, FRESH_CONTROL, [], [WantAbort(Failure, cause)])
  {
    var s0 := Idle(cfg, OPEN, EMPTY, FRESH_CONTROL, [], []);
    ReachableInit(Init, Next, s0);
    t := s0.(callers := s0.callers + [WantAbort(Failure, cause)]);
    assert Spawn(s0, t);
    ReachableStep(Init, Next, s0, t);
  }

  /** And it ends the session as its error too. */
  lemma {:induction false} OutsideFailureEnds(cfg: Config, cause: Maybe<Cause>) returns (t: Conn)
    ensures Reachable(Init, Next, t) && t.ctl.done && t.ctl.life.why == Failure && t.ctl.life.err == cause
    ensures t.cfg == cfg && t.callers == [Gone]
  {
    var s0 := FailsFromOutside(cfg, cause);
    AbortGoesOn(s0, 7);
    var s1 := CallerAndReaderLeave(AbortTailAfter(s0, 7));
    var s2 := s1.(writer := Exit);
    ByWriter(s1, s2);
    t := Winds(s2);
  }

  // ------------------------------------------------- a failing half-close

  lemma {:induction false} CloseBreaks(cfg: Config, m: Message, f: ByteString, cause: Cause) returns (s: Conn)
    requires Room(cfg, m, f)
    ensures Possible(s) && JustAborted(s)
    ensures s.writer == CloseAborting(0) && s.callers == [AwaitWrite(CloseWriteCall, true, true)]
    ensures s.ctl.life.err == Some(cause) && s.ctl.life.why == Failure && !s.pipe.protocolClosed
  {
    var s0 := Requests(cfg, m, f, true);
    var s1 := s0.(writer := Select(Graceful));
    ByWriter(s0, s1);
    var s2 := s1.(writer := Select(Draining));
    ByWriter(s1, s2);
    var s3 := s2.(writer := CloseProtocol);
    ByWriter(s2, s3);
    var s4 := s3.(writer := CloseFailed(Some(cause)));
    ByWriter(s3, s4);
    s := s4.AbortEntry(Failure, Some(cause)).(writer := CloseAborting(0));
    ByWriter(s4, s);
  }

  /** A half-close that fails is the session's error, and `CloseWrite` answers with it. */
  lemma {:induction false} FailedCloseAnswers(cfg: Config, m: Message, f: ByteString, cause: Cause) returns (t: Conn)
    requires Room(cfg, m, f)
    ensures Reachable(Init, Next, t) && t.callers == [Answered(CloseWriteCall, false)] && t.writer == Exit
    ensures t.ctl.life.err == Some(cause) && !t.pipe.protocolClosed
  {
    var s0 := CloseBreaks(cfg, m, f, cause);
    AbortGoesOn(s0, 7);
    var s1 := AbortTailAfter(s0, 7);
    var s2 := s1.(writer := Exit);
    ByWriter(s1, s2);
    var s3 := s2.Answer(0, ReadErr(CloseWriteCall));
    ByCaller(s2, s3);
    t := s3.Answer(0, Answered(CloseWriteCall, false));
    ByCaller(s3, t);
  }

  // ------------------------------------------------- the peer closes last

  lemma {:induction false} WriterGoesFirst(cfg: Config, m: Message, f: ByteString) returns (s: Conn)
    requires Room(cfg, m, f)
    ensures Possible(s)
    ensures s == Idle(cfg, GateState(true, 0, 1), Written(m, f, true).(protocolClosed := true),
                      REQUESTED.(life := REQUESTED.life.(writeCh := true)), [Returned(Nil(m, true))],
                      [AwaitWrite(CloseWriteCall, true, true)]).(writer := Stopped)
  {
    var s0 := Requests(cfg, m, f, true);
    var s1 := Drains(s0);
    var s2 := s1.(writer := Exit);
    ByWriter(s1, s2);
    WriterLeaves(s2);
    s := s2.(writer := Stopped);
  }

  /** A reader at the end of the stream finds the write side closed. */
  lemma {:induction false} ReaderMeetsEnd(s: Conn) returns (t: Conn)
    requires Possible(s) && s.reader == Receiving && !s.Closing() && s.ctl.life.writeCh
    ensures Possible(t)
    ensures t == s.(ctl := s.ctl.(eof := true, life := s.ctl.life.(readCh := true)), reader := TryingFinish)
  {
    var s1 := s.(ctl := s.ctl.(eof := true), reader := MarkingRead);
    ByReader(s, s1);
    var s2 := s1.WithLife(s1.ctl.life.(readCh := true)).(reader := TestingRead);
    ByReader(s1, s2);
    var s3 := s2.(reader := TestingWrite);
    ByReader(s2, s3);
    t := s3.(reader := TryingFinish);
    ByReader(s3, t);
  }

  lemma {:induction false} ReaderFinishes(cfg: Config, m: Message, f: ByteString) returns (s: Conn)
    requires Room(cfg, m, f)
    ensures Possible(s) && s.writer == Stopped && s.reader == ReaderFinishing(0) && s.finalizer == Waiting
    ensures s.ctl == Control(REQUESTED.life.(writeCh := true, readCh := true, terminal := true),
                             [Tail(FinishTail, 0, None)], false, 0, true, 1, 0, false, false)
    ensures s.gate == GateState(true, 0, 1)
  {
    var s0 := WriterGoesFirst(cfg, m, f);
    var s4 := ReaderMeetsEnd(s0);
    s := s4.FinishEntry().(reader := ReaderFinishing(0));
    ByReader(s4, s);
  }

  /** `s` after `p` of the five actions of the graceful end that has just won. */
  function FinishTailAfter(s: Conn, p: nat): Conn
    requires |s.ctl.tails| == 1
  {
    s.(ctl := s.ctl.(life := s.ctl.life.(termCh := p > 2), tails := [s.ctl.tails[0].(phase := p)], closeOnce := p > 3,
                     closings := if p > 4 then 1 else 0))
  }

  lemma {:induction false} FinishGoesOn(s: Conn, p: nat)
    requires Possible(s) && p <= 5 && s.ctl.tails == [Tail(FinishTail, 0, None)] && !s.ctl.closeOnce
    requires s.ctl.closings == 0 && s.ctl.life.readCh && s.ctl.life.writeCh && !s.ctl.life.termCh && s.gate.closed
    ensures Possible(FinishTailAfter(s, p))
  {
    if p == 0 {
      assert FinishTailAfter(s, 0) == s;
    } else {
      FinishGoesOn(s, p - 1);
      ByTail(FinishTailAfter(s, p - 1), FinishTailAfter(s, p));
    }
  }

  /** When the peer closes after the write side was closed, the reader ends the session, gracefully. */
  lemma {:induction false} PeerClosesLast(cfg: Config, m: Message, f: ByteString) returns (t: Conn)
    requires Room(cfg, m, f)
    ensures Reachable(Init, Next, t) && t.ctl.done && t.ctl.life.why == NoAbort && t.ctl.life.err.None?
    ensures t.ctl.onCloseReturned && t.ctl.closings == 1
  {
    var s0 := ReaderFinishes(cfg, m, f);
    FinishGoesOn(s0, 5);
    var s1 := FinishTailAfter(s0, 5);
    var s2 := s1.(reader := ReaderStopped);
    ByReader(s1, s2);
    var s3 := s2.(finalizer := CheckTerminal);
    ByFinalizer(s2, s3);
    var s4 := s3.(finalizer := CallingOnClose);
    ByFinalizer(s3, s4);
    FinalizerEnds(s4);
    t := s4.(ctl := s4.ctl.(onCloseReturned := true, done := true), finalizer := Finalized);
  }
}
