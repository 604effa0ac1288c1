/**
 Runs that succeed, for every configuration with room for one frame: `TrySend` and `Send` answer nil
 with the frame written, and `CloseWrite` and `Shutdown` answer nil after it. The safety theorems are
 about runs that exist.
 */
module SessionRun {
  import opened Bytes
  import opened Wire
  import opened Gate
  import opened Lifecycle
  import opened Runs
  import opened Session

  ghost predicate Possible(s: Conn) { Reachable(Init, Next, s) }

  lemma {:induction false} BySender(s: Conn, s': Conn)
    requires Possible(s) && SenderStep(s, s', 0)
    ensures Possible(s')
  {
    assert Next(s, s');
    ReachableStep(Init, Next, s, s');
  }

  lemma {:induction false} ByWriter(s: Conn, s': Conn)
    requires Possible(s) && WriterStep(s, s')
    ensures Possible(s')
  {
    assert Next(s, s');
    ReachableStep(Init, Next, s, s');
  }

  lemma {:induction false} ByReader(s: Conn, s': Conn)
    requires Possible(s) && ReaderStep(s, s')
    ensures Possible(s')
  {
    assert Next(s, s');
    ReachableStep(Init, Next, s, s');
  }

  lemma {:induction false} ByTail(s: Conn, s': Conn)
    requires Possible(s) && TailStep(s, s', 0)
    ensures Possible(s')
  {
    assert Next(s, s');
    ReachableStep(Init, Next, s, s');
  }

  lemma {:induction false} ByCaller(s: Conn, s': Conn)
    requires Possible(s) && CallerStep(s, s', 0)
    ensures Possible(s')
  {
    assert Next(s, s');
    ReachableStep(Init, Next, s, s');
  }

  lemma {:induction false} ByFinalizer(s: Conn, s': Conn)
    requires Possible(s) && FinalizerStep(s, s')
    ensures Possible(s')
  {
    assert Next(s, s');
    ReachableStep(Init, Next, s, s');
  }

  ghost predicate Room(cfg: Config, m: Message, f: ByteString) {
    cfg.valid(m) && cfg.encodes(m, f) && f != [] && cfg.queueCap > 0 && |f| <= cfg.byteLimit
  }

  function Idle(cfg: Config, gate: GateState, pipe: Pipe, ctl: Control, senders: seq<Sender>,
      callers: seq<Caller>): Conn {
    Conn(cfg, gate, pipe, ctl, senders, callers, Select(Plain), Receiving, Waiting)
  }

  const FRESH_CONTROL := Control(NEW, [], false, 0, false, 0, 0, false, false)

  const EMPTY := Pipe(0, 0, 0, [], [], [], [], [], [], false)

  /** The gate with one send inside. */
  const INSIDE := GateState(false, 1, 0)

  function One(m: Message, f: ByteString, blocking: bool): Outbound { Outbound(0, m, f, blocking) }

  // ------------------------------------------------- a send, up to the queue

  lemma {:induction false} Starts(cfg: Config, job: Job) returns (s: Conn)
    ensures Possible(s) && s == Idle(cfg, OPEN, EMPTY, FRESH_CONTROL, [Calling(job)], [])
  {
    var s0 := Idle(cfg, OPEN, EMPTY, FRESH_CONTROL, [], []);
    ReachableInit(Init, Next, s0);
    s := s0.(senders := s0.senders + [Calling(job)]);
    assert Spawn(s0, s);
    ReachableStep(Init, Next, s0, s);
  }

  lemma {:induction false} Enters(cfg: Config, job: Job, f: ByteString) returns (s: Conn)
    requires Room(cfg, job.msg, f)
    ensures Possible(s)
    ensures s == Idle(cfg, INSIDE, EMPTY.(slots := 1, encoders := 1), FRESH_CONTROL, [EncoderTaken(job)], [])
  {
    var s0 := Starts(cfg, job);
    var s1 := s0.(gate := INSIDE).Go(0, Entered(job));
    BySender(s0, s1);
    var s2 := s1.(pipe := s1.pipe.(slots := 1)).Go(0, SlotHeld(job));
    BySender(s1, s2);
    s := s2.(pipe := s2.pipe.(encoders := 1)).Go(0, EncoderTaken(job));
    BySender(s2, s);
  }

  lemma {:induction false} Prepares(cfg: Config, job: Job, f: ByteString) returns (s: Conn)
    requires Room(cfg, job.msg, f)
    ensures Possible(s)
    ensures s == Idle(cfg, INSIDE, EMPTY.(slots := 1, encoders := 1, used := |f|), FRESH_CONTROL,
        [BothQuotas(job, f)], [])
  {
    var s3 := Enters(cfg, job, f);
    var s4 := s3.Go(0, EncoderHeld(job));
    BySender(s3, s4);
    var s5 := s4.Go(0, Encoded(job, f));
    BySender(s4, s5);
    var s6 := s5.(pipe := s5.pipe.(used := |f|)).Go(0, LocalQuota(job, f));
    BySender(s5, s6);
    s := s6.Go(0, BothQuotas(job, f));
    BySender(s6, s);
  }

  function Queued(m: Message, f: ByteString, blocking: bool): Pipe {
    Pipe(1, 0, |f|, [One(m, f, blocking)], [One(m, f, blocking)], [], [], [[]], [0], false)
  }

  lemma {:induction false} Queues(cfg: Config, job: Job, f: ByteString) returns (s: Conn)
    requires Room(cfg, job.msg, f)
    ensures Possible(s)
    ensures s == Idle(cfg, INSIDE, Queued(job.msg, f, job.blocking), FRESH_CONTROL,
        [if job.blocking then AwaitAck(job.msg, 0) else Leaving(Accepted(job.msg, 0))], [])
  {
    var s0 := Prepares(cfg, job, f);
    var s1 := s0.(pipe := s0.pipe.(encoders := 0)).Go(0, Prepared(job, f));
    BySender(s0, s1);
    s := s1.(pipe := Queued(job.msg, f, job.blocking))
            .Go(0, if job.blocking then AwaitAck(job.msg, 0) else Leaving(Accepted(job.msg, 0)));
    BySender(s1, s);
  }

  lemma {:induction false} Accepts(cfg: Config, m: Message, f: ByteString) returns (s: Conn)
    requires Room(cfg, m, f)
    ensures Possible(s)
    ensures s == Idle(cfg, OPEN, Queued(m, f, false), FRESH_CONTROL, [Returned(Accepted(m, 0))], [])
  {
    var s0 := Queues(cfg, Job(m, false), f);
    s := s0.(gate := OPEN).Go(0, Returned(Accepted(m, 0)));
    BySender(s0, s);
  }

  // ------------------------------------------------- the writer takes it

  /** A frame is queued, and its sender has returned or waits for the ack. */
  ghost predicate Waits(s: Conn, m: Message, f: ByteString, blocking: bool) {
    s == Idle(s.cfg, if blocking then INSIDE else OPEN, Queued(m, f, blocking), FRESH_CONTROL,
              [if blocking then AwaitAck(m, 0) else Returned(Accepted(m, 0))], [])
  }

  lemma {:induction false} PutsOnWire(s0: Conn, m: Message, f: ByteString, blocking: bool) returns (s: Conn)
    requires Possible(s0) && Waits(s0, m, f, blocking) && f != []
    ensures Possible(s)
    ensures s == s0.(pipe := Queued(m, f, blocking).(queue := [], wire := f),
                     writer := Writing(Plain, One(m, f, blocking), |f|))
  {
    var s1 := Dequeue(s0, Plain);
    ByWriter(s0, s1);
    s := WriteSome(s1, Plain, One(m, f, blocking), 0, |f|);
    ByWriter(s1, s);
    assert s.pipe.wire == f;
  }

  lemma {:induction false} GivesBack(s0: Conn, m: Message, f: ByteString, blocking: bool) returns (s: Conn)
    requires Possible(s0) && Waits(s0, m, f, blocking) && f != []
    ensures Possible(s)
    ensures s == s0.(pipe := Pipe(0, 0, 0, [], [One(m, f, blocking)], [One(m, f, blocking)], f, [[]], [0], false),
                     writer := SlotBack(Plain, One(m, f, blocking), true))
  {
    var r := One(m, f, blocking);
    var s2 := PutsOnWire(s0, m, f, blocking);
    var s3 := s2.(pipe := s2.pipe.(written := [r]), writer := Wrote(Plain, r, true));
    ByWriter(s2, s3);
    var s4 := s3.(pipe := s3.pipe.(used := 0), writer := QuotaBack(Plain, r, true));
    ByWriter(s3, s4);
    s := s4.(pipe := s4.pipe.(slots := 0), writer := SlotBack(Plain, r, true));
    ByWriter(s4, s);
  }

  function Written(m: Message, f: ByteString, blocking: bool): Pipe {
    Pipe(0, 0, 0, [], [One(m, f, blocking)], [One(m, f, blocking)], f, [[]], [if blocking then 1 else 0], false)
  }

  /** What a send that was written in full answers. */
  function Nil(m: Message, blocking: bool): Outcome { if blocking then Sent(m, 0) else Accepted(m, 0) }

  lemma {:induction false} TrySendIsWritten(cfg: Config, m: Message, f: ByteString) returns (s: Conn)
    requires Room(cfg, m, f)
    ensures Possible(s)
    ensures s == Idle(cfg, OPEN, Written(m, f, false), FRESH_CONTROL, [Returned(Nil(m, false))], [])
  {
    var s0 := Accepts(cfg, m, f);
    var s1 := GivesBack(s0, m, f, false);
    s := s1.(writer := Select(Plain));
    ByWriter(s1, s);
  }

  lemma {:induction false} SendIsAcknowledged(cfg: Config, m: Message, f: ByteString) returns (s: Conn)
    requires Room(cfg, m, f)
    ensures Possible(s)
    ensures s == Idle(cfg, INSIDE, Written(m, f, true).(acks := [[true]]), FRESH_CONTROL, [AwaitAck(m, 0)], [])
  {
    var s0 := Queues(cfg, Job(m, true), f);
    var s1 := GivesBack(s0, m, f, true);
    s := s1.(pipe := s1.pipe.(acks := [[true]], ackSends := [1]), writer := Select(Plain));
    assert [] + [true] == [true];
    ByWriter(s1, s);
  }

  lemma {:induction false} SendIsWritten(cfg: Config, m: Message, f: ByteString) returns (s: Conn)
    requires Room(cfg, m, f)
    ensures Possible(s)
    ensures s == Idle(cfg, OPEN, Written(m, f, true), FRESH_CONTROL, [Returned(Nil(m, true))], [])
  {
    var s0 := SendIsAcknowledged(cfg, m, f);
    var s1 := s0.(pipe := s0.pipe.(acks := [[]])).Go(0, Leaving(Sent(m, 0)));
    assert [true][1..] == [];
    BySender(s0, s1);
    s := s1.(gate := OPEN).Go(0, Returned(Sent(m, 0)));
    BySender(s1, s);
  }

  /** Every valid message that fits can be sent: the frame is written, `Send` answers nil, and so does `TrySend`. */
  lemma {:induction false} SendSucceeds(cfg: Config, m: Message, f: ByteString, blocking: bool) returns (s: Conn)
    requires Room(cfg, m, f)
    ensures Reachable(Init, Next, s) && s == Idle(cfg, OPEN, Written(m, f, blocking), FRESH_CONTROL, s.senders, [])
    ensures s.senders == [Returned(if blocking then Sent(m, 0) else Accepted(m, 0))]
  {
    if blocking {
      s := SendIsWritten(cfg, m, f);
    } else {
      s := TrySendIsWritten(cfg, m, f);
    }
  }

  // ------------------------------------------------- CloseWrite

  const REQUESTED := Control(NEW.(goal := GoalWrite, writeReq := true), [], false, 0, false, 1, 0, false, false)

  lemma {:induction false} Requests(cfg: Config, m: Message, f: ByteString, blocking: bool) returns (s: Conn)
    requires Room(cfg, m, f)
    ensures Possible(s)
    ensures s == Idle(cfg, GateState(true, 0, 1), Written(m, f, blocking), REQUESTED,
        [Returned(Nil(m, blocking))], [AwaitWrite(CloseWriteCall, true, true)])
  {
    var s0 := SendSucceeds(cfg, m, f, blocking);
    var s1 := s0.(callers := s0.callers + [Asked(CloseWriteCall)]);
    assert Spawn(s0, s1);
    ReachableStep(Init, Next, s0, s1);
    var s2 := s1.(ctl := REQUESTED.(life := NEW.(goal := GoalWrite))).Answer(0, SignalWrite(CloseWriteCall, true));
    ByCaller(s1, s2);
    var s3 := s2.(ctl := REQUESTED).Answer(0, SealGate(CloseWriteCall, true));
    ByCaller(s2, s3);
    s := s3.(gate := Shut(s3.gate)).Answer(0, AwaitWrite(CloseWriteCall, true, true));
    ByCaller(s3, s);
  }

  /** The writer drains and closes the write side. */
  lemma {:induction false} Drains(s0: Conn) returns (s: Conn)
    requires Possible(s0) && s0.writer == Select(Plain) && s0.pipe.queue == [] && s0.ctl.life.writeReq
    requires s0.gate.Drained()
    ensures Possible(s)
    ensures s == s0.(pipe := s0.pipe.(protocolClosed := true), ctl := s0.ctl.(life := s0.ctl.life.(writeCh := true)),
                     writer := TestRead)
  {
    var s1 := s0.(writer := Select(Graceful));
    ByWriter(s0, s1);
    var s2 := s1.(writer := Select(Draining));
    ByWriter(s1, s2);
    var s3 := s2.(writer := CloseProtocol);
    ByWriter(s2, s3);
    var s4 := s3.(pipe := s3.pipe.(protocolClosed := true), writer := MarkWrite);
    ByWriter(s3, s4);
    s := s4.WithLife(s4.ctl.life.(writeCh := true)).(writer := TestRead);
    ByWriter(s4, s);
  }

  /** Every valid message that fits can be sent and written, and `CloseWrite` can answer nil after it. */
  lemma {:induction false} SendAndCloseWriteSucceed(cfg: Config, m: Message, f: ByteString, blocking: bool)
      returns (s: Conn)
    requires Room(cfg, m, f)
    ensures Reachable(Init, Next, s)
    ensures s.senders == [Returned(if blocking then Sent(m, 0) else Accepted(m, 0))]
    ensures s.callers == [Answered(CloseWriteCall, true)] && s.cfg == cfg
    ensures s.pipe == Written(m, f, blocking).(protocolClosed := true)
  {
    var r := Requests(cfg, m, f, blocking);
    var s0 := Drains(r);
    var s1 := s0.Answer(0, ReadErr(CloseWriteCall));
    ByCaller(s0, s1);
    var s2 := s1.Answer(0, ReadReason(CloseWriteCall));
    ByCaller(s1, s2);
    s := s2.Answer(0, Answered(CloseWriteCall, true));
    ByCaller(s2, s);
  }

  // ------------------------------------------------- Shutdown

  /** The peer has closed its side and the reader has left. */
  lemma {:induction false} PeerCloses(cfg: Config, m: Message, f: ByteString, blocking: bool) returns (s: Conn)
    requires Room(cfg, m, f)
    ensures Possible(s)
    ensures s == Idle(cfg, OPEN, Written(m, f, blocking),
                      Control(NEW.(readCh := true), [], false, 0, true, 0, 0, false, false),
                      [Returned(Nil(m, blocking))], []).(reader := ReaderStopped)
  {
    var s0 := SendSucceeds(cfg, m, f, blocking);
    var s1 := s0.(ctl := s0.ctl.(eof := true), reader := MarkingRead);
    ByReader(s0, s1);
    var s2 := s1.WithLife(NEW.(readCh := true)).(reader := TestingRead);
    ByReader(s1, s2);
    var s3 := s2.(reader := TestingWrite);
    ByReader(s2, s3);
    s := s3.(reader := ReaderStopped);
    ByReader(s3, s);
  }

  const FULL := NEW.(goal := GoalFull, writeReq := true, fullReq := true, readCh := true)

  lemma {:induction false} AsksToShutDown(cfg: Config, m: Message, f: ByteString, blocking: bool) returns (s: Conn)
    requires Room(cfg, m, f)
    ensures Possible(s)
    ensures s == Idle(cfg, GateState(true, 0, 1), Written(m, f, blocking),
                      Control(FULL, [], false, 0, true, 0, 1, false, false),
                      [Returned(Nil(m, blocking))], [AwaitWrite(ShutdownCall, true, true)]).(reader := ReaderStopped)
  {
    var s0 := PeerCloses(cfg, m, f, blocking);
    var s1 := s0.(callers := s0.callers + [Asked(ShutdownCall)]);
    assert Spawn(s0, s1);
    ReachableStep(Init, Next, s0, s1);
    var s2 := s1.(ctl := Control(NEW.(goal := GoalFull, readCh := true), [], false, 0, true, 0, 1, false, false))
                .Answer(0, SignalWrite(ShutdownCall, true));
    ByCaller(s1, s2);
    var s3 := s2.WithLife(s2.ctl.life.(writeReq := true)).Answer(0, SignalFull(true));
    ByCaller(s2, s3);
    var s4 := s3.WithLife(FULL).Answer(0, SealGate(ShutdownCall, true));
    ByCaller(s3, s4);
    s := s4.(gate := GateState(true, 0, 1)).Answer(0, AwaitWrite(ShutdownCall, true, true));
    ByCaller(s4, s);
  }

  /** The graceful end with `p` of its five actions done. */
  function Ending(p: nat): Control {
    Control(FULL.(writeCh := true, terminal := true, termCh := p > 2), [Tail(FinishTail, p, None)], p > 3,
            if p > 4 then 1 else 0, true, 0, 1, false, false)
  }

  function Leaves(cfg: Config, m: Message, f: ByteString, blocking: bool, p: nat): Conn {
    Idle(cfg, GateState(true, 0, 1), Written(m, f, blocking).(protocolClosed := true), Ending(p),
         [Returned(Nil(m, blocking))], [AwaitWrite(ShutdownCall, true, true)])
        .(writer := Finishing(0), reader := ReaderStopped)
  }

  lemma {:induction false} EndBegins(cfg: Config, m: Message, f: ByteString, blocking: bool)
    requires Room(cfg, m, f)
    ensures Possible(Leaves(cfg, m, f, blocking, 0))
  {
    var r := AsksToShutDown(cfg, m, f, blocking);
    var s0 := Drains(r);
    var s1 := s0.(writer := TestWrite);
    ByWriter(s0, s1);
    var s2 := s1.(writer := TryFinish);
    ByWriter(s1, s2);
    ByWriter(s2, Leaves(cfg, m, f, blocking, 0));
  }

  lemma {:induction false} EndGoesOn(cfg: Config, m: Message, f: ByteString, blocking: bool, p: nat)
    requires Room(cfg, m, f) && p <= 5
    ensures Possible(Leaves(cfg, m, f, blocking, p))
  {
    if p == 0 {
      EndBegins(cfg, m, f, blocking);
    } else {
      EndGoesOn(cfg, m, f, blocking, p - 1);
      assert [Tail(FinishTail, p - 1, None)][0 := Tail(FinishTail, p, None)] == [Tail(FinishTail, p, None)];
      ByTail(Leaves(cfg, m, f, blocking, p - 1), Leaves(cfg, m, f, blocking, p));
    }
  }

  lemma {:induction false} LoopsStop(cfg: Config, m: Message, f: ByteString, blocking: bool) returns (s: Conn)
    requires Room(cfg, m, f)
    ensures Possible(s) && s == Leaves(cfg, m, f, blocking, 5).(writer := Stopped).Answer(0, AwaitDone(true))
  {
    EndGoesOn(cfg, m, f, blocking, 5);
    var s0 := Leaves(cfg, m, f, blocking, 5);
    var s1 := s0.(writer := Exit);
    ByWriter(s0, s1);
    var s2 := s1.(writer := Sweep);
    ByWriter(s1, s2);
    var s3 := s2.(writer := Stopped);
    ByWriter(s2, s3);
    s := s3.Answer(0, AwaitDone(true));
    ByCaller(s3, s);
  }

  lemma {:induction false} Finalizes(cfg: Config, m: Message, f: ByteString, blocking: bool) returns (s: Conn)
    requires Room(cfg, m, f)
    ensures Possible(s)
    ensures s == Leaves(cfg, m, f, blocking, 5)
                 .(writer := Stopped, finalizer := Finalized, ctl := Ending(5).(onCloseReturned := true, done := true))
                 .Answer(0, AwaitDone(true))
  {
    var s0 := LoopsStop(cfg, m, f, blocking);
    var s1 := s0.(finalizer := CheckTerminal);
    ByFinalizer(s0, s1);
    var s2 := s1.(finalizer := CallingOnClose);
    ByFinalizer(s1, s2);
    var s3 := s2.(ctl := s2.ctl.(onCloseReturned := true), finalizer := CloseDone);
    ByFinalizer(s2, s3);
    s := s3.(ctl := s3.ctl.(done := true), finalizer := Finalized);
    ByFinalizer(s3, s);
  }

  /** And once the peer has closed its side, `Shutdown` can answer nil after it. */
  lemma {:induction false} SendAndShutdownSucceed(cfg: Config, m: Message, f: ByteString, blocking: bool)
      returns (s: Conn)
    requires Room(cfg, m, f)
    ensures Reachable(Init, Next, s)
    ensures s.senders == [Returned(if blocking then Sent(m, 0) else Accepted(m, 0))]
    ensures s.callers == [Answered(ShutdownCall, true)] && s.ctl.done && s.cfg == cfg
    ensures s.pipe == Written(m, f, blocking).(protocolClosed := true)
  {
    var s0 := Finalizes(cfg, m, f, blocking);
    var s1 := s0.Answer(0, ReadErr(ShutdownCall));
    ByCaller(s0, s1);
    var s2 := s1.Answer(0, ReadReason(ShutdownCall));
    ByCaller(s1, s2);
    s := s2.Answer(0, Answered(ShutdownCall, true));
    ByCaller(s2, s);
  }

  // ------------------------------------------- runs that end a session

  /** `s` after `p` of the seven actions of the abort that has just won. */
  function AbortTailAfter(s: Conn, p: nat): Conn
    requires |s.ctl.tails| == 1
  {
    var l := s.ctl.life;
    s.(gate := if p > 5 then Shut(s.gate) else s.gate,
       ctl := s.ctl.(life := l.(writeReq := l.writeReq || p > 0, fullReq := l.fullReq || p > 1,
                                abortCh := l.abortCh || p > 2, readCh := l.readCh || p > 3,
                                writeCh := l.writeCh || p > 4),
                     tails := [s.ctl.tails[0].(phase := p)], closeOnce := p > 5, closings := if p > 6 then 1 else 0))
  }

  ghost predicate JustAborted(s: Conn) {
    && |s.ctl.tails| == 1 && s.ctl.tails[0].kind == AbortTail && s.ctl.tails[0].phase == 0
    && !s.ctl.closeOnce && s.ctl.closings == 0
  }

  lemma {:induction false} AbortGoesOn(s: Conn, p: nat)
    requires Possible(s) && JustAborted(s) && p <= 7
    ensures Possible(AbortTailAfter(s, p))
  {
    if p == 0 {
      assert AbortTailAfter(s, 0) == s;
    } else {
      AbortGoesOn(s, p - 1);
      ByTail(AbortTailAfter(s, p - 1), AbortTailAfter(s, p));
    }
  }

  lemma {:induction false} WriterLeaves(s: Conn)
    requires Possible(s) && s.writer == Exit && s.gate.Drained() && s.pipe.queue == []
    ensures Possible(s.(writer := Stopped))
  {
    ByWriter(s, s.(writer := Sweep));
    ByWriter(s.(writer := Sweep), s.(writer := Stopped));
  }

  /** What the finalizer leaves of a session that was aborted. */
  function Marked(l: Life): Life { l.(terminal := true, readCh := true, writeCh := true, termCh := true) }

  lemma {:induction false} FinalizerMarks(s: Conn)
    requires Possible(s) && s.writer == Stopped && s.reader == ReaderStopped && s.finalizer == Waiting
    requires !s.ctl.life.termCh && s.Closing()
    ensures Possible(s.(ctl := s.ctl.(life := Marked(s.ctl.life)), finalizer := CallingOnClose))
  {
    var s1 := s.(finalizer := CheckTerminal);
    ByFinalizer(s, s1);
    var s2 := s1.(finalizer := CheckClosing);
    ByFinalizer(s1, s2);
    var s3 := s2.(finalizer := ForceMark);
    ByFinalizer(s2, s3);
    var s4 := s3.WithLife(s.ctl.life.(terminal := true)).(finalizer := MarkRead);
    ByFinalizer(s3, s4);
    FinalizerMarksOn(s4);
  }

  lemma {:induction false} FinalizerMarksOn(s: Conn)
    requires Possible(s) && s.finalizer == MarkRead && s.ctl.life.terminal
    ensures Possible(s.(ctl := s.ctl.(life := Marked(s.ctl.life)), finalizer := CallingOnClose))
  {
    var s1 := s.WithLife(s.ctl.life.(readCh := true)).(finalizer := MarkWritten);
    ByFinalizer(s, s1);
    var s2 := s1.WithLife(s1.ctl.life.(writeCh := true)).(finalizer := MarkTerm);
    ByFinalizer(s1, s2);
    ByFinalizer(s2, s.(ctl := s.ctl.(life := Marked(s.ctl.life)), finalizer := CallingOnClose));
  }

  lemma {:induction false} FinalizerEnds(s: Conn)
    requires Possible(s) && s.finalizer == CallingOnClose
    ensures Possible(s.(ctl := s.ctl.(onCloseReturned := true, done := true), finalizer := Finalized))
  {
    var s1 := s.(ctl := s.ctl.(onCloseReturned := true), finalizer := CloseDone);
    ByFinalizer(s, s1);
    ByFinalizer(s1, s.(ctl := s.ctl.(onCloseReturned := true, done := true), finalizer := Finalized));
  }

  /** A message was accepted, and `Close` was called before the writer took it. */
  lemma {:induction false} Closes(cfg: Config, m: Message, f: ByteString) returns (s: Conn)
    requires Room(cfg, m, f)
    ensures Possible(s)
    ensures s == Idle(cfg, OPEN, Queued(m, f, false),
                      Control(NEW.(goal := GoalAbort, why := Explicit), [Tail(AbortTail, 0, None)], false, 0, false, 0,
                              0, false, false),
                      [Returned(Accepted(m, 0))], [InAbort(0)])
  {
    var s0 := Accepts(cfg, m, f);
    var s1 := s0.(callers := s0.callers + [CloseAsked]);
    assert Spawn(s0, s1);
    ReachableStep(Init, Next, s0, s1);
    var s2 := s1.Answer(0, WantAbort(Explicit, None));
    ByCaller(s1, s2);
    s := s2.AbortEntry(Explicit, None).Answer(0, InAbort(0));
    ByCaller(s2, s);
  }

  /** A message is accepted, and `Close` ends the session before the writer takes it. */
  lemma {:induction false} ClosesEarly(cfg: Config, m: Message, f: ByteString) returns (s: Conn)
    requires Room(cfg, m, f)
    ensures Reachable(Init, Next, s) && s.cfg == cfg && s.Closing()
    ensures s.pipe == Queued(m, f, false) && s.gate == GateState(true, 0, 1)
    ensures s.senders == [Returned(Accepted(m, 0))] && s.callers == [InAbort(0)] && s.writer == Select(Plain)
    ensures s.reader == Receiving && s.finalizer == Waiting && !s.ctl.life.termCh && s.ctl.life.why == Explicit
    ensures s.TailFinished(0)
  {
    var s0 := Closes(cfg, m, f);
    AbortGoesOn(s0, 7);
    s := AbortTailAfter(s0, 7);
  }
}
