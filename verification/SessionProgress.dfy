/**
 That nobody in a session is ever stuck: every sender, caller and reader has a next step, and the writer goes
 on unless it waits for work or for the senders inside the gate; whoever waits for the signals of the one who
 ended the session waits for signals that go on.
 */
module SessionProgress {
  import opened Bytes
  import opened Counting
  import opened Gate
  import opened Lifecycle
  import opened Runs
  import opened Session
  import opened Pipeline
  import opened SessionTheorems
  import opened SessionAnswers

  // ------------------------------------------------- senders

  /** The tokens a sender is about to give back are there. */
  lemma {:induction false} SenderHasTokens(s: Conn, i: nat)
    requires Reached(s) && i < |s.senders|
    ensures Encoder(s.senders[i]) <= s.pipe.encoders && Slot(s.senders[i]) <= s.pipe.slots
  {
    ReachedInv(s);
    NonNegativeTokens(s);
    SumAtLeast(Encoder, s.senders, i);
    SumAtLeast(Slot, s.senders, i);
  }

  /** Where a sender that is not at its last step can go next, without waiting for anybody. */
  function WayOut(s: Conn, i: nat): Conn
    requires i < |s.senders| && !s.senders[i].Returned?
  {
    match s.senders[i]
    case Calling(job) =>
      if s.gate.closed then s.Go(i, Returned(Refused)) else s.(gate := Enter(s.gate)).Go(i, Entered(job))
    case Entered(job) =>
      if s.cfg.valid(job.msg) && !job.blocking && s.pipe.slots < s.cfg.queueCap + 1
      then s.(pipe := s.pipe.(slots := s.pipe.slots + 1)).Go(i, SlotHeld(job)) else s.Go(i, Leaving(Refused))
    case SlotHeld(job) =>
      if !job.blocking && s.pipe.encoders < 1
      then s.(pipe := s.pipe.(encoders := s.pipe.encoders + 1)).Go(i, EncoderTaken(job)) else s.Go(i, DropSlot)
    case EncoderTaken(job) => s.Go(i, if s.Closing() then DropEncoder else EncoderHeld(job))
    case EncoderHeld(job) => s.Go(i, DropEncoder)
    case Encoded(job, frame) =>
      if !job.blocking && s.pipe.used + |frame| <= s.cfg.byteLimit
      then s.(pipe := s.pipe.(used := s.pipe.used + |frame|)).Go(i, LocalQuota(job, frame)) else s.Go(i, DropEncoder)
    case LocalQuota(job, frame) => s.Go(i, RollBack(frame))
    case RollBack(frame) => s.(pipe := s.pipe.(used := ReleaseBytes(s.pipe.used, |frame|))).Go(i, DropEncoder)
    case BothQuotas(job, frame) =>
      s.(pipe := s.pipe.(encoders := s.pipe.encoders - 1)).Go(i, Prepared(job, frame))
    case DropEncoder => s.(pipe := s.pipe.(encoders := s.pipe.encoders - 1)).Go(i, DropSlot)
    case DropSlot => s.(pipe := s.pipe.(slots := s.pipe.slots - 1)).Go(i, Leaving(Refused))
    case Prepared(job, frame) =>
      if !job.blocking && |s.pipe.queue| < s.cfg.queueCap
      then s.(pipe := EnqueuePipe(s, job, frame)).Go(i, Leaving(Accepted(job.msg, EnqueueTicket(s))))
      else s.Go(i, DropQuota(frame))
    case DropQuota(frame) => s.(pipe := s.pipe.(used := ReleaseBytes(s.pipe.used, |frame|))).Go(i, DropSlot)
    case AwaitAck(_, _) => s.Go(i, Leaving(Refused))
    case Leaving(out) => s.(gate := Leave(s.gate)).Go(i, Returned(out))
  }

  /**
   A call of `TrySend` is never stuck and never waits: in every reachable state it has a next step. Neither
   is `Send`, whose context may be cancelled at every wait.
   */
  lemma {:induction false} SendersAreNeverStuck(s: Conn, i: nat)
    requires Reached(s) && i < |s.senders| && !s.senders[i].Returned?
    ensures exists s' :: SenderStep(s, s', i)
  {
    SenderHasTokens(s, i);
    assert SenderStep(s, WayOut(s, i), i);
  }

  // ------------------------------------------------- the writer

  /** The writer has nothing to do, or waits for the senders inside the gate or for the winner's signals. */
  predicate WriterWaits(s: Conn) {
    match s.writer
    case Select(mode) =>
      && mode != Draining && !s.Closing() && s.pipe.queue == [] && (mode == Plain ==> !s.ctl.life.writeReq)
      && (mode == Graceful ==> !s.gate.Drained())
    case FailAborting(_, tail) => !s.TailFinished(tail)
    case CloseAborting(tail) => !s.TailFinished(tail)
    case Finishing(tail) => !s.TailFinished(tail)
    case Exit => !s.gate.Drained()
    case Stopped => true
    case _ => false
  }

  lemma {:induction false} WriterHasSlot(s: Conn)
    requires Reached(s)
    ensures WriterSlot(s.writer) <= s.pipe.slots
  {
    ReachedInv(s);
    NonNegativeTokens(s);
  }

  lemma {:induction false} SelectMoves(s: Conn) returns (s': Conn)
    requires !WriterWaits(s) && (s.writer.Select? || s.writer.Exit? || s.writer.Sweep?)
    ensures WriterStep(s, s')
  {
    if s.writer.Exit? {
      s' := s.(writer := Sweep);
    } else if s.writer.Sweep? {
      s' := if s.pipe.queue == [] then s.(writer := Stopped)
            else s.(pipe := s.pipe.(queue := s.pipe.queue[1..]), writer := SweepQuota(s.pipe.queue[0]));
    } else if s.pipe.queue != [] {
      s' := Dequeue(s, s.writer.mode);
    } else if s.writer.mode == Draining {
      s' := s.(writer := CloseProtocol);
    } else if s.Closing() {
      s' := s.(writer := Exit);
    } else {
      s' := s.(writer := Select(if s.writer.mode == Plain then Graceful else Draining));
    }
  }

  lemma {:induction false} BusyMoves(s: Conn) returns (s': Conn)
    requires Busy(s.writer) && !WriterWaits(s) && WriterSlot(s.writer) <= s.pipe.slots
    requires (s.writer.SlotBack? && s.writer.ok) || s.writer.FailAck? || s.writer.SweepAck? ==>
               AckReady(s.pipe, s.writer.req)
    ensures WriterStep(s, s')
  {
    match s.writer {
      case Writing(mode, req, _) => s' := s.(writer := Wrote(mode, req, false));
      case Wrote(mode, req, ok) =>
        s' := s.(pipe := s.pipe.(used := ReleaseBytes(s.pipe.used, |req.frame|)), writer := QuotaBack(mode, req, ok));
      case QuotaBack(mode, req, ok) =>
        s' := s.(pipe := s.pipe.(slots := s.pipe.slots - 1), writer := SlotBack(mode, req, ok));
      case SlotBack(mode, req, ok) =>
        if ok {
          s' := s.(pipe := Acked(s.pipe, req, true), writer := Select(mode));
        } else {
          s' := s.AbortEntry(Failure, None)
                 .(writer := if Ended(s.ctl.life) then FailAck(req) else FailAborting(req, |s.ctl.tails|));
        }
      case FailAborting(req, _) => s' := s.(writer := FailAck(req));
      case FailAck(req) => s' := s.(pipe := Acked(s.pipe, req, false), writer := Exit);
      case SweepQuota(req) =>
        s' := s.(pipe := s.pipe.(used := ReleaseBytes(s.pipe.used, |req.frame|)), writer := SweepSlot(req));
      case SweepSlot(req) => s' := s.(pipe := s.pipe.(slots := s.pipe.slots - 1), writer := SweepAck(req));
      case SweepAck(req) => s' := s.(pipe := Acked(s.pipe, req, false), writer := Sweep);
    }
  }

  lemma {:induction false} ClosingMoves(s: Conn) returns (s': Conn)
    requires AtTheEnd(s.writer) && !WriterWaits(s)
    ensures WriterStep(s, s')
  {
    match s.writer {
      case CloseProtocol => s' := s.(pipe := s.pipe.(protocolClosed := true), writer := MarkWrite);
      case CloseFailed(cause) =>
        s' := s.AbortEntry(Failure, cause)
               .(writer := if Ended(s.ctl.life) then Exit else CloseAborting(|s.ctl.tails|));
      case MarkWrite => s' := s.WithLife(s.ctl.life.(writeCh := true)).(writer := TestRead);
      case TestRead => s' := s.(writer := if s.ctl.life.readCh then TestWrite else Exit);
      case TestWrite => s' := s.(writer := if s.ctl.life.writeCh then TryFinish else Exit);
      case TryFinish =>
        s' := s.FinishEntry().(writer := if Ended(s.ctl.life) then Exit else Finishing(|s.ctl.tails|));
      case _ => s' := s.(writer := Exit);
    }
  }

  /** The writer goes on unless it waits for one of these: no ack, token or quota ever holds it up. */
  lemma {:induction false} WriterIsNeverStuck(s: Conn)
    requires Reached(s) && !WriterWaits(s)
    ensures exists s' :: WriterStep(s, s')
  {
    WriterHasSlot(s);
    if Busy(s.writer) {
      if (s.writer.SlotBack? && s.writer.ok) || s.writer.FailAck? || s.writer.SweepAck? {
        WriterNeverBlocksOnAck(s);
      }
      var s' := BusyMoves(s);
    } else if AtTheEnd(s.writer) {
      var s' := ClosingMoves(s);
    } else {
      var s' := SelectMoves(s);
    }
  }

  // ------------------------------------------------- reader, callers and finalizer

  /** Whoever waits for the signals of an abort or a graceful end waits for one that was begun. */
  ghost predicate Known(s: Conn) {
    var n := |s.ctl.tails|;
    && (s.writer.FailAborting? || s.writer.CloseAborting? || s.writer.Finishing? ==> s.writer.tail < n)
    && (s.reader.ReaderFinishing? || s.reader.ReaderAborting? ==> s.reader.tail < n)
    && (s.finalizer.FinalAborting? ==> s.finalizer.tail < n)
    && forall k :: 0 <= k < |s.callers| && s.callers[k].InAbort? ==> s.callers[k].tail < n
  }

  lemma {:induction false} MeetingWriterKnown(s: Conn, s': Conn)
    requires Known(s) && WriterStep(s, s') && AtTheEnd(s.writer)
    ensures Known(s')
  {
  }

  lemma {:induction false} BusyWriterKnown(s: Conn, s': Conn)
    requires Known(s) && WriterStep(s, s') && Busy(s.writer)
    ensures Known(s')
  {
  }

  lemma {:induction false} OtherWriterKnown(s: Conn, s': Conn)
    requires Known(s) && WriterStep(s, s') && !Busy(s.writer) && !AtTheEnd(s.writer)
    ensures Known(s')
  {
  }

  lemma {:induction false} ReaderKnown(s: Conn, s': Conn)
    requires Known(s) && ReaderStep(s, s')
    ensures Known(s')
  {
  }

  lemma {:induction false} TailKnown(s: Conn, s': Conn, j: nat)
    requires Known(s) && TailStep(s, s', j)
    ensures Known(s')
  {
  }

  /** What one caller's step does to the tails and to itself. */
  lemma {:induction false} CallerTail(s: Conn, s': Conn, i: nat)
    requires CallerStep(s, s', i) && i < |s'.callers|
    ensures |s.ctl.tails| <= |s'.ctl.tails| && (s'.callers[i].InAbort? ==> s'.callers[i].tail < |s'.ctl.tails|)
    ensures s'.writer == s.writer && s'.reader == s.reader && s'.finalizer == s.finalizer
  {
  }

  lemma {:induction false} CallerKnown(s: Conn, s': Conn, i: nat)
    requires Known(s) && CallerStep(s, s', i)
    ensures Known(s')
  {
    CallerMovesAlone(s, s', i);
    CallerTail(s, s', i);
  }

  lemma {:induction false} FinalizerKnown(s: Conn, s': Conn)
    requires Known(s) && FinalizerStep(s, s')
    ensures Known(s')
  {
  }

  lemma {:induction false} KnownStep(s: Conn, s': Conn)
    requires Known(s) && Next(s, s')
    ensures Known(s')
  {
    if i: nat :| SenderStep(s, s', i) {
      SenderLeavesControl(s, s', i);
    } else if WriterStep(s, s') {
      if AtTheEnd(s.writer) {
        MeetingWriterKnown(s, s');
      } else if Busy(s.writer) {
        BusyWriterKnown(s, s');
      } else {
        OtherWriterKnown(s, s');
      }
    } else if ReaderStep(s, s') {
      ReaderKnown(s, s');
    } else if j: nat :| TailStep(s, s', j) {
      TailKnown(s, s', j);
    } else if i: nat :| CallerStep(s, s', i) {
      CallerKnown(s, s', i);
    } else if FinalizerStep(s, s') {
      FinalizerKnown(s, s');
    }
  }

  lemma {:induction false} ReachedKnown(s: Conn)
    requires Reached(s)
    ensures Known(s)
  {
    forall a, b | Known(a) && Next(a, b)
      ensures Known(b)
    {
      KnownStep(a, b);
    }
    Invariant(Init, Next, Known, s);
  }

  /** The winner has a signal to close. */
  ghost predicate SignalsGoOn(s: Conn) { exists s', j :: TailStep(s, s', j) }

  lemma {:induction false} TailMoves(s: Conn, j: nat)
    requires j < |s.ctl.tails| && !s.TailFinished(j)
    ensures SignalsGoOn(s)
  {
    var t := s.ctl.tails[j];
    var s' := s.(ctl := AdvanceTail(s.ctl, j),
                 gate := if AtCloseOnce(t) && !s.ctl.closeOnce then Shut(s.gate) else s.gate);
    assert TailStep(s, s', j);
  }

  /** The writer that waits for signals waits for signals that go on. */
  lemma {:induction false} WriterWaitsForSignals(s: Conn)
    requires Reached(s) && WriterWaits(s)
    requires s.writer.FailAborting? || s.writer.CloseAborting? || s.writer.Finishing?
    ensures SignalsGoOn(s)
  {
    ReachedKnown(s);
    TailMoves(s, s.writer.tail);
  }

  function ReaderWayOut(s: Conn): Conn {
    match s.reader
    case Receiving => s.(reader := Broken(None))
    case MarkingRead => s.WithLife(s.ctl.life.(readCh := true)).(reader := TestingRead)
    case TestingRead => s.(reader := if s.ctl.life.readCh then TestingWrite else ReaderStopped)
    case TestingWrite => s.(reader := if s.ctl.life.writeCh then TryingFinish else ReaderStopped)
    case TryingFinish =>
      s.FinishEntry().(reader := if Ended(s.ctl.life) then ReaderStopped else ReaderFinishing(|s.ctl.tails|))
    case Broken(cause) =>
      s.AbortEntry(Failure, cause)
       .(reader := if Ended(s.ctl.life) then ReaderStopped else ReaderAborting(|s.ctl.tails|))
    case _ => s.(reader := ReaderStopped)
  }

  /** The reader goes on, or waits for signals that go on. */
  lemma {:induction false} ReaderIsNeverStuck(s: Conn)
    requires Reached(s) && !s.reader.ReaderStopped?
    ensures (exists s' :: ReaderStep(s, s')) || SignalsGoOn(s)
  {
    if (s.reader.ReaderFinishing? || s.reader.ReaderAborting?) && !s.TailFinished(s.reader.tail) {
      ReachedKnown(s);
      TailMoves(s, s.reader.tail);
    } else {
      assert ReaderStep(s, ReaderWayOut(s));
    }
  }

  function CallerWayOut(s: Conn, i: nat): Conn
    requires i < |s.callers|
  {
    var l := s.ctl.life;
    match s.callers[i]
    case Asked(kind) =>
      if RequestWins(l, GoalOf(kind)) then
        s.(ctl := CountOwner(s.ctl.(life := Request(l, GoalOf(kind))), kind))
         .Answer(i, SignalWrite(kind, l.goal == GoalRunning))
      else s.Answer(i, AwaitWrite(kind, false, l.goal == GoalRunning))
    case SignalWrite(kind, ownsWrite) =>
      s.WithLife(l.(writeReq := true))
       .Answer(i, if kind == ShutdownCall then SignalFull(ownsWrite) else SealGate(kind, ownsWrite))
    case SignalFull(ownsWrite) => s.WithLife(l.(fullReq := true)).Answer(i, SealGate(ShutdownCall, ownsWrite))
    case SealGate(kind, ownsWrite) => s.(gate := Shut(s.gate)).Answer(i, AwaitWrite(kind, true, ownsWrite))
    case AwaitWrite(kind, owner, ownsWrite) =>
      s.Answer(i, if owner && (kind == CloseWriteCall || ownsWrite) then WantAbort(CallerGone, None)
                  else Answered(kind, false))
    case AwaitDone(owner) => s.Answer(i, if owner then WantAbort(CallerGone, None) else Answered(ShutdownCall, false))
    case ReadErr(kind) => s.Answer(i, if l.err.Some? then Answered(kind, false) else ReadReason(kind))
    case ReadReason(kind) => s.Answer(i, Answered(kind, l.why == NoAbort))
    case CloseAsked => s.Answer(i, if s.ctl.done then Gone else WantAbort(Explicit, None))
    case WantAbort(reason, cause) =>
      s.AbortEntry(reason, cause).Answer(i, if Ended(l) then Gone else InAbort(|s.ctl.tails|))
    case _ => s.Answer(i, Gone)
  }

  /** No call of `CloseWrite`, `Shutdown` or `Close` is ever stuck: it may give up, or waits for signals that go on. */
  lemma {:induction false} CallersAreNeverStuck(s: Conn, i: nat)
    requires Reached(s) && i < |s.callers| && !s.callers[i].Answered? && !s.callers[i].Gone?
    ensures (exists s' :: CallerStep(s, s', i)) || SignalsGoOn(s)
  {
    if s.callers[i].InAbort? && !s.TailFinished(s.callers[i].tail) {
      ReachedKnown(s);
      TailMoves(s, s.callers[i].tail);
    } else {
      assert CallerStep(s, CallerWayOut(s, i), i);
    }
  }

  /** A call whose signal is closed can go on: to the second wait of `Shutdown`, or to its answer. */
  lemma {:induction false} WaitEnds(s: Conn, i: nat)
    requires i < |s.callers|
    ensures var x := s.callers[i];
            && (x.AwaitWrite? && s.ctl.life.writeCh ==>
                  var next := if x.kind == CloseWriteCall then ReadErr(x.kind) else AwaitDone(x.owner);
                  CallerStep(s, s.Answer(i, next), i))
            && (x.AwaitWrite? && s.ctl.life.abortCh ==> CallerStep(s, s.Answer(i, ReadErr(x.kind)), i))
            && (x.AwaitDone? && (s.ctl.done || s.ctl.life.abortCh) ==>
                  CallerStep(s, s.Answer(i, ReadErr(ShutdownCall)), i))
  {
  }

  function FinalizerWayOut(s: Conn): Conn {
    match s.finalizer
    case Waiting => s.(finalizer := CheckTerminal)
    case CheckTerminal => s.(finalizer := if s.ctl.life.termCh then CallingOnClose else CheckClosing)
    case CheckClosing => s.(finalizer := if s.Closing() then ForceMark else FinalAbort)
    case FinalAbort =>
      s.AbortEntry(Failure, None)
       .(finalizer := if Ended(s.ctl.life) then ForceMark else FinalAborting(|s.ctl.tails|))
    case FinalAborting(_) => s.(finalizer := ForceMark)
    case ForceMark => s.WithLife(ForceTerminal(s.ctl.life)).(finalizer := MarkRead)
    case MarkRead => s.WithLife(s.ctl.life.(readCh := true)).(finalizer := MarkWritten)
    case MarkWritten => s.WithLife(s.ctl.life.(writeCh := true)).(finalizer := MarkTerm)
    case MarkTerm => s.WithLife(s.ctl.life.(termCh := true)).(finalizer := CallingOnClose)
    case CallingOnClose => s.(ctl := s.ctl.(onCloseReturned := true), finalizer := CloseDone)
    case CloseDone => s.(ctl := s.ctl.(done := true), finalizer := Finalized)
    case Finalized => s
  }

  /** Once both loops have stopped the finalizer goes on to the end, or waits for signals that go on. */
  lemma {:induction false} FinalizerIsNeverStuck(s: Conn)
    requires Reached(s) && s.writer == Stopped && s.reader == ReaderStopped && !s.finalizer.Finalized?
    ensures (exists s' :: FinalizerStep(s, s')) || SignalsGoOn(s)
  {
    if s.finalizer.FinalAborting? && !s.TailFinished(s.finalizer.tail) {
      ReachedKnown(s);
      TailMoves(s, s.finalizer.tail);
    } else {
      assert FinalizerStep(s, FinalizerWayOut(s));
    }
  }
}
