/**
 How a session ends, in every interleaving: at most one cause wins, its signals follow in order,
 reader and writer meet, and a nil answer from `CloseWrite` or `Shutdown` means what it promises.
 */
module Ending {
  import opened Bytes
  import opened Lifecycle
  import opened Session
  import opened Pipeline

  predicate AbortWon(c: Control) { c.tails != [] && c.tails[0].kind == AbortTail }

  predicate FinishWon(c: Control) { c.tails != [] && c.tails[0].kind == FinishTail }

  predicate Marked(f: Finalizer) {
    f.MarkRead? || f.MarkWritten? || f.MarkTerm? || f.CallingOnClose? || f.CloseDone? || f.Finalized?
  }

  /** There is at most one winner; its tail shows how far its signals have come. */
  ghost predicate TailInv(c: Control) {
    && |c.tails| <= 1
    && (c.life.goal == GoalAbort <==> AbortWon(c)) && (c.life.why != NoAbort <==> AbortWon(c))
    && c.life.err == (if AbortWon(c) then c.tails[0].cause else None)
    && (c.tails == [] ==> !c.closeOnce && c.closings == 0 && !c.life.abortCh)
    && (AbortWon(c) ==>
          var p := c.tails[0].phase;
          p <= 7 && c.closeOnce == (p > 5) && c.closings == (if p > 6 then 1 else 0) && c.life.abortCh == (p > 2))
    && (FinishWon(c) ==>
          var p := c.tails[0].phase;
          p <= 5 && c.closeOnce == (p > 3) && c.closings == (if p > 4 then 1 else 0) && !c.life.abortCh
          && c.life.termCh == (p > 2) && c.life.terminal)
  }

  ghost predicate OwnerInv(c: Control) {
    && c.writeOwners <= 1 && c.fullOwners <= 1
    && (c.writeOwners == 1 ==> Rank(c.life.goal) >= 1) && (c.fullOwners == 1 ==> Rank(c.life.goal) >= 2)
  }

  /** A half is marked closed only for the reason that closes it, or by an abort. */
  ghost predicate HalfInv(c: Control, closed: bool) {
    && (c.life.writeCh ==> closed || AbortWon(c))
    && (c.life.readCh ==> c.eof || AbortWon(c))
    && (FinishWon(c) ==> c.eof && closed && c.life.readCh && c.life.writeCh)
  }

  ghost predicate LoopsInv(c: Control, closed: bool, w: Writer, r: Receiver) {
    && (w.TestRead? || w.TestWrite? || w.TryFinish? || w.Finishing? ==> c.life.writeCh)
    && (w.TestWrite? || w.TryFinish? ==> c.life.readCh)
    && (w.Finishing? ==> FinishWon(c) && w.tail == 0)
    && (r.Receiving? || r.Broken? || r.ReaderAborting? ==> !c.eof)
    && (r.MarkingRead? || r.TestingRead? || r.TestingWrite? || r.TryingFinish? || r.ReaderFinishing? ==> c.eof)
    && (r.TestingRead? || r.TestingWrite? || r.TryingFinish? || r.ReaderFinishing? ==> c.life.readCh)
    && (r.TryingFinish? ==> c.life.writeCh)
    && (r.ReaderFinishing? ==> FinishWon(c) && r.tail == 0)
    && (FinishWon(c) && !TailDone(c.tails[0]) ==> w.Finishing? || r.ReaderFinishing?)
  }

  /** The writer closed the protocol and went its way; the reader saw the end and went its way. */
  predicate WriterLeft(closed: bool, w: Writer) { closed && (w.Exit? || w.Sweep? || w.Stopped?) }

  predicate ReaderLeft(c: Control, r: Receiver) { c.eof && r.ReaderStopped? }

  /** Whoever leaves without a winner has marked its half and left the decision to the other. */
  ghost predicate MeetingInv(c: Control, closed: bool, w: Writer, r: Receiver) {
    && (WriterLeft(closed, w) && c.tails == [] ==> c.life.writeCh && !ReaderLeft(c, r))
    && (ReaderLeft(c, r) && c.tails == [] ==> c.life.readCh)
  }

  ghost predicate FinalInv(c: Control, w: Writer, r: Receiver, f: Finalizer) {
    && (f != Waiting ==> w.Stopped? && r.ReaderStopped?)
    && (c.life.terminal ==> FinishWon(c) || Marked(f)) && (c.life.termCh ==> c.life.terminal)
    && (f.CheckClosing? || f.FinalAbort? ==> !FinishWon(c))
    && (f.FinalAborting? || f.ForceMark? || f.MarkRead? || f.MarkWritten? || f.MarkTerm? ==> AbortWon(c))
    && (Marked(f) ==> c.life.terminal && c.tails != [])
    && c.onCloseReturned == (f.CloseDone? || f.Finalized?) && c.done == f.Finalized?
  }

  ghost predicate EndInv(c: Control, closed: bool, w: Writer, r: Receiver, f: Finalizer) {
    && TailInv(c) && OwnerInv(c) && HalfInv(c, closed)
    && LoopsInv(c, closed, w, r) && MeetingInv(c, closed, w, r) && FinalInv(c, w, r, f)
  }

  ghost predicate CallerOk(c: Control, closed: bool, x: Caller) {
    match x
    case ReadErr(kind) => if kind == CloseWriteCall then c.life.writeCh || c.life.abortCh else c.done || c.life.abortCh
    case ReadReason(kind) =>
      if kind == CloseWriteCall then c.life.writeCh || c.life.abortCh else c.done || c.life.abortCh
    case WantAbort(reason, _) => reason != NoAbort
    case Answered(kind, ok) => ok ==> if kind == CloseWriteCall then closed else c.done && c.life.why == NoAbort
    case _ => true
  }

  ghost predicate CallersOk(s: Conn) {
    forall i :: 0 <= i < |s.callers| ==> CallerOk(s.ctl, s.pipe.protocolClosed, s.callers[i])
  }

  ghost predicate ControlInv(s: Conn) {
    EndInv(s.ctl, s.pipe.protocolClosed, s.writer, s.reader, s.finalizer)
  }

  // --------------------------------------------- effects on the control state

  function AbortCtl(c: Control, reason: Reason, cause: Maybe<Cause>): Control {
    if Ended(c.life) then c
    else c.(life := Abort(c.life, reason, cause), tails := c.tails + [Tail(AbortTail, 0, cause)])
  }

  /** Signals stay closed, the goal only rises, and an ended session keeps its cause. */
  ghost predicate LifeForward(l: Life, l': Life) {
    && (l.writeCh ==> l'.writeCh) && (l.readCh ==> l'.readCh) && (l.abortCh ==> l'.abortCh)
    && Rank(l.goal) <= Rank(l'.goal)
    && (Ended(l) ==> Ended(l') && l'.err == l.err && l'.why == l.why)
  }

  ghost predicate Forward(c: Control, c': Control) {
    LifeForward(c.life, c'.life) && (c.done ==> c'.done) && c.closings <= c'.closings
  }

  /** The control state moves on in a way the threads' positions stay consistent with. */
  ghost predicate Later(c: Control, c': Control) {
    && c'.eof == c.eof && (c.life.readCh ==> c'.life.readCh) && (c.life.writeCh ==> c'.life.writeCh)
    && c'.life.terminal == c.life.terminal && (c'.life.termCh ==> c'.life.terminal)
    && FinishWon(c') == FinishWon(c) && (AbortWon(c) ==> AbortWon(c')) && (c'.tails == [] ==> c.tails == [])
    && (FinishWon(c') && !TailDone(c'.tails[0]) ==> !TailDone(c.tails[0]))
    && c'.done == c.done && c'.onCloseReturned == c.onCloseReturned
  }

  lemma {:induction false} LaterLoops(c: Control, c': Control, closed: bool, w: Writer, r: Receiver)
    requires LoopsInv(c, closed, w, r) && Later(c, c')
    ensures LoopsInv(c', closed, w, r)
  {
  }

  lemma {:induction false} LaterMeeting(c: Control, c': Control, closed: bool, w: Writer, r: Receiver)
    requires MeetingInv(c, closed, w, r) && Later(c, c')
    ensures MeetingInv(c', closed, w, r)
  {
  }

  lemma {:induction false} LaterFinal(c: Control, c': Control, w: Writer, r: Receiver, f: Finalizer)
    requires FinalInv(c, w, r, f) && Later(c, c')
    ensures FinalInv(c', w, r, f)
  {
  }

  lemma {:induction false} LaterKeepsEnd(c: Control, c': Control, closed: bool, w: Writer, r: Receiver, f: Finalizer)
    requires EndInv(c, closed, w, r, f) && Later(c, c')
    requires TailInv(c') && OwnerInv(c') && HalfInv(c', closed)
    ensures EndInv(c', closed, w, r, f)
  {
    LaterLoops(c, c', closed, w, r);
    LaterMeeting(c, c', closed, w, r);
    LaterFinal(c, c', w, r, f);
  }

  lemma {:induction false} AbortTails(c: Control, closed: bool, reason: Reason, cause: Maybe<Cause>)
    requires TailInv(c) && OwnerInv(c) && HalfInv(c, closed) && (c.life.termCh ==> c.life.terminal)
    requires reason != NoAbort && !Ended(c.life)
    ensures var c' := AbortCtl(c, reason, cause);
            c.tails == [] && TailInv(c') && OwnerInv(c') && HalfInv(c', closed) && Later(c, c') && AbortWon(c')
  {
  }

  lemma {:induction false} AbortForward(c: Control, reason: Reason, cause: Maybe<Cause>)
    ensures Forward(c, AbortCtl(c, reason, cause))
  {
  }

  /** An attempt to abort is safe wherever the threads are, as long as they can tell whether it won. */
  lemma {:induction false} AbortAttempt(c: Control, closed: bool, w: Writer, r: Receiver, f: Finalizer, reason: Reason,
      cause: Maybe<Cause>)
    requires EndInv(c, closed, w, r, f) && reason != NoAbort
    ensures EndInv(AbortCtl(c, reason, cause), closed, w, r, f) && Forward(c, AbortCtl(c, reason, cause))
    ensures Ended(c.life) ==> AbortCtl(c, reason, cause) == c && (AbortWon(c) || c.life.terminal)
    ensures !Ended(c.life) ==> c.tails == [] && AbortWon(AbortCtl(c, reason, cause))
  {
    AbortForward(c, reason, cause);
    if !Ended(c.life) {
      AbortTails(c, closed, reason, cause);
      LaterKeepsEnd(c, AbortCtl(c, reason, cause), closed, w, r, f);
    }
  }

  lemma {:induction false} SignalTails(c: Control, closed: bool, c': Control)
    requires TailInv(c) && OwnerInv(c) && HalfInv(c, closed) && (c.life.termCh ==> c.life.terminal)
    requires c' == c.(life := c.life.(writeReq := c'.life.writeReq, fullReq := c'.life.fullReq))
    ensures TailInv(c') && OwnerInv(c') && HalfInv(c', closed) && Later(c, c') && Forward(c, c')
  {
  }

  /** The request signals mean nothing to the invariants. */
  lemma {:induction false} RequestSignals(c: Control, closed: bool, w: Writer, r: Receiver, f: Finalizer, c': Control)
    requires EndInv(c, closed, w, r, f)
    requires c' == c.(life := c.life.(writeReq := c'.life.writeReq, fullReq := c'.life.fullReq))
    ensures EndInv(c', closed, w, r, f) && Forward(c, c')
  {
    SignalTails(c, closed, c');
    LaterKeepsEnd(c, c', closed, w, r, f);
  }

  // -------------------------------------------------------- writer steps

  predicate Meeting(w: Writer) { w.MarkWrite? || w.TestRead? || w.TestWrite? || w.TryFinish? || w.Finishing? }

  /** Outside the meeting the writer either leaves the control state alone or tries to abort. */
  ghost predicate WriterAside(s: Conn, s': Conn) {
    && s'.reader == s.reader && s'.finalizer == s.finalizer && s'.callers == s.callers
    && !s.writer.Stopped? && !Meeting(s.writer) && (Meeting(s'.writer) ==> s'.writer.MarkWrite?)
    && (s.pipe.protocolClosed ==> s'.pipe.protocolClosed)
    && (WriterLeft(s'.pipe.protocolClosed, s'.writer) ==> WriterLeft(s.pipe.protocolClosed, s.writer))
    && (s'.ctl == s.ctl || exists cause :: s'.ctl == AbortCtl(s.ctl, Failure, cause))
  }

  lemma {:induction false} SelectAside(s: Conn, s': Conn)
    requires DrainInv(s) && WriterStep(s, s')
    requires s.writer.Select? || s.writer.Exit? || s.writer.Sweep? || s.writer.CloseProtocol?
    ensures WriterAside(s, s')
  {
  }

  lemma {:induction false} BusyAside(s: Conn, s': Conn)
    requires DrainInv(s) && WriterStep(s, s') && Busy(s.writer)
    ensures WriterAside(s, s')
  {
    if s.writer.SlotBack? && !s.writer.ok {
      var cause :| s' == s.AbortEntry(Failure, cause)
                 .(writer := if Ended(s.ctl.life) then FailAck(s.writer.req)
                     else FailAborting(s.writer.req, |s.ctl.tails|));
      assert s'.ctl == AbortCtl(s.ctl, Failure, cause);
    }
  }

  lemma {:induction false} FailedCloseAside(s: Conn, s': Conn)
    requires DrainInv(s) && WriterStep(s, s') && (s.writer.CloseFailed? || s.writer.CloseAborting?)
    ensures WriterAside(s, s')
  {
    if s.writer.CloseFailed? {
      assert s'.ctl == AbortCtl(s.ctl, Failure, s.writer.cause);
    }
  }

  lemma {:induction false} AsideKeepsEnd(s: Conn, s': Conn)
    requires ControlInv(s) && WriterAside(s, s')
    ensures ControlInv(s') && Forward(s.ctl, s'.ctl)
  {
    if s'.ctl != s.ctl {
      var cause :| s'.ctl == AbortCtl(s.ctl, Failure, cause);
      AbortAttempt(s.ctl, s.pipe.protocolClosed, s.writer, s.reader, s.finalizer, Failure, cause);
    }
    WriterElsewhere(s'.ctl, s.pipe.protocolClosed, s'.pipe.protocolClosed, s.writer, s'.writer, s.reader, s.finalizer);
  }

  lemma {:induction false} WriterElsewhere(
      c: Control, closed: bool, closed': bool, w: Writer, w': Writer, r: Receiver, f: Finalizer)
    requires EndInv(c, closed, w, r, f)
    requires !w.Stopped? && !Meeting(w) && (Meeting(w') ==> w'.MarkWrite?) && (closed ==> closed')
    requires WriterLeft(closed', w') ==> WriterLeft(closed, w)
    ensures EndInv(c, closed', w', r, f)
  {
  }

  lemma {:induction false} MarkingWriterKeepsEnd(s: Conn, s': Conn)
    requires ControlInv(s) && DrainInv(s) && WriterStep(s, s') && (s.writer.MarkWrite? || s.writer.TestRead?)
    ensures ControlInv(s') && Forward(s.ctl, s'.ctl)
  {
  }

  lemma {:induction false} FinishingWriterKeepsEnd(s: Conn, s': Conn)
    requires ControlInv(s) && DrainInv(s) && WriterStep(s, s')
        && (s.writer.TestWrite? || s.writer.TryFinish? || s.writer.Finishing?)
    ensures ControlInv(s') && Forward(s.ctl, s'.ctl)
  {
  }

  lemma {:induction false} WriterKeepsEnd(s: Conn, s': Conn)
    requires ControlInv(s) && DrainInv(s) && WriterStep(s, s')
    ensures ControlInv(s') && Forward(s.ctl, s'.ctl)
  {
    if s.writer.MarkWrite? || s.writer.TestRead? {
      MarkingWriterKeepsEnd(s, s');
    } else if Meeting(s.writer) {
      FinishingWriterKeepsEnd(s, s');
    } else {
      if Busy(s.writer) {
        BusyAside(s, s');
      } else if s.writer.CloseFailed? || s.writer.CloseAborting? {
        FailedCloseAside(s, s');
      } else {
        SelectAside(s, s');
      }
      AsideKeepsEnd(s, s');
    }
  }

  // -------------------------------------------------------- reader steps

  lemma {:induction false} MeetingReaderKeepsEnd(s: Conn, s': Conn)
    requires ControlInv(s) && DrainInv(s) && ReaderStep(s, s')
    requires s.reader.MarkingRead? || s.reader.TestingRead? || s.reader.TestingWrite? || s.reader.TryingFinish?
             || s.reader.ReaderFinishing?
    ensures ControlInv(s') && Forward(s.ctl, s'.ctl)
  {
  }

  lemma {:induction false} OtherReaderKeepsEnd(s: Conn, s': Conn)
    requires ControlInv(s) && ReaderStep(s, s') && (s.reader.Receiving? || s.reader.ReaderAborting?)
    ensures ControlInv(s') && Forward(s.ctl, s'.ctl)
  {
  }

  lemma {:induction false} BrokenReaderKeepsEnd(s: Conn, s': Conn)
    requires ControlInv(s) && ReaderStep(s, s') && s.reader.Broken?
    ensures ControlInv(s') && Forward(s.ctl, s'.ctl)
  {
    AbortAttempt(s.ctl, s.pipe.protocolClosed, s.writer, s.reader, s.finalizer, Failure, s.reader.cause);
    assert s'.ctl == AbortCtl(s.ctl, Failure, s.reader.cause);
  }

  // ------------------------------------------------ tails, callers, finalizer

  /** One more signal of the winner's tail. */
  lemma {:induction false} SignalMoves(c: Control, closed: bool)
    requires TailInv(c) && OwnerInv(c) && HalfInv(c, closed) && (c.life.termCh ==> c.life.terminal)
    requires c.tails != [] && !AtCloseOnce(c.tails[0]) && !PastCloseOnce(c.tails[0])
    ensures var c' := c.(tails := c.tails[0 := c.tails[0].(phase := c.tails[0].phase + 1)],
        life := Signalled(c.life, c.tails[0]));
            TailInv(c') && OwnerInv(c') && HalfInv(c', closed) && Later(c, c')
  {
  }

  lemma {:induction false} CloseMoves(c: Control, closed: bool)
    requires TailInv(c) && OwnerInv(c) && HalfInv(c, closed) && (c.life.termCh ==> c.life.terminal)
    requires c.tails != [] && !TailDone(c.tails[0]) && (AtCloseOnce(c.tails[0]) || PastCloseOnce(c.tails[0]))
    ensures var c' := AdvanceTail(c, 0);
            TailInv(c') && OwnerInv(c') && HalfInv(c', closed) && Later(c, c')
  {
  }

  lemma {:induction false} SignalForward(l: Life, t: Tail)
    ensures LifeForward(l, Signalled(l, t))
  {
  }

  lemma {:induction false} AdvanceForward(c: Control)
    requires c.tails != []
    ensures Forward(c, AdvanceTail(c, 0))
  {
    SignalForward(c.life, c.tails[0]);
  }

  lemma {:induction false} AdvanceKeepsEnd(c: Control, closed: bool, w: Writer, r: Receiver, f: Finalizer)
    requires EndInv(c, closed, w, r, f) && c.tails != [] && !TailDone(c.tails[0])
    ensures EndInv(AdvanceTail(c, 0), closed, w, r, f)
  {
    if AtCloseOnce(c.tails[0]) || PastCloseOnce(c.tails[0]) {
      CloseMoves(c, closed);
    } else {
      SignalMoves(c, closed);
    }
    LaterKeepsEnd(c, AdvanceTail(c, 0), closed, w, r, f);
  }

  lemma {:induction false} TailKeepsEnd(s: Conn, s': Conn, j: nat)
    requires ControlInv(s) && TailStep(s, s', j)
    ensures ControlInv(s') && Forward(s.ctl, s'.ctl)
  {
    assert j == 0;
    AdvanceForward(s.ctl);
    AdvanceKeepsEnd(s.ctl, s.pipe.protocolClosed, s.writer, s.reader, s.finalizer);
  }

  ghost predicate RequestedBy(c: Control, c': Control, kind: Kind) {
    RequestWins(c.life, GoalOf(kind)) && c' == CountOwner(c.(life := Request(c.life, GoalOf(kind))), kind)
  }

  /** What a caller's step can do to the control state. */
  ghost predicate CallerCtl(c: Control, c': Control) {
    || c' == c
    || (exists reason, cause :: reason != NoAbort && c' == AbortCtl(c, reason, cause))
    || (exists kind :: RequestedBy(c, c', kind))
    || c' == c.(life := c.life.(writeReq := true))
    || c' == c.(life := c.life.(fullReq := true))
  }

  lemma {:induction false} CallerEffect(s: Conn, s': Conn, i: nat)
    requires CallerStep(s, s', i) && (s.callers[i].WantAbort? ==> s.callers[i].reason != NoAbort)
    ensures s' == s.(ctl := s'.ctl, callers := s'.callers, gate := s'.gate) && CallerCtl(s.ctl, s'.ctl)
  {
    if s.callers[i].WantAbort? {
      assert s'.ctl == AbortCtl(s.ctl, s.callers[i].reason, s.callers[i].cause);
    } else if s.callers[i].Asked? && RequestWins(s.ctl.life, GoalOf(s.callers[i].kind)) {
      var kind := s.callers[i].kind;
      assert RequestedBy(s.ctl, s'.ctl, kind);
    }
  }

  lemma {:induction false} CallerCtlKeepsEnd(
      c: Control, c': Control, closed: bool, w: Writer, r: Receiver, f: Finalizer)
    requires EndInv(c, closed, w, r, f) && CallerCtl(c, c')
    ensures EndInv(c', closed, w, r, f) && Forward(c, c')
  {
    if c' != c {
      if reason, cause :| reason != NoAbort && c' == AbortCtl(c, reason, cause) {
        AbortAttempt(c, closed, w, r, f, reason, cause);
      } else if kind :| RequestedBy(c, c', kind) {
        RequestKeepsEnd(c, closed, w, r, f, kind);
      } else {
        RequestSignals(c, closed, w, r, f, c');
      }
    }
  }

  lemma {:induction false} RequestTails(c: Control, closed: bool, kind: Kind)
    requires TailInv(c) && OwnerInv(c) && HalfInv(c, closed) && (c.life.termCh ==> c.life.terminal)
    requires RequestWins(c.life, GoalOf(kind))
    ensures var c' := CountOwner(c.(life := Request(c.life, GoalOf(kind))), kind);
            TailInv(c') && OwnerInv(c') && HalfInv(c', closed) && Later(c, c') && Forward(c, c')
  {
  }

  lemma {:induction false} RequestKeepsEnd(c: Control, closed: bool, w: Writer, r: Receiver, f: Finalizer, kind: Kind)
    requires EndInv(c, closed, w, r, f) && RequestWins(c.life, GoalOf(kind))
    ensures var c' := CountOwner(c.(life := Request(c.life, GoalOf(kind))), kind);
            EndInv(c', closed, w, r, f) && Forward(c, c')
  {
    RequestTails(c, closed, kind);
    LaterKeepsEnd(c, CountOwner(c.(life := Request(c.life, GoalOf(kind))), kind), closed, w, r, f);
  }

  lemma {:induction false} CheckingKeepsEnd(s: Conn, s': Conn)
    requires ControlInv(s) && FinalizerStep(s, s')
    requires s.finalizer.Waiting? || s.finalizer.CheckTerminal? || s.finalizer.CheckClosing?
        || s.finalizer.FinalAborting?
    ensures ControlInv(s') && Forward(s.ctl, s'.ctl)
  {
  }

  lemma {:induction false} FinalAbortKeepsEnd(s: Conn, s': Conn)
    requires ControlInv(s) && FinalizerStep(s, s') && s.finalizer.FinalAbort?
    ensures ControlInv(s') && Forward(s.ctl, s'.ctl)
  {
    AbortAttempt(s.ctl, s.pipe.protocolClosed, s.writer, s.reader, s.finalizer, Failure, None);
    assert s'.ctl == AbortCtl(s.ctl, Failure, None);
  }

  lemma {:induction false} MarkingKeepsEnd(s: Conn, s': Conn)
    requires ControlInv(s) && FinalizerStep(s, s')
    requires s.finalizer.ForceMark? || s.finalizer.MarkRead? || s.finalizer.MarkWritten? || s.finalizer.MarkTerm?
    ensures ControlInv(s') && Forward(s.ctl, s'.ctl)
  {
  }

  lemma {:induction false} ClosingDoneKeepsEnd(s: Conn, s': Conn)
    requires ControlInv(s) && FinalizerStep(s, s') && (s.finalizer.CallingOnClose? || s.finalizer.CloseDone?)
    ensures ControlInv(s') && Forward(s.ctl, s'.ctl)
  {
  }

  lemma {:induction false} ReaderKeepsEnd(s: Conn, s': Conn)
    requires ControlInv(s) && DrainInv(s) && ReaderStep(s, s')
    ensures ControlInv(s') && Forward(s.ctl, s'.ctl)
  {
    match s.reader {
      case Receiving => OtherReaderKeepsEnd(s, s');
      case ReaderAborting(_) => OtherReaderKeepsEnd(s, s');
      case Broken(_) => BrokenReaderKeepsEnd(s, s');
      case _ => MeetingReaderKeepsEnd(s, s');
    }
  }

  lemma {:induction false} CallerKeepsEnd(s: Conn, s': Conn, i: nat)
    requires ControlInv(s) && CallersOk(s) && CallerStep(s, s', i)
    ensures ControlInv(s') && Forward(s.ctl, s'.ctl)
  {
    assert CallerOk(s.ctl, s.pipe.protocolClosed, s.callers[i]);
    CallerEffect(s, s', i);
    CallerCtlKeepsEnd(s.ctl, s'.ctl, s.pipe.protocolClosed, s.writer, s.reader, s.finalizer);
  }

  lemma {:induction false} FinalizerKeepsEnd(s: Conn, s': Conn)
    requires ControlInv(s) && FinalizerStep(s, s')
    ensures ControlInv(s') && Forward(s.ctl, s'.ctl)
  {
    match s.finalizer {
      case FinalAbort => FinalAbortKeepsEnd(s, s');
      case ForceMark => MarkingKeepsEnd(s, s');
      case MarkRead => MarkingKeepsEnd(s, s');
      case MarkWritten => MarkingKeepsEnd(s, s');
      case MarkTerm => MarkingKeepsEnd(s, s');
      case CallingOnClose => ClosingDoneKeepsEnd(s, s');
      case CloseDone => ClosingDoneKeepsEnd(s, s');
      case _ => CheckingKeepsEnd(s, s');
    }
  }

  // ------------------------------------------------------------- answers

  lemma {:induction false} CallersStayOk(s: Conn, s': Conn)
    requires CallersOk(s) && ControlInv(s) && Forward(s.ctl, s'.ctl) && s'.callers == s.callers
    requires s.pipe.protocolClosed ==> s'.pipe.protocolClosed
    ensures CallersOk(s')
  {
    forall k | 0 <= k < |s'.callers|
      ensures CallerOk(s'.ctl, s'.pipe.protocolClosed, s'.callers[k])
    {
      assert CallerOk(s.ctl, s.pipe.protocolClosed, s.callers[k]);
    }
  }

  lemma {:induction false} RequestingCallerOk(s: Conn, s': Conn, i: nat)
    requires CallerStep(s, s', i)
    requires var x := s.callers[i];
             x.Asked? || x.SignalWrite? || x.SignalFull? || x.SealGate? || x.CloseAsked? || x.WantAbort? || x.InAbort?
    ensures i < |s'.callers| && s'.callers == s.callers[i := s'.callers[i]]
    ensures CallerOk(s'.ctl, s'.pipe.protocolClosed, s'.callers[i])
  {
  }

  lemma {:induction false} AwaitingCallerOk(s: Conn, s': Conn, i: nat)
    requires CallerStep(s, s', i) && (s.callers[i].AwaitWrite? || s.callers[i].AwaitDone?)
    ensures i < |s'.callers| && s'.callers == s.callers[i := s'.callers[i]]
    ensures CallerOk(s'.ctl, s'.pipe.protocolClosed, s'.callers[i])
  {
  }

  /** The answer read off an ended half: no abort reason means the half was closed gracefully. */
  lemma {:induction false} AnsweringCallerOk(s: Conn, s': Conn, i: nat)
    requires CallerStep(s, s', i) && CallerOk(s.ctl, s.pipe.protocolClosed, s.callers[i]) && ControlInv(s)
    requires s.callers[i].ReadErr? || s.callers[i].ReadReason?
    ensures i < |s'.callers| && s'.callers == s.callers[i := s'.callers[i]]
    ensures CallerOk(s'.ctl, s'.pipe.protocolClosed, s'.callers[i])
  {
  }

  lemma {:induction false} SteppingCallerOk(s: Conn, s': Conn, i: nat)
    requires CallerStep(s, s', i) && CallerOk(s.ctl, s.pipe.protocolClosed, s.callers[i]) && ControlInv(s)
    ensures i < |s'.callers| && s'.callers == s.callers[i := s'.callers[i]]
    ensures CallerOk(s'.ctl, s'.pipe.protocolClosed, s'.callers[i])
  {
    var x := s.callers[i];
    if x.AwaitWrite? || x.AwaitDone? {
      AwaitingCallerOk(s, s', i);
    } else if x.ReadErr? || x.ReadReason? {
      AnsweringCallerOk(s, s', i);
    } else {
      RequestingCallerOk(s, s', i);
    }
  }

  lemma {:induction false} OneCallerMoves(s: Conn, s': Conn, i: nat)
    requires CallersOk(s) && ControlInv(s) && Forward(s.ctl, s'.ctl) && s'.pipe == s.pipe
    requires i < |s'.callers| == |s.callers| && s'.callers == s.callers[i := s'.callers[i]]
    requires CallerOk(s'.ctl, s'.pipe.protocolClosed, s'.callers[i])
    ensures CallersOk(s')
  {
    CallersStayOk(s, s'.(callers := s.callers));
    forall k | 0 <= k < |s'.callers|
      ensures CallerOk(s'.ctl, s'.pipe.protocolClosed, s'.callers[k])
    {
      if k != i {
        assert CallerOk(s'.ctl, s'.pipe.protocolClosed, s.callers[k]);
      }
    }
  }
}
