/**
 What the calls of a session answer, and when: the safety theorems say what an answer means, these say
 which answer is given.
 */
module SessionAnswers {
  import opened Bytes
  import opened Counting
  import opened Runs
  import opened Lifecycle
  import opened Session
  import opened Pipeline
  import opened Ending
  import opened SessionTheorems

  // ------------------------------------------------- whose step it was

  lemma {:induction false} WriterLeavesSenders(s: Conn, s': Conn)
    requires WriterStep(s, s')
    ensures s'.senders == s.senders
  {
  }

  /** A sender moves by its own steps only. */
  lemma {:induction false} OwnSenderStep(s: Conn, s': Conn, i: nat)
    requires Next(s, s') && i < |s.senders|
    ensures i < |s'.senders| && (s'.senders[i] == s.senders[i] || SenderStep(s, s', i))
  {
    if k: nat :| SenderStep(s, s', k) {
      AnySenderMoves(s, s', k);
    } else if WriterStep(s, s') {
      WriterLeavesSenders(s, s');
    } else if ReaderStep(s, s') {
      ReaderFrame(s, s');
    } else if j: nat :| TailStep(s, s', j) {
      TailFrame(s, s', j);
    } else if k: nat :| CallerStep(s, s', k) {
      CallerFrame(s, s', k);
    } else if FinalizerStep(s, s') {
      FinalizerFrame(s, s');
    }
  }

  lemma {:induction false} CallerMovesAlone(s: Conn, s': Conn, k: nat)
    requires CallerStep(s, s', k)
    ensures |s'.callers| == |s.callers| && s'.callers == s.callers[k := s'.callers[k]]
  {
  }

  lemma {:induction false} OthersLeaveCallers(s: Conn, s': Conn)
    requires || ReaderStep(s, s') || FinalizerStep(s, s') || (exists j :: TailStep(s, s', j))
    ensures s'.callers == s.callers
  {
  }

  /** A caller moves by its own steps only. */
  lemma {:induction false} OwnCallerStep(s: Conn, s': Conn, i: nat)
    requires Next(s, s') && i < |s.callers|
    ensures i < |s'.callers| && (s'.callers[i] == s.callers[i] || CallerStep(s, s', i))
  {
    if k: nat :| SenderStep(s, s', k) {
      SenderLeavesControl(s, s', k);
    } else if WriterStep(s, s') {
      WriterLeavesCallers(s, s');
    } else if k: nat :| CallerStep(s, s', k) {
      CallerMovesAlone(s, s', k);
    } else if !Spawn(s, s') {
      OthersLeaveCallers(s, s');
    }
  }

  // ------------------------------------------------- Send

  lemma {:induction false} TakesAck(s: Conn, s': Conn, i: nat)
    requires SenderStep(s, s', i) && s.senders[i].AwaitAck?
    ensures var t := s.senders[i].ticket;
            s'.pipe.acks == s.pipe.acks || (t < |s.pipe.acks| && s.pipe.acks[t] != [] && s'.senders ==
              s.senders[i := Leaving(if s.pipe.acks[t][0] then Sent(s.senders[i].msg, t) else Refused)])
  {
  }

  /** `Send` answers what its ack says: nil exactly if its frame was written in full. */
  lemma {:induction false} SendAnswersItsAck(s: Conn, s': Conn, i: nat, t: nat, b: bool)
    requires Reached(s) && Next(s, s') && i < |s.senders| && s.senders[i].AwaitAck? && t == s.senders[i].ticket
    requires t < |s.pipe.acks| && s.pipe.acks[t] == [b]
    requires i < |s'.senders| && s'.senders[i] != s.senders[i] && s'.pipe.acks != s.pipe.acks
    ensures s'.senders[i] == Leaving(if b then Sent(s.senders[i].msg, t) else Refused)
    ensures b <==> t < |s.pipe.written|
  {
    OwnSenderStep(s, s', i);
    TakesAck(s, s', i);
    ReachedInv(s);
    AckMeansWritten(s.pipe, s.writer, t);
  }

  lemma {:induction false} AckMeansWritten(p: Pipe, w: Writer, t: nat)
    requires AckInv(p, w) && t < |p.acks| && p.acks[t] != []
    ensures p.acks[t][0] <==> t < |p.written|
  {
  }

  // ------------------------------------------------- TrySend

  /** Every slot there is has a holder: a sender, a queued frame or the writer. */
  ghost predicate SlotsTaken(s: Conn) {
    Sum(Slot, s.senders) + |s.pipe.queue| + WriterSlot(s.writer) == s.cfg.queueCap + 1
  }

  ghost predicate BytesTaken(s: Conn, n: nat) {
    Sum(HeldBytes, s.senders) + Sum(FrameBytes, s.pipe.queue) + WriterBytes(s.writer) + n > s.cfg.byteLimit
  }

  lemma {:induction false} GivesUpEarly(s: Conn, s': Conn, i: nat)
    requires TokenInv(s) && SenderStep(s, s', i) && !s.Closing() && (s.senders[i].Entered? || s.senders[i].SlotHeld?)
    ensures var x, x' := s.senders[i], s'.senders[i];
            && (x.Entered? && !x.job.blocking && !x'.SlotHeld? ==> !s.cfg.valid(x.job.msg) || SlotsTaken(s))
            && (x.SlotHeld? && !x.job.blocking && !x'.EncoderTaken? ==> Sum(Encoder, s.senders) == 1)
  {
  }

  lemma {:induction false} GivesUpLate(s: Conn, s': Conn, i: nat)
    requires TokenInv(s) && SenderStep(s, s', i) && !s.Closing() && (s.senders[i].Encoded? || s.senders[i].Prepared?)
    ensures var x, x' := s.senders[i], s'.senders[i];
            && (x.Encoded? && !x.job.blocking && !x'.LocalQuota? ==> BytesTaken(s, |x.frame|))
            && (x.Prepared? && !x.job.blocking && !x'.Leaving? ==> |s.pipe.queue| == s.cfg.queueCap)
  {
  }

  /** At which waits, and with what missing, a `TrySend` on an open session gives up. */
  lemma {:induction false} TrySendGivesUpOnlyWhenFull(s: Conn, s': Conn, i: nat)
    requires Reached(s) && SenderStep(s, s', i) && !s.Closing()
    ensures i < |s'.senders|
    ensures var x, x' := s.senders[i], s'.senders[i];
            && (x.Entered? && !x.job.blocking && !x'.SlotHeld? ==> !s.cfg.valid(x.job.msg) || SlotsTaken(s))
            && (x.SlotHeld? && !x.job.blocking && !x'.EncoderTaken? ==> Sum(Encoder, s.senders) == 1)
            && (x.Encoded? && !x.job.blocking && !x'.LocalQuota? ==> BytesTaken(s, |x.frame|))
            && (x.Prepared? && !x.job.blocking && !x'.Leaving? ==> |s.pipe.queue| == s.cfg.queueCap)
  {
    ReachedInv(s);
    AnySenderMoves(s, s', i);
    if s.senders[i].Entered? || s.senders[i].SlotHeld? {
      GivesUpEarly(s, s', i);
    } else if s.senders[i].Encoded? || s.senders[i].Prepared? {
      GivesUpLate(s, s', i);
    }
  }

  // ------------------------------------------------- CloseWrite and Shutdown

  lemma {:induction false} Answers(s: Conn, s': Conn, k: nat, kind: Kind)
    requires CallerStep(s, s', k) && (s.callers[k] == ReadErr(kind) || s.callers[k] == ReadReason(kind))
    ensures k < |s'.callers|
    ensures s'.callers[k] ==
            if s.callers[k] == ReadErr(kind) then
              if s.ctl.life.err.Some? then Answered(kind, false) else ReadReason(kind)
            else Answered(kind, s.ctl.life.why == NoAbort)
  {
  }

  /** Past its wait, a call only has its answer to give, and the answer fits the abort that won, if any. */
  ghost predicate AnswerFits(before: Control, now: Control, kind: Kind, x: Caller) {
    || x == ReadErr(kind) || x == ReadReason(kind)
    || (x == Answered(kind, true) && !AbortWon(before)) || (x == Answered(kind, false) && AbortWon(now))
  }

  ghost predicate Answering(before: Control, k: nat, kind: Kind, s: Conn) {
    k < |s.callers| && AnswerFits(before, s.ctl, kind, s.callers[k]) && (AbortWon(before) ==> AbortWon(s.ctl))
  }

  lemma {:induction false} AnswerStep(before: Control, k: nat, kind: Kind, s: Conn, s': Conn)
    requires SessionInv(s) && Next(s, s') && Answering(before, k, kind, s)
    ensures Answering(before, k, kind, s')
  {
    StepKeeps(s, s');
    OwnCallerStep(s, s', k);
    if s'.callers[k] != s.callers[k] && !s.callers[k].Answered? {
      Answers(s, s', k, kind);
    }
  }

  lemma {:induction false} AbortStays(run: seq<Conn>, i: nat, j: nat)
    requires IsRun(Init, Next, run) && i <= j < |run|
    ensures AbortWon(run[i].ctl) ==> AbortWon(run[j].ctl)
    ensures run[i].ctl.done ==> AbortWon(run[j].ctl) == AbortWon(run[i].ctl)
  {
    InvIsInductive();
    InvariantOnRun(Init, Next, SessionInv, run, i);
    InvariantOnRun(Init, Next, SessionInv, run, j);
    RunProgress(run, i, j);
  }

  /**
   A `CloseWrite` or `Shutdown` past its wait is answered nil if no abort has won when it answers, and with
   an error if one had won before.
   */
  lemma {:induction false} AnswerFollowsTheEnd(run: seq<Conn>, i: nat, j: nat, k: nat, kind: Kind)
    requires IsRun(Init, Next, run) && i <= j < |run| && k < |run[i].callers| && run[i].callers[k] == ReadErr(kind)
    ensures k < |run[j].callers| && AnswerFits(run[i].ctl, run[j].ctl, kind, run[j].callers[k])
  {
    var p := (s: Conn) => Answering(run[i].ctl, k, kind, s);
    InvIsInductive();
    forall s, s' | SessionInv(s) && p(s) && Next(s, s')
      ensures p(s')
    {
      AnswerStep(run[i].ctl, k, kind, s, s');
    }
    StaysOnRun(Init, Next, SessionInv, p, run, i, j);
  }

  /** `Shutdown` of a session that is done answers nil exactly if no abort won. */
  lemma {:induction false} ShutdownAnswersNilIff(run: seq<Conn>, i: nat, j: nat, k: nat, ok: bool)
    requires IsRun(Init, Next, run) && i <= j < |run| && k < |run[i].callers|
    requires run[i].callers[k] == ReadErr(ShutdownCall)
    requires k < |run[j].callers| && run[j].callers[k] == Answered(ShutdownCall, ok)
    ensures ok <==> !AbortWon(run[i].ctl)
  {
    AnswerFollowsTheEnd(run, i, j, k, ShutdownCall);
    AbortStays(run, i, j);
    InvIsInductive();
    InvariantOnRun(Init, Next, SessionInv, run, i);
    assert CallerOk(run[i].ctl, run[i].pipe.protocolClosed, run[i].callers[k]);
    WaitIsOver(run[i]);
  }

  lemma {:induction false} WaitIsOver(s: Conn)
    requires SessionInv(s)
    ensures s.ctl.life.abortCh ==> AbortWon(s.ctl)
  {
  }

  /**
   A call that gives up aborts the session exactly if it owns what it waits for: the close of the write
   side while that is open, the shutdown after that.
   */
  lemma {:induction false} GivingUpAbortsIffOwner(s: Conn, s': Conn, k: nat)
    requires CallerStep(s, s', k) && !s.ctl.life.writeCh && !s.ctl.life.abortCh && s.callers[k].AwaitWrite?
    ensures var x := s.callers[k];
            s'.callers[k] == if x.owner && (x.kind == CloseWriteCall || x.ownsWrite) then WantAbort(CallerGone, None)
                             else Answered(x.kind, false)
  {
  }

  lemma {:induction false} GivingUpShutdownAbortsIffOwner(s: Conn, s': Conn, k: nat)
    requires CallerStep(s, s', k) && !s.ctl.done && !s.ctl.life.abortCh && s.callers[k].AwaitDone?
    ensures s'.callers[k] == if s.callers[k].owner then WantAbort(CallerGone, None) else Answered(ShutdownCall, false)
  {
  }

  // ------------------------------------------------- who answers for a requested close

  /** The call that closed the write side for others: it waits, or has given up and is about to abort. */
  predicate WriteOwner(x: Caller) {
    match x
    case SignalWrite(_, ownsWrite) => ownsWrite
    case SignalFull(ownsWrite) => ownsWrite
    case SealGate(_, ownsWrite) => ownsWrite
    case AwaitWrite(_, owner, ownsWrite) => owner && ownsWrite
    case WantAbort(reason, _) => reason == CallerGone
    case _ => false
  }

  /** A close was requested, the write side is not closed, and the session has not ended. */
  predicate Underway(l: Life) { l.goal != GoalRunning && !Ended(l) && !l.writeCh }

  ghost predicate Owned(s: Conn) {
    Underway(s.ctl.life) ==> exists k :: 0 <= k < |s.callers| && WriteOwner(s.callers[k])
  }

  ghost predicate SameGoal(s: Conn, s': Conn) {
    s'.ctl.life.goal == s.ctl.life.goal || Ended(s'.ctl.life)
  }

  lemma {:induction false} MeetingLeavesGoal(s: Conn, s': Conn)
    requires WriterStep(s, s') && Meeting(s.writer)
    ensures SameGoal(s, s')
  {
  }

  lemma {:induction false} WriterLeavesGoal(s: Conn, s': Conn)
    requires DrainInv(s) && WriterStep(s, s')
    ensures SameGoal(s, s')
  {
    if Meeting(s.writer) {
      MeetingLeavesGoal(s, s');
    } else if Busy(s.writer) {
      BusyAside(s, s');
    } else if s.writer.CloseFailed? || s.writer.CloseAborting? {
      FailedCloseAside(s, s');
    } else {
      SelectAside(s, s');
    }
  }

  lemma {:induction false} EndingReaderLeavesGoal(s: Conn, s': Conn)
    requires ReaderStep(s, s') && (s.reader.Broken? || s.reader.TryingFinish?)
    ensures SameGoal(s, s')
  {
  }

  lemma {:induction false} ReaderLeavesGoal(s: Conn, s': Conn)
    requires ReaderStep(s, s')
    ensures SameGoal(s, s')
  {
    if s.reader.Broken? || s.reader.TryingFinish? {
      EndingReaderLeavesGoal(s, s');
    } else {
      assert s'.ctl.life == s.ctl.life.(readCh := s'.ctl.life.readCh);
    }
  }

  lemma {:induction false} TailLeavesGoal(s: Conn, s': Conn, j: nat)
    requires TailStep(s, s', j)
    ensures SameGoal(s, s')
  {
  }

  lemma {:induction false} EndingFinalizerLeavesGoal(s: Conn, s': Conn)
    requires FinalizerStep(s, s') && (s.finalizer.FinalAbort? || s.finalizer.ForceMark?)
    ensures SameGoal(s, s')
  {
  }

  lemma {:induction false} MarkingFinalizerLeavesGoal(s: Conn, s': Conn)
    requires FinalizerStep(s, s') && (s.finalizer.MarkRead? || s.finalizer.MarkWritten? || s.finalizer.MarkTerm?)
    ensures SameGoal(s, s')
  {
  }

  lemma {:induction false} FinalizerLeavesGoal(s: Conn, s': Conn)
    requires FinalizerStep(s, s')
    ensures SameGoal(s, s')
  {
    if s.finalizer.FinalAbort? || s.finalizer.ForceMark? {
      EndingFinalizerLeavesGoal(s, s');
    } else if s.finalizer.MarkRead? || s.finalizer.MarkWritten? || s.finalizer.MarkTerm? {
      MarkingFinalizerLeavesGoal(s, s');
    } else {
      assert s'.ctl.life == s.ctl.life;
    }
  }

  /** The goal of a live session is raised by a caller's step only. */
  lemma {:induction false} GoalRaisedByCallers(s: Conn, s': Conn)
    requires DrainInv(s) && Next(s, s') && !(exists k :: CallerStep(s, s', k))
    ensures SameGoal(s, s')
    ensures |s.callers| <= |s'.callers| && s'.callers[..|s.callers|] == s.callers
  {
    if k: nat :| SenderStep(s, s', k) {
      SenderLeavesControl(s, s', k);
    } else if WriterStep(s, s') {
      WriterLeavesCallers(s, s');
      WriterLeavesGoal(s, s');
    } else if !Spawn(s, s') {
      OthersLeaveCallers(s, s');
      if ReaderStep(s, s') {
        ReaderLeavesGoal(s, s');
      } else if j: nat :| TailStep(s, s', j) {
        TailLeavesGoal(s, s', j);
      } else {
        FinalizerLeavesGoal(s, s');
      }
    }
  }

  /** A caller that owns the close keeps it until the write side is closed or the session has ended. */
  ghost predicate KeepsOwner(s: Conn, s': Conn, k: nat) {
    && k < |s.callers| == |s'.callers|
    && (WriteOwner(s.callers[k]) || s.ctl.life.goal == GoalRunning ==> WriteOwner(s'.callers[k]))
    && (s.ctl.life.goal != GoalRunning ==> Underway(s.ctl.life))
  }

  lemma {:induction false} AskingKeepsOwner(s: Conn, s': Conn, k: nat)
    requires CallerStep(s, s', k) && Underway(s'.ctl.life) && (s.callers[k].Asked? || s.callers[k].WantAbort?)
    ensures KeepsOwner(s, s', k)
  {
  }

  lemma {:induction false} WaitingKeepsOwner(s: Conn, s': Conn, k: nat)
    requires CallerStep(s, s', k) && Underway(s'.ctl.life) && (s.ctl.life.abortCh ==> Ended(s.ctl.life))
    requires s.callers[k].AwaitWrite? || s.callers[k].AwaitDone?
    ensures KeepsOwner(s, s', k)
  {
  }

  lemma {:induction false} OtherKeepsOwner(s: Conn, s': Conn, k: nat)
    requires CallerStep(s, s', k) && Underway(s'.ctl.life)
    requires !s.callers[k].Asked? && !s.callers[k].WantAbort? && !s.callers[k].AwaitWrite? && !s.callers[k].AwaitDone?
    ensures KeepsOwner(s, s', k)
  {
  }

  lemma {:induction false} OwnerMoves(s: Conn, s': Conn, k: nat)
    requires CallerStep(s, s', k) && Underway(s'.ctl.life) && (s.ctl.life.abortCh ==> Ended(s.ctl.life))
    ensures KeepsOwner(s, s', k)
  {
    if s.callers[k].Asked? || s.callers[k].WantAbort? {
      AskingKeepsOwner(s, s', k);
    } else if s.callers[k].AwaitWrite? || s.callers[k].AwaitDone? {
      WaitingKeepsOwner(s, s', k);
    } else {
      OtherKeepsOwner(s, s', k);
    }
  }

  lemma {:induction false} OwnedStep(s: Conn, s': Conn)
    requires SessionInv(s) && Owned(s) && Next(s, s')
    ensures Owned(s')
  {
    if Underway(s'.ctl.life) {
      StepKeeps(s, s');
      if k: nat :| CallerStep(s, s', k) {
        CallerMovesAlone(s, s', k);
        WaitIsOver(s);
        OwnerMoves(s, s', k);
        if s.ctl.life.goal != GoalRunning {
          var j :| 0 <= j < |s.callers| && WriteOwner(s.callers[j]);
          assert WriteOwner(s'.callers[j]);
        }
      } else {
        GoalRaisedByCallers(s, s');
        var j :| 0 <= j < |s.callers| && WriteOwner(s.callers[j]);
        assert s'.callers[j] == s'.callers[..|s.callers|][j];
      }
    }
  }

  /**
   A requested close is never orphaned: until the write side is closed or the session has ended, the call
   that requested it first still waits for it, or has given up and is about to abort.
   */
  lemma {:induction false} RequestIsNeverOrphaned(s: Conn)
    requires Reached(s) && s.ctl.life.goal != GoalRunning && !Ended(s.ctl.life) && !s.ctl.life.writeCh
    ensures exists k :: 0 <= k < |s.callers| && WriteOwner(s.callers[k])
  {
    InvIsInductive();
    forall a, b | (SessionInv(a) && Owned(a)) && Next(a, b)
      ensures SessionInv(b) && Owned(b)
    {
      StepKeeps(a, b);
      OwnedStep(a, b);
    }
    Invariant(Init, Next, (x: Conn) => SessionInv(x) && Owned(x), s);
  }

  // ------------------------------------------------- nothing gets past a sealed gate

  /** The owner of a request has sealed the gate before it waits, and so has whoever closes the session. */
  predicate SealedBy(x: Caller) { (x.AwaitWrite? && x.owner) || (x.AwaitDone? && x.owner) }

  ghost predicate Sealed(s: Conn) {
    && (s.ctl.closeOnce || s.ctl.closings > 0 ==> s.gate.closed)
    && forall k :: 0 <= k < |s.callers| && SealedBy(s.callers[k]) ==> s.gate.closed
  }

  lemma {:induction false} SenderLeavesGateShut(s: Conn, s': Conn, i: nat)
    requires SenderStep(s, s', i)
    ensures s.gate.closed ==> s'.gate.closed
  {
    AnySenderMoves(s, s', i);
  }

  lemma {:induction false} CallerLeavesClose(s: Conn, s': Conn, k: nat)
    requires CallerStep(s, s', k)
    ensures s'.ctl.closeOnce == s.ctl.closeOnce && s'.ctl.closings == s.ctl.closings
    ensures s'.gate == s.gate || s'.gate.closed
  {
  }

  lemma {:induction false} CallerSeals(s: Conn, s': Conn, k: nat)
    requires CallerStep(s, s', k) && (SealedBy(s.callers[k]) ==> s.gate.closed)
    ensures SealedBy(s'.callers[k]) ==> s'.gate.closed
  {
  }

  ghost predicate SameClose(s: Conn, s': Conn) {
    s'.ctl.closeOnce == s.ctl.closeOnce && s'.ctl.closings == s.ctl.closings && s'.gate == s.gate
  }

  lemma {:induction false} WriterLeavesClose(s: Conn, s': Conn)
    requires WriterStep(s, s')
    ensures SameClose(s, s')
  {
  }

  lemma {:induction false} ReaderLeavesClose(s: Conn, s': Conn)
    requires ReaderStep(s, s')
    ensures SameClose(s, s')
  {
  }

  lemma {:induction false} FinalizerLeavesClose(s: Conn, s': Conn)
    requires FinalizerStep(s, s')
    ensures SameClose(s, s')
  {
  }

  lemma {:induction false} TailSeals(s: Conn, s': Conn, j: nat)
    requires TailStep(s, s', j) && SessionInv(s) && Sealed(s)
    ensures (s.gate.closed ==> s'.gate.closed) && (s'.ctl.closeOnce || s'.ctl.closings > 0 ==> s'.gate.closed)
    ensures s'.callers == s.callers
  {
    assert j == 0;
  }

  lemma {:induction false} SealedStep(s: Conn, s': Conn)
    requires SessionInv(s) && Sealed(s) && Next(s, s')
    ensures Sealed(s')
  {
    if i: nat :| SenderStep(s, s', i) {
      SenderLeavesControl(s, s', i);
      SenderLeavesGateShut(s, s', i);
    } else if k: nat :| CallerStep(s, s', k) {
      CallerMovesAlone(s, s', k);
      CallerLeavesClose(s, s', k);
      CallerSeals(s, s', k);
    } else if j: nat :| TailStep(s, s', j) {
      TailSeals(s, s', j);
    } else if !Spawn(s, s') {
      if WriterStep(s, s') {
        WriterLeavesClose(s, s');
        WriterLeavesCallers(s, s');
      } else {
        OthersLeaveCallers(s, s');
        if ReaderStep(s, s') {
          ReaderLeavesClose(s, s');
        } else {
          FinalizerLeavesClose(s, s');
        }
      }
    }
  }

  /** Once the owner of a close waits, or the session is being closed, every new call of `Send` is refused. */
  lemma {:induction false} SealedGateRefuses(s: Conn, s': Conn, i: nat)
    requires Reached(s) && SenderStep(s, s', i) && s.senders[i].Calling?
    requires s.Closing() || exists k :: 0 <= k < |s.callers| && SealedBy(s.callers[k])
    ensures s'.senders[i] == Returned(Refused) && s'.pipe == s.pipe
  {
    InvIsInductive();
    forall a, b | (SessionInv(a) && Sealed(a)) && Next(a, b)
      ensures SessionInv(b) && Sealed(b)
    {
      StepKeeps(a, b);
      SealedStep(a, b);
    }
    Invariant(Init, Next, (x: Conn) => SessionInv(x) && Sealed(x), s);
    assert s.gate.closed;
  }
}
