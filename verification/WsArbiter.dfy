/**
 Who reports a WebSocket read failure: reader or writer.

 While a write is in flight the connection may fail on the read side as a consequence of the write, so
 the reader leaves its failure with the write state and exits, and the writer decides when the write
 returns. The theorems say that such a failure is never lost and never reported twice.
 */
module WsArbiter {
  import opened Bytes
  import opened Lifecycle
  import opened Runs

  /** `normalClose`: a normal closure; `benign`: normalizes to no error; `idle`: a read-idle timeout. */
  datatype ReadError = ReadError(id: nat, normalClose: bool, benign: bool, idle: bool)

  datatype WriteState = WriteState(inFlight: bool, pending: Maybe<ReadError>)

  function Begin(w: WriteState): WriteState { WriteState(true, None) }

  function End(w: WriteState): WriteState { WriteState(false, None) }

  /** The first failure is kept; without a write in flight it is refused. */
  function DeferRead(w: WriteState, e: ReadError): WriteState {
    if w.inFlight && w.pending.None? then w.(pending := Some(e)) else w
  }

  class WsWriteState {
    var inFlight: bool
    var pendingReadObserved: bool
    var pendingReadErr: ReadError

    ghost function State(): WriteState
      reads this
    {
      WriteState(inFlight, if pendingReadObserved then Some(pendingReadErr) else None)
    }

    constructor ()
      ensures State() == WriteState(false, None)
    {
      inFlight, pendingReadObserved := false, false;
      pendingReadErr := ReadError(0, false, true, false);
    }

    method BeginWrite()
      modifies this
      ensures State() == Begin(old(State()))
    {
      inFlight, pendingReadObserved := true, false;
    }

    method PendingRead() returns (pending: Maybe<ReadError>)
      ensures pending == State().pending
    {
      pending := if pendingReadObserved then Some(pendingReadErr) else None;
    }

    method EndWrite() returns (pending: Maybe<ReadError>)
      modifies this
      ensures pending == old(State()).pending
      ensures State() == End(old(State()))
    {
      pending := if pendingReadObserved then Some(pendingReadErr) else None;
      inFlight, pendingReadObserved := false, false;
    }

    method DeferReadFailure(e: ReadError) returns (deferred: bool)
      modifies this
      ensures deferred == old(inFlight) && inFlight == old(inFlight)
      ensures State().pending == if old(inFlight) && old(State()).pending.None? then Some(e) else old(State()).pending
      ensures State() == DeferRead(old(State()), e)
    {
      if !inFlight {
        return false;
      }
      if !pendingReadObserved {
        pendingReadObserved := true;
        pendingReadErr := e;
      }
      deferred := true;
    }
  }

  // --------------------------------------------------------- the machine

  datatype Blame =
    | NoBlame | ReadFailed(error: ReadError) | IdleTimedOut | WriteTimedOut | WriteFailed
    | CloseFailed | Undecodable | Outside

  /** The cause a read failure is reported with. */
  function BlameRead(e: ReadError): Blame { if e.benign then NoBlame else ReadFailed(e) }

  datatype Writer =
    | Looping
    | Writing
    | Returned(ok: bool, timedOut: bool)
    | Settled(taken: Maybe<ReadError>)
    | Aborting(blame: Blame, endAfter: bool)
    | Ending
    | ClosingHandshake
    | Finishing
    | WriterGone
  {
    /** Between `begin` and the return of that `handleOutbound`. */
    predicate InRound() { Writing? || Returned? || Settled? || Aborting? || Ending? }
  }

  datatype Exit = SawClosing | LeftToWriter | Deferred | Aborted

  datatype Reader =
    | Reading
    | Failed(error: ReadError)
    | SawFull(error: ReadError)
    | SawNoAbort(error: ReadError)
    | CheckingTimeouts(error: ReadError)
    | Deferring(error: ReadError)
    | ReaderAborting(blame: Blame)
    | ReaderGone(how: Exit)

  /**
   `cause` is what the winning abort recorded. History: `deferred`, the failure `deferRead` accepted;
   `returned`, how often `end` handed one back; `observed`, the failure `Read` returned.
   */
  datatype Session = Session(
    life: Life, closing: bool, drained: bool, write: WriteState, writer: Writer, reader: Reader,
    cause: Maybe<Blame>, deferred: Maybe<ReadError>, returned: nat, observed: Maybe<ReadError>)
  {
    /** Only the winning abort records a cause. */
    function Abort(reason: Reason, blame: Blame): Session {
      if Ended(life) then this else this.(life := Lifecycle.Abort(life, reason, None), cause := Some(blame))
    }
  }

  ghost predicate Init(s: Session) {
    s == Session(Lifecycle.NEW, false, false, WriteState(false, None), Looping, Reading, None, None, 0, None)
  }

  ghost predicate WriterStep(s: Session, s': Session) {
    match s.writer
    case Looping =>
      || s' == s.(write := Begin(s.write), writer := Writing)
      || (s.closing && s' == s.(writer := WriterGone))
      || (s.life.fullReq && s' == s.(drained := true, writer := ClosingHandshake))
    case Writing => exists ok, timedOut :: s' == s.(writer := Returned(ok, timedOut))
    case Returned(ok, timedOut) =>
      if ok then
        s' == s.(write := End(s.write), writer := Settled(s.write.pending),
            returned := s.returned + (if s.write.pending.Some? then 1 else 0))
      else
        var blame := if timedOut then WriteTimedOut
            else if s.write.pending.Some? then BlameRead(s.write.pending.value) else WriteFailed;
        s' == s.(writer := Aborting(blame, true))
    case Settled(taken) =>
      s' == s.(writer := if taken.Some? then Aborting(BlameRead(taken.value), false) else Looping)
    case Aborting(blame, endAfter) =>
      s' == s.Abort(Failure, blame).(writer := if endAfter then Ending else WriterGone)
    case Ending => s' == s.(write := End(s.write), writer := WriterGone)
    case ClosingHandshake => s' == s.(writer := Finishing) || s' == s.(writer := Aborting(CloseFailed, false))
    case Finishing =>
      s' == s.(life := TryTerminal(s.life).(readCh := true, writeCh := true), writer := WriterGone)
    case WriterGone => s' == s.(drained := true)
  }

  ghost predicate ReaderStep(s: Session, s': Session) {
    match s.reader
    case Reading =>
      || (s.closing && s' == s.(reader := ReaderGone(SawClosing)))
      || s' == s.(reader := ReaderAborting(Undecodable))
      || exists e :: s' == s.(reader := Failed(e), observed := Some(e))
    case Failed(e) => s' == s.(reader := if s.life.fullReq then SawFull(e) else CheckingTimeouts(e))
    case SawFull(e) => s' == s.(reader := if s.life.abortCh then CheckingTimeouts(e) else SawNoAbort(e))
    case SawNoAbort(e) =>
      if e.normalClose || s.drained then s' == s.(life := s.life.(readCh := true), reader := ReaderGone(LeftToWriter))
      else s' == s.(reader := CheckingTimeouts(e))
    case CheckingTimeouts(e) =>
      if e.idle && !s.closing then s' == s.(reader := ReaderAborting(IdleTimedOut))
      else s' == s.(reader := Deferring(e)) || (s.write.inFlight && s' == s.(reader := ReaderAborting(WriteTimedOut)))
    case Deferring(e) =>
      if s.write.inFlight then
        s' == s.(write := DeferRead(s.write, e), deferred := Some(e), reader := ReaderGone(Deferred))
      else s' == s.(reader := ReaderAborting(BlameRead(e)))
    case ReaderAborting(blame) => s' == s.Abort(Failure, blame).(reader := ReaderGone(Aborted))
    case ReaderGone(_) => false
  }

  /** Callers request or abort; signals follow the lifecycle in their order. */
  ghost predicate OutsideStep(s: Session, s': Session) {
    || s' == s.(life := Request(s.life, GoalFull))
    || (exists reason :: reason != NoAbort && s' == s.Abort(reason, Outside))
    || (Rank(s.life.goal) >= Rank(GoalFull) && s' == s.(life := s.life.(writeReq := true, fullReq := true)))
    || (s.life.goal == GoalAbort && s.life.fullReq && s' == s.(life := s.life.(abortCh := true)))
    || (s.life.goal == GoalAbort && s.life.abortCh && s' == s.(life := s.life.(readCh := true, writeCh := true)))
    || (Ended(s.life) && s' == s.(closing := true))
  }

  ghost predicate Next(s: Session, s': Session) {
    WriterStep(s, s') || ReaderStep(s, s') || OutsideStep(s, s')
  }

  // --------------------------------------------------------- the invariant

  predicate BetweenBeginAndEnd(w: Writer) {
    w.Writing? || w.Returned? || w.Ending? || (w.Aborting? && w.endAfter)
  }

  /** The write state is in flight exactly while the writer is between `begin` and `end`. */
  predicate FlightInv(s: Session) {
    && (s.write.inFlight <==> BetweenBeginAndEnd(s.writer))
    && (!s.write.inFlight ==> s.write.pending.None?)
    && (s.writer.Ending? || s.writer.WriterGone? ==> Ended(s.life))
    && (s.closing ==> Ended(s.life))
    && (s.life.fullReq ==> Rank(s.life.goal) >= Rank(GoalFull))
    && (s.writer.ClosingHandshake? || s.writer.Finishing? ==> s.life.fullReq)
  }

  /** Where an accepted failure is: still pending, handed back once, or overtaken by the failed write's abort. */
  predicate HandoverInv(s: Session) {
    match s.deferred
    case None => s.write.pending.None? && s.returned == 0
    case Some(e) =>
      || (s.write.pending == Some(e) && s.returned == 0)
      || (s.write.pending.None? && s.returned == 1
          && (s.writer == Settled(Some(e)) || s.writer == Aborting(BlameRead(e), false)
              || (s.writer.WriterGone? && Ended(s.life))))
      || (s.write.pending.None? && s.returned == 0 && s.writer.WriterGone? && Ended(s.life))
  }

  /** What a recorded cause says about the failure the reader observed. */
  predicate BlameOk(b: Blame, observed: Maybe<ReadError>) {
    match b
    case NoBlame => observed.Some? && observed.value.benign
    case ReadFailed(e) => observed == Some(e) && !e.benign
    case IdleTimedOut => observed.Some? && observed.value.idle
    case Undecodable => observed.None?
    case _ => true
  }

  predicate WriterOk(s: Session) {
    match s.writer
    case Settled(taken) => taken == (if s.returned == 1 then s.deferred else None)
    case Aborting(blame, _) => BlameOk(blame, s.observed) && blame != Undecodable
    case Looping => s.deferred.None?
    case ClosingHandshake => s.deferred.None?
    case Finishing => s.deferred.None?
    case _ => true
  }

  predicate ReaderOk(s: Session) {
    match s.reader
    case Reading => s.observed.None?
    case Failed(e) => s.observed == Some(e)
    case SawFull(e) => s.observed == Some(e) && s.life.fullReq
    case SawNoAbort(e) => s.observed == Some(e) && s.life.fullReq
    case CheckingTimeouts(e) => s.observed == Some(e)
    case Deferring(e) => s.observed == Some(e)
    case ReaderAborting(b) => BlameOk(b, s.observed)
    case ReaderGone(how) =>
      match how
      case SawClosing => Ended(s.life)
      case LeftToWriter =>
        s.life.fullReq && s.life.readCh && s.observed.Some? && (s.observed.value.normalClose || s.drained)
      case Deferred => s.deferred.Some?
      case Aborted => Ended(s.life)
  }

  predicate HistoryInv(s: Session) {
    && (s.deferred.Some? ==> s.deferred == s.observed && s.reader == ReaderGone(Deferred))
    && (s.cause.Some? ==> BlameOk(s.cause.value, s.observed))
    && (s.cause == Some(Undecodable) ==> s.reader.ReaderGone?)
    && (s.cause.Some? <==> s.life.goal == GoalAbort)
  }

  predicate Inv(s: Session) {
    FlightInv(s) && HandoverInv(s) && WriterOk(s) && ReaderOk(s) && HistoryInv(s)
  }

  lemma {:induction false} RoundKeeps(s: Session, s': Session)
    requires Inv(s) && WriterStep(s, s') && (s.writer.Writing? || s.writer.Settled?)
    ensures Inv(s')
  {
  }

  lemma {:induction false} ReturnKeeps(s: Session, s': Session)
    requires Inv(s) && WriterStep(s, s') && (s.writer.Returned?)
    ensures Inv(s')
  {
  }

  lemma {:induction false} WriterAbortKeeps(s: Session, s': Session)
    requires Inv(s) && WriterStep(s, s') && (s.writer.Aborting? || s.writer.Ending?)
    ensures Inv(s')
  {
  }

  lemma {:induction false} LoopKeeps(s: Session, s': Session)
    requires Inv(s) && WriterStep(s, s') && (s.writer.Looping? || s.writer.WriterGone?)
    ensures Inv(s')
  {
  }

  lemma {:induction false} FinishKeeps(s: Session, s': Session)
    requires Inv(s) && WriterStep(s, s') && (s.writer.ClosingHandshake? || s.writer.Finishing?)
    ensures Inv(s')
  {
  }

  lemma {:induction false} ReadFailureKeeps(s: Session, s': Session)
    requires Inv(s) && ReaderStep(s, s') && (s.reader.Reading? || s.reader.Failed? || s.reader.SawFull?)
    ensures Inv(s')
  {
  }

  lemma {:induction false} LeaveKeeps(s: Session, s': Session)
    requires Inv(s) && ReaderStep(s, s') && (s.reader.SawNoAbort? || s.reader.CheckingTimeouts?)
    ensures Inv(s')
  {
  }

  lemma {:induction false} DeferKeeps(s: Session, s': Session)
    requires Inv(s) && ReaderStep(s, s') && (s.reader.Deferring? || s.reader.ReaderAborting?)
    ensures Inv(s')
  {
  }

  /** Only the life or the closing flag changes, and only forward. */
  ghost predicate SignalsOnly(s: Session, s': Session) {
    && s' == s.(life := s'.life, closing := s'.closing)
    && (s.life.fullReq ==> s'.life.fullReq) && (s.life.readCh ==> s'.life.readCh)
    && Rank(s.life.goal) <= Rank(s'.life.goal) && (s.life.terminal <==> s'.life.terminal)
    && (s'.life.goal == GoalAbort <==> s.life.goal == GoalAbort) && (s'.closing ==> s.closing || Ended(s.life))
    && (s'.life.fullReq ==> Rank(s'.life.goal) >= Rank(GoalFull))
  }

  lemma {:induction false} SignalsKeep(s: Session, s': Session)
    requires Inv(s) && SignalsOnly(s, s')
    ensures Inv(s')
  {
  }

  lemma {:induction false} AbortKeeps(s: Session, reason: Reason)
    requires Inv(s)
    ensures Inv(s.Abort(reason, Outside))
  {
  }

  lemma {:induction false} OutsideKeeps(s: Session, s': Session)
    requires Inv(s) && OutsideStep(s, s')
    ensures Inv(s')
  {
    if reason :| reason != NoAbort && s' == s.Abort(reason, Outside) {
      AbortKeeps(s, reason);
    } else {
      OutsideSignals(s, s');
      SignalsKeep(s, s');
    }
  }

  lemma {:induction false} OutsideSignals(s: Session, s': Session)
    requires OutsideStep(s, s') && (s.life.fullReq ==> Rank(s.life.goal) >= Rank(GoalFull))
    requires !(exists reason :: reason != NoAbort && s' == s.Abort(reason, Outside))
    ensures SignalsOnly(s, s')
  {
  }

  lemma {:induction false} InvIsInductive()
    ensures Inductive(Init, Next, Inv)
  {
    forall s, s' | Inv(s) && Next(s, s')
      ensures Inv(s')
    {
      if OutsideStep(s, s') {
        OutsideKeeps(s, s');
      } else if WriterStep(s, s') {
        WriterKeeps(s, s');
      } else {
        ReaderKeeps(s, s');
      }
    }
  }

  lemma {:induction false} WriterKeeps(s: Session, s': Session)
    requires Inv(s) && WriterStep(s, s')
    ensures Inv(s')
  {
    match s.writer {
      case Looping => LoopKeeps(s, s');
      case Writing => RoundKeeps(s, s');
      case Returned(_, _) => ReturnKeeps(s, s');
      case Settled(_) => RoundKeeps(s, s');
      case Aborting(_, _) => WriterAbortKeeps(s, s');
      case Ending => WriterAbortKeeps(s, s');
      case ClosingHandshake => FinishKeeps(s, s');
      case Finishing => FinishKeeps(s, s');
      case WriterGone => LoopKeeps(s, s');
    }
  }

  lemma {:induction false} ReaderKeeps(s: Session, s': Session)
    requires Inv(s) && ReaderStep(s, s')
    ensures Inv(s')
  {
    match s.reader {
      case Reading => ReadFailureKeeps(s, s');
      case Failed(_) => ReadFailureKeeps(s, s');
      case SawFull(_) => ReadFailureKeeps(s, s');
      case SawNoAbort(_) => LeaveKeeps(s, s');
      case CheckingTimeouts(_) => LeaveKeeps(s, s');
      case Deferring(_) => DeferKeeps(s, s');
      case ReaderAborting(_) => DeferKeeps(s, s');
    }
  }

  lemma {:induction false} Reached(s: Session)
    requires Reachable(Init, Next, s)
    ensures Inv(s)
  {
    InvIsInductive();
    Invariant(Init, Next, Inv, s);
  }

  // --------------------------------------------------------- theorems

  /** Once the `handleOutbound` a failure was left with has returned, the session has ended and the writer is gone. */
  lemma {:induction false} DeferredFailureEndsSession(s: Session)
    requires Reachable(Init, Next, s) && s.deferred.Some? && !s.writer.InRound()
    ensures s.writer.WriterGone? && Ended(s.life)
  {
    Reached(s);
  }

  /** How many steps the writer's round still has. */
  function Remaining(w: Writer): nat {
    match w
    case Writing => 5
    case Returned(_, _) => 4
    case Settled(_) => 3
    case Aborting(_, _) => 2
    case Ending => 1
    case _ => 0
  }

  /** How often the writer moves between two points of a run. */
  ghost function Moves(run: seq<Session>, i: nat, j: nat): nat
    requires i <= j < |run|
  {
    Count((s: Session, s': Session) => s'.writer != s.writer, run, i, j)
  }

  lemma {:induction false} SomeWriterStep(s: Session)
    ensures exists s' :: WriterStep(s, s')
  {
    var s' :=
      match s.writer
      case Looping => s.(write := Begin(s.write), writer := Writing)
      case Writing => s.(writer := Returned(true, false))
      case Returned(ok, timedOut) =>
        if ok then
          s.(write := End(s.write), writer := Settled(s.write.pending),
              returned := s.returned + (if s.write.pending.Some? then 1 else 0))
        else
          s.(writer := Aborting(if timedOut then WriteTimedOut
              else if s.write.pending.Some? then BlameRead(s.write.pending.value) else WriteFailed, true))
      case Settled(taken) => s.(writer := if taken.Some? then Aborting(BlameRead(taken.value), false) else Looping)
      case Aborting(blame, endAfter) => s.Abort(Failure, blame).(writer := if endAfter then Ending else WriterGone)
      case Ending => s.(write := End(s.write), writer := WriterGone)
      case ClosingHandshake => s.(writer := Finishing)
      case Finishing => s.(life := TryTerminal(s.life).(readCh := true, writeCh := true), writer := WriterGone)
      case WriterGone => s.(drained := true);
    assert WriterStep(s, s');
  }

  /** `begin` finds no failure to discard. */
  lemma {:induction false} BeginDiscardsNothing(s: Session)
    requires Reachable(Init, Next, s) && s.writer.Looping?
    ensures s.write == WriteState(false, None)
  {
    Reached(s);
  }

  /**
   After a successful write, `end` returns exactly the failure that was deferred, and no failure is ever
   returned twice.
   */
  lemma {:induction false} EndReturnsTheFailure(s: Session, s': Session)
    requires Reachable(Init, Next, s) && s.writer.Returned? && s.writer.ok && WriterStep(s, s')
    ensures s.returned == 0 && s'.writer == Settled(s.deferred)
    ensures s'.returned == if s.deferred.Some? then 1 else 0
  {
    Reached(s);
  }

  lemma {:induction false} ReturnedAtMostOnce(s: Session)
    requires Reachable(Init, Next, s)
    ensures s.returned <= 1 && (s.returned == 1 ==> s.deferred.Some?)
  {
    Reached(s);
  }

  /**
   A session without a reader has ended, or its writer holds the reader's failure and is about to report
   it, or it is shutting down and the writer still has the close to finish.
   */
  lemma {:induction false} NoReaderMeansEnding(s: Session)
    requires Reachable(Init, Next, s) && s.reader.ReaderGone?
    ensures || Ended(s.life)
            || (s.reader.how == Deferred && s.writer.InRound())
            || (s.reader.how == LeftToWriter && s.life.fullReq && s.life.readCh && !s.writer.WriterGone?)
  {
    Reached(s);
  }

  /** A session whose writer is gone has ended. */
  lemma {:induction false} NoWriterMeansEnded(s: Session)
    requires Reachable(Init, Next, s) && s.writer.WriterGone?
    ensures Ended(s.life)
  {
    Reached(s);
  }

  /** A read failure recorded as the cause is the one the reader observed, whichever side recorded it. */
  lemma {:induction false} ReadCauseIsGenuine(s: Session)
    requires Reachable(Init, Next, s) && s.cause.Some?
    ensures s.cause.value.ReadFailed? ==> s.observed == Some(s.cause.value.error) && !s.cause.value.error.benign
    ensures s.cause.value.NoBlame? ==> s.observed.Some? && s.observed.value.benign
    ensures s.cause.value.IdleTimedOut? ==> s.observed.Some? && s.observed.value.idle
    ensures s.cause.value.Undecodable? ==> s.observed.None?
  {
    Reached(s);
  }

  // ------------------------------------------- when the writer's abort comes later

  lemma {:induction false} AfterDeferral(s: Session, s': Session)
    requires Next(s, s') && s.deferred.Some?
    ensures s'.deferred.Some?
    ensures s'.writer == s.writer || WriterStep(s, s')
  {
  }

  /** The writer is past its abort in a round with a deferral, or gone. */
  predicate Past(s: Session) { s.deferred.Some? && (s.writer.Ending? || s.writer.WriterGone?) }

  lemma {:induction false} PastStays(s: Session, s': Session)
    requires Next(s, s') && Past(s)
    ensures Past(s')
  {
    AfterDeferral(s, s');
  }

  /** The writer has a deferral in its round and is not yet past its abort. */
  predicate Before(s: Session) {
    s.deferred.Some? && (s.writer.Writing? || s.writer.Returned? || s.writer.Settled? || s.writer.Aborting?)
  }

  lemma {:induction false} BeforeAborts(s: Session, s': Session)
    requires Inv(s) && Next(s, s') && Before(s)
    ensures Before(s') || s.writer.Aborting?
  {
    AfterDeferral(s, s');
  }

  /**
   A deferral is followed by the writer's call of `abort` in that round exactly when the writer was not
   already past it, between `abort` and `end` of a failed write.
   */
  lemma {:induction false} AbortFollowsUnlessPast(run: seq<Session>, i: nat, j: nat)
    requires IsRun(Init, Next, run) && i <= j < |run|
    requires run[i].deferred.Some? && run[i].writer.InRound() && run[j].writer.WriterGone?
    ensures !run[i].writer.Ending? <==> exists k :: i <= k < j && run[k].writer.Aborting?
  {
    InvIsInductive();
    if run[i].writer.Ending? {
      forall k | i <= k < j
        ensures Past(run[k])
      {
        StaysPast(run, i, k);
      }
    } else {
      forall s, s' | Inv(s) && Before(s) && Next(s, s')
        ensures Before(s') || s.writer.Aborting?
      {
        BeforeAborts(s, s');
      }
      var k := LeavesOnRun(Init, Next, Inv, Before, (s: Session, s': Session) => s.writer.Aborting?, run, i, j);
    }
  }

  lemma {:induction false} StaysPast(run: seq<Session>, i: nat, j: nat)
    requires IsRun(Init, Next, run) && i <= j < |run| && Past(run[i])
    ensures Past(run[j])
  {
    InvIsInductive();
    forall s, s' | Inv(s) && Past(s) && Next(s, s')
      ensures Past(s')
    {
      PastStays(s, s');
    }
    StaysOnRun(Init, Next, Inv, Past, run, i, j);
  }

  /** A failure is with the writer's round, or the round is over for good. */
  predicate InHand(s: Session) {
    s.deferred.Some? && (s.writer.InRound() || (s.writer.WriterGone? && Ended(s.life)))
  }

  /** One step while a failure is with the writer: the round gets shorter, or is over for good. */
  lemma {:induction false} RoundShrinks(s: Session, s': Session)
    requires Inv(s) && Next(s, s') && InHand(s)
    ensures InHand(s')
    ensures s'.writer == s.writer || Remaining(s'.writer) < Remaining(s.writer)
  {
    AfterDeferral(s, s');
  }

  /**
   And it does return: along any run, the writer moves at most five times in that round, the session has
   ended and the writer is gone when the moves are used up, and until then a further move is possible.
   */
  lemma {:induction false} DeferredRoundCompletes(run: seq<Session>, i: nat, j: nat)
    requires IsRun(Init, Next, run) && i <= j < |run| && run[i].deferred.Some? && run[i].writer.InRound()
    ensures Moves(run, i, j) + Remaining(run[j].writer) <= Remaining(run[i].writer) <= 5
    ensures Moves(run, i, j) >= Remaining(run[i].writer) ==> run[j].writer.WriterGone? && Ended(run[j].life)
    ensures run[j].writer.InRound() || (run[j].writer.WriterGone? && Ended(run[j].life))
    ensures run[j].writer.InRound() ==> exists s' :: WriterStep(run[j], s') && s'.writer != run[j].writer
  {
    InvIsInductive();
    var moved := (s: Session, s': Session) => s'.writer != s.writer;
    var rank := (s: Session) => Remaining(s.writer);
    forall s, s' | Inv(s) && InHand(s) && Next(s, s')
      ensures InHand(s') && rank(s') + (if moved(s, s') then 1 else 0) <= rank(s)
    {
      RoundShrinks(s, s');
    }
    RankOnRun(Init, Next, Inv, InHand, moved, rank, run, i, j);
    SomeWriterStep(run[j]);
  }

  // ------------------------------------------- what is reported

  /** A failure is reported as itself, or as no error if it normalizes to none. */
  function Report(e: ReadError): Blame { if e.benign then NoBlame else ReadFailed(e) }

  /** The step reports `e`: if it wins the abort, `e` is what it records. */
  ghost predicate Reports(s: Session, s': Session, e: ReadError) {
    Ended(s'.life) && s'.cause == if Ended(s.life) then s.cause else Some(Report(e))
  }

  /** The writer has the deferred failure, its write has returned, and it did not time out. */
  predicate WriterCarries(s: Session, e: ReadError, ok: bool) {
    && s.deferred == Some(e)
    && (|| (s.writer.Returned? && s.writer.ok == ok && (ok || !s.writer.timedOut) && s.write.pending == Some(e))
        || (ok && s.writer == Settled(Some(e))) || s.writer == Aborting(Report(e), !ok))
  }

  lemma {:induction false} CarriedOn(s: Session, s': Session, e: ReadError, ok: bool)
    requires Inv(s) && Next(s, s') && WriterCarries(s, e, ok)
    ensures WriterCarries(s', e, ok) || (s.writer == Aborting(Report(e), !ok) && Reports(s, s', e))
  {
  }

  /** A deferred failure is reported by the writer it was left with, unless that writer's own write timed out. */
  lemma {:induction false} DeferredFailureIsReported(run: seq<Session>, i: nat, j: nat, e: ReadError, ok: bool)
    requires IsRun(Init, Next, run) && i <= j < |run|
    requires WriterCarries(run[i], e, ok) && run[j].writer.WriterGone?
    ensures exists k :: i <= k < j && run[k].writer == Aborting(Report(e), !ok) && Reports(run[k], run[k + 1], e)
  {
    InvIsInductive();
    var carries := (s: Session) => WriterCarries(s, e, ok);
    var reports := (s: Session, s': Session) => s.writer == Aborting(Report(e), !ok) && Reports(s, s', e);
    forall s, s' | Inv(s) && carries(s) && Next(s, s')
      ensures carries(s') || reports(s, s')
    {
      CarriedOn(s, s', e, ok);
    }
    var k := LeavesOnRun(Init, Next, Inv, carries, reports, run, i, j);
    assert reports(run[k], run[k + 1]);
  }

  /** The failure the writer's round ends with is the deferred one. */
  lemma {:induction false} ReturnedWriterCarries(s: Session)
    requires Reachable(Init, Next, s) && s.deferred.Some? && s.writer.Returned? && (s.writer.ok || !s.writer.timedOut)
    ensures WriterCarries(s, s.deferred.value, s.writer.ok)
  {
    Reached(s);
  }

  predicate ReaderCarries(s: Session, e: ReadError) {
    s.reader == Deferring(e) || s.reader == ReaderAborting(Report(e))
  }

  /** The step reports the failure, or leaves it with a write in flight. */
  ghost predicate ReportsOrDefers(s: Session, s': Session, e: ReadError) {
    || (s.reader == ReaderAborting(Report(e)) && Reports(s, s', e))
    || (s.reader == Deferring(e) && s.write.inFlight && s'.deferred == Some(e))
  }

  lemma {:induction false} ReaderCarriesOn(s: Session, s': Session, e: ReadError)
    requires Next(s, s') && ReaderCarries(s, e)
    ensures ReaderCarries(s', e) || ReportsOrDefers(s, s', e)
  {
  }

  /** A failure the reader has to defer or report is left with a write in flight, or reported by the reader. */
  lemma {:induction false} ReaderReportsOrDefers(run: seq<Session>, i: nat, j: nat, e: ReadError)
    requires IsRun(Init, Next, run) && i <= j < |run|
    requires ReaderCarries(run[i], e) && run[j].reader.ReaderGone?
    ensures exists k :: i <= k < j && ReportsOrDefers(run[k], run[k + 1], e)
  {
    InvIsInductive();
    var carries := (s: Session) => ReaderCarries(s, e);
    var exit := (s: Session, s': Session) => ReportsOrDefers(s, s', e);
    forall s, s' | Inv(s) && carries(s) && Next(s, s')
      ensures carries(s') || exit(s, s')
    {
      ReaderCarriesOn(s, s', e);
    }
    var k := LeavesOnRun(Init, Next, Inv, carries, exit, run, i, j);
    assert exit(run[k], run[k + 1]);
  }

  // ------------------------------------------- which way the reader leaves

  /** A failure is left to the closing writer only in a close handshake: a normal closure, or after the drain. */
  lemma {:induction false} LeftToWriterMeans(s: Session)
    requires Reachable(Init, Next, s) && s.reader == ReaderGone(LeftToWriter)
    ensures s.life.fullReq && s.life.readCh && s.observed.Some? && (s.observed.value.normalClose || s.drained)
  {
    Reached(s);
  }

  /** A failure of the close handshake: derivative as long as nobody aborts. */
  predicate Derivative(s: Session, e: ReadError) {
    || s.life.abortCh
    || (&& s.life.fullReq && (e.normalClose || s.drained)
        && (|| s.reader == Failed(e) || s.reader == SawFull(e) || s.reader == SawNoAbort(e)
            || s.reader == ReaderGone(LeftToWriter)))
  }

  lemma {:induction false} ReaderStaysDerivative(s: Session, s': Session, e: ReadError)
    requires ReaderStep(s, s') && Derivative(s, e)
    ensures Derivative(s', e)
  {
  }

  lemma {:induction false} OthersStayDerivative(s: Session, s': Session, e: ReadError)
    requires (WriterStep(s, s') || OutsideStep(s, s')) && Derivative(s, e)
    ensures Derivative(s', e)
  {
    SignalsStay(s, s');
  }

  /** What neither the writer nor anybody outside takes back. */
  ghost predicate SignalsKept(s: Session, s': Session) {
    && s'.reader == s.reader && (s.closing ==> s'.closing) && (s.drained ==> s'.drained)
    && (s.life.fullReq ==> s'.life.fullReq) && (s.life.abortCh ==> s'.life.abortCh)
  }

  lemma {:induction false} WriterKeepsSignals(s: Session, s': Session)
    requires WriterStep(s, s')
    ensures SignalsKept(s, s')
  {
  }

  lemma {:induction false} OutsideKeepsSignals(s: Session, s': Session)
    requires OutsideStep(s, s')
    ensures SignalsKept(s, s')
  {
  }

  lemma {:induction false} SignalsStay(s: Session, s': Session)
    requires WriterStep(s, s') || OutsideStep(s, s')
    ensures SignalsKept(s, s')
  {
    if WriterStep(s, s') {
      WriterKeepsSignals(s, s');
    } else {
      OutsideKeepsSignals(s, s');
    }
  }

  lemma {:induction false} DerivativeStays(s: Session, s': Session, e: ReadError)
    requires Next(s, s') && Derivative(s, e)
    ensures Derivative(s', e)
  {
    if ReaderStep(s, s') {
      ReaderStaysDerivative(s, s', e);
    } else {
      OthersStayDerivative(s, s', e);
    }
  }

  /** In a close handshake nobody aborts, a read failure never becomes the cause: it is left to the writer. */
  lemma {:induction false} DerivativeFailureIsLeft(run: seq<Session>, i: nat, j: nat, e: ReadError)
    requires IsRun(Init, Next, run) && i <= j < |run|
    requires run[i].reader == Failed(e) && run[i].life.fullReq && (e.normalClose || run[i].drained)
    requires run[j].reader.ReaderGone? && !run[j].life.abortCh
    ensures run[j].reader == ReaderGone(LeftToWriter)
  {
    InvIsInductive();
    var p := (s: Session) => Derivative(s, e);
    forall s, s' | Inv(s) && p(s) && Next(s, s')
      ensures p(s')
    {
      DerivativeStays(s, s', e);
    }
    StaysOnRun(Init, Next, Inv, p, run, i, j);
    assert p(run[j]);
  }

  /** A failure met after an abort was signalled, on its way to being deferred or reported. */
  predicate AfterAbort(s: Session) {
    s.life.abortCh &&
    match s.reader
    case Reading => false
    case SawNoAbort(_) => false
    case ReaderGone(how) => how == Deferred || how == Aborted
    case _ => true
  }

  lemma {:induction false} AfterAbortStays(s: Session, s': Session)
    requires Next(s, s') && AfterAbort(s)
    ensures AfterAbort(s')
  {
    if !ReaderStep(s, s') {
      SignalsStay(s, s');
    } else {
      ReaderStaysAfterAbort(s, s');
    }
  }

  lemma {:induction false} ReaderStaysAfterAbort(s: Session, s': Session)
    requires ReaderStep(s, s') && AfterAbort(s)
    ensures AfterAbort(s')
  {
  }

  /** And a failure met after an abort was signalled is never taken for one of the close handshake. */
  lemma {:induction false} FailureAfterAbortIsNotLeft(run: seq<Session>, i: nat, j: nat)
    requires IsRun(Init, Next, run) && i <= j < |run|
    requires (run[i].reader.Failed? || run[i].reader.SawFull?) && run[i].life.abortCh && run[j].reader.ReaderGone?
    ensures run[j].reader == ReaderGone(Deferred) || run[j].reader == ReaderGone(Aborted)
  {
    InvIsInductive();
    forall s, s' | Inv(s) && AfterAbort(s) && Next(s, s')
      ensures AfterAbort(s')
    {
      AfterAbortStays(s, s');
    }
    StaysOnRun(Init, Next, Inv, AfterAbort, run, i, j);
  }

  /** A read-idle timeout of a session that is not closing, on its way to being reported. */
  predicate Idling(s: Session, e: ReadError) {
    s.closing || s.reader == CheckingTimeouts(e) || s.reader == ReaderAborting(IdleTimedOut)
  }

  ghost predicate IdleReported(s: Session, s': Session) {
    && s.reader == ReaderAborting(IdleTimedOut) && Ended(s'.life)
    && s'.cause == if Ended(s.life) then s.cause else Some(IdleTimedOut)
  }

  lemma {:induction false} IdlingReaderGoesOn(s: Session, s': Session, e: ReadError)
    requires ReaderStep(s, s') && Idling(s, e) && e.idle
    ensures Idling(s', e) || IdleReported(s, s')
  {
  }

  lemma {:induction false} IdlingGoesOn(s: Session, s': Session, e: ReadError)
    requires Next(s, s') && Idling(s, e) && e.idle
    ensures Idling(s', e) || IdleReported(s, s')
  {
    if ReaderStep(s, s') {
      IdlingReaderGoesOn(s, s', e);
    } else {
      SignalsStay(s, s');
    }
  }

  /** Unless the session is closing, a read-idle timeout is reported as that, whatever the writer does. */
  lemma {:induction false} IdleTimeoutIsReported(run: seq<Session>, i: nat, j: nat, e: ReadError)
    requires IsRun(Init, Next, run) && i <= j < |run| && e.idle
    requires run[i].reader == CheckingTimeouts(e) && run[j].reader.ReaderGone? && !run[j].closing
    ensures exists k :: i <= k < j && IdleReported(run[k], run[k + 1])
  {
    InvIsInductive();
    var p := (s: Session) => Idling(s, e);
    forall s, s' | Inv(s) && p(s) && Next(s, s')
      ensures p(s') || IdleReported(s, s')
    {
      IdlingGoesOn(s, s', e);
    }
    var k := LeavesOnRun(Init, Next, Inv, p, IdleReported, run, i, j);
  }

  /** Both cases occur: here the reader defers after the writer has already aborted. */
  lemma {:induction false} DeferralPastAbort() returns (s: Session, s': Session)
    ensures Reachable(Init, Next, s) && ReaderStep(s, s')
    ensures s.deferred.None? && s'.deferred.Some? && s.writer.Ending? && Ended(s.life)
  {
    var e := ReadError(1, false, false, false);
    var s0 := Session(Lifecycle.NEW, false, false, WriteState(false, None), Looping, Reading, None, None, 0, None);
    var s1 := s0.(write := Begin(s0.write), writer := Writing);
    var s2 := s1.(writer := Returned(false, false));
    var s3 := s2.(writer := Aborting(WriteFailed, true));
    var s4 := s3.Abort(Failure, WriteFailed).(writer := Ending);
    var s5 := s4.(reader := Failed(e), observed := Some(e));
    var s6 := s5.(reader := CheckingTimeouts(e));
    s := s6.(reader := Deferring(e));
    s' := s.(write := DeferRead(s.write, e), deferred := Some(e), reader := ReaderGone(Deferred));
    ReachableInit(Init, Next, s0);
    assert WriterStep(s0, s1);
    ReachableStep(Init, Next, s0, s1);
    assert WriterStep(s1, s2);
    ReachableStep(Init, Next, s1, s2);
    assert WriterStep(s2, s3);
    ReachableStep(Init, Next, s2, s3);
    assert WriterStep(s3, s4);
    ReachableStep(Init, Next, s3, s4);
    assert ReaderStep(s4, s5);
    ReachableStep(Init, Next, s4, s5);
    assert ReaderStep(s5, s6);
    ReachableStep(Init, Next, s5, s6);
    assert ReaderStep(s6, s);
    ReachableStep(Init, Next, s6, s);
  }
}
