/**
 The guarantees of a session, over every run of the step relation.
 */
module SessionTheorems {
  import opened Bytes
  import opened Counting
  import opened Runs
  import opened Lifecycle
  import opened Session
  import opened Pipeline
  import opened Ending

  ghost predicate SessionInv(s: Conn) {
    PipeInv(s) && ControlInv(s) && CallersOk(s)
  }

  lemma {:induction false} InitHolds(s: Conn)
    requires Init(s)
    ensures SessionInv(s)
  {
  }

  /** What no step takes back: signals, causes, history, and the emptiness of a drained gate. */
  ghost predicate Progress(s: Conn, s': Conn) {
    && Forward(s.ctl, s'.ctl) && (s.pipe.protocolClosed ==> s'.pipe.protocolClosed)
    && s.pipe.enqueued <= s'.pipe.enqueued && s.pipe.wire <= s'.pipe.wire
    && |s.pipe.written| <= |s'.pipe.written|
    && (s.gate.Drained() ==> s'.gate.Drained() && s'.pipe.enqueued == s.pipe.enqueued)
  }

  lemma {:induction false} SpawnKeeps(s: Conn, s': Conn)
    requires SessionInv(s) && Spawn(s, s')
    ensures SessionInv(s') && Progress(s, s')
  {
    SpawnKeepsPipe(s, s');
    forall k | 0 <= k < |s'.callers|
      ensures CallerOk(s'.ctl, s'.pipe.protocolClosed, s'.callers[k])
    {
      if k < |s.callers| {
        assert CallerOk(s.ctl, s.pipe.protocolClosed, s.callers[k]);
      }
    }
  }

  lemma {:induction false} SenderLeavesControl(s: Conn, s': Conn, i: nat)
    requires SenderStep(s, s', i)
    ensures s'.ctl == s.ctl && s'.callers == s.callers && s'.writer == s.writer && s'.reader == s.reader
    ensures s'.finalizer == s.finalizer && s'.pipe.protocolClosed == s.pipe.protocolClosed
  {
  }

  lemma {:induction false} SenderHistoryGrows(s: Conn, s': Conn, i: nat)
    requires SenderStep(s, s', i)
    ensures s.pipe.enqueued <= s'.pipe.enqueued && s'.pipe.wire == s.pipe.wire && s'.pipe.written == s.pipe.written
  {
  }

  lemma {:induction false} SenderKeeps(s: Conn, s': Conn, i: nat)
    requires SessionInv(s) && SenderStep(s, s', i)
    ensures SessionInv(s') && Progress(s, s')
  {
    SenderKeepsPipe(s, s', i);
    SenderLeavesControl(s, s', i);
    SenderHistoryGrows(s, s', i);
    CallersStayOk(s, s');
    if s.gate.Drained() {
      DrainedTurnsAway(s, s', i);
    }
  }

  lemma {:induction false} WriterLeavesCallers(s: Conn, s': Conn)
    requires WriterStep(s, s')
    ensures s'.callers == s.callers && (s.pipe.protocolClosed ==> s'.pipe.protocolClosed)
    ensures s.pipe.wire <= s'.pipe.wire && s'.gate == s.gate
  {
  }

  lemma {:induction false} WriterKeeps(s: Conn, s': Conn)
    requires SessionInv(s) && WriterStep(s, s')
    ensures SessionInv(s') && Progress(s, s')
  {
    WriterKeepsPipe(s, s');
    WriterKeepsEnd(s, s');
    WriterLeavesCallers(s, s');
    WriterGrowsHistory(s, s');
    CallersStayOk(s, s');
  }

  lemma {:induction false} ReaderKeeps(s: Conn, s': Conn)
    requires SessionInv(s) && ReaderStep(s, s')
    ensures SessionInv(s') && Progress(s, s')
  {
    ReaderFrame(s, s');
    UntouchedKeepsPipe(s, s');
    ReaderKeepsEnd(s, s');
    assert s'.callers == s.callers;
    CallersStayOk(s, s');
  }

  lemma {:induction false} TailKeeps(s: Conn, s': Conn, j: nat)
    requires SessionInv(s) && TailStep(s, s', j)
    ensures SessionInv(s') && Progress(s, s')
  {
    TailFrame(s, s', j);
    UntouchedKeepsPipe(s, s');
    TailKeepsEnd(s, s', j);
    CallersStayOk(s, s');
  }

  lemma {:induction false} CallerKeeps(s: Conn, s': Conn, i: nat)
    requires SessionInv(s) && CallerStep(s, s', i)
    ensures SessionInv(s') && Progress(s, s')
  {
    CallerFrame(s, s', i);
    UntouchedKeepsPipe(s, s');
    CallerKeepsEnd(s, s', i);
    assert CallerOk(s.ctl, s.pipe.protocolClosed, s.callers[i]);
    SteppingCallerOk(s, s', i);
    OneCallerMoves(s, s', i);
  }

  lemma {:induction false} FinalizerKeeps(s: Conn, s': Conn)
    requires SessionInv(s) && FinalizerStep(s, s')
    ensures SessionInv(s') && Progress(s, s')
  {
    FinalizerFrame(s, s');
    UntouchedKeepsPipe(s, s');
    FinalizerKeepsEnd(s, s');
    assert s'.callers == s.callers;
    CallersStayOk(s, s');
  }

  lemma {:induction false} StepKeeps(s: Conn, s': Conn)
    requires SessionInv(s) && Next(s, s')
    ensures SessionInv(s') && Progress(s, s')
  {
    if Spawn(s, s') {
      SpawnKeeps(s, s');
    } else if i: nat :| SenderStep(s, s', i) {
      SenderKeeps(s, s', i);
    } else if WriterStep(s, s') {
      WriterKeeps(s, s');
    } else if ReaderStep(s, s') {
      ReaderKeeps(s, s');
    } else if j: nat :| TailStep(s, s', j) {
      TailKeeps(s, s', j);
    } else if i: nat :| CallerStep(s, s', i) {
      CallerKeeps(s, s', i);
    } else {
      FinalizerKeeps(s, s');
    }
  }

  lemma {:induction false} InvIsInductive()
    ensures Inductive(Init, Next, SessionInv)
  {
    forall s | Init(s)
      ensures SessionInv(s)
    {
      InitHolds(s);
    }
    forall s, s' | SessionInv(s) && Next(s, s')
      ensures SessionInv(s')
    {
      StepKeeps(s, s');
    }
  }

  ghost predicate Reached(s: Conn) {
    Reachable(Init, Next, s)
  }

  lemma {:induction false} ReachedInv(s: Conn)
    requires Reached(s)
    ensures SessionInv(s)
  {
    InvIsInductive();
    Invariant(Init, Next, SessionInv, s);
  }

  /** Nothing is taken back between any two points of a run. */
  lemma {:induction false} RunProgress(run: seq<Conn>, i: nat, j: nat)
    requires IsRun(Init, Next, run) && i <= j < |run|
    ensures Progress(run[i], run[j])
  {
    InvIsInductive();
    forall s, s' | SessionInv(s) && Next(s, s')
      ensures Progress(s, s')
    {
      StepKeeps(s, s');
    }
    assert forall a, b, c :: Progress(a, b) && Progress(b, c) ==> Progress(a, c);
    MonotoneOnRun(Init, Next, SessionInv, Progress, run, i, j);
  }

  // ------------------------------------------------------------ theorems

  /**
   Graceful drain: when the writer is about to close the protocol write side, the gate is shut with
   nobody inside, `drained` was closed exactly once, and the frames on the wire are exactly the
   accepted frames in order of acceptance.
   */
  lemma {:induction false} GracefulDrain(s: Conn)
    requires Reached(s) && s.writer.CloseProtocol?
    ensures s.gate.closed && s.gate.drains == 1
    ensures forall i :: 0 <= i < |s.senders| ==> s.senders[i].Calling? || s.senders[i].Returned?
    ensures s.pipe.queue == [] && s.pipe.written == s.pipe.enqueued && s.pipe.wire == Frames(s.pipe.enqueued)
  {
    ReachedInv(s);
    forall i | 0 <= i < |s.senders|
      ensures s.senders[i].Calling? || s.senders[i].Returned?
    {
      SumAtLeast(Inside, s.senders, i);
    }
    assert s.pipe.enqueued[..|s.pipe.enqueued|] == s.pipe.enqueued;
  }

  /** Once the gate is drained nothing is ever accepted again, and `drained` is never closed twice. */
  lemma {:induction false} DrainedForEver(run: seq<Conn>, i: nat, j: nat)
    requires IsRun(Init, Next, run) && i <= j < |run| && run[i].gate.Drained()
    ensures run[j].gate.drains == 1 && run[j].pipe.enqueued == run[i].pipe.enqueued
  {
    RunProgress(run, i, j);
    InvIsInductive();
    InvariantOnRun(Init, Next, SessionInv, run, j);
  }

  /** From the moment the write side is about to be closed the queue is empty for ever. */
  lemma {:induction false} QueueStaysEmpty(run: seq<Conn>, i: nat, j: nat)
    requires IsRun(Init, Next, run) && i <= j < |run| && run[i].writer.CloseProtocol?
    ensures run[j].pipe.queue == [] && run[j].pipe.written == run[j].pipe.enqueued == run[i].pipe.enqueued
  {
    InvIsInductive();
    InvariantOnRun(Init, Next, SessionInv, run, i);
    InvariantOnRun(Init, Next, SessionInv, run, j);
    RunProgress(run, i, j);
    AtTheEndAllIsWritten(run[i].cfg, run[i].pipe, run[i].writer);
    WrittenLeavesNoQueue(run[j].cfg, run[j].pipe, run[j].writer);
  }

  lemma {:induction false} AtTheEndAllIsWritten(cfg: Config, p: Pipe, w: Writer)
    requires OrderInv(cfg, p, w) && w.CloseProtocol? && p.queue == []
    ensures |p.written| == |p.enqueued|
  {
  }

  lemma {:induction false} WrittenLeavesNoQueue(cfg: Config, p: Pipe, w: Writer)
    requires OrderInv(cfg, p, w) && |p.written| >= |p.enqueued|
    ensures p.queue == [] && p.written == p.enqueued
  {
    assert p.enqueued[..|p.enqueued|] == p.enqueued;
  }

  /** Whatever is accepted is a valid message with an encoding of it, numbered in the order of acceptance. */
  lemma {:induction false} AcceptedIsValid(s: Conn, k: nat)
    requires Reached(s) && k < |s.pipe.enqueued|
    ensures var r := s.pipe.enqueued[k];
            r.ticket == k && s.cfg.valid(r.msg) && s.cfg.encodes(r.msg, r.frame)
  {
    ReachedInv(s);
  }

  /** Every slot, encoder and quota byte has exactly one holder, within the configured bounds. */
  lemma {:induction false} TokensConserved(s: Conn)
    requires Reached(s)
    ensures s.pipe.slots == Sum(Slot, s.senders) + |s.pipe.queue| + WriterSlot(s.writer) <= s.cfg.queueCap + 1
    ensures s.pipe.used == Sum(HeldBytes, s.senders) + Sum(FrameBytes, s.pipe.queue) +
        WriterBytes(s.writer) <= s.cfg.byteLimit
    ensures s.pipe.encoders == Sum(Encoder, s.senders) <= 1
    ensures Sum(Uncovered, s.senders) <= 1
  {
    ReachedInv(s);
    UncoveredHoldEncoder(s.senders);
  }

  /** An encoded frame outside the quota belongs to the one sender holding the encoder. */
  lemma {:induction false} UncoveredHoldEncoder(senders: seq<Sender>)
    ensures Sum(Uncovered, senders) <= Sum(Encoder, senders)
  {
    if senders != [] {
      UncoveredHoldEncoder(senders[1..]);
    }
  }

  lemma {:induction false} StoppedHoldsNothing(s: Conn)
    requires TokenInv(s) && s.gate.Drained() && s.pipe.queue == [] && s.writer.Stopped?
    ensures s.pipe.slots == 0 && s.pipe.encoders == 0 && s.pipe.used == 0
  {
    forall i | 0 <= i < |s.senders|
      ensures Inside(s.senders[i]) == 0
    {
      SumAtLeast(Inside, s.senders, i);
    }
    SumZero(Slot, s.senders);
    SumZero(Encoder, s.senders);
    SumZero(HeldBytes, s.senders);
  }

  /** When the writer has stopped, every token is back and every accepted `Send` was acknowledged once. */
  lemma {:induction false} CleanedUp(s: Conn)
    requires Reached(s) && s.writer.Stopped?
    ensures s.pipe.slots == 0 && s.pipe.encoders == 0 && s.pipe.used == 0 && s.pipe.queue == []
    ensures |s.pipe.ackSends| == |s.pipe.enqueued|
    ensures forall k :: 0 <= k < |s.pipe.enqueued| ==>
        s.pipe.ackSends[k] == if s.pipe.enqueued[k].blocking then 1 else 0
  {
    ReachedInv(s);
    StoppedHoldsNothing(s);
  }

  /** A send that returned nil was written in full at its place in the order (and `TrySend`: accepted). */
  lemma {:induction false} NilMeansSent(s: Conn, i: nat)
    requires Reached(s) && i < |s.senders| && s.senders[i].Returned?
    ensures match s.senders[i].out
            case Sent(m, t) => t < |s.pipe.written| && s.pipe.written[t].msg == m && s.pipe.written[t].ticket == t
            case Accepted(m, t) => t < |s.pipe.enqueued| && s.pipe.enqueued[t].msg == m
            case Refused => true
  {
    ReachedInv(s);
    OutcomeMeans(s.cfg, s.pipe, s.writer, s.senders[i]);
  }

  lemma {:induction false} OutcomeMeans(cfg: Config, p: Pipe, w: Writer, x: Sender)
    requires OrderInv(cfg, p, w) && x.Returned? && SenderOk(cfg, p, x)
    ensures match x.out
            case Sent(m, t) => t < |p.written| && p.written[t].msg == m && p.written[t].ticket == t
            case Accepted(m, t) => t < |p.enqueued| && p.enqueued[t].msg == m
            case Refused => true
  {
  }

  /** At every point where the writer acknowledges a send, the ack channel has room. */
  lemma {:induction false} WriterNeverBlocksOnAck(s: Conn)
    requires Reached(s) && ((s.writer.SlotBack? && s.writer.ok) || s.writer.FailAck? || s.writer.SweepAck?)
    ensures AckReady(s.pipe, s.writer.req)
  {
    ReachedInv(s);
    BusyAckReady(s.cfg, s.pipe, s.writer);
  }

  lemma {:induction false} BusyAckReady(cfg: Config, p: Pipe, w: Writer)
    requires OrderInv(cfg, p, w) && AckInv(p, w) && Busy(w)
    ensures AckReady(p, w.req)
  {
    var k := Head(p) - 1;
    assert w.req == p.enqueued[k];
    assert p.ackSends[k] == 0;
  }

  /** Nil from `CloseWrite`: every accepted frame was written, and then the write side was closed. */
  lemma {:induction false} CloseWriteSound(s: Conn, i: nat)
    requires Reached(s) && i < |s.callers| && s.callers[i] == Answered(CloseWriteCall, true)
    ensures s.pipe.protocolClosed && s.pipe.written == s.pipe.enqueued && s.pipe.wire == Frames(s.pipe.enqueued)
    ensures s.gate.drains == 1
  {
    ReachedInv(s);
    NilMeansClosed(s, i);
    assert s.pipe.enqueued[..|s.pipe.enqueued|] == s.pipe.enqueued;
  }

  lemma {:induction false} NilMeansClosed(s: Conn, i: nat)
    requires SessionInv(s) && i < |s.callers| && s.callers[i] == Answered(CloseWriteCall, true)
    ensures s.pipe.protocolClosed && AllWritten(s.pipe)
  {
    assert CallerOk(s.ctl, s.pipe.protocolClosed, s.callers[i]);
  }

  /** Nil from `Shutdown`: both halves closed gracefully, no abort won, and `OnClose` has returned. */
  lemma {:induction false} ShutdownSound(s: Conn, i: nat)
    requires Reached(s) && i < |s.callers| && s.callers[i] == Answered(ShutdownCall, true)
    ensures s.pipe.protocolClosed && s.pipe.written == s.pipe.enqueued && s.ctl.eof
    ensures s.ctl.onCloseReturned && s.ctl.done && s.ctl.life.why == NoAbort && s.ctl.life.err.None?
    ensures s.ctl.closings == 1
  {
    ReachedInv(s);
    assert CallerOk(s.ctl, s.pipe.protocolClosed, s.callers[i]);
    DoneWithoutAbort(s.ctl, s.pipe.protocolClosed, s.writer, s.reader, s.finalizer);
    AllWrittenIsAll(s.cfg, s.pipe, s.writer);
  }

  lemma {:induction false} DoneWithoutAbort(c: Control, closed: bool, w: Writer, r: Receiver, f: Finalizer)
    requires EndInv(c, closed, w, r, f) && c.done && c.life.why == NoAbort
    ensures closed && c.eof && c.onCloseReturned && c.life.err.None? && c.closings == 1
  {
  }

  lemma {:induction false} AllWrittenIsAll(cfg: Config, p: Pipe, w: Writer)
    requires OrderInv(cfg, p, w) && AllWritten(p)
    ensures p.written == p.enqueued
  {
    assert p.enqueued[..|p.enqueued|] == p.enqueued;
  }

  /**
   One winner at most, abort or graceful; one owner per graceful goal; `closing` closes once. The stored
   error is the winner's cause before any of its signals is closed, and there is none without an abort.
   */
  lemma {:induction false} FirstCauseWins(s: Conn)
    requires Reached(s)
    ensures |s.ctl.tails| <= 1 && s.ctl.closings <= 1
    ensures s.ctl.writeOwners <= 1 && s.ctl.fullOwners <= 1
    ensures s.ctl.life.err == if AbortWon(s.ctl) then s.ctl.tails[0].cause else None
    ensures s.ctl.life.why != NoAbort <==> AbortWon(s.ctl)
    ensures s.ctl.life.abortCh ==> AbortWon(s.ctl) && s.ctl.life.err == s.ctl.tails[0].cause
    ensures s.ctl.life.writeCh ==> s.pipe.protocolClosed || s.ctl.life.why != NoAbort
    ensures s.ctl.life.readCh ==> s.ctl.eof || s.ctl.life.why != NoAbort
    ensures s.ctl.done ==> Ended(s.ctl.life)
  {
    ReachedInv(s);
  }

  /** After the session has ended, its reason and error never change, and the goal never falls. */
  lemma {:induction false} CauseIsFinal(run: seq<Conn>, i: nat, j: nat)
    requires IsRun(Init, Next, run) && i <= j < |run|
    ensures Rank(run[i].ctl.life.goal) <= Rank(run[j].ctl.life.goal)
    ensures run[i].ctl.done || run[i].ctl.life.abortCh || Ended(run[i].ctl.life) ==>
              run[j].ctl.life.err == run[i].ctl.life.err && run[j].ctl.life.why == run[i].ctl.life.why
  {
    RunProgress(run, i, j);
    InvIsInductive();
    InvariantOnRun(Init, Next, SessionInv, run, i);
  }

  /** Reader and writer that both closed their half cannot both leave the end to the other. */
  lemma {:induction false} HalvesMeet(s: Conn)
    requires Reached(s) && WriterLeft(s.pipe.protocolClosed, s.writer) && ReaderLeft(s.ctl, s.reader)
    ensures |s.ctl.tails| == 1
    ensures FinishWon(s.ctl) || TailDone(s.ctl.tails[0]) ==> s.ctl.closings == 1
  {
    ReachedInv(s);
  }
}
