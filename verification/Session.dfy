/**
 One TCP or TLS session as a step relation.

 Any number of senders pass the gate, take a frame slot, the encoder and byte quota, and enqueue;
 one writer drains the queue; one reader may meet the end of the stream; `CloseWrite`, `Shutdown`,
 `Close` and failures race for the end of the session; a finalizer runs once both loops returned.
 Every step is one atomic action of the source: a mutex section, a channel operation, a socket call
 or one signal closed. Socket results, context cancellation and the parent quota are free choices.
 */
module Session {
  import opened Bytes
  import opened Wire
  import opened Gate
  import opened Lifecycle

  /** Any framer: `encodes(m, f)` says that `f` may come out of encoding `m`. */
  datatype Config = Config(
    valid: Message -> bool, encodes: (Message, ByteString) -> bool, queueCap: nat, byteLimit: nat)

  /** An accepted send; `ticket` is its place in the order of acceptance. */
  datatype Outbound = Outbound(ticket: nat, msg: Message, frame: ByteString, blocking: bool)

  datatype Job = Job(msg: Message, blocking: bool)

  datatype Outcome = Refused | Accepted(msg: Message, ticket: nat) | Sent(msg: Message, ticket: nat)

  /** Where a call of `Send` (blocking) or `TrySend` is. */
  datatype Sender =
    | Calling(job: Job)
    | Entered(job: Job)
    | SlotHeld(job: Job)
    | EncoderTaken(job: Job)
    | EncoderHeld(job: Job)
    | Encoded(job: Job, frame: ByteString)
    | LocalQuota(job: Job, frame: ByteString)
    | BothQuotas(job: Job, frame: ByteString)
    | RollBack(frame: ByteString)
    | DropEncoder
    | DropSlot
    | Prepared(job: Job, frame: ByteString)
    | DropQuota(frame: ByteString)
    | AwaitAck(msg: Message, ticket: nat)
    | Leaving(out: Outcome)
    | Returned(out: Outcome)

  /** Which select of the writer loop a frame was taken from. */
  datatype Mode = Plain | Graceful | Draining

  datatype Writer =
    | Select(mode: Mode)
    | Writing(mode: Mode, req: Outbound, sent: nat)
    | Wrote(mode: Mode, req: Outbound, ok: bool)
    | QuotaBack(mode: Mode, req: Outbound, ok: bool)
    | SlotBack(mode: Mode, req: Outbound, ok: bool)
    | FailAborting(req: Outbound, tail: nat)
    | FailAck(req: Outbound)
    | CloseProtocol
    | MarkWrite
    | TestRead
    | TestWrite
    | TryFinish
    | Finishing(tail: nat)
    | CloseFailed(cause: Maybe<Cause>)
    | CloseAborting(tail: nat)
    | Exit
    | Sweep
    | SweepQuota(req: Outbound)
    | SweepSlot(req: Outbound)
    | SweepAck(req: Outbound)
    | Stopped

  datatype Receiver =
    | Receiving
    | MarkingRead
    | TestingRead
    | TestingWrite
    | TryingFinish
    | ReaderFinishing(tail: nat)
    | Broken(cause: Maybe<Cause>)
    | ReaderAborting(tail: nat)
    | ReaderStopped

  datatype Kind = CloseWriteCall | ShutdownCall

  /** Where a call of `CloseWrite`, `Shutdown`, `Close` or another source of failure is. */
  datatype Caller =
    | Asked(kind: Kind)
    | SignalWrite(kind: Kind, ownsWrite: bool)
    | SignalFull(ownsWrite: bool)
    | SealGate(kind: Kind, ownsWrite: bool)
    | AwaitWrite(kind: Kind, owner: bool, ownsWrite: bool)
    | AwaitDone(owner: bool)
    | ReadErr(kind: Kind)
    | ReadReason(kind: Kind)
    | CloseAsked
    | WantAbort(reason: Reason, cause: Maybe<Cause>)
    | InAbort(tail: nat)
    | Answered(kind: Kind, ok: bool)
    | Gone

  datatype Finalizer =
    | Waiting | CheckTerminal | CheckClosing | FinalAbort | FinalAborting(tail: nat)
    | ForceMark | MarkRead | MarkWritten | MarkTerm | CallingOnClose | CloseDone | Finalized

  datatype TailKind = AbortTail | FinishTail

  /** What the winner of the end still has to do after leaving the lifecycle mutex, and the cause it brought. */
  datatype Tail = Tail(kind: TailKind, phase: nat, cause: Maybe<Cause>)

  predicate TailDone(t: Tail) { t.phase >= if t.kind == AbortTail then 7 else 5 }

  /** The send pipeline. `enqueued`, `written`, `wire`, `ackSends` and `protocolClosed` record history. */
  datatype Pipe = Pipe(
    slots: int, encoders: int, used: int,
    queue: seq<Outbound>,
    enqueued: seq<Outbound>, written: seq<Outbound>, wire: ByteString,
    acks: seq<seq<bool>>, ackSends: seq<nat>,
    protocolClosed: bool)

  /** The end of the session. `closings` counts closes of `closing`; owners and `eof` record history. */
  datatype Control = Control(
    life: Life, tails: seq<Tail>, closeOnce: bool, closings: nat, eof: bool,
    writeOwners: nat, fullOwners: nat, onCloseReturned: bool, done: bool)

  datatype Conn = Conn(
    cfg: Config, gate: GateState, pipe: Pipe, ctl: Control,
    senders: seq<Sender>, callers: seq<Caller>, writer: Writer, reader: Receiver, finalizer: Finalizer)
  {
    predicate Closing() { ctl.closings > 0 }

    function Go(i: nat, to: Sender): Conn
      requires i < |senders|
    {
      this.(senders := senders[i := to])
    }

    function Answer(i: nat, to: Caller): Conn
      requires i < |callers|
    {
      this.(callers := callers[i := to])
    }

    function WithLife(l: Life): Conn {
      this.(ctl := ctl.(life := l))
    }

    predicate TailFinished(j: nat) {
      j < |ctl.tails| && TailDone(ctl.tails[j])
    }

    /** The mutex section of `abort`; a winner starts its own tail of signals. */
    function AbortEntry(reason: Reason, cause: Maybe<Cause>): Conn {
      if Ended(ctl.life) then this
      else this.(ctl := ctl.(life := Abort(ctl.life, reason, cause), tails := ctl.tails + [Tail(AbortTail, 0, cause)]))
    }

    function FinishEntry(): Conn {
      if Ended(ctl.life) then this
      else this.(ctl := ctl.(life := TryTerminal(ctl.life), tails := ctl.tails + [Tail(FinishTail, 0, None)]))
    }
  }

  ghost predicate Init(s: Conn) {
    && s.gate == OPEN
    && s.pipe == Pipe(0, 0, 0, [], [], [], [], [], [], false)
    && s.ctl == Control(NEW, [], false, 0, false, 0, 0, false, false)
    && s.senders == [] && s.callers == []
    && s.writer == Select(Plain) && s.reader == Receiving && s.finalizer == Waiting
  }

  // ------------------------------------------------------------- senders

  function EnqueueTicket(s: Conn): nat { |s.pipe.enqueued| }

  function EnqueuePipe(s: Conn, job: Job, frame: ByteString): Pipe {
    var req := Outbound(EnqueueTicket(s), job.msg, frame, job.blocking);
    s.pipe.(queue := s.pipe.queue + [req], enqueued := s.pipe.enqueued + [req],
            acks := s.pipe.acks + [[]], ackSends := s.pipe.ackSends + [0])
  }

  /** A blocking send may be cancelled at any wait; a non-blocking one gives up when it would wait. */
  predicate MayGiveUp(s: Conn, job: Job, available: bool) {
    job.blocking || s.Closing() || !available
  }

  ghost predicate SenderStep(s: Conn, s': Conn, i: nat) {
    i < |s.senders| &&
    match s.senders[i]
    case Calling(job) =>
      if s.gate.closed then s' == s.Go(i, Returned(Refused))
      else s' == s.(gate := Enter(s.gate)).Go(i, Entered(job))
    case Entered(job) =>
      if !s.cfg.valid(job.msg) then s' == s.Go(i, Leaving(Refused))
      else
        || (MayGiveUp(s, job, s.pipe.slots < s.cfg.queueCap + 1) && s' == s.Go(i, Leaving(Refused)))
        || (s.pipe.slots < s.cfg.queueCap + 1
            && s' == s.(pipe := s.pipe.(slots := s.pipe.slots + 1)).Go(i, SlotHeld(job)))
    case SlotHeld(job) =>
      || (MayGiveUp(s, job, s.pipe.encoders < 1) && s' == s.Go(i, DropSlot))
      || (s.pipe.encoders < 1
          && s' == s.(pipe := s.pipe.(encoders := s.pipe.encoders + 1)).Go(i, EncoderTaken(job)))
    case EncoderTaken(job) =>
      s' == s.Go(i, if s.Closing() then DropEncoder else EncoderHeld(job))
    case EncoderHeld(job) =>
      || s' == s.Go(i, DropEncoder)
      || (exists frame :: s.cfg.encodes(job.msg, frame) && s' == s.Go(i, Encoded(job, frame)))
    case Encoded(job, frame) =>
      || (MayGiveUp(s, job, s.pipe.used + |frame| <= s.cfg.byteLimit) && s' == s.Go(i, DropEncoder))
      || (s.pipe.used + |frame| <= s.cfg.byteLimit
          && s' == s.(pipe := s.pipe.(used := s.pipe.used + |frame|)).Go(i, LocalQuota(job, frame)))
    case LocalQuota(job, frame) =>
      s' == s.Go(i, RollBack(frame)) || s' == s.Go(i, BothQuotas(job, frame))
    case RollBack(frame) =>
      s' == s.(pipe := s.pipe.(used := ReleaseBytes(s.pipe.used, |frame|))).Go(i, DropEncoder)
    case BothQuotas(job, frame) =>
      s.pipe.encoders > 0
      && s' == s.(pipe := s.pipe.(encoders := s.pipe.encoders - 1)).Go(i, Prepared(job, frame))
    case DropEncoder =>
      s.pipe.encoders > 0
      && s' == s.(pipe := s.pipe.(encoders := s.pipe.encoders - 1)).Go(i, DropSlot)
    case DropSlot =>
      s.pipe.slots > 0
      && s' == s.(pipe := s.pipe.(slots := s.pipe.slots - 1)).Go(i, Leaving(Refused))
    case Prepared(job, frame) =>
      || (MayGiveUp(s, job, |s.pipe.queue| < s.cfg.queueCap) && s' == s.Go(i, DropQuota(frame)))
      || (|s.pipe.queue| < s.cfg.queueCap
          && s' == s.(pipe := EnqueuePipe(s, job, frame))
                    .Go(i, if job.blocking then AwaitAck(job.msg, EnqueueTicket(s))
                           else Leaving(Accepted(job.msg, EnqueueTicket(s)))))
    case DropQuota(frame) =>
      s' == s.(pipe := s.pipe.(used := ReleaseBytes(s.pipe.used, |frame|))).Go(i, DropSlot)
    case AwaitAck(msg, ticket) =>
      || s' == s.Go(i, Leaving(Refused))
      || (ticket < |s.pipe.acks| && s.pipe.acks[ticket] != []
          && s' == s.(pipe := s.pipe.(acks := s.pipe.acks[ticket := s.pipe.acks[ticket][1..]]))
                    .Go(i, Leaving(if s.pipe.acks[ticket][0] then Sent(msg, ticket) else Refused)))
    case Leaving(out) =>
      s' == s.(gate := Leave(s.gate)).Go(i, Returned(out))
    case Returned(_) => false
  }

  /** A quota release clamps at zero. */
  function ReleaseBytes(used: int, n: nat): int {
    if used - n < 0 then 0 else used - n
  }

  // -------------------------------------------------------------- writer

  function Dequeue(s: Conn, mode: Mode): Conn
    requires s.pipe.queue != []
  {
    s.(pipe := s.pipe.(queue := s.pipe.queue[1..]), writer := Writing(mode, s.pipe.queue[0], 0))
  }

  /** One partial write: the socket took `frame[sent..upTo]`. */
  function WriteSome(s: Conn, mode: Mode, req: Outbound, sent: nat, upTo: nat): Conn
    requires sent <= upTo <= |req.frame|
  {
    s.(pipe := s.pipe.(wire := s.pipe.wire + req.frame[sent..upTo]), writer := Writing(mode, req, upTo))
  }

  function SendAck(p: Pipe, ticket: nat, ok: bool): Pipe
    requires ticket < |p.acks| && ticket < |p.ackSends|
  {
    p.(acks := p.acks[ticket := p.acks[ticket] + [ok]], ackSends := p.ackSends[ticket := p.ackSends[ticket] + 1])
  }

  /** The ack channel holds one value; a second send into a full channel would block for ever. */
  predicate AckReady(p: Pipe, req: Outbound) {
    !req.blocking || (req.ticket < |p.acks| && req.ticket < |p.ackSends| && |p.acks[req.ticket]| < 1)
  }

  function Acked(p: Pipe, req: Outbound, ok: bool): Pipe
    requires AckReady(p, req)
  {
    if req.blocking then SendAck(p, req.ticket, ok) else p
  }

  ghost predicate WriterStep(s: Conn, s': Conn) {
    match s.writer
    case Select(mode) =>
      || (mode != Draining && s.Closing() && s' == s.(writer := Exit))
      || (mode == Plain && s.ctl.life.writeReq && s' == s.(writer := Select(Graceful)))
      || (mode == Graceful && s.gate.Drained() && s' == s.(writer := Select(Draining)))
      || (s.pipe.queue != [] && s' == Dequeue(s, mode))
      || (mode == Draining && s.pipe.queue == [] && s' == s.(writer := CloseProtocol))
    case Writing(mode, req, sent) =>
      || (exists upTo: nat :: sent < upTo <= |req.frame| && s' == WriteSome(s, mode, req, sent, upTo))
      || (sent == |req.frame|
          && s' == s.(pipe := s.pipe.(written := s.pipe.written + [req]), writer := Wrote(mode, req, true)))
      || s' == s.(writer := Wrote(mode, req, false))
    case Wrote(mode, req, ok) =>
      s' == s.(pipe := s.pipe.(used := ReleaseBytes(s.pipe.used, |req.frame|)), writer := QuotaBack(mode, req, ok))
    case QuotaBack(mode, req, ok) =>
      s.pipe.slots > 0
      && s' == s.(pipe := s.pipe.(slots := s.pipe.slots - 1), writer := SlotBack(mode, req, ok))
    case SlotBack(mode, req, ok) =>
      if ok then
        AckReady(s.pipe, req) && s' == s.(pipe := Acked(s.pipe, req, true), writer := Select(mode))
      else
        exists cause ::
          s' == s.AbortEntry(Failure, cause)
                 .(writer := if Ended(s.ctl.life) then FailAck(req) else FailAborting(req, |s.ctl.tails|))
    case FailAborting(req, tail) =>
      s.TailFinished(tail) && s' == s.(writer := FailAck(req))
    case FailAck(req) =>
      AckReady(s.pipe, req) && s' == s.(pipe := Acked(s.pipe, req, false), writer := Exit)
    case CloseProtocol =>
      || s' == s.(pipe := s.pipe.(protocolClosed := true), writer := MarkWrite)
      || exists cause :: s' == s.(writer := CloseFailed(cause))
    case CloseFailed(cause) =>
      s' == s.AbortEntry(Failure, cause)
             .(writer := if Ended(s.ctl.life) then Exit else CloseAborting(|s.ctl.tails|))
    case CloseAborting(tail) =>
      s.TailFinished(tail) && s' == s.(writer := Exit)
    case MarkWrite =>
      s' == s.WithLife(s.ctl.life.(writeCh := true)).(writer := TestRead)
    case TestRead =>
      s' == s.(writer := if s.ctl.life.readCh then TestWrite else Exit)
    case TestWrite =>
      s' == s.(writer := if s.ctl.life.writeCh then TryFinish else Exit)
    case TryFinish =>
      s' == s.FinishEntry().(writer := if Ended(s.ctl.life) then Exit else Finishing(|s.ctl.tails|))
    case Finishing(tail) =>
      s.TailFinished(tail) && s' == s.(writer := Exit)
    case Exit =>
      s.gate.Drained() && s' == s.(writer := Sweep)
    case Sweep =>
      if s.pipe.queue == [] then s' == s.(writer := Stopped)
      else s' == s.(pipe := s.pipe.(queue := s.pipe.queue[1..]), writer := SweepQuota(s.pipe.queue[0]))
    case SweepQuota(req) =>
      s' == s.(pipe := s.pipe.(used := ReleaseBytes(s.pipe.used, |req.frame|)), writer := SweepSlot(req))
    case SweepSlot(req) =>
      s.pipe.slots > 0 && s' == s.(pipe := s.pipe.(slots := s.pipe.slots - 1), writer := SweepAck(req))
    case SweepAck(req) =>
      AckReady(s.pipe, req) && s' == s.(pipe := Acked(s.pipe, req, false), writer := Sweep)
    case Stopped => false
  }

  // -------------------------------------------------------------- reader

  ghost predicate ReaderStep(s: Conn, s': Conn) {
    match s.reader
    case Receiving =>
      || (s.Closing() && s' == s.(reader := ReaderStopped))
      || (exists cause :: s' == s.(reader := Broken(cause)))
      || (!s.Closing() && s' == s.(ctl := s.ctl.(eof := true), reader := MarkingRead))
    case MarkingRead =>
      s' == s.WithLife(s.ctl.life.(readCh := true)).(reader := TestingRead)
    case TestingRead =>
      s' == s.(reader := if s.ctl.life.readCh then TestingWrite else ReaderStopped)
    case TestingWrite =>
      s' == s.(reader := if s.ctl.life.writeCh then TryingFinish else ReaderStopped)
    case TryingFinish =>
      s' == s.FinishEntry().(reader := if Ended(s.ctl.life) then ReaderStopped else ReaderFinishing(|s.ctl.tails|))
    case ReaderFinishing(tail) =>
      s.TailFinished(tail) && s' == s.(reader := ReaderStopped)
    case Broken(cause) =>
      s' == s.AbortEntry(Failure, cause)
             .(reader := if Ended(s.ctl.life) then ReaderStopped else ReaderAborting(|s.ctl.tails|))
    case ReaderAborting(tail) =>
      s.TailFinished(tail) && s' == s.(reader := ReaderStopped)
    case ReaderStopped => false
  }

  // -------------------------------------------- the winner's signal tails

  /** The close-once section: shut the gate, then close `closing`. */
  predicate AtCloseOnce(t: Tail) { t.phase == if t.kind == AbortTail then 5 else 3 }

  predicate PastCloseOnce(t: Tail) { t.phase > if t.kind == AbortTail then 5 else 3 }

  /**
   The signal a tail closes at its current phase: an abort all but the last, a graceful end both halves and
   the last.
   */
  function Signalled(l: Life, t: Tail): Life {
    var abort, p := t.kind == AbortTail, t.phase;
    l.(writeReq := l.writeReq || (abort && p == 0),
       fullReq := l.fullReq || (abort && p == 1),
       abortCh := l.abortCh || (abort && p == 2),
       readCh := l.readCh || p == (if abort then 3 else 0),
       writeCh := l.writeCh || p == (if abort then 4 else 1),
       termCh := l.termCh || (!abort && p == 2))
  }

  function AdvanceTail(c: Control, j: nat): Control
    requires j < |c.tails|
  {
    var t := c.tails[j];
    var moved := c.tails[j := t.(phase := t.phase + 1)];
    if AtCloseOnce(t) then
      if c.closeOnce then c.(tails := c.tails[j := t.(phase := 7)]) else c.(tails := moved, closeOnce := true)
    else if PastCloseOnce(t) then c.(tails := moved, closings := c.closings + 1)
    else c.(tails := moved, life := Signalled(c.life, t))
  }

  ghost predicate TailStep(s: Conn, s': Conn, j: nat) {
    && j < |s.ctl.tails| && !TailDone(s.ctl.tails[j])
    && s' == s.(ctl := AdvanceTail(s.ctl, j),
                gate := if AtCloseOnce(s.ctl.tails[j]) && !s.ctl.closeOnce then Shut(s.gate) else s.gate)
  }

  // ------------------------------------------------------------- callers

  function GoalOf(kind: Kind): Goal {
    if kind == CloseWriteCall then GoalWrite else GoalFull
  }

  function CountOwner(c: Control, kind: Kind): Control {
    if kind == CloseWriteCall then c.(writeOwners := c.writeOwners + 1) else c.(fullOwners := c.fullOwners + 1)
  }

  ghost predicate CallerStep(s: Conn, s': Conn, i: nat) {
    i < |s.callers| &&
    var l := s.ctl.life;
    match s.callers[i]
    case Asked(kind) =>
      var ownsWrite := l.goal == GoalRunning;
      if RequestWins(l, GoalOf(kind)) then
        s' == s.(ctl := CountOwner(s.ctl.(life := Request(l, GoalOf(kind))), kind))
               .Answer(i, SignalWrite(kind, ownsWrite))
      else
        s' == s.Answer(i, AwaitWrite(kind, false, ownsWrite))
    case SignalWrite(kind, ownsWrite) =>
      s' == s.WithLife(l.(writeReq := true))
             .Answer(i, if kind == ShutdownCall then SignalFull(ownsWrite) else SealGate(kind, ownsWrite))
    case SignalFull(ownsWrite) =>
      s' == s.WithLife(l.(fullReq := true)).Answer(i, SealGate(ShutdownCall, ownsWrite))
    case SealGate(kind, ownsWrite) =>
      s' == s.(gate := Shut(s.gate)).Answer(i, AwaitWrite(kind, true, ownsWrite))
    case AwaitWrite(kind, owner, ownsWrite) =>
      || (l.writeCh && s' == s.Answer(i, if kind == CloseWriteCall then ReadErr(kind) else AwaitDone(owner)))
      || (l.abortCh && s' == s.Answer(i, ReadErr(kind)))
      || (var aborts := owner && (kind == CloseWriteCall || ownsWrite);
          s' == s.Answer(i, if aborts then WantAbort(CallerGone, None) else Answered(kind, false)))
    case AwaitDone(owner) =>
      || (s.ctl.done && s' == s.Answer(i, ReadErr(ShutdownCall)))
      || (l.abortCh && s' == s.Answer(i, ReadErr(ShutdownCall)))
      || s' == s.Answer(i, if owner then WantAbort(CallerGone, None) else Answered(ShutdownCall, false))
    case ReadErr(kind) =>
      s' == s.Answer(i, if l.err.Some? then Answered(kind, false) else ReadReason(kind))
    case ReadReason(kind) =>
      s' == s.Answer(i, Answered(kind, l.why == NoAbort))
    case CloseAsked =>
      s' == s.Answer(i, if s.ctl.done then Gone else WantAbort(Explicit, None))
    case WantAbort(reason, cause) =>
      s' == s.AbortEntry(reason, cause).Answer(i, if Ended(l) then Gone else InAbort(|s.ctl.tails|))
    case InAbort(tail) =>
      s.TailFinished(tail) && s' == s.Answer(i, Gone)
    case Answered(_, _) => false
    case Gone => false
  }

  // ----------------------------------------------------------- finalizer

  ghost predicate FinalizerStep(s: Conn, s': Conn) {
    match s.finalizer
    case Waiting =>
      s.writer == Stopped && s.reader == ReaderStopped && s' == s.(finalizer := CheckTerminal)
    case CheckTerminal =>
      s' == s.(finalizer := if s.ctl.life.termCh then CallingOnClose else CheckClosing)
    case CheckClosing =>
      s' == s.(finalizer := if s.Closing() then ForceMark else FinalAbort)
    case FinalAbort =>
      s' == s.AbortEntry(Failure, None)
             .(finalizer := if Ended(s.ctl.life) then ForceMark else FinalAborting(|s.ctl.tails|))
    case FinalAborting(tail) =>
      s.TailFinished(tail) && s' == s.(finalizer := ForceMark)
    case ForceMark =>
      s' == s.WithLife(ForceTerminal(s.ctl.life)).(finalizer := MarkRead)
    case MarkRead =>
      s' == s.WithLife(s.ctl.life.(readCh := true)).(finalizer := MarkWritten)
    case MarkWritten =>
      s' == s.WithLife(s.ctl.life.(writeCh := true)).(finalizer := MarkTerm)
    case MarkTerm =>
      s' == s.WithLife(s.ctl.life.(termCh := true)).(finalizer := CallingOnClose)
    case CallingOnClose =>
      s' == s.(ctl := s.ctl.(onCloseReturned := true), finalizer := CloseDone)
    case CloseDone =>
      s' == s.(ctl := s.ctl.(done := true), finalizer := Finalized)
    case Finalized => false
  }

  /** New calls start at any time. */
  ghost predicate Spawn(s: Conn, s': Conn) {
    || (exists job :: s' == s.(senders := s.senders + [Calling(job)]))
    || (exists kind :: s' == s.(callers := s.callers + [Asked(kind)]))
    || s' == s.(callers := s.callers + [CloseAsked])
    || (exists cause :: s' == s.(callers := s.callers + [WantAbort(Failure, cause)]))
  }

  ghost predicate Next(s: Conn, s': Conn) {
    || Spawn(s, s')
    || (exists i :: SenderStep(s, s', i))
    || WriterStep(s, s')
    || ReaderStep(s, s')
    || (exists j :: TailStep(s, s', j))
    || (exists i :: CallerStep(s, s', i))
    || FinalizerStep(s, s')
  }
}
