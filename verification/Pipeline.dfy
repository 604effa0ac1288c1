/**
 What every interleaving keeps of the send pipeline: the gate counts the sends inside it, every slot,
 encoder and quota byte has a holder, frames leave in the order they were accepted, and each accepted
 `Send` is acknowledged exactly once.
 */
module Pipeline {
  import opened Bytes
  import opened Counting
  import opened Gate
  import opened Session

  // -------------------------------------------------------------- tokens

  function Inside(x: Sender): int {
    if x.Calling? || x.Returned? then 0 else 1
  }

  function Slot(x: Sender): int {
    if x.Calling? || x.Entered? || x.AwaitAck? || x.Leaving? || x.Returned? then 0 else 1
  }

  function Encoder(x: Sender): int {
    if x.EncoderTaken? || x.EncoderHeld? || x.Encoded? || x.LocalQuota? || x.BothQuotas? || x.RollBack?
        || x.DropEncoder?
    then 1 else 0
  }

  function HeldBytes(x: Sender): int {
    if x.LocalQuota? || x.BothQuotas? || x.RollBack? || x.Prepared? || x.DropQuota? then |x.frame| else 0
  }

  /** An encoded frame in library memory that no quota covers yet. */
  function Uncovered(x: Sender): int { if x.Encoded? then 1 else 0 }

  function FrameBytes(r: Outbound): int { |r.frame| }

  function WriterSlot(w: Writer): int {
    if w.Writing? || w.Wrote? || w.QuotaBack? || w.SweepQuota? || w.SweepSlot? then 1 else 0
  }

  function WriterBytes(w: Writer): int {
    if w.Writing? || w.Wrote? || w.SweepQuota? then |w.req.frame| else 0
  }

  ghost predicate TokenInv(s: Conn) {
    && Tracks(s.gate, Sum(Inside, s.senders))
    && s.pipe.slots == Sum(Slot, s.senders) + |s.pipe.queue| + WriterSlot(s.writer)
    && s.pipe.encoders == Sum(Encoder, s.senders)
    && s.pipe.used == Sum(HeldBytes, s.senders) + Sum(FrameBytes, s.pipe.queue) + WriterBytes(s.writer)
    && s.pipe.slots <= s.cfg.queueCap + 1 && s.pipe.encoders <= 1
    && |s.pipe.queue| <= s.cfg.queueCap && s.pipe.used <= s.cfg.byteLimit
  }

  lemma {:induction false} SenderMoves(senders: seq<Sender>, i: nat, to: Sender)
    requires i < |senders|
    ensures Sum(Inside, senders[i := to]) == Sum(Inside, senders) - Inside(senders[i]) + Inside(to)
    ensures Sum(Slot, senders[i := to]) == Sum(Slot, senders) - Slot(senders[i]) + Slot(to)
    ensures Sum(Encoder, senders[i := to]) == Sum(Encoder, senders) - Encoder(senders[i]) + Encoder(to)
    ensures Sum(HeldBytes, senders[i := to]) == Sum(HeldBytes, senders) - HeldBytes(senders[i]) + HeldBytes(to)
    ensures Sum(Inside, senders) >= Inside(senders[i]) && Sum(Slot, senders) >= Slot(senders[i])
    ensures Sum(Encoder, senders) >= Encoder(senders[i]) && Sum(HeldBytes, senders) >= HeldBytes(senders[i])
  {
    SumUpdate(Inside, senders, i, to);
    SumUpdate(Slot, senders, i, to);
    SumUpdate(Encoder, senders, i, to);
    SumUpdate(HeldBytes, senders, i, to);
    SumAtLeast(Inside, senders, i);
    SumAtLeast(Slot, senders, i);
    SumAtLeast(Encoder, senders, i);
    SumAtLeast(HeldBytes, senders, i);
  }

  lemma {:induction false} NonNegativeTokens(s: Conn)
    ensures Sum(Slot, s.senders) >= 0 && Sum(HeldBytes, s.senders) >= 0 && Sum(FrameBytes, s.pipe.queue) >= 0
    ensures Sum(Inside, s.senders) >= 0 && Sum(Encoder, s.senders) >= 0
  {
    SumNonNegative(Slot, s.senders);
    SumNonNegative(HeldBytes, s.senders);
    SumNonNegative(FrameBytes, s.pipe.queue);
    SumNonNegative(Inside, s.senders);
    SumNonNegative(Encoder, s.senders);
  }

  /** What one sender step does to the tokens, without saying how many there are. */
  ghost predicate SenderMoved(s: Conn, s': Conn, i: nat, to: Sender) {
    && i < |s.senders| && s'.senders == s.senders[i := to] && s'.writer == s.writer && s'.cfg == s.cfg
    && var from, p, p' := s.senders[i], s.pipe, s'.pipe;
    && p'.slots - |p'.queue| - Slot(to) == p.slots - |p.queue| - Slot(from)
    && p'.encoders - Encoder(to) == p.encoders - Encoder(from)
    && (p'.slots <= p.slots || p'.slots <= s.cfg.queueCap + 1) && (p'.encoders <= p.encoders || p'.encoders <= 1)
    && (p'.used <= p.used || p'.used <= s.cfg.byteLimit)
    && (s'.gate ==
        if Inside(to) > Inside(from) then Enter(s.gate)
        else if Inside(to) < Inside(from) then Leave(s.gate)
        else s.gate)
    && (Inside(to) > Inside(from) ==> !s.gate.closed)
    && (p'.queue == p.queue
        || (|p.queue| < s.cfg.queueCap
            && exists r :: p'.queue == p.queue + [r] && |r.frame| == HeldBytes(from) - HeldBytes(to)))
    && (p.used >= HeldBytes(from) ==>
          p'.used - HeldBytes(to) == p.used - HeldBytes(from) +
              (if p'.queue == p.queue then 0 else HeldBytes(from) - HeldBytes(to)))
  }

  lemma {:induction false} CallingMoves(s: Conn, s': Conn, i: nat)
    requires SenderStep(s, s', i) && (s.senders[i].Calling?)
    ensures i < |s'.senders| && SenderMoved(s, s', i, s'.senders[i])
  {
  }

  lemma {:induction false} EnteredMoves(s: Conn, s': Conn, i: nat)
    requires SenderStep(s, s', i) && (s.senders[i].Entered?)
    ensures i < |s'.senders| && SenderMoved(s, s', i, s'.senders[i])
  {
  }

  lemma {:induction false} SlotHeldMoves(s: Conn, s': Conn, i: nat)
    requires SenderStep(s, s', i) && (s.senders[i].SlotHeld?)
    ensures i < |s'.senders| && SenderMoved(s, s', i, s'.senders[i])
  {
  }

  lemma {:induction false} EncoderHoldingMoves(s: Conn, s': Conn, i: nat)
    requires SenderStep(s, s', i) && (s.senders[i].EncoderTaken? || s.senders[i].EncoderHeld?)
    ensures i < |s'.senders| && SenderMoved(s, s', i, s'.senders[i])
  {
  }

  lemma {:induction false} EncodedFrameMoves(s: Conn, s': Conn, i: nat)
    requires SenderStep(s, s', i) && (s.senders[i].Encoded? || s.senders[i].LocalQuota?)
    ensures i < |s'.senders| && SenderMoved(s, s', i, s'.senders[i])
  {
  }

  lemma {:induction false} QuotaHoldingMoves(s: Conn, s': Conn, i: nat)
    requires SenderStep(s, s', i) && (s.senders[i].BothQuotas? || s.senders[i].RollBack? || s.senders[i].DropQuota?)
    ensures i < |s'.senders| && SenderMoved(s, s', i, s'.senders[i])
  {
  }

  lemma {:induction false} DroppingMoves(s: Conn, s': Conn, i: nat)
    requires SenderStep(s, s', i) && (s.senders[i].DropEncoder? || s.senders[i].DropSlot?)
    ensures i < |s'.senders| && SenderMoved(s, s', i, s'.senders[i])
  {
  }

  lemma {:induction false} DepartingMoves(s: Conn, s': Conn, i: nat)
    requires SenderStep(s, s', i) && (s.senders[i].AwaitAck? || s.senders[i].Leaving?)
    ensures i < |s'.senders| && SenderMoved(s, s', i, s'.senders[i])
  {
  }

  lemma {:induction false} PreparedMoves(s: Conn, s': Conn, i: nat)
    requires SenderStep(s, s', i) && s.senders[i].Prepared?
    ensures i < |s'.senders| && SenderMoved(s, s', i, s'.senders[i])
  {
    var q, q' := s.pipe.queue, s'.pipe.queue;
    if q' != q {
      assert q' == q + [q'[|q|]];
    }
  }

  lemma {:induction false} AnySenderMoves(s: Conn, s': Conn, i: nat)
    requires SenderStep(s, s', i)
    ensures i < |s'.senders| && SenderMoved(s, s', i, s'.senders[i])
  {
    match s.senders[i] {
      case Calling(_) => CallingMoves(s, s', i);
      case Entered(_) => EnteredMoves(s, s', i);
      case SlotHeld(_) => SlotHeldMoves(s, s', i);
      case EncoderTaken(_) => EncoderHoldingMoves(s, s', i);
      case EncoderHeld(_) => EncoderHoldingMoves(s, s', i);
      case Encoded(_, _) => EncodedFrameMoves(s, s', i);
      case LocalQuota(_, _) => EncodedFrameMoves(s, s', i);
      case BothQuotas(_, _) => QuotaHoldingMoves(s, s', i);
      case RollBack(_) => QuotaHoldingMoves(s, s', i);
      case DropQuota(_) => QuotaHoldingMoves(s, s', i);
      case DropEncoder => DroppingMoves(s, s', i);
      case DropSlot => DroppingMoves(s, s', i);
      case Prepared(_, _) => PreparedMoves(s, s', i);
      case AwaitAck(_, _) => DepartingMoves(s, s', i);
      case Leaving(_) => DepartingMoves(s, s', i);
    }
  }

  lemma {:induction false} MovedKeepsTokens(s: Conn, s': Conn, i: nat, to: Sender)
    requires TokenInv(s) && SenderMoved(s, s', i, to)
    ensures TokenInv(s')
  {
    NonNegativeTokens(s);
    SenderMoves(s.senders, i, to);
    GateSteps(s.gate, Sum(Inside, s.senders));
    if s'.pipe.queue != s.pipe.queue {
      var r :| s'.pipe.queue == s.pipe.queue + [r] && |r.frame| == HeldBytes(s.senders[i]) - HeldBytes(to);
      SumAppend(FrameBytes, s.pipe.queue, r);
    }
  }

  /** What one writer step does to the tokens. */
  ghost predicate WriterMoved(s: Conn, s': Conn) {
    && s'.senders == s.senders && s'.cfg == s.cfg && s'.gate == s.gate
    && var w, w', p, p' := s.writer, s'.writer, s.pipe, s'.pipe;
    && p'.encoders == p.encoders
    && p'.slots - |p'.queue| - WriterSlot(w') == p.slots - |p.queue| - WriterSlot(w) && p'.slots <= p.slots
    && (|| p'.queue == p.queue
        || (p.queue != [] && p'.queue == p.queue[1..] && WriterBytes(w') == |p.queue[0].frame| && WriterBytes(w) == 0))
    && WriterBytes(w') <= WriterBytes(w) + (if p'.queue == p.queue then 0 else |p.queue[0].frame|)
    && (p.used >= WriterBytes(w) ==>
          p'.used == p.used - (if p'.queue == p.queue then WriterBytes(w) - WriterBytes(w') else 0))
  }

  lemma {:induction false} SelectingWriterMoves(s: Conn, s': Conn)
    requires WriterStep(s, s') && (s.writer.Select? || s.writer.Sweep? || s.writer.Exit?)
    ensures WriterMoved(s, s')
  {
  }

  lemma {:induction false} WritingWriterMoves(s: Conn, s': Conn)
    requires WriterStep(s, s') && (s.writer.Writing? || s.writer.Wrote? || s.writer.QuotaBack? || s.writer.SlotBack?)
    ensures WriterMoved(s, s')
  {
  }

  lemma {:induction false} SweepingWriterMoves(s: Conn, s': Conn)
    requires WriterStep(s, s')
    requires s.writer.SweepQuota? || s.writer.SweepSlot? || s.writer.SweepAck? || s.writer.FailAborting?
        || s.writer.FailAck?
    ensures WriterMoved(s, s')
  {
  }

  predicate AtTheEnd(w: Writer) {
    || w.CloseProtocol? || w.MarkWrite? || w.TestRead? || w.TestWrite? || w.TryFinish? || w.Finishing?
    || w.CloseFailed? || w.CloseAborting?
  }

  lemma {:induction false} EndingWriterMoves(s: Conn, s': Conn)
    requires WriterStep(s, s') && AtTheEnd(s.writer)
    ensures WriterMoved(s, s') && s'.pipe == s.pipe.(protocolClosed := s'.pipe.protocolClosed)
  {
  }

  lemma {:induction false} AnyWriterMoves(s: Conn, s': Conn)
    requires WriterStep(s, s')
    ensures WriterMoved(s, s')
  {
    var w := s.writer;
    if w.Select? || w.Sweep? || w.Exit? {
      SelectingWriterMoves(s, s');
    } else if w.Writing? || w.Wrote? || w.QuotaBack? || w.SlotBack? {
      WritingWriterMoves(s, s');
    } else if AtTheEnd(w) {
      EndingWriterMoves(s, s');
    } else {
      SweepingWriterMoves(s, s');
    }
  }

  lemma {:induction false} WriterKeepsTokens(s: Conn, s': Conn)
    requires TokenInv(s) && WriterMoved(s, s')
    ensures TokenInv(s')
  {
    NonNegativeTokens(s);
    NonNegativeTokens(s');
  }

  // ------------------------------------ steps that leave the pipeline alone

  ghost predicate PipelineUntouched(s: Conn, s': Conn) {
    && s'.senders == s.senders && s'.pipe == s.pipe && s'.cfg == s.cfg && s'.writer == s.writer
    && (s'.gate == s.gate || s'.gate == Shut(s.gate))
  }

  lemma {:induction false} ReaderFrame(s: Conn, s': Conn)
    requires ReaderStep(s, s')
    ensures PipelineUntouched(s, s')
  {
  }

  lemma {:induction false} TailFrame(s: Conn, s': Conn, j: nat)
    requires TailStep(s, s', j)
    ensures PipelineUntouched(s, s')
  {
  }

  lemma {:induction false} CallerFrame(s: Conn, s': Conn, i: nat)
    requires CallerStep(s, s', i)
    ensures PipelineUntouched(s, s')
  {
  }

  lemma {:induction false} FinalizerFrame(s: Conn, s': Conn)
    requires FinalizerStep(s, s')
    ensures PipelineUntouched(s, s')
  {
  }

  lemma {:induction false} UntouchedKeepsTokens(s: Conn, s': Conn)
    requires TokenInv(s) && PipelineUntouched(s, s')
    ensures TokenInv(s')
  {
    GateSteps(s.gate, Sum(Inside, s.senders));
  }

  lemma {:induction false} SpawnKeepsTokens(s: Conn, s': Conn)
    requires TokenInv(s) && Spawn(s, s')
    ensures TokenInv(s')
  {
    if s'.senders != s.senders {
      var job :| s' == s.(senders := s.senders + [Calling(job)]);
      SumAppend(Inside, s.senders, Calling(job));
      SumAppend(Slot, s.senders, Calling(job));
      SumAppend(Encoder, s.senders, Calling(job));
      SumAppend(HeldBytes, s.senders, Calling(job));
    }
  }


  // ------------------------------------------------- order and acknowledgement

  /** The frames of accepted sends, one after the other. */
  function Frames(reqs: seq<Outbound>): ByteString {
    if reqs == [] then [] else Frames(reqs[..|reqs| - 1]) + reqs[|reqs| - 1].frame
  }

  lemma {:induction false} FramesAppend(reqs: seq<Outbound>, r: Outbound)
    ensures Frames(reqs + [r]) == Frames(reqs) + r.frame
  {
    assert (reqs + [r])[..|reqs|] == reqs;
  }

  lemma {:induction false} FramesPrefix(reqs: seq<Outbound>, k: nat)
    requires k <= |reqs|
    ensures Frames(reqs[..k]) <= Frames(reqs)
  {
    if k < |reqs| {
      var front := reqs[..|reqs| - 1];
      FramesPrefix(front, k);
      assert front[..k] == reqs[..k];
    } else {
      assert reqs[..k] == reqs;
    }
  }

  /** The send the writer is busy with. */
  predicate Busy(w: Writer) {
    || w.Writing? || w.Wrote? || w.QuotaBack? || w.SlotBack? || w.FailAborting? || w.FailAck?
    || w.SweepQuota? || w.SweepSlot? || w.SweepAck?
  }

  function Head(p: Pipe): int { |p.enqueued| - |p.queue| }

  /** How many accepted sends are completely dealt with. */
  function Settled(p: Pipe, w: Writer): int { Head(p) - if Busy(w) then 1 else 0 }

  /** The writer has not met an error. */
  predicate Healthy(w: Writer) {
    w.Select? || ((w.Wrote? || w.QuotaBack? || w.SlotBack?) && w.ok) || AtTheEnd(w)
  }

  /** The queue is the tail, the written sends a prefix, of everything accepted. */
  ghost predicate Slices(p: Pipe) {
    && 0 <= Head(p) && p.queue == p.enqueued[Head(p)..]
    && |p.written| <= Head(p) && p.written == p.enqueued[..|p.written|]
    && p.wire <= Frames(p.enqueued)
  }

  ghost predicate Encodings(cfg: Config, enqueued: seq<Outbound>) {
    forall k :: 0 <= k < |enqueued| ==>
      enqueued[k].ticket == k && cfg.valid(enqueued[k].msg) && cfg.encodes(enqueued[k].msg, enqueued[k].frame)
  }

  /** What the writer has in hand, and how much of it is on the wire. */
  ghost predicate InHand(p: Pipe, w: Writer) {
    && (Busy(w) ==> 0 < Head(p) && w.req == p.enqueued[Head(p) - 1])
    && (Healthy(w) ==> |p.written| == Head(p) && p.wire == Frames(p.written))
    && (Busy(w) && !Healthy(w) ==> |p.written| < Head(p))
    && (w.Writing? ==> |p.written| == Head(p) - 1 && w.sent <= |w.req.frame|
                       && p.wire == Frames(p.written) + w.req.frame[..w.sent])
  }

  ghost predicate OrderInv(cfg: Config, p: Pipe, w: Writer) {
    Slices(p) && Encodings(cfg, p.enqueued) && InHand(p, w)
  }

  ghost predicate AckInv(p: Pipe, w: Writer) {
    && |p.acks| == |p.ackSends| == |p.enqueued|
    && (forall k :: 0 <= k < |p.enqueued| ==>
          p.ackSends[k] == if k < Settled(p, w) && p.enqueued[k].blocking then 1 else 0)
    && (forall k :: 0 <= k < |p.enqueued| ==> |p.acks[k]| <= p.ackSends[k])
    && (forall k :: 0 <= k < |p.enqueued| && p.acks[k] != [] ==> (p.acks[k][0] <==> k < |p.written|))
  }

  ghost predicate SenderOk(cfg: Config, p: Pipe, x: Sender) {
    match x
    case SlotHeld(job) => cfg.valid(job.msg)
    case EncoderTaken(job) => cfg.valid(job.msg)
    case EncoderHeld(job) => cfg.valid(job.msg)
    case Encoded(job, frame) => cfg.valid(job.msg) && cfg.encodes(job.msg, frame)
    case LocalQuota(job, frame) => cfg.valid(job.msg) && cfg.encodes(job.msg, frame)
    case BothQuotas(job, frame) => cfg.valid(job.msg) && cfg.encodes(job.msg, frame)
    case Prepared(job, frame) => cfg.valid(job.msg) && cfg.encodes(job.msg, frame)
    case AwaitAck(m, t) => t < |p.enqueued| && p.enqueued[t].msg == m && p.enqueued[t].blocking
    case Leaving(out) => OutcomeOk(p, out)
    case Returned(out) => OutcomeOk(p, out)
    case _ => true
  }

  /** Nil from `Send` means its message was written in full, nil from `TrySend` that it was accepted. */
  ghost predicate OutcomeOk(p: Pipe, out: Outcome) {
    match out
    case Refused => true
    case Accepted(m, t) => t < |p.enqueued| && p.enqueued[t].msg == m
    case Sent(m, t) => t < |p.written| && t < |p.enqueued| && p.enqueued[t].msg == m
  }

  ghost predicate SendersOk(s: Conn) {
    forall i :: 0 <= i < |s.senders| ==> SenderOk(s.cfg, s.pipe, s.senders[i])
  }

  predicate InDrainLoop(w: Writer) {
    (w.Select? || w.Writing? || w.Wrote? || w.QuotaBack? || w.SlotBack?) && w.mode == Draining
  }

  predicate Sweeping(w: Writer) {
    w.Sweep? || w.SweepQuota? || w.SweepSlot? || w.SweepAck? || w.Stopped?
  }

  /** Every accepted frame is on the wire, in order and complete. */
  ghost predicate AllWritten(p: Pipe) {
    p.queue == [] && |p.written| == |p.enqueued| && p.wire == Frames(p.enqueued)
  }

  ghost predicate DrainInv(s: Conn) {
    && (InDrainLoop(s.writer) ==> s.gate.Drained())
    && (AtTheEnd(s.writer) ==> s.gate.Drained() && s.pipe.queue == [])
    && (Sweeping(s.writer) ==> s.gate.Drained())
    && (s.writer.Stopped? ==> s.pipe.queue == [])
    && (s.pipe.protocolClosed ==> s.gate.Drained() && AllWritten(s.pipe))
    && (s.pipe.protocolClosed <==> AfterProtocolClose(s.writer, s.pipe))
  }

  /** Where the writer can be once the protocol write side is closed. */
  ghost predicate AfterProtocolClose(w: Writer, p: Pipe) {
    || w.MarkWrite? || w.TestRead? || w.TestWrite? || w.TryFinish? || w.Finishing?
    || (p.protocolClosed && (w.Exit? || w.Sweep? || w.Stopped?))
  }

  ghost predicate PipeInv(s: Conn) {
    TokenInv(s) && OrderInv(s.cfg, s.pipe, s.writer) && AckInv(s.pipe, s.writer) && SendersOk(s) && DrainInv(s)
  }

  // ------------------------------------------------------- sender steps

  ghost predicate SameHistory(p: Pipe, p': Pipe) {
    && p'.queue == p.queue && p'.enqueued == p.enqueued && p'.written == p.written && p'.wire == p.wire
    && p'.acks == p.acks && p'.ackSends == p.ackSends && p'.protocolClosed == p.protocolClosed
  }

  /** Steps before the queue change no history, and keep the frame an encoding of its message. */
  lemma {:induction false} QuietEarly(s: Conn, s': Conn, i: nat)
    requires SenderStep(s, s', i) && SenderOk(s.cfg, s.pipe, s.senders[i])
    requires s.senders[i].Calling? || s.senders[i].Entered? || s.senders[i].SlotHeld? || s.senders[i].EncoderTaken?
             || s.senders[i].EncoderHeld?
    ensures SameHistory(s.pipe, s'.pipe) && i < |s'.senders| && SenderOk(s.cfg, s.pipe, s'.senders[i])
  {
  }

  lemma {:induction false} QuietLate(s: Conn, s': Conn, i: nat)
    requires SenderStep(s, s', i) && SenderOk(s.cfg, s.pipe, s.senders[i])
    requires s.senders[i].Encoded? || s.senders[i].LocalQuota? || s.senders[i].BothQuotas? || s.senders[i].RollBack?
             || s.senders[i].DropQuota? || s.senders[i].DropEncoder? || s.senders[i].DropSlot? || s.senders[i].Leaving?
    ensures SameHistory(s.pipe, s'.pipe) && i < |s'.senders| && SenderOk(s.cfg, s.pipe, s'.senders[i])
  {
  }

  ghost predicate IsEnqueue(p: Pipe, p': Pipe, r: Outbound) {
    r.ticket == |p.enqueued|
    && p' == p.(queue := p.queue + [r], enqueued := p.enqueued + [r], acks := p.acks + [[]],
        ackSends := p.ackSends + [0])
  }

  lemma {:induction false} EnqueueKeepsSlices(p: Pipe, p': Pipe, r: Outbound)
    requires IsEnqueue(p, p', r) && Slices(p)
    ensures Slices(p')
  {
    FramesAppend(p.enqueued, r);
  }

  lemma {:induction false} EnqueueKeepsHand(p: Pipe, p': Pipe, w: Writer, r: Outbound)
    requires IsEnqueue(p, p', r) && InHand(p, w)
    ensures InHand(p', w)
  {
  }

  lemma {:induction false} EnqueueKeepsEncodings(cfg: Config, enqueued: seq<Outbound>, r: Outbound)
    requires Encodings(cfg, enqueued) && r.ticket == |enqueued| && cfg.valid(r.msg) && cfg.encodes(r.msg, r.frame)
    ensures Encodings(cfg, enqueued + [r])
  {
  }

  lemma {:induction false} EnqueueKeepsOrder(cfg: Config, p: Pipe, p': Pipe, w: Writer, r: Outbound)
    requires OrderInv(cfg, p, w) && IsEnqueue(p, p', r) && cfg.valid(r.msg) && cfg.encodes(r.msg, r.frame)
    ensures OrderInv(cfg, p', w)
  {
    EnqueueKeepsSlices(p, p', r);
    EnqueueKeepsHand(p, p', w, r);
    EnqueueKeepsEncodings(cfg, p.enqueued, r);
  }

  lemma {:induction false} EnqueueKeepsAcks(p: Pipe, p': Pipe, w: Writer, r: Outbound)
    requires AckInv(p, w) && IsEnqueue(p, p', r) && 0 <= Head(p)
    ensures AckInv(p', w)
  {
  }

  lemma {:induction false} AckTakenKeepsAcks(p: Pipe, p': Pipe, w: Writer, t: nat)
    requires AckInv(p, w) && t < |p.acks| && p.acks[t] != [] && p' == p.(acks := p.acks[t := p.acks[t][1..]])
    ensures AckInv(p', w)
  {
    assert |p.acks[t]| == 1;
  }

  lemma {:induction false} SendersStayOk(s: Conn, s': Conn, i: nat)
    requires SendersOk(s) && i < |s.senders| && |s'.senders| == |s.senders| && s'.cfg == s.cfg
    requires s'.senders == s.senders[i := s'.senders[i]] && SenderOk(s.cfg, s'.pipe, s'.senders[i])
    requires s.pipe.enqueued <= s'.pipe.enqueued && |s.pipe.written| <= |s'.pipe.written|
    ensures SendersOk(s')
  {
    forall k | 0 <= k < |s'.senders|
      ensures SenderOk(s.cfg, s'.pipe, s'.senders[k])
    {
      if k != i {
        assert SenderOk(s.cfg, s.pipe, s.senders[k]);
      }
    }
  }

  /** Nobody is inside a drained gate, so a sender can only be turned away. */
  lemma {:induction false} DrainedTurnsAway(s: Conn, s': Conn, i: nat)
    requires TokenInv(s) && s.gate.Drained() && SenderStep(s, s', i)
    ensures s.senders[i].Calling? && s'.pipe == s.pipe && s'.gate == s.gate
  {
    SumAtLeast(Inside, s.senders, i);
  }

  /** The parts of a sender step the history invariants need. */
  lemma {:induction false} SenderKeepsHistory(s: Conn, s': Conn, i: nat)
    requires OrderInv(s.cfg, s.pipe, s.writer) && AckInv(s.pipe, s.writer) && SendersOk(s)
    requires SenderStep(s, s', i) && SenderMoved(s, s', i, s'.senders[i])
    ensures OrderInv(s'.cfg, s'.pipe, s'.writer) && AckInv(s'.pipe, s'.writer) && SendersOk(s')
  {
    assert SenderOk(s.cfg, s.pipe, s.senders[i]);
    var x := s.senders[i];
    if x.Prepared? {
      PreparedKeepsHistory(s, s', i);
    } else if x.AwaitAck? {
      AwaitingKeepsHistory(s, s', i);
    } else {
      if x.Calling? || x.Entered? || x.SlotHeld? || x.EncoderTaken? || x.EncoderHeld? {
        QuietEarly(s, s', i);
      } else {
        QuietLate(s, s', i);
      }
      QuietKeepsHistory(s, s', i);
    }
  }

  lemma {:induction false} QuietKeepsHistory(s: Conn, s': Conn, i: nat)
    requires OrderInv(s.cfg, s.pipe, s.writer) && AckInv(s.pipe, s.writer) && SendersOk(s)
    requires i < |s'.senders| && SenderMoved(s, s', i, s'.senders[i])
    requires SameHistory(s.pipe, s'.pipe) && SenderOk(s.cfg, s.pipe, s'.senders[i])
    ensures OrderInv(s'.cfg, s'.pipe, s'.writer) && AckInv(s'.pipe, s'.writer) && SendersOk(s')
  {
    SendersStayOk(s, s', i);
  }

  lemma {:induction false} PreparedKeepsHistory(s: Conn, s': Conn, i: nat)
    requires OrderInv(s.cfg, s.pipe, s.writer) && AckInv(s.pipe, s.writer) && SendersOk(s)
    requires SenderStep(s, s', i) && SenderMoved(s, s', i, s'.senders[i]) && s.senders[i].Prepared?
    ensures OrderInv(s'.cfg, s'.pipe, s'.writer) && AckInv(s'.pipe, s'.writer) && SendersOk(s')
  {
    var job, frame := s.senders[i].job, s.senders[i].frame;
    assert SenderOk(s.cfg, s.pipe, s.senders[i]);
    if s'.pipe != s.pipe {
      var r := Outbound(EnqueueTicket(s), job.msg, frame, job.blocking);
      EnqueueKeepsOrder(s.cfg, s.pipe, s'.pipe, s.writer, r);
      EnqueueKeepsAcks(s.pipe, s'.pipe, s.writer, r);
    }
    SendersStayOk(s, s', i);
  }

  lemma {:induction false} AcksAreNotOrder(cfg: Config, p: Pipe, p': Pipe, w: Writer)
    requires OrderInv(cfg, p, w) && p' == p.(acks := p'.acks)
    ensures OrderInv(cfg, p', w)
  {
  }

  lemma {:induction false} AwaitingKeepsHistory(s: Conn, s': Conn, i: nat)
    requires OrderInv(s.cfg, s.pipe, s.writer) && AckInv(s.pipe, s.writer) && SendersOk(s)
    requires SenderStep(s, s', i) && SenderMoved(s, s', i, s'.senders[i]) && s.senders[i].AwaitAck?
    ensures OrderInv(s'.cfg, s'.pipe, s'.writer) && AckInv(s'.pipe, s'.writer) && SendersOk(s')
  {
    if s'.pipe != s.pipe {
      AckTakenKeepsAcks(s.pipe, s'.pipe, s.writer, s.senders[i].ticket);
      AcksAreNotOrder(s.cfg, s.pipe, s'.pipe, s.writer);
    }
    SendersStayOk(s, s', i);
  }

  lemma {:induction false} SenderKeepsDrain(s: Conn, s': Conn, i: nat)
    requires TokenInv(s) && DrainInv(s) && SenderStep(s, s', i) && SenderMoved(s, s', i, s'.senders[i])
    ensures DrainInv(s')
  {
    if s.gate.Drained() {
      DrainedTurnsAway(s, s', i);
    }
  }

  lemma {:induction false} SenderKeepsPipe(s: Conn, s': Conn, i: nat)
    requires PipeInv(s) && SenderStep(s, s', i)
    ensures PipeInv(s')
  {
    AnySenderMoves(s, s', i);
    MovedKeepsTokens(s, s', i, s'.senders[i]);
    SenderKeepsHistory(s, s', i);
    SenderKeepsDrain(s, s', i);
  }

  // -------------------------------------------------------- writer steps

  lemma {:induction false} WriterSendersOk(s: Conn, s': Conn)
    requires SendersOk(s) && s'.senders == s.senders && s'.cfg == s.cfg
    requires s.pipe.enqueued == s'.pipe.enqueued && |s.pipe.written| <= |s'.pipe.written|
    ensures SendersOk(s')
  {
    forall k | 0 <= k < |s'.senders|
      ensures SenderOk(s.cfg, s'.pipe, s'.senders[k])
    {
      assert SenderOk(s.cfg, s.pipe, s.senders[k]);
    }
  }

  ghost predicate HistoryInv(s: Conn) {
    OrderInv(s.cfg, s.pipe, s.writer) && AckInv(s.pipe, s.writer)
  }

  /** Taking the next send off the queue. */
  lemma {:induction false} DequeueKeepsHistory(cfg: Config, p: Pipe, w: Writer, w': Writer)
    requires OrderInv(cfg, p, w) && AckInv(p, w) && p.queue != [] && !Busy(w)
    requires Busy(w') && w'.req == p.queue[0] && !Healthy(w')
    requires w'.Writing? ==> Healthy(w) && w'.sent == 0
    ensures var p' := p.(queue := p.queue[1..]);
            OrderInv(cfg, p', w') && AckInv(p', w')
  {
    var p' := p.(queue := p.queue[1..]);
    assert p'.queue == p'.enqueued[Head(p')..];
    assert p.queue[0] == p.enqueued[Head(p)];
    if w'.Writing? {
      assert w'.req.frame[..0] == [];
      assert Frames(p.written) + [] == Frames(p.written);
    }
  }

  /** A step that leaves the history alone and keeps the same send in hand, if any. */
  ghost predicate QuietWriter(p: Pipe, p': Pipe, w: Writer, w': Writer) {
    && SameHistory(p, p'.(protocolClosed := p.protocolClosed))
    && Busy(w') == Busy(w) && (Busy(w) ==> w'.req == w.req)
    && (Healthy(w') ==> Healthy(w)) && (Busy(w) && Healthy(w) ==> Healthy(w')) && !w'.Writing?
  }

  lemma {:induction false} QuietWriterKeepsOrder(cfg: Config, p: Pipe, p': Pipe, w: Writer, w': Writer)
    requires OrderInv(cfg, p, w) && QuietWriter(p, p', w, w')
    ensures OrderInv(cfg, p', w')
  {
  }

  lemma {:induction false} QuietWriterKeepsAcks(p: Pipe, p': Pipe, w: Writer, w': Writer)
    requires AckInv(p, w) && QuietWriter(p, p', w, w')
    ensures AckInv(p', w')
  {
  }

  ghost predicate Dequeues(p: Pipe, p': Pipe, w: Writer, w': Writer) {
    && p.queue != [] && !Busy(w) && p' == p.(queue := p.queue[1..])
    && Busy(w') && w'.req == p.queue[0] && !Healthy(w') && (w'.Writing? ==> Healthy(w) && w'.sent == 0)
  }

  lemma {:induction false} SweepEffect(s: Conn, s': Conn)
    requires WriterStep(s, s') && (s.writer.Sweep? || s.writer.Exit?)
    ensures QuietWriter(s.pipe, s'.pipe, s.writer, s'.writer) || Dequeues(s.pipe, s'.pipe, s.writer, s'.writer)
    ensures s'.cfg == s.cfg
  {
  }

  lemma {:induction false} SelectEffect(s: Conn, s': Conn)
    requires WriterStep(s, s') && (s.writer.Select? || s.writer.Sweep? || s.writer.Exit?)
    ensures QuietWriter(s.pipe, s'.pipe, s.writer, s'.writer) || Dequeues(s.pipe, s'.pipe, s.writer, s'.writer)
    ensures s'.cfg == s.cfg
  {
    if !s.writer.Select? {
      SweepEffect(s, s');
    }
  }

  lemma {:induction false} SelectKeepsHistory(s: Conn, s': Conn)
    requires HistoryInv(s) && WriterStep(s, s') && (s.writer.Select? || s.writer.Sweep? || s.writer.Exit?)
    ensures HistoryInv(s')
  {
    SelectEffect(s, s');
    if QuietWriter(s.pipe, s'.pipe, s.writer, s'.writer) {
      QuietWriterKeepsOrder(s.cfg, s.pipe, s'.pipe, s.writer, s'.writer);
      QuietWriterKeepsAcks(s.pipe, s'.pipe, s.writer, s'.writer);
    } else {
      DequeueKeepsHistory(s.cfg, s.pipe, s.writer, s'.writer);
    }
  }

  /** One partial write extends the octets on the wire along the frame. */
  lemma {:induction false} PartialWriteKeepsOrder(cfg: Config, p: Pipe, w: Writer, upTo: nat)
    requires OrderInv(cfg, p, w) && w.Writing? && w.sent < upTo <= |w.req.frame|
    ensures OrderInv(cfg, p.(wire := p.wire + w.req.frame[w.sent..upTo]), w.(sent := upTo))
  {
    var frame := w.req.frame;
    assert frame[..w.sent] + frame[w.sent..upTo] == frame[..upTo];
    FrameFits(p, w.req, frame[..upTo]);
    assert Frames(p.written) + frame[..w.sent] + frame[w.sent..upTo] == Frames(p.written) + frame[..upTo];
  }

  /** What was written plus any part of the next frame is a prefix of all accepted frames. */
  lemma {:induction false} FrameFits(p: Pipe, r: Outbound, part: ByteString)
    requires |p.written| < |p.enqueued| && p.written == p.enqueued[..|p.written|]
    requires r == p.enqueued[|p.written|] && part <= r.frame
    ensures Frames(p.written) + part <= Frames(p.enqueued)
  {
    var k := |p.written|;
    FramesAppend(p.written, r);
    assert p.enqueued[..k + 1] == p.written + [r];
    FramesPrefix(p.enqueued, k + 1);
  }

  lemma {:induction false} WritingKeepsHistory(s: Conn, s': Conn)
    requires HistoryInv(s) && WriterStep(s, s') && s.writer.Writing?
    ensures HistoryInv(s')
  {
    var w := s.writer;
    if s'.writer.Writing? {
      PartialWriteKeepsOrder(s.cfg, s.pipe, w, s'.writer.sent);
    } else if s'.writer == Wrote(w.mode, w.req, true) && s'.pipe != s.pipe {
      CompletedWriteKeepsHistory(s.cfg, s.pipe, w, s'.writer);
    }
  }

  lemma {:induction false} CompletedWriteKeepsHistory(cfg: Config, p: Pipe, w: Writer, w': Writer)
    requires OrderInv(cfg, p, w) && AckInv(p, w) && w.Writing? && w.sent == |w.req.frame|
        && w' == Wrote(w.mode, w.req, true)
    ensures var p' := p.(written := p.written + [w.req]); OrderInv(cfg, p', w') && AckInv(p', w')
  {
    var p' := p.(written := p.written + [w.req]);
    assert p'.written == p'.enqueued[..|p'.written|];
    FramesAppend(p.written, w.req);
    assert w.req.frame[..w.sent] == w.req.frame;
  }

  predicate Releasing(w: Writer) {
    w.Wrote? || w.QuotaBack? || w.SweepQuota? || w.SweepSlot? || w.FailAborting? || (w.SlotBack? && !w.ok)
  }

  lemma {:induction false} WroteEffect(s: Conn, s': Conn)
    requires WriterStep(s, s') && (s.writer.Wrote? || s.writer.QuotaBack?)
    ensures QuietWriter(s.pipe, s'.pipe, s.writer, s'.writer) && s'.cfg == s.cfg
  {
  }

  lemma {:induction false} ReleasingEffect(s: Conn, s': Conn)
    requires WriterStep(s, s') && Releasing(s.writer)
    ensures QuietWriter(s.pipe, s'.pipe, s.writer, s'.writer) && s'.cfg == s.cfg
  {
    if s.writer.Wrote? || s.writer.QuotaBack? {
      WroteEffect(s, s');
    }
  }

  lemma {:induction false} FinishingEffect(s: Conn, s': Conn)
    requires WriterStep(s, s') && AtTheEnd(s.writer)
    requires s.writer.TryFinish? || s.writer.CloseFailed? || s.writer.Finishing? || s.writer.CloseAborting?
    ensures QuietWriter(s.pipe, s'.pipe, s.writer, s'.writer) && s'.cfg == s.cfg
  {
  }

  lemma {:induction false} EndingEffect(s: Conn, s': Conn)
    requires WriterStep(s, s') && AtTheEnd(s.writer)
    ensures QuietWriter(s.pipe, s'.pipe, s.writer, s'.writer) && s'.cfg == s.cfg
  {
    if s.writer.TryFinish? || s.writer.CloseFailed? || s.writer.Finishing? || s.writer.CloseAborting? {
      FinishingEffect(s, s');
    }
  }

  /** Acknowledging the send in hand settles it. */
  lemma {:induction false} AckKeepsAcks(cfg: Config, p: Pipe, w: Writer, w': Writer, ok: bool)
    requires OrderInv(cfg, p, w) && AckInv(p, w) && Busy(w) && AckReady(p, w.req) && !Busy(w')
    requires ok == Healthy(w)
    ensures AckInv(Acked(p, w.req, ok), w')
  {
    var k := Head(p) - 1;
    assert w.req == p.enqueued[k] && w.req.ticket == k;
    assert p.ackSends[k] == 0 && p.acks[k] == [];
  }

  lemma {:induction false} AckKeepsOrder(cfg: Config, p: Pipe, w: Writer, w': Writer, ok: bool)
    requires OrderInv(cfg, p, w) && Busy(w) && AckReady(p, w.req) && !Busy(w') && (Healthy(w') ==> Healthy(w))
    ensures OrderInv(cfg, Acked(p, w.req, ok), w')
  {
  }

  lemma {:induction false} AckingEffect(s: Conn, s': Conn)
    requires WriterStep(s, s') && ((s.writer.SlotBack? && s.writer.ok) || s.writer.FailAck? || s.writer.SweepAck?)
    ensures AckReady(s.pipe, s.writer.req) && s'.pipe == Acked(s.pipe, s.writer.req, s.writer.SlotBack?)
    ensures !Busy(s'.writer) && (Healthy(s'.writer) ==> Healthy(s.writer)) && s'.cfg == s.cfg
  {
  }

  lemma {:induction false} WriterKeepsHistory(s: Conn, s': Conn)
    requires HistoryInv(s) && WriterStep(s, s')
    ensures HistoryInv(s')
  {
    var w := s.writer;
    if w.Select? || w.Sweep? || w.Exit? {
      SelectKeepsHistory(s, s');
    } else if w.Writing? {
      WritingKeepsHistory(s, s');
    } else if AtTheEnd(w) || Releasing(w) {
      if AtTheEnd(w) {
        EndingEffect(s, s');
      } else {
        ReleasingEffect(s, s');
      }
      QuietWriterKeepsOrder(s.cfg, s.pipe, s'.pipe, w, s'.writer);
      QuietWriterKeepsAcks(s.pipe, s'.pipe, w, s'.writer);
    } else {
      AckingEffect(s, s');
      AckKeepsOrder(s.cfg, s.pipe, w, s'.writer, w.SlotBack?);
      AckKeepsAcks(s.cfg, s.pipe, w, s'.writer, w.SlotBack?);
    }
  }

  lemma {:induction false} WriterGrowsHistory(s: Conn, s': Conn)
    requires WriterStep(s, s')
    ensures s'.pipe.enqueued == s.pipe.enqueued && |s.pipe.written| <= |s'.pipe.written|
  {
  }

  lemma {:induction false} SelectKeepsDrain(s: Conn, s': Conn)
    requires DrainInv(s) && WriterStep(s, s') && (s.writer.Select? || s.writer.Sweep? || s.writer.Exit?)
    ensures DrainInv(s')
  {
  }

  lemma {:induction false} EndKeepsDrain(s: Conn, s': Conn)
    requires DrainInv(s) && OrderInv(s.cfg, s.pipe, s.writer) && WriterStep(s, s') && AtTheEnd(s.writer)
    ensures DrainInv(s')
  {
    assert s.pipe.enqueued[..|s.pipe.enqueued|] == s.pipe.enqueued;
    assert AllWritten(s.pipe);
  }

  lemma {:induction false} WritingKeepsDrain(s: Conn, s': Conn)
    requires DrainInv(s) && WriterStep(s, s')
    requires s.writer.Writing? || s.writer.Wrote? || s.writer.QuotaBack? || s.writer.SlotBack?
    ensures DrainInv(s')
  {
  }

  lemma {:induction false} FailingKeepsDrain(s: Conn, s': Conn)
    requires DrainInv(s) && WriterStep(s, s')
    requires s.writer.FailAborting? || s.writer.FailAck? || s.writer.SweepQuota? || s.writer.SweepSlot?
        || s.writer.SweepAck?
    ensures DrainInv(s')
  {
  }

  lemma {:induction false} WriterKeepsDrain(s: Conn, s': Conn)
    requires DrainInv(s) && OrderInv(s.cfg, s.pipe, s.writer) && WriterStep(s, s')
    ensures DrainInv(s')
  {
    var w := s.writer;
    if w.Writing? || w.Wrote? || w.QuotaBack? || w.SlotBack? {
      WritingKeepsDrain(s, s');
    } else if Busy(w) {
      FailingKeepsDrain(s, s');
    } else if AtTheEnd(s.writer) {
      EndKeepsDrain(s, s');
    } else {
      SelectKeepsDrain(s, s');
    }
  }

  lemma {:induction false} WriterKeepsPipe(s: Conn, s': Conn)
    requires PipeInv(s) && WriterStep(s, s')
    ensures PipeInv(s')
  {
    AnyWriterMoves(s, s');
    WriterKeepsTokens(s, s');
    WriterKeepsHistory(s, s');
    WriterGrowsHistory(s, s');
    WriterSendersOk(s, s');
    WriterKeepsDrain(s, s');
  }

  // --------------------------------------------------- the other steps

  lemma {:induction false} UntouchedKeepsPipe(s: Conn, s': Conn)
    requires PipeInv(s) && PipelineUntouched(s, s')
    ensures PipeInv(s')
  {
    UntouchedKeepsTokens(s, s');
    WriterSendersOk(s, s');
  }

  lemma {:induction false} SpawnKeepsPipe(s: Conn, s': Conn)
    requires PipeInv(s) && Spawn(s, s')
    ensures PipeInv(s')
  {
    SpawnKeepsTokens(s, s');
    forall k | 0 <= k < |s'.senders|
      ensures SenderOk(s'.cfg, s'.pipe, s'.senders[k])
    {
      if k < |s.senders| {
        assert SenderOk(s.cfg, s.pipe, s.senders[k]);
      }
    }
  }
}
