/**
 A sending session, a reliable octet stream and a receiving reader, composed.

 The stream hands over the octets the writer put on the wire, in order, in pieces of any size. The
 receiver may stop at any moment, also between two messages of one read. It sees the end of the
 stream after every octet was handed over and the sender closed its write side or, in an abort as much
 as in a graceful end, its socket; to the receiver the two look the same.
 */
module EndToEnd {
  import opened Bytes
  import opened Wire
  import opened Runs
  import opened Session
  import opened Pipeline
  import SessionRun
  import SessionTheorems
  import R = Reassembly

  /** `shut`: the sender's socket is closed. */
  datatype World = World(
    codec: Codec, maxRead: nat, sender: Conn, shut: bool, taken: nat, rx: R.Reader, stopped: bool, eof: bool)

  ghost predicate Matching(c: Codec, cfg: Config) {
    && c.Valid() && c.Lawful()
    && forall m, f :: cfg.encodes(m, f) ==> IsEncoding(c, m, f)
  }

  ghost predicate Start(w: World) {
    && Init(w.sender) && Matching(w.codec, w.sender.cfg)
    && !w.shut && w.taken == 0 && w.rx == R.FRESH && !w.stopped && !w.eof
  }

  function Arrived(w: World, upTo: nat): R.Reader
    requires w.codec.Valid() && w.taken <= upTo <= |w.sender.pipe.wire|
  {
    R.Read(R.FramerOf(w.codec), w.maxRead, w.rx, w.sender.pipe.wire[w.taken..upTo])
  }

  ghost predicate Receive(w: World, w': World, upTo: nat) {
    && w.codec.Valid() && !w.stopped && !w.eof && w.taken <= upTo <= |w.sender.pipe.wire|
    && w' == w.(taken := upTo, rx := Arrived(w, upTo))
  }

  /** The application closes the session after `k` messages, in the middle of what a read brought. */
  ghost predicate StopAfter(w: World, w': World, upTo: nat, k: nat) {
    && w.codec.Valid() && !w.stopped && !w.eof && w.taken <= upTo <= |w.sender.pipe.wire|
    && |w.rx.delivered| <= k <= |Arrived(w, upTo).delivered|
    && w' == w.(taken := upTo, rx := Arrived(w, upTo).(delivered := Arrived(w, upTo).delivered[..k]), stopped := true)
  }

  /** Whoever closes `closing` goes on to close the socket. */
  ghost predicate ShutSocket(w: World, w': World) {
    w.sender.Closing() && w' == w.(shut := true)
  }

  ghost predicate SeeEnd(w: World, w': World) {
    && !w.stopped && (w.sender.pipe.protocolClosed || w.shut) && w.taken == |w.sender.pipe.wire|
    && w' == w.(eof := true)
  }

  /** A step of the sender; on a closed socket no write and no half-close succeeds. */
  ghost predicate SenderMoves(w: World, w': World) {
    && Next(w.sender, w'.sender) && w' == w.(sender := w'.sender)
    && var p, p' := w.sender.pipe, w'.sender.pipe;
       w.shut ==> p'.wire == p.wire && p'.protocolClosed == p.protocolClosed
  }

  ghost predicate Step(w: World, w': World) {
    || SenderMoves(w, w')
    || ShutSocket(w, w')
    || (exists upTo :: Receive(w, w', upTo))
    || (exists upTo, k :: StopAfter(w, w', upTo, k))
    || SeeEnd(w, w')
  }

  /** The messages of all accepted sends, in order of acceptance. */
  function Messages(reqs: seq<Outbound>): seq<Message> {
    seq(|reqs|, i requires 0 <= i < |reqs| => reqs[i].msg)
  }

  function FrameList(reqs: seq<Outbound>): seq<ByteString> {
    seq(|reqs|, i requires 0 <= i < |reqs| => reqs[i].frame)
  }

  lemma {:induction false} ConcatAppend(a: seq<ByteString>, b: ByteString)
    ensures R.Concat(a + [b]) == R.Concat(a) + b
  {
    if a == [] {
      assert a + [b] == [b];
      R.ConcatOne(b);
    } else {
      assert (a + [b])[1..] == a[1..] + [b];
      ConcatAppend(a[1..], b);
    }
  }

  lemma {:induction false} FramesAsStream(reqs: seq<Outbound>)
    ensures Frames(reqs) == R.Concat(FrameList(reqs))
  {
    if reqs != [] {
      var front, last := reqs[..|reqs| - 1], reqs[|reqs| - 1];
      FramesAsStream(front);
      assert FrameList(reqs) == FrameList(front) + [last.frame];
      ConcatAppend(FrameList(front), last.frame);
    }
  }

  /** Any prefix of the accepted frames decodes to a prefix of the accepted messages. */
  lemma {:induction false} AcceptedFramesDecode(c: Codec, cfg: Config, reqs: seq<Outbound>, prefix: ByteString)
    requires Matching(c, cfg) && prefix <= Frames(reqs)
    requires forall k :: 0 <= k < |reqs| ==> cfg.encodes(reqs[k].msg, reqs[k].frame)
    ensures var p := R.DecodePass(R.FramerOf(c), prefix);
            && p.status == R.Running && p.messages <= Messages(reqs)
            && (p.messages == Messages(reqs) <==> prefix == Frames(reqs))
  {
    var f, msgs, frames := R.FramerOf(c), Messages(reqs), FrameList(reqs);
    forall k | 0 <= k < |msgs|
      ensures R.FrameOf(f, msgs[k], frames[k])
    {
      R.EncodingIsFrame(c, msgs[k], frames[k]);
    }
    FramesAsStream(reqs);
    R.DecodePrefix(f, msgs, frames, prefix);
  }

  /** What the receiver needs to know of the sender. */
  ghost predicate GoodStream(cfg: Config, p: Pipe) { Encodings(cfg, p.enqueued) && p.wire <= Frames(p.enqueued) }

  ghost predicate StreamInv(w: World) {
    && Matching(w.codec, w.sender.cfg)
    && w.taken <= |w.sender.pipe.wire|
    && w.rx.delivered <= Messages(w.sender.pipe.enqueued)
    && (!w.stopped && w.rx.status == R.Running ==> w.rx == R.Whole(R.FramerOf(w.codec), w.sender.pipe.wire[..w.taken]))
    && (!w.stopped ==> w.rx.status == R.Running || (w.rx.status == R.ReadBufferFull && !Roomy(w)))
    && (w.eof ==> (w.sender.pipe.protocolClosed || w.shut) && w.taken == |w.sender.pipe.wire|)
  }

  ghost predicate WorldInv(w: World) { SessionTheorems.SessionInv(w.sender) && StreamInv(w) }

  /** The receiver's buffer has room for one incomplete frame. */
  predicate Roomy(w: World) { w.maxRead >= w.codec.MaxPayload() + HEADER_SIZE - 1 }

  /** The sender goes on; the receiver's part stays true if the end it saw stays the end. */
  lemma {:induction false} SenderKeepsStream(w: World, s': Conn)
    requires StreamInv(w) && s'.cfg == w.sender.cfg
    requires w.sender.pipe.enqueued <= s'.pipe.enqueued && w.sender.pipe.wire <= s'.pipe.wire
    requires w.sender.pipe.protocolClosed ==> s'.pipe.protocolClosed
    requires w.eof ==> s'.pipe.wire == w.sender.pipe.wire
    ensures StreamInv(w.(sender := s'))
  {
    var p, p' := w.sender.pipe, s'.pipe;
    assert p'.wire[..w.taken] == p.wire[..w.taken];
    assert Messages(p.enqueued) <= Messages(p'.enqueued);
  }

  lemma {:induction false} SenderKeepsWorld(w: World, w': World)
    requires WorldInv(w) && SenderMoves(w, w')
    ensures WorldInv(w')
  {
    SessionTheorems.StepKeeps(w.sender, w'.sender);
    CfgStays(w.sender, w'.sender);
    var p, p' := w.sender.pipe, w'.sender.pipe;
    if w.eof && !w.shut {
      assert p.enqueued == p'.enqueued && p.wire == Frames(p.enqueued);
    }
    SenderKeepsStream(w, w'.sender);
  }

  lemma {:induction false} CfgStays(s: Conn, s': Conn)
    requires Next(s, s')
    ensures s'.cfg == s.cfg
  {
  }

  lemma {:induction false} ArrivalExtends(w: World, upTo: nat)
    requires StreamInv(w) && w.taken <= upTo <= |w.sender.pipe.wire| && !w.stopped && w.rx.status == R.Running
    ensures var whole := R.Whole(R.FramerOf(w.codec), w.sender.pipe.wire[..upTo]);
            && Arrived(w, upTo).delivered == whole.delivered
            && (Arrived(w, upTo) == whole || (Arrived(w, upTo).status == R.ReadBufferFull && !Roomy(w)))
  {
    R.CodecStreams(w.codec);
    if Roomy(w) {
      R.CodecFits(w.codec, w.maxRead);
    }
    R.ReadSlice(R.FramerOf(w.codec), w.maxRead, w.rx, w.sender.pipe.wire, w.taken, upTo, Roomy(w));
  }

  lemma {:induction false} ArrivalIsPrefix(w: World, upTo: nat)
    requires StreamInv(w) && GoodStream(w.sender.cfg, w.sender.pipe)
    requires w.taken <= upTo <= |w.sender.pipe.wire| && !w.stopped
    ensures Arrived(w, upTo).delivered <= Messages(w.sender.pipe.enqueued)
    ensures var whole := R.Whole(R.FramerOf(w.codec), w.sender.pipe.wire[..upTo]);
            || (Arrived(w, upTo) == whole && whole.status == R.Running)
            || (Arrived(w, upTo).status == R.ReadBufferFull && !Roomy(w))
  {
    if w.rx.status == R.Running {
      ArrivalExtends(w, upTo);
      AcceptedFramesDecode(w.codec, w.sender.cfg, w.sender.pipe.enqueued, w.sender.pipe.wire[..upTo]);
    }
  }

  lemma {:induction false} ReceiverKeepsStream(w: World, w': World)
    requires StreamInv(w) && GoodStream(w.sender.cfg, w.sender.pipe)
    requires (exists upTo :: Receive(w, w', upTo)) || (exists upTo, k :: StopAfter(w, w', upTo, k))
    ensures StreamInv(w') && w'.sender == w.sender
  {
    if upTo: nat :| Receive(w, w', upTo) {
      ArrivalIsPrefix(w, upTo);
    } else {
      var upTo: nat, k: nat :| StopAfter(w, w', upTo, k);
      ArrivalIsPrefix(w, upTo);
    }
  }

  lemma {:induction false} StepKeepsWorld(w: World, w': World)
    requires WorldInv(w) && Step(w, w')
    ensures WorldInv(w')
  {
    if SenderMoves(w, w') {
      SenderKeepsWorld(w, w');
    } else if ShutSocket(w, w') || SeeEnd(w, w') {
      assert StreamInv(w') && w'.sender == w.sender;
    } else {
      ReceiverKeepsStream(w, w');
    }
  }

  lemma {:induction false} WorldInductive()
    ensures Inductive(Start, Step, WorldInv)
  {
    forall w | Start(w)
      ensures WorldInv(w)
    {
      SessionTheorems.InitHolds(w.sender);
    }
    forall w, w' | WorldInv(w) && Step(w, w')
      ensures WorldInv(w')
    {
      StepKeepsWorld(w, w');
    }
  }

  /** A receiver that has not stopped, nor overrun a read bound too small for one incomplete frame. */
  predicate Listening(w: World) { !w.stopped && (Roomy(w) || w.rx.status != R.ReadBufferFull) }

  /**
   End to end: whatever the interleaving, the partial writes and the cutting into reads, the receiver has
   been given a prefix, in order, of the accepted messages. When it has seen the end of the stream it has
   all of them if and only if every accepted frame was written, as it is when the sender closed gracefully.
   */
  lemma {:induction false} DeliveredInOrder(w: World)
    requires Reachable(Start, Step, w)
    ensures w.rx.delivered <= Messages(w.sender.pipe.enqueued)
    ensures w.eof && Listening(w) ==>
              (w.rx.delivered == Messages(w.sender.pipe.enqueued) <==>
                  w.sender.pipe.wire == Frames(w.sender.pipe.enqueued))
    ensures w.eof && Listening(w) && w.sender.pipe.protocolClosed ==>
              w.rx.delivered == Messages(w.sender.pipe.enqueued)
  {
    WorldInductive();
    Invariant(Start, Step, WorldInv, w);
    if w.eof && Listening(w) {
      EverythingTaken(w);
    }
  }

  /** With every octet taken, the messages are complete exactly if the frames are. */
  lemma {:induction false} EverythingTaken(w: World)
    requires StreamInv(w) && GoodStream(w.sender.cfg, w.sender.pipe)
    requires w.taken == |w.sender.pipe.wire| && Listening(w)
    ensures w.rx.delivered == Messages(w.sender.pipe.enqueued) <==> w.sender.pipe.wire == Frames(w.sender.pipe.enqueued)
  {
    var p := w.sender.pipe;
    assert p.wire[..w.taken] == p.wire;
    AcceptedFramesDecode(w.codec, w.sender.cfg, p.enqueued, p.wire);
  }

  /** Nil from `CloseWrite` promises delivery: a receiver that took every octet has every message. */
  lemma {:induction false} CloseWriteDelivers(w: World, i: nat)
    requires Reachable(Start, Step, w) && i < |w.sender.callers|
        && w.sender.callers[i] == Answered(CloseWriteCall, true)
    requires w.taken == |w.sender.pipe.wire| && Listening(w)
    ensures w.rx.delivered == Messages(w.sender.pipe.enqueued)
  {
    WorldInductive();
    Invariant(Start, Step, WorldInv, w);
    SessionTheorems.NilMeansClosed(w.sender, i);
    EverythingTaken(w);
  }

  // ------------------------------------------- the end alone promises nothing

  function Untouched(c: Codec, maxRead: nat, s: Conn): World { World(c, maxRead, s, false, 0, R.FRESH, false, false) }

  /** Whatever a sender can do, it can do before the receiver reads anything. */
  lemma {:induction false} SenderRunLifts(c: Codec, maxRead: nat, run: seq<Conn>, i: nat)
    requires IsRun(Init, Next, run) && i < |run| && Matching(c, run[0].cfg)
    ensures Reachable(Start, Step, Untouched(c, maxRead, run[i]))
  {
    if i == 0 {
      ReachableInit(Start, Step, Untouched(c, maxRead, run[0]));
    } else {
      SenderRunLifts(c, maxRead, run, i - 1);
      assert Next(run[i - 1], run[i - 1 + 1]);
      assert SenderMoves(Untouched(c, maxRead, run[i - 1]), Untouched(c, maxRead, run[i]));
      ReachableStep(Start, Step, Untouched(c, maxRead, run[i - 1]), Untouched(c, maxRead, run[i]));
    }
  }

  lemma {:induction false} CfgStaysOnRun(run: seq<Conn>, i: nat)
    requires IsRun(Init, Next, run) && i < |run|
    ensures run[i].cfg == run[0].cfg
  {
    if i > 0 {
      CfgStaysOnRun(run, i - 1);
      assert Next(run[i - 1], run[i - 1 + 1]);
      CfgStays(run[i - 1], run[i]);
    }
  }

  lemma {:induction false} SenderLifts(c: Codec, maxRead: nat, s: Conn)
    requires Reachable(Init, Next, s) && Matching(c, s.cfg)
    ensures Reachable(Start, Step, Untouched(c, maxRead, s))
  {
    var run :| IsRun(Init, Next, run) && run[|run| - 1] == s;
    CfgStaysOnRun(run, |run| - 1);
    SenderRunLifts(c, maxRead, run, |run| - 1);
  }

  /** A receiver that took every octet sees the end of an aborted sender. */
  lemma {:induction false} EndOfAborted(w: World)
    requires Reachable(Start, Step, w) && w.sender.Closing() && !w.stopped && w.taken == |w.sender.pipe.wire|
    ensures Reachable(Start, Step, w.(shut := true, eof := true))
  {
    assert ShutSocket(w, w.(shut := true));
    ReachableStep(Start, Step, w, w.(shut := true));
    assert SeeEnd(w.(shut := true), w.(shut := true, eof := true));
    ReachableStep(Start, Step, w.(shut := true), w.(shut := true, eof := true));
  }

  /**
   For every message that fits: it is accepted, `Close` comes before the writer, and the receiver sees a
   clean end of the stream, with nothing delivered and nothing wrong on its side.
   */
  lemma {:induction false} CleanEndWithoutMessages(
      c: Codec, maxRead: nat, cfg: Config, m: Message, f: ByteString) returns (w: World)
    requires Matching(c, cfg) && SessionRun.Room(cfg, m, f)
    ensures Reachable(Start, Step, w) && w.eof && !w.stopped && w.rx.status == R.Running
    ensures w.rx.delivered == [] && Messages(w.sender.pipe.enqueued) == [m]
  {
    var s := SessionRun.ClosesEarly(cfg, m, f);
    SenderLifts(c, maxRead, s);
    EndOfAborted(Untouched(c, maxRead, s));
    w := Untouched(c, maxRead, s).(shut := true, eof := true);
  }

  lemma {:induction false} ShutStays(w: World, w': World)
    requires Step(w, w') && w.shut
    ensures w'.shut && w'.sender.pipe.wire == w.sender.pipe.wire
    ensures w'.sender.pipe.protocolClosed == w.sender.pipe.protocolClosed
  {
  }

  /** Once the sender's socket is closed nothing more gets on the wire, whatever the sender goes on to do. */
  lemma {:induction false} ClosedSocketIsFinal(run: seq<World>, i: nat, j: nat)
    requires IsRun(Start, Step, run) && i <= j < |run| && run[i].shut
    ensures run[j].shut && run[j].sender.pipe.wire == run[i].sender.pipe.wire
  {
    var p := (w: World) => w.shut && w.sender.pipe.wire == run[i].sender.pipe.wire;
    WorldInductive();
    forall w, w' | WorldInv(w) && p(w) && Step(w, w')
      ensures p(w')
    {
      ShutStays(w, w');
    }
    StaysOnRun(Start, Step, WorldInv, p, run, i, j);
  }

  // ------------------------------------------- and the end after a graceful close

  /** The receiver takes what has been written and not been taken yet, up to any point. */
  lemma {:induction false} Takes(w: World, upTo: nat) returns (w': World)
    requires Reachable(Start, Step, w) && w.codec.Valid() && !w.stopped && !w.eof
    requires w.taken <= upTo <= |w.sender.pipe.wire|
    ensures Reachable(Start, Step, w') && w' == w.(taken := upTo, rx := w'.rx)
  {
    w' := w.(taken := upTo, rx := Arrived(w, upTo));
    assert Receive(w, w', upTo);
    ReachableStep(Start, Step, w, w');
  }

  /** And the application may stop it after any of the messages this brings, or before the first. */
  lemma {:induction false} MayStop(w: World, upTo: nat, k: nat) returns (w': World)
    requires Reachable(Start, Step, w) && w.codec.Valid() && !w.stopped && !w.eof
    requires w.taken <= upTo <= |w.sender.pipe.wire| && |w.rx.delivered| <= k <= |Arrived(w, upTo).delivered|
    ensures Reachable(Start, Step, w') && w'.stopped && w'.taken == upTo && w'.sender == w.sender
    ensures w'.rx.delivered == Arrived(w, upTo).delivered[..k]
  {
    w' := w.(taken := upTo, rx := Arrived(w, upTo).(delivered := Arrived(w, upTo).delivered[..k]), stopped := true);
    assert StopAfter(w, w', upTo, k);
    ReachableStep(Start, Step, w, w');
  }

  /** After a graceful close it can take everything, with any cut, and see the end. */
  lemma {:induction false} TakesAll(w: World, cut: nat) returns (w': World)
    requires Reachable(Start, Step, w) && w.codec.Valid() && !w.stopped && !w.eof && w.taken == 0
    requires w.sender.pipe.protocolClosed && cut <= |w.sender.pipe.wire|
    ensures Reachable(Start, Step, w') && w' == w.(taken := |w.sender.pipe.wire|, rx := w'.rx, eof := true)
  {
    var w1 := Takes(w, cut);
    var w2 := Takes(w1, |w.sender.pipe.wire|);
    w' := w2.(eof := true);
    assert SeeEnd(w2, w');
    ReachableStep(Start, Step, w2, w');
  }

  /**
   For every message that fits, and however its frame is cut in two: `Send` and `CloseWrite` answer nil, the
   receiver has exactly the message and sees the end of the stream.
   */
  lemma {:induction false} MessageArrives(
      c: Codec, maxRead: nat, cfg: Config, m: Message, f: ByteString, cut: nat) returns (w: World)
    requires Matching(c, cfg) && SessionRun.Room(cfg, m, f) && cut <= |f|
    requires maxRead >= c.MaxPayload() + HEADER_SIZE - 1
    ensures Reachable(Start, Step, w) && w.eof && !w.stopped && w.rx.delivered == [m]
    ensures w.sender.senders == [Returned(Sent(m, 0))] && w.sender.callers == [Answered(CloseWriteCall, true)]
  {
    var s := SessionRun.SendAndCloseWriteSucceed(cfg, m, f, true);
    SenderLifts(c, maxRead, s);
    w := TakesAll(Untouched(c, maxRead, s), cut);
    DeliveredInOrder(w);
    assert w.sender.pipe.enqueued == [SessionRun.One(m, f, true)];
  }

  const PLAIN := Codec(None, 0)

  function PlainConfig(): Config {
    Config((m: Message) => Validate(m).Ok?, (m: Message, f: ByteString) => Encode(PLAIN, m, 0) == Ok(f), 1, 10)
  }

  /** One such input: the empty binary message over the plain codec. */
  lemma {:induction false} CleanEndExample() returns (w: World)
    ensures Reachable(Start, Step, w) && w.eof && Listening(w) && w.rx.delivered != Messages(w.sender.pipe.enqueued)
  {
    var m := Message(PAYLOAD_BINARY, []);
    var f := Encode(PLAIN, m, 0).value;
    w := CleanEndWithoutMessages(PLAIN, 0, PlainConfig(), m, f);
  }
}
