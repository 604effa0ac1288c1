/**
 Stream reassembly: the reader of a TCP or TLS session turns an octet stream, cut into reads of
 any size, back into messages.
 */
module Reassembly {
  import opened Bytes
  import opened Wire

  /** Any framer; nothing is assumed about what it returns. */
  type Framer = ByteString -> Decoding

  datatype Status =
    | Running | BadFrame(error: WireError) | InvalidFramer | InvalidMessage(error: WireError)
    | ReadBufferFull | ClosedByHandler

  /** The reader's buffer, what it handed to the application, and why it stopped (if it did). */
  datatype Reader = Reader(pending: ByteString, delivered: seq<Message>, status: Status)

  const FRESH := Reader([], [], Running)

  datatype Attempt = Wait | Take(msg: Message, consumed: nat) | Halt(status: Status)

  /** One call of the framer and the checks the reader makes on its answer. */
  function TryFrame(f: Framer, remaining: ByteString): (a: Attempt)
    ensures a.Take? ==> 0 < a.consumed <= |remaining|
    ensures a.Halt? ==> a.status.BadFrame? || a.status.InvalidFramer? || a.status.InvalidMessage?
  {
    match f(remaining)
    case Failed(e) => if e == NeedMore then Wait else Halt(BadFrame(e))
    case Decoded(msg, n) =>
      if n <= 0 || n > |remaining| then Halt(InvalidFramer)
      else if Validate(msg).Err? then Halt(InvalidMessage(Validate(msg).error))
      else Take(msg, n)
  }

  datatype Parse = Parse(messages: seq<Message>, leftover: ByteString, status: Status)

  /** Decodes as many frames as `bytes` holds. A stopped reader drops its buffer. */
  function DecodePass(f: Framer, bytes: ByteString): (p: Parse)
    ensures p.status != ReadBufferFull && p.status != ClosedByHandler && |p.leftover| <= |bytes|
    decreases |bytes|
  {
    if bytes == [] then Parse([], [], Running)
    else
      match TryFrame(f, bytes)
      case Wait => Parse([], bytes, Running)
      case Halt(s) => Parse([], [], s)
      case Take(msg, n) =>
        var rest := DecodePass(f, bytes[n..]);
        rest.(messages := [msg] + rest.messages)
  }

  /** `p` with earlier messages put in front. */
  function After(earlier: seq<Message>, p: Parse): Parse {
    p.(messages := earlier + p.messages)
  }

  /** One successful read: append, decode, keep the leftover, check the bound. */
  function Read(f: Framer, maxRead: nat, r: Reader, chunk: ByteString): Reader {
    if r.status != Running || chunk == [] then r
    else
      var p := DecodePass(f, r.pending + chunk);
      if p.status != Running then Reader([], r.delivered + p.messages, p.status)
      else if |p.leftover| > maxRead then Reader([], r.delivered + p.messages, ReadBufferFull)
      else Reader(p.leftover, r.delivered + p.messages, Running)
  }

  function ReadAll(f: Framer, maxRead: nat, r: Reader, chunks: seq<ByteString>): Reader
    decreases |chunks|
  {
    if chunks == [] then r else ReadAll(f, maxRead, Read(f, maxRead, r, chunks[0]), chunks[1..])
  }

  function Concat(chunks: seq<ByteString>): ByteString {
    if chunks == [] then [] else chunks[0] + Concat(chunks[1..])
  }

  // ------------------------------------------------------- the reader loop

  /**
   The inner loop: decode from the front of `pending`, moving an offset, then shift the rest down. The
   handler may close the session in the `room`-th message.
   */
  method DecodeBuffered(f: Framer, pending: ByteString, room: Maybe<nat>) returns (p: Parse)
    requires room.Some? ==> room.value > 0
    ensures var whole := DecodePass(f, pending);
            if room.None? || |whole.messages| < room.value then p == whole
            else p == Parse(whole.messages[..room.value], [], ClosedByHandler)
  {
    var messages: seq<Message> := [];
    var consumedTotal := 0;
    while consumedTotal < |pending|
      invariant 0 <= consumedTotal <= |pending|
      invariant DecodePass(f, pending) == After(messages, DecodePass(f, pending[consumedTotal..]))
      invariant room.Some? ==> |messages| < room.value
      decreases |pending| - consumedTotal
    {
      var remaining := pending[consumedTotal..];
      match f(remaining) {
        case Failed(e) =>
          if e == NeedMore {
            break;
          }
          AfterHalt(f, messages, remaining, BadFrame(e));
          return Parse(messages, [], BadFrame(e));
        case Decoded(msg, consumed) =>
          if consumed <= 0 || consumed > |remaining| {
            AfterHalt(f, messages, remaining, InvalidFramer);
            return Parse(messages, [], InvalidFramer);
          }
          var checked := Validate(msg);
          if checked.Err? {
            AfterHalt(f, messages, remaining, InvalidMessage(checked.error));
            return Parse(messages, [], InvalidMessage(checked.error));
          }
          assert remaining[consumed..] == pending[consumedTotal + consumed..];
          AfterOneMore(f, messages, msg, remaining, consumed);
          messages := messages + [msg];
          consumedTotal := consumedTotal + consumed;
          if room.Some? && |messages| == room.value {
            return Parse(messages, [], ClosedByHandler);
          }
      }
    }
    var leftover := pending[consumedTotal..];
    p := Parse(messages, leftover, Running);
  }

  lemma AfterHalt(f: Framer, messages: seq<Message>, remaining: ByteString, status: Status)
    requires remaining != [] && TryFrame(f, remaining) == Halt(status)
    ensures After(messages, DecodePass(f, remaining)) == Parse(messages, [], status)
  {
    assert messages + [] == messages;
  }

  lemma AfterOneMore(f: Framer, messages: seq<Message>, msg: Message, remaining: ByteString, n: nat)
    requires remaining != [] && TryFrame(f, remaining) == Take(msg, n)
    ensures After(messages, DecodePass(f, remaining)) == After(messages + [msg], DecodePass(f, remaining[n..]))
  {
    var rest := DecodePass(f, remaining[n..]);
    assert messages + ([msg] + rest.messages) == messages + [msg] + rest.messages;
  }

  /**
   The outer loop over the reads the socket returns. The handler may close the session in the `limit`-th
   message, or at zero in `OnOpen`.
   */
  method ReaderLoop(f: Framer, maxRead: nat, chunks: seq<ByteString>, limit: Maybe<nat>) returns (r: Reader)
    ensures var whole := ReadAll(f, maxRead, FRESH, chunks);
            if limit.None? || |whole.delivered| < limit.value then r == whole
            else r == Reader([], whole.delivered[..limit.value], ClosedByHandler)
  {
    if limit == Some(0) {
      return Reader([], [], ClosedByHandler);
    }
    var pending: ByteString := [];
    var delivered: seq<Message> := [];
    var i := 0;
    while i < |chunks|
      invariant 0 <= i <= |chunks|
      invariant ReadAll(f, maxRead, FRESH, chunks) ==
          ReadAll(f, maxRead, Reader(pending, delivered, Running), chunks[i..])
      invariant limit.Some? ==> |delivered| < limit.value
    {
      assert chunks[i..][1..] == chunks[i + 1..];
      if |chunks[i]| > 0 {
        ghost var full := DecodePass(f, pending + chunks[i]);
        DeliveredGrows(f, maxRead, Read(f, maxRead, Reader(pending, delivered, Running), chunks[i]), chunks[i + 1..]);
        pending := pending + chunks[i];
        var pass := DecodeBuffered(f, pending, if limit.Some? then Some(limit.value - |delivered|) else None);
        if pass.status == ClosedByHandler {
          CutsInside(delivered, full.messages, ReadAll(f, maxRead, FRESH, chunks).delivered, limit.value);
          return Reader([], delivered + pass.messages, ClosedByHandler);
        }
        delivered := delivered + pass.messages;
        if pass.status != Running {
          StoppedStays(f, maxRead, Reader([], delivered, pass.status), chunks[i + 1..]);
          return Reader([], delivered, pass.status);
        }
        pending := pass.leftover;
        if |pending| > maxRead {
          StoppedStays(f, maxRead, Reader([], delivered, ReadBufferFull), chunks[i + 1..]);
          return Reader([], delivered, ReadBufferFull);
        }
      }
      i := i + 1;
    }
    r := Reader(pending, delivered, Running);
  }

  lemma CutsInside(before: seq<Message>, pass: seq<Message>, all: seq<Message>, n: nat)
    requires before + pass <= all && |before| <= n <= |before| + |pass|
    ensures all[..n] == before + pass[..n - |before|]
  {
    assert all[..n] == (before + pass)[..n];
  }

  /** Reading on never takes a message back. */
  lemma {:induction false} DeliveredGrows(f: Framer, maxRead: nat, r: Reader, chunks: seq<ByteString>)
    ensures r.delivered <= ReadAll(f, maxRead, r, chunks).delivered
    decreases |chunks|
  {
    if chunks != [] {
      DeliveredGrows(f, maxRead, Read(f, maxRead, r, chunks[0]), chunks[1..]);
    }
  }

  lemma {:induction false} StoppedStays(f: Framer, maxRead: nat, r: Reader, chunks: seq<ByteString>)
    requires r.status != Running
    ensures ReadAll(f, maxRead, r, chunks) == r
  {
    if chunks != [] {
      StoppedStays(f, maxRead, r, chunks[1..]);
    }
  }

  // -------------------------------------------------- chunking invariance

  /** A decision on `src` stays the decision when `rest` follows. */
  ghost predicate Decided(f: Framer, src: ByteString, rest: ByteString) {
    f(src) != Failed(NeedMore) ==> f(src + rest) == f(src)
  }

  /** The contract of a framer: it consumes what it was given, and later octets never change a decision. */
  ghost predicate Streaming(f: Framer) {
    && (forall src :: f(src).Decoded? ==> 0 < f(src).consumed <= |src|)
    && (forall src, rest :: Decided(f, src, rest))
  }

  /** What decoding `a + b` amounts to, given what decoding `a` gave. */
  ghost function Continued(f: Framer, p: Parse, b: ByteString): Parse {
    if p.status != Running then p
    else
      var q := DecodePass(f, p.leftover + b);
      q.(messages := p.messages + q.messages)
  }

  /** Decoding more octets continues where decoding fewer stopped. */
  lemma {:induction false} PassAppend(f: Framer, a: ByteString, b: ByteString)
    requires Streaming(f)
    ensures DecodePass(f, a + b) == Continued(f, DecodePass(f, a), b)
    decreases |a|
  {
    if a == [] {
      assert a + b == b;
    } else {
      assert Decided(f, a, b);
      match TryFrame(f, a) {
        case Wait =>
        case Halt(s) =>
          assert TryFrame(f, a + b) == Halt(s);
        case Take(msg, n) =>
          assert TryFrame(f, a + b) == Take(msg, n);
          assert (a + b)[n..] == a[n..] + b;
          PassAppend(f, a[n..], b);
          ContinuedCons(f, DecodePass(f, a[n..]), b, msg);
      }
    }
  }

  lemma ContinuedCons(f: Framer, p: Parse, b: ByteString, msg: Message)
    ensures var whole := Continued(f, p, b);
            Continued(f, p.(messages := [msg] + p.messages), b) == whole.(messages := [msg] + whole.messages)
  {
    var q := DecodePass(f, p.leftover + b);
    assert [msg] + (p.messages + q.messages) == [msg] + p.messages + q.messages;
  }

  /** What is left over never decodes any further. */
  lemma {:induction false} LeftoverWaits(f: Framer, bytes: ByteString)
    requires DecodePass(f, bytes).status == Running && DecodePass(f, bytes).leftover != []
    ensures f(DecodePass(f, bytes).leftover) == Failed(NeedMore)
    decreases |bytes|
  {
    match TryFrame(f, bytes) {
      case Take(msg, n) => LeftoverWaits(f, bytes[n..]);
      case _ =>
    }
  }

  ghost function Whole(f: Framer, stream: ByteString): Reader {
    var p := DecodePass(f, stream);
    Reader(p.leftover, p.messages, p.status)
  }

  /** No undecided prefix is longer than `maxRead`. */
  ghost predicate Fits(f: Framer, maxRead: nat) {
    forall src :: f(src) == Failed(NeedMore) ==> |src| <= maxRead
  }

  lemma StoppedDropsBuffer(f: Framer, bytes: ByteString)
    ensures DecodePass(f, bytes).status != Running ==> DecodePass(f, bytes).leftover == []
    decreases |bytes|
  {
    if bytes != [] {
      match TryFrame(f, bytes) {
        case Take(msg, n) => StoppedDropsBuffer(f, bytes[n..]);
        case _ =>
      }
    }
  }

  /** One read after any prefix of the stream equals decoding the longer prefix at once. */
  lemma ReadExtends(f: Framer, maxRead: nat, stream: ByteString, chunk: ByteString)
    requires Streaming(f) && Fits(f, maxRead)
    ensures Read(f, maxRead, Whole(f, stream), chunk) == Whole(f, stream + chunk)
  {
    PassAppend(f, stream, chunk);
    StoppedDropsBuffer(f, stream);
    if chunk == [] {
      assert stream + chunk == stream;
    } else {
      StoppedDropsBuffer(f, stream + chunk);
      if DecodePass(f, stream + chunk).status == Running && DecodePass(f, stream + chunk).leftover != [] {
        LeftoverWaits(f, stream + chunk);
      }
    }
  }

  /** Without a bound on undecided prefixes, one read either extends the whole or fills the buffer. */
  lemma ReadExtendsOrFills(f: Framer, maxRead: nat, r: Reader, stream: ByteString, chunk: ByteString)
    requires Streaming(f) && r == Whole(f, stream)
    ensures var r' := Read(f, maxRead, r, chunk);
            r'.delivered == Whole(f, stream + chunk).delivered
                && (r' == Whole(f, stream + chunk) || r'.status == ReadBufferFull)
  {
    PassAppend(f, stream, chunk);
    StoppedDropsBuffer(f, stream);
    StoppedDropsBuffer(f, stream + chunk);
    if chunk == [] {
      assert stream + chunk == stream;
    }
  }

  /** The same for one slice of a longer stream; with room, the buffer never fills. */
  lemma ReadSlice(f: Framer, maxRead: nat, r: Reader, wire: ByteString, from: nat, upTo: nat, roomy: bool)
    requires Streaming(f) && (roomy ==> Fits(f, maxRead)) && from <= upTo <= |wire| && r == Whole(f, wire[..from])
    ensures var r', whole := Read(f, maxRead, r, wire[from..upTo]), Whole(f, wire[..upTo]);
            r'.delivered == whole.delivered && (r' == whole || (r'.status == ReadBufferFull && !roomy))
  {
    assert wire[..from] + wire[from..upTo] == wire[..upTo];
    if roomy {
      ReadExtends(f, maxRead, wire[..from], wire[from..upTo]);
    } else {
      ReadExtendsOrFills(f, maxRead, r, wire[..from], wire[from..upTo]);
    }
  }

  lemma FirstRead(f: Framer, maxRead: nat, r: Reader, next: Reader, chunks: seq<ByteString>)
    requires chunks != [] && Read(f, maxRead, r, chunks[0]) == next
    ensures ReadAll(f, maxRead, r, chunks) == ReadAll(f, maxRead, next, chunks[1..])
  {
  }

  lemma ConcatFrom(stream: ByteString, chunks: seq<ByteString>)
    ensures stream + Concat(chunks) == if chunks == [] then stream else stream + chunks[0] + Concat(chunks[1..])
  {
  }

  lemma {:induction false} ReadAllExtends(f: Framer, maxRead: nat, r: Reader, stream: ByteString,
      chunks: seq<ByteString>)
    requires Streaming(f) && Fits(f, maxRead) && r == Whole(f, stream)
    ensures ReadAll(f, maxRead, r, chunks) == Whole(f, stream + Concat(chunks))
    decreases |chunks|
  {
    ConcatFrom(stream, chunks);
    if chunks != [] {
      var next := Read(f, maxRead, r, chunks[0]);
      ReadExtends(f, maxRead, stream, chunks[0]);
      ReadAllExtends(f, maxRead, next, stream + chunks[0], chunks[1..]);
      FirstRead(f, maxRead, r, next, chunks);
    }
  }

  /** However the stream is cut, the reader ends as if it had been decoded in one piece. */
  lemma ChunkingInvariance(f: Framer, maxRead: nat, chunks: seq<ByteString>)
    requires Streaming(f) && Fits(f, maxRead)
    ensures ReadAll(f, maxRead, FRESH, chunks) == Whole(f, Concat(chunks))
  {
    ReadAllExtends(f, maxRead, FRESH, [], chunks);
    assert [] + Concat(chunks) == Concat(chunks);
  }

  // ------------------------------------------------------ the wire codec

  function FramerOf(c: Codec): Framer
    requires c.Valid()
  {
    src => DecodeOne(c, src)
  }

  lemma CodecStreams(c: Codec)
    requires c.Valid()
    ensures Streaming(FramerOf(c))
  {
    forall src, rest
      ensures Decided(FramerOf(c), src, rest)
    {
      if DecodeOne(c, src) != Failed(NeedMore) {
        AppendStable(c, src, rest);
      }
    }
  }

  lemma CodecFits(c: Codec, maxRead: nat)
    requires c.Valid() && maxRead >= c.MaxPayload() + HEADER_SIZE - 1
    ensures Fits(FramerOf(c), maxRead)
  {
  }

  /** Any two ways of cutting one stream leave the reader in the same state. */
  ghost predicate CutDoesNotMatter(f: Framer, maxRead: nat) {
    forall one, other :: Concat(one) == Concat(other) ==>
      ReadAll(f, maxRead, FRESH, one) == ReadAll(f, maxRead, FRESH, other)
  }

  /** With room for one incomplete frame, no stream and no cutting overruns the buffer. */
  lemma BufferNeverFull(c: Codec, maxRead: nat, chunks: seq<ByteString>)
    requires c.Valid() && maxRead >= c.MaxPayload() + HEADER_SIZE - 1
    ensures ReadAll(FramerOf(c), maxRead, FRESH, chunks) == Whole(FramerOf(c), Concat(chunks))
    ensures ReadAll(FramerOf(c), maxRead, FRESH, chunks).status != ReadBufferFull
  {
    CodecStreams(c);
    ChunkingInvariance(FramerOf(c), maxRead, chunks);
  }

  /** A frame that arrives in one read is delivered, whatever the bound. */
  lemma OneReadSuffices(f: Framer, maxRead: nat, msg: Message, frame: ByteString)
    requires f(frame) == Decoded(msg, |frame|) && Validate(msg).Ok? && frame != []
    ensures Read(f, maxRead, FRESH, frame).status == Running
  {
    assert FRESH.pending + frame == frame;
    assert TryFrame(f, frame) == Take(msg, |frame|);
    assert DecodePass(f, frame[|frame|..]) == Parse([], [], Running);
  }

  /** An undecided prefix longer than the bound stops the reader. */
  lemma ShortReadOverruns(f: Framer, maxRead: nat, front: ByteString)
    requires f(front) == Failed(NeedMore) && |front| > maxRead
    ensures Read(f, maxRead, FRESH, front).status == ReadBufferFull
  {
    assert FRESH.pending + front == front;
  }

  /** One frame, two cuts, two outcomes. */
  lemma CutMatters(f: Framer, maxRead: nat, frame: ByteString, cut: nat)
    requires cut <= |frame|
    requires Read(f, maxRead, FRESH, frame).status == Running
    requires Read(f, maxRead, FRESH, frame[..cut]).status == ReadBufferFull
    ensures !CutDoesNotMatter(f, maxRead)
  {
    var front, back := frame[..cut], frame[cut..];
    var one, other := [frame], [front, back];
    FirstRead(f, maxRead, FRESH, Read(f, maxRead, FRESH, frame), one);
    FirstRead(f, maxRead, FRESH, Read(f, maxRead, FRESH, front), other);
    StoppedStays(f, maxRead, Read(f, maxRead, FRESH, front), other[1..]);
    ConcatOne(frame);
    ConcatTwo(front, back);
    assert front + back == frame;
  }

  /** With less room, the largest frame gets through in one read and overruns the buffer in two. */
  lemma TooSmallABuffer(c: Codec, maxRead: nat)
    requires c.Valid() && maxRead < c.MaxPayload() + HEADER_SIZE - 1
    ensures !CutDoesNotMatter(FramerOf(c), maxRead)
  {
    var plain, msg := c.(cipher := None), Message(PAYLOAD_BINARY, seq(c.MaxPayload(), _ => 0));
    var encoded := Encode(plain, msg, 0);
    EncodeShape(plain, msg, 0);
    LargestFrameCut(c, maxRead, msg, encoded.value);
  }

  lemma LargestFrameCut(c: Codec, maxRead: nat, msg: Message, frame: ByteString)
    requires c.Valid() && maxRead < c.MaxPayload() + HEADER_SIZE - 1
    requires Encode(c.(cipher := None), msg, 0) == Ok(frame) && |frame| == HEADER_SIZE + c.MaxPayload()
    ensures !CutDoesNotMatter(FramerOf(c), maxRead)
  {
    var front := frame[..|frame| - 1];
    PlainFrameAccepted(c, msg, frame);
    OneReadSuffices(FramerOf(c), maxRead, msg, frame);
    EncodedHeader(c.(cipher := None), msg, 0, frame, front);
    assert DecodeOne(c, front) == Failed(NeedMore);
    ShortReadOverruns(FramerOf(c), maxRead, front);
    CutMatters(FramerOf(c), maxRead, frame, |frame| - 1);
  }

  lemma ConcatOne(a: ByteString)
    ensures Concat([a]) == a
  {
    assert [a][1..] == [];
  }

  lemma ConcatTwo(a: ByteString, b: ByteString)
    ensures Concat([a, b]) == a + b
  {
    assert [a, b][1..] == [b];
    ConcatOne(b);
  }

  /** The exact buffer size at which cutting stops mattering for this codec. */
  lemma CuttingMattersExactlyWhenTooSmall(c: Codec, maxRead: nat)
    requires c.Valid()
    ensures CutDoesNotMatter(FramerOf(c), maxRead) <==> maxRead >= c.MaxPayload() + HEADER_SIZE - 1
  {
    if maxRead >= c.MaxPayload() + HEADER_SIZE - 1 {
      forall one, other | Concat(one) == Concat(other)
        ensures ReadAll(FramerOf(c), maxRead, FRESH, one) == ReadAll(FramerOf(c), maxRead, FRESH, other)
      {
        BufferNeverFull(c, maxRead, one);
        BufferNeverFull(c, maxRead, other);
      }
    } else {
      TooSmallABuffer(c, maxRead);
    }
  }

  // -------------------------------------------- streams of encoded frames

  /** To `f`, `frame` is exactly one frame holding `msg`: whole it decodes, cut short it waits. */
  ghost predicate FrameOf(f: Framer, msg: Message, frame: ByteString) {
    && Validate(msg).Ok? && frame != []
    && (forall rest :: f(frame + rest) == Decoded(msg, |frame|))
    && (forall k :: 0 <= k < |frame| ==> f(frame[..k]) == Failed(NeedMore))
  }

  ghost predicate FramesOf(f: Framer, msgs: seq<Message>, frames: seq<ByteString>) {
    |msgs| == |frames| && forall i :: 0 <= i < |msgs| ==> FrameOf(f, msgs[i], frames[i])
  }

  lemma EncodingIsFrame(c: Codec, msg: Message, frame: ByteString)
    requires c.Valid() && c.Lawful() && IsEncoding(c, msg, frame)
    ensures FrameOf(FramerOf(c), msg, frame)
  {
    forall rest
      ensures DecodeOne(c, frame + rest) == Decoded(msg, |frame|)
    {
      RoundTrip(c, msg, frame, rest);
    }
    forall k | 0 <= k < |frame|
      ensures DecodeOne(c, frame[..k]) == Failed(NeedMore)
    {
      ProperPrefixNeedsMore(c, msg, frame, k);
    }
    assert DecodeOne(c, frame + []).Decoded?;
  }

  /** A frame at the head of the stream is decoded first. */
  lemma DecodeHead(f: Framer, msg: Message, frame: ByteString, rest: ByteString)
    requires FrameOf(f, msg, frame)
    ensures DecodePass(f, frame + rest) == After([msg], DecodePass(f, rest))
  {
    assert (frame + rest)[|frame|..] == rest;
  }

  lemma DecodeCutFrame(f: Framer, msg: Message, frame: ByteString, prefix: ByteString)
    requires FrameOf(f, msg, frame) && prefix <= frame && |prefix| < |frame|
    ensures DecodePass(f, prefix) == Parse([], prefix, Running)
  {
    assert prefix == frame[..|prefix|];
  }

  lemma PrefixRest(first: ByteString, others: ByteString, prefix: ByteString)
    requires prefix <= first + others && |first| <= |prefix|
    ensures var rest := prefix[|first|..];
            prefix == first + rest && rest <= others && (prefix == first + others <==> rest == others)
  {
  }

  /** Any prefix of a stream of frames decodes to a prefix of the messages, to all of them only if it is complete. */
  lemma {:induction false} DecodePrefix(f: Framer, msgs: seq<Message>, frames: seq<ByteString>, prefix: ByteString)
    requires FramesOf(f, msgs, frames) && prefix <= Concat(frames)
    ensures var p := DecodePass(f, prefix);
            p.status == Running && p.messages <= msgs && (p.messages == msgs <==> prefix == Concat(frames))
    decreases |frames|
  {
    if frames != [] {
      var first, others := frames[0], Concat(frames[1..]);
      if |prefix| < |first| {
        assert prefix <= first;
        DecodeCutFrame(f, msgs[0], first, prefix);
      } else {
        var rest := prefix[|first|..];
        PrefixRest(first, others, prefix);
        DecodeHead(f, msgs[0], first, rest);
        DecodePrefix(f, msgs[1..], frames[1..], rest);
        assert [msgs[0]] + msgs[1..] == msgs;
      }
    }
  }

  // -------------------------------------------- why the reader stopped

  /** The framer takes `msgs` off the front of `bytes`, one after the other, and that brings it to `upTo`. */
  ghost predicate Yields(f: Framer, bytes: ByteString, upTo: nat, msgs: seq<Message>)
    decreases |msgs|
  {
    if msgs == [] then upTo == 0
    else
      && f(bytes).Decoded? && f(bytes).msg == msgs[0] && Validate(msgs[0]).Ok?
      && 0 < f(bytes).consumed <= |bytes| && f(bytes).consumed <= upTo
      && Yields(f, bytes[f(bytes).consumed..], upTo - f(bytes).consumed, msgs[1..])
  }

  /** What the framer answers at the place where a pass ends, for each way it can end. */
  ghost predicate Reason(f: Framer, rest: ByteString, leftover: ByteString, status: Status) {
    match status
    case Running => leftover == rest && (rest == [] || f(rest) == Failed(NeedMore))
    case BadFrame(e) => rest != [] && f(rest) == Failed(e) && e != NeedMore
    case InvalidFramer => rest != [] && f(rest).Decoded? && !(0 < f(rest).consumed <= |rest|)
    case InvalidMessage(e) =>
      rest != [] && f(rest).Decoded? && 0 < f(rest).consumed <= |rest| && Validate(f(rest).msg) == Err(e)
    case ReadBufferFull => false
    case ClosedByHandler => false
  }

  /** For any framer: a pass takes valid frames as long as there are any, and stops for the reason it gives. */
  lemma {:induction false} PassStopsForReason(f: Framer, bytes: ByteString) returns (k: nat)
    ensures k <= |bytes| && Yields(f, bytes, k, DecodePass(f, bytes).messages)
    ensures Reason(f, bytes[k..], DecodePass(f, bytes).leftover, DecodePass(f, bytes).status)
    decreases |bytes|
  {
    k := 0;
    if bytes != [] {
      match TryFrame(f, bytes) {
        case Take(msg, n) =>
          var rest := PassStopsForReason(f, bytes[n..]);
          k := n + rest;
          assert bytes[n..][rest..] == bytes[k..];
          var p := DecodePass(f, bytes);
          assert p.messages[1..] == DecodePass(f, bytes[n..]).messages;
        case _ =>
          assert bytes[0..] == bytes;
      }
    }
  }

  /** Good frames followed by one the framer rejects: the messages, then the framer's own error. */
  lemma {:induction false} PassReportsFailure(f: Framer, msgs: seq<Message>, frames: seq<ByteString>, bad: ByteString,
      e: WireError)
    requires FramesOf(f, msgs, frames) && bad != [] && f(bad) == Failed(e) && e != NeedMore
    ensures DecodePass(f, Concat(frames) + bad) == Parse(msgs, [], BadFrame(e))
    decreases |frames|
  {
    if frames == [] {
      assert Concat(frames) + bad == bad;
    } else {
      var rest := Concat(frames[1..]) + bad;
      assert Concat(frames) + bad == frames[0] + rest;
      PassReportsFailure(f, msgs[1..], frames[1..], bad, e);
      DecodeHead(f, msgs[0], frames[0], rest);
      assert [msgs[0]] + msgs[1..] == msgs;
    }
  }

  /** And however such a stream is cut and whatever follows, the reader ends with exactly that. */
  lemma ReaderReportsFailure(f: Framer, maxRead: nat, msgs: seq<Message>, frames: seq<ByteString>, bad: ByteString,
      e: WireError, rest: ByteString, chunks: seq<ByteString>)
    requires Streaming(f) && Fits(f, maxRead) && FramesOf(f, msgs, frames)
    requires bad != [] && f(bad) == Failed(e) && e != NeedMore && Concat(chunks) == Concat(frames) + bad + rest
    ensures ReadAll(f, maxRead, FRESH, chunks) == Reader([], msgs, BadFrame(e))
  {
    ChunkingInvariance(f, maxRead, chunks);
    PassReportsFailure(f, msgs, frames, bad, e);
    PassAppend(f, Concat(frames) + bad, rest);
  }
}
