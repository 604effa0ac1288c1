/**
 The version 1 envelope: a ten-octet header followed by a payload.

 `Encode` and `DecodeOne` are a printer and a parser over unbounded octet strings. Ciphers are
 abstract: a sealing function that takes a nonce and an opening function that undoes it under the
 same associated data.
 */
module Wire {
  import opened Bytes

  const MAGIC := 0x4f47
  const VERSION: Byte := 1
  const HEADER_SIZE := 10
  const DEFAULT_MAX_PAYLOAD := 0x100_0000
  const U32_LIMIT := 0x1_0000_0000
  const ALG_NONE: nat := 0
  const PAYLOAD_BINARY: Byte := 0
  const PAYLOAD_TEXT: Byte := 1

  datatype Message = Message(kind: Byte, data: ByteString)

  datatype WireError =
    | NeedMore | BadMagic | UnsupportedVersion | UnsupportedFlags | FrameTooLarge
    | MissingCipher | AlgorithmMismatch | TrailingData | BadArmor | SealFailed | OpenFailed
    | InvalidUtf8 | InvalidPayloadType

  datatype Result<+T> = Ok(value: T) | Err(error: WireError) {
    predicate IsFailure() { Err? }

    function PropagateFailure<U>(): Result<U>
      requires Err?
    {
      Err(error)
    }

    function Extract(): T
      requires Ok?
    {
      value
    }
  }

  /** What `DecodeOne` returns; on failure nothing is consumed. */
  datatype Decoding = Decoded(msg: Message, consumed: int) | Failed(error: WireError)

  datatype Cipher = Cipher(
    algorithm: nat,
    authenticated: bool,
    seal: (nat, ByteString, ByteString) -> Maybe<ByteString>,
    open: (ByteString, ByteString) -> Maybe<ByteString>)

  datatype Codec = Codec(cipher: Maybe<Cipher>, configuredMax: nat) {
    function MaxPayload(): nat {
      if configuredMax == 0 then DEFAULT_MAX_PAYLOAD else configuredMax
    }

    /** The field widths of the source: a 32-bit bound and a 16-bit algorithm identifier. */
    predicate Valid() {
      && configuredMax < U32_LIMIT
      && (cipher.Some? ==> cipher.value.algorithm < 0x1_0000)
    }

    /** Opening undoes sealing under the same associated data, whatever the nonce. */
    ghost predicate Lawful() {
      cipher.Some? ==>
        forall nonce, plain, aad ::
          var sealed := cipher.value.seal(nonce, plain, aad);
          sealed.Some? ==> cipher.value.open(sealed.value, aad) == Some(plain)
    }
  }

  function Validate(m: Message): Result<()> {
    if m.kind == PAYLOAD_BINARY then Ok(())
    else if m.kind == PAYLOAD_TEXT then
      if Utf8Valid(m.data) then Ok(()) else Err(InvalidUtf8)
    else Err(InvalidPayloadType)
  }

  // Flag bit 0 marks text, bit 1 marks encryption; any other bit is unknown.
  function Flags(text: bool, encrypted: bool): (f: Byte)
    ensures f < 4 && IsText(f) == text && IsEncrypted(f) == encrypted
  {
    (if text then 1 else 0) + (if encrypted then 2 else 0)
  }

  predicate IsText(flags: Byte) { flags % 2 == 1 }

  predicate IsEncrypted(flags: Byte) { flags / 2 % 2 == 1 }

  function ValidateSemanticHeader(flags: Byte, algorithm: nat): Result<()> {
    if flags >= 4 then Err(UnsupportedFlags)
    else if !IsEncrypted(flags) && algorithm != ALG_NONE then Err(AlgorithmMismatch)
    else Ok(())
  }

  /** The octets both ends authenticate: everything in the header except the length. */
  function SemanticAad(flags: Byte, algorithm: nat): (aad: ByteString)
    ensures |aad| == 6
  {
    PutBigEndian(MAGIC, 2) + [VERSION, flags] + PutBigEndian(algorithm, 2)
  }

  function HeaderBytes(flags: Byte, algorithm: nat, length: nat): (h: ByteString)
    ensures |h| == HEADER_SIZE
  {
    SemanticAad(flags, algorithm) + PutBigEndian(length, 4)
  }

  /** The associated data a cipher is given: none unless it authenticates. */
  function AadFor(cipher: Cipher, flags: Byte): ByteString {
    if cipher.authenticated then SemanticAad(flags, cipher.algorithm) else []
  }

  function Algorithm(c: Codec): nat {
    if c.cipher.Some? then c.cipher.value.algorithm else ALG_NONE
  }

  /** The payload octets that go on the wire: plain, sealed, or sealed and armoured. */
  function WirePayload(c: Codec, msg: Message, nonce: nat): Result<ByteString>
    requires c.Valid()
  {
    if c.cipher.None? then Ok(msg.data)
    else
      var cipher := c.cipher.value;
      var sealed := cipher.seal(nonce, msg.data, AadFor(cipher, Flags(msg.kind == PAYLOAD_TEXT, true)));
      if sealed.None? then Err(SealFailed)
      else Ok(if msg.kind == PAYLOAD_TEXT then Base64Encode(sealed.value) else sealed.value)
  }

  function Encode(c: Codec, msg: Message, nonce: nat): Result<ByteString>
    requires c.Valid()
  {
    var _ :- Validate(msg);
    if |msg.data| > c.MaxPayload() then Err(FrameTooLarge)
    else
      var payload :- WirePayload(c, msg, nonce);
      if |payload| > c.MaxPayload() || |payload| >= U32_LIMIT then Err(FrameTooLarge)
      else Ok(HeaderBytes(Flags(msg.kind == PAYLOAD_TEXT, c.cipher.Some?), Algorithm(c), |payload|) + payload)
  }

  /** `frame` is one of the encodings of `msg` (sealing may choose any nonce). */
  ghost predicate IsEncoding(c: Codec, msg: Message, frame: ByteString)
    requires c.Valid()
  {
    exists nonce :: Encode(c, msg, nonce) == Ok(frame)
  }

  /** Undoes the payload transform: unarmour, then open. */
  function OpenPayload(c: Codec, flags: Byte, payload: ByteString): Result<ByteString>
    requires c.Valid() && (IsEncrypted(flags) ==> c.cipher.Some?)
  {
    if !IsEncrypted(flags) then Ok(payload)
    else
      var raw := if IsText(flags) then Base64Decode(payload) else Some(payload);
      if raw.None? then Err(BadArmor)
      else
        var plain := c.cipher.value.open(raw.value, AadFor(c.cipher.value, flags));
        if plain.None? then Err(OpenFailed) else Ok(plain.value)
  }

  datatype Header = Header(flags: Byte, algorithm: nat, length: nat)

  /** Parses a complete header without touching the payload. */
  function ParseHeader(src: ByteString): Result<Header> {
    if |src| < HEADER_SIZE then Err(NeedMore)
    else if BigEndian(src[0..2]) != MAGIC then Err(BadMagic)
    else if src[2] != VERSION then Err(UnsupportedVersion)
    else
      var h := Header(src[3], BigEndian(src[4..6]), BigEndian(src[6..10]));
      var _ :- ValidateSemanticHeader(h.flags, h.algorithm);
      Ok(h)
  }

  /** Checks a header against this codec before any payload octet is needed. */
  function AdmitHeader(c: Codec, h: Header): Result<()> {
    if h.length > c.MaxPayload() then Err(FrameTooLarge)
    else if IsEncrypted(h.flags) && c.cipher.None? then Err(MissingCipher)
    else if IsEncrypted(h.flags) && c.cipher.value.algorithm != h.algorithm then Err(AlgorithmMismatch)
    else Ok(())
  }

  function DecodePayload(c: Codec, h: Header, payload: ByteString): Result<Message>
    requires c.Valid() && AdmitHeader(c, h).Ok?
  {
    var data :- OpenPayload(c, h.flags, payload);
    if |data| > c.MaxPayload() then Err(FrameTooLarge)
    else
      var msg := Message(if IsText(h.flags) then PAYLOAD_TEXT else PAYLOAD_BINARY, data);
      var _ :- Validate(msg);
      Ok(msg)
  }

  function DecodeOne(c: Codec, src: ByteString): (d: Decoding)
    requires c.Valid()
    ensures d.Decoded? ==> HEADER_SIZE <= d.consumed <= |src| && d.consumed <= HEADER_SIZE + c.MaxPayload()
    ensures d.Decoded? ==> Validate(d.msg).Ok? && |d.msg.data| <= c.MaxPayload()
    ensures d == Failed(NeedMore) ==> |src| < HEADER_SIZE + c.MaxPayload()
  {
    var header := ParseHeader(src);
    if header.Err? then Failed(header.error)
    else
      var h := header.value;
      var admitted := AdmitHeader(c, h);
      if admitted.Err? then Failed(admitted.error)
      else
        var total := HEADER_SIZE + h.length;
        if |src| < total then Failed(NeedMore)
        else
          var msg := DecodePayload(c, h, src[HEADER_SIZE..total]);
          if msg.Err? then Failed(msg.error) else Decoded(msg.value, total)
  }

  /** Decodes exactly one frame and rejects trailing octets. */
  function Decode(c: Codec, src: ByteString): Result<Message>
    requires c.Valid()
  {
    match DecodeOne(c, src)
    case Failed(e) => Err(e)
    case Decoded(msg, n) => if n != |src| then Err(TrailingData) else Ok(msg)
  }

  // ------------------------------------------------------ in-place encoder

  method PutAt(frame: array<Byte>, at: nat, bytes: ByteString)
    requires at + |bytes| <= frame.Length
    modifies frame
    ensures forall k :: 0 <= k < |bytes| ==> frame[at + k] == bytes[k]
    ensures forall k :: 0 <= k < frame.Length && !(at <= k < at + |bytes|) ==> frame[k] == old(frame[k])
  {
    for i := 0 to |bytes|
      invariant forall k :: 0 <= k < i ==> frame[at + k] == bytes[k]
      invariant forall k :: 0 <= k < frame.Length && !(at <= k < at + i) ==> frame[k] == old(frame[k])
    {
      frame[at + i] := bytes[i];
    }
  }

  /** Fills one frame buffer field by field, as the source does. */
  method FillFrame(flags: Byte, algorithm: nat, payload: ByteString) returns (frame: ByteString)
    ensures frame == HeaderBytes(flags, algorithm, |payload|) + payload
  {
    var magic, alg, length := PutBigEndian(MAGIC, 2), PutBigEndian(algorithm, 2), PutBigEndian(|payload|, 4);
    var buffer := new Byte[HEADER_SIZE + |payload|](_ => 0);
    PutAt(buffer, 0, magic);
    buffer[2] := VERSION;
    buffer[3] := flags;
    PutAt(buffer, 4, alg);
    PutAt(buffer, 6, length);
    PutAt(buffer, HEADER_SIZE, payload);
    frame := buffer[..];
    assert frame[0..2] == magic && frame[4..6] == alg;
    assert frame[6..10] == length;
    assert frame[10..] == payload;
    assert frame == frame[0..2] + [VERSION, flags] + frame[4..6] + frame[6..10] + frame[10..];
  }

  /** The encoder, step by step; its result is `Encode`. */
  method EncodeFrame(c: Codec, msg: Message, nonce: nat) returns (r: Result<ByteString>)
    requires c.Valid()
    ensures r == Encode(c, msg, nonce)
  {
    var checked := Validate(msg);
    if checked.Err? {
      return Err(checked.error);
    }
    if |msg.data| > c.MaxPayload() {
      return Err(FrameTooLarge);
    }
    var flags: Byte := 0;
    if msg.kind == PAYLOAD_TEXT {
      flags := flags + 1;
    }
    var algorithm := ALG_NONE;
    var payload := msg.data;
    if c.cipher.Some? {
      algorithm := c.cipher.value.algorithm;
      flags := flags + 2;
      var sealed := c.cipher.value.seal(nonce, msg.data, AadFor(c.cipher.value, flags));
      if sealed.None? {
        return Err(SealFailed);
      }
      payload := sealed.value;
      if msg.kind == PAYLOAD_TEXT {
        payload := Base64Encode(payload);
      }
    }
    if |payload| > c.MaxPayload() || |payload| >= U32_LIMIT {
      return Err(FrameTooLarge);
    }
    var frame := FillFrame(flags, algorithm, payload);
    r := Ok(frame);
  }

  // -------------------------------------------------------- codec algebra

  /** The header written by `Encode` is read back field by field, whatever follows it. */
  lemma HeaderRoundTrip(flags: Byte, algorithm: nat, length: nat, src: ByteString)
    requires algorithm < 0x1_0000 && length < U32_LIMIT
    requires ValidateSemanticHeader(flags, algorithm).Ok?
    requires HeaderBytes(flags, algorithm, length) <= src
    ensures ParseHeader(src) == Ok(Header(flags, algorithm, length))
  {
    var h := HeaderBytes(flags, algorithm, length);
    assert h == src[..HEADER_SIZE];
    assert src[0..2] == h[0..2] == PutBigEndian(MAGIC, 2);
    assert src[4..6] == h[4..6] == PutBigEndian(algorithm, 2);
    assert src[6..10] == h[6..10] == PutBigEndian(length, 4);
    TwoAndFourOctets();
    ReadPrinted(MAGIC, 2);
    ReadPrinted(algorithm, 2);
    ReadPrinted(length, 4);
  }

  /** The parts of an encoded frame. */
  lemma EncodeShape(c: Codec, msg: Message, nonce: nat)
    requires c.Valid() && Encode(c, msg, nonce).Ok?
    ensures Validate(msg).Ok? && |msg.data| <= c.MaxPayload()
    ensures var payload := WirePayload(c, msg, nonce);
            && payload.Ok? && |payload.value| <= c.MaxPayload() && |payload.value| < U32_LIMIT
            && Encode(c, msg, nonce).value
               == HeaderBytes(Flags(msg.kind == PAYLOAD_TEXT, c.cipher.Some?), Algorithm(c), |payload.value|) +
                   payload.value
  {
  }

  ghost function HeaderOf(c: Codec, msg: Message, frame: ByteString): Header
    requires |frame| >= HEADER_SIZE
  {
    Header(Flags(msg.kind == PAYLOAD_TEXT, c.cipher.Some?), Algorithm(c), |frame| - HEADER_SIZE)
  }

  /** A frame's own header is read back and admitted by the codec that wrote it. */
  lemma EncodedHeader(c: Codec, msg: Message, nonce: nat, frame: ByteString, src: ByteString)
    requires c.Valid() && Encode(c, msg, nonce) == Ok(frame)
    requires |frame| >= HEADER_SIZE ==> frame[..HEADER_SIZE] <= src
    ensures |frame| >= HEADER_SIZE && WirePayload(c, msg, nonce) == Ok(frame[HEADER_SIZE..])
    ensures ParseHeader(src) == Ok(HeaderOf(c, msg, frame))
    ensures AdmitHeader(c, HeaderOf(c, msg, frame)).Ok?
  {
    EncodeShape(c, msg, nonce);
    var payload := WirePayload(c, msg, nonce).value;
    var flags := Flags(msg.kind == PAYLOAD_TEXT, c.cipher.Some?);
    var h := HeaderBytes(flags, Algorithm(c), |payload|);
    assert frame == h + payload;
    assert frame[..HEADER_SIZE] == h && frame[HEADER_SIZE..] == payload;
    HeaderRoundTrip(flags, Algorithm(c), |payload|, src);
  }

  /** Opening the payload of an encoded message gives back its data. */
  lemma PayloadRoundTrip(c: Codec, msg: Message, nonce: nat, frame: ByteString)
    requires c.Valid() && c.Lawful() && Encode(c, msg, nonce) == Ok(frame)
    ensures |frame| >= HEADER_SIZE && AdmitHeader(c, HeaderOf(c, msg, frame)).Ok?
    ensures DecodePayload(c, HeaderOf(c, msg, frame), frame[HEADER_SIZE..]) == Ok(msg)
  {
    EncodedHeader(c, msg, nonce, frame, frame);
    EncodeShape(c, msg, nonce);
    if c.cipher.Some? {
      var sealed := c.cipher.value.seal(nonce, msg.data, AadFor(c.cipher.value, Flags(msg.kind == PAYLOAD_TEXT, true)));
      Base64RoundTrip(sealed.value);
    }
  }

  /** `DecodeOne` on a complete frame whose header is already known. */
  lemma DecodeKnownHeader(c: Codec, src: ByteString, h: Header, msg: Message)
    requires c.Valid() && ParseHeader(src) == Ok(h) && AdmitHeader(c, h).Ok?
    requires HEADER_SIZE + h.length <= |src|
    requires DecodePayload(c, h, src[HEADER_SIZE..HEADER_SIZE + h.length]) == Ok(msg)
    ensures DecodeOne(c, src) == Decoded(msg, HEADER_SIZE + h.length)
  {
  }

  /** Decoding an encoded message returns it and consumes exactly its frame, whatever follows. */
  lemma RoundTrip(c: Codec, msg: Message, frame: ByteString, rest: ByteString)
    requires c.Valid() && c.Lawful() && IsEncoding(c, msg, frame)
    ensures DecodeOne(c, frame + rest) == Decoded(msg, |frame|)
  {
    var nonce :| Encode(c, msg, nonce) == Ok(frame);
    PayloadRoundTrip(c, msg, nonce, frame);
    EncodedHeader(c, msg, nonce, frame, frame + rest);
    assert (frame + rest)[HEADER_SIZE..|frame|] == frame[HEADER_SIZE..];
    DecodeKnownHeader(c, frame + rest, HeaderOf(c, msg, frame), msg);
  }

  /** Every proper prefix of a frame asks for more octets, never an error. */
  lemma ProperPrefixNeedsMore(c: Codec, msg: Message, frame: ByteString, k: nat)
    requires c.Valid() && IsEncoding(c, msg, frame) && k < |frame|
    ensures DecodeOne(c, frame[..k]) == Failed(NeedMore)
  {
    var nonce :| Encode(c, msg, nonce) == Ok(frame);
    if k >= HEADER_SIZE {
      EncodedHeader(c, msg, nonce, frame, frame[..k]);
    }
  }

  /** Octets appended after a decision change neither a success nor an error. */
  lemma AppendStable(c: Codec, src: ByteString, rest: ByteString)
    requires c.Valid() && DecodeOne(c, src) != Failed(NeedMore)
    ensures DecodeOne(c, src + rest) == DecodeOne(c, src)
  {
    var joined := src + rest;
    assert |src| >= HEADER_SIZE;
    assert joined[0..2] == src[0..2] && joined[4..6] == src[4..6] && joined[6..10] == src[6..10];
    var header := ParseHeader(src);
    if header.Ok? && HEADER_SIZE + header.value.length <= |src| {
      var total := HEADER_SIZE + header.value.length;
      assert joined[HEADER_SIZE..total] == src[HEADER_SIZE..total];
    }
  }

  /** Trailing octets after a complete frame are rejected by `Decode`. */
  lemma TrailingRejected(c: Codec, msg: Message, frame: ByteString, rest: ByteString)
    requires c.Valid() && c.Lawful() && IsEncoding(c, msg, frame)
    ensures Decode(c, frame + rest) == if rest == [] then Ok(msg) else Err(TrailingData)
  {
    RoundTrip(c, msg, frame, rest);
  }

  lemma TenOctets(src: ByteString, magic: ByteString, algorithm: ByteString, length: ByteString)
    requires |src| >= HEADER_SIZE && magic == src[0..2] && algorithm == src[4..6] && length == src[6..10]
    ensures src[..HEADER_SIZE] == magic + [src[2], src[3]] + algorithm + length
  {
  }

  /** What a valid header looks like: its ten octets are determined by its three fields. */
  lemma HeaderIsCanonical(src: ByteString)
    requires ParseHeader(src).Ok?
    ensures var h := ParseHeader(src).value;
            src[..HEADER_SIZE] == HeaderBytes(h.flags, h.algorithm, h.length)
  {
    PrintRead(src[0..2]);
    PrintRead(src[4..6]);
    PrintRead(src[6..10]);
    TenOctets(src, src[0..2], src[4..6], src[6..10]);
  }

  /** What acceptance without a cipher says about a frame. */
  lemma PlainFrameParts(c: Codec, src: ByteString, msg: Message)
    requires c.Valid() && c.cipher.None? && Decode(c, src) == Ok(msg)
    ensures Validate(msg).Ok? && |src| == HEADER_SIZE + |msg.data| && |msg.data| <= c.MaxPayload()
    ensures src[HEADER_SIZE..] == msg.data
    ensures ParseHeader(src) == Ok(HeaderOf(c, msg, src))
  {
    var h := ParseHeader(src).value;
    assert src[HEADER_SIZE..HEADER_SIZE + h.length] == src[HEADER_SIZE..];
    assert DecodePayload(c, h, src[HEADER_SIZE..]) == Ok(msg);
  }

  /** A frame accepted without a cipher is the one `Encode` writes for its message. */
  lemma PlainFrameIsEncoding(c: Codec, src: ByteString, msg: Message, nonce: nat)
    requires c.Valid() && c.cipher.None? && Decode(c, src) == Ok(msg)
    ensures Encode(c, msg, nonce) == Ok(src)
  {
    PlainFrameParts(c, src, msg);
    HeaderIsCanonical(src);
    assert src == src[..HEADER_SIZE] + src[HEADER_SIZE..];
  }

  /** Without a cipher the codec is a bijection between accepted frames and encodable messages. */
  lemma PlainCodecIsCanonical(c: Codec, src: ByteString, msg: Message, nonce: nat)
    requires c.Valid() && c.cipher.None?
    ensures Decode(c, src) == Ok(msg) <==> Encode(c, msg, nonce) == Ok(src)
  {
    if Encode(c, msg, nonce) == Ok(src) {
      TrailingRejected(c, msg, src, []);
      assert src + [] == src;
    }
    if Decode(c, src) == Ok(msg) {
      PlainFrameIsEncoding(c, src, msg, nonce);
    }
  }

  /** The payload of every encoded text message is text, whether it went out plain or sealed. */
  lemma TextPayloadIsText(c: Codec, msg: Message, frame: ByteString)
    requires c.Valid() && IsEncoding(c, msg, frame) && msg.kind == PAYLOAD_TEXT
    ensures |frame| >= HEADER_SIZE && Utf8Valid(frame[HEADER_SIZE..])
  {
    var nonce :| Encode(c, msg, nonce) == Ok(frame);
    EncodedHeader(c, msg, nonce, frame, frame);
    EncodeShape(c, msg, nonce);
    if c.cipher.Some? {
      AsciiIsUtf8(frame[HEADER_SIZE..]);
    }
  }

  /** Whoever decodes it, a frame with one of its first octets damaged is rejected with the error of that field. */
  lemma DamagedHeaderReported(c: Codec, d: Codec, msg: Message, frame: ByteString, k: nat, b: Byte)
    requires c.Valid() && d.Valid() && IsEncoding(c, msg, frame) && k < 4 && k < |frame| && b != frame[k]
    ensures k < 2 ==> DecodeOne(d, frame[k := b]) == Failed(BadMagic)
    ensures k == 2 ==> DecodeOne(d, frame[k := b]) == Failed(UnsupportedVersion)
    ensures k == 3 && b >= 4 ==> DecodeOne(d, frame[k := b]) == Failed(UnsupportedFlags)
  {
    var nonce :| Encode(c, msg, nonce) == Ok(frame);
    EncodedHeader(c, msg, nonce, frame, frame);
    var src := frame[k := b];
    if k < 2 {
      TwoAndFourOctets();
      PrintRead(src[0..2]);
      PrintRead(frame[0..2]);
      assert src[0..2][k] != frame[0..2][k];
    } else {
      assert src[0..2] == frame[0..2];
    }
  }

  /**
   A frame whose flags octet is damaged into another known value. A lost or a new encryption bit is
   reported, unless the algorithm number happens to fit; a plain frame whose text bit changed is taken for
   a message of the other kind, if it can be one.
   */
  lemma FlippedFlags(c: Codec, d: Codec, msg: Message, frame: ByteString, b: Byte)
    requires c.Valid() && d.Valid() && IsEncoding(c, msg, frame)
    requires |frame| >= HEADER_SIZE && b < 4 && b != frame[3] && |frame| - HEADER_SIZE <= d.MaxPayload()
    ensures c.cipher.Some? && !IsEncrypted(b) && Algorithm(c) != ALG_NONE ==>
              DecodeOne(d, frame[3 := b]) == Failed(AlgorithmMismatch)
    ensures c.cipher.None? && IsEncrypted(b) && d.cipher.None? ==> DecodeOne(d, frame[3 := b]) == Failed(MissingCipher)
    ensures c.cipher.None? && IsEncrypted(b) && d.cipher.Some? && Algorithm(d) != ALG_NONE ==>
              DecodeOne(d, frame[3 := b]) == Failed(AlgorithmMismatch)
    ensures c.cipher.None? && !IsEncrypted(b) ==>
              DecodeOne(d, frame[3 := b]) ==
              if IsText(b) && !Utf8Valid(msg.data) then Failed(InvalidUtf8)
              else Decoded(Message(if IsText(b) then PAYLOAD_TEXT else PAYLOAD_BINARY, msg.data), |frame|)
  {
    var nonce :| Encode(c, msg, nonce) == Ok(frame);
    var h := HeaderOf(c, msg, frame);
    EncodedHeader(c, msg, nonce, frame, frame);
    EncodeShape(c, msg, nonce);
    FlagsOnly(frame, b, h);
    if c.cipher.None? && !IsEncrypted(b) {
      var src := frame[3 := b];
      assert src[HEADER_SIZE..HEADER_SIZE + h.length] == frame[HEADER_SIZE..] == msg.data;
    }
  }

  /** Changing the flags octet changes that field of the header and nothing else. */
  lemma FlagsOnly(frame: ByteString, b: Byte, h: Header)
    requires ParseHeader(frame) == Ok(h)
    ensures ParseHeader(frame[3 := b]) ==
            var checked := ValidateSemanticHeader(b, h.algorithm);
            if checked.Err? then Err(checked.error) else Ok(h.(flags := b))
  {
    var src := frame[3 := b];
    assert src[0..2] == frame[0..2] && src[4..6] == frame[4..6] && src[6..10] == frame[6..10];
  }

  /** A decoder that is not meant for a frame says why, from its header alone, whatever follows. */
  lemma ForeignFrameReported(c: Codec, d: Codec, msg: Message, frame: ByteString, rest: ByteString)
    requires c.Valid() && d.Valid() && IsEncoding(c, msg, frame)
    ensures |frame| >= HEADER_SIZE
    ensures var seen := frame[..HEADER_SIZE] + rest;
            if |frame| - HEADER_SIZE > d.MaxPayload() then DecodeOne(d, seen) == Failed(FrameTooLarge)
            else if c.cipher.Some? && d.cipher.None? then DecodeOne(d, seen) == Failed(MissingCipher)
            else c.cipher.Some? && d.cipher.value.algorithm != c.cipher.value.algorithm ==>
                DecodeOne(d, seen) == Failed(AlgorithmMismatch)
  {
    var nonce :| Encode(c, msg, nonce) == Ok(frame);
    EncodedHeader(c, msg, nonce, frame, frame);
    EncodedHeader(c, msg, nonce, frame, frame[..HEADER_SIZE] + rest);
  }

  /** A complete plain text frame is accepted exactly if its payload is UTF-8, and otherwise rejected for that. */
  lemma PlainTextChecked(c: Codec, src: ByteString, n: nat)
    requires c.Valid() && n <= c.MaxPayload() && n < U32_LIMIT && HEADER_SIZE + n <= |src|
    requires HeaderBytes(Flags(true, false), ALG_NONE, n) <= src
    ensures var data := src[HEADER_SIZE..HEADER_SIZE + n];
            DecodeOne(c, src) == if Utf8Valid(data) then Decoded(Message(PAYLOAD_TEXT, data), HEADER_SIZE + n)
                else Failed(InvalidUtf8)
  {
    HeaderRoundTrip(Flags(true, false), ALG_NONE, n, src);
  }

  /** Every octet of the header, written out: "OG", version 1, flags, algorithm and payload length. */
  lemma FrameLayout(c: Codec, msg: Message, nonce: nat, frame: ByteString)
    requires c.Valid() && Encode(c, msg, nonce) == Ok(frame)
    ensures |frame| >= 10
    ensures frame[..4] == [0x4f, 0x47, 1, (if msg.kind == 1 then 1 else 0) + (if c.cipher.Some? then 2 else 0)]
    ensures frame[4..6] == if c.cipher.None? then [0, 0] else Octets2(c.cipher.value.algorithm)
    ensures |frame| - 10 < U32_LIMIT && frame[6..10] == Octets4(|frame| - 10)
  {
    EncodeShape(c, msg, nonce);
    EncodedHeader(c, msg, nonce, frame, frame);
    TwoOctets(MAGIC);
    TwoOctets(Algorithm(c));
    FourOctets(|frame| - HEADER_SIZE);
  }

  // ------------------------------------------------- what a cipher is given

  /**
   The payload of an encrypted frame is sealed under the frame's own first six octets if the cipher
   authenticates, and under nothing if it does not; a text frame carries it in Base64.
   */
  lemma SealedUnderHeader(c: Codec, msg: Message, nonce: nat, frame: ByteString)
    requires c.Valid() && c.cipher.Some? && Encode(c, msg, nonce) == Ok(frame)
    ensures |frame| >= HEADER_SIZE
    ensures var aad := if c.cipher.value.authenticated then frame[..6] else [];
            var sealed := c.cipher.value.seal(nonce, msg.data, aad);
            var payload := frame[HEADER_SIZE..];
            sealed.Some? && sealed == if msg.kind == PAYLOAD_TEXT then Base64Decode(payload) else Some(payload)
  {
    EncodeShape(c, msg, nonce);
    EncodedHeader(c, msg, nonce, frame, frame);
    var flags := Flags(msg.kind == PAYLOAD_TEXT, true);
    assert frame[..6] == SemanticAad(flags, Algorithm(c));
    var sealed := c.cipher.value.seal(nonce, msg.data, if c.cipher.value.authenticated then frame[..6] else []);
    Base64RoundTrip(sealed.value);
  }

  /** When a message can be encoded with a cipher: it is valid, it can be sealed, and it fits before and after. */
  lemma EncryptedEncodeDecided(c: Codec, msg: Message, nonce: nat)
    requires c.Valid() && c.cipher.Some?
    ensures var flags := if msg.kind == PAYLOAD_TEXT then 3 else 2;
            var header := [0x4f, 0x47, 1, flags] + Octets2(c.cipher.value.algorithm);
            var sealed := c.cipher.value.seal(nonce, msg.data, if c.cipher.value.authenticated then header else []);
            Encode(c, msg, nonce).Ok? <==>
              && (msg.kind == PAYLOAD_BINARY || (msg.kind == PAYLOAD_TEXT && Utf8Valid(msg.data)))
              && |msg.data| <= c.MaxPayload() && sealed.Some?
              && (if msg.kind == PAYLOAD_TEXT then (8 * |sealed.value| + 5) / 6 else |sealed.value|) <= c.MaxPayload()
  {
    var flags := Flags(msg.kind == PAYLOAD_TEXT, true);
    TwoOctets(MAGIC);
    TwoOctets(c.cipher.value.algorithm);
    assert SemanticAad(flags, c.cipher.value.algorithm) ==
           [0x4f, 0x47, 1, flags] + Octets2(c.cipher.value.algorithm);
  }

  /** What the sealed payload of a frame is, judging by the frame alone. */
  function SealedPart(src: ByteString, length: nat): Maybe<ByteString>
    requires |src| >= HEADER_SIZE + length
  {
    var payload := src[HEADER_SIZE..HEADER_SIZE + length];
    if IsText(src[3]) then Base64Decode(payload) else Some(payload)
  }

  /** How a complete encrypted frame is decided: its payload must open under its own first six octets. */
  lemma EncryptedFrameDecided(c: Codec, src: ByteString, h: Header)
    requires c.Valid() && ParseHeader(src) == Ok(h) && AdmitHeader(c, h).Ok?
    requires IsEncrypted(src[3]) && HEADER_SIZE + h.length <= |src|
    ensures var raw := SealedPart(src, h.length);
            var aad := if c.cipher.value.authenticated then src[..6] else [];
            DecodeOne(c, src) ==
            if raw.None? then Failed(BadArmor)
            else
              match c.cipher.value.open(raw.value, aad)
              case None => Failed(OpenFailed)
              case Some(data) =>
                if |data| > c.MaxPayload() then Failed(FrameTooLarge)
                else if IsText(src[3]) && !Utf8Valid(data) then Failed(InvalidUtf8)
                else Decoded(Message(if IsText(src[3]) then PAYLOAD_TEXT else PAYLOAD_BINARY, data),
                             HEADER_SIZE + h.length)
  {
    HeaderIsCanonical(src);
    assert src[..6] == src[..HEADER_SIZE][..6] == SemanticAad(h.flags, h.algorithm);
  }

  /** Every encrypted frame that is accepted was opened under its own header. */
  lemma OpenedUnderHeader(c: Codec, src: ByteString, msg: Message, n: nat)
    requires c.Valid() && DecodeOne(c, src) == Decoded(msg, n) && IsEncrypted(src[3])
    ensures c.cipher.Some?
    ensures var raw := SealedPart(src, n - HEADER_SIZE);
            var aad := if c.cipher.value.authenticated then src[..6] else [];
            raw.Some? && c.cipher.value.open(raw.value, aad) == Some(msg.data)
  {
    EncryptedFrameDecided(c, src, ParseHeader(src).value);
  }

  ghost predicate OpensNothing(cipher: Cipher, aad: ByteString) {
    forall x :: cipher.open(x, aad).None?
  }

  /** If nothing opens under the header with the text bit flipped, the frame with it flipped is rejected. */
  lemma FlippedTextBitRejected(c: Codec, msg: Message, nonce: nat, frame: ByteString, b: Byte)
    requires c.Valid() && c.cipher.Some? && c.cipher.value.authenticated && Encode(c, msg, nonce) == Ok(frame)
    requires |frame| >= HEADER_SIZE && IsEncrypted(b) && IsText(b) != IsText(frame[3]) && b < 4
    requires OpensNothing(c.cipher.value, frame[..6][3 := b])
    ensures DecodeOne(c, frame[3 := b]) ==
            Failed(if IsText(b) && Base64Decode(frame[HEADER_SIZE..]).None? then BadArmor else OpenFailed)
  {
    var h := HeaderOf(c, msg, frame);
    var src := frame[3 := b];
    EncodedHeader(c, msg, nonce, frame, frame);
    FlagsOnly(frame, b, h);
    EncryptedFrameDecided(c, src, h.(flags := b));
    assert src[..6] == frame[..6][3 := b];
    assert src[HEADER_SIZE..HEADER_SIZE + h.length] == frame[HEADER_SIZE..];
  }

  /** Without a cipher any valid message goes out, up to the configured bound or 16 MiB, and nothing above it. */
  lemma PlainEncodeDecided(c: Codec, msg: Message, nonce: nat)
    requires c.Valid() && c.cipher.None?
    ensures var bound := if c.configuredMax == 0 then 16 * 1024 * 1024 else c.configuredMax;
            Encode(c, msg, nonce) ==
            if msg.kind > 1 then Err(InvalidPayloadType)
            else if msg.kind == 1 && !Utf8Valid(msg.data) then Err(InvalidUtf8)
            else if |msg.data| > bound then Err(FrameTooLarge)
            else Ok([0x4f, 0x47, 1, msg.kind, 0, 0] + Octets4(|msg.data|) + msg.data)
  {
    TwoOctets(MAGIC);
    TwoOctets(ALG_NONE);
    if |msg.data| < U32_LIMIT {
      FourOctets(|msg.data|);
    }
    if Encode(c, msg, nonce).Ok? {
      assert SemanticAad(msg.kind, ALG_NONE) == [0x4f, 0x47, 1, msg.kind, 0, 0];
    }
  }

  /** The encryption bit of a frame says whether its writer had a cipher. */
  lemma EncryptionBit(c: Codec, msg: Message, nonce: nat, frame: ByteString)
    requires c.Valid() && Encode(c, msg, nonce) == Ok(frame)
    ensures |frame| >= HEADER_SIZE && IsEncrypted(frame[3]) == c.cipher.Some?
  {
    EncodeShape(c, msg, nonce);
  }

  /** A codec with a cipher also accepts every plain frame. */
  lemma PlainFrameAccepted(c: Codec, msg: Message, frame: ByteString)
    requires c.Valid() && Encode(c.(cipher := None), msg, 0) == Ok(frame)
    ensures Decode(c, frame) == Ok(msg)
  {
    var plain := c.(cipher := None);
    PayloadRoundTrip(plain, msg, 0, frame);
    EncodedHeader(plain, msg, 0, frame, frame);
    var h := HeaderOf(plain, msg, frame);
    assert frame[HEADER_SIZE..HEADER_SIZE + h.length] == frame[HEADER_SIZE..];
    DecodeKnownHeader(c, frame, h, msg);
  }

  /** With a cipher configured the codec still accepts plain frames, so it is canonical only without one. */
  lemma CanonicalOnlyWithoutCipher(c: Codec)
    requires c.Valid()
    ensures (forall src, msg :: Decode(c, src) == Ok(msg) ==> IsEncoding(c, msg, src)) <==> c.cipher.None?
  {
    if c.cipher.None? {
      forall src, msg | Decode(c, src) == Ok(msg)
        ensures IsEncoding(c, msg, src)
      {
        PlainCodecIsCanonical(c, src, msg, 0);
        assert Encode(c, msg, 0) == Ok(src);
      }
    } else {
      var msg := Message(PAYLOAD_BINARY, []);
      var frame := Encode(c.(cipher := None), msg, 0).value;
      PlainFrameAccepted(c, msg, frame);
      EncryptionBit(c.(cipher := None), msg, 0, frame);
      forall nonce
        ensures Encode(c, msg, nonce) != Ok(frame)
      {
        if Encode(c, msg, nonce) == Ok(frame) {
          EncryptionBit(c, msg, nonce, frame);
        }
      }
      assert !IsEncoding(c, msg, frame);
    }
  }
}
