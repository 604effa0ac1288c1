/**
 Octets, big-endian integers and the two text rules the codec relies on: UTF-8 validity and
 unpadded standard Base64 (RFC 4648, sections 3.2 and 4).
 */
module Bytes {

  type Byte = x: int | 0 <= x < 256

  type ByteString = seq<Byte>

  /** The low `width` octets of `n`, most significant first. */
  function PutBigEndian(n: nat, width: nat): (b: ByteString)
    ensures |b| == width
  {
    if width == 0 then [] else PutBigEndian(n / 256, width - 1) + [n % 256]
  }

  function BigEndian(b: ByteString): (n: nat)
    ensures n < Values(|b|)
  {
    if b == [] then 0 else BigEndian(b[..|b| - 1]) * 256 + b[|b| - 1]
  }

  /** The number of values that fit into `width` octets. */
  function Values(width: nat): (n: nat)
    ensures n > 0
  {
    if width == 0 then 1 else Values(width - 1) * 256
  }

  lemma TwoAndFourOctets()
    ensures Values(2) == 0x1_0000 && Values(4) == 0x1_0000_0000
  {
    assert Values(3) == 0x100_0000;
  }

  /** Two and four octets, most significant first, written out. */
  function Octets2(n: nat): ByteString
    requires n < 0x1_0000
  {
    [n / 256, n % 256]
  }

  function Octets4(n: nat): ByteString
    requires n < 0x1_0000_0000
  {
    [n / 0x100_0000, n / 0x1_0000 % 256, n / 256 % 256, n % 256]
  }

  lemma TwoOctets(n: nat)
    requires n < 0x1_0000
    ensures PutBigEndian(n, 2) == Octets2(n)
  {
    assert PutBigEndian(n / 256, 1) == PutBigEndian(n / 256 / 256, 0) + [n / 256 % 256];
  }

  lemma FourOctets(n: nat)
    requires n < 0x1_0000_0000
    ensures PutBigEndian(n, 4) == Octets4(n)
  {
    TwoOctets(n / 256 / 256);
    assert PutBigEndian(n, 4) == PutBigEndian(n / 256 / 256, 2) + [n / 256 % 256] + [n % 256];
  }

  /** Reading undoes printing for every number that fits. */
  lemma {:induction false} ReadPrinted(n: nat, width: nat)
    requires n < Values(width)
    ensures BigEndian(PutBigEndian(n, width)) == n
  {
    if width > 0 {
      var b := PutBigEndian(n, width);
      ReadPrinted(n / 256, width - 1);
      assert b[..|b| - 1] == PutBigEndian(n / 256, width - 1);
    }
  }

  /** One more octet: what is printed ends with it, after the print of the rest. */
  lemma PutOctet(n: nat, last: Byte, width: nat)
    ensures PutBigEndian(n * 256 + last, width + 1) == PutBigEndian(n, width) + [last]
  {
    assert (n * 256 + last) / 256 == n && (n * 256 + last) % 256 == last;
  }

  /** Printing undoes reading for every octet string. */
  lemma {:induction false} PrintRead(b: ByteString)
    ensures PutBigEndian(BigEndian(b), |b|) == b
  {
    if b != [] {
      var front, last := b[..|b| - 1], b[|b| - 1];
      PrintRead(front);
      PutOctet(BigEndian(front), last, |front|);
      assert b == front + [last];
    }
  }

  // ---------------------------------------------------------------- UTF-8

  predicate Continuation(b: Byte) { 0x80 <= b <= 0xBF }

  /** Length of the UTF-8 sequence at the head of `s`, or 0 when there is none. */
  function Utf8Width(s: ByteString): (n: nat)
    requires s != []
    ensures n <= |s| && n <= 4
  {
    var b := s[0];
    if b < 0x80 then 1
    else if 0xC2 <= b <= 0xDF && |s| >= 2 && Continuation(s[1]) then 2
    else if 0xE0 <= b <= 0xEF && |s| >= 3 && Continuation(s[1]) && Continuation(s[2])
            && (b == 0xE0 ==> s[1] >= 0xA0) && (b == 0xED ==> s[1] <= 0x9F) then 3
    else if 0xF0 <= b <= 0xF4 && |s| >= 4 && Continuation(s[1]) && Continuation(s[2]) && Continuation(s[3])
            && (b == 0xF0 ==> s[1] >= 0x90) && (b == 0xF4 ==> s[1] <= 0x8F) then 4
    else 0
  }

  predicate Utf8Valid(s: ByteString)
    decreases |s|
  {
    s == [] || (Utf8Width(s) > 0 && Utf8Valid(s[Utf8Width(s)..]))
  }

  /** A Unicode scalar value: any code point but a surrogate. */
  type Scalar = u: int | 0 <= u < 0x11_0000 && !(0xD800 <= u < 0xE000)

  /** The UTF-8 form of one scalar value (RFC 3629, section 3). */
  function Utf8Octets(u: Scalar): (s: ByteString)
    ensures s != []
  {
    var v: int := u;
    if v < 0x80 then [v]
    else if v < 0x800 then [0xC0 + v / 64, 0x80 + v % 64]
    else if v < 0x1_0000 then [0xE0 + v / 4096, 0x80 + v / 64 % 64, 0x80 + v % 64]
    else [0xF0 + v / 0x4_0000, 0x80 + v / 4096 % 64, 0x80 + v / 64 % 64, 0x80 + v % 64]
  }

  function Utf8Text(us: seq<Scalar>): ByteString {
    if us == [] then [] else Utf8Octets(us[0]) + Utf8Text(us[1..])
  }

  lemma TwoOctetScalar(b0: int, b1: int) returns (u: Scalar)
    requires 0xC2 <= b0 <= 0xDF && 0x80 <= b1 <= 0xBF
    ensures Utf8Octets(u) == [b0, b1]
  {
    u := (b0 - 0xC0) * 64 + (b1 - 0x80);
  }

  lemma ThreeOctetScalar(b0: int, b1: int, b2: int) returns (u: Scalar)
    requires 0xE0 <= b0 <= 0xEF && 0x80 <= b1 <= 0xBF && 0x80 <= b2 <= 0xBF
    requires (b0 == 0xE0 ==> b1 >= 0xA0) && (b0 == 0xED ==> b1 <= 0x9F)
    ensures Utf8Octets(u) == [b0, b1, b2]
  {
    u := ((b0 - 0xE0) * 64 + (b1 - 0x80)) * 64 + (b2 - 0x80);
    assert u / 64 == (b0 - 0xE0) * 64 + (b1 - 0x80);
  }

  lemma FourOctetScalar(b0: int, b1: int, b2: int, b3: int) returns (u: Scalar)
    requires 0xF0 <= b0 <= 0xF4 && 0x80 <= b1 <= 0xBF && 0x80 <= b2 <= 0xBF && 0x80 <= b3 <= 0xBF
    requires (b0 == 0xF0 ==> b1 >= 0x90) && (b0 == 0xF4 ==> b1 <= 0x8F)
    ensures Utf8Octets(u) == [b0, b1, b2, b3]
  {
    u := (((b0 - 0xF0) * 64 + (b1 - 0x80)) * 64 + (b2 - 0x80)) * 64 + (b3 - 0x80);
    assert u / 4096 == (b0 - 0xF0) * 64 + (b1 - 0x80);
    assert u / 64 == u / 4096 * 64 + (b2 - 0x80);
  }

  /** The scalar value whose UTF-8 form stands at the head of `s`. */
  lemma HeadScalar(s: ByteString) returns (u: Scalar)
    requires s != [] && Utf8Width(s) > 0
    ensures s[..Utf8Width(s)] == Utf8Octets(u)
  {
    var n := Utf8Width(s);
    if n == 1 {
      u := s[0];
    } else if n == 2 {
      u := TwoOctetScalar(s[0], s[1]);
    } else if n == 3 {
      u := ThreeOctetScalar(s[0], s[1], s[2]);
    } else {
      u := FourOctetScalar(s[0], s[1], s[2], s[3]);
    }
  }

  /** The UTF-8 form of a scalar value is recognised whatever follows it. */
  lemma WidthOfOctets(u: Scalar, rest: ByteString)
    ensures Utf8Width(Utf8Octets(u) + rest) == |Utf8Octets(u)|
  {
  }

  /** The validity test accepts exactly the texts that are the UTF-8 form of some scalar values. */
  lemma Utf8ValidIff(s: ByteString)
    ensures Utf8Valid(s) <==> exists us :: s == Utf8Text(us)
  {
    if Utf8Valid(s) {
      var us := ScalarsOf(s);
    }
    if us :| s == Utf8Text(us) {
      TextIsValid(us);
    }
  }

  lemma {:induction false} ScalarsOf(s: ByteString) returns (us: seq<Scalar>)
    requires Utf8Valid(s)
    ensures s == Utf8Text(us)
    decreases |s|
  {
    if s == [] {
      us := [];
    } else {
      var n := Utf8Width(s);
      var u := HeadScalar(s);
      var others := ScalarsOf(s[n..]);
      us := [u] + others;
      assert us[1..] == others && s == s[..n] + s[n..];
    }
  }

  lemma {:induction false} TextIsValid(us: seq<Scalar>)
    ensures Utf8Valid(Utf8Text(us))
  {
    if us != [] {
      var first, rest := Utf8Octets(us[0]), Utf8Text(us[1..]);
      TextIsValid(us[1..]);
      WidthOfOctets(us[0], rest);
      assert (first + rest)[|first|..] == rest;
    }
  }

  predicate Ascii(s: ByteString) { forall i :: 0 <= i < |s| ==> s[i] < 0x80 }

  /** Seven-bit text is always valid UTF-8, which is what makes Base64 safe in a text frame. */
  lemma {:induction false} AsciiIsUtf8(s: ByteString)
    requires Ascii(s)
    ensures Utf8Valid(s)
  {
    if s != [] {
      AsciiIsUtf8(s[1..]);
    }
  }

  // --------------------------------------------------------------- Base64

  /** Table 1 of RFC 4648. */
  function Alphabet(d: nat): (c: Byte)
    requires d < 64
    ensures c < 0x80 && c != 10 && c != 13 && DigitOf(c) == d
  {
    if d < 26 then 'A' as int + d
    else if d < 52 then 'a' as int + (d - 26)
    else if d < 62 then '0' as int + (d - 52)
    else if d == 62 then '+' as int
    else '/' as int
  }

  /** The six-bit value of a Base64 character, 64 for a character outside the alphabet. */
  function DigitOf(c: Byte): (d: nat)
    ensures d <= 64
  {
    if 65 <= c <= 90 then c - 65
    else if 97 <= c <= 122 then c - 97 + 26
    else if 48 <= c <= 57 then c - 48 + 52
    else if c == 43 then 62
    else if c == 47 then 63
    else 64
  }

  /** Reading a character is the inverse of the table, and nothing outside the table is a digit. */
  lemma DigitIff(c: Byte, d: nat)
    requires d < 64
    ensures DigitOf(c) == d <==> c == Alphabet(d)
  {
  }

  type Sextet = d: int | 0 <= d < 64

  /** Regroups octets into six-bit digits, the last one filled up with zero bits. */
  function Split(b: ByteString): (s: seq<Sextet>)
    ensures |s| == (8 * |b| + 5) / 6
    decreases |b|
  {
    if |b| == 0 then []
    else if |b| == 1 then [b[0] / 4, b[0] % 4 * 16]
    else if |b| == 2 then [b[0] / 4, b[0] % 4 * 16 + b[1] / 16, b[1] % 16 * 4]
    else [b[0] / 4, b[0] % 4 * 16 + b[1] / 16, b[1] % 16 * 4 + b[2] / 64, b[2] % 64] + Split(b[3..])
  }

  datatype Maybe<+T> = None | Some(value: T)

  /** Six-bit digits back to octets; a single leftover digit is an error, leftover bits are ignored. */
  function Join(s: seq<Sextet>): Maybe<ByteString>
    decreases |s|
  {
    if |s| == 0 then Some([])
    else if |s| == 1 then None
    else
      var d0: int, d1: int := s[0], s[1];
      if |s| == 2 then Some([d0 * 4 + d1 / 16])
      else
        var d2: int := s[2];
        if |s| == 3 then Some([d0 * 4 + d1 / 16, d1 % 16 * 16 + d2 / 4])
        else
          var rest := Join(s[4..]);
          if rest.None? then None
          else Some([d0 * 4 + d1 / 16, d1 % 16 * 16 + d2 / 4, d2 % 4 * 64 + s[3]] + rest.value)
  }

  function Base64Encode(b: ByteString): (s: ByteString)
    ensures |s| == (8 * |b| + 5) / 6
    ensures Ascii(s)
  {
    var d := Split(b);
    seq(|d|, i requires 0 <= i < |d| => Alphabet(d[i]))
  }

  function DropLineBreaks(s: ByteString): (r: ByteString)
    ensures |r| <= |s|
  {
    if s == [] then []
    else if s[0] == 10 || s[0] == 13 then DropLineBreaks(s[1..])
    else [s[0]] + DropLineBreaks(s[1..])
  }

  function Base64Decode(s: ByteString): Maybe<ByteString> {
    var t := DropLineBreaks(s);
    if forall i :: 0 <= i < |t| ==> DigitOf(t[i]) < 64 then
      Join(seq(|t|, i requires 0 <= i < |t| => DigitOf(t[i])))
    else
      None
  }

  lemma {:induction false} NoLineBreaksToDrop(s: ByteString)
    requires forall i :: 0 <= i < |s| ==> s[i] != 10 && s[i] != 13
    ensures DropLineBreaks(s) == s
  {
    if s != [] {
      NoLineBreaksToDrop(s[1..]);
    }
  }

  lemma {:induction false} JoinSplit(b: ByteString)
    ensures Join(Split(b)) == Some(b)
    decreases |b|
  {
    var s := Split(b);
    if |b| >= 3 {
      JoinSplit(b[3..]);
      assert s[4..] == Split(b[3..]);
      assert b == [b[0], b[1], b[2]] + b[3..];
    } else if |b| == 2 {
      assert b == [b[0], b[1]];
    } else if |b| == 1 {
      assert b == [b[0]];
    }
  }

  /**
   The digits spell the octets: each group of four digits and of three octets is the same 24-bit number,
   and a last group of two or three digits has its spare low bits ignored (RFC 4648, section 4).
   */
  predicate Spells(s: seq<Sextet>, b: ByteString)
    decreases |s|
  {
    if |s| < 2 then s == [] && b == []
    else
      var high: int := s[0] as int * 64 + s[1];
      if |s| == 2 then |b| == 1 && high / 16 == b[0]
      else if |s| == 3 then |b| == 2 && (high * 64 + s[2]) / 4 == b[0] as int * 256 + b[1]
      else
        && |b| >= 3 && (high * 64 + s[2]) * 64 + s[3] == (b[0] as int * 256 + b[1]) * 256 + b[2]
        && Spells(s[4..], b[3..])
  }

  /** The spare low bits of the last digit are zero. */
  predicate ZeroFilled(s: seq<Sextet>)
    decreases |s|
  {
    if |s| >= 4 then ZeroFilled(s[4..])
    else (|s| == 2 ==> s[1] % 16 == 0) && (|s| == 3 ==> s[2] % 4 == 0)
  }

  /** Joining gives the octets the digits spell, and fails exactly if they spell none. */
  lemma {:induction false} JoinIff(s: seq<Sextet>, b: ByteString)
    ensures Join(s) == Some(b) <==> Spells(s, b)
    ensures Join(s).None? <==> |s| % 4 == 1
    decreases |s|
  {
    if |s| >= 4 {
      JoinIff(s[4..], if |b| >= 3 then b[3..] else []);
      if |b| >= 3 {
        assert b == [b[0], b[1], b[2]] + b[3..];
      }
    } else if |s| == 3 {
      assert |b| == 2 ==> b == [b[0], b[1]];
    } else if |s| == 2 {
      assert |b| == 1 ==> b == [b[0]];
    }
  }

  lemma {:induction false} SplitFillsZero(b: ByteString)
    ensures ZeroFilled(Split(b))
    decreases |b|
  {
    if |b| >= 3 {
      SplitFillsZero(b[3..]);
      assert Split(b)[4..] == Split(b[3..]);
    }
  }

  lemma SameDigits(c0: int, c1: int, c2: int, c3: int, d0: int, d1: int, d2: int, d3: int)
    requires 0 <= c0 < 64 && 0 <= c1 < 64 && 0 <= c2 < 64 && 0 <= c3 < 64
    requires 0 <= d0 < 64 && 0 <= d1 < 64 && 0 <= d2 < 64 && 0 <= d3 < 64
    requires ((c0 * 64 + c1) * 64 + c2) * 64 + c3 == ((d0 * 64 + d1) * 64 + d2) * 64 + d3
    ensures c0 == d0 && c1 == d1 && c2 == d2 && c3 == d3
  {
  }

  lemma SameShortSpelling(b: ByteString, s: seq<Sextet>, t: seq<Sextet>)
    requires Spells(s, b) && ZeroFilled(s) && Spells(t, b) && ZeroFilled(t) && |s| < 4
    ensures s == t
  {
  }

  /** One spelling at most has nothing in the spare bits. */
  lemma {:induction false} SameSpelling(b: ByteString, s: seq<Sextet>, t: seq<Sextet>)
    requires Spells(s, b) && ZeroFilled(s) && Spells(t, b) && ZeroFilled(t)
    ensures s == t
    decreases |b|
  {
    if |s| < 4 {
      SameShortSpelling(b, s, t);
    } else {
      SameSpelling(b[3..], s[4..], t[4..]);
      SameDigits(s[0], s[1], s[2], s[3], t[0], t[1], t[2], t[3]);
      assert s == [s[0], s[1], s[2], s[3]] + s[4..] && t == [t[0], t[1], t[2], t[3]] + t[4..];
    }
  }

  /** Splitting gives the digits that spell the octets with nothing in the spare bits. */
  lemma SplitIff(b: ByteString, s: seq<Sextet>)
    ensures s == Split(b) <==> Spells(s, b) && ZeroFilled(s)
  {
    JoinSplit(b);
    JoinIff(Split(b), b);
    SplitFillsZero(b);
    if Spells(s, b) && ZeroFilled(s) {
      SameSpelling(b, s, Split(b));
    }
  }

  /** The test vectors of section 10 of RFC 4648, without padding, and the last two digits of its table. */
  lemma Rfc4648Vectors()
    ensures Base64Encode([]) == [] && Base64Encode(Octets("f")) == Octets("Zg")
    ensures Base64Encode(Octets("fo")) == Octets("Zm8") && Base64Encode(Octets("foo")) == Octets("Zm9v")
    ensures Base64Encode([0xFB, 0xEF, 0xFF]) == Octets("++//")
  {
    assert Split(Octets("foo")) == [25, 38, 61, 47] + Split([]);
    assert Split([0xFB, 0xEF, 0xFF]) == [62, 62, 63, 63] + Split([]);
  }

  function Octets(text: string): ByteString
    requires forall i :: 0 <= i < |text| ==> text[i] < 128 as char
  {
    seq(|text|, i requires 0 <= i < |text| => text[i] as int)
  }

  /** Base64 decoding undoes Base64 encoding, for every octet string. */
  lemma Base64RoundTrip(b: ByteString)
    ensures Base64Decode(Base64Encode(b)) == Some(b)
  {
    var d, t := Split(b), Base64Encode(b);
    NoLineBreaksToDrop(t);
    assert seq(|t|, i requires 0 <= i < |t| => DigitOf(t[i])) == d;
    JoinSplit(b);
  }
}
