/** Base64 as defined in section 4 of RFC 4648 (the standard alphabet with
    `=` padding), which Python's `base64.b64encode` produces, and the ASCII
    encoding that turns the Contabo credential string into bytes. The
    decoder is the partner that the round-trip lemma relates the encoder
    to. */
module Base64 {
  import opened Common

  type sextet = x: int | 0 <= x < 64

  /** The value-to-character table of section 4 of RFC 4648: A-Z, a-z, 0-9,
      then '+' and '/'. */
  function CharOf(i: sextet): (c: char)
    ensures c != '='
  {
    if i < 26 then ('A' as int + i) as char
    else if i < 52 then ('a' as int + (i - 26)) as char
    else if i < 62 then ('0' as int + (i - 52)) as char
    else if i == 62 then '+'
    else '/'
  }

  /** The inverse table; `None` for a character outside the alphabet. */
  function IndexOf(c: char): (r: Option<sextet>)
    ensures c == '=' ==> r.None?
  {
    if 'A' <= c <= 'Z' then Some(c as int - 'A' as int)
    else if 'a' <= c <= 'z' then Some(c as int - 'a' as int + 26)
    else if '0' <= c <= '9' then Some(c as int - '0' as int + 52)
    else if c == '+' then Some(62)
    else if c == '/' then Some(63)
    else None
  }

  lemma IndexOfCharOf(i: sextet)
    ensures IndexOf(CharOf(i)) == Some(i)
  {
  }

  /** Three bytes make four characters. */
  function EncodeTriple(b0: byte, b1: byte, b2: byte): (r: string)
    ensures |r| == 4 && '=' !in r
  {
    [CharOf(b0 / 4), CharOf((b0 % 4) * 16 + b1 / 16), CharOf((b1 % 16) * 4 + b2 / 64), CharOf(b2 % 64)]
  }

  /** A final group of two bytes: three characters and one pad. */
  function EncodePair(b0: byte, b1: byte): (r: string)
    ensures |r| == 4
  {
    [CharOf(b0 / 4), CharOf((b0 % 4) * 16 + b1 / 16), CharOf((b1 % 16) * 4), '=']
  }

  /** A final group of one byte: two characters and two pads. */
  function EncodeSingle(b0: byte): (r: string)
    ensures |r| == 4
  {
    [CharOf(b0 / 4), CharOf((b0 % 4) * 16), '=', '=']
  }

  function Encode(b: seq<byte>): (r: string)
    ensures |r| == 4 * ((|b| + 2) / 3)
  {
    if |b| == 0 then ""
    else if |b| == 1 then EncodeSingle(b[0])
    else if |b| == 2 then EncodePair(b[0], b[1])
    else EncodeTriple(b[0], b[1], b[2]) + Encode(b[3..])
  }

  /** Decodes one group of four characters, which may end in padding only
      when `last` holds. */
  function DecodeQuad(q: string, last: bool): (r: Option<seq<byte>>)
    requires |q| == 4
    ensures r.Some? ==> 1 <= |r.value| <= 3
  {
    var i0, i1, i2, i3 := IndexOf(q[0]), IndexOf(q[1]), IndexOf(q[2]), IndexOf(q[3]);
    if i0.None? || i1.None? then None
    else if i2.Some? && i3.Some? then
      var c0, c1, c2, c3 := i0.value, i1.value, i2.value, i3.value;
      Some([c0 * 4 + c1 / 16, (c1 % 16) * 16 + c2 / 4, (c2 % 4) * 64 + c3])
    else if last && i2.Some? && q[3] == '=' && i2.value % 4 == 0 then
      var c0, c1, c2 := i0.value, i1.value, i2.value;
      Some([c0 * 4 + c1 / 16, (c1 % 16) * 16 + c2 / 4])
    else if last && q[2] == '=' && q[3] == '=' && i1.value % 16 == 0 then
      var c0, c1 := i0.value, i1.value;
      Some([c0 * 4 + c1 / 16])
    else None
  }

  /** The decoder: the input is a whole number of four-character groups and
      only the last group may carry padding. */
  function Decode(s: string): (r: Option<seq<byte>>)
    decreases |s|
  {
    if |s| == 0 then Some([])
    else if |s| < 4 then None
    else if |s| == 4 then DecodeQuad(s, true)
    else
      match DecodeQuad(s[..4], false)
      case None => None
      case Some(head) =>
        match Decode(s[4..])
        case None => None
        case Some(tail) => Some(head + tail)
  }

  lemma TripleRoundTrip(b0: byte, b1: byte, b2: byte, last: bool)
    ensures DecodeQuad(EncodeTriple(b0, b1, b2), last) == Some([b0, b1, b2])
  {
    var q := EncodeTriple(b0, b1, b2);
    var c0, c1, c2, c3 := b0 / 4, (b0 % 4) * 16 + b1 / 16, (b1 % 16) * 4 + b2 / 64, b2 % 64;
    IndexOfCharOf(c0); IndexOfCharOf(c1); IndexOfCharOf(c2); IndexOfCharOf(c3);
    assert c1 / 16 == b0 % 4 && c1 % 16 == b1 / 16;
    assert c2 / 4 == b1 % 16 && c2 % 4 == b2 / 64;
  }

  lemma PairRoundTrip(b0: byte, b1: byte)
    ensures DecodeQuad(EncodePair(b0, b1), true) == Some([b0, b1])
  {
    var c0, c1, c2 := b0 / 4, (b0 % 4) * 16 + b1 / 16, (b1 % 16) * 4;
    IndexOfCharOf(c0); IndexOfCharOf(c1); IndexOfCharOf(c2);
    assert c1 / 16 == b0 % 4 && c1 % 16 == b1 / 16;
    assert c2 / 4 == b1 % 16 && c2 % 4 == 0;
  }

  lemma SingleRoundTrip(b0: byte)
    ensures DecodeQuad(EncodeSingle(b0), true) == Some([b0])
  {
    var c0, c1 := b0 / 4, (b0 % 4) * 16;
    IndexOfCharOf(c0); IndexOfCharOf(c1);
    assert c1 / 16 == b0 % 4 && c1 % 16 == 0;
  }

  /** A non-final group followed by a decodable rest decodes to the
      concatenation. */
  lemma DecodeGroupThenRest(q: string, rest: string, head: seq<byte>, tail: seq<byte>)
    requires |q| == 4 && |rest| > 0
    requires DecodeQuad(q, false) == Some(head) && Decode(rest) == Some(tail)
    ensures Decode(q + rest) == Some(head + tail)
  {
    var s := q + rest;
    assert s[..4] == q && s[4..] == rest;
  }

  lemma EncodeUnfold(b: seq<byte>)
    requires |b| >= 3
    ensures Encode(b) == EncodeTriple(b[0], b[1], b[2]) + Encode(b[3..])
  {
  }

  lemma DecodeLastGroup(q: string)
    requires |q| == 4
    ensures Decode(q) == DecodeQuad(q, true)
  {
  }

  lemma RoundTripShort(b: seq<byte>)
    requires 1 <= |b| <= 3
    ensures Decode(Encode(b)) == Some(b)
  {
    var e := Encode(b);
    DecodeLastGroup(e);
    if |b| == 1 {
      RoundTripOne(b);
    } else if |b| == 2 {
      RoundTripTwo(b);
    } else {
      RoundTripThree(b);
    }
  }

  lemma RoundTripOne(b: seq<byte>)
    requires |b| == 1
    ensures DecodeQuad(Encode(b), true) == Some(b)
  {
    assert Encode(b) == EncodeSingle(b[0]);
    SingleRoundTrip(b[0]);
    assert [b[0]] == b;
  }

  lemma RoundTripTwo(b: seq<byte>)
    requires |b| == 2
    ensures DecodeQuad(Encode(b), true) == Some(b)
  {
    assert Encode(b) == EncodePair(b[0], b[1]);
    PairRoundTrip(b[0], b[1]);
    assert [b[0], b[1]] == b;
  }

  lemma RoundTripThree(b: seq<byte>)
    requires |b| == 3
    ensures DecodeQuad(Encode(b), true) == Some(b)
  {
    EncodeUnfold(b);
    assert Encode(b[3..]) == "";
    assert Encode(b) == EncodeTriple(b[0], b[1], b[2]);
    TripleRoundTrip(b[0], b[1], b[2], true);
    assert [b[0], b[1], b[2]] == b;
  }

  /** Decoding undoes encoding for every byte string. */
  lemma {:induction false} RoundTrip(b: seq<byte>)
    ensures Decode(Encode(b)) == Some(b)
  {
    if 1 <= |b| <= 3 {
      RoundTripShort(b);
    } else if |b| > 3 {
      var q := EncodeTriple(b[0], b[1], b[2]);
      EncodeUnfold(b);
      TripleRoundTrip(b[0], b[1], b[2], false);
      RoundTrip(b[3..]);
      DecodeGroupThenRest(q, Encode(b[3..]), [b[0], b[1], b[2]], b[3..]);
      assert [b[0], b[1], b[2]] + b[3..] == b;
    }
  }

  /** Python's `str.encode('ascii')`: one byte per character, and a
      `UnicodeEncodeError` for any character at or above 128. */
  function AsciiEncode(s: string): (r: Option<seq<byte>>)
    ensures r.Some? <==> forall k :: 0 <= k < |s| ==> s[k] as int < 128
    ensures r.Some? ==> |r.value| == |s| && forall k :: 0 <= k < |s| ==> r.value[k] == s[k] as int
  {
    if s == [] then Some([])
    else if s[0] as int >= 128 then None
    else
      match AsciiEncode(s[1..])
      case None => None
      case Some(tail) => Some([s[0] as int] + tail)
  }

  /** Reading bytes below 128 back as characters (the receiving side of a
      Basic credential). */
  function AsciiDecode(b: seq<byte>): (s: string)
    requires forall k :: 0 <= k < |b| ==> b[k] < 128
    ensures |s| == |b| && forall k :: 0 <= k < |b| ==> s[k] as int == b[k]
  {
    if b == [] then [] else [b[0] as char] + AsciiDecode(b[1..])
  }

  lemma AsciiRoundTrip(s: string)
    requires AsciiEncode(s).Some?
    ensures AsciiDecode(AsciiEncode(s).value) == s
  {
  }
}
