/** Base 64 with the alphabet of section 4 of RFC 4648 ('A'-'Z', 'a'-'z', '0'-'9',
    '+', '/', and '=' for padding), as `btoa` produces it and `atob` reads it. */
module Base64 {
  import opened Types

  type byte = x: int | 0 <= x < 256

  /** The character for the 6-bit value `v`. */
  function Alphabet(v: int): char
    requires 0 <= v < 64
  {
    if v < 26 then ('A' as int + v) as char
    else if v < 52 then ('a' as int + v - 26) as char
    else if v < 62 then ('0' as int + v - 52) as char
    else if v == 62 then '+'
    else '/'
  }

  /** The 6-bit value of an alphabet character; `None` for any other character,
      the padding '=' included. */
  function Value(c: char): (r: Option<int>)
    ensures r.Some? ==> 0 <= r.value < 64 && Alphabet(r.value) == c
    ensures c == '=' ==> r.None?
  {
    if 'A' <= c <= 'Z' then Some(c as int - 'A' as int)
    else if 'a' <= c <= 'z' then Some(c as int - 'a' as int + 26)
    else if '0' <= c <= '9' then Some(c as int - '0' as int + 52)
    else if c == '+' then Some(62)
    else if c == '/' then Some(63)
    else None
  }

  /** Every alphabet character decodes to the value it encodes. */
  lemma ValueOfAlphabet(v: int)
    requires 0 <= v < 64
    ensures Value(Alphabet(v)) == Some(v)
    ensures Alphabet(v) != '='
  {
  }

  /** Three bytes become four characters, six bits each, high bits first. */
  function EncodeGroup(a: byte, b: byte, c: byte): string {
    [Alphabet(a / 4), Alphabet((a % 4) * 16 + b / 16), Alphabet((b % 16) * 4 + c / 64), Alphabet(c % 64)]
  }

  /** The encoding of `b`: whole groups, then a final group padded with '='. */
  function Encode(b: seq<byte>): (s: string)
    ensures |s| == 4 * ((|b| + 2) / 3)
    decreases |b|
  {
    if |b| == 0 then ""
    else if |b| == 1 then [Alphabet(b[0] / 4), Alphabet((b[0] % 4) * 16), '=', '=']
    else if |b| == 2 then [Alphabet(b[0] / 4), Alphabet((b[0] % 4) * 16 + b[1] / 16), Alphabet((b[1] % 16) * 4), '=']
    else EncodeGroup(b[0], b[1], b[2]) + Encode(b[3..])
  }

  /** Four alphabet characters become three bytes. */
  function DecodeGroup(q: string): Option<seq<byte>>
    requires |q| == 4
  {
    match (Value(q[0]), Value(q[1]), Value(q[2]), Value(q[3]))
    case (Some(v0), Some(v1), Some(v2), Some(v3)) =>
      Some([v0 * 4 + v1 / 16, (v1 % 16) * 16 + v2 / 4, (v2 % 4) * 64 + v3])
    case _ => None
  }

  /** The last group may end in one or two '='; the bits below the last whole byte
      are dropped. */
  function DecodeLast(q: string): Option<seq<byte>>
    requires |q| == 4
  {
    if q[2] == '=' && q[3] == '=' then
      match (Value(q[0]), Value(q[1]))
      case (Some(v0), Some(v1)) => Some([v0 * 4 + v1 / 16])
      case _ => None
    else if q[3] == '=' then
      match (Value(q[0]), Value(q[1]), Value(q[2]))
      case (Some(v0), Some(v1), Some(v2)) => Some([v0 * 4 + v1 / 16, (v1 % 16) * 16 + v2 / 4])
      case _ => None
    else DecodeGroup(q)
  }

  /** The bytes of a padded encoding; `None` when `s` is not one (the source's `atob`
      throws then). */
  function Decode(s: string): Option<seq<byte>>
    decreases |s|
  {
    if s == [] then Some([])
    else if |s| < 4 then None
    else if |s| == 4 then DecodeLast(s)
    else
      match (DecodeGroup(s[..4]), Decode(s[4..]))
      case (Some(g), Some(rest)) => Some(g + rest)
      case _ => None
  }

  lemma GroupRoundTrip(a: byte, b: byte, c: byte)
    ensures DecodeGroup(EncodeGroup(a, b, c)) == Some([a, b, c])
    ensures DecodeLast(EncodeGroup(a, b, c)) == Some([a, b, c])
  {
    var v0, v1, v2, v3 := a / 4, (a % 4) * 16 + b / 16, (b % 16) * 4 + c / 64, c % 64;
    ValueOfAlphabet(v0);
    ValueOfAlphabet(v1);
    ValueOfAlphabet(v2);
    ValueOfAlphabet(v3);
    assert v1 / 16 == a % 4 && v1 % 16 == b / 16;
    assert v2 / 4 == b % 16 && v2 % 4 == c / 64;
  }

  lemma OneByteRoundTrip(a: byte)
    ensures Decode(Encode([a])) == Some([a])
  {
    var v0, v1 := a / 4, (a % 4) * 16;
    ValueOfAlphabet(v0);
    ValueOfAlphabet(v1);
    assert Encode([a]) == [Alphabet(v0), Alphabet(v1), '=', '='];
  }

  lemma TwoBytesRoundTrip(a: byte, b: byte)
    ensures Decode(Encode([a, b])) == Some([a, b])
  {
    var v0, v1, v2 := a / 4, (a % 4) * 16 + b / 16, (b % 16) * 4;
    ValueOfAlphabet(v0);
    ValueOfAlphabet(v1);
    ValueOfAlphabet(v2);
    assert v1 / 16 == a % 4 && v1 % 16 == b / 16 && v2 / 4 == b % 16;
    assert Encode([a, b]) == [Alphabet(v0), Alphabet(v1), Alphabet(v2), '='];
  }

  lemma {:induction false} DecodeAppend(g: string, rest: string)
    requires |g| == 4 && rest != []
    requires DecodeGroup(g).Some? && Decode(rest).Some?
    ensures Decode(g + rest) == Some(DecodeGroup(g).value + Decode(rest).value)
  {
    assert (g + rest)[..4] == g && (g + rest)[4..] == rest;
  }

  lemma ThreeBytesRoundTrip(a: byte, b: byte, c: byte)
    ensures Decode(Encode([a, b, c])) == Some([a, b, c])
  {
    assert [a, b, c][3..] == [];
    assert Encode([a, b, c]) == EncodeGroup(a, b, c);
    GroupRoundTrip(a, b, c);
  }

  lemma {:induction false} ShortRoundTrip(b: seq<byte>)
    requires |b| <= 3
    ensures Decode(Encode(b)) == Some(b)
  {
    if |b| == 1 {
      assert b == [b[0]];
      OneByteRoundTrip(b[0]);
    } else if |b| == 2 {
      assert b == [b[0], b[1]];
      TwoBytesRoundTrip(b[0], b[1]);
    } else if |b| == 3 {
      assert b == [b[0], b[1], b[2]];
      ThreeBytesRoundTrip(b[0], b[1], b[2]);
    }
  }

  lemma FirstThree(b: seq<byte>)
    requires |b| >= 3
    ensures b == [b[0], b[1], b[2]] + b[3..]
  {
    assert b[..3] == [b[0], b[1], b[2]];
    assert b == b[..3] + b[3..];
  }

  lemma EncodeSplits(b: seq<byte>)
    requires |b| > 3
    ensures Encode(b) == EncodeGroup(b[0], b[1], b[2]) + Encode(b[3..])
    ensures Encode(b[3..]) != []
  {
  }

  /** Decoding an encoding gives back the bytes: decoding is a left inverse of
      encoding. It is not a right inverse, since the decoder ignores the unused low
      bits of the last character. */
  lemma {:induction false} DecodeEncode(b: seq<byte>)
    ensures Decode(Encode(b)) == Some(b)
    decreases |b|
  {
    if |b| <= 3 {
      ShortRoundTrip(b);
    } else {
      var tail := b[3..];
      var g := EncodeGroup(b[0], b[1], b[2]);
      var rest := Encode(tail);
      EncodeSplits(b);
      GroupRoundTrip(b[0], b[1], b[2]);
      DecodeEncode(tail);
      DecodeAppend(g, rest);
      FirstThree(b);
    }
  }
}
