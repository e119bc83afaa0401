/** Base64 with the standard alphabet and `=` padding (section 4 of
    RFC 4648), as used for every binary field of the envelope. Decoding is
    strict: the length must be a multiple of four, padding may only close
    the last group, and the bits a padded group leaves unused must be zero. */
module Base64 {
  import opened Bytes

  type sextet = x: int | 0 <= x < 64

  /** The character for a 6-bit value (Table 1 of RFC 4648). */
  function CharOf(v: sextet): char
  {
    if v < 26 then (65 + v) as char        // 'A'..'Z'
    else if v < 52 then (97 + v - 26) as char   // 'a'..'z'
    else if v < 62 then (48 + v - 52) as char   // '0'..'9'
    else if v == 62 then '+'
    else '/'
  }

  /** The 6-bit value of an alphabet character; `None` for anything else, `=` included. */
  function ValueOf(c: char): Option<sextet>
  {
    if 'A' <= c <= 'Z' then Some(c as int - 65)
    else if 'a' <= c <= 'z' then Some(c as int - 97 + 26)
    else if '0' <= c <= '9' then Some(c as int - 48 + 52)
    else if c == '+' then Some(62)
    else if c == '/' then Some(63)
    else None
  }

  lemma ValueOfCharOf(v: sextet)
    ensures ValueOf(CharOf(v)) == Some(v)
  {
  }

  /** Three bytes become four characters. */
  function EncodeGroup(b0: byte, b1: byte, b2: byte): (s: string)
    ensures |s| == 4
  {
    [CharOf(b0 / 4), CharOf((b0 % 4) * 16 + b1 / 16), CharOf((b1 % 16) * 4 + b2 / 64), CharOf(b2 % 64)]
  }

  function Encode(b: seq<byte>): (s: string)
    ensures |s| % 4 == 0
    ensures |s| == 0 <==> |b| == 0
    decreases |b|
  {
    if |b| == 0 then ""
    else if |b| == 1 then [CharOf(b[0] / 4), CharOf((b[0] % 4) * 16), '=', '=']
    else if |b| == 2 then
      [CharOf(b[0] / 4), CharOf((b[0] % 4) * 16 + b[1] / 16), CharOf((b[1] % 16) * 4), '=']
    else EncodeGroup(b[0], b[1], b[2]) + Encode(b[3..])
  }

  /** A group of four alphabet characters (no padding) becomes three bytes. */
  function DecodeGroup(s: string): Option<seq<byte>>
    requires |s| == 4
  {
    match (ValueOf(s[0]), ValueOf(s[1]), ValueOf(s[2]), ValueOf(s[3]))
    case (Some(v0), Some(v1), Some(v2), Some(v3)) =>
      Some([v0 as int * 4 + v1 / 16, (v1 % 16) as int * 16 + v2 / 4, (v2 % 4) * 64 + v3 as int])
    case _ => None
  }

  /** The last group: full, or padded with one or two `=`. */
  function DecodeLast(s: string): Option<seq<byte>>
    requires |s| == 4
  {
    if s[2] == '=' && s[3] == '=' then
      match (ValueOf(s[0]), ValueOf(s[1]))
      case (Some(v0), Some(v1)) =>
        if v1 % 16 == 0 then Some([v0 as int * 4 + v1 / 16]) else None
      case _ => None
    else if s[3] == '=' then
      match (ValueOf(s[0]), ValueOf(s[1]), ValueOf(s[2]))
      case (Some(v0), Some(v1), Some(v2)) =>
        if v2 % 4 == 0 then Some([v0 as int * 4 + v1 / 16, (v1 % 16) as int * 16 + v2 / 4]) else None
      case _ => None
    else DecodeGroup(s)
  }

  function Decode(s: string): Option<seq<byte>>
    decreases |s|
  {
    if |s| == 0 then Some([])
    else if |s| < 4 then None
    else if |s| == 4 then DecodeLast(s)
    else
      match (DecodeGroup(s[..4]), Decode(s[4..]))
      case (Some(g), Some(rest)) => Some(g + rest)
      case _ => None
  }

  /** The first byte back from the first two sextets. */
  lemma FirstByteBack(b0: byte, b1: byte)
    ensures (b0 / 4) * 4 + ((b0 % 4) * 16 + b1 / 16) / 16 == b0
  {
    assert ((b0 % 4) * 16 + b1 / 16) / 16 == b0 % 4;
  }

  /** The second byte back from the second and third sextets. */
  lemma SecondByteBack(b0: byte, b1: byte, b2: byte)
    ensures (((b0 % 4) * 16 + b1 / 16) % 16) * 16 + ((b1 % 16) * 4 + b2 / 64) / 4 == b1
  {
    assert ((b0 % 4) * 16 + b1 / 16) % 16 == b1 / 16;
    assert ((b1 % 16) * 4 + b2 / 64) / 4 == b1 % 16;
  }

  /** The third byte back from the third and fourth sextets. */
  lemma ThirdByteBack(b1: byte, b2: byte)
    ensures (((b1 % 16) * 4 + b2 / 64) % 4) * 64 + b2 % 64 == b2
  {
    assert ((b1 % 16) * 4 + b2 / 64) % 4 == b2 / 64;
  }

  lemma DecodeEncodeGroup(b0: byte, b1: byte, b2: byte)
    ensures DecodeGroup(EncodeGroup(b0, b1, b2)) == Some([b0, b1, b2])
  {
    var v0, v1, v2, v3 := b0 / 4, (b0 % 4) * 16 + b1 / 16, (b1 % 16) * 4 + b2 / 64, b2 % 64;
    ValueOfCharOf(v0);
    ValueOfCharOf(v1);
    ValueOfCharOf(v2);
    ValueOfCharOf(v3);
    FirstByteBack(b0, b1);
    SecondByteBack(b0, b1, b2);
    ThirdByteBack(b1, b2);
    assert DecodeGroup(EncodeGroup(b0, b1, b2)) == Some([v0 * 4 + v1 / 16, (v1 % 16) * 16 + v2 / 4, (v2 % 4) * 64 + v3]);
  }

  /** The second sextet of a one-byte tail carries the byte's low two bits
      and leaves its own low four bits zero. */
  lemma SingleSextets(b0: byte)
    ensures ((b0 % 4) * 16) % 16 == 0 && ((b0 % 4) * 16) / 16 == b0 % 4
  {
  }

  /** A last group with two `=`, read back. */
  lemma DecodeTwoPads(c0: char, c1: char, v0: sextet, v1: sextet)
    requires ValueOf(c0) == Some(v0) && ValueOf(c1) == Some(v1)
    requires v1 % 16 == 0
    ensures DecodeLast([c0, c1, '=', '=']) == Some([v0 * 4 + v1 / 16])
  {
  }

  /** One byte: two characters and two `=`. */
  lemma DecodeEncodeOne(b: seq<byte>)
    requires |b| == 1
    ensures Decode(Encode(b)) == Some(b)
  {
    var b0 := b[0];
    var v0, v1 := b0 / 4, (b0 % 4) * 16;
    ValueOfCharOf(v0);
    ValueOfCharOf(v1);
    SingleSextets(b0);
    assert Encode(b) == [CharOf(v0), CharOf(v1), '=', '='];
    DecodeTwoPads(CharOf(v0), CharOf(v1), v0, v1);
    assert [v0 * 4 + v1 / 16] == b;
  }

  /** The sextets of a two-byte tail carry both bytes, and the third one
      leaves its low two bits zero. */
  lemma PairSextets(b0: byte, b1: byte)
    ensures ((b0 % 4) * 16 + b1 / 16) / 16 == b0 % 4
    ensures ((b0 % 4) * 16 + b1 / 16) % 16 == b1 / 16
    ensures ((b1 % 16) * 4) % 4 == 0 && ((b1 % 16) * 4) / 4 == b1 % 16
  {
  }

  /** A last group with one `=`, read back. */
  lemma DecodeOnePad(c0: char, c1: char, c2: char, v0: sextet, v1: sextet, v2: sextet)
    requires ValueOf(c0) == Some(v0) && ValueOf(c1) == Some(v1) && ValueOf(c2) == Some(v2)
    requires v2 % 4 == 0
    ensures DecodeLast([c0, c1, c2, '=']) == Some([v0 * 4 + v1 / 16, (v1 % 16) * 16 + v2 / 4])
  {
    assert c2 != '=';
  }

  /** Two bytes: three characters and one `=`. */
  lemma DecodeEncodeTwo(b: seq<byte>)
    requires |b| == 2
    ensures Decode(Encode(b)) == Some(b)
  {
    var b0, b1 := b[0], b[1];
    var v0, v1, v2 := b0 / 4, (b0 % 4) * 16 + b1 / 16, (b1 % 16) * 4;
    ValueOfCharOf(v0);
    ValueOfCharOf(v1);
    ValueOfCharOf(v2);
    PairSextets(b0, b1);
    assert Encode(b) == [CharOf(v0), CharOf(v1), CharOf(v2), '='];
    DecodeOnePad(CharOf(v0), CharOf(v1), CharOf(v2), v0, v1, v2);
    assert [v0 * 4 + v1 / 16, (v1 % 16) * 16 + v2 / 4] == b;
  }

  /** The serialisation round trip: decoding an encoding gives back the bytes. */
  lemma {:induction false} DecodeEncode(b: seq<byte>)
    ensures Decode(Encode(b)) == Some(b)
    decreases |b|
  {
    if |b| == 1 {
      DecodeEncodeOne(b);
    } else if |b| == 2 {
      DecodeEncodeTwo(b);
    } else if |b| >= 3 {
      var g := EncodeGroup(b[0], b[1], b[2]);
      var rest := Encode(b[3..]);
      DecodeEncodeGroup(b[0], b[1], b[2]);
      if |b| == 3 {
        assert Encode(b) == g;
        assert b == [b[0], b[1], b[2]];
      } else {
        var s := g + rest;
        assert Encode(b) == s;
        assert s[..4] == g && s[4..] == rest;
        DecodeEncode(b[3..]);
        assert b == [b[0], b[1], b[2]] + b[3..];
      }
    }
  }
}
