/** UTF-8 encoding of Rust `String`s (`str::as_bytes`). Dafny's `char` is a
    Unicode scalar value, exactly the set of values a Rust `char` may hold. */
module Utf8 {
  import opened Bytes

  /** The UTF-8 encoding of one scalar value (1 to 4 bytes). */
  function EncodeChar(c: char): (r: seq<byte>)
    ensures 1 <= |r| <= 4
    ensures forall i :: 0 <= i < |r| ==> r[i] != 0xFF
    ensures (c as int < 0x80) <==> (|r| == 1)
    ensures c as int < 0x80 ==> r == [c as int]
  {
    var v := c as int;
    if v < 0x80 then [v]
    else if v < 0x800 then [0xC0 + v / 64, 0x80 + v % 64]
    else if v < 0x1_0000 then [0xE0 + v / 4096, 0x80 + (v / 64) % 64, 0x80 + v % 64]
    else [0xF0 + v / 262144, 0x80 + (v / 4096) % 64, 0x80 + (v / 64) % 64, 0x80 + v % 64]
  }

  /** `s.as_bytes()`: the concatenated encodings, with no normalisation. */
  function Encode(s: string): seq<byte>
  {
    if s == [] then [] else EncodeChar(s[0]) + Encode(s[1..])
  }

  /** Encoding distributes over concatenation. */
  lemma {:induction false} EncodeAppend(a: string, b: string)
    ensures Encode(a + b) == Encode(a) + Encode(b)
  {
    if a == [] {
      assert a + b == b;
    } else {
      assert (a + b)[1..] == a[1..] + b;
      EncodeAppend(a[1..], b);
    }
  }

  /** The byte 0xFF never occurs in the encoding of any string. */
  lemma {:induction false} NoFFByte(s: string)
    ensures forall i :: 0 <= i < |Encode(s)| ==> Encode(s)[i] != 0xFF
  {
    if s != [] {
      NoFFByte(s[1..]);
      var head, tail := EncodeChar(s[0]), Encode(s[1..]);
      assert Encode(s) == head + tail;
      forall i | 0 <= i < |Encode(s)| ensures Encode(s)[i] != 0xFF {
        if i >= |head| {
          assert Encode(s)[i] == tail[i - |head|];
        }
      }
    }
  }

  /** A string of ASCII characters encodes to its own code points. */
  lemma {:induction false} EncodeAscii(s: string)
    requires forall i :: 0 <= i < |s| ==> s[i] as int < 0x80
    ensures |Encode(s)| == |s|
    ensures forall i :: 0 <= i < |s| ==> Encode(s)[i] == s[i] as int
  {
    if s != [] {
      EncodeAscii(s[1..]);
      assert Encode(s) == [s[0] as int] + Encode(s[1..]);
    }
  }
}
