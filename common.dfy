/** Values shared by both firmware variants: bytes, pin levels and an optional value. */
module Common {

  /** An unsigned 8-bit value (`uint8_t` in the Arduino variant, one element of a
      MicroPython `bytes` object). */
  type Byte = b: int | 0 <= b < 256

  /** The logic level of a digital output pin (`LOW`/`HIGH`, `Pin.value(0)`/`Pin.value(1)`). */
  datatype Level = Low | High

  datatype Option<T> = None | Some(value: T)

  /** Every character of `s` is a 7-bit ASCII character. */
  predicate IsAscii(s: string)
  {
    forall i :: 0 <= i < |s| ==> s[i] as int < 128
  }

  /** The UTF-8 encoding of an ASCII string: one byte per character, with the
      character's code point as its value. */
  function AsciiBytes(s: string): seq<Byte>
    requires IsAscii(s)
  {
    seq(|s|, i requires 0 <= i < |s| => s[i] as int)
  }

  /** The UTF-8 encoding of one Unicode scalar value (section 3 of RFC 3629): one byte
      below U+0080, two below U+0800, three below U+10000, four above, so no code
      point has an overlong form. The first byte
      tells the length; every later byte is a continuation byte `10xxxxxx`; the free
      bits, read most significant first, are the code point. */
  function Utf8EncodeChar(c: char): (r: seq<Byte>)
    ensures 1 <= |r| <= 4
    ensures |r| == 1 <==> c as int < 0x80
    ensures |r| == 2 <==> 0x80 <= c as int < 0x800
    ensures |r| == 3 <==> 0x800 <= c as int < 0x1_0000
    ensures r[0] < 0x80 <==> |r| == 1
    ensures |r| == 2 ==> 0xC0 <= r[0] < 0xE0
    ensures |r| == 3 ==> 0xE0 <= r[0] < 0xF0
    ensures |r| == 4 ==> 0xF0 <= r[0] < 0xF8
    ensures forall i :: 1 <= i < |r| ==> 0x80 <= r[i] < 0xC0
    ensures |r| == 1 ==> r[0] == c as int
    ensures |r| == 2 ==> (r[0] as int - 0xC0) * 0x40 + (r[1] as int - 0x80) == c as int
    ensures |r| == 3 ==>
      (r[0] as int - 0xE0) * 0x1000 + (r[1] as int - 0x80) * 0x40 + (r[2] as int - 0x80) == c as int
    ensures |r| == 4 ==>
      (r[0] as int - 0xF0) * 0x4_0000 + (r[1] as int - 0x80) * 0x1000 + (r[2] as int - 0x80) * 0x40
      + (r[3] as int - 0x80) == c as int
  {
    // n1, n2 and n3 are the code point shifted right by 6, 12 and 18 bits.
    var n := c as int;
    var n1 := n / 0x40;
    var n2 := n1 / 0x40;
    var n3 := n2 / 0x40;
    assert n == n1 * 0x40 + n % 0x40 && n1 == n2 * 0x40 + n1 % 0x40 && n2 == n3 * 0x40 + n2 % 0x40;
    if n < 0x80 then [n]
    else if n < 0x800 then [0xC0 + n1, 0x80 + n % 0x40]
    else if n < 0x1_0000 then [0xE0 + n2, 0x80 + n1 % 0x40, 0x80 + n % 0x40]
    else [0xF0 + n3, 0x80 + n2 % 0x40, 0x80 + n1 % 0x40, 0x80 + n % 0x40]
  }

  /** The UTF-8 encoding of a string: the encodings of its characters, in order
      (`bytes(s, 'utf-8')`). */
  function Utf8Encode(s: string): (r: seq<Byte>)
    ensures |s| <= |r| <= 4 * |s|
    ensures |r| == |s| <==> IsAscii(s)
  {
    if s == [] then []
    else
      assert IsAscii(s) <==> s[0] as int < 0x80 && IsAscii(s[1..]) by {
        assert forall i :: 1 <= i < |s| ==> s[i] == s[1..][i - 1];
      }
      Utf8EncodeChar(s[0]) + Utf8Encode(s[1..])
  }

  /** Encoding a concatenation is concatenating the encodings. */
  lemma {:induction false} Utf8EncodeAppend(s: string, t: string)
    ensures Utf8Encode(s + t) == Utf8Encode(s) + Utf8Encode(t)
  {
    if s == [] {
      assert s + t == t;
    } else {
      assert (s + t)[0] == s[0] && (s + t)[1..] == s[1..] + t;
      Utf8EncodeAppend(s[1..], t);
    }
  }

  /** On ASCII text, UTF-8 is one byte per character with the character's code point
      as its value. */
  lemma {:induction false} AsciiIsUtf8(s: string)
    requires IsAscii(s)
    ensures Utf8Encode(s) == AsciiBytes(s)
  {
    if s != [] {
      assert IsAscii(s[1..]) by {
        forall i | 0 <= i < |s[1..]|
          ensures s[1..][i] as int < 128
        {
          assert s[1..][i] == s[i + 1];
        }
      }
      AsciiIsUtf8(s[1..]);
      assert AsciiBytes(s) == [s[0] as int] + AsciiBytes(s[1..]);
    }
  }
}
