/** UTF-8 encoding of a rune, as Go's `utf8.EncodeRune` performs it (UTF-8 is
    defined in RFC 3629): runes outside the Unicode range and surrogate halves
    are replaced by U+FFFD. */
module Utf8 {
  import opened Common

  const RuneSelf: int := 0x80       // runes below this are a single byte
  const UTFMax: int := 4            // the longest encoding
  const MaxRune: int := 0x10FFFF
  const RuneError: int := 0xFFFD

  predicate IsContinuation(b: byte)
  {
    0x80 <= b < 0xC0
  }

  /** The three-byte form of a code point in [0x800, 0xFFFF]. */
  function Encode3(i: int): (e: seq<byte>)
    requires 0x800 <= i <= 0xFFFF
    ensures |e| == 3 && 0xE0 <= e[0] < 0xF0 && IsContinuation(e[1]) && IsContinuation(e[2])
  {
    [(0xE0 + i / 0x1000) as byte, (0x80 + i / 0x40 % 0x40) as byte, (0x80 + i % 0x40) as byte]
  }

  /** The bytes `utf8.EncodeRune(p, r)` stores at the front of `p`. */
  function EncodeRune(r: int32): (e: seq<byte>)
    ensures 1 <= |e| <= UTFMax
    ensures |e| == 1 <==> 0 <= r < RuneSelf as int32
    ensures |e| == 2 <==> RuneSelf as int32 <= r <= 0x7FF
    ensures |e| == 4 <==> 0x10000 <= r <= MaxRune as int32
    // the lead byte announces the length; every other byte is a continuation byte
    ensures |e| == 1 ==> e[0] < 0x80
    ensures |e| == 2 ==> 0xC0 <= e[0] < 0xE0
    ensures |e| == 3 ==> 0xE0 <= e[0] < 0xF0
    ensures |e| == 4 ==> 0xF0 <= e[0] < 0xF8
    ensures forall k :: 1 <= k < |e| ==> IsContinuation(e[k])
  {
    // a negative rune is reinterpreted as uint32, which puts it above MaxRune
    var i := if r < 0 then r as int + 0x1_0000_0000 else r as int;
    if i <= 0x7F then [i as byte]
    else if i <= 0x7FF then [(0xC0 + i / 0x40) as byte, (0x80 + i % 0x40) as byte]
    else if i > MaxRune || (0xD800 <= i <= 0xDFFF) then Encode3(RuneError)
    else if i <= 0xFFFF then Encode3(i)
    else [(0xF0 + i / 0x40000) as byte, (0x80 + i / 0x1000 % 0x40) as byte,
          (0x80 + i / 0x40 % 0x40) as byte, (0x80 + i % 0x40) as byte]
  }

  /** A `[utf8.UTFMax]byte` array after `utf8.EncodeRune(buf[:], r)`: the encoding
      followed by the array's zero bytes. */
  function EncodedArray(r: int32): (buf: seq<byte>)
    ensures |buf| == UTFMax
    ensures buf[..|EncodeRune(r)|] == EncodeRune(r)
    ensures forall k :: |EncodeRune(r)| <= k < UTFMax ==> buf[k] == 0
  {
    var e := EncodeRune(r);
    e + seq(UTFMax - |e|, _ => 0)
  }
}
