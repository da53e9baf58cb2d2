/** `internal.LimitedBuffer`: an append-only byte buffer that keeps at most
    `MaxSize` bytes and reports every write as fully accepted. */
module LimitedBuffers {
  import opened Common
  import Utf8

  /** What a buffer capped at `maxSize` holds after being fed `input`: the
      longest prefix of `input` that has at most max(0, maxSize) bytes. */
  function Capture(maxSize: int, input: seq<byte>): (kept: seq<byte>)
    ensures kept <= input
    ensures |kept| <= Max(0, maxSize)
    ensures |kept| < |input| ==> |kept| == Max(0, maxSize)
  {
    input[..if maxSize <= 0 then 0 else Min(maxSize, |input|)]
  }

  /** Capturing `s + p` is capturing `s` and then appending the part of `p` that
      still fits, which is exactly what one `Write(p)` does. */
  lemma {:induction false} CaptureExtend(maxSize: int, s: seq<byte>, p: seq<byte>)
    ensures var kept := Capture(maxSize, s);
            var remaining := maxSize - |kept|;
            Capture(maxSize, s + p) == if remaining <= 0 then kept else kept + p[..Min(remaining, |p|)]
  {
    var kept := Capture(maxSize, s);
    var remaining := maxSize - |kept|;
    if remaining > 0 {
      assert |kept| == |s|;
      assert kept == s;
      var k := Min(remaining, |p|);
      assert (s + p)[..|s| + k] == s + p[..k];
    } else {
      assert |kept| == Max(0, maxSize);
      assert (s + p)[..|kept|] == s[..|kept|];
    }
  }

  /** Once the buffer is full, nothing more is stored, whatever is written. */
  lemma {:induction false} CaptureSaturated(maxSize: int, s: seq<byte>, p: seq<byte>)
    requires |Capture(maxSize, s)| >= maxSize
    ensures Capture(maxSize, s + p) == Capture(maxSize, s)
  {
    CaptureExtend(maxSize, s, p);
  }

  /** Capturing is prefix-monotone: more input never changes what was kept. */
  lemma {:induction false} CaptureMonotone(maxSize: int, s: seq<byte>, p: seq<byte>)
    ensures Capture(maxSize, s) <= Capture(maxSize, s + p)
  {
    CaptureExtend(maxSize, s, p);
  }

  class LimitedBuffer {
    var contents: seq<byte>      // the embedded bytes.Buffer
    var maxSize: int             // MaxSize
    ghost var input: seq<byte>   // every byte ever passed to a write

    ghost predicate Valid()
      reads this
    {
      contents == Capture(maxSize, input)
    }

    /** `LimitedBuffer{MaxSize: maxSize}`. */
    constructor (maxSize: int)
      ensures Valid() && this.maxSize == maxSize && input == []
    {
      contents := [];
      this.maxSize := maxSize;
      input := [];
    }

    /** `b.Bytes()`: the first min(max(0, MaxSize), total) bytes of all writes. */
    function Bytes(): (b: seq<byte>)
      reads this
      requires Valid()
      ensures b <= input && |b| <= Max(0, maxSize)
      ensures |b| == Min(Max(0, maxSize), |input|)
    {
      contents
    }

    /** `b.Len()`. */
    function Len(): (n: nat)
      reads this
      requires Valid()
      ensures n == |Capture(maxSize, input)| == Min(Max(0, maxSize), |input|)
      ensures n <= Max(0, maxSize) && n <= |input|
    {
      |contents|
    }

    /** Stores the part of `p` that still fits and reports all of it as written. */
    method Write(p: seq<byte>) returns (n: int, err: Option<Error>)
      requires Valid()
      modifies this
      ensures Valid() && maxSize == old(maxSize) && input == old(input) + p
      ensures n == |p| && err == None
    {
      var size := |p|;
      var currentSize := |contents|;
      var remaining := maxSize - currentSize;
      CaptureExtend(maxSize, input, p);
      input := input + p;
      if remaining <= 0 {
        return size, None;
      }
      if remaining > size {
        remaining := size;
      }
      // bytes.Buffer.Write takes every byte it is given and never returns an
      // error, so the Go code's two failure returns after it cannot be reached
      contents := contents + p[..remaining];
      return size, None;
    }

    /** `WriteString(s)`: a Go string is its bytes, so this is `Write`. */
    method WriteString(s: seq<byte>) returns (n: int, err: Option<Error>)
      requires Valid()
      modifies this
      ensures Valid() && maxSize == old(maxSize) && input == old(input) + s
      ensures n == |s| && err == None
    {
      n, err := Write(s);
    }

    /** `WriteByte(c)`: never fails, since `Write` of one byte reports 1. */
    method WriteByte(c: byte) returns (err: Option<Error>)
      requires Valid()
      modifies this
      ensures Valid() && maxSize == old(maxSize) && input == old(input) + [c]
      ensures err == None
    {
      var n, e := Write([c]);
      if e.Some? {
        assert false;
      }
      if n != 1 {
        assert false;
      }
      err := None;
    }

    /** `WriteRune(r)` as written: a rune below 0x80 is written as the byte
        `byte(r)` and reported as 1; any other rune writes the whole 4-byte
        array `utf8.EncodeRune` filled, zero padding included, and reports 4. */
    method WriteRune(r: int32) returns (n: int, err: Option<Error>)
      requires Valid()
      modifies this
      ensures Valid() && maxSize == old(maxSize)
      ensures input == old(input) + RuneBytes(r)
      ensures n == (if r < Utf8.RuneSelf as int32 then 1 else Utf8.UTFMax) && err == None
    {
      if r < Utf8.RuneSelf as int32 {
        err := WriteByte((r as int % 0x100) as byte);
        return 1, err;
      }
      var buf := Utf8.EncodedArray(r);
      n, err := Write(buf);
    }

    /** `WriteRune(r)` with the padding dropped: the array is written only up
        to the length `utf8.EncodeRune` returned, while the reported count stays
        the one the Go code's own test of U+FFFD fixes (1 below 0x80, 4 otherwise). */
    method WriteRuneUnpadded(r: int32) returns (n: int, err: Option<Error>)
      requires Valid()
      modifies this
      ensures Valid() && maxSize == old(maxSize)
      ensures input == old(input) + UnpaddedRuneBytes(r)
      ensures n == (if r < Utf8.RuneSelf as int32 then 1 else Utf8.UTFMax) && err == None
    {
      if r < Utf8.RuneSelf as int32 {
        err := WriteByte((r as int % 0x100) as byte);
        return 1, err;
      }
      var buf := Utf8.EncodedArray(r);
      var encoded := |Utf8.EncodeRune(r)|;
      var _, e := Write(buf[..encoded]);
      return Utf8.UTFMax, e;
    }
  }

  /** The bytes `LimitedBuffer.WriteRune(r)` passes on: `byte(r)` (the low 8 bits)
      below 0x80, the filled 4-byte array otherwise. */
  function RuneBytes(r: int32): (b: seq<byte>)
    ensures |b| == if r < Utf8.RuneSelf as int32 then 1 else Utf8.UTFMax
  {
    if r < Utf8.RuneSelf as int32 then [(r as int % 0x100) as byte] else Utf8.EncodedArray(r)
  }

  /** For a rune whose encoding is shorter than four bytes, `WriteRune` stores
      zero bytes after the encoding and reports four bytes: U+00E9 is stored as
      C3 A9 00 00, where the encoding is C3 A9. */
  lemma WriteRunePadsShortEncodings()
    ensures Utf8.EncodeRune(0xE9) == [0xC3, 0xA9]
    ensures RuneBytes(0xE9) == [0xC3, 0xA9, 0, 0]
    ensures RuneBytes(0xE9) != Utf8.EncodeRune(0xE9)
  {
    assert Utf8.EncodedArray(0xE9) == [0xC3, 0xA9] + [0, 0];
  }

  /** The bytes `WriteRuneUnpadded(r)` passes on: `byte(r)` below 0x80, the
      encoding of `r` otherwise. */
  function UnpaddedRuneBytes(r: int32): (b: seq<byte>)
    ensures r >= 0 ==> b == Utf8.EncodeRune(r)
  {
    if r < Utf8.RuneSelf as int32 then [(r as int % 0x100) as byte] else Utf8.EncodeRune(r)
  }

  /** What `WriteRune` feeds is what the unpadded version feeds followed by
      zero bytes up to four: the two differ only in the padding. */
  lemma PaddingIsTheOnlyDifference(r: int32)
    ensures UnpaddedRuneBytes(r) <= RuneBytes(r)
    ensures forall k :: |UnpaddedRuneBytes(r)| <= k < |RuneBytes(r)| ==> RuneBytes(r)[k] == 0
  {
  }

  /** Every rune from 0x80 up to 0xFFFF (U+FFFD included) is fed with at least
      one zero byte after its encoding. */
  lemma {:induction false} WriteRunePadsWithZeros(r: int32)
    requires Utf8.RuneSelf as int32 <= r <= 0xFFFF
    ensures |Utf8.EncodeRune(r)| < |RuneBytes(r)|
    ensures RuneBytes(r)[|RuneBytes(r)| - 1] == 0
  {
    assert |Utf8.EncodeRune(r)| <= 3;
  }

  /** U+FFFD, the rune the Go code's test writes, is three bytes long while
      `WriteRune` reports four: the count of four is the expected one, and only
      the padding byte fed after the encoding is extra. */
  lemma ReplacementCharCount()
    ensures |Utf8.EncodeRune(0xFFFD)| == 3
    ensures |RuneBytes(0xFFFD)| == 4 && RuneBytes(0xFFFD)[3] == 0
    ensures UnpaddedRuneBytes(0xFFFD) == Utf8.EncodeRune(0xFFFD)
  {
    WriteRunePadsWithZeros(0xFFFD);
  }
}
