/**
 * UTF-8, as the browser uses it when it percent-encodes and percent-decodes URL components:
 * every Unicode scalar value becomes one to four bytes, and decoding turns each maximal
 * ill-formed subpart into one U+FFFD, as the WHATWG Encoding Standard's UTF-8 decoder does.
 */
module Utf8 {
  import opened Wrappers

  type Byte = b: int | 0 <= b < 256

  predicate IsContinuation(b: Byte) {
    0x80 <= b < 0xC0
  }

  /** The encoding of one scalar value, in the shortest form. */
  function EncodeChar(c: char): (bs: seq<Byte>)
    ensures 1 <= |bs| <= 4
    ensures (|bs| == 1) == (c as int < 0x80)
  {
    var n := c as int;
    if n < 0x80 then [n]
    else if n < 0x800 then [0xC0 + n / 64, 0x80 + n % 64]
    else if n < 0x10000 then [0xE0 + n / 4096, 0x80 + (n / 64) % 64, 0x80 + n % 64]
    else [0xF0 + n / 262144, 0x80 + (n / 4096) % 64, 0x80 + (n / 64) % 64, 0x80 + n % 64]
  }

  function Encode(s: string): seq<Byte> {
    if |s| == 0 then [] else EncodeChar(s[0]) + Encode(s[1..])
  }

  /** U+FFFD REPLACEMENT CHARACTER */
  const Replacement: char := 0xFFFD as char

  /** How many continuation bytes a lead byte announces, or none for a byte that cannot lead. */
  function Needed(b0: Byte): Option<nat> {
    if b0 < 0x80 then Some(0)
    else if 0xC2 <= b0 < 0xE0 then Some(1)
    else if 0xE0 <= b0 < 0xF0 then Some(2)
    else if 0xF0 <= b0 < 0xF5 then Some(3)
    else None
  }

  /**
   * The first continuation byte a lead admits: narrower after E0, ED, F0 and F4, so that
   * overlong forms, surrogates and values above U+10FFFF are cut off as early as possible.
   */
  predicate SecondFits(b0: Byte, b1: Byte) {
    if b0 == 0xE0 then 0xA0 <= b1 < 0xC0
    else if b0 == 0xED then 0x80 <= b1 < 0xA0
    else if b0 == 0xF0 then 0x90 <= b1 < 0xC0
    else if b0 == 0xF4 then 0x80 <= b1 < 0x90
    else IsContinuation(b1)
  }

  /**
   * The first scalar value of `bs` and how many bytes it takes. An ill-formed sequence yields
   * one U+FFFD for its maximal subpart: the lead byte and the continuation bytes that still fit
   * it, up to the first byte that does not, which is read again as the start of what follows.
   */
  function DecodeFirst(bs: seq<Byte>): (r: (char, nat))
    requires |bs| > 0
    ensures 1 <= r.1 <= |bs|
    ensures r.1 > 1 ==> Needed(bs[0]).Some? && r.1 <= Needed(bs[0]).value + 1
    ensures bs[0] < 0x80 ==> r == (bs[0] as char, 1)
  {
    var b0: int := bs[0];
    var b1: int := if |bs| >= 2 then bs[1] else 0;
    var b2: int := if |bs| >= 3 then bs[2] else 0;
    var b3: int := if |bs| >= 4 then bs[3] else 0;
    var ok1 := |bs| >= 2 && SecondFits(bs[0], bs[1]);
    var ok2 := ok1 && |bs| >= 3 && IsContinuation(bs[2]);
    var ok3 := ok2 && |bs| >= 4 && IsContinuation(bs[3]);
    match Needed(bs[0])
    case None => (Replacement, 1)
    case Some(need) =>
      if need == 0 then (b0 as char, 1)
      else if need == 1 then
        if ok1 then (((b0 - 0xC0) * 64 + (b1 - 0x80)) as char, 2) else (Replacement, 1)
      else if need == 2 then
        if ok2 then (((b0 - 0xE0) * 4096 + (b1 - 0x80) * 64 + (b2 - 0x80)) as char, 3)
        else (Replacement, if ok1 then 2 else 1)
      else
        if ok3 then
          (((b0 - 0xF0) * 262144 + (b1 - 0x80) * 4096 + (b2 - 0x80) * 64 + (b3 - 0x80)) as char, 4)
        else (Replacement, if ok2 then 3 else if ok1 then 2 else 1)
  }

  /** UTF-8 decode with replacement: total on every byte sequence. */
  function Decode(bs: seq<Byte>): string
    decreases |bs|
  {
    if |bs| == 0 then "" else
      var (c, k) := DecodeFirst(bs);
      [c] + Decode(bs[k..])
  }

  lemma EncodeAppend(a: string, b: string)
    ensures Encode(a + b) == Encode(a) + Encode(b)
  {
    if |a| == 0 {
      assert a + b == b;
    } else {
      assert (a + b)[0] == a[0];
      assert (a + b)[1..] == a[1..] + b;
      EncodeAppend(a[1..], b);
    }
  }

  /** A character below U+0080 is its own single byte. */
  lemma EncodeAscii(c: char)
    requires c as int < 0x80
    ensures EncodeChar(c) == [c as int]
  {
  }

  lemma SplitBase64(n: nat)
    ensures n == (n / 64) * 64 + n % 64
    ensures n / 4096 == (n / 64) / 64
    ensures n / 262144 == (n / 4096) / 64
  {
  }

  /** The decoder reads back exactly the first encoded character and nothing after it. */
  lemma DecodeFirstOfEncoded(c: char, rest: seq<Byte>)
    ensures DecodeFirst(EncodeChar(c) + rest) == (c, |EncodeChar(c)|)
  {
    var n := c as int;
    var bs := EncodeChar(c) + rest;
    var b0: int := bs[0];
    SplitBase64(n);
    SplitBase64(n / 64);
    SplitBase64(n / 4096);
    if n < 0x80 {
    } else if n < 0x800 {
      var b1: int := bs[1];
      assert b0 - 0xC0 == n / 64 && b1 - 0x80 == n % 64;
    } else if n < 0x10000 {
      var b1: int := bs[1];
      var b2: int := bs[2];
      assert b0 - 0xE0 == n / 4096 && b1 - 0x80 == (n / 64) % 64 && b2 - 0x80 == n % 64;
      assert (b0 - 0xE0) * 4096 + (b1 - 0x80) * 64 + (b2 - 0x80) == n;
    } else {
      var b1: int := bs[1];
      var b2: int := bs[2];
      var b3: int := bs[3];
      assert b0 - 0xF0 == n / 262144 && b1 - 0x80 == (n / 4096) % 64;
      assert b2 - 0x80 == (n / 64) % 64 && b3 - 0x80 == n % 64;
      assert (b0 - 0xF0) * 262144 + (b1 - 0x80) * 4096 + (b2 - 0x80) * 64 + (b3 - 0x80) == n;
    }
  }

  /** Decoding an encoding gives back the text. */
  lemma {:induction false} DecodeEncode(s: string)
    ensures Decode(Encode(s)) == s
  {
    if |s| > 0 {
      var e := EncodeChar(s[0]);
      var rest := Encode(s[1..]);
      DecodeFirstOfEncoded(s[0], rest);
      assert (e + rest)[|e|..] == rest;
      DecodeEncode(s[1..]);
      assert s == [s[0]] + s[1..];
    }
  }

  /**
   * A three-byte lead and a continuation that fits it, followed by a byte that does not
   * continue them, give a single U+FFFD; decoding resumes at that byte (so `%E2%82A` reads as
   * U+FFFD then "A").
   */
  lemma TruncatedThreeByte(bs: seq<Byte>)
    requires |bs| >= 3 && 0xE0 <= bs[0] < 0xF0 && SecondFits(bs[0], bs[1]) && !IsContinuation(bs[2])
    ensures Decode(bs) == [Replacement] + Decode(bs[2..])
  {
  }

  lemma TruncatedExample()
    ensures Decode([0xE2, 0x82, 0x41]) == [Replacement, 'A']
  {
    TruncatedThreeByte([0xE2, 0x82, 0x41]);
    assert [0xE2, 0x82, 0x41][2..] == [0x41];
    assert Decode([0x41]) == ['A'] + Decode([]);
  }
}
