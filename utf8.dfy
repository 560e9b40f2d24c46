/** UTF-8 as bytes.decode("utf-8", errors="replace") reads it: every
    maximal subpart of an ill-formed sequence becomes one U+FFFD
    (section 3.9 of the Unicode standard, table 3-7 for the byte ranges). */
module Utf8 {
  import opened Base64

  const Replacement: char := '\U{FFFD}'

  predicate IsCont(b: byte) {
    0x80 <= b <= 0xBF
  }

  /** The length a lead byte announces; 0 for a byte no sequence starts with. */
  function Announced(b0: byte): nat {
    if b0 < 0x80 then 1
    else if 0xC2 <= b0 <= 0xDF then 2
    else if 0xE0 <= b0 <= 0xEF then 3
    else if 0xF0 <= b0 <= 0xF4 then 4
    else 0
  }

  /** The range the second byte must lie in after a multi-byte lead. */
  function SecondLo(b0: byte): int {
    if b0 == 0xE0 then 0xA0 else if b0 == 0xF0 then 0x90 else 0x80
  }

  function SecondHi(b0: byte): int {
    if b0 == 0xED then 0x9F else if b0 == 0xF4 then 0x8F else 0xBF
  }

  /** The length of the longest prefix of bs that begins a well-formed
      sequence, capped at the announced length. */
  function GoodPrefix(bs: seq<byte>): (k: nat)
    requires |bs| > 0
    ensures k <= |bs| && k <= Announced(bs[0])
    ensures Announced(bs[0]) > 0 ==> k >= 1
  {
    var n := Announced(bs[0]);
    if n <= 1 then n
    else if |bs| < 2 || !(SecondLo(bs[0]) <= bs[1] <= SecondHi(bs[0])) then 1
    else if n == 2 then 2
    else if |bs| < 3 || !IsCont(bs[2]) then 2
    else if n == 3 then 3
    else if |bs| < 4 || !IsCont(bs[3]) then 3
    else 4
  }

  /** The scalar value of a well-formed sequence. */
  function Scalar(bs: seq<byte>): char
    requires |bs| > 0 && GoodPrefix(bs) == Announced(bs[0]) > 0
  {
    var n := Announced(bs[0]);
    var b0, b1, b2, b3 := bs[0] as int, if |bs| > 1 then bs[1] as int else 0,
      if |bs| > 2 then bs[2] as int else 0, if |bs| > 3 then bs[3] as int else 0;
    if n == 1 then b0 as char
    else if n == 2 then ((b0 - 0xC0) * 64 + (b1 - 0x80)) as char
    else if n == 3 then ((b0 - 0xE0) * 4096 + (b1 - 0x80) * 64 + (b2 - 0x80)) as char
    else ((b0 - 0xF0) * 262144 + (b1 - 0x80) * 4096 + (b2 - 0x80) * 64 + (b3 - 0x80)) as char
  }

  /** One decoding step: a character and the number of bytes it took. */
  function Step(bs: seq<byte>): (r: (char, nat))
    requires |bs| > 0
    ensures 1 <= r.1 <= |bs|
  {
    var n := Announced(bs[0]);
    var k := GoodPrefix(bs);
    if n == 0 then (Replacement, 1)
    else if k == n then (Scalar(bs), n)
    else (Replacement, k)
  }

  /** bytes.decode("utf-8", errors="replace"): never fails. */
  function Decode(bs: seq<byte>): (s: string)
    ensures |s| <= |bs|
    decreases |bs|
  {
    if bs == [] then ""
    else
      var (c, used) := Step(bs);
      [c] + Decode(bs[used..])
  }

  /** str.encode("utf-8"). */
  function EncodeChar(c: char): (bs: seq<byte>)
    ensures 1 <= |bs| <= 4
  {
    var n := c as int;
    if n < 0x80 then [n]
    else if n < 0x800 then [0xC0 + n / 64, 0x80 + n % 64]
    else if n < 0x10000 then [0xE0 + n / 64 / 64, 0x80 + n / 64 % 64, 0x80 + n % 64]
    else [0xF0 + n / 64 / 64 / 64, 0x80 + n / 64 / 64 % 64, 0x80 + n / 64 % 64, 0x80 + n % 64]
  }

  function Encode(s: string): seq<byte> {
    if s == "" then [] else EncodeChar(s[0]) + Encode(s[1..])
  }

  /** An encoded character is one well-formed sequence, read back whole. */
  lemma StepOfEncoded(c: char, rest: seq<byte>)
    ensures Step(EncodeChar(c) + rest) == (c, |EncodeChar(c)|)
  {
    var e := EncodeChar(c);
    var bs := e + rest;
    var n := c as int;
    assert bs[..|e|] == e;
    var r0, q1 := n % 64, n / 64;
    var r1, q2 := q1 % 64, q1 / 64;
    var r2, q3 := q2 % 64, q2 / 64;
    assert n == q1 * 64 + r0 && q1 == q2 * 64 + r1 && q2 == q3 * 64 + r2;
    if n < 0x80 {
    } else if n < 0x800 {
      assert bs[0] == 0xC0 + q1 && bs[1] == 0x80 + r0;
    } else if n < 0x10000 {
      assert bs[0] == 0xE0 + q2 && bs[1] == 0x80 + r1 && bs[2] == 0x80 + r0;
    } else {
      assert bs[0] == 0xF0 + q3 && bs[1] == 0x80 + r2 && bs[2] == 0x80 + r1 && bs[3] == 0x80 + r0;
    }
  }

  /** Decoding the encoding of a string gives the string back. */
  lemma {:induction false} RoundTrip(s: string)
    ensures Decode(Encode(s)) == s
  {
    if s != "" {
      var e := EncodeChar(s[0]);
      var bs := Encode(s);
      assert bs == e + Encode(s[1..]);
      StepOfEncoded(s[0], Encode(s[1..]));
      assert bs[|e|..] == Encode(s[1..]);
      RoundTrip(s[1..]);
    }
  }

  /** ASCII bytes decode to the same characters one for one. */
  lemma {:induction false} AsciiDecodes(bs: seq<byte>)
    requires forall i :: 0 <= i < |bs| ==> bs[i] < 0x80
    ensures |Decode(bs)| == |bs|
    ensures forall i :: 0 <= i < |bs| ==> Decode(bs)[i] as int == bs[i]
  {
    if bs != [] {
      AsciiDecodes(bs[1..]);
    }
  }

  /** A byte that starts no sequence becomes one U+FFFD and decoding goes on
      with the next byte. */
  lemma BadLeadReplaced(b: byte, rest: seq<byte>)
    requires Announced(b) == 0
    ensures Decode([b] + rest) == [Replacement] + Decode(rest)
  {
    assert ([b] + rest)[1..] == rest;
  }

  /** A truncated sequence is one U+FFFD for its whole well-formed prefix:
      E2 82 followed by ASCII is one replacement, then the ASCII. */
  lemma TruncatedReplacedOnce(rest: seq<byte>)
    requires rest != [] && rest[0] < 0x80
    ensures Decode([0xE2, 0x82] + rest) == [Replacement] + Decode(rest)
  {
    var bs := [0xE2, 0x82] + rest;
    assert GoodPrefix(bs) == 2;
    assert bs[2..] == rest;
  }
}
