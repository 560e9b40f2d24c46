/** URL-safe Base64 (section 5 of RFC 4648) as base64.urlsafe_b64decode
    reads it: '-' and '_' stand for 62 and 63, and the standard '+' and '/'
    are accepted too. Only canonical padded text is modelled. */
module Base64 {
  import opened Wrappers

  type byte = x: int | 0 <= x < 256

  /** A six-bit value. */
  type sextet = x: int | 0 <= x < 64

  const IncorrectPadding := "Incorrect padding"
  const NotInAlphabet := "Non-base64 digit found"

  predicate IsDigit64(c: char) {
    ('A' <= c <= 'Z') || ('a' <= c <= 'z') || ('0' <= c <= '9') || c == '-' || c == '_' || c == '+' || c == '/'
  }

  /** The six-bit value of a digit. */
  function Value(c: char): sextet
    requires IsDigit64(c)
  {
    if 'A' <= c <= 'Z' then c as int - 'A' as int
    else if 'a' <= c <= 'z' then c as int - 'a' as int + 26
    else if '0' <= c <= '9' then c as int - '0' as int + 52
    else if c == '-' || c == '+' then 62
    else 63
  }

  /** The URL-safe digit of a six-bit value. */
  function Digit(v: sextet): (c: char)
    ensures IsDigit64(c) && Value(c) == v
  {
    if v < 26 then ('A' as int + v) as char
    else if v < 52 then ('a' as int + v - 26) as char
    else if v < 62 then ('0' as int + v - 52) as char
    else if v == 62 then '-'
    else '_'
  }

  /** Three bytes as four digits: 6 + 2|4 + 4|2 + 6 bits. */
  function EncodeGroup(a: byte, b: byte, c: byte): string {
    [Digit(a / 4), Digit((a % 4) * 16 + b / 16), Digit((b % 16) * 4 + c / 64), Digit(c % 64)]
  }

  /** base64.urlsafe_b64encode: padded to a multiple of four characters. */
  function Encode(bs: seq<byte>): (s: string)
    ensures |s| % 4 == 0
    ensures s == "" <==> bs == []
  {
    if |bs| == 0 then ""
    else if |bs| == 1 then [Digit(bs[0] / 4), Digit((bs[0] % 4) * 16), '=', '=']
    else if |bs| == 2 then
      [Digit(bs[0] / 4), Digit((bs[0] % 4) * 16 + bs[1] / 16), Digit((bs[1] % 16) * 4), '=']
    else EncodeGroup(bs[0], bs[1], bs[2]) + Encode(bs[3..])
  }

  function First(v0: sextet, v1: sextet): byte { v0 * 4 + v1 / 16 }
  function Second(v1: sextet, v2: sextet): byte { (v1 % 16) * 16 + v2 / 4 }
  function Third(v2: sextet, v3: sextet): byte { (v2 % 4) * 64 + v3 }

  predicate AllDigits(g: string) {
    forall i :: 0 <= i < |g| ==> IsDigit64(g[i])
  }

  /** The final group, which may carry one or two '='; bits below the last
      whole byte are dropped. */
  function DecodeLast(g: string): Result<seq<byte>, string>
    requires |g| == 4
  {
    if g[2] == '=' && g[3] == '=' then
      if IsDigit64(g[0]) && IsDigit64(g[1]) then Ok([First(Value(g[0]), Value(g[1]))])
      else Err(NotInAlphabet)
    else if g[3] == '=' then
      if IsDigit64(g[0]) && IsDigit64(g[1]) && IsDigit64(g[2]) then
        Ok([First(Value(g[0]), Value(g[1])), Second(Value(g[1]), Value(g[2]))])
      else Err(NotInAlphabet)
    else if AllDigits(g) then DecodeGroup(g)
    else Err(NotInAlphabet)
  }

  function DecodeGroup(g: string): Result<seq<byte>, string>
    requires |g| >= 4 && AllDigits(g[..4])
  {
    assert IsDigit64(g[..4][0]) && IsDigit64(g[..4][1]) && IsDigit64(g[..4][2]) && IsDigit64(g[..4][3]);
    var v0, v1, v2, v3 := Value(g[0]), Value(g[1]), Value(g[2]), Value(g[3]);
    Ok([First(v0, v1), Second(v1, v2), Third(v2, v3)])
  }

  /** base64.urlsafe_b64decode on canonical text: a length that is not a
      multiple of four is a padding error, '=' only closes the last group. */
  function Decode(s: string): (r: Result<seq<byte>, string>)
    ensures |s| % 4 != 0 ==> r == Err(IncorrectPadding)
    decreases |s|
  {
    if |s| % 4 != 0 then Err(IncorrectPadding)
    else if s == "" then Ok([])
    else if |s| == 4 then DecodeLast(s)
    else if AllDigits(s[..4]) then
      var rest := Decode(s[4..]);
      if rest.Err? then rest else Ok(DecodeGroup(s).value + rest.value)
    else Err(NotInAlphabet)
  }

  lemma GroupBits(a: byte, b: byte, c: byte)
    ensures First(a / 4, (a % 4) * 16 + b / 16) == a
    ensures Second((a % 4) * 16 + b / 16, (b % 16) * 4 + c / 64) == b
    ensures Third((b % 16) * 4 + c / 64, c % 64) == c
  {
  }

  lemma OneByteRoundTrip(a: byte)
    ensures Decode(Encode([a])) == Ok([a])
  {
    var e := Encode([a]);
    assert e == [Digit(a / 4), Digit((a % 4) * 16), '=', '='];
    assert DecodeLast(e) == Ok([First(Value(e[0]), Value(e[1]))]);
    assert Value(e[0]) == a / 4 && Value(e[1]) == (a % 4) * 16;
    GroupBits(a, 0, 0);
    assert Decode(e) == DecodeLast(e);
  }

  lemma TwoByteRoundTrip(a: byte, b: byte)
    ensures Decode(Encode([a, b])) == Ok([a, b])
  {
    var e := Encode([a, b]);
    assert e == [Digit(a / 4), Digit((a % 4) * 16 + b / 16), Digit((b % 16) * 4), '='];
    assert DecodeLast(e) == Ok([First(Value(e[0]), Value(e[1])), Second(Value(e[1]), Value(e[2]))]);
    assert Value(e[0]) == a / 4 && Value(e[1]) == (a % 4) * 16 + b / 16 && Value(e[2]) == (b % 16) * 4;
    GroupBits(a, b, 0);
    assert Decode(e) == DecodeLast(e);
  }

  lemma GroupRoundTrip(a: byte, b: byte, c: byte, rest: string)
    ensures var s := EncodeGroup(a, b, c) + rest;
      AllDigits(s[..4]) && DecodeGroup(s) == Ok([a, b, c])
  {
    var g := EncodeGroup(a, b, c);
    var s := g + rest;
    assert s[..4] == g;
    assert s[0] == g[0] && s[1] == g[1] && s[2] == g[2] && s[3] == g[3];
    assert Value(g[0]) == a / 4 && Value(g[1]) == (a % 4) * 16 + b / 16;
    assert Value(g[2]) == (b % 16) * 4 + c / 64 && Value(g[3]) == c % 64;
    GroupBits(a, b, c);
  }

  /** Decoding what was encoded gives the bytes back. */
  lemma {:induction false} RoundTrip(bs: seq<byte>)
    ensures Decode(Encode(bs)) == Ok(bs)
    decreases |bs|
  {
    if |bs| == 1 {
      assert bs == [bs[0]];
      OneByteRoundTrip(bs[0]);
    } else if |bs| == 2 {
      assert bs == [bs[0], bs[1]];
      TwoByteRoundTrip(bs[0], bs[1]);
    } else if |bs| > 2 {
      var g := EncodeGroup(bs[0], bs[1], bs[2]);
      var s := g + Encode(bs[3..]);
      assert s[..4] == g && s[4..] == Encode(bs[3..]);
      GroupRoundTrip(bs[0], bs[1], bs[2], Encode(bs[3..]));
      assert [bs[0], bs[1], bs[2]] == bs[..3];
      assert Encode(bs) == s;
      if |bs| == 3 {
        assert s == g && bs == bs[..3];
        assert g[2] != '=' && g[3] != '=';
        assert Decode(s) == DecodeLast(g) == DecodeGroup(s);
      } else {
        RoundTrip(bs[3..]);
        assert |s| > 4;
        assert Decode(s) == Ok(DecodeGroup(s).value + Decode(s[4..]).value);
        assert bs == bs[..3] + bs[3..];
      }
    }
  }
}
