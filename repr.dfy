/** Python's repr() of a string and of a list of strings, as used to write
    the failure note of src/buddy_bot/executor.py:98 (an f-string around a
    list). Only the escapes below U+00A1 are modelled: characters from
    U+00A1 up are written as they are, although Python also escapes the
    non-printable ones among them (U+2028, say). */
module PyRepr {
  import opened Wrappers
  import opened Text

  const HexDigits := "0123456789abcdef"

  /** Characters repr() writes as a \xNN escape. */
  predicate NeedsHexEscape(c: char) {
    c < ' ' || ('\U{7f}' <= c <= '\U{a0}')
  }

  /** The quote repr() picks: double quotes only when the text has a single
      quote and no double quote. */
  function QuoteFor(s: string): char {
    if '\'' in s && '"' !in s then '"' else '\''
  }

  function EscapeChar(c: char, q: char): string {
    if c == '\\' then "\\\\"
    else if c == q then ['\\', q]
    else if c == '\n' then "\\n"
    else if c == '\r' then "\\r"
    else if c == '\t' then "\\t"
    else if NeedsHexEscape(c) then "\\x" + [HexDigits[c as int / 16], HexDigits[c as int % 16]]
    else [c]
  }

  function EscapeAll(s: string, q: char): string {
    if s == [] then [] else EscapeChar(s[0], q) + EscapeAll(s[1..], q)
  }

  function StrRepr(s: string): string {
    var q := QuoteFor(s);
    [q] + EscapeAll(s, q) + [q]
  }

  function ReprAll(items: seq<string>): (r: seq<string>)
    ensures |r| == |items| && forall i :: 0 <= i < |r| ==> r[i] == StrRepr(items[i])
  {
    if items == [] then [] else [StrRepr(items[0])] + ReprAll(items[1..])
  }

  /** repr() of a list of strings. */
  function ListRepr(items: seq<string>): string {
    "[" + Join(", ", ReprAll(items)) + "]"
  }

  function HexValue(c: char): int {
    if '0' <= c <= '9' then c as int - '0' as int
    else if 'a' <= c <= 'f' then c as int - 'a' as int + 10
    else -1
  }

  /** Reads back an escaped body; None on a malformed escape. */
  function Unescape(t: string, q: char): Option<string>
  {
    if t == [] then Some([])
    else if t[0] != '\\' then
      if t[0] == q || t[0] == '\\' then None
      else var rest := Unescape(t[1..], q); if rest.None? then None else Some([t[0]] + rest.value)
    else if |t| < 2 then None
    else
      var e := t[1];
      if e == 'x' then
        if |t| < 4 || HexValue(t[2]) < 0 || HexValue(t[3]) < 0 then None
        else
          var rest := Unescape(t[4..], q);
          if rest.None? then None else Some([(HexValue(t[2]) * 16 + HexValue(t[3])) as char] + rest.value)
      else
        var c := if e == 'n' then '\n' else if e == 'r' then '\r' else if e == 't' then '\t'
                 else if e == '\\' || e == q then e else '\\';
        if c == '\\' && e != '\\' then None
        else var rest := Unescape(t[2..], q); if rest.None? then None else Some([c] + rest.value)
  }

  lemma HexDigitsRoundTrip(n: int)
    requires 0 <= n < 16
    ensures HexValue(HexDigits[n]) == n
  {
  }

  /** Reading back one escaped character, whatever follows it. */
  lemma UnescapeStep(c: char, q: char, rest: string)
    requires q == '\'' || q == '"'
    ensures Unescape(EscapeChar(c, q) + rest, q) ==
      if Unescape(rest, q).None? then None else Some([c] + Unescape(rest, q).value)
  {
    var e := EscapeChar(c, q);
    var t := e + rest;
    if c == '\\' || c == q || c == '\n' || c == '\r' || c == '\t' {
      assert |e| == 2 && t[0] == '\\' && t[1] == e[1];
      assert t[2..] == rest;
    } else if NeedsHexEscape(c) {
      var hi, lo := c as int / 16, c as int % 16;
      HexDigitsRoundTrip(hi);
      HexDigitsRoundTrip(lo);
      assert t[..4] == ['\\', 'x', HexDigits[hi], HexDigits[lo]];
      assert t[4..] == rest;
      assert (hi * 16 + lo) as char == c;
    } else {
      assert t[0] == c && t[1..] == rest;
    }
  }

  lemma {:induction false} UnescapeEscapeAll(s: string, q: char)
    requires q == '\'' || q == '"'
    ensures Unescape(EscapeAll(s, q), q) == Some(s)
  {
    if s != [] {
      UnescapeEscapeAll(s[1..], q);
      UnescapeStep(s[0], q, EscapeAll(s[1..], q));
      assert [s[0]] + s[1..] == s;
    }
  }

  /** repr() loses nothing: the text is read back from its repr. */
  lemma StrReprRoundTrip(s: string)
    ensures var r := StrRepr(s);
      |r| >= 2 && r[0] == r[|r| - 1] == QuoteFor(s) && Unescape(r[1..|r| - 1], QuoteFor(s)) == Some(s)
  {
    var q := QuoteFor(s);
    var r := StrRepr(s);
    assert r[1..|r| - 1] == EscapeAll(s, q);
    UnescapeEscapeAll(s, q);
  }
}
