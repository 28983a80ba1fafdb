/**
 * How `json.dumps` writes a string with its default `ensure_ascii=True`:
 * quotes, backslash escapes for `"` `\` and the named control characters,
 * `\u00XX` for the other control characters, and `\uXXXX` (lower-case hex, a
 * surrogate pair above U+FFFF) for everything outside printable ASCII.
 *
 * The partner definition is a decoder of JSON string contents: escaping and
 * then decoding gives the original string back.
 */
module JsonText {
  import opened Wrappers

  predicate IsPrintableAscii(c: char) { ' ' <= c <= '~' }

  /** Every character of `s` is printable ASCII. */
  predicate Printable(s: string)
  {
    forall k :: 0 <= k < |s| ==> IsPrintableAscii(s[k])
  }

  lemma PrintableConcat(a: string, b: string)
    requires Printable(a) && Printable(b)
    ensures Printable(a + b)
  {
  }

  function HexDigit(d: nat): (c: char)
    requires d < 16
    ensures IsPrintableAscii(c)
  {
    if d < 10 then ('0' as int + d) as char else ('a' as int + d - 10) as char
  }

  function HexDigitValue(c: char): (r: Option<nat>)
    ensures r.Some? ==> r.value < 16
  {
    if '0' <= c <= '9' then Some(c as int - '0' as int)
    else if 'a' <= c <= 'f' then Some(c as int - 'a' as int + 10)
    else if 'A' <= c <= 'F' then Some(c as int - 'A' as int + 10)
    else None
  }

  lemma HexDigitRoundTrip(d: nat)
    requires d < 16
    ensures HexDigitValue(HexDigit(d)) == Some(d)
  {
  }

  /** Four lower-case hex digits. */
  function Hex4(n: nat): (s: string)
    requires n < 0x10000
    ensures |s| == 4
  {
    var q1 := n / 16;
    var q2 := q1 / 16;
    var q3 := q2 / 16;
    [HexDigit(q3), HexDigit(q2 % 16), HexDigit(q1 % 16), HexDigit(n % 16)]
  }

  function ParseHex4(s: string): (r: Option<nat>)
    requires |s| == 4
    ensures r.Some? ==> r.value < 0x10000
  {
    match (HexDigitValue(s[0]), HexDigitValue(s[1]), HexDigitValue(s[2]), HexDigitValue(s[3]))
    case (Some(a), Some(b), Some(c), Some(d)) => Some(((a * 16 + b) * 16 + c) * 16 + d)
    case _ => None
  }

  lemma ParseHex4RoundTrip(n: nat)
    requires n < 0x10000
    ensures ParseHex4(Hex4(n)) == Some(n)
  {
    var q1 := n / 16;
    var q2 := q1 / 16;
    var q3 := q2 / 16;
    HexDigitRoundTrip(q3);
    HexDigitRoundTrip(q2 % 16);
    HexDigitRoundTrip(q1 % 16);
    HexDigitRoundTrip(n % 16);
    assert q2 == q3 * 16 + q2 % 16;
    assert q1 == q2 * 16 + q1 % 16;
    assert n == q1 * 16 + n % 16;
  }

  /** `\u` followed by four hex digits. */
  function UEscape(n: nat): (s: string)
    requires n < 0x10000
    ensures |s| == 6 && s[0] == '\\' && s[1] == 'u' && s[2..] == Hex4(n)
  {
    "\\u" + Hex4(n)
  }

  /** The escape of one character. */
  function EscapeChar(c: char): string
  {
    if c == '"' then "\\\""
    else if c == '\\' then "\\\\"
    else if c == '\n' then "\\n"
    else if c == '\r' then "\\r"
    else if c == '\t' then "\\t"
    else if c == '\U{0008}' then "\\b"
    else if c == '\U{000C}' then "\\f"
    else if IsPrintableAscii(c) then [c]
    else if c as int < 0x10000 then UEscape(c as int)
    else
      var n := c as int - 0x10000;
      UEscape(0xD800 + n / 0x400) + UEscape(0xDC00 + n % 0x400)
  }

  /** The contents of the quoted string `json.dumps` writes. */
  function Escape(s: string): (r: string)
    ensures |r| >= |s|
    ensures r == [] <==> s == []
  {
    if s == [] then [] else EscapeChar(s[0]) + Escape(s[1..])
  }

  /** `json.dumps(s)` for a string `s`. */
  function Quote(s: string): string
  {
    "\"" + Escape(s) + "\""
  }

  /** A quoted string is printable ASCII, quotes included. */
  lemma QuoteIsPrintable(s: string)
    ensures Printable(Quote(s))
  {
    EscapeIsPrintableAscii(s);
  }

  /** The escaped text is printable ASCII only. */
  lemma {:induction false} EscapeIsPrintableAscii(s: string)
    ensures forall k :: 0 <= k < |Escape(s)| ==> IsPrintableAscii(Escape(s)[k])
  {
    if s != [] {
      EscapeIsPrintableAscii(s[1..]);
      var e := EscapeChar(s[0]);
      assert forall k :: 0 <= k < |e| ==> IsPrintableAscii(e[k]);
    }
  }

  function Prepend(c: char, r: Option<string>): Option<string>
  {
    if r.Some? then Some([c] + r.value) else None
  }

  function SimpleUnescape(e: char): Option<char>
  {
    if e == '"' then Some('"')
    else if e == '\\' then Some('\\')
    else if e == '/' then Some('/')
    else if e == 'b' then Some('\U{0008}')
    else if e == 'f' then Some('\U{000C}')
    else if e == 'n' then Some('\n')
    else if e == 'r' then Some('\r')
    else if e == 't' then Some('\t')
    else None
  }

  /** The decoding of JSON string contents (the text between the quotes), or
      None when it is not valid. */
  function Unescape(t: string): (r: Option<string>)
    ensures r.Some? ==> |r.value| <= |t|
    decreases |t|
  {
    if t == [] then Some([])
    else if t[0] == '\\' then
      if |t| < 2 then None
      else if SimpleUnescape(t[1]).Some? then Prepend(SimpleUnescape(t[1]).value, Unescape(t[2..]))
      else if t[1] == 'u' && |t| >= 6 && ParseHex4(t[2..6]).Some? then
        var hi := ParseHex4(t[2..6]).value;
        if 0xD800 <= hi < 0xDC00 then
          if |t| >= 12 && t[6] == '\\' && t[7] == 'u' && ParseHex4(t[8..12]).Some? &&
             0xDC00 <= ParseHex4(t[8..12]).value < 0xE000
          then
            var lo := ParseHex4(t[8..12]).value;
            Prepend((0x10000 + (hi - 0xD800) * 0x400 + (lo - 0xDC00)) as char, Unescape(t[12..]))
          else None
        else if 0xDC00 <= hi < 0xE000 then None
        else Prepend(hi as char, Unescape(t[6..]))
      else None
    else if t[0] == '"' || t[0] < ' ' then None
    else Prepend(t[0], Unescape(t[1..]))
  }

  /** Decoding a `\uXXXX` escape of a character below U+10000, then the rest. */
  lemma UnescapeBmp(c: char, rest: string)
    requires !IsPrintableAscii(c) && c as int < 0x10000
    ensures Unescape(UEscape(c as int) + rest) == Prepend(c, Unescape(rest))
  {
    var t := UEscape(c as int) + rest;
    ParseHex4RoundTrip(c as int);
    assert t[2..6] == Hex4(c as int);
    assert t[6..] == rest;
  }

  /** The two halves of a surrogate pair are in their ranges and give the code
      point back. */
  lemma SurrogateHalves(c: char)
    requires c as int >= 0x10000
    ensures var n := c as int - 0x10000;
            && 0xD800 <= 0xD800 + n / 0x400 < 0xDC00
            && 0xDC00 <= 0xDC00 + n % 0x400 < 0xE000
            && 0x10000 + n / 0x400 * 0x400 + n % 0x400 == c as int
  {
    var n := c as int - 0x10000;
    assert n < 0x100000;
    assert n == n / 0x400 * 0x400 + n % 0x400;
  }

  /** One step of Unescape on a `\\uXXXX\\uXXXX` surrogate pair. */
  lemma UnescapePairStep(t: string, hi: nat, lo: nat)
    requires |t| >= 12 && t[0] == '\\' && t[1] == 'u' && t[6] == '\\' && t[7] == 'u'
    requires ParseHex4(t[2..6]) == Some(hi) && 0xD800 <= hi < 0xDC00
    requires ParseHex4(t[8..12]) == Some(lo) && 0xDC00 <= lo < 0xE000
    ensures Unescape(t) == Prepend((0x10000 + (hi - 0xD800) * 0x400 + (lo - 0xDC00)) as char, Unescape(t[12..]))
  {
    assert SimpleUnescape(t[1]).None?;
  }

  /** Decoding the surrogate pair of a character above U+FFFF, then the rest. */
  lemma UnescapeAstral(c: char, rest: string)
    requires c as int >= 0x10000
    ensures var n := c as int - 0x10000;
            Unescape(UEscape(0xD800 + n / 0x400) + UEscape(0xDC00 + n % 0x400) + rest) ==
            Prepend(c, Unescape(rest))
  {
    var n := c as int - 0x10000;
    var hi := 0xD800 + n / 0x400;
    var lo := 0xDC00 + n % 0x400;
    assert n == n / 0x400 * 0x400 + n % 0x400;
    var t := UEscape(hi) + UEscape(lo) + rest;
    ParseHex4RoundTrip(hi);
    ParseHex4RoundTrip(lo);
    assert t[2..6] == Hex4(hi);
    assert t[8..12] == Hex4(lo);
    assert t[12..] == rest;
    UnescapePairStep(t, hi, lo);
  }

  /** Decoding one escaped character, then the rest. */
  lemma UnescapeChar(c: char, rest: string)
    ensures Unescape(EscapeChar(c) + rest) == Prepend(c, Unescape(rest))
  {
    var t := EscapeChar(c) + rest;
    if c == '"' || c == '\\' || c == '\n' || c == '\r' || c == '\t' || c == '\U{0008}' || c == '\U{000C}' {
      assert t[2..] == rest;
    } else if IsPrintableAscii(c) {
      assert t[1..] == rest;
    } else if c as int < 0x10000 {
      UnescapeBmp(c, rest);
    } else {
      UnescapeAstral(c, rest);
    }
  }

  /** Decoding what `json.dumps` wrote gives the original string back. */
  lemma {:induction false} EscapeRoundTrip(s: string)
    ensures Unescape(Escape(s)) == Some(s)
  {
    if s != [] {
      EscapeRoundTrip(s[1..]);
      UnescapeChar(s[0], Escape(s[1..]));
      assert [s[0]] + s[1..] == s;
    }
  }

  /** Printable ASCII other than `"` and `\` is written as it is. */
  lemma {:induction false} PlainTextIsUnchanged(s: string)
    requires forall k :: 0 <= k < |s| ==> IsPrintableAscii(s[k]) && s[k] != '"' && s[k] != '\\'
    ensures Escape(s) == s
  {
    if s != [] {
      PlainTextIsUnchanged(s[1..]);
      assert [s[0]] + s[1..] == s;
    }
  }
}
