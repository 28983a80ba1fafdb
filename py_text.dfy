/** The Python string operations the back end relies on. */
module PyText {
  import opened Text

  /** The characters for which Python's `str.isspace()` holds. */
  const WHITESPACE: set<char> := {
    '\t', '\n', '\U{000B}', '\U{000C}', '\r', '\U{001C}', '\U{001D}', '\U{001E}', '\U{001F}',
    ' ', '\U{0085}', '\U{00A0}', '\U{1680}',
    '\U{2000}', '\U{2001}', '\U{2002}', '\U{2003}', '\U{2004}', '\U{2005}', '\U{2006}',
    '\U{2007}', '\U{2008}', '\U{2009}', '\U{200A}',
    '\U{2028}', '\U{2029}', '\U{202F}', '\U{205F}', '\U{3000}'
  }

  /** Python `s.strip()`. */
  function PyStrip(s: string): (r: string)
    ensures |r| <= |s|
    ensures r != [] ==> r[0] !in WHITESPACE && r[|r| - 1] !in WHITESPACE
  {
    StripIsMaximalTrim(s, WHITESPACE);
    Strip(s, WHITESPACE)
  }

  /** Python `s.strip(chars)` for an explicit set of characters. */
  function PyStripChars(s: string, chars: set<char>): (r: string)
    ensures |r| <= |s|
    ensures r != [] ==> r[0] !in chars && r[|r| - 1] !in chars
  {
    StripIsMaximalTrim(s, chars);
    Strip(s, chars)
  }
}
