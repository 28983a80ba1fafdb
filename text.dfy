/**
 * String operations shared by the Python back end and the JavaScript front end,
 * on strings as sequences of Unicode scalar values.
 *
 * Case mapping is modelled for ASCII letters only; every other character is left
 * as it is.
 */
module Text {
  import opened Wrappers

  /** `pat` occurs in `s` starting at index `k`. */
  predicate OccursAt(s: string, pat: string, k: int)
  {
    0 <= k && k + |pat| <= |s| && s[k..k + |pat|] == pat
  }

  /** Index of the first occurrence of `pat` in `s` at or after `from`. */
  function IndexFrom(s: string, pat: string, from: nat): (r: Option<nat>)
    requires from <= |s|
    ensures r.Some? ==> from <= r.value && OccursAt(s, pat, r.value)
    ensures r.Some? ==> forall k :: from <= k < r.value ==> !OccursAt(s, pat, k)
    ensures r.None? ==> forall k :: from <= k <= |s| ==> !OccursAt(s, pat, k)
    decreases |s| - from
  {
    if from + |pat| > |s| then None
    else if s[from..from + |pat|] == pat then Some(from)
    else IndexFrom(s, pat, from + 1)
  }

  /** Index of the first occurrence of `pat` in `s` (Python `str.find`,
      JavaScript `indexOf`), or None. */
  function IndexOf(s: string, pat: string): (r: Option<nat>)
    ensures r.Some? ==> OccursAt(s, pat, r.value)
    ensures r.Some? ==> forall k :: 0 <= k < r.value ==> !OccursAt(s, pat, k)
    ensures r.None? <==> forall k :: 0 <= k <= |s| ==> !OccursAt(s, pat, k)
  {
    IndexFrom(s, pat, 0)
  }

  /** `pat` does not occur at `k` because one of its characters differs there. */
  lemma MismatchAt(s: string, pat: string, k: nat, j: nat)
    requires j < |pat| && (k + |pat| > |s| || s[k + j] != pat[j])
    ensures !OccursAt(s, pat, k)
  {
    if k + |pat| <= |s| {
      assert s[k..k + |pat|][j] == s[k + j];
    }
  }

  /** `pat` occurs at `k` when each of its characters is found there. */
  lemma MatchAt(s: string, pat: string, k: nat)
    requires k + |pat| <= |s| && forall j :: 0 <= j < |pat| ==> s[k + j] == pat[j]
    ensures OccursAt(s, pat, k)
  {
    assert s[k..k + |pat|] == pat;
  }

  /** An occurrence with none before it is the one IndexOf finds. */
  lemma IndexOfIs(s: string, pat: string, k: nat)
    requires OccursAt(s, pat, k)
    requires forall j :: 0 <= j < k ==> !OccursAt(s, pat, j)
    ensures IndexOf(s, pat) == Some(k)
  {
    var r := IndexOf(s, pat);
    assert r.Some?;
    assert r.value <= k && k <= r.value;
  }

  /** Index of the last occurrence of `c`, or -1 (Python `rfind`, JavaScript
      `lastIndexOf`). */
  function LastIndexOf(s: string, c: char): (r: int)
    ensures -1 <= r < |s|
    ensures r >= 0 ==> s[r] == c
    ensures forall k :: r < k < |s| ==> s[k] != c
  {
    if s == [] then -1
    else if s[|s| - 1] == c then |s| - 1
    else LastIndexOf(s[..|s| - 1], c)
  }

  /** Substring test: Python `pat in s`, JavaScript `s.includes(pat)`. */
  predicate Contains(s: string, pat: string)
  {
    IndexOf(s, pat).Some?
  }

  lemma ContainsMeansOccurs(s: string, pat: string, k: int)
    requires OccursAt(s, pat, k)
    ensures Contains(s, pat)
  {
  }

  /** Python `s.split(sep, 1)[-1]`: what follows the first occurrence of `sep`,
      or the whole string when `sep` does not occur. */
  function AfterFirst(s: string, sep: string): (r: string)
    ensures IndexOf(s, sep).Some? ==> r == s[IndexOf(s, sep).value + |sep|..]
    ensures IndexOf(s, sep).None? ==> r == s
  {
    match IndexOf(s, sep)
    case Some(i) => s[i + |sep|..]
    case None => s
  }

  /** Number of leading characters of `s` that belong to `cs`. */
  function LeadCount(s: string, cs: set<char>): (n: nat)
    ensures n <= |s|
    ensures forall k :: 0 <= k < n ==> s[k] in cs
    ensures n < |s| ==> s[n] !in cs
  {
    if |s| > 0 && s[0] in cs then 1 + LeadCount(s[1..], cs) else 0
  }

  /** Number of trailing characters of `s` that belong to `cs`. */
  function TrailCount(s: string, cs: set<char>): (n: nat)
    ensures n <= |s|
    ensures forall k :: |s| - n <= k < |s| ==> s[k] in cs
    ensures n < |s| ==> s[|s| - 1 - n] !in cs
  {
    if |s| > 0 && s[|s| - 1] in cs then 1 + TrailCount(s[..|s| - 1], cs) else 0
  }

  /** Removes every leading and trailing character that belongs to `cs`
      (Python `str.strip(chars)`, JavaScript `trim` for a whitespace set). */
  function Strip(s: string, cs: set<char>): (r: string)
  {
    var t := s[LeadCount(s, cs)..];
    t[..|t| - TrailCount(t, cs)]
  }

  /** What Strip keeps is a contiguous piece of the input, everything cut away
      belongs to `cs`, and the piece neither starts nor ends with a member of `cs`. */
  lemma StripIsMaximalTrim(s: string, cs: set<char>)
    ensures var r := Strip(s, cs);
            var i := LeadCount(s, cs);
            && i + |r| <= |s|
            && r == s[i..i + |r|]
            && (forall k :: 0 <= k < i ==> s[k] in cs)
            && (forall k :: i + |r| <= k < |s| ==> s[k] in cs)
            && (r != [] ==> r[0] !in cs && r[|r| - 1] !in cs)
  {
    var i := LeadCount(s, cs);
    var t := s[i..];
    var n := TrailCount(t, cs);
    var r := t[..|t| - n];
    assert r == s[i..i + |r|];
    forall k | i + |r| <= k < |s|
      ensures s[k] in cs
    {
      assert s[k] == t[k - i];
    }
    if r != [] {
      assert r[0] == s[i];
      assert r[|r| - 1] == t[|t| - 1 - n];
    }
  }

  /** Stripping twice is stripping once. */
  lemma StripIdempotent(s: string, cs: set<char>)
    ensures Strip(Strip(s, cs), cs) == Strip(s, cs)
  {
    var r := Strip(s, cs);
    StripIsMaximalTrim(s, cs);
    if r != [] {
      assert LeadCount(r, cs) == 0;
      assert TrailCount(r, cs) == 0;
      assert r[0..] == r;
    }
  }

  /** A string that neither starts nor ends with a member of `cs` is left as it is. */
  lemma StripUnpadded(s: string, cs: set<char>)
    requires s != [] && s[0] !in cs && s[|s| - 1] !in cs
    ensures Strip(s, cs) == s
  {
    assert LeadCount(s, cs) == 0;
    assert s[0..] == s;
    assert TrailCount(s, cs) == 0;
    assert s[..|s|] == s;
  }

  /** ASCII lower-casing of one character. */
  function LowerChar(c: char): char
  {
    if 'A' <= c <= 'Z' then (c as int + 32) as char else c
  }

  /** ASCII upper-casing of one character. */
  function UpperChar(c: char): char
  {
    if 'a' <= c <= 'z' then (c as int - 32) as char else c
  }

  /** The white space and line terminators of JavaScript, which `trim` removes
      and `parseInt` skips. */
  const JS_WHITESPACE: set<char> :=
    {'\t', '\n', '\U{000B}', '\U{000C}', '\r', ' ', '\U{00A0}', '\U{1680}', '\U{2000}', '\U{2001}',
     '\U{2002}', '\U{2003}', '\U{2004}', '\U{2005}', '\U{2006}', '\U{2007}', '\U{2008}', '\U{2009}',
     '\U{200A}', '\U{2028}', '\U{2029}', '\U{202F}', '\U{205F}', '\U{3000}', '\U{FEFF}'}

  /** JavaScript `!s.trim()`: the text is empty or only white space. */
  predicate JsBlank(s: string)
  {
    forall k :: 0 <= k < |s| ==> s[k] in JS_WHITESPACE
  }

  /** Lower-cases the ASCII letters of `s` (Python `lower`, JavaScript `toLowerCase`). */
  function Lower(s: string): (r: string)
  {
    seq(|s|, i requires 0 <= i < |s| => LowerChar(s[i]))
  }

  /** Upper-cases the ASCII letters of `s` (JavaScript `toUpperCase`). */
  function Upper(s: string): (r: string)
  {
    seq(|s|, i requires 0 <= i < |s| => UpperChar(s[i]))
  }

  /** Lower-casing leaves nothing to lower-case. */
  lemma LowerIdempotent(s: string)
    ensures Lower(Lower(s)) == Lower(s)
  {
  }

  /** Python `sep.join(items)`, JavaScript `items.join(sep)`. */
  function Join(sep: string, items: seq<string>): string
  {
    if |items| == 0 then ""
    else if |items| == 1 then items[0]
    else items[0] + sep + Join(sep, items[1..])
  }

  /** Joining is empty exactly when there is nothing to join or a single empty item
      (with a non-empty separator). */
  lemma {:induction false} JoinEmpty(sep: string, items: seq<string>)
    requires sep != ""
    ensures Join(sep, items) == "" <==> (items == [] || items == [""])
  {
    if |items| > 1 {
      assert |Join(sep, items)| >= |sep|;
    }
  }

  /** Python `s.split(c)` for a one-character separator: always at least one
      piece, and none containing the separator. */
  function SplitOn(s: string, c: char): (pieces: seq<string>)
    ensures |pieces| >= 1
    ensures forall k :: 0 <= k < |pieces| ==> c !in pieces[k]
  {
    if s == [] then [""]
    else if s[0] == c then [""] + SplitOn(s[1..], c)
    else
      var rest := SplitOn(s[1..], c);
      [[s[0]] + rest[0]] + rest[1..]
  }

  /** A piece without the separator, then the separator, then the rest. */
  lemma {:induction false} SplitOnPiece(x: string, c: char, rest: string)
    requires c !in x
    ensures SplitOn(x + [c] + rest, c) == [x] + SplitOn(rest, c)
  {
    if x == [] {
      assert x + [c] + rest == [c] + rest;
      assert ([c] + rest)[1..] == rest;
    } else {
      var s := x + [c] + rest;
      assert s[0] == x[0];
      assert s[1..] == x[1..] + [c] + rest;
      SplitOnPiece(x[1..], c, rest);
      assert [x[0]] + x[1..] == x;
    }
  }

  /** A text without the separator is one piece. */
  lemma {:induction false} SplitOnNone(x: string, c: char)
    requires c !in x
    ensures SplitOn(x, c) == [x]
  {
    if x != [] {
      SplitOnNone(x[1..], c);
      assert [x[0]] + x[1..] == x;
    }
  }

  /** Splitting what was joined gives the items back, when none contains the
      separator. */
  lemma {:induction false} SplitJoin(items: seq<string>, c: char)
    requires items != []
    requires forall k :: 0 <= k < |items| ==> c !in items[k]
    ensures SplitOn(Join([c], items), c) == items
  {
    if |items| == 1 {
      SplitOnNone(items[0], c);
    } else {
      SplitJoin(items[1..], c);
      SplitOnPiece(items[0], c, Join([c], items[1..]));
      assert [items[0]] + items[1..] == items;
    }
  }

  /** `a` is a prefix of `b`. */
  predicate IsPrefix<T(==)>(a: seq<T>, b: seq<T>)
  {
    |a| <= |b| && b[..|a|] == a
  }

  /** The text after the last `/` (Python `os.path.basename` on POSIX paths). */
  function Basename(path: string): (r: string)
    ensures |r| <= |path| && r == path[|path| - |r|..]
    ensures '/' !in r
    ensures |r| < |path| ==> path[|path| - |r| - 1] == '/'
  {
    if path == [] then ""
    else if path[|path| - 1] == '/' then ""
    else Basename(path[..|path| - 1]) + [path[|path| - 1]]
  }

  predicate IsDigit(c: char) { '0' <= c <= '9' }

  /** The decimal rendering of `n` (Python `str(n)`, JavaScript `String(n)`). */
  function NatToString(n: nat): (r: string)
    ensures |r| >= 1 && forall k :: 0 <= k < |r| ==> IsDigit(r[k])
    ensures n >= 10 ==> r[0] != '0'
    decreases n
  {
    if n < 10 then [('0' as int + n) as char]
    else NatToString(n / 10) + [('0' as int + n % 10) as char]
  }

  /** The value of a string of decimal digits. */
  function DigitsValue(s: string): nat
    requires forall k :: 0 <= k < |s| ==> IsDigit(s[k])
  {
    if s == [] then 0
    else
      assert IsDigit(s[|s| - 1]);
      10 * DigitsValue(s[..|s| - 1]) + (s[|s| - 1] as int - '0' as int)
  }

  /** Reading a rendered number back gives the number. */
  lemma {:induction false} NatToStringRoundTrip(n: nat)
    ensures DigitsValue(NatToString(n)) == n
    decreases n
  {
    if n >= 10 {
      NatToStringRoundTrip(n / 10);
      var s := NatToString(n);
      assert s[..|s| - 1] == NatToString(n / 10);
    }
  }

  /** A negative number is rendered with a leading minus sign. */
  function IntToString(i: int): string
  {
    if i < 0 then "-" + NatToString(-i) else NatToString(i)
  }
}
