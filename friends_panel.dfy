/**
 * The friends list of FriendsPanel.js: the search filter, the pages of five,
 * the previous/next buttons, and the page restored from session storage.
 */
module FriendsPanel {
  import opened Wrappers
  import opened Text

  datatype Friend = Friend(id: int, name: string, avatar: string)

  const ITEMS_PER_PAGE := 5

  // ---------------------------------------------------------------------------
  // filteredFriends
  // ---------------------------------------------------------------------------

  /** The lower-cased name contains the lower-cased search term. */
  predicate Matches(f: Friend, term: string)
    ensures term == "" ==> Matches(f, term)
  {
    assert OccursAt(Lower(f.name), "", 0);
    Contains(Lower(f.name), Lower(term))
  }

  /** `friends.filter(...)` with the search term. */
  function Filter(friends: seq<Friend>, term: string): (r: seq<Friend>)
    ensures |r| <= |friends|
    ensures forall f :: f in r <==> f in friends && Matches(f, term)
  {
    if friends == [] then []
    else (if Matches(friends[0], term) then [friends[0]] else []) + Filter(friends[1..], term)
  }

  /** The filter keeps the original order: filtering a concatenation filters
      each part. */
  lemma {:induction false} FilterAppend(a: seq<Friend>, b: seq<Friend>, term: string)
    ensures Filter(a + b, term) == Filter(a, term) + Filter(b, term)
  {
    if a == [] {
      assert a + b == b;
    } else {
      assert (a + b)[1..] == a[1..] + b;
      FilterAppend(a[1..], b, term);
    }
  }

  /** The empty search keeps every friend. */
  lemma {:induction false} EmptySearchKeepsAll(friends: seq<Friend>)
    ensures Filter(friends, "") == friends
  {
    if friends != [] {
      assert OccursAt(Lower(friends[0].name), "", 0);
      EmptySearchKeepsAll(friends[1..]);
    }
  }

  // ---------------------------------------------------------------------------
  // totalPages and paginatedFriends
  // ---------------------------------------------------------------------------

  /** `Math.ceil(count / ITEMS_PER_PAGE)`. */
  function TotalPages(count: nat): (t: nat)
    ensures t == 0 <==> count == 0
    ensures count > 0 ==> ITEMS_PER_PAGE * (t - 1) < count <= ITEMS_PER_PAGE * t
  {
    (count + ITEMS_PER_PAGE - 1) / ITEMS_PER_PAGE
  }

  /** A relative index of JavaScript `slice`: negative counts from the end, and
      the result is clamped to the sequence. */
  function SliceIndex(len: nat, i: int): (r: nat)
    ensures r <= len
    ensures 0 <= i <= len ==> r == i
  {
    if i < 0 then (if len + i < 0 then 0 else len + i)
    else if i > len then len
    else i
  }

  /** JavaScript `s.slice(start, end)`. */
  function JsSlice<T>(s: seq<T>, start: int, end: int): (r: seq<T>)
    ensures |r| <= |s|
  {
    var a := SliceIndex(|s|, start);
    var b := SliceIndex(|s|, end);
    if a < b then s[a..b] else []
  }

  /** `paginatedFriends` for the current page. */
  function Page<T>(filtered: seq<T>, page: int): (r: seq<T>)
    ensures |r| <= ITEMS_PER_PAGE
  {
    var startIndex := (page - 1) * ITEMS_PER_PAGE;
    JsSlice(filtered, startIndex, startIndex + ITEMS_PER_PAGE)
  }

  function Min(a: int, b: int): int { if a < b then a else b }

  function Max(a: int, b: int): int { if a < b then b else a }

  /** A page from 1 on holds the (at most five) items from its start index. */
  lemma PageContents<T>(filtered: seq<T>, page: int)
    requires page >= 1
    ensures var start := Min((page - 1) * ITEMS_PER_PAGE, |filtered|);
            var end := Min(page * ITEMS_PER_PAGE, |filtered|);
            Page(filtered, page) == filtered[start..end]
    ensures |Page(filtered, page)| <= ITEMS_PER_PAGE
  {
  }

  /** The first `k` pages one after the other. */
  function FirstPages<T>(filtered: seq<T>, k: nat): seq<T>
  {
    if k == 0 then [] else FirstPages(filtered, k - 1) + Page(filtered, k)
  }

  lemma {:induction false} FirstPagesPrefix<T>(filtered: seq<T>, k: nat)
    ensures FirstPages(filtered, k) == filtered[..Min(k * ITEMS_PER_PAGE, |filtered|)]
  {
    if k > 0 {
      FirstPagesPrefix(filtered, k - 1);
      PageContents(filtered, k);
      var a := Min((k - 1) * ITEMS_PER_PAGE, |filtered|);
      var b := Min(k * ITEMS_PER_PAGE, |filtered|);
      assert filtered[..a] + filtered[a..b] == filtered[..b];
    }
  }

  /** The pages 1 to `totalPages` together are the filtered list, each friend on
      exactly one page and in order. */
  lemma PagesCoverFiltered<T>(filtered: seq<T>)
    ensures FirstPages(filtered, TotalPages(|filtered|)) == filtered
  {
    FirstPagesPrefix(filtered, TotalPages(|filtered|));
  }

  // ---------------------------------------------------------------------------
  // Page navigation
  // ---------------------------------------------------------------------------

  /** `handleNextPage`. */
  function NextPage(page: int, totalPages: nat): (r: int)
    ensures r <= totalPages
    ensures page < totalPages ==> r == page + 1
  {
    Min(page + 1, totalPages)
  }

  /** `handlePrevPage`. */
  function PrevPage(page: int): (r: int)
    ensures r >= 1
    ensures page > 1 ==> r == page - 1
  {
    Max(page - 1, 1)
  }

  /** From a page in range the buttons stay in range; next moves forward unless
      on the last page, previous moves back unless on the first. */
  lemma NavigationStaysInRange(page: int, totalPages: nat)
    requires 1 <= page <= totalPages
    ensures 1 <= NextPage(page, totalPages) <= totalPages
    ensures 1 <= PrevPage(page) <= totalPages
    ensures NextPage(page, totalPages) == (if page < totalPages then page + 1 else page)
    ensures PrevPage(page) == (if page > 1 then page - 1 else page)
  {
  }

  /** With no matching friend `handleNextPage` moves to page 0, though the
      buttons are only shown when there are two pages or more. */
  lemma NextWithNoPages(page: int)
    requires page >= 0
    ensures NextPage(page, 0) == 0
  {
  }

  // ---------------------------------------------------------------------------
  // Search and the page kept in session storage
  // ---------------------------------------------------------------------------

  datatype PanelState = PanelState(searchTerm: string, currentPage: int)

  /** Typing in the search box sets the term and goes back to page 1. */
  function OnSearchChange(s: PanelState, term: string): (r: PanelState)
    ensures r.searchTerm == term && r.currentPage == 1
  {
    PanelState(term, 1)
  }

  /** After a search change the panel shows the first five friends matching the
      new term, and when any match that page is one of the new filter's pages. */
  lemma SearchShowsFirstMatches(friends: seq<Friend>, s: PanelState, term: string)
    ensures var r := OnSearchChange(s, term);
            var filtered := Filter(friends, term);
            && Page(Filter(friends, r.searchTerm), r.currentPage) == filtered[..Min(ITEMS_PER_PAGE, |filtered|)]
            && (filtered != [] ==> 1 <= r.currentPage <= TotalPages(|filtered|))
  {
    PageContents(Filter(friends, term), 1);
  }

  /** The length of the run of digits at the start of `s`. */
  function DigitRun(s: string): (n: nat)
    ensures n <= |s|
    ensures forall k :: 0 <= k < n ==> IsDigit(s[k])
    ensures n < |s| ==> !IsDigit(s[n])
  {
    if s == [] || !IsDigit(s[0]) then 0 else 1 + DigitRun(s[1..])
  }

  lemma {:induction false} AllDigitsRun(s: string)
    requires forall k :: 0 <= k < |s| ==> IsDigit(s[k])
    ensures DigitRun(s) == |s|
  {
    if s != [] {
      AllDigitsRun(s[1..]);
    }
  }

  /** `parseInt(s, 10)`: skips leading white space, reads an optional sign and
      the digits after it; None stands for NaN (no digit). */
  function ParseInt(s: string): Option<int>
  {
    var t := s[LeadCount(s, JS_WHITESPACE)..];
    var u := Unsigned(t);
    var n := DigitRun(u);
    if n == 0 then None
    else
      var v: int := DigitsValue(u[..n]);
      Some(if |t| > 0 && t[0] == '-' then -v else v)
  }

  /** The text after a leading sign. */
  function Unsigned(t: string): string
  {
    if |t| > 0 && (t[0] == '-' || t[0] == '+') then t[1..] else t
  }

  /** `parseInt(sessionStorage.getItem('friendsCurrentPage'), 10) || 1`: NaN
      (including a missing entry, read as "null") and 0 start at page 1. */
  function StoredPage(stored: Option<string>): (page: int)
    ensures page != 0
    ensures stored.None? ==> page == 1
    ensures stored.Some? && ParseInt(stored.value) !in {None, Some(0)} ==> page == ParseInt(stored.value).value
  {
    if stored.None? then 1
    else
      match ParseInt(stored.value)
      case Some(v) => if v != 0 then v else 1
      case None => 1
  }

  /** Text that starts with anything but white space is read from its start. */
  lemma NoLeadingSpace(s: string)
    requires |s| >= 1 && s[0] !in JS_WHITESPACE
    ensures s[LeadCount(s, JS_WHITESPACE)..] == s
  {
    assert LeadCount(s, JS_WHITESPACE) == 0;
  }

  /** Text that starts with a sign or a digit, and whose unsigned part is all
      digits, reads back as their value with that sign. */
  lemma ParseSignedDigits(s: string, digits: string)
    requires |s| >= 1 && s[0] !in JS_WHITESPACE && Unsigned(s) == digits
    requires |digits| >= 1 && forall k :: 0 <= k < |digits| ==> IsDigit(digits[k])
    ensures ParseInt(s) == Some(if s[0] == '-' then -(DigitsValue(digits) as int) else DigitsValue(digits))
  {
    NoLeadingSpace(s);
    AllDigitsRun(digits);
    assert digits[..|digits|] == digits;
  }

  /** A number of digits alone reads back as its value. */
  lemma ParseDigits(digits: string)
    requires |digits| >= 1 && forall k :: 0 <= k < |digits| ==> IsDigit(digits[k])
    ensures ParseInt(digits) == Some(DigitsValue(digits))
  {
    assert IsDigit(digits[0]);
    ParseSignedDigits(digits, digits);
  }

  /** A minus sign and digits read back as the negated value. */
  lemma ParseNegatedDigits(digits: string)
    requires |digits| >= 1 && forall k :: 0 <= k < |digits| ==> IsDigit(digits[k])
    ensures ParseInt("-" + digits) == Some(-(DigitsValue(digits) as int))
  {
    var s := "-" + digits;
    assert s[0] == '-' && s[1..] == digits;
    ParseSignedDigits(s, digits);
  }

  /** Text without a digit is NaN. */
  lemma ParseWithoutDigits(s: string)
    requires forall k :: 0 <= k < |s| ==> !IsDigit(s[k])
    ensures ParseInt(s).None?
  {
    var t := s[LeadCount(s, JS_WHITESPACE)..];
    var u := Unsigned(t);
    if u != [] {
      assert u[0] == s[|s| - |u|];
    }
  }

  lemma ParseNegativeRoundTrip(i: int)
    requires i < 0
    ensures ParseInt(IntToString(i)) == Some(i)
  {
    var m: nat := -i;
    var d := NatToString(m);
    NatToStringRoundTrip(m);
    ParseNegatedDigits(d);
    assert IntToString(i) == "-" + d;
  }

  /** `parseInt` reads back what `String` renders. */
  lemma ParseIntRoundTrip(i: int)
    ensures ParseInt(IntToString(i)) == Some(i)
  {
    if i < 0 {
      ParseNegativeRoundTrip(i);
    } else {
      ParseDigits(NatToString(i));
      NatToStringRoundTrip(i);
    }
  }

  /** The page the panel stores (`String(currentPage)`) is the page it restores. */
  lemma StoredPageRoundTrip(page: int)
    requires page != 0
    ensures StoredPage(Some(IntToString(page))) == page
  {
    ParseIntRoundTrip(page);
  }

  /** The initial state: the stored term (or none) and the stored page. */
  function InitialPanel(storedTerm: Option<string>, storedPage: Option<string>): (r: PanelState)
    ensures r.currentPage != 0
    ensures storedTerm.None? ==> r.searchTerm == ""
  {
    PanelState(if storedTerm.Some? then storedTerm.value else "", StoredPage(storedPage))
  }
}
