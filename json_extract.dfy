/**
 * Defensive JSON decoding of what the model returns, by `extract_json_block` (the greedy
 * regular expression `(\{.*\}|\[.*\])` searched with `re.S`) and the two
 * variants of `safe_json_loads` (the strict one of core/utils.py and the
 * whitespace-cleaning one of config.py).
 *
 * `json.loads` itself is a parameter: a partial function that either yields a
 * value or raises, distinguishing `JSONDecodeError` from any other exception.
 */
module JsonExtract {
  import opened Wrappers
  import opened Json
  import opened Text

  /** What one call of `json.loads` does. */
  datatype LoadResult =
    | Loaded(value: Json)
    | DecodeError(message: string)   // json.JSONDecodeError, with str(e)
    | OtherError(message: string)    // any other exception, with str(e)

  predicate IsOpener(c: char) { c == '{' || c == '[' }

  function Closer(c: char): char
  {
    if c == '{' then '}' else ']'
  }

  /** Position `i` holds `{` with a `}` somewhere after it, or `[` with a `]`
      somewhere after it: the regular expression can match starting here. */
  ghost predicate HasBlockAt(text: string, i: int)
  {
    0 <= i < |text| && IsOpener(text[i]) &&
    exists j :: i < j < |text| && text[j] == Closer(text[i])
  }

  /** The span the regular-expression search finds when it starts looking at
      `from`: the first start that can match, through the last matching closer. */
  function FindBlock(text: string, from: nat): (r: Option<(nat, nat)>)
    requires from <= |text|
    ensures r.Some? ==>
              var (i, j) := r.value;
              && from <= i < j < |text|
              && HasBlockAt(text, i)
              && text[j] == Closer(text[i])
              && (forall k :: j < k < |text| ==> text[k] != Closer(text[i]))
              && (forall k :: from <= k < i ==> !HasBlockAt(text, k))
    ensures r.None? ==> forall k :: from <= k < |text| ==> !HasBlockAt(text, k)
    decreases |text| - from
  {
    if from == |text| then None
    else
      var c := text[from];
      var last := LastIndexOf(text, Closer(c));
      if IsOpener(c) && last > from then Some((from, last))
      else
        var r := FindBlock(text, from + 1);
        assert !HasBlockAt(text, from) by {
          if IsOpener(c) {
            forall j | from < j < |text| ensures text[j] != Closer(c) {}
          }
        }
        r
  }

  /** core/utils.py and config.py `extract_json_block`. */
  function ExtractJsonBlock(text: string): (r: Option<string>)
    ensures r.None? <==> forall k :: 0 <= k < |text| ==> !HasBlockAt(text, k)
    ensures r.Some? ==>
              && |r.value| >= 2
              && IsOpener(r.value[0])
              && r.value[|r.value| - 1] == Closer(r.value[0])
  {
    match FindBlock(text, 0)
    case None => None
    case Some((i, j)) => Some(text[i..j + 1])
  }

  /** The block is exactly the leftmost start that can match, through the LAST
      matching closer in the whole text (the greedy `.*` of the pattern). */
  lemma ExtractJsonBlockIsLeftmostGreedy(text: string, i: nat, j: nat)
    requires HasBlockAt(text, i)
    requires forall k :: 0 <= k < i ==> !HasBlockAt(text, k)
    requires i < j < |text| && text[j] == Closer(text[i])
    requires forall k :: j < k < |text| ==> text[k] != Closer(text[i])
    ensures ExtractJsonBlock(text) == Some(text[i..j + 1])
  {
    var r := FindBlock(text, 0);
    assert r.Some?;
    var (i', j') := r.value;
    // Each start is a position with a block and nothing before it has one.
    assert i' <= i && i <= i';
    // Each end is the position of a closer with none after it.
    assert j' <= j && j <= j';
  }

  /** The block is a piece of the text. */
  lemma ExtractJsonBlockIsSubstring(text: string)
    ensures ExtractJsonBlock(text).Some? ==> Contains(text, ExtractJsonBlock(text).value)
  {
    match FindBlock(text, 0)
    case None =>
    case Some((i, j)) =>
      assert OccursAt(text, text[i..j + 1], i);
      ContainsMeansOccurs(text, text[i..j + 1], i);
  }

  /** config.py replaces every newline and tab of the block by a space. */
  function ReplaceNewlinesAndTabs(s: string): (r: string)
    ensures |r| == |s|
    ensures forall k :: 0 <= k < |s| ==>
              r[k] == (if s[k] == '\n' || s[k] == '\t' then ' ' else s[k])
  {
    seq(|s|, k requires 0 <= k < |s| => if s[k] == '\n' || s[k] == '\t' then ' ' else s[k])
  }

  /** core/utils.py `safe_json_loads`: only `JSONDecodeError` is caught. */
  function SafeJsonLoadsStrict(loads: string -> LoadResult, text: string): (r: Outcome)
    ensures loads(text).Loaded? ==> r == Returned(loads(text).value)
    ensures loads(text).OtherError? ==> r == Raised(loads(text).message)
    ensures loads(text).DecodeError? && ExtractJsonBlock(text).None? ==>
              r == Returned(ErrorDict("no json found", text))
  {
    match loads(text)
    case Loaded(v) => Returned(v)
    case OtherError(m) => Raised(m)
    case DecodeError(_) =>
      match ExtractJsonBlock(text)
      case None => Returned(ErrorDict("no json found", text))
      case Some(block) =>
        match loads(block)
        case Loaded(v) => Returned(v)
        case DecodeError(_) => Returned(ErrorDict("json parse fail", block))
        case OtherError(m) => Raised(m)
  }

  /** config.py `safe_json_loads`: every exception is caught, and the block is
      parsed after its newlines and tabs become spaces. */
  function SafeJsonLoads(loads: string -> LoadResult, text: string): (r: Json)
    ensures loads(text).Loaded? ==> r == loads(text).value
    ensures !loads(text).Loaded? && ExtractJsonBlock(text).None? ==> r == ErrorDict("no json found", text)
  {
    match loads(text)
    case Loaded(v) => v
    case _ =>
      match ExtractJsonBlock(text)
      case None => ErrorDict("no json found", text)
      case Some(block) =>
        match loads(ReplaceNewlinesAndTabs(block))
        case Loaded(v) => v
        case DecodeError(m) => ErrorDict("json parse fail: " + m, block)
        case OtherError(m) => ErrorDict("json parse fail: " + m, block)
  }

  /** Both variants return a strict parse unchanged. */
  lemma StrictParseWins(loads: string -> LoadResult, text: string)
    requires loads(text).Loaded?
    ensures SafeJsonLoadsStrict(loads, text) == Returned(loads(text).value)
    ensures SafeJsonLoads(loads, text) == loads(text).value
  {
  }

  /** The strict variant raises exactly when some call of `json.loads` raised an
      exception other than `JSONDecodeError`; it never raises for a decode error. */
  lemma StrictRaisesOnlyOtherErrors(loads: string -> LoadResult, text: string)
    ensures SafeJsonLoadsStrict(loads, text).Raised? <==>
              (loads(text).OtherError? ||
               (loads(text).DecodeError? && ExtractJsonBlock(text).Some? &&
                loads(ExtractJsonBlock(text).value).OtherError?))
  {
  }

  /** The fallback outcomes of the strict variant when the whole text does not decode. */
  lemma StrictFallbacks(loads: string -> LoadResult, text: string)
    requires loads(text).DecodeError?
    ensures ExtractJsonBlock(text).None? ==>
              SafeJsonLoadsStrict(loads, text) == Returned(ErrorDict("no json found", text))
    ensures ExtractJsonBlock(text).Some? ==>
              var b := ExtractJsonBlock(text).value;
              && (loads(b).Loaded? ==> SafeJsonLoadsStrict(loads, text) == Returned(loads(b).value))
              && (loads(b).DecodeError? ==>
                    SafeJsonLoadsStrict(loads, text) == Returned(ErrorDict("json parse fail", b)))
  {
  }

  /** The fallback outcomes of the config.py variant when the whole text does not
      decode (whatever the exception was). */
  lemma CleaningFallbacks(loads: string -> LoadResult, text: string)
    requires !loads(text).Loaded?
    ensures ExtractJsonBlock(text).None? ==>
              SafeJsonLoads(loads, text) == ErrorDict("no json found", text)
    ensures ExtractJsonBlock(text).Some? ==>
              var b := ExtractJsonBlock(text).value;
              var c := ReplaceNewlinesAndTabs(b);
              && (loads(c).Loaded? ==> SafeJsonLoads(loads, text) == loads(c).value)
              && (!loads(c).Loaded? ==>
                    SafeJsonLoads(loads, text) == ErrorDict("json parse fail: " + loads(c).message, b))
  {
  }

  /** The cleaned block holds no newline and no tab. */
  lemma CleanedBlockHasNoNewlineOrTab(s: string)
    ensures '\n' !in ReplaceNewlinesAndTabs(s) && '\t' !in ReplaceNewlinesAndTabs(s)
  {
    var r := ReplaceNewlinesAndTabs(s);
    forall k | 0 <= k < |r| ensures r[k] != '\n' && r[k] != '\t' {}
  }
}
