/**
 * The structured facts `node_memory_update` extracts from the user's text by
 * substring search on its lower-cased form, and the JSON documents it stores
 * for them.
 */
module Facts {
  import opened Wrappers
  import opened Text
  import opened PyText
  import JsonText

  datatype Fact = Fact(entity: string, attribute: string, value: string)

  const USER_PATTERN := "my name is"
  const AGENT_PATTERN := "your name is"
  const AGENT_PATTERN_SHORT := "ur name is"
  const AGENT_SEPARATOR := " is "
  const BROTHER_PATTERN := "my brother name is"

  /** What `.strip(".?! ")` removes. */
  const TRAILING_PUNCTUATION: set<char> := {'.', '?', '!', ' '}

  /** `low.split(sep, 1)[-1].strip().strip(".?! ")`. */
  function ValueAfter(low: string, sep: string): (v: string)
    ensures v != [] ==> v[0] !in TRAILING_PUNCTUATION && v[|v| - 1] !in TRAILING_PUNCTUATION
    ensures |v| <= |low|
  {
    PyStripChars(PyStrip(AfterFirst(low, sep)), TRAILING_PUNCTUATION)
  }

  /** A name fact, emitted only when the value is not empty. */
  function NameFact(entity: string, value: string): (facts: seq<Fact>)
    ensures |facts| <= 1
    ensures forall k :: 0 <= k < |facts| ==> facts[k] == Fact(entity, "name", value) && value != ""
  {
    if value == "" then [] else [Fact(entity, "name", value)]
  }

  /** Every fact names something, by a non-empty value. */
  predicate NamesOnly(facts: seq<Fact>)
  {
    forall k :: 0 <= k < |facts| ==> facts[k].attribute == "name" && facts[k].value != ""
  }

  lemma NamesOnlyAppend(a: seq<Fact>, b: seq<Fact>)
    requires NamesOnly(a) && NamesOnly(b)
    ensures NamesOnly(a + b)
  {
  }

  /** The fact of one check: emitted when `found` holds and the value after `sep`
      is not empty. */
  function CheckFact(found: bool, low: string, sep: string, entity: string): (facts: seq<Fact>)
    ensures |facts| <= 1 && NamesOnly(facts)
  {
    if found then NameFact(entity, ValueAfter(low, sep)) else []
  }

  /** The three independent checks, in the order the code makes them. */
  function ExtractFacts(userInput: string): (facts: seq<Fact>)
    ensures |facts| <= 3
    ensures NamesOnly(facts)
  {
    var low := Lower(userInput);
    var user := CheckFact(Contains(low, USER_PATTERN), low, USER_PATTERN, "user");
    var agent := CheckFact(Contains(low, AGENT_PATTERN) || Contains(low, AGENT_PATTERN_SHORT),
                           low, AGENT_SEPARATOR, "agent");
    var brother := CheckFact(Contains(low, BROTHER_PATTERN), low, BROTHER_PATTERN, "user's brother");
    NamesOnlyAppend(user, agent);
    NamesOnlyAppend(user + agent, brother);
    user + agent + brother
  }

  function Entities(facts: seq<Fact>): seq<string>
  {
    if facts == [] then [] else [facts[0].entity] + Entities(facts[1..])
  }

  lemma CheckFactEntity(found: bool, low: string, sep: string, entity: string)
    ensures Entities(CheckFact(found, low, sep, entity)) ==
            (if found && ValueAfter(low, sep) != "" then [entity] else [])
  {
  }

  /** Which facts appear: each entity at most once, in the order user, agent,
      brother, and each exactly when its pattern occurs and leaves a non-empty value. */
  lemma ExtractFactsExactly(userInput: string)
    ensures var low := Lower(userInput);
            var u := Contains(low, USER_PATTERN) && ValueAfter(low, USER_PATTERN) != "";
            var a := (Contains(low, AGENT_PATTERN) || Contains(low, AGENT_PATTERN_SHORT)) &&
                     ValueAfter(low, AGENT_SEPARATOR) != "";
            var b := Contains(low, BROTHER_PATTERN) && ValueAfter(low, BROTHER_PATTERN) != "";
            Entities(ExtractFacts(userInput)) ==
              (if u then ["user"] else []) + (if a then ["agent"] else []) + (if b then ["user's brother"] else [])
  {
    var low := Lower(userInput);
    var fu := Contains(low, USER_PATTERN);
    var fa := Contains(low, AGENT_PATTERN) || Contains(low, AGENT_PATTERN_SHORT);
    var fb := Contains(low, BROTHER_PATTERN);
    var user := CheckFact(fu, low, USER_PATTERN, "user");
    var agent := CheckFact(fa, low, AGENT_SEPARATOR, "agent");
    var brother := CheckFact(fb, low, BROTHER_PATTERN, "user's brother");
    assert ExtractFacts(userInput) == user + agent + brother;
    CheckFactEntity(fu, low, USER_PATTERN, "user");
    CheckFactEntity(fa, low, AGENT_SEPARATOR, "agent");
    CheckFactEntity(fb, low, BROTHER_PATTERN, "user's brother");
    EntitiesAppend(user, agent);
    EntitiesAppend(user + agent, brother);
  }

  lemma {:induction false} EntitiesAppend(a: seq<Fact>, b: seq<Fact>)
    ensures Entities(a + b) == Entities(a) + Entities(b)
  {
    if a == [] {
      assert a + b == b;
    } else {
      EntitiesAppend(a[1..], b);
      assert (a + b)[0] == a[0];
      assert (a + b)[1..] == a[1..] + b;
      calc {
        Entities(a + b);
        [a[0].entity] + Entities(a[1..] + b);
        [a[0].entity] + (Entities(a[1..]) + Entities(b));
        ([a[0].entity] + Entities(a[1..])) + Entities(b);
      }
    }
  }

  /** The value of each fact is what follows the FIRST occurrence of its separator. */
  lemma UserValueFollowsFirstOccurrence(userInput: string)
    requires Contains(Lower(userInput), USER_PATTERN)
    ensures var low := Lower(userInput);
            var i := IndexOf(low, USER_PATTERN).value;
            ValueAfter(low, USER_PATTERN) ==
              PyStripChars(PyStrip(low[i + |USER_PATTERN|..]), TRAILING_PUNCTUATION)
  {
  }

  /** Neither end of the text is whitespace or punctuation: the value is the text. */
  lemma ValueOfUnpadded(low: string, sep: string, rest: string)
    requires AfterFirst(low, sep) == rest
    requires rest != [] && rest[0] !in WHITESPACE + TRAILING_PUNCTUATION
    requires rest[|rest| - 1] !in WHITESPACE + TRAILING_PUNCTUATION
    ensures ValueAfter(low, sep) == rest
  {
    StripUnpadded(rest, WHITESPACE);
    StripUnpadded(rest, TRAILING_PUNCTUATION);
  }

  /** With no occurrence of `sep` inside `head`, the value is what follows the
      `sep` after `head`, when that is not padded. */
  lemma ValueAfterHead(head: string, sep: string, tail: string)
    requires forall k :: 0 <= k < |head| ==> !OccursAt(head + sep + tail, sep, k)
    requires tail != [] && tail[0] !in WHITESPACE + TRAILING_PUNCTUATION
    requires tail[|tail| - 1] !in WHITESPACE + TRAILING_PUNCTUATION
    ensures ValueAfter(head + sep + tail, sep) == tail
  {
    var s := head + sep + tail;
    assert s[|head|..|head| + |sep|] == sep;
    IndexOfIs(s, sep, |head|);
    assert s[|head| + |sep|..] == tail;
    ValueOfUnpadded(s, sep, tail);
  }

  /** The agent's name is cut at the first " is " in the whole text, which need
      not belong to "your name is": "this" + " is " + "it, your name is max" names
      the agent "it, your name is max". */
  lemma AgentValueCutsAtFirstIs(head: string, tail: string)
    requires head == "this" && tail == "it, your name is max"
    ensures ValueAfter(head + AGENT_SEPARATOR + tail, AGENT_SEPARATOR) == tail
  {
    var s := head + AGENT_SEPARATOR + tail;
    forall k | 0 <= k < |head| ensures !OccursAt(s, AGENT_SEPARATOR, k) {
      assert s[k] == head[k];
      MismatchAt(s, AGENT_SEPARATOR, k, 0);
    }
    assert tail[0] == 'i' && tail[|tail| - 1] == 'x';
    ValueAfterHead(head, AGENT_SEPARATOR, tail);
  }

  /** A text of fewer than four characters, or one whose every window of four
      misses the separator, does not contain it. */
  lemma NoIsInYourNameIs(s: string)
    requires s == "your name is"
    ensures IndexOf(s, AGENT_SEPARATOR).None?
  {
    var pat := AGENT_SEPARATOR;
    forall k | 0 <= k <= |s| ensures !OccursAt(s, pat, k) {
      if k + |pat| > |s| {
      } else if k == 4 || k == 8 {
        MismatchAt(s, pat, k, 1);
      } else {
        MismatchAt(s, pat, k, 0);
      }
    }
  }

  /** With no " is " in the text at all, the whole text is taken: "your name is"
      alone names the agent "your name is". */
  lemma AgentValueWithoutSeparator(s: string)
    requires s == "your name is"
    ensures ValueAfter(s, AGENT_SEPARATOR) == s
  {
    NoIsInYourNameIs(s);
    assert s[0] == 'y' && s[|s| - 1] == 's';
    ValueOfUnpadded(s, AGENT_SEPARATOR, s);
  }

  /** `json.dumps({"entity": ..., "attribute": ..., "value": ...})`, with the
      default separators and key order. */
  function FactJson(f: Fact): string
  {
    "{\"entity\": " + JsonText.Quote(f.entity) +
    ", \"attribute\": " + JsonText.Quote(f.attribute) +
    ", \"value\": " + JsonText.Quote(f.value) + "}"
  }

  /** The stored fact is printable ASCII throughout. */
  lemma FactJsonIsPrintable(f: Fact)
    ensures JsonText.Printable(FactJson(f))
  {
    var q1, q2, q3 := JsonText.Quote(f.entity), JsonText.Quote(f.attribute), JsonText.Quote(f.value);
    JsonText.QuoteIsPrintable(f.entity);
    JsonText.QuoteIsPrintable(f.attribute);
    JsonText.QuoteIsPrintable(f.value);
    var s := "{\"entity\": ";
    JsonText.PrintableConcat(s, q1);
    s := s + q1;
    JsonText.PrintableConcat(s, ", \"attribute\": ");
    s := s + ", \"attribute\": ";
    JsonText.PrintableConcat(s, q2);
    s := s + q2;
    JsonText.PrintableConcat(s, ", \"value\": ");
    s := s + ", \"value\": ";
    JsonText.PrintableConcat(s, q3);
    s := s + q3;
    JsonText.PrintableConcat(s, "}");
    s := s + "}";
    assert s == FactJson(f);
  }

  /** The stored fact is printable ASCII, quoted so that the value reads back. */
  lemma FactJsonValueReadsBack(f: Fact)
    ensures JsonText.Unescape(JsonText.Escape(f.value)) == Some(f.value)
    ensures forall k :: 0 <= k < |JsonText.Escape(f.value)| ==>
              JsonText.IsPrintableAscii(JsonText.Escape(f.value)[k])
  {
    JsonText.EscapeRoundTrip(f.value);
    JsonText.EscapeIsPrintableAscii(f.value);
  }
}
