/**
 * The system-log panel of AgentLog.js: entries are revealed one at a time as
 * each finishes its typing animation, and each entry is styled by the first of
 * a fixed list of patterns it matches.
 *
 * The patterns' emoji character classes are parameters (`tests`), one test
 * per pattern in order.
 */
module AgentLog {
  import opened Text

  // ---------------------------------------------------------------------------
  // Revealing the log
  // ---------------------------------------------------------------------------

  /** `handleTypingComplete`: the next entry is added while some remain. */
  function TypingStep(displayed: seq<string>, log: seq<string>): (r: seq<string>)
    ensures |displayed| < |log| ==> r == displayed + [log[|displayed|]]
    ensures |displayed| >= |log| ==> r == displayed
  {
    if |displayed| < |log| then displayed + [log[|displayed|]] else displayed
  }

  /** The effect on `[log, displayedLog]`: an empty log clears the display; a log
      with nothing shown yet starts with its first entry. */
  function SyncStep(displayed: seq<string>, log: seq<string>): (r: seq<string>)
    ensures |log| == 0 ==> r == []
    ensures |log| > 0 && |displayed| == 0 ==> r == [log[0]]
    ensures |log| > 0 && |displayed| > 0 ==> r == displayed
  {
    if |log| == 0 then []
    else if |displayed| == 0 then [log[0]]
    else displayed
  }

  /** While the log stays the same, both steps keep the display a prefix of it. */
  lemma StepsKeepPrefix(displayed: seq<string>, log: seq<string>)
    requires IsPrefix(displayed, log)
    ensures IsPrefix(TypingStep(displayed, log), log)
    ensures IsPrefix(SyncStep(displayed, log), log)
  {
    if |displayed| < |log| {
      assert log[..|displayed| + 1] == log[..|displayed|] + [log[|displayed|]];
    }
  }

  /** A log that only grows keeps a display that was a prefix of it a prefix. */
  lemma GrowingLogKeepsPrefix(displayed: seq<string>, log: seq<string>, more: seq<string>)
    requires IsPrefix(displayed, log)
    ensures IsPrefix(displayed, log + more)
  {
    assert (log + more)[..|displayed|] == log[..|displayed|];
  }

  /** `k` typing completions after the first entry was shown. */
  function Reveal(log: seq<string>, k: nat): seq<string>
    requires |log| > 0
  {
    if k == 0 then SyncStep([], log) else TypingStep(Reveal(log, k - 1), log)
  }

  function Min(a: int, b: int): int { if a < b then a else b }

  /** After `k` completions the first `k + 1` entries are shown, so after
      `|log| - 1` of them the whole log is. */
  lemma {:induction false} RevealShowsPrefix(log: seq<string>, k: nat)
    requires |log| > 0
    ensures Reveal(log, k) == log[..Min(k + 1, |log|)]
  {
    if k == 0 {
      assert log[..1] == [log[0]];
    } else {
      RevealShowsPrefix(log, k - 1);
      var shown := Reveal(log, k - 1);
      if |shown| < |log| {
        assert log[..|shown| + 1] == shown + [log[|shown|]];
      }
    }
  }

  /** The panel's displayed entries. */
  class LogView {
    var displayed: seq<string>

    constructor ()
      ensures displayed == []
    {
      displayed := [];
    }

    /** `handleTypingComplete` with the current log. */
    method TypingComplete(log: seq<string>)
      modifies this
      ensures displayed == TypingStep(old(displayed), log)
    {
      if |displayed| < |log| {
        displayed := displayed + [log[|displayed|]];
      }
    }

    /** The effect that runs when `log` or the display changes. */
    method Sync(log: seq<string>)
      modifies this
      ensures displayed == SyncStep(old(displayed), log)
    {
      if |log| == 0 {
        displayed := [];
        return;
      }
      if |log| > 0 && |displayed| == 0 {
        displayed := [log[0]];
      }
    }
  }

  // ---------------------------------------------------------------------------
  // categorizeLog
  // ---------------------------------------------------------------------------

  /** The class names of the patterns, in the order they are tried: success,
      error, info, warning, process. */
  const PATTERN_CLASSES := ["log-item-success", "log-item-error", "log-item-info", "log-item-warning",
                            "log-item-process"]

  const DEFAULT_CLASS := "log-item"

  /** `categorizeLog(logText).className`: the class of the first pattern whose
      test accepts the text, or the default when none does. */
  method CategorizeLog(tests: seq<string -> bool>, logText: string) returns (className: string)
    requires |tests| == |PATTERN_CLASSES|
    ensures (exists i :: 0 <= i < |tests| && tests[i](logText)) ==>
              exists i :: 0 <= i < |tests| && tests[i](logText) && className == PATTERN_CLASSES[i] &&
                forall j :: 0 <= j < i ==> !tests[j](logText)
    ensures (forall i :: 0 <= i < |tests| ==> !tests[i](logText)) ==> className == DEFAULT_CLASS
  {
    for i := 0 to |tests|
      invariant forall j :: 0 <= j < i ==> !tests[j](logText)
    {
      if tests[i](logText) {
        return PATTERN_CLASSES[i];
      }
    }
    return DEFAULT_CLASS;
  }
}
