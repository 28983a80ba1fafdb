/**
 * The two pieces of logic of config.py's notebook application that are not
 * JSON decoding: `upload_file`, which ingests every uploaded file and reports
 * one line per file, and the exit test of `chat_loop`.
 *
 * The ingestion of one file (loaders, chunking, the vector store) is a
 * parameter: its status text, or the formatted exception it raised.
 */
module ConfigApp {
  import opened Wrappers
  import opened Text
  import opened PyText

  const NO_FILES := "\U{26A0}\U{FE0F} Please upload at least one file."

  const ERROR_INGESTING := "\U{274C} Error ingesting "

  /** The line of one file: the ingestion status, or the error with the file's
      base name and the formatted exception. */
  function UploadLine(path: string, ingested: Result<string, string>): (line: string)
    ensures ingested.Ok? ==> line == ingested.value
    ensures ingested.Err? ==> IsPrefix(ERROR_INGESTING, line)
  {
    match ingested
    case Ok(status) => status
    case Err(e) =>
      var rest := Basename(path) + ": " + e;
      assert (ERROR_INGESTING + rest)[..|ERROR_INGESTING|] == ERROR_INGESTING;
      ERROR_INGESTING + rest
  }

  /** `upload_file(files)`: the warning when nothing was uploaded; otherwise every
      file is ingested, in order, a failure does not stop the others, and the
      lines are joined with newlines. */
  method UploadFile(files: Option<seq<string>>, ingest: string -> Result<string, string>)
    returns (r: string, lines: seq<string>)
    ensures (files.None? || files == Some([])) ==> r == NO_FILES && lines == []
    ensures files.Some? && files.value != [] ==>
              && |lines| == |files.value|
              && (forall i :: 0 <= i < |lines| ==> lines[i] == UploadLine(files.value[i], ingest(files.value[i])))
              && r == Join("\n", lines)
  {
    lines := [];
    if files.None? || files.value == [] {
      return NO_FILES, lines;
    }
    var paths := files.value;
    for i := 0 to |paths|
      invariant |lines| == i
      invariant forall j :: 0 <= j < i ==> lines[j] == UploadLine(paths[j], ingest(paths[j]))
    {
      var outcome := ingest(paths[i]);
      lines := lines + [UploadLine(paths[i], outcome)];
    }
    r := Join("\n", lines);
  }

  /** When every line is free of newlines, the report splits back into exactly
      one line per file, in order. (A formatted exception ends with a newline,
      so an error line leaves an empty line after it.) */
  lemma UploadReportSplits(lines: seq<string>)
    requires lines != []
    requires forall i :: 0 <= i < |lines| ==> '\n' !in lines[i]
    ensures SplitOn(Join("\n", lines), '\n') == lines
  {
    SplitJoin(lines, '\n');
  }

  const EXIT_COMMANDS: set<string> := {"exit", "quit", "q"}

  /** `user_input.strip().lower() in ["exit", "quit", "q"]`. */
  predicate IsExitCommand(input: string)
    ensures input == "" ==> !IsExitCommand(input)
  {
    Lower(PyStrip(input)) in EXIT_COMMANDS
  }

  /** Surrounding whitespace and letter case do not matter: what counts is the
      trimmed text. */
  lemma ExitIgnoresPaddingAndCase(input: string)
    ensures IsExitCommand(input) <==> IsExitCommand(Lower(PyStrip(input)))
  {
    var t := PyStrip(input);
    var l := Lower(t);
    if l != [] {
      assert l[0] == LowerChar(t[0]) && l[|l| - 1] == LowerChar(t[|t| - 1]);
      StripUnpadded(l, WHITESPACE);
    } else {
      assert Strip(l, WHITESPACE) == l;
    }
    LowerIdempotent(t);
  }

  /** `chat_loop` over the lines typed, as long as there are any: every line
      before the first exit command is handed to the agent, in order, and the
      loop stops at that command. */
  method ChatLoop(inputs: seq<string>) returns (handled: seq<string>, exited: bool)
    ensures exited <==> exists k :: 0 <= k < |inputs| && IsExitCommand(inputs[k])
    ensures IsPrefix(handled, inputs)
    ensures forall k :: 0 <= k < |handled| ==> !IsExitCommand(handled[k])
    ensures exited ==> IsExitCommand(inputs[|handled|])
    ensures !exited ==> handled == inputs
  {
    handled := [];
    var i := 0;
    while i < |inputs|
      invariant 0 <= i <= |inputs|
      invariant handled == inputs[..i]
      invariant forall k :: 0 <= k < i ==> !IsExitCommand(inputs[k])
    {
      if IsExitCommand(inputs[i]) {
        return handled, true;
      }
      handled := handled + [inputs[i]];
      i := i + 1;
    }
    exited := false;
  }
}
