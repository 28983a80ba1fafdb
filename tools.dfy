/**
 * The agent's tool registry (tools.py `TOOLS`): four named tools whose
 * functions read their arguments from a dict with defaults, and the formatting
 * of `tool_rag_search` results.
 *
 * The web search, the document search behind `rag_search`, and `int()` on text
 * are parameters collected in `Backends`; the calculator is the `Calculator`
 * module.
 */
module Tools {
  import opened Wrappers
  import opened Json
  import opened Text
  import Calculator

  datatype ToolName = WebSearch | CalculatorTool | RagSearch | PythonRepl

  /** The registry key of each tool. */
  function Key(t: ToolName): string
  {
    match t
    case WebSearch => "web_search"
    case CalculatorTool => "calculator"
    case RagSearch => "rag_search"
    case PythonRepl => "python_repl"
  }

  /** `name in TOOLS`, resolving the name to its tool. */
  function Lookup(name: string): (r: Option<ToolName>)
    ensures r.Some? ==> Key(r.value) == name
    ensures r.None? ==> forall t :: Key(t) != name
  {
    if name == "web_search" then Some(WebSearch)
    else if name == "calculator" then Some(CalculatorTool)
    else if name == "rag_search" then Some(RagSearch)
    else if name == "python_repl" then Some(PythonRepl)
    else None
  }

  /** Every tool is found under its own key. */
  lemma LookupKey(t: ToolName)
    ensures Lookup(Key(t)) == Some(t)
  {
  }

  /** What the model treats as given: the outside world behind the tools. */
  datatype Backends = Backends(
    // tool_web_search(query, max_results), which catches its own failures
    webSearch: (Json, int) -> Json,
    // the page contents of the document search for `query` (k = 3), or the exception
    ragSearch: Json -> Result<seq<string>, string>,
    // int(s) on text: the value, or the ValueError message
    intOfText: string -> Result<int, string>,
    // ast.parse(source, mode="eval"), or the SyntaxError message
    parse: string -> Result<Calculator.Tree, string>,
    // what the calculator outputs for a tree whose value is a float or complex number
    inexact: Calculator.Expr -> Json)

  /** Python `int(v)` on a float: the integer part, rounding toward zero. */
  function TruncateReal(v: real): (i: int)
    ensures v >= 0.0 ==> i as real <= v < i as real + 1.0
    ensures v < 0.0 ==> i as real - 1.0 < v <= i as real
  {
    if v >= 0.0 then v.Floor else -((-v).Floor)
  }

  const INT_ARGUMENT_ERROR := "int() argument must be a string, a bytes-like object or a real number, not '"

  /** Python `int(x)` on a decoded JSON value: ints as they are, booleans as 0
      and 1, floats truncated toward zero, text by `int()`'s own parsing. */
  function PyInt(b: Backends, x: Json): (r: Result<int, string>)
    ensures x.JInt? || x.JBool? || x.JFloat? ==> r.Ok?
    ensures x.JNull? || x.JArr? || x.JObj? ==> r == Err(INT_ARGUMENT_ERROR + TypeName(x) + "'")
    ensures x.JFloat? ==> r == Ok(TruncateReal(x.r))
    ensures x.JStr? ==> r == b.intOfText(x.s)
  {
    match x
    case JInt(i) => Ok(i)
    case JBool(v) => Ok(if v then 1 else 0)
    case JFloat(v) => Ok(TruncateReal(v))
    case JStr(s) => b.intOfText(s)
    case _ => Err(INT_ARGUMENT_ERROR + TypeName(x) + "'")
  }

  const RAG_SEPARATOR := "\n---\n"
  const RAG_NOTHING_FOUND := "No relevant info found in the uploaded file."

  /** The passages joined by the separator, or the fallback text when that is empty. */
  function RagText(passages: seq<string>): (r: string)
    ensures r != ""
  {
    var joined := Join(RAG_SEPARATOR, passages);
    if joined == "" then RAG_NOTHING_FOUND else joined
  }

  /** The fallback appears exactly when there is no passage or one empty passage;
      otherwise the result is the joined passages. */
  lemma RagTextFallback(passages: seq<string>)
    ensures (passages == [] || passages == [""]) ==> RagText(passages) == RAG_NOTHING_FOUND
    ensures !(passages == [] || passages == [""]) ==> RagText(passages) == Join(RAG_SEPARATOR, passages)
  {
    JoinEmpty(RAG_SEPARATOR, passages);
  }

  /** `tool_rag_search(query)`: never raises. */
  function ToolRagSearch(b: Backends, query: Json): (r: Json)
    ensures r.JObj? && (r.fields.Keys == {"results"} || r.fields.Keys == {"error"})
    ensures "results" in r.fields ==> r.fields["results"].JStr? && r.fields["results"].s != ""
  {
    match b.ragSearch(query)
    case Ok(passages) => Obj1("results", JStr(RagText(passages)))
    case Err(e) => Obj1("error", JStr("rag_search_failed: " + e))
  }

  const REPL_RESULT := Obj2("ok", JBool(true), "result", JStr("Python REPL not implemented in this script."))

  /** The error of `args.get` when `args` is not a dict. */
  function NoGet(args: Json): string
  {
    "'" + TypeName(args) + "' object has no attribute 'get'"
  }

  /** `TOOLS[name]["func"](args)` of tools.py. */
  function Dispatch(b: Backends, t: ToolName, args: Json): (r: Outcome)
    ensures t == PythonRepl ==> r == Returned(REPL_RESULT)
    ensures t != PythonRepl && !args.JObj? ==> r == Raised(NoGet(args))
    ensures (t == CalculatorTool || t == RagSearch) && args.JObj? ==> r.Returned?
    ensures t == WebSearch && args.JObj? ==>
              (r.Raised? <==> PyInt(b, Get(args.fields, "max_results", JInt(3))).Err?)
  {
    if t == PythonRepl then Returned(REPL_RESULT)
    else if !args.JObj? then Raised(NoGet(args))
    else if t == WebSearch then
      var query := Get(args.fields, "query", JStr(""));
      match PyInt(b, Get(args.fields, "max_results", JInt(3)))
      case Err(e) => Raised(e)
      case Ok(n) => Returned(b.webSearch(query, n))
    else if t == CalculatorTool then
      Returned(Calculator.ToolCalculator(b.parse, b.inexact, Get(args.fields, "expression", JStr(""))))
    else
      Returned(ToolRagSearch(b, Get(args.fields, "query", JStr(""))))
  }

  /** The argument defaults: an empty dict searches the web for "" with 3 results,
      evaluates "" and searches the documents for "". */
  lemma ArgumentDefaults(b: Backends)
    ensures Dispatch(b, WebSearch, JObj(map[])) == Returned(b.webSearch(JStr(""), 3))
    ensures Dispatch(b, CalculatorTool, JObj(map[])) ==
            Returned(Calculator.ToolCalculator(b.parse, b.inexact, JStr("")))
    ensures Dispatch(b, RagSearch, JObj(map[])) == Returned(ToolRagSearch(b, JStr("")))
  {
  }

  /** `max_results` goes through `int()`: text such as "5" is parsed, and a value
      `int()` refuses makes the tool raise. */
  lemma MaxResultsConversion(b: Backends, query: Json, m: Json)
    ensures var out := Dispatch(b, WebSearch, Obj2("query", query, "max_results", m));
            && (PyInt(b, m).Ok? ==> out == Returned(b.webSearch(query, PyInt(b, m).value)))
            && (PyInt(b, m).Err? ==> out == Raised(PyInt(b, m).error))
  {
    assert "query" != "max_results";
  }

  /** `rag_search` forwards only `query`: any other argument, such as
      `source_file`, makes no difference. */
  lemma RagSearchIgnoresOtherArgs(b: Backends, f: map<string, Json>, g: map<string, Json>)
    requires Get(f, "query", JStr("")) == Get(g, "query", JStr(""))
    ensures Dispatch(b, RagSearch, JObj(f)) == Dispatch(b, RagSearch, JObj(g))
  {
  }

  /** The document search never yields empty results text. */
  lemma RagResultsNeverEmpty(b: Backends, args: Json)
    ensures var out := Dispatch(b, RagSearch, args);
            out.Returned? && out.value.JObj? && "results" in out.value.fields ==>
              out.value.fields["results"] != JStr("")
  {
  }

  /** `python_repl` ignores its arguments, even ones that are not a dict. */
  lemma PythonReplIsConstant(b: Backends, args: Json)
    ensures Dispatch(b, PythonRepl, args) == Returned(REPL_RESULT)
  {
  }

  /** Every tool but `python_repl` raises on arguments that are not a dict. */
  lemma NonDictArgsRaise(b: Backends, t: ToolName, args: Json)
    requires t != PythonRepl && !args.JObj?
    ensures Dispatch(b, t, args) == Raised(NoGet(args))
  {
  }

  /** dashboard.py keeps its own copy of the registry, the same except that its
      `python_repl` refers to a name the file never defines, so calling it raises. */
  const PYTHON_REPL_UNDEFINED := "name 'python_repl' is not defined"

  function DashboardDispatch(b: Backends, t: ToolName, args: Json): (r: Outcome)
    ensures t != PythonRepl ==> r == Dispatch(b, t, args)
    ensures t == PythonRepl ==> r == Raised(PYTHON_REPL_UNDEFINED)
  {
    if t == PythonRepl then Raised(PYTHON_REPL_UNDEFINED) else Dispatch(b, t, args)
  }
}
