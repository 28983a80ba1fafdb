/**
 * One turn of the agent in dashboard.py: the graph state, the nodes
 * (`node_direct_answer`, `node_planner`, `node_executor`, `node_verifier`,
 * `finalizer`, `node_memory_update`) and `run_agent_once`, which walks the
 * graph of the `Routing` module from the direct answer to the end.
 *
 * The language model is a `ModelClient` whose replies are a parameter indexed
 * by the call site: within one turn every call is identified by its node and by
 * the number of rejections before it, so any sequence of replies is covered.
 * `json.loads`, the tool backends, the similarity ranking, whether adding to
 * the store succeeds, and `repr` of non-text values are parameters in `World`.
 */
module Dashboard {
  import opened Wrappers
  import opened Json
  import opened Text
  import opened PyText
  import JsonExtract
  import opened Memory
  import Tools
  import Facts
  import opened Routing

  // ---------------------------------------------------------------------------
  // The outside world
  // ---------------------------------------------------------------------------

  /** Which model call of the turn: the node, and for the loop nodes the number
      of rejections so far. */
  datatype CallSite =
    | DirectAnswerCall
    | DistillCall(pass: int)
    | PlanCall(pass: int)
    | DraftCall(pass: int)
    | VerifyCall(pass: int)

  /** The chat model, with the record of the calls made to it. */
  class ModelClient {
    const reply: CallSite -> string
    var transcript: seq<CallSite>

    constructor(reply: CallSite -> string)
      ensures this.reply == reply && transcript == []
    {
      this.reply := reply;
      transcript := [];
    }

    /** `_llm.invoke(prompt).content.strip()`. */
    method Invoke(site: CallSite) returns (text: string)
      modifies this
      ensures transcript == old(transcript) + [site]
      ensures text == PyStrip(reply(site))
    {
      transcript := transcript + [site];
      text := PyStrip(reply(site));
    }
  }

  /** The default of the `MAX_REFLECTIONS` environment variable. */
  const DEFAULT_MAX_REFLECTIONS := 2

  datatype World = World(
    loads: string -> JsonExtract.LoadResult,
    backends: Tools.Backends,
    search: Search,
    addSucceeds: string -> bool,
    repr: Json -> string,
    maxReflections: int)

  // ---------------------------------------------------------------------------
  // The graph state
  // ---------------------------------------------------------------------------

  /** The lines the nodes append to `log`. */
  datatype LogEntry =
    | DirectNoMemory
    | DirectNoAnswer
    | DirectFound
    | PlannerIntent(task: string)
    | PlannerSteps(count: nat)
    | ExecutorRunning(tools: seq<string>)
    | ExecutorNoTools
    | VerifierApproved
    | VerifierRejected(head: Json)
    | MemorySaving

  /** The text of a log line. */
  function LogLine(e: LogEntry, repr: Json -> string): string
  {
    match e
    case DirectNoMemory => "\U{1F914} Direct Answer: No relevant memory found. Proceeding to planner."
    case DirectNoAnswer => "\U{1F914} Direct Answer: No direct answer found in memory. Proceeding to planner."
    case DirectFound => "\U{2705} Direct Answer: Found a direct answer in memory. Finalizing."
    case PlannerIntent(task) => "\U{1F3AF} Planner: Distilled user intent to: '" + task + "'"
    case PlannerSteps(n) => "\U{1F4DD} Planner: Generated a plan with " + NatToString(n) + " step(s)."
    case ExecutorRunning(tools) => "\U{1F6E0}\U{FE0F} Executor: Running tool(s): " + Join(", ", tools)
    case ExecutorNoTools => "\U{1F9E0} Executor: No tools to run. Answering from general knowledge."
    case VerifierApproved => "\U{2705} Verifier: Draft approved."
    case VerifierRejected(head) =>
      "\U{274C} Verifier: Draft not approved. Feedback: '" + PyStr(head, repr) + "...'. Replanning."
    case MemorySaving => "\U{1F4BE} Memory: Saving final answer and user query to long-term memory."
  }

  /** `GraphState`: an absent `final` or `feedback` is None; an absent `plan`,
      `observations`, `draft` or `log` is empty, as every reader defaults it. */
  datatype GraphState = GraphState(
    userInput: string,
    plan: seq<Json>,
    observations: seq<Json>,
    draft: string,
    feedback: Option<Json>,
    reflections: int,
    final: Option<Json>,
    log: seq<LogEntry>)

  /** The state the graph updates as the nodes run. */
  class Turn {
    var state: GraphState

    /** `{"user_input": user_input, "reflections": 0}`. */
    constructor(userInput: string)
      ensures state == GraphState(userInput, [], [], "", None, 0, None, [])
    {
      state := GraphState(userInput, [], [], "", None, 0, None, []);
    }
  }

  // ---------------------------------------------------------------------------
  // node_direct_answer
  // ---------------------------------------------------------------------------

  const NO_DIRECT_ANSWER := "NO_DIRECT_ANSWER"

  /** `list(set(mem_recall(user_input, 5) + mem_recall("fact:", 5)))`, as a set. */
  function DirectMemories(store: MemoryStore, search: Search, userInput: string): (m: set<string>)
    requires SimilaritySearch(search)
    reads store
    ensures m == {} <==> store.texts == []
    ensures forall d :: d in m ==> d in store.texts
  {
    var both := MemRecall(store, search, userInput, 5) + MemRecall(store, search, "fact:", 5);
    RecallEmptyIff(store, search, userInput, 5);
    RecallEmptyIff(store, search, "fact:", 5);
    var m := set d | d in both;
    assert both != [] ==> both[0] in m;
    m
  }

  /** With no memory the model is not called and nothing but the log changes;
      otherwise the model is asked once, and its reply becomes the final answer
      unless it contains the sentinel anywhere. */
  method DirectAnswer(t: Turn, store: MemoryStore, llm: ModelClient, w: World)
    requires SimilaritySearch(w.search)
    modifies t, llm
    ensures store.texts == [] ==>
              && llm.transcript == old(llm.transcript)
              && t.state == old(t.state).(log := old(t.state.log) + [DirectNoMemory])
    ensures store.texts != [] ==> llm.transcript == old(llm.transcript) + [DirectAnswerCall]
    ensures var r := PyStrip(llm.reply(DirectAnswerCall));
            store.texts != [] && Contains(r, NO_DIRECT_ANSWER) ==>
              t.state == old(t.state).(log := old(t.state.log) + [DirectNoAnswer])
    ensures var r := PyStrip(llm.reply(DirectAnswerCall));
            store.texts != [] && !Contains(r, NO_DIRECT_ANSWER) ==>
              t.state == old(t.state).(final := Some(JStr(r)), log := old(t.state.log) + [DirectFound])
  {
    var memories := DirectMemories(store, w.search, t.state.userInput);
    if memories == {} {
      t.state := t.state.(log := t.state.log + [DirectNoMemory]);
      return;
    }
    var response := llm.Invoke(DirectAnswerCall);
    if Contains(response, NO_DIRECT_ANSWER) {
      t.state := t.state.(log := t.state.log + [DirectNoAnswer]);
    } else {
      t.state := t.state.(final := Some(JStr(response)), log := t.state.log + [DirectFound]);
    }
  }

  /** Whether the direct answer ends the turn: the store had something, and the
      reply is neither empty nor contains the sentinel. An empty reply is stored
      as the final answer but, being falsy, still leads to the planner. */
  predicate DirectFinishes(initial: seq<string>, reply: CallSite -> string)
  {
    var r := PyStrip(reply(DirectAnswerCall));
    initial != [] && r != "" && !Contains(r, NO_DIRECT_ANSWER)
  }

  // ---------------------------------------------------------------------------
  // node_planner
  // ---------------------------------------------------------------------------

  /** The steps `node_planner` keeps from the parsed plan. */
  function PlanOf(parsed: Json): (r: seq<Json>)
    ensures r != [] ==> parsed.JObj? && "steps" in parsed.fields && parsed.fields["steps"] == JArr(r)
  {
    if parsed.JObj? && "steps" in parsed.fields && parsed.fields["steps"].JArr?
    then parsed.fields["steps"].items
    else []
  }

  /** The plan is the `steps` list of a dict and nothing else: a top-level list
      of steps, a `steps` value that is not a list, and the error dict of an
      unparseable reply all give the empty plan. */
  lemma PlanShape(parsed: Json)
    ensures PlanOf(parsed) != [] ==>
              parsed.JObj? && "steps" in parsed.fields && parsed.fields["steps"] == JArr(PlanOf(parsed))
    ensures parsed.JObj? && "steps" in parsed.fields && parsed.fields["steps"].JArr? ==>
              PlanOf(parsed) == parsed.fields["steps"].items
    ensures parsed.JArr? ==> PlanOf(parsed) == []
    ensures forall e, raw :: PlanOf(ErrorDict(e, raw)) == []
  {
    forall e, raw ensures PlanOf(ErrorDict(e, raw)) == [] {
      assert "steps" !in ErrorDict(e, raw).fields;
    }
  }

  /** Two model calls, for the distilled intent and the plan; the plan replaces the
      old one, and the log records the intent and the number of steps. */
  method Planner(t: Turn, llm: ModelClient, w: World)
    modifies t, llm
    ensures var p := old(t.state.reflections);
            var task := PyStrip(llm.reply(DistillCall(p)));
            var plan := PlanOf(JsonExtract.SafeJsonLoads(w.loads, PyStrip(llm.reply(PlanCall(p)))));
            && llm.transcript == old(llm.transcript) + [DistillCall(p), PlanCall(p)]
            && t.state == old(t.state).(plan := plan,
                                        log := old(t.state.log) + [PlannerIntent(task), PlannerSteps(|plan|)])
  {
    var p := t.state.reflections;
    var task := llm.Invoke(DistillCall(p));
    t.state := t.state.(log := t.state.log + [PlannerIntent(task)]);
    var raw := llm.Invoke(PlanCall(p));
    var parsed := JsonExtract.SafeJsonLoads(w.loads, raw);
    var steps := PlanOf(parsed);
    t.state := t.state.(plan := steps, log := t.state.log + [PlannerSteps(|steps|)]);
  }

  // ---------------------------------------------------------------------------
  // node_executor
  // ---------------------------------------------------------------------------

  predicate AllDicts(plan: seq<Json>)
  {
    forall i :: 0 <= i < |plan| ==> plan[i].JObj?
  }

  /** Where `step.get` first fails: the first step that is not a dict. */
  function FirstNonDict(plan: seq<Json>): (r: Option<nat>)
    ensures r.None? <==> AllDicts(plan)
    ensures r.Some? ==> r.value < |plan| && !plan[r.value].JObj? &&
                        forall i :: 0 <= i < r.value ==> plan[i].JObj?
  {
    if plan == [] then None
    else if !plan[0].JObj? then Some(0)
    else
      match FirstNonDict(plan[1..])
      case None => None
      case Some(k) => Some(k + 1)
  }

  /** `step.get("tool")`. */
  function StepTool(step: Json): Json
    requires step.JObj?
  {
    Get(step.fields, "tool", JNull)
  }

  /** The truthy tool values of the steps, in plan order. */
  function ToolValues(plan: seq<Json>): (tools: seq<Json>)
    requires AllDicts(plan)
    ensures forall k :: 0 <= k < |tools| ==> Truthy(tools[k])
  {
    if plan == [] then []
    else (if Truthy(StepTool(plan[0])) then [StepTool(plan[0])] else []) + ToolValues(plan[1..])
  }

  /** Where `", ".join` first fails: the first value that is not text. */
  function FirstNonString(values: seq<Json>): (r: Option<nat>)
    ensures r.None? <==> forall k :: 0 <= k < |values| ==> values[k].JStr?
    ensures r.Some? ==> r.value < |values| && !values[r.value].JStr? &&
                        forall k :: 0 <= k < r.value ==> values[k].JStr?
  {
    if values == [] then None
    else if !values[0].JStr? then Some(0)
    else
      match FirstNonString(values[1..])
      case None => None
      case Some(k) => Some(k + 1)
  }

  /** Every truthy tool value is text. */
  predicate ToolsAreText(plan: seq<Json>)
    requires AllDicts(plan)
  {
    forall i :: 0 <= i < |plan| ==> Truthy(StepTool(plan[i])) ==> StepTool(plan[i]).JStr?
  }

  lemma {:induction false} ToolValuesText(plan: seq<Json>)
    requires AllDicts(plan)
    ensures FirstNonString(ToolValues(plan)).None? <==> ToolsAreText(plan)
  {
    if plan != [] {
      ToolValuesText(plan[1..]);
      var head: seq<Json> := if Truthy(StepTool(plan[0])) then [StepTool(plan[0])] else [];
      var rest: seq<Json> := ToolValues(plan[1..]);
      assert ToolValues(plan) == head + rest;
      assert ToolsAreText(plan) <==>
             (Truthy(StepTool(plan[0])) ==> StepTool(plan[0]).JStr?) && ToolsAreText(plan[1..]) by {
        if ToolsAreText(plan[1..]) && (Truthy(StepTool(plan[0])) ==> StepTool(plan[0]).JStr?) {
          forall i | 0 <= i < |plan| && Truthy(StepTool(plan[i])) ensures StepTool(plan[i]).JStr? {
            if i > 0 {
              assert plan[i] == plan[1..][i - 1];
            }
          }
        }
      }
      assert (forall k :: 0 <= k < |head + rest| ==> (head + rest)[k].JStr?) <==>
             (forall k :: 0 <= k < |head| ==> head[k].JStr?) && (forall k :: 0 <= k < |rest| ==> rest[k].JStr?) by {
        if (forall k :: 0 <= k < |head| ==> head[k].JStr?) && (forall k :: 0 <= k < |rest| ==> rest[k].JStr?) {
          forall k | 0 <= k < |head + rest| ensures (head + rest)[k].JStr? {
            if k >= |head| {
              assert (head + rest)[k] == rest[k - |head|];
            }
          }
        }
        if forall k :: 0 <= k < |head + rest| ==> (head + rest)[k].JStr? {
          forall k | 0 <= k < |rest| ensures rest[k].JStr? {
            assert (head + rest)[|head| + k] == rest[k];
          }
          forall k | 0 <= k < |head| ensures head[k].JStr? {
            assert (head + rest)[k] == head[k];
          }
        }
      }
    }
  }

  /** The exception that stops `node_executor` before any tool runs: a step that
      is not a dict fails `step.get`; a truthy tool that is not text fails the
      join of the tool names. */
  function ExecutorCrash(plan: seq<Json>): (r: Option<string>)
    ensures plan == [] ==> r.None?
  {
    match FirstNonDict(plan)
    case Some(i) => Some(Tools.NoGet(plan[i]))
    case None =>
      var tools := ToolValues(plan);
      match FirstNonString(tools)
      case Some(k) => Some("sequence item " + NatToString(k) + ": expected str instance, " +
                           TypeName(tools[k]) + " found")
      case None => None
  }

  /** The executor goes on exactly when every step is a dict whose tool, when
      truthy, is text. */
  lemma ExecutorCrashIff(plan: seq<Json>)
    ensures ExecutorCrash(plan).None? <==> AllDicts(plan) && ToolsAreText(plan)
  {
    if AllDicts(plan) {
      ToolValuesText(plan);
    }
  }

  function ToolNames(values: seq<Json>): (names: seq<string>)
    requires forall k :: 0 <= k < |values| ==> values[k].JStr?
    ensures |names| == |values|
    ensures forall k :: 0 <= k < |values| ==> names[k] == values[k].s
  {
    if values == [] then [] else [values[0].s] + ToolNames(values[1..])
  }

  /** The log line of the executor: the tool names, or that there are none. */
  function ExecutorLog(plan: seq<Json>): LogEntry
    requires ExecutorCrash(plan).None?
  {
    var tools := ToolValues(plan);
    if tools == [] then ExecutorNoTools else ExecutorRunning(ToolNames(tools))
  }

  const NO_TOOL := Obj1("note", JStr("no_tool"))

  /** What one step observes: a registered tool's output, its exception as a
      `tool_error`, or `no_tool` when the tool is missing, falsy or unknown. A
      truthy tool that is not text never reaches here (`ExecutorCrash`). */
  function ToolObservation(b: Tools.Backends, tool: Json, args: Json): (r: Json)
    ensures !(Truthy(tool) && tool.JStr?) ==> r == NO_TOOL
    ensures tool.JStr? && Tools.Lookup(tool.s).None? ==> r == NO_TOOL
  {
    if Truthy(tool) && tool.JStr? && Tools.Lookup(tool.s).Some? then
      match Tools.DashboardDispatch(b, Tools.Lookup(tool.s).value, args)
      case Returned(v) => v
      case Raised(m) => Obj1("error", JStr("tool_error: " + m))
    else NO_TOOL
  }

  /** `step.get("args", {}) or {}`. */
  function StepArgs(step: Json): (args: Json)
    requires step.JObj?
    ensures Truthy(args) || args == JObj(map[])
  {
    var a := Get(step.fields, "args", JObj(map[]));
    if Truthy(a) then a else JObj(map[])
  }

  /** The observation record of one step. */
  function ObservationOf(b: Tools.Backends, step: Json): (r: Json)
    requires step.JObj?
    ensures r.JObj? && "tool" in r.fields && "args" in r.fields && "observation" in r.fields
    ensures r.fields["observation"] == ToolObservation(b, r.fields["tool"], r.fields["args"])
  {
    var tool := StepTool(step);
    var args := StepArgs(step);
    JObj(map["id" := Get(step.fields, "id", JNull), "tool" := tool, "args" := args,
             "observation" := ToolObservation(b, tool, args)])
  }

  /** A step whose tool is missing, falsy, not text or not registered reaches no
      backend: it observes `no_tool`, whatever the backends would do. */
  lemma UnregisteredToolRunsNothing(b1: Tools.Backends, b2: Tools.Backends, step: Json)
    requires step.JObj?
    requires var tool := Get(step.fields, "tool", JNull);
             !(Truthy(tool) && tool.JStr? && Tools.Lookup(tool.s).Some?)
    ensures ObservationOf(b1, step) == ObservationOf(b2, step)
    ensures ObservationOf(b1, step).fields["observation"] == NO_TOOL
  {
  }

  /** Only the step's `id`, `tool` and `args` matter: setting any other key of the
      step leaves its observation as it was. */
  lemma ObservationIgnoresOtherKeys(b: Tools.Backends, step: Json, key: string, v: Json)
    requires step.JObj? && key != "id" && key != "tool" && key != "args"
    ensures ObservationOf(b, JObj(step.fields[key := v])) == ObservationOf(b, step)
  {
  }

  /** A step with no arguments, or falsy ones, runs its tool on `{}` and records `{}`. */
  lemma MissingArgsRunOnEmpty(b: Tools.Backends, step: Json)
    requires step.JObj? && !Truthy(Get(step.fields, "args", JNull))
    ensures ObservationOf(b, step).fields["args"] == JObj(map[])
    ensures ObservationOf(b, step).fields["observation"] == ToolObservation(b, StepTool(step), JObj(map[]))
  {
  }

  /** dashboard.py's `python_repl` always fails, as a `tool_error` observation. */
  lemma PythonReplStepFails(b: Tools.Backends, step: Json)
    requires step.JObj? && Get(step.fields, "tool", JNull) == JStr("python_repl")
    ensures ObservationOf(b, step).fields["observation"] ==
            Obj1("error", JStr("tool_error: " + Tools.PYTHON_REPL_UNDEFINED))
  {
    assert Tools.Lookup("python_repl") == Some(Tools.PythonRepl);
  }

  /** The loop of `node_executor`: one observation per step, in plan order, each
      step inside its own failure boundary. */
  method RunTools(b: Tools.Backends, plan: seq<Json>) returns (observations: seq<Json>)
    requires AllDicts(plan)
    ensures |observations| == |plan|
    ensures forall i :: 0 <= i < |plan| ==> observations[i] == ObservationOf(b, plan[i])
  {
    observations := [];
    for i := 0 to |plan|
      invariant |observations| == i
      invariant forall j :: 0 <= j < i ==> observations[j] == ObservationOf(b, plan[j])
    {
      var step := plan[i];
      var toolName := Get(step.fields, "tool", JNull);
      var args := Get(step.fields, "args", JObj(map[]));
      if !Truthy(args) {
        args := JObj(map[]);
      }
      var obs;
      if Truthy(toolName) && toolName.JStr? && Tools.Lookup(toolName.s).Some? {
        var outcome := Tools.DashboardDispatch(b, Tools.Lookup(toolName.s).value, args);
        if outcome.Returned? {
          obs := outcome.value;
        } else {
          obs := Obj1("error", JStr("tool_error: " + outcome.message));
        }
      } else {
        obs := NO_TOOL;
      }
      observations := observations + [JObj(map["id" := Get(step.fields, "id", JNull), "tool" := toolName,
                                                "args" := args, "observation" := obs])];
    }
  }

  /** Either the executor stops before any tool runs and nothing changes, or it
      records one observation per step and the model's draft. */
  method Executor(t: Turn, llm: ModelClient, w: World) returns (crash: Option<string>)
    modifies t, llm
    ensures crash == ExecutorCrash(old(t.state.plan))
    ensures crash.Some? ==> t.state == old(t.state) && llm.transcript == old(llm.transcript)
    ensures crash.None? ==>
              var p := old(t.state.reflections);
              var plan := old(t.state.plan);
              && llm.transcript == old(llm.transcript) + [DraftCall(p)]
              && |t.state.observations| == |plan|
              && (forall i :: 0 <= i < |plan| ==> t.state.observations[i] == ObservationOf(w.backends, plan[i]))
              && t.state == old(t.state).(observations := t.state.observations,
                                          draft := PyStrip(llm.reply(DraftCall(p))),
                                          log := old(t.state.log) + [ExecutorLog(plan)])
  {
    var plan := t.state.plan;
    crash := ExecutorCrash(plan);
    if crash.Some? {
      return;
    }
    t.state := t.state.(log := t.state.log + [ExecutorLog(plan)]);
    var observations := RunTools(w.backends, plan);
    var draft := llm.Invoke(DraftCall(t.state.reflections));
    t.state := t.state.(observations := observations, draft := draft);
  }

  // ---------------------------------------------------------------------------
  // node_verifier
  // ---------------------------------------------------------------------------

  datatype Verdict = Approve(final: Json) | Reject(feedback: Json)

  /** The verifier approves a dict with truthy `approved` and truthy `final`;
      otherwise the feedback is the dict's `feedback` (default "") or, for a
      parse that is not a dict, "needs another pass". */
  function VerdictOf(parsed: Json): (v: Verdict)
    ensures v.Approve? ==> Truthy(v.final)
  {
    if parsed.JObj? && Truthy(Get(parsed.fields, "approved", JNull)) && Truthy(Get(parsed.fields, "final", JNull))
    then Approve(parsed.fields["final"])
    else Reject(if parsed.JObj? then Get(parsed.fields, "feedback", JStr("")) else JStr("needs another pass"))
  }

  /** Approval needs both keys truthy; "approved": true alone is a rejection. */
  lemma VerdictIff(parsed: Json)
    ensures VerdictOf(parsed).Approve? <==>
              parsed.JObj? && Truthy(Get(parsed.fields, "approved", JNull)) && Truthy(Get(parsed.fields, "final", JNull))
    ensures VerdictOf(parsed).Approve? ==> VerdictOf(parsed).final == parsed.fields["final"]
    ensures !parsed.JObj? ==> VerdictOf(parsed) == Reject(JStr("needs another pass"))
    ensures VerdictOf(Obj1("approved", JBool(true))) == Reject(JStr(""))
  {
  }

  /** A reply that does not parse at all comes back from `safe_json_loads` as its
      error dict, which has no `feedback`: the feedback is "" rather than
      "needs another pass". */
  lemma UnparseableReplyHasEmptyFeedback(loads: string -> JsonExtract.LoadResult, text: string)
    requires !loads(text).Loaded?
    requires JsonExtract.ExtractJsonBlock(text).None? ||
             !loads(JsonExtract.ReplaceNewlinesAndTabs(JsonExtract.ExtractJsonBlock(text).value)).Loaded?
    ensures VerdictOf(JsonExtract.SafeJsonLoads(loads, text)) == Reject(JStr(""))
  {
    var parsed := JsonExtract.SafeJsonLoads(loads, text);
    assert parsed.JObj? && "approved" !in parsed.fields && "feedback" !in parsed.fields;
  }

  /** `fb[:50]`: the first 50 characters of text or items of a list; a dict
      raises KeyError on the slice, every other value TypeError. */
  function FeedbackHead(fb: Json): (r: Result<Json, string>)
    ensures r.Ok? <==> fb.JStr? || fb.JArr?
    ensures fb.JStr? ==> r.Ok? && r.value.JStr? && IsPrefix(r.value.s, fb.s) && |r.value.s| == Min(50, |fb.s|)
    ensures fb.JArr? ==> r.Ok? && r.value.JArr? && IsPrefix(r.value.items, fb.items) &&
                         |r.value.items| == Min(50, |fb.items|)
  {
    match fb
    case JStr(s) => Ok(JStr(s[..Min(50, |s|)]))
    case JArr(items) => Ok(JArr(items[..Min(50, |items|)]))
    case JObj(_) => Err("slice(None, 50, None)")
    case _ => Err("'" + TypeName(fb) + "' object is not subscriptable")
  }

  /** Whether the verifier approves at the given pass. */
  predicate Approves(w: World, reply: CallSite -> string, pass: int)
  {
    VerdictOf(JsonExtract.SafeJsonLoads(w.loads, PyStrip(reply(VerifyCall(pass))))).Approve?
  }

  /** One model call; an approval sets `final`; a rejection whose feedback can be
      sliced logs it, saves it to memory with kind `feedback` and counts one more
      reflection; a feedback that cannot be sliced stops the turn. */
  method Verifier(t: Turn, store: MemoryStore, llm: ModelClient, w: World) returns (crash: Option<string>)
    modifies t, store, llm
    ensures IsPrefix(old(store.texts), store.texts)
    ensures llm.transcript == old(llm.transcript) + [VerifyCall(old(t.state.reflections))]
    ensures var v := VerdictOf(JsonExtract.SafeJsonLoads(w.loads, PyStrip(llm.reply(VerifyCall(old(t.state.reflections))))));
            && (v.Approve? ==>
                  && crash.None? && store.texts == old(store.texts)
                  && t.state == old(t.state).(final := Some(v.final), log := old(t.state.log) + [VerifierApproved]))
            && (v.Reject? && FeedbackHead(v.feedback).Err? ==>
                  crash == Some(FeedbackHead(v.feedback).error) && store.texts == old(store.texts) &&
                  t.state == old(t.state))
            && (v.Reject? && FeedbackHead(v.feedback).Ok? ==>
                  && crash.None?
                  && store.texts == old(store.texts) +
                       Persisted(w.addSucceeds, [Entry("feedback", "verifier_feedback: " + PyStr(v.feedback, w.repr))])
                  && t.state == old(t.state).(feedback := Some(v.feedback),
                                              reflections := old(t.state.reflections) + 1,
                                              log := old(t.state.log) + [VerifierRejected(FeedbackHead(v.feedback).value)]))
  {
    var raw := llm.Invoke(VerifyCall(t.state.reflections));
    var parsed := JsonExtract.SafeJsonLoads(w.loads, raw);
    var verdict := VerdictOf(parsed);
    if verdict.Approve? {
      t.state := t.state.(final := Some(verdict.final), log := t.state.log + [VerifierApproved]);
      return None;
    }
    var fb := verdict.feedback;
    var head := FeedbackHead(fb);
    if head.Err? {
      return Some(head.error);
    }
    t.state := t.state.(log := t.state.log + [VerifierRejected(head.value)]);
    ghost var before := store.texts;
    ghost var entry := Entry("feedback", "verifier_feedback: " + PyStr(fb, w.repr));
    MemAdd(store, "verifier_feedback: " + PyStr(fb, w.repr), "feedback", w.addSucceeds);
    assert store.texts == before + Persisted(w.addSucceeds, [entry]);
    PrefixAppend(before, before, Persisted(w.addSucceeds, [entry]));
    t.state := t.state.(feedback := Some(fb), reflections := t.state.reflections + 1);
    crash := None;
  }

  // ---------------------------------------------------------------------------
  // finalizer and node_memory_update
  // ---------------------------------------------------------------------------

  const NO_RESULT := "[Agent had no result]"

  /** The draft, or the fixed text when the draft is empty: always a truthy answer. */
  method Finalizer(t: Turn)
    modifies t
    ensures t.state == old(t.state).(final := Some(JStr(if old(t.state.draft) != "" then old(t.state.draft) else NO_RESULT)))
    ensures HasFinal(t.state.final)
  {
    var answer := if t.state.draft != "" then t.state.draft else NO_RESULT;
    t.state := t.state.(final := Some(JStr(answer)));
  }

  /** The documents of a sequence of `mem_add` calls that the store accepts. */
  function Persisted(ok: string -> bool, entries: seq<string>): (kept: seq<string>)
    ensures |kept| <= |entries|
  {
    if entries == [] then []
    else (if ok(entries[0]) then [entries[0]] else []) + Persisted(ok, entries[1..])
  }

  lemma {:induction false} PersistedAppend(ok: string -> bool, a: seq<string>, b: seq<string>)
    ensures Persisted(ok, a + b) == Persisted(ok, a) + Persisted(ok, b)
  {
    if a != [] {
      PersistedAppend(ok, a[1..], b);
      assert (a + b)[0] == a[0];
      assert (a + b)[1..] == a[1..] + b;
    } else {
      assert a + b == b;
    }
  }

  /** The stored documents of a sequence of facts. */
  function FactEntries(facts: seq<Facts.Fact>): (entries: seq<string>)
    ensures |entries| == |facts|
    ensures forall k :: 0 <= k < |facts| ==> entries[k] == Entry("fact", Facts.FactJson(facts[k]))
  {
    if facts == [] then [] else [Entry("fact", Facts.FactJson(facts[0]))] + FactEntries(facts[1..])
  }

  lemma FactEntriesAppend(a: seq<Facts.Fact>, b: seq<Facts.Fact>)
    ensures FactEntries(a + b) == FactEntries(a) + FactEntries(b)
  {
  }

  /** The conversation documents `node_memory_update` asks the store to add: the
      user's text when not empty, then the final answer when truthy. */
  function TurnWrites(userInput: string, final: Option<Json>, repr: Json -> string): (entries: seq<string>)
    ensures Entry("user", userInput) in entries <==> userInput != ""
    ensures |entries| <= 2
  {
    (if userInput != "" then [Entry("user", userInput)] else []) +
    (if HasFinal(final) then [Entry("agent", PyStr(final.value, repr))] else [])
  }

  /** The answer is stored whenever the final is truthy, and without a truthy
      final nothing but the user text is. */
  lemma TurnWritesAgent(userInput: string, final: Option<Json>, repr: Json -> string)
    ensures HasFinal(final) ==> Entry("agent", PyStr(final.value, repr)) in TurnWrites(userInput, final, repr)
    ensures !HasFinal(final) ==>
              TurnWrites(userInput, final, repr) == [] || TurnWrites(userInput, final, repr) == [Entry("user", userInput)]
  {
  }

  /** Everything `node_memory_update` asks the store to add, in order. */
  function MemoryWrites(userInput: string, final: Option<Json>, repr: Json -> string): seq<string>
  {
    TurnWrites(userInput, final, repr) + FactEntries(Facts.ExtractFacts(userInput))
  }

  /** One fact check of `node_memory_update`. */
  method SaveFact(store: MemoryStore, found: bool, low: string, sep: string, entity: string,
                  ok: string -> bool)
    modifies store
    ensures store.texts == old(store.texts) + Persisted(ok, FactEntries(Facts.CheckFact(found, low, sep, entity)))
  {
    if found {
      var name := Facts.ValueAfter(low, sep);
      if name != "" {
        MemAdd(store, Facts.FactJson(Facts.Fact(entity, "name", name)), "fact", ok);
      }
    }
  }

  /** Regrouping a concatenation, stated for any element type so that the
      contents of the documents play no part. */
  lemma Append3<T>(a: seq<T>, b: seq<T>, c: seq<T>)
    ensures a + b + c == a + (b + c)
  {
  }

  lemma Append4<T>(a: seq<T>, b: seq<T>, c: seq<T>, d: seq<T>)
    ensures a + b + c + d == a + (b + c + d)
  {
  }

  lemma PrefixAppend<T>(a: seq<T>, b: seq<T>, c: seq<T>)
    requires IsPrefix(a, b)
    ensures IsPrefix(a, b + c)
  {
    assert (b + c)[..|a|] == b[..|a|];
  }

  lemma PrefixTrans<T>(a: seq<T>, b: seq<T>, c: seq<T>)
    requires IsPrefix(a, b) && IsPrefix(b, c)
    ensures IsPrefix(a, c)
  {
    assert c[..|a|] == c[..|b|][..|a|];
  }

  lemma InAppendRight<T>(a: seq<T>, b: seq<T>, k: nat)
    requires k < |b|
    ensures b[k] in a + b
  {
    assert (a + b)[|a| + k] == b[k];
  }

  /** The stored facts split into the three checks. */
  lemma PersistedFactParts(ok: string -> bool, ui: string)
    ensures var low := Lower(ui);
            Persisted(ok, FactEntries(Facts.ExtractFacts(ui))) ==
            Persisted(ok, FactEntries(Facts.CheckFact(Contains(low, Facts.USER_PATTERN), low, Facts.USER_PATTERN, "user"))) +
            Persisted(ok, FactEntries(Facts.CheckFact(Contains(low, Facts.AGENT_PATTERN) || Contains(low, Facts.AGENT_PATTERN_SHORT),
                                                      low, Facts.AGENT_SEPARATOR, "agent"))) +
            Persisted(ok, FactEntries(Facts.CheckFact(Contains(low, Facts.BROTHER_PATTERN), low, Facts.BROTHER_PATTERN, "user's brother")))
  {
    var low := Lower(ui);
    var user := Facts.CheckFact(Contains(low, Facts.USER_PATTERN), low, Facts.USER_PATTERN, "user");
    var agent := Facts.CheckFact(Contains(low, Facts.AGENT_PATTERN) || Contains(low, Facts.AGENT_PATTERN_SHORT),
                                 low, Facts.AGENT_SEPARATOR, "agent");
    var brother := Facts.CheckFact(Contains(low, Facts.BROTHER_PATTERN), low, Facts.BROTHER_PATTERN, "user's brother");
    assert Facts.ExtractFacts(ui) == user + agent + brother;
    var e1, e2, e3 := FactEntries(user), FactEntries(agent), FactEntries(brother);
    FactEntriesAppend(user, agent);
    FactEntriesAppend(user + agent, brother);
    assert FactEntries(Facts.ExtractFacts(ui)) == e1 + e2 + e3;
    PersistedAppend(ok, e1, e2);
    PersistedAppend(ok, e1 + e2, e3);
  }

  /** The three fact checks of `node_memory_update`, in order. */
  method SaveFacts(store: MemoryStore, ui: string, ok: string -> bool)
    modifies store
    ensures store.texts == old(store.texts) + Persisted(ok, FactEntries(Facts.ExtractFacts(ui)))
  {
    var low := Lower(ui);
    var fu := Contains(low, Facts.USER_PATTERN);
    var fa := Contains(low, Facts.AGENT_PATTERN) || Contains(low, Facts.AGENT_PATTERN_SHORT);
    var fb := Contains(low, Facts.BROTHER_PATTERN);
    ghost var p1 := Persisted(ok, FactEntries(Facts.CheckFact(fu, low, Facts.USER_PATTERN, "user")));
    ghost var p2 := Persisted(ok, FactEntries(Facts.CheckFact(fa, low, Facts.AGENT_SEPARATOR, "agent")));
    ghost var p3 := Persisted(ok, FactEntries(Facts.CheckFact(fb, low, Facts.BROTHER_PATTERN, "user's brother")));
    ghost var s0 := store.texts;
    SaveFact(store, fu, low, Facts.USER_PATTERN, "user", ok);
    assert store.texts == s0 + p1;
    SaveFact(store, fa, low, Facts.AGENT_SEPARATOR, "agent", ok);
    assert store.texts == s0 + p1 + p2;
    SaveFact(store, fb, low, Facts.BROTHER_PATTERN, "user's brother", ok);
    assert store.texts == s0 + p1 + p2 + p3;
    PersistedFactParts(ok, ui);
    Append4(s0, p1, p2, p3);
  }

  /** The conversation documents of `node_memory_update`, in order. */
  method SaveTurn(store: MemoryStore, ui: string, final: Option<Json>, repr: Json -> string, ok: string -> bool)
    modifies store
    ensures store.texts == old(store.texts) + Persisted(ok, TurnWrites(ui, final, repr))
  {
    ghost var userPart := if ui != "" then [Entry("user", ui)] else [];
    ghost var agentPart := if HasFinal(final) then [Entry("agent", PyStr(final.value, repr))] else [];
    ghost var pu, pa := Persisted(ok, userPart), Persisted(ok, agentPart);
    ghost var s0 := store.texts;
    if ui != "" {
      MemAdd(store, ui, "user", ok);
    }
    assert store.texts == s0 + pu;
    if HasFinal(final) {
      MemAdd(store, PyStr(final.value, repr), "agent", ok);
    }
    assert store.texts == s0 + pu + pa;
    assert TurnWrites(ui, final, repr) == userPart + agentPart;
    PersistedAppend(ok, userPart, agentPart);
    Append3(s0, pu, pa);
  }

  /** The conversation documents and then the fact documents, exactly those of
      `MemoryWrites` that the store accepts, in order. */
  method SaveMemory(store: MemoryStore, ui: string, final: Option<Json>, repr: Json -> string, ok: string -> bool)
    modifies store
    ensures store.texts == old(store.texts) + Persisted(ok, MemoryWrites(ui, final, repr))
  {
    ghost var turnPart := TurnWrites(ui, final, repr);
    ghost var factPart := FactEntries(Facts.ExtractFacts(ui));
    ghost var pt, pf := Persisted(ok, turnPart), Persisted(ok, factPart);
    ghost var s0 := store.texts;
    SaveTurn(store, ui, final, repr, ok);
    SaveFacts(store, ui, ok);
    assert store.texts == s0 + pt + pf;
    assert MemoryWrites(ui, final, repr) == turnPart + factPart;
    PersistedAppend(ok, turnPart, factPart);
    Append3(s0, pt, pf);
  }

  /** The log line, then exactly the documents of `MemoryWrites` that the store
      accepts, appended in order. */
  method MemoryUpdate(t: Turn, store: MemoryStore, w: World)
    modifies t, store
    ensures t.state == old(t.state).(log := old(t.state.log) + [MemorySaving])
    ensures store.texts == old(store.texts) +
              Persisted(w.addSucceeds, MemoryWrites(t.state.userInput, t.state.final, w.repr))
    ensures IsPrefix(old(store.texts), store.texts)
  {
    t.state := t.state.(log := t.state.log + [MemorySaving]);
    ghost var s0 := store.texts;
    SaveMemory(store, t.state.userInput, t.state.final, w.repr, w.addSucceeds);
    PrefixAppend(s0, s0, Persisted(w.addSucceeds, MemoryWrites(t.state.userInput, t.state.final, w.repr)));
  }

  /** Every fact the text states is among the documents the memory update writes. */
  lemma FactsAreWritten(userInput: string, final: Option<Json>, repr: Json -> string, k: nat)
    requires k < |Facts.ExtractFacts(userInput)|
    ensures Entry("fact", Facts.FactJson(Facts.ExtractFacts(userInput)[k])) in MemoryWrites(userInput, final, repr)
  {
    InAppendRight(TurnWrites(userInput, final, repr), FactEntries(Facts.ExtractFacts(userInput)), k);
  }

  // ---------------------------------------------------------------------------
  // run_agent_once
  // ---------------------------------------------------------------------------

  /** The number of verifier passes when the reflection limit is `m`: the
      give-up test comes after the first rejection, so at least one. */
  function MaxPasses(m: int): nat
  {
    if m >= 1 then m else 1
  }

  /** Which verifier passes approve, as one value. */
  function Approval(w: World, reply: CallSite -> string): nat -> bool
  {
    q => Approves(w, reply, q)
  }

  /** The verifier passes from `p` on, out of `n`: up to and including the first
      approving pass, or all of them when none approves. */
  function FirstApproval(approves: nat -> bool, p: nat, n: nat): nat
    decreases n - p
  {
    if p >= n then n
    else if approves(p) then p + 1
    else FirstApproval(approves, p + 1, n)
  }

  lemma {:induction false} FirstApprovalAt(approves: nat -> bool, p: nat, r: nat, n: nat)
    requires p <= r < n
    requires forall q :: p <= q < r ==> !approves(q)
    requires approves(r)
    ensures FirstApproval(approves, p, n) == r + 1
    decreases r - p
  {
    if p < r {
      FirstApprovalAt(approves, p + 1, r, n);
    }
  }

  lemma {:induction false} NeverApproved(approves: nat -> bool, p: nat, n: nat)
    requires forall q :: p <= q < n ==> !approves(q)
    ensures FirstApproval(approves, p, n) == n
    decreases n - p
  {
    if p < n {
      NeverApproved(approves, p + 1, n);
    }
  }

  /** The number of verifier runs the code determines for a turn. */
  function ExpectedVerifierRuns(w: World, reply: CallSite -> string, initial: seq<string>): nat
  {
    if DirectFinishes(initial, reply) then 0 else FirstApproval(Approval(w, reply), 0, MaxPasses(w.maxReflections))
  }

  /** A turn that is never approved runs the verifier `max(MAX_REFLECTIONS, 1)`
      times, not one time more. */
  lemma NeverApprovedRunsMaxPasses(w: World, reply: CallSite -> string, initial: seq<string>)
    requires !DirectFinishes(initial, reply)
    requires forall q :: 0 <= q < MaxPasses(w.maxReflections) ==> !Approves(w, reply, q)
    ensures ExpectedVerifierRuns(w, reply, initial) == MaxPasses(w.maxReflections)
  {
    NeverApproved(Approval(w, reply), 0, MaxPasses(w.maxReflections));
  }

  /** A turn whose first approval comes on pass `r` runs the verifier `r + 1`
      times; with the default limit, approval on the second pass means two runs. */
  lemma RunsUpToFirstApproval(w: World, reply: CallSite -> string, initial: seq<string>, r: nat)
    requires !DirectFinishes(initial, reply)
    requires r < MaxPasses(w.maxReflections)
    requires forall q :: 0 <= q < r ==> !Approval(w, reply)(q)
    requires Approval(w, reply)(r)
    ensures ExpectedVerifierRuns(w, reply, initial) == r + 1
  {
    FirstApprovalAt(Approval(w, reply), 0, r, MaxPasses(w.maxReflections));
  }

  /** What holds before each node runs, given the store the turn started with and
      the number of verifier runs so far. */
  ghost predicate Inv(node: Node, s: GraphState, transcript: seq<CallSite>, runs: nat, texts: seq<string>,
                      initial: seq<string>, w: World, reply: CallSite -> string)
  {
    var n := MaxPasses(w.maxReflections);
    var direct := DirectFinishes(initial, reply);
    && s.reflections >= 0
    && IsPrefix(initial, texts)
    && (initial == [] ==> DirectAnswerCall !in transcript)
    && runs <= n
    && (node == Routing.DirectAnswer ==>
          && s == GraphState(s.userInput, [], [], "", None, 0, None, [])
          && texts == initial && runs == 0 && transcript == [])
    && (node == Routing.Planner || node == Routing.Executor || node == Routing.Verifier ==>
          && !direct && !HasFinal(s.final) && s.reflections == runs && runs < n
          && forall q :: 0 <= q < runs ==> !Approves(w, reply, q))
    && (node == Routing.Finalizer ==>
          !direct && runs == n && forall q :: 0 <= q < n ==> !Approves(w, reply, q))
    && (node == Routing.MemoryUpdate || node == End ==>
          HasFinal(s.final) && runs == ExpectedVerifierRuns(w, reply, initial))
    && ((node == Routing.MemoryUpdate || node == End) && direct ==>
          transcript == [DirectAnswerCall] && s.final == Some(JStr(PyStrip(reply(DirectAnswerCall)))))
  }

  /** The part of the loop measure that counts the passes still allowed. */
  function Budget(reflections: int, m: int): nat
  {
    if reflections < m then m - reflections else 0
  }

  method StepDirectAnswer(t: Turn, store: MemoryStore, llm: ModelClient, w: World, ghost initial: seq<string>)
    returns (next: Node)
    requires SimilaritySearch(w.search)
    requires Inv(Routing.DirectAnswer, t.state, llm.transcript, 0, store.texts, initial, w, llm.reply)
    modifies t, llm
    ensures t.state.userInput == old(t.state.userInput) && t.state.reflections == old(t.state.reflections)
    ensures Rank(next) < Rank(Routing.DirectAnswer)
    ensures Inv(next, t.state, llm.transcript, 0, store.texts, initial, w, llm.reply)
  {
    DirectAnswer(t, store, llm, w);
    next := Successor(Routing.DirectAnswer, t.state.final, t.state.reflections, w.maxReflections);
  }

  lemma InvAfterPlanner(s0: GraphState, s1: GraphState, transcript: seq<CallSite>, runs: nat,
                        texts: seq<string>, initial: seq<string>, w: World, reply: CallSite -> string)
    requires Inv(Routing.Planner, s0, transcript, runs, texts, initial, w, reply)
    requires s1.final == s0.final && s1.reflections == s0.reflections
    ensures Inv(Routing.Executor, s1, transcript + [DistillCall(s0.reflections), PlanCall(s0.reflections)],
                runs, texts, initial, w, reply)
  {
  }

  method StepPlanner(t: Turn, store: MemoryStore, llm: ModelClient, w: World, ghost initial: seq<string>,
                     ghost runs: nat)
    returns (next: Node)
    requires Inv(Routing.Planner, t.state, llm.transcript, runs, store.texts, initial, w, llm.reply)
    modifies t, llm
    ensures t.state.userInput == old(t.state.userInput) && t.state.reflections == old(t.state.reflections)
    ensures Rank(next) < Rank(Routing.Planner)
    ensures Inv(next, t.state, llm.transcript, runs, store.texts, initial, w, llm.reply)
  {
    ghost var s0 := t.state;
    ghost var transcript := llm.transcript;
    Planner(t, llm, w);
    next := Successor(Routing.Planner, t.state.final, t.state.reflections, w.maxReflections);
    InvAfterPlanner(s0, t.state, transcript, runs, store.texts, initial, w, llm.reply);
  }

  lemma InvAfterExecutor(s0: GraphState, s1: GraphState, transcript: seq<CallSite>, runs: nat,
                         texts: seq<string>, initial: seq<string>, w: World, reply: CallSite -> string)
    requires Inv(Routing.Executor, s0, transcript, runs, texts, initial, w, reply)
    requires s1.final == s0.final && s1.reflections == s0.reflections
    ensures Inv(Routing.Verifier, s1, transcript + [DraftCall(s0.reflections)], runs, texts, initial, w, reply)
  {
  }

  method StepExecutor(t: Turn, store: MemoryStore, llm: ModelClient, w: World, ghost initial: seq<string>,
                      ghost runs: nat)
    returns (next: Node, crash: Option<string>)
    requires Inv(Routing.Executor, t.state, llm.transcript, runs, store.texts, initial, w, llm.reply)
    modifies t, llm
    ensures t.state.userInput == old(t.state.userInput) && t.state.reflections == old(t.state.reflections)
    ensures Rank(next) < Rank(Routing.Executor)
    ensures initial == [] ==> DirectAnswerCall !in llm.transcript
    ensures crash.None? ==> Inv(next, t.state, llm.transcript, runs, store.texts, initial, w, llm.reply)
  {
    ghost var s0 := t.state;
    ghost var transcript := llm.transcript;
    crash := Executor(t, llm, w);
    next := Successor(Routing.Executor, t.state.final, t.state.reflections, w.maxReflections);
    if crash.None? {
      InvAfterExecutor(s0, t.state, transcript, runs, store.texts, initial, w, llm.reply);
    }
  }

  lemma InvAfterApproval(s0: GraphState, s1: GraphState, transcript: seq<CallSite>, runs: nat,
                          texts0: seq<string>, texts1: seq<string>,
                          initial: seq<string>, w: World, reply: CallSite -> string)
    requires Inv(Routing.Verifier, s0, transcript, runs, texts0, initial, w, reply)
    requires Approves(w, reply, s0.reflections)
    requires HasFinal(s1.final) && s1.reflections == s0.reflections
    requires IsPrefix(initial, texts1)
    ensures Successor(Routing.Verifier, s1.final, s1.reflections, w.maxReflections) == Routing.MemoryUpdate
    ensures Inv(Routing.MemoryUpdate, s1, transcript + [VerifyCall(s0.reflections)], runs + 1, texts1, initial, w, reply)
  {
    FirstApprovalAt(Approval(w, reply), 0, s0.reflections, MaxPasses(w.maxReflections));
  }

  lemma InvAfterReplan(s0: GraphState, s1: GraphState, transcript: seq<CallSite>, runs: nat,
                       texts0: seq<string>, texts1: seq<string>,
                       initial: seq<string>, w: World, reply: CallSite -> string)
    requires Inv(Routing.Verifier, s0, transcript, runs, texts0, initial, w, reply)
    requires !Approves(w, reply, s0.reflections)
    requires s1.final == s0.final && s1.reflections == s0.reflections + 1 < w.maxReflections
    requires IsPrefix(initial, texts1)
    ensures Successor(Routing.Verifier, s1.final, s1.reflections, w.maxReflections) == Routing.Planner
    ensures Inv(Routing.Planner, s1, transcript + [VerifyCall(s0.reflections)], runs + 1, texts1, initial, w, reply)
  {
    var tr := transcript + [VerifyCall(s0.reflections)];
    assert initial == [] ==> DirectAnswerCall !in tr;
    forall q | 0 <= q < runs + 1 ensures !Approves(w, reply, q) {
    }
  }

  lemma InvAfterGiveUp(s0: GraphState, s1: GraphState, transcript: seq<CallSite>, runs: nat,
                       texts0: seq<string>, texts1: seq<string>,
                       initial: seq<string>, w: World, reply: CallSite -> string)
    requires Inv(Routing.Verifier, s0, transcript, runs, texts0, initial, w, reply)
    requires !Approves(w, reply, s0.reflections)
    requires s1.final == s0.final && s1.reflections == s0.reflections + 1 >= w.maxReflections
    requires IsPrefix(initial, texts1)
    ensures Successor(Routing.Verifier, s1.final, s1.reflections, w.maxReflections) == Routing.Finalizer
    ensures Inv(Routing.Finalizer, s1, transcript + [VerifyCall(s0.reflections)], runs + 1, texts1, initial, w, reply)
  {
    var tr := transcript + [VerifyCall(s0.reflections)];
    assert initial == [] ==> DirectAnswerCall !in tr;
    forall q | 0 <= q < runs + 1 ensures !Approves(w, reply, q) {
    }
  }

  method StepVerifier(t: Turn, store: MemoryStore, llm: ModelClient, w: World, ghost initial: seq<string>,
                      runs: nat)
    returns (next: Node, crash: Option<string>, runs': nat)
    requires Inv(Routing.Verifier, t.state, llm.transcript, runs, store.texts, initial, w, llm.reply)
    modifies t, store, llm
    ensures t.state.userInput == old(t.state.userInput)
    ensures runs' == runs + 1 && runs' <= MaxPasses(w.maxReflections)
    ensures IsPrefix(initial, store.texts)
    ensures initial == [] ==> DirectAnswerCall !in llm.transcript
    ensures crash.None? ==>
              || Budget(t.state.reflections, w.maxReflections) < Budget(old(t.state.reflections), w.maxReflections)
              || (Budget(t.state.reflections, w.maxReflections) == Budget(old(t.state.reflections), w.maxReflections) &&
                  Rank(next) < Rank(Routing.Verifier))
    ensures crash.None? ==> Inv(next, t.state, llm.transcript, runs', store.texts, initial, w, llm.reply)
  {
    ghost var s0 := t.state;
    ghost var transcript := llm.transcript;
    ghost var before := store.texts;
    crash := Verifier(t, store, llm, w);
    runs' := runs + 1;
    PrefixTrans(initial, before, store.texts);
    next := Successor(Routing.Verifier, t.state.final, t.state.reflections, w.maxReflections);
    ghost var verdict := VerdictOf(JsonExtract.SafeJsonLoads(w.loads, PyStrip(llm.reply(VerifyCall(s0.reflections)))));
    if verdict.Approve? {
      InvAfterApproval(s0, t.state, transcript, runs, before, store.texts, initial, w, llm.reply);
    } else if crash.None? && t.state.reflections < w.maxReflections {
      InvAfterReplan(s0, t.state, transcript, runs, before, store.texts, initial, w, llm.reply);
    } else if crash.None? {
      InvAfterGiveUp(s0, t.state, transcript, runs, before, store.texts, initial, w, llm.reply);
    }
  }

  lemma InvAfterFinalizer(s0: GraphState, s1: GraphState, transcript: seq<CallSite>, runs: nat,
                          texts: seq<string>, initial: seq<string>, w: World, reply: CallSite -> string)
    requires Inv(Routing.Finalizer, s0, transcript, runs, texts, initial, w, reply)
    requires HasFinal(s1.final) && s1.reflections == s0.reflections
    ensures Inv(Routing.MemoryUpdate, s1, transcript, runs, texts, initial, w, reply)
  {
    var n := MaxPasses(w.maxReflections);
    forall q | 0 <= q < n ensures !Approval(w, reply)(q) {
    }
    NeverApproved(Approval(w, reply), 0, n);
  }

  method StepFinalizer(t: Turn, store: MemoryStore, llm: ModelClient, w: World, ghost initial: seq<string>,
                       ghost runs: nat)
    returns (next: Node)
    requires Inv(Routing.Finalizer, t.state, llm.transcript, runs, store.texts, initial, w, llm.reply)
    modifies t
    ensures t.state.userInput == old(t.state.userInput) && t.state.reflections == old(t.state.reflections)
    ensures Rank(next) < Rank(Routing.Finalizer)
    ensures Inv(next, t.state, llm.transcript, runs, store.texts, initial, w, llm.reply)
  {
    ghost var s0 := t.state;
    Finalizer(t);
    next := Successor(Routing.Finalizer, t.state.final, t.state.reflections, w.maxReflections);
    InvAfterFinalizer(s0, t.state, llm.transcript, runs, store.texts, initial, w, llm.reply);
  }

  lemma InvAfterMemoryUpdate(s0: GraphState, s1: GraphState, transcript: seq<CallSite>, runs: nat,
                              texts0: seq<string>, texts1: seq<string>,
                              initial: seq<string>, w: World, reply: CallSite -> string)
    requires Inv(Routing.MemoryUpdate, s0, transcript, runs, texts0, initial, w, reply)
    requires s1 == s0.(log := s0.log + [MemorySaving])
    requires IsPrefix(initial, texts1)
    ensures Inv(End, s1, transcript, runs, texts1, initial, w, reply)
  {
  }

  method StepMemoryUpdate(t: Turn, store: MemoryStore, llm: ModelClient, w: World, ghost initial: seq<string>,
                          ghost runs: nat)
    returns (next: Node)
    requires Inv(Routing.MemoryUpdate, t.state, llm.transcript, runs, store.texts, initial, w, llm.reply)
    modifies t, store
    ensures t.state.userInput == old(t.state.userInput) && t.state.reflections == old(t.state.reflections)
    ensures Rank(next) < Rank(Routing.MemoryUpdate)
    ensures Inv(next, t.state, llm.transcript, runs, store.texts, initial, w, llm.reply)
  {
    ghost var before := store.texts;
    ghost var s0 := t.state;
    MemoryUpdate(t, store, w);
    PrefixTrans(initial, before, store.texts);
    InvAfterMemoryUpdate(s0, t.state, llm.transcript, runs, before, store.texts, initial, w, llm.reply);
    next := End;
  }

  datatype RunOutcome = Completed | Crashed(message: string)

  /** `run_agent_once`: the nodes run along the graph until the end. A turn that
      completes has a truthy final answer; the verifier runs as often as
      `ExpectedVerifierRuns` says, never more than `MaxPasses`; the store only
      grows; and a turn over an empty store never calls the model for a direct
      answer. */
  method RunAgentOnce(userInput: string, store: MemoryStore, reply: CallSite -> string, w: World)
    returns (outcome: RunOutcome, t: Turn, llm: ModelClient, verifierRuns: nat)
    requires SimilaritySearch(w.search)
    modifies store
    ensures fresh(t) && fresh(llm)
    ensures t.state.userInput == userInput
    ensures outcome.Completed? ==> HasFinal(t.state.final)
    ensures verifierRuns <= MaxPasses(w.maxReflections)
    ensures outcome.Completed? ==> verifierRuns == ExpectedVerifierRuns(w, reply, old(store.texts))
    ensures DirectFinishes(old(store.texts), reply) ==>
              && outcome.Completed?
              && llm.transcript == [DirectAnswerCall]
              && t.state.final == Some(JStr(PyStrip(reply(DirectAnswerCall))))
    ensures old(store.texts) == [] ==> DirectAnswerCall !in llm.transcript
    ensures IsPrefix(old(store.texts), store.texts)
  {
    t := new Turn(userInput);
    llm := new ModelClient(reply);
    ghost var initial := store.texts;
    var node := Routing.DirectAnswer;
    verifierRuns := 0;
    outcome := Completed;
    while node != End
      invariant fresh(t) && fresh(llm)
      invariant llm.reply == reply
      invariant t.state.userInput == userInput
      invariant Inv(node, t.state, llm.transcript, verifierRuns, store.texts, initial, w, reply)
      decreases Budget(t.state.reflections, w.maxReflections), Rank(node)
    {
      if node == Routing.DirectAnswer {
        node := StepDirectAnswer(t, store, llm, w, initial);
      } else if node == Routing.Planner {
        node := StepPlanner(t, store, llm, w, initial, verifierRuns);
      } else if node == Routing.Executor {
        var crash;
        node, crash := StepExecutor(t, store, llm, w, initial, verifierRuns);
        if crash.Some? {
          return Crashed(crash.value), t, llm, verifierRuns;
        }
      } else if node == Routing.Verifier {
        var crash;
        node, crash, verifierRuns := StepVerifier(t, store, llm, w, initial, verifierRuns);
        if crash.Some? {
          return Crashed(crash.value), t, llm, verifierRuns;
        }
      } else if node == Routing.Finalizer {
        node := StepFinalizer(t, store, llm, w, initial, verifierRuns);
      } else {
        node := StepMemoryUpdate(t, store, llm, w, initial, verifierRuns);
      }
    }
  }
}
