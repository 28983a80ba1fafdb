/**
 * The coding sub-agent of coding.py: a `ToolExecutor` that looks tools up by
 * their function name, a planner that falls back to a single `respond` step,
 * an executor that runs every step, a verifier that always approves, and the
 * linear graph `coding_planner -> coding_executor -> coding_verifier -> END`
 * behind `tool_coding_agent`.
 *
 * The model's two replies are a parameter, and so is what the three tool
 * functions do (they touch the file system or start a shell).
 */
module CodingAgent {
  import opened Wrappers
  import opened Json
  import opened PyText
  import opened JsonExtract
  import Text

  // ---------------------------------------------------------------------------
  // ToolInvocation and ToolExecutor
  // ---------------------------------------------------------------------------

  /** The functions of `CODING_TOOLS`. */
  datatype CodingTool = WriteFile | ReadFile | RunCode

  /** `tool.__name__`. */
  function FunctionName(t: CodingTool): string
  {
    match t
    case WriteFile => "tool_write_file"
    case ReadFile => "tool_read_file"
    case RunCode => "tool_run_code"
  }

  const CODING_TOOLS: seq<CodingTool> := [WriteFile, ReadFile, RunCode]

  /** What calling a tool function with keyword arguments does: its result, or
      the exception it raises (a `TypeError` for an argument it does not take). */
  type ToolRunner = (CodingTool, map<string, Json>) -> Outcome

  datatype ToolInvocation = ToolInvocation(tool: Json, toolInput: Json)

  /** `{tool.__name__: tool for tool in tools}`: a later tool of the same name
      replaces an earlier one. */
  function ToolTable(tools: seq<CodingTool>): (table: map<string, CodingTool>)
    ensures forall n :: n in table <==> exists i :: 0 <= i < |tools| && FunctionName(tools[i]) == n
    ensures forall n :: n in table ==> FunctionName(table[n]) == n
  {
    if tools == [] then map[]
    else
      var last := tools[|tools| - 1];
      var table := ToolTable(tools[..|tools| - 1]);
      assert forall i :: 0 <= i < |tools| - 1 ==> tools[..|tools| - 1][i] == tools[i];
      table[FunctionName(last) := last]
  }

  /** A dict or list cannot be a dict key. */
  predicate Unhashable(j: Json)
  {
    j.JArr? || j.JObj?
  }

  /** The text of `{"error": f"Tool '{name}' not found."}`. */
  function NotFound(tool: Json, repr: Json -> string): (r: Json)
    ensures r.JObj? && r.fields.Keys == {"error"} && r.fields["error"].JStr?
  {
    Obj1("error", JStr("Tool '" + PyStr(tool, repr) + "' not found."))
  }

  /** The `TypeError` of `f(**x)` when `x` is not a mapping. */
  function KwargsError(t: CodingTool, args: Json): (message: string)
    ensures Text.IsPrefix("utils." + FunctionName(t), message)
  {
    var head := "utils." + FunctionName(t);
    var message := head + "() argument after ** must be a mapping, not " + TypeName(args);
    assert message[..|head|] == head;
    message
  }

  datatype ToolExecutor = ToolExecutor(tools: map<string, CodingTool>)
  {
    /** `ToolExecutor.invoke`: an unknown name gives the not-found result without
        calling anything; a known one is called with the input as keyword
        arguments. */
    function Invoke(inv: ToolInvocation, run: ToolRunner, repr: Json -> string): (r: Outcome)
      ensures Unhashable(inv.tool) ==> r == Raised("unhashable type: '" + TypeName(inv.tool) + "'")
      ensures !Unhashable(inv.tool) && !(inv.tool.JStr? && inv.tool.s in tools) ==>
                r == Returned(NotFound(inv.tool, repr))
      ensures inv.tool.JStr? && inv.tool.s in tools && inv.toolInput.JObj? ==>
                r == run(tools[inv.tool.s], inv.toolInput.fields)
      ensures inv.tool.JStr? && inv.tool.s in tools && !inv.toolInput.JObj? ==>
                r == Raised(KwargsError(tools[inv.tool.s], inv.toolInput))
    {
      if Unhashable(inv.tool) then Raised("unhashable type: '" + TypeName(inv.tool) + "'")
      else if !(inv.tool.JStr? && inv.tool.s in tools) then Returned(NotFound(inv.tool, repr))
      else
        var f := tools[inv.tool.s];
        if inv.toolInput.JObj? then run(f, inv.toolInput.fields) else Raised(KwargsError(f, inv.toolInput))
    }
  }

  /** `ToolExecutor(tools)`. */
  function FromTools(tools: seq<CodingTool>): (ex: ToolExecutor)
    ensures forall t :: t in tools ==> FunctionName(t) in ex.tools
  {
    ToolExecutor(ToolTable(tools))
  }

  /** `coding_tool_executor`: exactly the three function names are known, each
      to its own function. */
  lemma CodingToolNames(n: string)
    ensures var ex := FromTools(CODING_TOOLS);
            n in ex.tools <==> n == "tool_write_file" || n == "tool_read_file" || n == "tool_run_code"
    ensures var ex := FromTools(CODING_TOOLS);
            n in ex.tools ==> FunctionName(ex.tools[n]) == n
  {
    var ex := FromTools(CODING_TOOLS);
    if n in ex.tools {
      var i :| 0 <= i < |CODING_TOOLS| && FunctionName(CODING_TOOLS[i]) == n;
    } else {
      assert FunctionName(CODING_TOOLS[0]) == "tool_write_file";
      assert FunctionName(CODING_TOOLS[1]) == "tool_read_file";
      assert FunctionName(CODING_TOOLS[2]) == "tool_run_code";
    }
  }

  /** An unknown name never reaches a tool: the outcome is the same whatever the
      tools would do. */
  lemma UnknownToolRunsNothing(ex: ToolExecutor, inv: ToolInvocation, run1: ToolRunner, run2: ToolRunner,
                               repr: Json -> string)
    requires !(inv.tool.JStr? && inv.tool.s in ex.tools)
    ensures ex.Invoke(inv, run1, repr) == ex.Invoke(inv, run2, repr)
    ensures ex.Invoke(inv, run1, repr).Returned? <==> !Unhashable(inv.tool)
  {
  }

  // ---------------------------------------------------------------------------
  // node_coding_planner
  // ---------------------------------------------------------------------------

  /** The calls the coding agent makes to the model, one of each per run. */
  datatype CodingCall = CodingPlanCall | CodingDraftCall

  const RESPOND_MESSAGE := "I was unable to create a plan."
  const FALLBACK_STEP := Obj2("tool", JStr("respond"), "args", Obj1("message", JStr(RESPOND_MESSAGE)))
  const FALLBACK_PLAN := JArr([FALLBACK_STEP])

  /** The plan: the parsed reply, or the fallback step when it is not JSON; any
      other exception of `json.loads` escapes. */
  function CodingPlan(loads: string -> LoadResult, raw: string): (r: Result<Json, string>)
    ensures loads(raw).Loaded? ==> r == Ok(loads(raw).value)
    ensures loads(raw).DecodeError? ==> r == Ok(FALLBACK_PLAN)
    ensures loads(raw).OtherError? ==> r == Err(loads(raw).message)
  {
    match loads(raw)
    case Loaded(v) => Ok(v)
    case DecodeError(_) => Ok(FALLBACK_PLAN)
    case OtherError(m) => Err(m)
  }

  /** The one log entry the planner writes, `f"📝 Plan generated: {plan}"`. */
  const PLAN_GENERATED := "\U{1F4DD} Plan generated: "

  function PlanLog(plan: Json, repr: Json -> string): (line: string)
    ensures Text.IsPrefix(PLAN_GENERATED, line)
    ensures plan.JStr? ==> line[|PLAN_GENERATED|..] == plan.s
  {
    var line := PLAN_GENERATED + PyStr(plan, repr);
    assert line[..|PLAN_GENERATED|] == PLAN_GENERATED;
    line
  }

  // ---------------------------------------------------------------------------
  // node_coding_executor
  // ---------------------------------------------------------------------------

  const STR_INDEX_ERROR := "string indices must be integers, not 'str'"

  /** `j[key]`: the value, or the exception's text (`str(KeyError(key))` quotes
      the key). */
  function Subscript(j: Json, key: string): (r: Result<Json, string>)
    ensures r.Ok? <==> j.JObj? && key in j.fields
    ensures r.Ok? ==> r.value == j.fields[key]
  {
    match j
    case JObj(f) => if key in f then Ok(f[key]) else Err("'" + key + "'")
    case JArr(_) => Err("list indices must be integers or slices, not str")
    case JStr(_) => Err(STR_INDEX_ERROR)
    case _ => Err("'" + TypeName(j) + "' object is not subscriptable")
  }

  /** `for step in plan`: the items of a list, the one-character strings of a
      string; a non-empty dict yields its keys, strings that fail at
      `step["tool"]`; a number, a boolean or None is not iterable. */
  function PlanSteps(plan: Json): (r: Result<seq<Json>, string>)
    ensures plan.JArr? ==> r == Ok(plan.items)
    ensures r.Ok? ==> forall i :: 0 <= i < |r.value| ==> plan.JArr? || r.value[i].JStr?
  {
    match plan
    case JArr(items) => Ok(items)
    case JStr(s) => Ok(seq(|s|, i requires 0 <= i < |s| => JStr([s[i]])))
    case JObj(f) => if f == map[] then Ok([]) else Err(STR_INDEX_ERROR)
    case _ => Err("'" + TypeName(plan) + "' object is not iterable")
  }

  const EXECUTION_FAILED := "Tool execution failed: "

  /** One step: reading `step["tool"]` and `step["args"]` may raise, outside the
      `try`; an exception of the invocation becomes an error observation. */
  function StepObservation(ex: ToolExecutor, step: Json, run: ToolRunner, repr: Json -> string)
    : (r: Result<Json, string>)
    ensures !(step.JObj? && "tool" in step.fields && "args" in step.fields) ==> r.Err?
    ensures step.JObj? && "tool" in step.fields && "args" in step.fields ==> r.Ok?
  {
    match Subscript(step, "tool")
    case Err(e) => Err(e)
    case Ok(tool) =>
      match Subscript(step, "args")
      case Err(e) => Err(e)
      case Ok(args) =>
        var out := ex.Invoke(ToolInvocation(tool, args), run, repr);
        Ok(if out.Returned? then out.value else Obj1("error", JStr(EXECUTION_FAILED + out.message)))
  }

  /** A step fails only at reading its fields: whatever the tool raises becomes
      its observation. */
  lemma ObservationOfRaise(ex: ToolExecutor, step: Json, run: ToolRunner, repr: Json -> string)
    requires step.JObj? && "tool" in step.fields && "args" in step.fields
    ensures var out := ex.Invoke(ToolInvocation(step.fields["tool"], step.fields["args"]), run, repr);
            && (out.Returned? ==> StepObservation(ex, step, run, repr) == Ok(out.value))
            && (out.Raised? ==>
                  StepObservation(ex, step, run, repr) == Ok(Obj1("error", JStr(EXECUTION_FAILED + out.message))))
  {
  }

  /** The fallback step names a tool the executor does not have, so it is
      answered with the not-found result and nothing runs. */
  lemma FallbackStepNotFound(run: ToolRunner, repr: Json -> string)
    ensures StepObservation(FromTools(CODING_TOOLS), FALLBACK_STEP, run, repr) ==
            Ok(NotFound(JStr("respond"), repr))
  {
    CodingToolNames("respond");
    assert "tool" in FALLBACK_STEP.fields && "args" in FALLBACK_STEP.fields;
    assert FALLBACK_STEP.fields["tool"] == JStr("respond");
  }

  /** Step `k` is the first that raises, and it raises `msg`. */
  predicate FirstCrashAt(ex: ToolExecutor, steps: seq<Json>, run: ToolRunner, repr: Json -> string,
                         k: int, msg: string)
  {
    && 0 <= k < |steps|
    && (forall j :: 0 <= j < k ==> StepObservation(ex, steps[j], run, repr).Ok?)
    && StepObservation(ex, steps[k], run, repr) == Err(msg)
  }

  /** The executor's loop: one observation per step, in order, until a step
      raises, which ends the run. */
  method RunSteps(ex: ToolExecutor, steps: seq<Json>, run: ToolRunner, repr: Json -> string)
    returns (observations: seq<Json>, crash: Option<string>)
    ensures crash.None? <==> forall j :: 0 <= j < |steps| ==> StepObservation(ex, steps[j], run, repr).Ok?
    ensures crash.None? ==>
              && |observations| == |steps|
              && forall j :: 0 <= j < |steps| ==> observations[j] == StepObservation(ex, steps[j], run, repr).value
    ensures crash.Some? ==> exists k :: 0 <= k < |steps| && FirstCrashAt(ex, steps, run, repr, k, crash.value)
  {
    observations := [];
    for i := 0 to |steps|
      invariant |observations| == i
      invariant forall j :: 0 <= j < i ==> StepObservation(ex, steps[j], run, repr).Ok?
      invariant forall j :: 0 <= j < i ==> observations[j] == StepObservation(ex, steps[j], run, repr).value
    {
      var obs := StepObservation(ex, steps[i], run, repr);
      if obs.Err? {
        crash := Some(obs.error);
        assert FirstCrashAt(ex, steps, run, repr, i, obs.error);
        return;
      }
      observations := observations + [obs.value];
    }
    crash := None;
  }

  // ---------------------------------------------------------------------------
  // node_coding_verifier, the graph and tool_coding_agent
  // ---------------------------------------------------------------------------

  /** The keys of the coding graph's state, the declared ones and those the
      executor and the verifier return. */
  datatype StateKey = UserInput | Plan | CurrentCode | Log | Observations | Draft | Final | Approved

  /** The key as the state dict spells it. */
  function KeyName(k: StateKey): string
  {
    match k
    case UserInput => "user_input"
    case Plan => "plan"
    case CurrentCode => "current_code"
    case Log => "log"
    case Observations => "observations"
    case Draft => "draft"
    case Final => "final"
    case Approved => "approved"
  }

  type GraphState = map<StateKey, Json>

  /** The keys `CodingAgentState` declares. */
  const CODING_STATE_KEYS: set<StateKey> := {UserInput, Plan, CurrentCode, Log}

  /** The keys the executor and the verifier return. */
  const NODE_OUTPUT_KEYS: set<StateKey> := {Observations, Draft, Final, Approved}

  /** A state schema that also declares what the executor and the verifier return. */
  const INTENDED_STATE_KEYS: set<StateKey> := CODING_STATE_KEYS + NODE_OUTPUT_KEYS

  /** Applying a node's returned dict to the graph state: a key the state schema
      declares takes its new value, a key it does not declare is dropped, and
      every other key keeps its value. */
  function Merge(state: GraphState, update: GraphState, schema: set<StateKey>): (s: GraphState)
    ensures forall k :: k in s <==> k in state || (k in update && k in schema)
    ensures forall k :: k in update && k in schema ==> s[k] == update[k]
    ensures forall k :: k in state && !(k in update && k in schema) ==> s[k] == state[k]
  {
    map k | k in state.Keys + update.Keys * schema :: if k in update && k in schema then update[k] else state[k]
  }

  /** What `node_coding_planner` returns. */
  function PlannerUpdate(plan: Json, repr: Json -> string): (u: GraphState)
    ensures u.Keys == {Plan, Log}
  {
    map[Plan := plan, Log := JArr([JStr(PlanLog(plan, repr))])]
  }

  /** What `node_coding_executor` returns. */
  function ExecutorUpdate(observations: seq<Json>, draft: string): (u: GraphState)
    ensures u.Keys == {Observations, Draft}
  {
    map[Observations := JArr(observations), Draft := JStr(draft)]
  }

  /** `node_coding_verifier`: it approves whatever the draft is; the final answer
      is the draft, or "" when the state holds none. */
  function CodingVerifier(state: GraphState): (u: GraphState)
    ensures u.Keys == {Final, Approved} && u[Approved] == JBool(true)
    ensures Draft in state ==> u[Final] == state[Draft]
    ensures Draft !in state ==> u[Final] == JStr("")
  {
    map[Final := if Draft in state then state[Draft] else JStr(""), Approved := JBool(true)]
  }

  /** Under the schema as declared, neither the executor's nor the verifier's
      update reaches the state, so the verifier never sees a draft and the
      state never gets a final answer. */
  lemma UndeclaredUpdatesDropped(state: GraphState, observations: seq<Json>, draft: string)
    ensures Merge(state, ExecutorUpdate(observations, draft), CODING_STATE_KEYS) == state
    ensures Merge(state, CodingVerifier(state), CODING_STATE_KEYS) == state
  {
  }

  datatype CodingNode = CodingPlanner | CodingExecutor | CodingVerifierNode | CodingEnd

  /** The edges of `build_coding_agent_graph`. */
  function CodingSuccessor(n: CodingNode): (r: CodingNode)
    ensures r != CodingPlanner
    ensures r == n <==> n == CodingEnd
  {
    match n
    case CodingPlanner => CodingExecutor
    case CodingExecutor => CodingVerifierNode
    case CodingVerifierNode => CodingEnd
    case CodingEnd => CodingEnd
  }

  /** The node reached after `k` edges. */
  function CodingPath(n: CodingNode, k: nat): CodingNode
    decreases k
  {
    if k == 0 then n else CodingPath(CodingSuccessor(n), k - 1)
  }

  /** The graph has no loop: from the entry point every node runs once, in
      order, the end is reached after three steps, and the end is never left. */
  lemma {:induction false} CodingGraphIsLinear(k: nat)
    ensures k < 3 ==> CodingPath(CodingPlanner, k) != CodingEnd
    ensures k >= 3 ==> CodingPath(CodingPlanner, k) == CodingEnd
    ensures CodingPath(CodingPlanner, 1) == CodingExecutor && CodingPath(CodingPlanner, 2) == CodingVerifierNode
    ensures CodingPath(CodingEnd, k) == CodingEnd
    decreases k
  {
    assert CodingPath(CodingPlanner, 1) == CodingPath(CodingExecutor, 0);
    assert CodingPath(CodingPlanner, 2) == CodingPath(CodingExecutor, 1) == CodingPath(CodingVerifierNode, 0);
    if k > 0 {
      CodingGraphIsLinear(k - 1);
    }
    if k >= 3 {
      assert CodingPath(CodingPlanner, k) == CodingPath(CodingExecutor, k - 1);
      assert CodingPath(CodingExecutor, k - 1) == CodingPath(CodingVerifierNode, k - 2);
      assert CodingPath(CodingVerifierNode, k - 2) == CodingPath(CodingEnd, k - 3);
      CodingGraphIsLinear(k - 3);
    }
  }

  /** A run of the coding graph ends either with a crash or with every step run. */
  predicate CodingRunCompletes(ex: ToolExecutor, plan: Result<Json, string>, run: ToolRunner,
                               repr: Json -> string)
  {
    && plan.Ok?
    && PlanSteps(plan.value).Ok?
    && forall j :: 0 <= j < |PlanSteps(plan.value).value| ==>
         StepObservation(ex, PlanSteps(plan.value).value[j], run, repr).Ok?
  }

  /** `msg` is the exception that ended a run: the planner's, the one of
      iterating over the plan, or that of the first step that raises. */
  predicate CodingCrash(ex: ToolExecutor, plan: Result<Json, string>, run: ToolRunner, repr: Json -> string,
                        msg: string)
  {
    match plan
    case Err(e) => msg == e
    case Ok(p) =>
      match PlanSteps(p)
      case Err(e) => msg == e
      case Ok(steps) => exists k :: 0 <= k < |steps| && FirstCrashAt(ex, steps, run, repr, k, msg)
  }

  /** Only one step can be the first to raise. */
  lemma FirstCrashIsUnique(ex: ToolExecutor, steps: seq<Json>, run: ToolRunner, repr: Json -> string,
                           k1: int, m1: string, k2: int, m2: string)
    requires FirstCrashAt(ex, steps, run, repr, k1, m1) && FirstCrashAt(ex, steps, run, repr, k2, m2)
    ensures k1 == k2 && m1 == m2
  {
  }

  /** A run that crashes does not complete, and it crashes with one exception only. */
  lemma CrashIsUnique(ex: ToolExecutor, plan: Result<Json, string>, run: ToolRunner, repr: Json -> string,
                      m1: string, m2: string)
    requires CodingCrash(ex, plan, run, repr, m1)
    ensures !CodingRunCompletes(ex, plan, run, repr)
    ensures CodingCrash(ex, plan, run, repr, m2) ==> m1 == m2
  {
    if plan.Ok? && PlanSteps(plan.value).Ok? {
      var steps := PlanSteps(plan.value).value;
      var k1 :| FirstCrashAt(ex, steps, run, repr, k1, m1);
      if CodingCrash(ex, plan, run, repr, m2) {
        var k2 :| FirstCrashAt(ex, steps, run, repr, k2, m2);
        FirstCrashIsUnique(ex, steps, run, repr, k1, m1, k2, m2);
      }
    }
  }

  /** The state after the three nodes, under a schema that declares at least
      the input, the plan and the log. */
  /** After the planner the state holds exactly the input, the plan and its log line. */
  lemma PlannedState(schema: set<StateKey>, userInput: string, plan: Json, repr: Json -> string)
    requires {UserInput, Plan, Log} <= schema
    ensures Merge(Merge(map[], map[UserInput := JStr(userInput)], schema), PlannerUpdate(plan, repr), schema) ==
            map[UserInput := JStr(userInput), Plan := plan, Log := JArr([JStr(PlanLog(plan, repr))])]
  {
    var s0 := Merge(map[], map[UserInput := JStr(userInput)], schema);
    assert s0 == map[UserInput := JStr(userInput)];
  }

  /** The executor and the verifier add only the declared output keys and keep
      what the planner left. */
  lemma ExecutedAndVerified(s1: GraphState, schema: set<StateKey>, observations: seq<Json>, draft: string)
    requires forall k :: k in s1 <==> k == UserInput || k == Plan || k == Log
    ensures var s2 := Merge(s1, ExecutorUpdate(observations, draft), schema);
            var s3 := Merge(s2, CodingVerifier(s2), schema);
            && (forall k :: k in s3 <==> k in s1 || (k in schema && k in NODE_OUTPUT_KEYS))
            && (forall k :: k in s1 ==> s3[k] == s1[k])
            && (Final in schema ==> s3[Final] == JStr(if Draft in schema then draft else ""))
            && (Observations in schema ==> s3[Observations] == JArr(observations))
  {
    var s2 := Merge(s1, ExecutorUpdate(observations, draft), schema);
    assert forall k :: k in s2 <==> k in s1 || (k in schema && (k == Observations || k == Draft));
  }

  lemma FinalStateContents(schema: set<StateKey>, userInput: string, plan: Json, repr: Json -> string,
                           observations: seq<Json>, draft: string)
    requires {UserInput, Plan, Log} <= schema
    ensures var s0 := Merge(map[], map[UserInput := JStr(userInput)], schema);
            var s1 := Merge(s0, PlannerUpdate(plan, repr), schema);
            var s2 := Merge(s1, ExecutorUpdate(observations, draft), schema);
            var s3 := Merge(s2, CodingVerifier(s2), schema);
            && s1[Plan] == plan
            && (forall k :: k in s3 <==> k in {UserInput, Plan, Log} || (k in schema && k in NODE_OUTPUT_KEYS))
            && s3[UserInput] == JStr(userInput)
            && s3[Plan] == plan
            && s3[Log] == JArr([JStr(PlanLog(plan, repr))])
            && (Final in schema ==> s3[Final] == JStr(if Draft in schema then draft else ""))
            && (Observations in schema ==> s3[Observations] == JArr(observations))
  {
    PlannedState(schema, userInput, plan, repr);
    var s1 := Merge(Merge(map[], map[UserInput := JStr(userInput)], schema), PlannerUpdate(plan, repr), schema);
    ExecutedAndVerified(s1, schema, observations, draft);
  }

  /** `coding_graph.invoke({"user_input": user_input})` under a state schema
      that declares at least the input, the plan and the log: the final state,
      or the exception that ended the run. */
  method RunCodingGraph(schema: set<StateKey>, userInput: string, reply: CodingCall -> string,
                        loads: string -> LoadResult, run: ToolRunner, repr: Json -> string)
    returns (r: Result<GraphState, string>)
    requires {UserInput, Plan, Log} <= schema
    ensures var plan := CodingPlan(loads, PyStrip(reply(CodingPlanCall)));
            r.Ok? <==> CodingRunCompletes(FromTools(CODING_TOOLS), plan, run, repr)
    ensures var plan := CodingPlan(loads, PyStrip(reply(CodingPlanCall)));
            r.Err? ==> CodingCrash(FromTools(CODING_TOOLS), plan, run, repr, r.error)
    ensures var plan := CodingPlan(loads, PyStrip(reply(CodingPlanCall)));
            r.Ok? ==> && (forall k :: k in r.value <==> k in {UserInput, Plan, Log} || (k in schema && k in NODE_OUTPUT_KEYS))
                      && r.value[UserInput] == JStr(userInput)
                      && r.value[Plan] == plan.value
                      && r.value[Log] == JArr([JStr(PlanLog(plan.value, repr))])
    ensures r.Ok? && Final in schema ==>
              r.value[Final] == JStr(if Draft in schema then PyStrip(reply(CodingDraftCall)) else "")
    ensures var plan := CodingPlan(loads, PyStrip(reply(CodingPlanCall)));
            r.Ok? && Observations in schema ==>
              var steps := PlanSteps(plan.value).value;
              && r.value[Observations].JArr?
              && |r.value[Observations].items| == |steps|
              && forall j :: 0 <= j < |steps| ==>
                   r.value[Observations].items[j] == StepObservation(FromTools(CODING_TOOLS), steps[j], run, repr).value
  {
    var ex := FromTools(CODING_TOOLS);
    var state := Merge(map[], map[UserInput := JStr(userInput)], schema);
    // coding_planner
    var plan := CodingPlan(loads, PyStrip(reply(CodingPlanCall)));
    if plan.Err? {
      r := Err(plan.error);
      return;
    }
    state := Merge(state, PlannerUpdate(plan.value, repr), schema);
    // coding_executor
    var steps := PlanSteps(state[Plan]);
    if steps.Err? {
      r := Err(steps.error);
      return;
    }
    var observations, crash := RunSteps(ex, steps.value, run, repr);
    if crash.Some? {
      r := Err(crash.value);
      return;
    }
    var draft := PyStrip(reply(CodingDraftCall));
    FinalStateContents(schema, userInput, plan.value, repr, observations, draft);
    state := Merge(state, ExecutorUpdate(observations, draft), schema);
    // coding_verifier
    state := Merge(state, CodingVerifier(state), schema);
    r := Ok(state);
  }

  /** The text of the `KeyError` of reading a key the state does not hold. */
  function MissingKey(k: StateKey): string
  {
    "'" + KeyName(k) + "'"
  }

  /** `{"response": result["final"]}` on the final state of a run under a state
      schema: the response when the schema keeps the final answer, the
      `KeyError` of reading it otherwise, or the exception that ended the run. */
  method CodingResponse(schema: set<StateKey>, userInput: string, reply: CodingCall -> string,
                        loads: string -> LoadResult, run: ToolRunner, repr: Json -> string)
    returns (r: Result<Json, string>)
    requires {UserInput, Plan, Log} <= schema
    ensures var plan := CodingPlan(loads, PyStrip(reply(CodingPlanCall)));
            r.Ok? <==> CodingRunCompletes(FromTools(CODING_TOOLS), plan, run, repr) && Final in schema
    ensures r.Ok? ==>
              r.value == Obj1("response", JStr(if Draft in schema then PyStrip(reply(CodingDraftCall)) else ""))
    ensures var plan := CodingPlan(loads, PyStrip(reply(CodingPlanCall)));
            CodingRunCompletes(FromTools(CODING_TOOLS), plan, run, repr) && Final !in schema ==>
              r == Err(MissingKey(Final))
    ensures var plan := CodingPlan(loads, PyStrip(reply(CodingPlanCall)));
            !CodingRunCompletes(FromTools(CODING_TOOLS), plan, run, repr) ==>
              r.Err? && CodingCrash(FromTools(CODING_TOOLS), plan, run, repr, r.error)
  {
    var result := RunCodingGraph(schema, userInput, reply, loads, run, repr);
    if result.Err? {
      r := Err(result.error);
      return;
    }
    if Final !in result.value {
      r := Err(MissingKey(Final));
      return;
    }
    r := Ok(Obj1("response", result.value[Final]));
  }

  /** `tool_coding_agent(user_input)` as written: `CodingAgentState` declares
      neither the draft nor the final answer, so every run that gets through
      its steps ends at `result["final"]` with a `KeyError`; a run that crashes
      earlier ends with that exception. */
  method ToolCodingAgent(userInput: string, reply: CodingCall -> string, loads: string -> LoadResult,
                         run: ToolRunner, repr: Json -> string)
    returns (r: Result<Json, string>)
    ensures var plan := CodingPlan(loads, PyStrip(reply(CodingPlanCall)));
            CodingRunCompletes(FromTools(CODING_TOOLS), plan, run, repr) ==> r == Err(MissingKey(Final))
    ensures var plan := CodingPlan(loads, PyStrip(reply(CodingPlanCall)));
            !CodingRunCompletes(FromTools(CODING_TOOLS), plan, run, repr) ==>
              r.Err? && CodingCrash(FromTools(CODING_TOOLS), plan, run, repr, r.error)
  {
    r := CodingResponse(CODING_STATE_KEYS, userInput, reply, loads, run, repr);
  }

  /** `tool_coding_agent(user_input)` with a state schema that declares what the
      executor and the verifier return: `{"response": draft}` for every run that
      gets through its steps, the exception that ended the run otherwise. */
  method ToolCodingAgentIntended(userInput: string, reply: CodingCall -> string, loads: string -> LoadResult,
                                 run: ToolRunner, repr: Json -> string)
    returns (r: Result<Json, string>)
    ensures var plan := CodingPlan(loads, PyStrip(reply(CodingPlanCall)));
            r.Ok? <==> CodingRunCompletes(FromTools(CODING_TOOLS), plan, run, repr)
    ensures r.Ok? ==> r.value == Obj1("response", JStr(PyStrip(reply(CodingDraftCall))))
    ensures var plan := CodingPlan(loads, PyStrip(reply(CodingPlanCall)));
            r.Err? ==> CodingCrash(FromTools(CODING_TOOLS), plan, run, repr, r.error)
  {
    r := CodingResponse(INTENDED_STATE_KEYS, userInput, reply, loads, run, repr);
  }

  /** A reply that is not JSON still completes: the fallback step is answered
      with the not-found result. */
  lemma UnparseablePlanCompletes(loads: string -> LoadResult, raw: string, run: ToolRunner,
                                 repr: Json -> string)
    requires loads(raw).DecodeError?
    ensures CodingRunCompletes(FromTools(CODING_TOOLS), CodingPlan(loads, raw), run, repr)
    ensures PlanSteps(CodingPlan(loads, raw).value) == Ok([FALLBACK_STEP])
  {
    FallbackStepNotFound(run, repr);
  }
}
