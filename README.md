# A verified model of a memory-backed LLM agent and its collaborative web client

This project models the core of a small agent system in Dafny.

The back end is a Python agent that answers one user turn through a graph of phases:
- a direct answer from long-term memory;
- a planner that asks the model for JSON steps;
- an executor that runs the tools of a registry, one observation per step;
- a verifier that approves the draft or sends it back to the planner, up to a reflection limit;
- a finalizer;
- a memory update that stores the turn and the name facts it can find in the input.

Around that loop, these parts are covered as well:
- the defensive JSON extraction (`extract_json_block`, `safe_json_loads`, in two variants);
- the whitelisting calculator;
- the tool registry and its argument defaults;
- the coding sub-agent with its `ToolExecutor`;
- the vector-memory helpers;
- the Gradio upload report and the chat loop's exit test.

The front end is a React client. Its own state logic is modelled as transitions:
- the file-upload reducer and `getFileExtension`;
- the friends list filter and pagination;
- the notification list;
- the toast list and its id counter;
- the agent log's one-at-a-time reveal and first-match styling;
- the collaborative agent session: message and proposal events, the approval tally, and the optimistic sends with their reverts.

## How the model is built

The model follows the source's form, file by file:
- Code that changes state step by step is imperative Dafny:
  - a `Turn` whose graph state the phase methods update;
  - a `ModelClient` that records each model call in a `transcript`;
  - a `MemoryStore` whose `texts` grow;
  - the toast provider, the agent-log view and the collaborative `Session`.
- Each of these methods states its new state in terms of the old one: every field it changes, and that the others are unchanged.
- Pure code is functions with lemmas: the JSON helpers, routing, tools, fact extraction and the reducers.

The outside world is a parameter:
- **The language model** is a function from the call site to the reply. A call site is the phase plus the reflection count.
- **`json.loads`** is a partial function with three outcomes: loaded, `JSONDecodeError` or another exception.
- **The similarity search, `ast.parse` and the web search** are parameters too, as are whether an embedding write fails and what `ingest_knowledge_base` returns.
- **The front end's inputs** are parameters: API results, `Date.now()`, `sessionStorage` values and realtime rows.

Points where the code's behaviour is easy to misread:
- **Verifier passes.** The reflection counter starts at 0 (dashboard.py:497) and the loop gives up at `reflections >= MAX_REFLECTIONS` (dashboard.py:424). A turn that is never approved therefore runs the verifier `max(MAX_REFLECTIONS, 1)` times.
- **The agent's name** is cut at the first `" is "` after `your name` (dashboard.py:381).
- **`run_agent_once`.** dashboard.py defines it twice. The second definition (dashboard.py:485-499) is the one that runs, and its initial state has no `log` key.
- **`mem_recall` and `safe_json_loads`.** The dashboard's versions are the config.py ones, which clean newlines and tabs before the second parse.
- **The coding sub-agent's state.** `CodingAgentState` (coding.py:28-32) declares `user_input`, `plan`, `current_code` and `log`, but the executor returns `observations` and `draft` and the verifier returns `final` and `approved` (coding.py:68, 73). A LangGraph state graph drops returned keys its schema does not declare, so `result["final"]` (coding.py:92) raises `KeyError` for every run that gets through its steps (see Findings).
- **The tool registry.** Tools come from the registry of tools.py. The dashboard's own copy (dashboard.py:123-149) differs only in `python_repl`, whose lambda refers to an undefined name. The executor therefore always records a `tool_error` for that tool (`Dashboard.PythonReplStepFails`).

## Model

| member | source | states |
|---|---|---|
| Dashboard.ModelClient.Invoke | dashboard.py:95 | every model call is recorded once in the transcript and returns the oracle's reply with Python `strip()` applied |
| Dashboard.Turn.constructor | dashboard.py:497 | a turn starts with only the user input and zero reflections: no plan, no observations, no draft, no final, an empty log |
| Dashboard.DirectMemories | dashboard.py:83-86 | the merged, de-duplicated recall set is empty exactly when the store is empty, and holds only stored documents |
| Dashboard.DirectAnswer | dashboard.py:81-102 | with no memories there is no model call and only a log line; a reply containing `NO_DIRECT_ANSWER` anywhere sets no final; any other reply becomes the final answer |
| Dashboard.PlanShape | dashboard.py:274-275 | the plan is `parsed["steps"]` exactly when `parsed` is a dict whose `steps` is a list, and `[]` otherwise, including for every error dict of the JSON fallback |
| Dashboard.PlanOf | dashboard.py:275 | a non-empty plan is the `steps` list of a dict parse |
| Dashboard.Planner | dashboard.py:241-278 | the planner makes exactly two model calls, distil and plan, sets the plan to the shaped parse of the second reply, and logs the intent and the step count |
| Dashboard.FirstNonDict | dashboard.py:296 | finds the first plan step that is not a dict, the one `step.get` fails on, and is None exactly when every step is a dict |
| Dashboard.ToolValues | dashboard.py:296 | the kept `tool` values are all truthy, as the list comprehension's filter requires |
| Dashboard.FirstNonString | dashboard.py:298 | finds the first kept tool value that is not a string, the one `", ".join` fails on, and is None exactly when all are strings |
| Dashboard.ToolValuesText | dashboard.py:296-298 | the join succeeds exactly when every truthy `tool` value in the plan is a string |
| Dashboard.ExecutorCrashIff | dashboard.py:296-298 | the executor raises exactly when some step is not a dict or some truthy tool value is not a string |
| Dashboard.ExecutorCrash | dashboard.py:296-298 | an empty plan never crashes the executor; `ExecutorCrashIff` gives both directions of when it does |
| Dashboard.ToolNames | dashboard.py:298 | the logged tool names are the kept tool values' strings, one per value, in order |
| Dashboard.StepArgs | dashboard.py:306 | a step's args are its truthy `args` value, or `{}` when that is missing or falsy |
| Dashboard.ToolObservation | dashboard.py:307-314 | a missing, falsy or non-text tool, or a name the registry does not hold, observes `{"note": "no_tool"}` |
| Dashboard.ObservationOf | dashboard.py:305-315 | each record holds the step's tool and args, and its observation is what that tool reports for exactly the recorded args |
| Dashboard.UnregisteredToolRunsNothing | dashboard.py:307-314 | a step whose tool is missing, falsy, not text or not registered reaches no backend: its record is the same whatever the backends do, and it observes `no_tool` |
| Dashboard.ObservationIgnoresOtherKeys | dashboard.py:305-306 | keys of a step other than `id`, `tool` and `args` do not change its record |
| Dashboard.MissingArgsRunOnEmpty | dashboard.py:306 | a step with missing or falsy `args` records `{}` and runs its tool on `{}` |
| Dashboard.PythonReplStepFails | dashboard.py:123-149 | the dashboard's registry (`Tools.DashboardDispatch`) is the tools.py one except for `python_repl`, whose lambda refers to an undefined name, so a `python_repl` step always records a `tool_error` |
| Dashboard.RunTools | dashboard.py:303-315 | the loop gives exactly one observation per step, in plan order |
| Dashboard.Executor | dashboard.py:291-321 | a crash leaves the turn and transcript unchanged; otherwise there are per-step observations, one draft model call, the stripped draft and one log line |
| Dashboard.VerdictOf | dashboard.py:344-346 | an approval always carries a truthy final |
| Dashboard.VerdictIff | dashboard.py:344-348 | approval holds exactly when the parse is a dict with truthy `approved` and truthy `final`; a non-dict parse gives feedback "needs another pass"; a dict without `feedback` gives "" |
| Dashboard.UnparseableReplyHasEmptyFeedback | dashboard.py:342-348 | a verifier reply that no stage of `safe_json_loads` can parse yields an error dict, so the feedback is "" and not "needs another pass" |
| Dashboard.FeedbackHead | dashboard.py:349 | `fb[:50]` succeeds exactly for strings and lists and gives the first `min(50, len)` items; any other feedback raises |
| Dashboard.Verifier | dashboard.py:335-351 | one model call; approval sets the final and writes nothing; a rejection saves `verifier_feedback: <fb>` with kind `feedback`, records the feedback and adds exactly one reflection; unsliceable feedback crashes with nothing changed |
| Dashboard.Finalizer | dashboard.py:395-397 | the final becomes the draft, or `[Agent had no result]` when the draft is empty, so a final is always present |
| Dashboard.Persisted | memory.py:8-12 | a failed write drops only its own entry, so no more entries are kept than were written |
| Dashboard.PersistedAppend | memory.py:8-12 | persisting two batches in turn keeps what persisting each would keep, in order |
| Dashboard.FactEntries | dashboard.py:376-377 | each fact is stored as one `fact: <json>` document, in order |
| Dashboard.TurnWrites | dashboard.py:363-366 | the user text is stored exactly when it is non-empty, and at most two turn documents are written |
| Dashboard.TurnWritesAgent | dashboard.py:363-366 | the final's text is stored whenever the final is truthy, and without a truthy final nothing but the user text is |
| Dashboard.SaveFact | dashboard.py:373-377 | one fact check appends exactly the persisted documents of the fact it finds |
| Dashboard.PersistedFactParts | dashboard.py:370-391 | the three fact checks are independent, and their documents are kept in the order user, agent, brother |
| Dashboard.SaveFacts | dashboard.py:370-391 | fact extraction appends exactly the persisted fact documents of the input |
| Dashboard.SaveTurn | dashboard.py:363-366 | the turn appends exactly the persisted user and agent documents |
| Dashboard.SaveMemory | dashboard.py:363-391 | the store grows by exactly the turn documents and then the fact documents that it accepts, in that order |
| Dashboard.MemoryUpdate | dashboard.py:358-393 | the memory phase logs one line, changes nothing else in the turn, and only appends to the store |
| Dashboard.FactsAreWritten | dashboard.py:370-391 | every extracted fact is among the documents the memory phase writes |
| Dashboard.FirstApprovalAt | dashboard.py:421-426 | when the first approving pass is `r`, the verifier runs `r + 1` times |
| Dashboard.NeverApproved | dashboard.py:421-426 | when no pass approves, the verifier runs the full budget of passes |
| Dashboard.NeverApprovedRunsMaxPasses | dashboard.py:424 | a turn that is never approved runs the verifier `max(MAX_REFLECTIONS, 1)` times |
| Dashboard.RunsUpToFirstApproval | dashboard.py:421-426 | a turn first approved on pass `r` runs the verifier `r + 1` times |
| Dashboard.StepDirectAnswer | dashboard.py:455-462 | the direct-answer step keeps the turn invariant and moves strictly forward in the graph |
| Dashboard.InvAfterPlanner | dashboard.py:465 | after the planner the invariant holds at the executor, with the two planner calls added to the transcript |
| Dashboard.StepPlanner | dashboard.py:465 | the planner step keeps the invariant and moves forward |
| Dashboard.InvAfterExecutor | dashboard.py:466 | after the executor the invariant holds at the verifier, with the draft call added |
| Dashboard.StepExecutor | dashboard.py:466 | the executor step keeps the invariant unless it crashes, and makes no direct-answer call when memory was empty |
| Dashboard.InvAfterApproval | dashboard.py:467-475 | an approving pass routes to the memory phase and counts one more verifier run |
| Dashboard.InvAfterReplan | dashboard.py:467-475 | a rejection under the limit routes back to the planner with one more reflection |
| Dashboard.InvAfterGiveUp | dashboard.py:467-475 | a rejection at the limit routes to the finalizer |
| Dashboard.StepVerifier | dashboard.py:467-475 | each verifier step either uses up one reflection of the budget or moves forward, and the run count never exceeds the maximum |
| Dashboard.InvAfterFinalizer | dashboard.py:476 | the finalizer routes to the memory phase with a final present |
| Dashboard.StepFinalizer | dashboard.py:476 | the finalizer step keeps the invariant and moves forward |
| Dashboard.InvAfterMemoryUpdate | dashboard.py:477 | the memory phase routes to the end |
| Dashboard.StepMemoryUpdate | dashboard.py:477 | the memory step keeps the invariant and reaches the end |
| Dashboard.RunAgentOnce | dashboard.py:485-499 | a completed turn always has a final; the verifier runs at most `max(MAX_REFLECTIONS, 1)` times, and exactly as often as the first approval dictates; a direct answer makes exactly one model call; an empty memory means no direct-answer call; the store only grows |
| Routing.Successor | dashboard.py:455-477 | no edge leads back to the direct answer, the end stays put, and no node other than the memory phase leads to the end |
| Routing.EndOnlyAfterMemoryUpdate | dashboard.py:428-477 | only the memory phase leads to the end, and the memory phase is entered exactly from a direct answer (`ShouldPlanOrFinish`) or a verifier pass (`ShouldReflect`) holding a truthy final, or from the finalizer |
| Routing.ReplanOnlyFromVerifier | dashboard.py:421-475 | the planner is entered exactly from a direct answer without a truthy final (`ShouldPlanOrFinish`), or from a verifier pass without one while the reflections are below the limit (`ShouldReflect`) |
| Routing.ForwardEdges | dashboard.py:455-477 | every edge except replanning moves strictly forward, so the graph loops only through the verifier |
| Facts.ValueAfter | dashboard.py:374 | the fact value has no leading or trailing `.?! ` and is no longer than the input |
| Facts.NameFact | dashboard.py:375-377 | an empty value gives no fact; otherwise it gives one `name` fact for the entity |
| Facts.CheckFact | dashboard.py:373-377 | one check gives at most one fact, and only a name fact |
| Facts.ExtractFacts | dashboard.py:370-391 | extraction gives at most three facts, all of them name facts |
| Facts.CheckFactEntity | dashboard.py:373-377 | a check gives its entity exactly when the pattern was found and the value is non-empty |
| Facts.ExtractFactsExactly | dashboard.py:370-391 | the facts found are exactly the user, agent and brother facts whose pattern occurs with a non-empty value, in that order |
| Facts.UserValueFollowsFirstOccurrence | dashboard.py:373-374 | the user name is the text after the first `my name is`, stripped of whitespace and then of `.?! ` |
| Facts.ValueOfUnpadded | dashboard.py:374 | an already trimmed remainder is the value unchanged |
| Facts.ValueAfterHead | dashboard.py:374-381 | the value is the text after the first occurrence of the separator, as `split(sep, 1)[-1]` (`Text.AfterFirst`) gives it |
| Facts.AgentValueCutsAtFirstIs | dashboard.py:381 | "this is it, your name is max" gives the agent the name "it, your name is max", because the split is at the first `" is "` |
| Facts.NoIsInYourNameIs | dashboard.py:380-381 | the bare pattern "your name is" holds no `" is "` |
| Facts.AgentValueWithoutSeparator | dashboard.py:380-382 | so the input "your name is" names the agent "your name is" |
| Facts.FactJsonValueReadsBack | dashboard.py:376 | the value inside the stored fact JSON is printable ASCII and decodes back to the value |
| Facts.FactJsonIsPrintable | dashboard.py:376 | the whole fact JSON that `FactJson` builds is printable ASCII |
| JsonText.HexDigitRoundTrip | dashboard.py:376 | a hex digit reads back as its value |
| JsonText.ParseHex4RoundTrip | dashboard.py:376 | four hex digits read back as the code unit they encode |
| JsonText.EscapeIsPrintableAscii | dashboard.py:376 | `json.dumps` with its default `ensure_ascii` produces only printable ASCII |
| JsonText.Escape | dashboard.py:376 | the escaped text is never shorter than the text, and empty exactly when the text is |
| JsonText.QuoteIsPrintable | dashboard.py:376 | a quoted string is printable ASCII, with its quotes |
| JsonText.PrintableConcat | dashboard.py:376 | joining printable ASCII texts gives printable ASCII |
| JsonText.Unescape | dashboard.py:376 | decoding never gives more characters than the escaped text has |
| JsonText.UnescapeBmp | dashboard.py:376 | a `\uXXXX` escape (`UEscape`: the code unit's four hex digits) of a non-printable character below U+10000 decodes to that character |
| JsonText.SurrogateHalves | dashboard.py:376 | the surrogate pair of an astral character lies in the high and low ranges and recombines to it |
| JsonText.UnescapeAstral | dashboard.py:376 | an escaped surrogate pair decodes to its astral character |
| JsonText.UnescapeChar | dashboard.py:376 | every character's escape decodes back to that character |
| JsonText.EscapeRoundTrip | dashboard.py:376 | decoding the escaped string gives the string back |
| JsonText.PlainTextIsUnchanged | dashboard.py:376 | printable ASCII without quotes or backslashes is not escaped |
| PyText.PyStrip | dashboard.py:95 | `str.strip()` never lengthens the text and leaves no whitespace at either end |
| PyText.PyStripChars | dashboard.py:374 | `str.strip(chars)` never lengthens the text and leaves none of the characters at either end |
| Text.IndexOf | dashboard.py:373 | the index is where the leftmost occurrence of the pattern starts, and None exactly when it occurs nowhere |
| Text.StripIsMaximalTrim | dashboard.py:374 | stripping removes a maximal run of the characters from each end and keeps the middle |
| Text.StripIdempotent | dashboard.py:374 | stripping twice is stripping once |
| Text.StripUnpadded | dashboard.py:374 | text whose ends are not stripped characters is unchanged |
| Text.LowerIdempotent | dashboard.py:370 | lowercasing twice is lowercasing once |
| Text.LastIndexOf | frontend/src/components/FileUpload.js:118 | `lastIndexOf` gives the last position of the character, or -1 when it does not occur |
| Text.JoinEmpty | tools.py:24 | joining with a non-empty separator gives "" exactly for no items or one empty item |
| Text.SplitOn | config.py:171 | splitting gives at least one piece, and no piece holds the separator |
| Text.SplitJoin | config.py:171 | splitting the joined lines at the separator gives the lines back when no line holds it |
| Text.Basename | config.py:168 | `os.path.basename` is the suffix after the last `/` and holds no `/` |
| Text.NatToString | frontend/src/components/CollaborativeAgent.js:277 | the decimal rendering is all digits, without a leading zero |
| Text.NatToStringRoundTrip | frontend/src/components/CollaborativeAgent.js:277 | the rendered digits read back as the number |
| Memory.MemAdd | memory.py:6-12 | with a store, one `<kind>: <text>` document is appended unless the add fails, and a failure is swallowed with nothing changed; with no store nothing happens |
| Memory.MemRecall | memory.py:14-19 | given any search that returns `min(k, n)` distinct indexes of stored documents (`SimilaritySearch`), no store gives `[]` and a store gives `min(k, n)` of its own documents, selected in rank order (`Select`) |
| Memory.RecallEmptyIff | memory.py:14-19 | recall is empty exactly when there is no store, the store is empty or `k` is 0 |
| JsonExtract.FindBlock | core/utils.py:8 | the scan finds the leftmost opener with a later closer and the last such closer, or None when no opener has one |
| JsonExtract.ExtractJsonBlock | core/utils.py:6-9 | None exactly when no `{` or `[` has a later matching closer; otherwise a block of length at least 2 that starts with the opener and ends with its closer |
| JsonExtract.ExtractJsonBlockIsLeftmostGreedy | core/utils.py:8 | the block runs from the leftmost opener that has a closer through the last such closer |
| JsonExtract.ExtractJsonBlockIsSubstring | core/utils.py:9 | the block is a contiguous substring of the text |
| JsonExtract.StrictParseWins | core/utils.py:11-14 | text that parses whole is returned unchanged by both variants (`SafeJsonLoadsStrict`, `SafeJsonLoads`) |
| JsonExtract.StrictRaisesOnlyOtherErrors | core/utils.py:11-20 | `SafeJsonLoadsStrict` raises exactly when the text, or after a `JSONDecodeError` its block, fails to parse with an error other than `JSONDecodeError` |
| JsonExtract.StrictFallbacks | core/utils.py:11-22 | after a `JSONDecodeError`, `SafeJsonLoadsStrict` returns a block that parses; a block that fails gives `json parse fail`; no block gives `no json found` |
| JsonExtract.CleaningFallbacks | config.py:75-86 | after any failed parse, `SafeJsonLoads` parses the block after cleaning; any failure gives `json parse fail: <e>` with the raw block; no block gives `no json found` |
| JsonExtract.CleanedBlockHasNoNewlineOrTab | config.py:82 | the block cleaned by `ReplaceNewlinesAndTabs` (each newline and tab made a space) holds no newline or tab |
| Calculator.FirstDisallowed | utils.py:25-34 | the visitor finds a disallowed node exactly when the tree is not `Whitelisted`, that is when some node is not a number constant or an allowed operator |
| Calculator.IsNum | utils.py:27 | `ast.Num` accepts every int constant and rejects every boolean (`bool` is an `int` subclass that `ast.Num` leaves out) |
| Calculator.PyFloorDiv | utils.py:28-29 | Python `//` is the floor of the quotient, for either sign of the divisor |
| Calculator.PyMod | utils.py:28-29 | Python `%` satisfies `a == b*(a//b) + a%b`, with the remainder taking the divisor's sign and smaller than it in size |
| Calculator.Apply | utils.py:28-40 | an integer operator raises `ZeroDivisionError` exactly for `//`, `%` or `/` by 0 and for 0 to a negative power; `/` and a negative power are otherwise inexact; every message is one of Python's |
| Calculator.Eval | utils.py:40 | evaluation fails only with one of Python's zero-division messages, and the left operand's failure comes first |
| Calculator.ToolCalculator | utils.py:36-43 | whatever goes wrong before evaluation gives `{"ok": False, "error": ...}`; an exact value succeeds, a zero division fails and an inexact value is left to the float evaluation |
| Calculator.FloatOverZeroIsInexact | utils.py:40 | a float divided by or taken modulo an int zero is not decided by the integer evaluation |
| Calculator.FloorDivOfNegatives | utils.py:28-29 | `//` and `%` floor for negative operands, for example `-7 // 2 == -4` and `-7 % 2 == 1` |
| Calculator.ExactMeansIntegerTree | utils.py:40 | an exact integer result comes only from a tree without float or complex literals and without true division |
| Calculator.RejectedIsNeverEvaluated | utils.py:38-40 | a disallowed tree is reported as `disallowed expression: <node>` whatever evaluation would do |
| Calculator.CalculatorOutcomes | utils.py:36-43 | non-text input, a syntax error, a disallowed node and a zero division are all returned as `{"ok": False, "error": ...}` and never raised; an exact value is returned as `{"ok": True, "result": v}` |
| Calculator.PrecedenceExample | utils.py:38-41 | `2+2*3` evaluates to 8 |
| Calculator.UnaryMinusExample | utils.py:29 | `-3` is allowed and gives -3 |
| Calculator.RejectionExamples | utils.py:31-33 | calls, names, string and boolean constants, and the first bad node in a tree are reported by name |
| Calculator.ZeroDivisionExamples | utils.py:40-43 | division by zero under `//`, `%` and `/` gives Python's three messages, even inside a larger tree |
| Tools.Lookup | tools.py:29-49 | a registry key names its tool, and an unregistered name gives None |
| Tools.LookupKey | tools.py:29-49 | every tool is found under its own key |
| Tools.TruncateReal | tools.py:32 | `int()` of a float truncates toward zero |
| Tools.PyInt | tools.py:32 | `int()` converts ints, booleans and floats, the last truncated toward zero; it parses text by its own rule; `None`, lists and dicts raise the `TypeError` naming their type |
| Tools.ToolRagSearch | tools.py:16-27 | the result has a single key, `results` with non-empty text or `error` |
| Tools.Dispatch | tools.py:29-49 | `python_repl` always returns its message; any other tool raises on non-dict args; the calculator and rag search never raise on a dict; the web search raises exactly when `int(max_results)` does |
| Tools.RagText | tools.py:24-25 | the rag result text is never empty |
| Tools.RagTextFallback | tools.py:24-25 | an empty join gives the "No relevant info" text; otherwise the passages are joined with `\n---\n` |
| Tools.ArgumentDefaults | tools.py:32-40 | the defaults are query "" with 3 results for the web search, expression "" for the calculator and query "" for rag |
| Tools.MaxResultsConversion | tools.py:32 | `max_results` goes through `int()`, and a failure of that conversion raises |
| Tools.RagSearchIgnoresOtherArgs | tools.py:40 | rag search depends only on `query`, so `source_file` is ignored |
| Tools.RagResultsNeverEmpty | tools.py:23-25 | a rag search never returns an empty `results` string |
| Tools.PythonReplIsConstant | tools.py:42-48 | `python_repl` always returns ok with its fixed message, whatever the args |
| Tools.NonDictArgsRaise | tools.py:32-40 | arguments that are not a dict raise from `args.get` |
| CodingAgent.ToolTable | coding.py:16 | the executor's table has exactly the tools' `__name__`s as keys, each mapped to a tool of that name |
| CodingAgent.NotFound | coding.py:21 | the not-found result is a dict with the single key `error` holding text |
| CodingAgent.KwargsError | coding.py:22 | calling a tool with non-dict args raises a `TypeError` whose message starts with the tool's qualified name `utils.<function>` |
| CodingAgent.FromTools | coding.py:14-16 | every given tool is registered |
| CodingAgent.CodingToolNames | coding.py:34-35 | the coding executor knows exactly `tool_write_file`, `tool_read_file` and `tool_run_code` |
| CodingAgent.UnknownToolRunsNothing | coding.py:18-22 | `ToolExecutor.Invoke` of a name the table lacks returns the not-found result whatever the tools would do, and it returns unless the name is unhashable |
| CodingAgent.PlanLog | coding.py:50 | the log line starts with `📝 Plan generated: `, and for a plan that is text the plan follows it unchanged |
| CodingAgent.Subscript | coding.py:58 | `step[key]` succeeds exactly on a dict that has the key |
| CodingAgent.PlanSteps | coding.py:57 | iterating a list gives its items, and iterating anything else gives only strings, or fails |
| CodingAgent.StepObservation | coding.py:58-63 | a step without `tool` and `args` raises outside the `try`; a step with both always gives an observation |
| CodingAgent.ObservationOfRaise | coding.py:59-62 | a returned value is the observation, and an exception becomes `{"error": "Tool execution failed: ..."}` |
| CodingAgent.FallbackStepNotFound | coding.py:48 | the fallback `respond` step is not a coding tool and gives the not-found observation |
| CodingAgent.RunSteps | coding.py:56-63 | without a crash there is one observation per step, in order; a crash is the first step whose subscript fails |
| CodingAgent.PlannerUpdate | coding.py:50 | the planner returns exactly the plan and the log |
| CodingAgent.ExecutorUpdate | coding.py:68 | the executor returns exactly the observations and the draft |
| CodingAgent.UndeclaredUpdatesDropped | coding.py:28-32 | LangGraph merges each node's update under the schema (`Merge`: a declared key takes the new value, an undeclared one is dropped); under `CodingAgentState` as declared, the executor's and the verifier's updates leave the state unchanged |
| CodingAgent.CodingSuccessor | coding.py:81-84 | no edge leads back to the planner, and only the end leads to itself |
| CodingAgent.CodingGraphIsLinear | coding.py:75-86 | the coding graph visits planner, executor and verifier once each, in that order, and then stays at the end for every later step |
| CodingAgent.FirstCrashIsUnique | coding.py:56-63 | the step that crashes first, and its message, are unique |
| CodingAgent.CrashIsUnique | coding.py:44-63 | a crashing run does not complete, and its exception is unique |
| CodingAgent.PlannedState | coding.py:37-50 | after the planner the state holds exactly the input, the plan and its log line |
| CodingAgent.ExecutedAndVerified | coding.py:52-73 | the executor and the verifier add only the declared output keys and keep what the planner left |
| CodingAgent.FinalStateContents | coding.py:71-91 | the final state holds the input, the plan, the log and the declared output keys; the final answer is the verifier's (`CodingVerifier`), the draft only when `draft` is declared too and "" otherwise |
| CodingAgent.RunCodingGraph | coding.py:75-91 | a run completes exactly when the plan parses and no step crashes, and otherwise fails with the first crash; a completed run's state holds the input, the plan, its log line, one observation per step and the final the schema allows |
| CodingAgent.CodingResponse | coding.py:92 | the response is given exactly when the run completes and the schema keeps `final`; a completed run whose schema drops it raises `KeyError: 'final'` |
| CodingAgent.ToolCodingAgent | coding.py:28-92 | as written, every run that gets through its steps raises `KeyError: 'final'`, and a run that crashes earlier raises that exception |
| CodingAgent.ToolCodingAgentIntended | coding.py:66-92 | with `draft` and `final` declared in the state, the sub-agent responds with the stripped draft exactly when the run completes, and otherwise raises the first crash |
| CodingAgent.UnparseablePlanCompletes | coding.py:44-50 | a planner reply that `json.loads` rejects with `JSONDecodeError` becomes the single fallback `respond` step (`CodingPlan`), and the run then completes |
| ConfigApp.UploadFile | config.py:152-171 | no files gives the warning line; otherwise there is one status or error line per file, in order, and a failure does not stop the rest |
| ConfigApp.UploadLine | config.py:163-168 | a file's line is its ingestion status, or an error line that starts with `❌ Error ingesting ` |
| ConfigApp.UploadReportSplits | config.py:171 | the report splits at newlines back into the per-file lines |
| ConfigApp.ExitIgnoresPaddingAndCase | config.py:98 | the exit test ignores surrounding whitespace and letter case |
| ConfigApp.IsExitCommand | config.py:98 | the empty line is never an exit command, so blank input keeps the loop running |
| ConfigApp.ChatLoop | config.py:94-115 | the loop handles the inputs before the first exit command, in order, and stops exactly when one occurs; with no exit command it handles every input |
| FileUpload.Reduce | frontend/src/components/FileUpload.js:13-34 | the reducer fails exactly on an unknown action, with "Unhandled action type"; only select and reset change the file; only drag, select and reset change isDragging |
| FileUpload.ReduceEffects | frontend/src/components/FileUpload.js:15-30 | the new state of every known action: flags, status and progress as each case sets them |
| FileUpload.ReduceKeepsConsistent | frontend/src/components/FileUpload.js:13-34 | every known action keeps the state consistent: `file-selected` always has a file |
| FileUpload.ReduceAll | frontend/src/components/FileUpload.js:13-34 | a sequence of dispatches fails exactly when it holds an unknown action |
| FileUpload.HandleUpload | frontend/src/components/FileUpload.js:74-107 | with no file only the error is reported; otherwise uploading is flagged and UPLOAD_START is dispatched first |
| FileUpload.NoFileDispatchesNothing | frontend/src/components/FileUpload.js:75-78 | uploading with no file dispatches nothing |
| FileUpload.HandleUploadDispatches | frontend/src/components/FileUpload.js:80-103 | a successful upload dispatches start, complete and reset; a failed one dispatches start and error |
| FileUpload.UploadEndStates | frontend/src/components/FileUpload.js:80-103 | with no timer tick firing, a successful upload ends in the initial state, and a failed one in `error` with progress 0 and the file kept |
| FileUpload.Fired | frontend/src/components/FileUpload.js:85-90 | every due tick fires while the progress the callback reads is below 90; from 90 on only the first does, because it clears the timer |
| FileUpload.TimedUpload | frontend/src/components/FileUpload.js:80-103 | the dispatches of an upload together with its timer begin with UPLOAD_START |
| FileUpload.TimedUploadWithoutTicks | frontend/src/components/FileUpload.js:80-103 | with no tick due, the timed dispatches are the handler's |
| FileUpload.TicksSetProgress | frontend/src/components/FileUpload.js:86 | the ticks of one timer (`Ticks`) change only the progress, and all to the same stale value plus 10 |
| FileUpload.ReduceAllAppend | frontend/src/components/FileUpload.js:13-34 | reducing two runs of dispatches in turn is reducing them joined |
| FileUpload.PendingState | frontend/src/components/FileUpload.js:81-90 | while the request is pending, the state is `uploading` with progress 0, or the stale value plus 10 once a tick fired |
| FileUpload.TimedUploadSucceeds | frontend/src/components/FileUpload.js:92-100 | a successful upload ends in the initial state whatever the timer did |
| FileUpload.FailedWithLateTicks | frontend/src/components/FileUpload.js:101-103 | after UPLOAD_ERROR, the progress is 0 until a late tick fires |
| FileUpload.TimerLeaksAfterError | frontend/src/components/FileUpload.js:85-103 | as written, the timer survives a failure: once a tick is due after it, an upload in `error` shows progress above 0 |
| FileUpload.ClearedTimerKeepsErrorState | frontend/src/components/FileUpload.js:85-103 | clearing the timer on failure too, a failed upload always ends in `error` with progress 0 |
| FileUpload.ToUint32 | frontend/src/components/FileUpload.js:118 | JavaScript's `>>> 0` maps a value to its residue modulo 2^32 |
| FileUpload.ExtensionAfter | frontend/src/components/FileUpload.js:118 | the extension is shorter than a non-empty name |
| FileUpload.GetFileExtension | frontend/src/components/FileUpload.js:117-119 | a name without a dot has no extension |
| FileUpload.ExtensionAfterCases | frontend/src/components/FileUpload.js:118 | the extension is the uppercased text after the dot when the dot is past index 0, and "" otherwise |
| FileUpload.FileExtensionCases | frontend/src/components/FileUpload.js:117-119 | `getFileExtension` is the uppercased text after the last dot, and "" when there is no dot or it is at index 0 |
| FileUpload.ExtensionOfName | frontend/src/components/FileUpload.js:117-119 | `name.ext` with a non-empty name gives the uppercased `ext` |
| FriendsPanel.Filter | frontend/src/components/FriendsPanel.js:46-50 | the filtered list is the friends whose lowercased name contains the lowercased term |
| FriendsPanel.Matches | frontend/src/components/FriendsPanel.js:47-48 | the empty search term matches every friend |
| FriendsPanel.FilterAppend | frontend/src/components/FriendsPanel.js:46-50 | filtering keeps the original order |
| FriendsPanel.EmptySearchKeepsAll | frontend/src/components/FriendsPanel.js:46-50 | an empty search keeps every friend |
| FriendsPanel.TotalPages | frontend/src/components/FriendsPanel.js:52 | the page count is `ceil(n / 5)`, and 0 exactly for no items |
| FriendsPanel.SliceIndex | frontend/src/components/FriendsPanel.js:55 | a slice index is clamped into the list, and an in-range index is kept |
| FriendsPanel.JsSlice | frontend/src/components/FriendsPanel.js:55 | `Array.prototype.slice` never returns more than the list |
| FriendsPanel.Page | frontend/src/components/FriendsPanel.js:53-56 | a page holds at most five friends |
| FriendsPanel.PageContents | frontend/src/components/FriendsPanel.js:53-56 | page `p` holds the items from `(p-1)*5` up to `p*5`, at most five |
| FriendsPanel.FirstPagesPrefix | frontend/src/components/FriendsPanel.js:53-56 | the first `k` pages together are the first `5k` items |
| FriendsPanel.PagesCoverFiltered | frontend/src/components/FriendsPanel.js:52-56 | all the pages together are exactly the filtered list |
| FriendsPanel.NextPage | frontend/src/components/FriendsPanel.js:58-60 | next never passes the last page, and otherwise moves one forward |
| FriendsPanel.PrevPage | frontend/src/components/FriendsPanel.js:62-64 | previous never goes below page 1, and otherwise moves one back |
| FriendsPanel.NavigationStaysInRange | frontend/src/components/FriendsPanel.js:58-64 | next gives `min(p+1, total)` and previous `max(p-1, 1)`, so a valid page stays valid |
| FriendsPanel.NextWithNoPages | frontend/src/components/FriendsPanel.js:58-60 | with no pages, next sets the page to 0 |
| FriendsPanel.DigitRun | frontend/src/components/FriendsPanel.js:34 | `parseInt` reads the maximal leading run of digits |
| FriendsPanel.ParseInt | frontend/src/components/FriendsPanel.js:34 | `parseInt(s, 10)`: white space, then an optional sign, then the leading digits; NaN when there is no digit |
| FriendsPanel.ParseWithoutDigits | frontend/src/components/FriendsPanel.js:34 | text without a digit parses as NaN |
| FriendsPanel.ParseSignedDigits | frontend/src/components/FriendsPanel.js:34 | a sign or a digit followed by digits parses as their value with that sign |
| FriendsPanel.StoredPage | frontend/src/components/FriendsPanel.js:34 | a missing, non-numeric or zero stored page gives 1, and any other parsed value is kept |
| FriendsPanel.ParseDigits | frontend/src/components/FriendsPanel.js:34 | a string of digits parses as its decimal value |
| FriendsPanel.ParseNegatedDigits | frontend/src/components/FriendsPanel.js:34 | a minus sign before digits parses as the negated value |
| FriendsPanel.ParseNegativeRoundTrip | frontend/src/components/FriendsPanel.js:34 | a negative number written out parses back to itself |
| FriendsPanel.ParseIntRoundTrip | frontend/src/components/FriendsPanel.js:34 | any integer written out parses back to itself |
| FriendsPanel.StoredPageRoundTrip | frontend/src/components/FriendsPanel.js:34-43 | a non-zero page that is stored and read back is the same page |
| FriendsPanel.SearchShowsFirstMatches | frontend/src/components/FriendsPanel.js:47-79 | after a search change (`OnSearchChange`) the panel shows the first five friends matching the new term, on a page within the new page count whenever any match |
| FriendsPanel.InitialPanel | frontend/src/components/FriendsPanel.js:33-34 | the initial page is never 0, and a missing term starts as "" |
| Notifications.UpdateOfAbsentId | frontend/src/components/NotificationContext.js:23-25 | an update (`OnUpdate`, which replaces in place the entries with its id) for an absent id changes nothing |
| Notifications.UnreadOnes | frontend/src/components/NotificationContext.js:71 | the unread ones are exactly the notifications not yet read |
| Notifications.UnreadCount | frontend/src/components/NotificationContext.js:71 | the unread count never exceeds the number of notifications |
| Notifications.UnreadCountZero | frontend/src/components/NotificationContext.js:71 | the count is zero exactly when every notification is read |
| Notifications.InsertCount | frontend/src/components/NotificationContext.js:19-21 | an insert (`OnInsert`, the new notification first) raises the unread count by one exactly when the new notification is unread |
| Notifications.MarkAllAsRead | frontend/src/components/NotificationContext.js:63-69 | nothing is sent exactly when nothing is unread; otherwise one id per unread notification is sent |
| Notifications.MarkAllAsReadTargets | frontend/src/components/NotificationContext.js:63-69 | the ids sent are exactly those of unread notifications |
| Notifications.OnSession | frontend/src/components/NotificationContext.js:27-48 | loading always ends; no signed-in user clears the list; a failed fetch keeps it; otherwise the fetched rows, or none, replace it |
| Toasts.Without | frontend/src/components/ToastContext.js:23-25 | removal keeps exactly the toasts with other ids |
| Toasts.WithoutAbsent | frontend/src/components/ToastContext.js:24 | removing an absent id changes nothing |
| Toasts.KeepIncreasing | frontend/src/components/ToastContext.js:19-25 | filtering keeps toast ids strictly increasing |
| Toasts.ToastProvider.constructor | frontend/src/components/ToastContext.js:14-17 | a provider starts with no toasts and the module counter's value |
| Toasts.ToastProvider.AddToast | frontend/src/components/ToastContext.js:19-21 | one toast with the counter as id and type `info` by default is appended, and the counter goes up by one, so ids stay unique and increasing |
| Toasts.ToastProvider.RemoveToast | frontend/src/components/ToastContext.js:23-25 | removal filters out the id, keeps the others in order and leaves the counter alone |
| AgentLog.StepsKeepPrefix | frontend/src/components/AgentLog.js:15-32 | with the log unchanged, a typing completion (`TypingStep`) and the effect on a changed log (`SyncStep`) both keep the display a prefix of the log |
| AgentLog.GrowingLogKeepsPrefix | frontend/src/components/AgentLog.js:23-32 | a log that only grows keeps the display a prefix |
| AgentLog.RevealShowsPrefix | frontend/src/components/AgentLog.js:15-32 | after `k` completions the first `k + 1` entries are shown, up to the whole log |
| AgentLog.LogView.constructor | frontend/src/components/AgentLog.js:6 | the display starts empty |
| AgentLog.LogView.TypingComplete | frontend/src/components/AgentLog.js:15-21 | the display becomes the typing step of the old one |
| AgentLog.LogView.Sync | frontend/src/components/AgentLog.js:23-32 | the display becomes the sync step of the old one |
| AgentLog.CategorizeLog | frontend/src/components/AgentLog.js:34-83 | the class is that of the first pattern the text matches, or `log-item` when none matches |
| CollaborativeAgent.RemoveMessage | frontend/src/components/CollaborativeAgent.js:182-185 | a delete keeps exactly the messages with other ids |
| CollaborativeAgent.OnMessageEvent | frontend/src/components/CollaborativeAgent.js:169-189 | an event adds at most one message, and every message after it was there before or is the event's row |
| CollaborativeAgent.MessageEventEffects | frontend/src/components/CollaborativeAgent.js:169-189 | an insert is appended only when someone else sent it; an update keeps the length; a delete removes that id; other events change nothing |
| CollaborativeAgent.AbsentIdEvents | frontend/src/components/CollaborativeAgent.js:178-185 | an update (`ReplaceMessage`) or delete for an absent id changes nothing |
| CollaborativeAgent.WithoutSystem | frontend/src/components/CollaborativeAgent.js:208-220 | keeps exactly the non-system messages |
| CollaborativeAgent.WithoutProcessing | frontend/src/components/CollaborativeAgent.js:223-233 | keeps exactly the messages whose id does not start with `processing-` |
| CollaborativeAgent.ProposalEventBasics | frontend/src/components/CollaborativeAgent.js:194-200 | an insert becomes the proposal, ends the submit and starts the cooldown; an update of another proposal changes nothing |
| CollaborativeAgent.OnProposalEvent | frontend/src/components/CollaborativeAgent.js:191-240 | no proposal event starts a submit; only an insert changes the cooldown, to 5 seconds; an event other than INSERT or UPDATE changes nothing |
| CollaborativeAgent.OnMockResponse | frontend/src/components/CollaborativeAgent.js:211-214 | the mock reply drops exactly the processing messages and appends the canned `analysis-<id>` message |
| CollaborativeAgent.OnlySystemMessage | frontend/src/components/CollaborativeAgent.js:218-220 | after the swap, the new message is the only system message |
| CollaborativeAgent.ApprovalShowsProcessing | frontend/src/components/CollaborativeAgent.js:203-221 | entering `approved` (not mock) removes every system message and appends one processing message, which is then the only system message |
| CollaborativeAgent.NotProcessing | frontend/src/components/CollaborativeAgent.js:213-226 | an id whose prefix starts with another letter than `p` never starts with `processing-`, so the analysis message survives the filter |
| CollaborativeAgent.FinishReplacesProcessing | frontend/src/components/CollaborativeAgent.js:223-233 | entering `processed` or `interrupted` removes the processing messages and appends one result; a missing analysis shows the default text |
| CollaborativeAgent.CountDecisions | frontend/src/components/CollaborativeAgent.js:365-366 | no more votes are counted than the approvals map holds |
| CollaborativeAgent.UnanimousTally | frontend/src/components/CollaborativeAgent.js:363-377 | in the tally (`TallyOf`), unanimous votes of every session user give approved or rejected |
| CollaborativeAgent.SplitVoteIsPartial | frontend/src/components/CollaborativeAgent.js:378-393 | in the tally (`TallyOf`), one approval and one rejection from two users is a partial rejection |
| CollaborativeAgent.AddOnce | frontend/src/components/CollaborativeAgent.js:386-392 | after adding, a message with that id is present |
| CollaborativeAgent.AddOnceProperties | frontend/src/components/CollaborativeAgent.js:386-392 | adding is idempotent and never duplicates the rejection message |
| CollaborativeAgent.PromptAccepted | frontend/src/components/CollaborativeAgent.js:312 | the submit guard never accepts an empty prompt, since `trim()` of it is blank |
| CollaborativeAgent.SenderName | frontend/src/components/CollaborativeAgent.js:321 | the sender name is the display name, or `You`, and never empty |
| CollaborativeAgent.PendingProposalKept | frontend/src/components/CollaborativeAgent.js:329 | a new proposal is requested (`MayCreateProposal`) only with none or a `processed` or `rejected_processed` one, so a pending, approved, interrupted or rejected proposal blocks a new one |
| CollaborativeAgent.RevertUndoesOptimisticAgentMessage | frontend/src/components/CollaborativeAgent.js:334-337 | the failed-prompt revert removes exactly the optimistic message |
| CollaborativeAgent.RevertUndoesOptimisticChatMessage | frontend/src/components/CollaborativeAgent.js:290-294 | the failed-send revert removes exactly the optimistic message |
| CollaborativeAgent.InterruptAgent | frontend/src/components/CollaborativeAgent.js:443-451 | a toast comes exactly when an approved proposal exists to interrupt |
| CollaborativeAgent.Session.constructor | frontend/src/components/CollaborativeAgent.js:14-22 | a session starts with empty lists and prompt, no proposal, no cooldown and no submit in progress |
| CollaborativeAgent.Session.ReceiveMessageEvent | frontend/src/components/CollaborativeAgent.js:169-189 | a message event changes only the chat messages, as the event transform says |
| CollaborativeAgent.Session.ReceiveProposalEvent | frontend/src/components/CollaborativeAgent.js:191-240 | a proposal event changes only the proposal, agent messages, submit flag and cooldown, as the event transform says |
| CollaborativeAgent.Session.ReceiveMockResponse | frontend/src/components/CollaborativeAgent.js:211-214 | the mock reply changes only the agent messages |
| CollaborativeAgent.Session.Tick | frontend/src/components/CollaborativeAgent.js:43-48 | a positive cooldown goes down by one, and nothing else changes |
| CollaborativeAgent.Session.ClearAgentChat | frontend/src/components/CollaborativeAgent.js:408-411 | the agent messages are emptied, nothing else changes, and the info toast `Agent chat has been cleared.` is raised |
| CollaborativeAgent.Session.ClearSession | frontend/src/components/CollaborativeAgent.js:413-418 | the proposal, agent messages and prompt are cleared, nothing else changes, and the info toast `Collaborative session has been reset.` is raised |
| CollaborativeAgent.Session.HandleChatSubmit | frontend/src/components/CollaborativeAgent.js:267-295 | blank input or no conversation changes nothing; otherwise the input is cleared and a `temp-<now>` message is added, then removed again with a toast when sending fails |
| CollaborativeAgent.Session.HandlePromptSubmit | frontend/src/components/CollaborativeAgent.js:310-341 | a guarded no-op for a blank prompt, no conversation, a submit in progress or a cooldown; otherwise the optimistic prompt message, a proposal request only when none is active, and a revert with the prompt kept when creation fails |
| CollaborativeAgent.Session.HandleMockPromptClick | frontend/src/components/CollaborativeAgent.js:420-441 | the same guard without the prompt; the optimistic message is reverted with a toast when creation fails |
| CollaborativeAgent.Session.HandleApproval | frontend/src/components/CollaborativeAgent.js:346-401 | no proposal or user changes nothing; otherwise the user's vote is recorded (`WithDecision`) and the others are kept; unanimity requests the status change; a partial rejection adds the notice once; a failed request reverts the votes and raises the error's message or `Failed to sync approval. Please try again.` |

## Left out

- Prompt wording and the prompt text built around each model call are not modelled. The model reply depends only on the phase and the reflection count, and that pair identifies each call of a turn.
- The planner's `mem_recall` (dashboard.py:247) only feeds the prompt, so it is not modelled.
- The LangGraph recursion limit (25 steps by default) is not modelled. A large `MAX_REFLECTIONS` would hit it before the reflection limit.
- LangGraph's merging of a node's returned keys into the dashboard's state is not modelled: each phase's update is written out instead. For the coding sub-agent it is modelled (`CodingAgent.Merge`), as a LangGraph version that drops undeclared keys does. A version that rejects an update with no declared key would raise `InvalidUpdateError` at the coding executor instead of `KeyError` at the end.
- An exception raised by the model call itself is not modelled.
- `json.dumps` of the executor and verifier contexts (dashboard.py:317, 340) only builds prompts, so its failures are not modelled. The fact JSON is modelled with the default separators and the keys in insertion order.
- Floats: the calculator's `/`, `**` and float literals are not evaluated. Each such result is an opaque parameter.
- Calculator.Eval: only integer division and modulo by an integer zero, and 0 to a negative integer power, are evaluated to `ZeroDivisionError`. With a float or complex operand the outcome, including its `ZeroDivisionError`, is left to the opaque parameter (`FloatOverZeroIsInexact`).
- Letter case is mapped for ASCII only.
- The wording of CPython's exception messages is modelled only where the source shows it: `TypeError` texts are close to CPython's and are not guaranteed to be identical.
- Dictionary key order is not modelled, because JSON objects are maps.
- `ingest_knowledge_base` (config.py:1-42) is a parameter that returns a status or an error.
- `chat_loop`'s printing and its memory recall are not modelled. Only its exit test and its order of handling are.
- ConfigApp.ChatLoop: the inputs are a finite sequence, and running out of them ends the loop with `exited == false`, where `input()` (config.py:97) would raise `EOFError`.
- `web_search`, `tool_write_file`, `tool_read_file` and `tool_run_code` (utils.py:11-23, 51-79) do network, file and process I/O, so they are parameters.
- `localStorage`, `sessionStorage`, `Date.now()` and the timers are parameters.
- The upload progress interval (FileUpload.js:85-90) is modelled by how many of its ticks fall before and after the request settles; the 200 ms period, the 500 ms reset delay and interleavings with other dispatches are not modelled. `formatFileSize` uses float `Math.log`, so it is not modelled.
- The realtime channel setup, `setupConversation`, `handleTypingEvent`, `handleChatInputChange` (a broadcast), the theme and `getApprovalStatus` (render-only) of CollaborativeAgent.js are not modelled.
- AgentLog.CategorizeLog: the emoji patterns are parameters, because their character classes count UTF-16 code units.
- Toasts.ToastProvider: the id counter is module-level and shared by every provider. Each provider is built from the counter's current value, so uniqueness across providers is not modelled.
- FriendsPanel.ParseInt: `parseInt` rounds results beyond 2^53 to a float, and that rounding is not modelled.
- FileUpload.GetFileExtension: requires a name shorter than 2^32 characters, the longest a JavaScript string can be.
- CollaborativeAgent.RejectionResponse: renders a null content as "".
- CollaborativeAgent.Session: `recipient` is an optional string, standing for the other participant.
- CollaborativeAgent.Session.HandleApproval: as in the source, the tally counts every vote in the approvals map against the number of session users. Votes left in the map by users who are not in the session are counted too.
- CollaborativeAgent.Session.HandlePromptSubmit: as in the source, a follow-up prompt that creates no proposal leaves `isSubmitting` true until the next proposal event.
- The vector store's ranking (`Memory.SimilaritySearch`) is assumed, not derived: any search that returns `min(k, n)` distinct stored indexes may stand in for `similarity_search`.

## Findings

| source | as written | input that shows it | evidently intended | confidence | as-written member | corrected member |
|---|---|---|---|---|---|---|
| coding.py:28-92 | `CodingAgentState` declares neither `draft` nor `final`, so the executor's and the verifier's returns are dropped and `result["final"]` raises `KeyError` | a planner reply that is not JSON: the fallback step completes (`UnparseablePlanCompletes`), and then `result["final"]` raises | the response is the executor's stripped draft | not executed | CodingAgent.ToolCodingAgent | CodingAgent.ToolCodingAgentIntended |
| frontend/src/components/FileUpload.js:85-103 | the progress timer is cleared on success only, so it keeps ticking after UPLOAD_ERROR | a failed upload started at progress 0 whose request takes longer than 200 ms | a failed upload rests in `error` with progress 0 | not executed | FileUpload.TimerLeaksAfterError | FileUpload.ClearedTimerKeepsErrorState |
