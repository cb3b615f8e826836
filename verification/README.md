# Macro-economics multi-agent research system: control logic in Dafny

This project models the deterministic control logic of a LangGraph research pipeline.
The pipeline has four graphs:

- **Scope gate.** A clarifier decides whether the user's topic is clear enough. A router then either writes a research brief or stops.
- **Research supervisor.** A loop alternates between a decide step that asks the model for its next move and a tool node. The tool node either ends the loop, collecting the notes so far, or runs the requested `think_tool` reflections and `ConductResearch` delegations and loops back. The tool node stops after 6 iterations.
- **Research worker.** A model step, a router that sends any reply with tool calls to the tool node, a tool node that looks up and invokes every requested tool in order, and a summarizer that compresses the history into one raw note.
- **Macro agent.** The same plan/tools/route loop runs twice, first for the "current state" phase and then for the "future events" phase. Each phase has its own message buffer and summary. A `ResearchComplete` call hands the phase over to its summarizer.

A message serialiser and a display formatter turn histories into prompt text.

Everything the model cannot see is a parameter:

- The language model's replies are given messages.
- A tool raising is `None`. The worker's tools are a `map<string, Args -> Option<string>>` looked up by the call's name, where a missing name raises `KeyError`. The supervisor's reflection tool is a function from a call to `Option<string>`. A delegated run is a function from a call to `Option<ResearchResult>`.
- `asyncio.gather` over the delegated runs is a list of outcomes aligned by index with the `ConductResearch` calls.
- `json.dumps` and Python's `repr` are opaque string functions.

An exception that escapes a node is `Result.Err`. One the code catches takes the code's fallback path. The `add_messages` reducer is append, and list reducers (`operator.add`) concatenate.

Modules:

- `Common`: `Option`, `Result` and `Join`.
- `Messages`: message classes, tool calls and the name filters.
- `Graph`: edge tables and `Next`.
- `ToolDispatch`: the reflection/delegation block shared by the supervisor and the macro tool nodes.
- `Supervisor`, `Worker`, `Macro` and `Scope`: one module per graph.
- `Utils`: the serialiser and the formatter.

Points where the code does less than its names and comments suggest, and which the model follows:

- The supervisor's only bound is `max_researcher_iterations = 6` (src/subagents/research_supervisor.py:90, 137), compared against the iteration counter at line 165.
- `max_concurrent_researchers = 3` (src/subagents/research_supervisor.py:87) is only passed into the prompt text (line 111). Every `ConductResearch` call of a reply is launched at once (lines 201-215).
- The worker loop has no iteration bound: `number_of_tool_calls` is declared (src/subagents/research_agent.py:20) and never read.
- A failing model call in a decide step is not caught: neither `LLMCall` has a `try` around its model call (src/subagents/research_supervisor.py:117, src/subagents/research_agent.py:49-55).
- The macro tool node does not end a phase itself. It answers `ResearchComplete` calls with "Research Completed" messages (src/app.py:157-170), and the router decides (src/app.py:239-266).

## Model

| member | source | states |
|---|---|---|
| Messages.CallsNamed | src/subagents/research_supervisor.py:180-188 | Filtering calls by name keeps only calls with that name, keeps every such call, and invents none |
| Messages.CallsNamedAppend | src/subagents/research_supervisor.py:180-188 | The filter distributes over concatenation, so each group keeps reply order |
| Messages.CallsNamedIsSubsequence | src/subagents/research_supervisor.py:180-188 | Each group is a subsequence of the reply's calls |
| Messages.AnyNamed | src/subagents/research_supervisor.py:167-170 | The `any(...)` test holds exactly when some call carries the name |
| Messages.CallsNamedDistinct | src/subagents/research_supervisor.py:180-188 | Filtering preserves unique call ids |
| ToolDispatch.ThinkMessages | src/subagents/research_supervisor.py:190-199 | Reflections succeed exactly when every one returns; then there is one tool message per call, in order, with the call's name and id |
| ToolDispatch.FillAsCompleted | src/subagents/research_supervisor.py:214-215 | Writing outcomes into their call's slot as runs finish: a slot holds its call's outcome once that call has finished, and is untouched otherwise |
| ToolDispatch.GatherIgnoresCompletionOrder | src/subagents/research_supervisor.py:201-215 | Whatever order the delegated runs finish in, the gathered list holds one outcome per `ConductResearch` call, aligned with the calls by index |
| ToolDispatch.Execute | src/subagents/research_supervisor.py:178-235 | Succeeds exactly when every reflection returns and every delegation names a topic and returns. Reflection answers come first, then one answer per delegation (the summary or "Error synthesizing research report"), with one joined raw note per delegation |
| ToolDispatch.ExecuteAnswersOnlyTwoTools | src/subagents/research_supervisor.py:191-229 | Every emitted message is a tool message answering `think_tool` or `ConductResearch` |
| ToolDispatch.ExecuteLayout | src/subagents/research_supervisor.py:191-229 | Reflection answers fill the first positions with each reflection's id, then one answer per delegation with its call's id |
| ToolDispatch.PairingOneToOne | src/subagents/research_supervisor.py:191-229 | With unique call ids, every answer carries the id and name of a call of the reply, and no two answers share an id |
| Supervisor.Apply | src/subagents/research_supervisor.py:31-46 | Messages, notes and raw notes are extended by exactly the update's list; a present brief or counter replaces the old value, and an absent key leaves its field unchanged |
| Supervisor.ApplyTwice | src/subagents/research_supervisor.py:42-46 | Replaying an update accumulates two copies of each list, while the brief and the counter end as the update's value (or the old one when absent), as after one application |
| Supervisor.ToolContents | src/subagents/research_supervisor.py:49-64 | Notes extraction yields at most one note per message |
| Supervisor.ToolContentsOfOne | src/subagents/research_supervisor.py:49-64 | A tool message contributes its content as a note and any other message contributes nothing; with `Supervisor.ToolContentsAppend` this determines the notes of any history |
| Supervisor.ToolContentsAppend | src/subagents/research_supervisor.py:64 | Notes extraction distributes over concatenation |
| Supervisor.Decide | src/subagents/research_supervisor.py:117-125 | The decide step appends exactly the reply, counts one iteration (from 0 when absent) and goes to the tool node |
| Supervisor.Dispatch | src/subagents/research_supervisor.py:154-258 | Raises exactly on an empty history or a last message that is not an assistant message (only those carry a `tool_calls` attribute); an assistant reply with an empty call list ends the loop. Loops back exactly when below the bound, with calls, without `ResearchComplete`, and the guarded block succeeds; then it adds the tool messages and raw notes. Every other path ends with the history's notes and the brief, and adds no messages |
| Supervisor.Round | src/subagents/research_supervisor.py:119-258 | A round raises exactly on a non-assistant reply. Otherwise it keeps the history with the reply appended, counts one iteration, and ends once the counter reaches 6 |
| Supervisor.EntersAtSupervisor | src/subagents/research_supervisor.py:284 | The graph's start leads to the decide step, and the table routes nothing else |
| Supervisor.RunIsBounded | src/subagents/research_supervisor.py:155-174 | Whatever the model replies, the loop ends within `6 - k` rounds (at least 1), counting one iteration per round. Assistant-only replies never crash it |
| Supervisor.RunWithIsBounded | src/subagents/research_supervisor.py:165-174 | The same bound for any round function that keeps the round contract |
| Supervisor.CompletionEndsRound | src/subagents/research_supervisor.py:167-250 | A reply calling `ResearchComplete` ends the loop in its round, whatever else it asks; the history gains only the reply, and the notes gain every earlier tool message's content |
| Supervisor.ReflectionRound | src/subagents/research_supervisor.py:178-199 | A reflection-only reply below the bound loops back, appending the reply and then one answer per reflection |
| Supervisor.ReflectionDispatch | src/subagents/research_supervisor.py:176-258 | The tool node on a reflection-only message loops back, with exactly the reflections' answers and no raw notes |
| Supervisor.ReflectThenComplete | src/subagents/research_supervisor.py:154-258 | A reflection round followed by a completion round finishes after 2 rounds, with the reflection as the only note |
| Worker.Apply | src/subagents/research_agent.py:19-23 | Messages and raw notes are extended by exactly the update's lists; a present summary replaces the old one; the unused counter and the topic never change |
| Worker.Decide | src/subagents/research_agent.py:49-55 | The model step appends exactly its reply and nothing else |
| Worker.Route | src/subagents/research_agent.py:126-139 | Raises exactly on an empty history or a non-assistant last message. Goes to the tool node exactly when the last message has tool calls, else to the summarizer |
| Worker.RouteSeesOnlyLastMessage | src/subagents/research_agent.py:128-139 | The router depends only on the last message, not on the history's length |
| Worker.Reach | src/subagents/research_agent.py:107-112 | Every call before the returned position runs, and the call at that position fails |
| Worker.Observe | src/subagents/research_agent.py:104-123 | Succeeds exactly when every call is registered and returns; then there is one tool message per call, same position, name and id. Otherwise it fails with the first failing call's error |
| Worker.ObserveAppend | src/subagents/research_agent.py:107-123 | Running two batches is running the first, then the second; the first failure wins |
| Worker.ReachAppend | src/subagents/research_agent.py:107-112 | The loop gets through `a + b` as far as through `a`, then as far as through `b` |
| Worker.ToolNode | src/subagents/research_agent.py:104-123 | Succeeds exactly on an assistant last message whose calls all run; then it adds only their answers |
| Worker.ToolNodePairsById | src/subagents/research_agent.py:115-121 | With unique ids, answers pair one-to-one with calls by position, name and id |
| Worker.NoteLines | src/subagents/research_agent.py:79-84 | At most one line per message, and exactly one per message when all are tool or assistant messages |
| Worker.NoteLinesAppend | src/subagents/research_agent.py:79-84 | Raw-note lines distribute over concatenation |
| Worker.NoteLinesOfOne | src/subagents/research_agent.py:79-84 | A tool or assistant message contributes its content as a string; any other message contributes nothing |
| Worker.ExcludedMessageIgnored | src/subagents/research_agent.py:79-84 | Inserting a human, system or other excluded message anywhere leaves the raw note unchanged |
| Worker.Summarize | src/subagents/research_agent.py:74-89 | The summary is the response as a string, plus exactly one raw note that joins the note lines with newlines; no messages |
| Worker.RouteFollowsEdges | src/subagents/research_agent.py:161-164 | The edge table is closed over the worker's nodes, and the router's answer is a key of its declared map and leads where it says |
| Worker.Step | src/subagents/research_agent.py:104-139 | A step raises exactly on a non-assistant reply or a failing tool. It heads for the summarizer exactly when the reply has no calls, having added only the reply; otherwise it adds the reply and the answers |
| Worker.RunEndsOnlyWithoutCalls | src/subagents/research_agent.py:126-164 | A finished run ended at the first reply without tool calls, every earlier reply asked for tools, and it added one raw note and the summary |
| Worker.RunWithEndsOnlyWithoutCalls | src/subagents/research_agent.py:126-164 | The same for any step function that keeps the step contract |
| Worker.NoIterationBound | src/subagents/research_agent.py:19-23 | A model that keeps asking for working tools never ends the loop, and the history grows by at least two messages per reply |
| Worker.RunWithNoIterationBound | src/subagents/research_agent.py:126-164 | The same for any step function that keeps the step contract |
| Macro.Apply | src/app.py:22-27 | The shared list and both buffers are extended by exactly the update's lists; present summaries replace the old ones and absent keys leave fields unchanged; the query never changes |
| Macro.ToBoth | src/app.py:233 | The tool node's update appends the same messages to the shared list and the phase's buffer, and leaves the summaries alone |
| Macro.PlannerContext | src/app.py:41-92 | A non-empty buffer is used as is, except that phase A raises `ValueError` when serialising a buffer that holds an unsupported message. An empty phase-A buffer is seeded with the query, and raises without one. An empty phase-B buffer is seeded with instructions built from the phase-A summary |
| Macro.FutureSeedReadsOnlySummary | src/app.py:74-83 | Phase B's seed depends only on the phase-A summary |
| Macro.Plan | src/app.py:59-92 | A planner step appends its reply to the shared list and to its own buffer, and nothing else |
| Macro.CompletionMessages | src/app.py:162-170 | One "Research Completed" tool message per `ResearchComplete` call, with the call's name and id |
| Macro.CompleteCallsPresent | src/app.py:157-162 | The short-circuit is taken exactly when some call is `ResearchComplete` |
| Macro.ToolAnswers | src/app.py:155-233 | A `ResearchComplete` call short-circuits to the completion answers. Otherwise the answers are the shared block's messages, and there are none exactly when it fails |
| Macro.AnswersSignalCompletion | src/app.py:157-233 | The answers end in a tool message signalling completion exactly when the reply called `ResearchComplete`, and are non-empty whenever it did |
| Macro.ToolNode | src/app.py:148-236 | Raises exactly on an empty buffer. A non-assistant last message or a failing block gives no update; otherwise the answers go to both lists |
| Macro.CompletionRunsNothing | src/app.py:157-170 | With a `ResearchComplete` call, the node's result does not depend on the reflection tool or on any delegated run |
| Macro.Route | src/app.py:239-266 | Raises on an empty view or on a last message that is neither an assistant nor a tool message. Goes to the summarizer exactly when that message signals completion, else back to the planner |
| Macro.FutureRouteIgnoresBuffer | src/app.py:254-266 | Phase B's router reads the shared list, never phase B's buffer |
| Macro.SummarizerInput | src/app.py:113-117 | The summarizer reads the phase's buffer between the system prompt and the request |
| Macro.Summarize | src/app.py:119-122 | The summarizer writes only its phase's summary, as the response's string, and no messages |
| Macro.EdgesWellFormed | src/app.py:294-300 | The edge table is closed over the six nodes |
| Macro.RouteFollowsEdges | src/app.py:296-299 | Each router's answer is a key of its declared map and leads where it says |
| Macro.ToolsEdge | src/app.py:296-299 | Each tool node's conditional edge maps both the summarizer and the planner to themselves |
| Macro.HandOver | src/app.py:297 | Phase A's summarizer leads to phase B's planner |
| Macro.FutureSummaryEnds | src/app.py:300 | Phase B's summarizer ends the run |
| Macro.PlannerThenTools | src/app.py:295-298 | Each planner leads to its own tool node |
| Macro.AfterToolsView | src/app.py:41-233 | A round on an assistant reply raises exactly when the planner does: in phase A, with an empty buffer and no query, or with a buffer holding an unsupported message. Otherwise the router sees the reply followed by the tool node's answers |
| Macro.RoundRoutes | src/app.py:41-266 | A round succeeds exactly when the planner can build its conversation, including serialising a phase-A buffer (see `Macro.PlannerContext`). Then, with no iteration counter, the phase goes to its summarizer exactly when the reply called `ResearchComplete`, and back to its planner otherwise, however the tools behave |
| Macro.RouteAfterAnswers | src/app.py:239-266 | The router's answer after a reply and its answers depends only on whether the reply called `ResearchComplete` |
| Scope.Apply | src/subagents/scope_system.py:15-16 | The history is extended by exactly the update's messages; a present flag replaces the old one and an absent flag is kept |
| Scope.Prompt | src/subagents/scope_system.py:47 | Serialising the history for a prompt fails exactly when it holds an unsupported message, with `ValueError`. The library serialiser used here renders no tool calls, and the prompt text itself is not modelled |
| Scope.Clarify | src/subagents/scope_system.py:43-55 | The clarifier raises exactly when the history cannot be serialised; otherwise its update has exactly one assistant message, the dump of the analysis, and copies the analysis's flag |
| Scope.WriteBrief | src/subagents/scope_system.py:68-79 | The brief writer raises exactly when the history cannot be serialised; otherwise its update has exactly one assistant message and no other field |
| Scope.CheckClarity | src/subagents/scope_system.py:82-84 | Writes the brief exactly when the flag is present and true; otherwise ends |
| Scope.GateFollowsEdges | src/subagents/scope_system.py:102-104 | Start leads to the clarifier, the gate's answer is a key of its map and leads where it says, and the brief writer ends the graph |
| Scope.GateFollowsAnalysis | src/subagents/scope_system.py:43-104 | A scoping run raises exactly when the incoming history holds an unsupported message (the clarifier's own message never trips the brief writer). Otherwise it writes a brief exactly when the analysis says the topic is clear, whatever flag the state held before, with one message per step taken |
| Utils.AttachedParts | src/utils.py:30-34 | Three lines per attached call (header with name, arguments, id) at positions `3i` to `3i+2` |
| Utils.TextBlocksShowTexts | src/utils.py:18-20 | Text-only list content shows exactly its texts, in order |
| Utils.BlockPartsAppend | src/utils.py:16-25 | Block parts distribute over concatenation |
| Utils.FormatMessageContent | src/utils.py:8-36 | Raises exactly when list content holds a bare string, whose `type` lookup fails; string content with no attached calls is shown unchanged. `Utils.TextBlocksShowTexts`, `Utils.ToolUseHidesAttachedCalls` and `Utils.AttachedCallsFollowContent` state the rest of its contract |
| Utils.ToolUseHidesAttachedCalls | src/utils.py:21-30 | A tool_use block hides the attached calls: the message is shown as if it had none |
| Utils.AttachedCallsFollowContent | src/utils.py:29-36 | Without a tool_use block, the attached calls follow the content on their own lines |
| Utils.Role | src/utils.py:118-132 | Every message class has a role prefix except the unsupported ones |
| Utils.Lines | src/utils.py:116-138 | Succeeds exactly when every message is supported, with one line per message in order; otherwise raises `ValueError` |
| Utils.GetBufferString | src/utils.py:88-140 | Empty history gives ""; one message gives its line; any unsupported message raises |
| Utils.BufferOfConcat | src/utils.py:138-140 | Serialising two non-empty histories in sequence is serialising each and joining them with one newline |
| Utils.UnsupportedAnywhereFails | src/utils.py:130-132 | An unsupported message anywhere makes the whole serialisation fail |
| Utils.ExchangeRendersEmptyCallList | src/utils.py:104-137 | A question and its answer serialise with the empty tool-call list's rendering after the answer, which the documented example leaves out |

## Left out

- Language-model calls, prompt formatting, `get_today_str` (the wall clock) and the tools' own behaviour: replies, tool results and prompts are parameters.
- Concurrency. `asyncio.gather` becomes an index-aligned list; `nest_asyncio` setup is environment-specific.
- I/O. The summary files written under `data/` (src/app.py:219-223), the Rich console printers and `print` diagnostics are not modelled.
- `json.dumps`, Python's `repr` of tool calls and of list content, and `str(...)` of non-string content are opaque functions.
- LangGraph internals: message replacement by id in `add_messages`, compile configuration and recursion limits. Appending is the model.
- The in-place seeding of an empty planner buffer (src/app.py:43-44, 74-83) mutates the state the library passed in. Whether that mutation persists depends on the library. `Macro.PlannerContext` models what the planner reads, and the round lemmas do not assume the seed persists.
- Macro.ToolNode: the caught exception's message is not modelled. Any failure in the guarded block is one `None`.
- Utils.GetBufferString: the error text omits the rendering of the offending message, which is opaque.
- `format_message_content`'s third content shape (neither string nor list, src/utils.py:26-27) cannot arise with the two content shapes modelled. Bare strings inside list content are modelled.
- src/subagents/research_system.py only wires the scope gate in front of a lead agent that is not part of this model. Its router is `check_clarity`, covered by `Scope`.
- The graph-builder classes (`Supervisor`, `ResearchAgent`, `MacroAgent`, `ScopeSystem`) are modelled only through their edge tables.
