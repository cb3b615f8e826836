/** The two-phase macro-economic planner.  Phase A studies the current
    state, phase B the future events.  Each phase is a planner step, a tool
    node and a router that either loops back to the planner or hands over
    to the phase's summarizer.  Each phase keeps its own message buffer
    next to the shared `messages` list.  There is no iteration counter: a
    phase ends only when the planner calls ResearchComplete. */
module Macro {
  import opened Common
  import opened Messages
  import opened ToolDispatch
  import Graph
  import Utils

  /** Content of the tool message answering a ResearchComplete call. */
  const ResearchCompleted := "Research Completed"

  datatype Phase = CurrentState | FutureEvents

  function PlannerNode(p: Phase): string {
    match p
    case CurrentState => "current_state"
    case FutureEvents => "future_events"
  }

  function ToolsNode(p: Phase): string {
    match p
    case CurrentState => "current_state_tools"
    case FutureEvents => "future_events_tools"
  }

  function SummarizerNode(p: Phase): string {
    match p
    case CurrentState => "current_state_summarizer"
    case FutureEvents => "future_events_summarizer"
  }

  /** `MacroAgentState`.  The two buffers default to empty lists. */
  datatype State = State(
    messages: seq<Message>,
    userQuery: Option<string>,
    currentStateMessages: seq<Message>,
    currentStateSummary: Option<string>,
    futureEventsMessages: seq<Message>,
    futureEventsSummary: Option<string>)

  /** A partial update; `None` means the key is absent. */
  datatype Update = Update(
    messages: Option<seq<Message>>,
    currentStateMessages: Option<seq<Message>>,
    currentStateSummary: Option<string>,
    futureEventsMessages: Option<seq<Message>>,
    futureEventsSummary: Option<string>)

  const NoUpdate := Update(None, None, None, None, None)

  /** The three message lists append; the two summaries are replaced. */
  function Apply(s: State, u: Update): (r: State)
    ensures s.messages <= r.messages
    ensures s.currentStateMessages <= r.currentStateMessages
    ensures s.futureEventsMessages <= r.futureEventsMessages
    ensures u.messages.None? ==> r.messages == s.messages
    ensures u.currentStateMessages.None? ==> r.currentStateMessages == s.currentStateMessages
    ensures u.futureEventsMessages.None? ==> r.futureEventsMessages == s.futureEventsMessages
    ensures u.currentStateSummary.None? ==> r.currentStateSummary == s.currentStateSummary
    ensures u.futureEventsSummary.None? ==> r.futureEventsSummary == s.futureEventsSummary
    ensures r.userQuery == s.userQuery
    ensures r.messages == s.messages + u.messages.GetOr([])
    ensures r.currentStateMessages == s.currentStateMessages + u.currentStateMessages.GetOr([])
    ensures r.futureEventsMessages == s.futureEventsMessages + u.futureEventsMessages.GetOr([])
    ensures u.currentStateSummary.Some? ==> r.currentStateSummary == u.currentStateSummary
    ensures u.futureEventsSummary.Some? ==> r.futureEventsSummary == u.futureEventsSummary
  {
    State(
      s.messages + u.messages.GetOr([]),
      s.userQuery,
      s.currentStateMessages + u.currentStateMessages.GetOr([]),
      if u.currentStateSummary.Some? then u.currentStateSummary else s.currentStateSummary,
      s.futureEventsMessages + u.futureEventsMessages.GetOr([]),
      if u.futureEventsSummary.Some? then u.futureEventsSummary else s.futureEventsSummary)
  }

  /** The phase's own buffer (`messages_key`). */
  function Buffer(s: State, p: Phase): seq<Message> {
    match p
    case CurrentState => s.currentStateMessages
    case FutureEvents => s.futureEventsMessages
  }

  /** An update writing the same messages to the shared list and to the
      phase's buffer, and nothing else. */
  function ToBoth(p: Phase, msgs: seq<Message>): (u: Update)
    ensures forall s: State :: (var r := Apply(s, u);
      && r.messages == s.messages + msgs
      && Buffer(r, p) == Buffer(s, p) + msgs
      && r.currentStateSummary == s.currentStateSummary
      && r.futureEventsSummary == s.futureEventsSummary)
  {
    match p
    case CurrentState => NoUpdate.(messages := Some(msgs), currentStateMessages := Some(msgs))
    case FutureEvents => NoUpdate.(messages := Some(msgs), futureEventsMessages := Some(msgs))
  }

  /** The conversation a planner step works from.  Phase A seeds an empty
      buffer with the user's query (a missing query cannot make a human
      message); phase B seeds an empty buffer with its instructions, which
      embed the phase-A summary.  A non-empty buffer is used as it is, but
      phase A first serialises it into its prompt with
      `Utils.GetBufferString`, which raises on an unsupported message (the
      seeded human message always serialises). */
  function PlannerContext(s: State, p: Phase, futurePrompt: Option<string> -> string): (r: Result<seq<Message>>)
    ensures |Buffer(s, p)| > 0 && (p == FutureEvents || Utils.AllSupported(Buffer(s, p))) ==>
      r == Ok(Buffer(s, p))
    ensures |Buffer(s, p)| > 0 && p == CurrentState && !Utils.AllSupported(Buffer(s, p)) ==>
      r == Err(Utils.UnsupportedError)
    ensures |Buffer(s, p)| == 0 && p == CurrentState ==>
      (r.Ok? <==> s.userQuery.Some?) && (r.Ok? ==> r.value == [Human(Text(s.userQuery.value))])
    ensures |Buffer(s, p)| == 0 && p == FutureEvents ==>
      r == Ok([Human(Text(futurePrompt(s.currentStateSummary)))])
  {
    if |Buffer(s, p)| > 0 then
      if p == CurrentState && !Utils.AllSupported(Buffer(s, p)) then Err(Utils.UnsupportedError)
      else Ok(Buffer(s, p))
    else
      match p
      case CurrentState =>
        if s.userQuery.Some? then Ok([Human(Text(s.userQuery.value))])
        else Err("ValidationError: message content is None")
      case FutureEvents => Ok([Human(Text(futurePrompt(s.currentStateSummary)))])
  }

  /** Phase B's seed depends on the phase-A summary alone: the shared list,
      the query and the phase-A buffer do not reach it. */
  lemma FutureSeedReadsOnlySummary(s: State, t: State, futurePrompt: Option<string> -> string)
    requires |s.futureEventsMessages| == 0 && |t.futureEventsMessages| == 0
    requires s.currentStateSummary == t.currentStateSummary
    ensures PlannerContext(s, FutureEvents, futurePrompt) == PlannerContext(t, FutureEvents, futurePrompt)
  {
  }

  /** `GetCurrentState` / `GetFutureEvents`: the model's reply goes to the
      shared list and to the phase's buffer. */
  function Plan(p: Phase, reply: Message): (u: Update)
    ensures forall s: State :: (var r := Apply(s, u);
      && r.messages == s.messages + [reply]
      && Buffer(r, p) == Buffer(s, p) + [reply]
      && r.currentStateSummary == s.currentStateSummary
      && r.futureEventsSummary == s.futureEventsSummary)
  {
    ToBoth(p, [reply])
  }

  /** One "Research Completed" answer per ResearchComplete call. */
  function CompletionMessages(calls: seq<ToolCall>): (r: seq<Message>)
    ensures |r| == |calls|
    ensures forall i :: 0 <= i < |calls| ==>
      r[i] == Tool(Text(ResearchCompleted), calls[i].name, calls[i].id)
  {
    seq(|calls|, i requires 0 <= i < |calls| => Tool(Text(ResearchCompleted), calls[i].name, calls[i].id))
  }

  function CompleteCalls(calls: seq<ToolCall>): seq<ToolCall> {
    CallsNamed(calls, ResearchComplete)
  }

  /** The filter finds a ResearchComplete call exactly when there is one. */
  lemma CompleteCallsPresent(calls: seq<ToolCall>)
    ensures |CompleteCalls(calls)| > 0 <==> AnyNamed(calls, ResearchComplete)
  {
    if |CompleteCalls(calls)| > 0 {
      var c := CompleteCalls(calls)[0];
      assert c in calls && c.name == ResearchComplete;
    }
    if AnyNamed(calls, ResearchComplete) {
      var i :| 0 <= i < |calls| && calls[i].name == ResearchComplete;
      assert calls[i] in CompleteCalls(calls);
    }
  }

  /** The guarded block of the tool node for the calls of the last
      message: `None` when a reflection or a delegation fails.  A reply that
      calls ResearchComplete is answered with "Research Completed" messages
      and nothing runs; otherwise the reflections and delegations run as in
      the supervisor. */
  function ToolAnswers(calls: seq<ToolCall>, think: ToolCall -> Option<string>,
                       gathered: seq<Option<ResearchResult>>): (r: Option<seq<Message>>)
    requires |gathered| == |ResearchCalls(calls)|
    ensures |CompleteCalls(calls)| > 0 ==> r == Some(CompletionMessages(CompleteCalls(calls)))
    ensures |CompleteCalls(calls)| == 0 ==>
      (r.Some? <==> Execute(calls, think, gathered).Some?) &&
      (r.Some? ==> r.value == Execute(calls, think, gathered).value.messages)
  {
    var complete := CompleteCalls(calls);
    if |complete| > 0 then Some(CompletionMessages(complete))
    else
      match Execute(calls, think, gathered)
      case None => None
      case Some(out) => Some(out.messages)
  }

  /** The answers end in a tool message that signals completion exactly
      when the reply called ResearchComplete, and there is at least one
      answer whenever it did. */
  predicate EndsInSignal(calls: seq<ToolCall>, out: seq<Message>) {
    && (AnyNamed(calls, ResearchComplete) ==> |out| > 0)
    && (|out| > 0 ==> out[|out| - 1].Tool?)
    && (|out| > 0 ==> (SignalsCompletion(out[|out| - 1]) <==> AnyNamed(calls, ResearchComplete)))
  }

  lemma AnswersSignalCompletion(calls: seq<ToolCall>, think: ToolCall -> Option<string>,
                                gathered: seq<Option<ResearchResult>>)
    requires |gathered| == |ResearchCalls(calls)|
    ensures EndsInSignal(calls, ToolAnswers(calls, think, gathered).GetOr([]))
  {
    CompleteCallsPresent(calls);
    if |CompleteCalls(calls)| == 0 && Execute(calls, think, gathered).Some? {
      ExecuteAnswersOnlyTwoTools(calls, think, gathered);
    }
  }

  /** `ToolNode.__call__` for a phase.  An empty buffer raises before the
      guarded block.  Inside it, a last message without `tool_calls` or a
      failing reflection or delegation is caught and the node returns no
      update (`None`).  The answers go to the shared list and to the
      phase's buffer. */
  function ToolNode(s: State, p: Phase, think: ToolCall -> Option<string>,
                    gathered: seq<Option<ResearchResult>>): (r: Result<Option<Update>>)
    requires |gathered| == |ResearchCalls(PendingCalls(Buffer(s, p)))|
    ensures r.Err? <==> |Buffer(s, p)| == 0
    ensures r.Ok? && !Buffer(s, p)[|Buffer(s, p)| - 1].AI? ==> r.value.None?
    ensures r.Ok? && Buffer(s, p)[|Buffer(s, p)| - 1].AI? ==>
      var calls := Buffer(s, p)[|Buffer(s, p)| - 1].toolCalls;
      && (r.value.Some? <==> ToolAnswers(calls, think, gathered).Some?)
      && (r.value.Some? ==> r.value.value == ToBoth(p, ToolAnswers(calls, think, gathered).value))
  {
    match LastOf(Buffer(s, p))
    case None => Err("IndexError: list index out of range")
    case Some(last) =>
      match ToolCallsOf(last)
      case None => Ok(None)
      case Some(calls) =>
        match ToolAnswers(calls, think, gathered)
        case None => Ok(None)
        case Some(out) => Ok(Some(ToBoth(p, out)))
  }

  /** A ResearchComplete call short-circuits: the node's answer does not
      depend on the reflection tool or on any delegated run. */
  lemma CompletionRunsNothing(s: State, p: Phase, think1: ToolCall -> Option<string>, think2: ToolCall -> Option<string>,
                              gathered1: seq<Option<ResearchResult>>, gathered2: seq<Option<ResearchResult>>)
    requires |gathered1| == |ResearchCalls(PendingCalls(Buffer(s, p)))|
    requires |gathered2| == |ResearchCalls(PendingCalls(Buffer(s, p)))|
    requires |Buffer(s, p)| > 0 && Buffer(s, p)[|Buffer(s, p)| - 1].AI?
    requires AnyNamed(Buffer(s, p)[|Buffer(s, p)| - 1].toolCalls, ResearchComplete)
    ensures ToolNode(s, p, think1, gathered1) == ToolNode(s, p, think2, gathered2)
    ensures ToolNode(s, p, think1, gathered1).Ok? && ToolNode(s, p, think1, gathered1).value.Some?
  {
    var calls := Buffer(s, p)[|Buffer(s, p)| - 1].toolCalls;
    var i :| 0 <= i < |calls| && calls[i].name == ResearchComplete;
    assert calls[i] in CompleteCalls(calls);
    assert ToolAnswers(calls, think1, gathered1) == ToolAnswers(calls, think2, gathered2);
  }

  /** `continue_current_state_search_or_pass_to_future_events_search` and
      `continue_future_events_search_or_end`.  Phase A inspects its own
      buffer, phase B the shared `messages` list.  An empty list raises;
      a last message that is neither an assistant nor a tool message leaves
      `path` unbound, which raises too. */
  function RouterView(s: State, p: Phase): seq<Message> {
    match p
    case CurrentState => s.currentStateMessages
    case FutureEvents => s.messages
  }

  /** Whether a message is the planner signalling completion, or the
      answer to such a signal. */
  predicate SignalsCompletion(m: Message) {
    (m.AI? && exists i :: 0 <= i < |m.toolCalls| && m.toolCalls[i].name == ResearchComplete)
    || (m.Tool? && m.name == ResearchComplete)
  }

  function Route(s: State, p: Phase): (r: Result<string>)
    ensures r.Err? <==>
      |RouterView(s, p)| == 0 ||
      !(RouterView(s, p)[|RouterView(s, p)| - 1].AI? || RouterView(s, p)[|RouterView(s, p)| - 1].Tool?)
    ensures r.Ok? ==> r.value == SummarizerNode(p) || r.value == PlannerNode(p)
    ensures r.Ok? ==>
      (r.value == SummarizerNode(p) <==> SignalsCompletion(RouterView(s, p)[|RouterView(s, p)| - 1]))
  {
    match LastOf(RouterView(s, p))
    case None => Err("IndexError: list index out of range")
    case Some(last) =>
      if last.AI? then
        (if AnyNamed(last.toolCalls, ResearchComplete) then Ok(SummarizerNode(p)) else Ok(PlannerNode(p)))
      else if last.Tool? then
        (if last.name == ResearchComplete then Ok(SummarizerNode(p)) else Ok(PlannerNode(p)))
      else Err("UnboundLocalError: path")
  }

  /** Phase B's router never looks at phase B's buffer. */
  lemma FutureRouteIgnoresBuffer(s: State, buffer: seq<Message>)
    ensures Route(s, FutureEvents) == Route(s.(futureEventsMessages := buffer), FutureEvents)
  {
  }

  /** `Summarizer.__call__`: the model reads the phase's buffer between the
      two fixed prompts and its reply, as a string, becomes that phase's
      summary; nothing else is written. */
  function SummarizerInput(s: State, p: Phase, system: string, request: string): (r: seq<Message>)
    ensures |r| == |Buffer(s, p)| + 2
    ensures r[0] == System(Text(system)) && r[|r| - 1] == Human(Text(request))
    ensures r[1..|r| - 1] == Buffer(s, p)
  {
    [System(Text(system))] + Buffer(s, p) + [Human(Text(request))]
  }

  function Summarize(p: Phase, response: Content, repr: seq<Block> -> string): (u: Update)
    ensures forall s: State :: (var r := Apply(s, u);
      && r.messages == s.messages
      && r.currentStateMessages == s.currentStateMessages
      && r.futureEventsMessages == s.futureEventsMessages
      && (p == CurrentState ==> r.currentStateSummary == Some(Str(response, repr)) && r.futureEventsSummary == s.futureEventsSummary)
      && (p == FutureEvents ==> r.futureEventsSummary == Some(Str(response, repr)) && r.currentStateSummary == s.currentStateSummary))
  {
    match p
    case CurrentState => NoUpdate.(currentStateSummary := Some(Str(response, repr)))
    case FutureEvents => NoUpdate.(futureEventsSummary := Some(Str(response, repr)))
  }

  /** The macro graph. */
  const Edges: Graph.Table := [
    Graph.Direct(Graph.Start, "current_state"),
    Graph.Direct("current_state", "current_state_tools"),
    Graph.Branch("current_state_tools",
      map["current_state_summarizer" := "current_state_summarizer", "current_state" := "current_state"]),
    Graph.Direct("current_state_summarizer", "future_events"),
    Graph.Direct("future_events", "future_events_tools"),
    Graph.Branch("future_events_tools",
      map["future_events_summarizer" := "future_events_summarizer", "future_events" := "future_events"]),
    Graph.Direct("future_events_summarizer", Graph.End)
  ]

  const Nodes := {"current_state", "current_state_tools", "current_state_summarizer",
                  "future_events", "future_events_tools", "future_events_summarizer"}

  /** The table is closed over the six nodes. */
  lemma EdgesWellFormed()
    ensures Graph.WellFormed(Edges, Nodes)
  {
  }

  /** Each router's answer is a key of its declared map and leads where it
      says. */
  lemma RouteFollowsEdges(s: State, p: Phase)
    ensures Route(s, p).Ok? ==> Graph.Next(Edges, ToolsNode(p), Some(Route(s, p).value)) == Ok(Route(s, p).value)
  {
    ToolsEdge(p);
  }

  /** The conditional edge leaving a phase's tool node. */
  lemma ToolsEdge(p: Phase)
    ensures var e := Graph.EdgeFrom(Edges, ToolsNode(p));
      && e.Some? && e.value.Branch?
      && SummarizerNode(p) in e.value.targets && e.value.targets[SummarizerNode(p)] == SummarizerNode(p)
      && PlannerNode(p) in e.value.targets && e.value.targets[PlannerNode(p)] == PlannerNode(p)
  {
    if p == CurrentState {
      Graph.EdgeFromFirst(Edges, ToolsNode(p), 2);
    } else {
      Graph.EdgeFromFirst(Edges, ToolsNode(p), 5);
    }
  }

  /** Phase A's summarizer hands over to phase B's planner. */
  lemma HandOver()
    ensures Graph.Next(Edges, SummarizerNode(CurrentState), None) == Ok(PlannerNode(FutureEvents))
  {
    Graph.EdgeFromFirst(Edges, SummarizerNode(CurrentState), 3);
  }

  /** Phase B's summarizer ends the run. */
  lemma FutureSummaryEnds()
    ensures Graph.Next(Edges, SummarizerNode(FutureEvents), None) == Ok(Graph.End)
  {
    Graph.EdgeFromFirst(Edges, SummarizerNode(FutureEvents), 6);
  }

  /** Each planner leads to its tool node. */
  lemma PlannerThenTools(p: Phase)
    ensures Graph.Next(Edges, PlannerNode(p), None) == Ok(ToolsNode(p))
  {
    if p == CurrentState {
      Graph.EdgeFromFirst(Edges, PlannerNode(p), 1);
    } else {
      Graph.EdgeFromFirst(Edges, PlannerNode(p), 4);
    }
  }

  /** The state after one planner step and one tool-node step of a phase.
      The planner raises when it cannot build its conversation; a node that
      caught an exception leaves the state as it was. */
  function AfterTools(s: State, p: Phase, reply: Message, futurePrompt: Option<string> -> string,
                      think: ToolCall -> Option<string>,
                      research: ToolCall -> Option<ResearchResult>): Result<State>
  {
    match PlannerContext(s, p, futurePrompt)
    case Err(e) => Err(e)
    case Ok(_) =>
      var s1 := Apply(s, Plan(p, reply));
      match ToolNode(s1, p, think, Gather(ResearchCalls(PendingCalls(Buffer(s1, p))), research))
      case Err(e) => Err(e)
      case Ok(None) => Ok(s1)
      case Ok(Some(u)) => Ok(Apply(s1, u))
  }

  /** A round on an assistant reply raises only where the planner does: in
      phase A, with an empty buffer and no query or with a buffer holding
      an unsupported message.  Otherwise the router sees
      the reply followed by the tool node's answers (none when the node
      caught an exception). */
  lemma AfterToolsView(s: State, p: Phase, reply: Message, futurePrompt: Option<string> -> string,
                       think: ToolCall -> Option<string>, research: ToolCall -> Option<ResearchResult>)
    requires reply.AI?
    ensures AfterTools(s, p, reply, futurePrompt, think, research).Err? <==>
      p == CurrentState &&
      ((|Buffer(s, p)| == 0 && s.userQuery.None?) || !Utils.AllSupported(Buffer(s, p)))
    ensures AfterTools(s, p, reply, futurePrompt, think, research).Ok? ==>
      RouterView(AfterTools(s, p, reply, futurePrompt, think, research).value, p) ==
      RouterView(s, p) + [reply] +
        ToolAnswers(reply.toolCalls, think, Gather(ResearchCalls(reply.toolCalls), research)).GetOr([])
  {
    var s1 := Apply(s, Plan(p, reply));
    assert Buffer(s1, p)[|Buffer(s1, p)| - 1] == reply;
    assert RouterView(s1, p) == RouterView(s, p) + [reply];
    var answers := ToolAnswers(reply.toolCalls, think, Gather(ResearchCalls(reply.toolCalls), research));
    if answers.None? {
      assert RouterView(s, p) + [reply] + [] == RouterView(s, p) + [reply];
    }
  }

  /** There is no iteration counter: once the planner could build its
      conversation, and however the tools behave, a phase hands over to its
      summarizer after a round exactly when the planner's reply called
      ResearchComplete, and loops back to its planner otherwise, including
      for a reply with no calls. */
  lemma RoundRoutes(s: State, p: Phase, reply: Message, futurePrompt: Option<string> -> string,
                    think: ToolCall -> Option<string>, research: ToolCall -> Option<ResearchResult>)
    requires reply.AI?
    ensures AfterTools(s, p, reply, futurePrompt, think, research).Ok? <==>
      PlannerContext(s, p, futurePrompt).Ok?
    ensures AfterTools(s, p, reply, futurePrompt, think, research).Ok? ==>
      Route(AfterTools(s, p, reply, futurePrompt, think, research).value, p) ==
      Ok(if AnyNamed(reply.toolCalls, ResearchComplete) then SummarizerNode(p) else PlannerNode(p))
  {
    AfterToolsView(s, p, reply, futurePrompt, think, research);
    var r := AfterTools(s, p, reply, futurePrompt, think, research);
    if r.Ok? {
      var gathered := Gather(ResearchCalls(reply.toolCalls), research);
      AnswersSignalCompletion(reply.toolCalls, think, gathered);
      RouteAfterAnswers(r.value, p, RouterView(s, p), reply,
                        ToolAnswers(reply.toolCalls, think, gathered).GetOr([]));
    }
  }

  /** The router's answer when the reply is followed by answers that end in
      a completion signal exactly when the reply called ResearchComplete. */
  lemma RouteAfterAnswers(s: State, p: Phase, before: seq<Message>, reply: Message, out: seq<Message>)
    requires reply.AI? && EndsInSignal(reply.toolCalls, out)
    requires RouterView(s, p) == before + [reply] + out
    ensures Route(s, p) ==
      Ok(if AnyNamed(reply.toolCalls, ResearchComplete) then SummarizerNode(p) else PlannerNode(p))
  {
    var view := RouterView(s, p);
    if |out| > 0 {
      assert view[|view| - 1] == out[|out| - 1];
    } else {
      assert view[|view| - 1] == reply;
    }
  }
}
