/** The research worker: a model step that appends one reply, a router that
    sends a reply with tool calls to the tool node and anything else to the
    summarizer, a tool node that runs every requested tool in turn, and a
    summarizer that compresses the conversation.  The loop between the
    model step and the tool node has no bound of its own. */
module Worker {
  import opened Common
  import opened Messages
  import Graph

  const LlmCallNode := "llm_call"
  const ToolNodeName := "tool_node"
  const SummarizeNode := "summarize_research"

  /** `ResearchAgentState`.  `number_of_tool_calls` is declared but no node
      reads or writes it. */
  datatype State = State(
    messages: seq<Message>,
    numberOfToolCalls: Option<int>,
    researchTopic: Option<string>,
    researchSummary: Option<string>,
    rawNotes: seq<string>)

  /** The keys a worker node may return; `None` means absent. */
  datatype Update = Update(
    messages: Option<seq<Message>>,
    researchSummary: Option<string>,
    rawNotes: Option<seq<string>>)

  /** `messages` appends, `raw_notes` concatenates, the summary is replaced. */
  function Apply(s: State, u: Update): (r: State)
    ensures s.messages <= r.messages && s.rawNotes <= r.rawNotes
    ensures u.messages.None? ==> r.messages == s.messages
    ensures u.rawNotes.None? ==> r.rawNotes == s.rawNotes
    ensures u.researchSummary.None? ==> r.researchSummary == s.researchSummary
    ensures r.numberOfToolCalls == s.numberOfToolCalls && r.researchTopic == s.researchTopic
    ensures r.messages == s.messages + u.messages.GetOr([])
    ensures r.rawNotes == s.rawNotes + u.rawNotes.GetOr([])
    ensures u.researchSummary.Some? ==> r.researchSummary == u.researchSummary
  {
    s.(messages := s.messages + u.messages.GetOr([]),
       researchSummary := if u.researchSummary.Some? then u.researchSummary else s.researchSummary,
       rawNotes := s.rawNotes + u.rawNotes.GetOr([]))
  }

  /** `LLMCall.__call__`: the model's reply is the only thing returned. */
  function Decide(reply: Message): (u: Update)
    ensures forall s: State :: Apply(s, u) == s.(messages := s.messages + [reply])
  {
    Update(Some([reply]), None, None)
  }

  /** `route_research`.  Reading `messages[-1]` on an empty history, or
      `tool_calls` on a message that is not an assistant message, raises.
      The long-history branch answers like the default branch. */
  function Route(s: State): (r: Result<string>)
    ensures r.Err? <==> |s.messages| == 0 || !s.messages[|s.messages| - 1].AI?
    ensures r.Ok? ==> (r.value == ToolNodeName <==> |s.messages[|s.messages| - 1].toolCalls| > 0)
    ensures r.Ok? ==> r.value == ToolNodeName || r.value == SummarizeNode
  {
    match LastOf(s.messages)
    case None => Err("IndexError: list index out of range")
    case Some(last) =>
      match ToolCallsOf(last)
      case None => Err("AttributeError: message has no tool_calls")
      case Some(calls) =>
        if |calls| > 0 then Ok(ToolNodeName)
        else if |s.messages| > 6 then Ok(SummarizeNode)
        else Ok(SummarizeNode)
  }

  /** The router looks only at the last message: neither the length of the
      history nor the unused tool-call counter changes its answer. */
  lemma RouteSeesOnlyLastMessage(s: State, t: State)
    requires |s.messages| > 0 && |t.messages| > 0
    requires s.messages[|s.messages| - 1] == t.messages[|t.messages| - 1]
    ensures Route(s) == Route(t)
  {
  }

  /** The registry: `tools_by_name`, each tool a function of the call's
      arguments that yields its observation, or `None` when it raises. */
  type Tools = map<string, Args -> Option<string>>

  /** What invoking the registered tool on the call's arguments yields;
      `None` also when nothing is registered under the call's name. */
  function Invoke(tools: Tools, c: ToolCall): Option<string> {
    if c.name in tools then tools[c.name](c.args) else None
  }

  /** The tool message answering a call that ran. */
  function Answer(tools: Tools, c: ToolCall): Message {
    Tool(Text(Invoke(tools, c).GetOr("")), c.name, c.id)
  }

  /** Whether one call gets through lookup and invocation. */
  predicate Runs(tools: Tools, c: ToolCall) {
    c.name in tools && Invoke(tools, c).Some?
  }

  /** The exception the first failing call raises: a name missing from the
      registry fails at lookup, before anything is invoked. */
  function Failure(tools: Tools, c: ToolCall): string {
    if c.name !in tools then "KeyError: " + c.name else "tool " + c.name + " raised"
  }

  /** Every call gets through lookup and invocation. */
  predicate AllRun(tools: Tools, calls: seq<ToolCall>) {
    forall i :: 0 <= i < |calls| ==> Runs(tools, calls[i])
  }

  /** Call `i` is the first one that fails. */
  predicate FailsFirstAt(tools: Tools, calls: seq<ToolCall>, i: int) {
    0 <= i < |calls| && !Runs(tools, calls[i]) && AllRun(tools, calls[..i])
  }

  /** `out` answers `calls` position by position. */
  predicate Answers(tools: Tools, calls: seq<ToolCall>, out: seq<Message>) {
    |out| == |calls| && forall i :: 0 <= i < |calls| ==> out[i] == Answer(tools, calls[i])
  }

  /** How far the loop of `ToolNode.__call__` gets: the position of the
      first call that fails, or the number of calls when none does. */
  function Reach(tools: Tools, calls: seq<ToolCall>): (n: nat)
    ensures n <= |calls|
    ensures AllRun(tools, calls[..n])
    ensures n < |calls| ==> !Runs(tools, calls[n])
  {
    if |calls| == 0 then 0
    else if !Runs(tools, calls[0]) then 0
    else
      var n := 1 + Reach(tools, calls[1..]);
      assert calls[..n] == [calls[0]] + calls[1..][..n - 1];
      n
  }

  /** The loop of `ToolNode.__call__`: the calls are looked up and invoked
      in request order, the first failing call aborts the node with its
      exception, and otherwise every call is answered by one tool message
      carrying its name and id. */
  function Observe(tools: Tools, calls: seq<ToolCall>): (r: Result<seq<Message>>)
    ensures r.Ok? <==> AllRun(tools, calls)
    ensures r.Ok? ==> Answers(tools, calls, r.value)
    ensures r.Err? ==> exists i :: FailsFirstAt(tools, calls, i) && r.error == Failure(tools, calls[i])
  {
    var n := Reach(tools, calls);
    if n < |calls| then
      assert FailsFirstAt(tools, calls, n);
      Err(Failure(tools, calls[n]))
    else
      assert calls[..n] == calls;
      Ok(seq(|calls|, i requires 0 <= i < |calls| => Answer(tools, calls[i])))
  }

  /** Running two batches of calls is running the first, then the second;
      a failure in the first keeps the second from running at all. */
  lemma ObserveAppend(tools: Tools, a: seq<ToolCall>, b: seq<ToolCall>)
    ensures Observe(tools, a).Err? ==> Observe(tools, a + b) == Observe(tools, a)
    ensures Observe(tools, a).Ok? && Observe(tools, b).Err? ==> Observe(tools, a + b) == Observe(tools, b)
    ensures Observe(tools, a).Ok? && Observe(tools, b).Ok? ==>
      Observe(tools, a + b) == Ok(Observe(tools, a).value + Observe(tools, b).value)
  {
    if Observe(tools, a).Err? {
      FirstFailureInPrefix(tools, a, b);
    } else if Observe(tools, b).Err? {
      FirstFailureInSuffix(tools, a, b);
    } else {
      BothBatchesRun(tools, a, b);
    }
  }

  /** The loop gets through `a + b` exactly as far as through `a`, and
      when it gets through all of `a`, on as far as through `b`. */
  lemma {:induction false} ReachAppend(tools: Tools, a: seq<ToolCall>, b: seq<ToolCall>)
    ensures Reach(tools, a + b) ==
      if Reach(tools, a) < |a| then Reach(tools, a) else |a| + Reach(tools, b)
    decreases |a|
  {
    if |a| == 0 {
      assert a + b == b;
    } else {
      assert (a + b)[0] == a[0] && (a + b)[1..] == a[1..] + b;
      ReachAppend(tools, a[1..], b);
    }
  }

  lemma FirstFailureInPrefix(tools: Tools, a: seq<ToolCall>, b: seq<ToolCall>)
    requires Observe(tools, a).Err?
    ensures Observe(tools, a + b) == Observe(tools, a)
  {
    ReachAppend(tools, a, b);
    assert (a + b)[Reach(tools, a)] == a[Reach(tools, a)];
  }

  lemma FirstFailureInSuffix(tools: Tools, a: seq<ToolCall>, b: seq<ToolCall>)
    requires Observe(tools, a).Ok? && Observe(tools, b).Err?
    ensures Observe(tools, a + b) == Observe(tools, b)
  {
    ReachAppend(tools, a, b);
    assert Reach(tools, a) == |a|;
    assert (a + b)[|a| + Reach(tools, b)] == b[Reach(tools, b)];
  }

  lemma BothBatchesRun(tools: Tools, a: seq<ToolCall>, b: seq<ToolCall>)
    requires Observe(tools, a).Ok? && Observe(tools, b).Ok?
    ensures Observe(tools, a + b) == Ok(Observe(tools, a).value + Observe(tools, b).value)
  {
    var x, y := Observe(tools, a).value, Observe(tools, b).value;
    assert AllRun(tools, a) && AllRun(tools, b) && Answers(tools, a, x) && Answers(tools, b, y);
    assert AllRun(tools, a + b) by {
      forall i | 0 <= i < |a + b| ensures Runs(tools, (a + b)[i]) {
        if i < |a| { assert (a + b)[i] == a[i]; } else { assert (a + b)[i] == b[i - |a|]; }
      }
    }
    var z := Observe(tools, a + b).value;
    assert Answers(tools, a + b, z);
    assert z == x + y by {
      forall i | 0 <= i < |a + b| ensures z[i] == (x + y)[i] {
        if i < |a| { assert (a + b)[i] == a[i]; } else { assert (a + b)[i] == b[i - |a|]; }
      }
    }
  }

  /** `ToolNode.__call__`: the tool messages for the calls of the last
      message, which must exist and be an assistant message. */
  function ToolNode(s: State, tools: Tools): (r: Result<Update>)
    ensures r.Ok? <==>
      && |s.messages| > 0 && s.messages[|s.messages| - 1].AI?
      && Observe(tools, s.messages[|s.messages| - 1].toolCalls).Ok?
    ensures r.Ok? ==> r.value == Update(Some(Observe(tools, s.messages[|s.messages| - 1].toolCalls).value), None, None)
  {
    match LastOf(s.messages)
    case None => Err("IndexError: list index out of range")
    case Some(last) =>
      match ToolCallsOf(last)
      case None => Err("AttributeError: message has no tool_calls")
      case Some(calls) =>
        match Observe(tools, calls)
        case Err(e) => Err(e)
        case Ok(outputs) => Ok(Update(Some(outputs), None, None))
  }

  /** With unique call ids in the request, the tool node's answers are
      paired one to one with the calls: same position, name and id. */
  lemma ToolNodePairsById(tools: Tools, calls: seq<ToolCall>)
    requires DistinctIds(calls)
    requires Observe(tools, calls).Ok?
    ensures var out := Observe(tools, calls).value;
      && (forall k :: 0 <= k < |out| ==> out[k].Tool? && out[k].toolCallId == calls[k].id && out[k].name == calls[k].name)
      && (forall k, l :: 0 <= k < l < |out| ==> out[k].toolCallId != out[l].toolCallId)
  {
    assert Answers(tools, calls, Observe(tools, calls).value);
  }

  /** `filter_messages(..., include_types=["tool", "ai"])` */
  predicate KeptInNotes(m: Message) {
    m.Tool? || m.AI?
  }

  /** `str(m.content)` for every tool and assistant message, in order. */
  function NoteLines(msgs: seq<Message>, repr: seq<Block> -> string): (r: seq<string>)
    ensures |r| <= |msgs|
    ensures (forall i :: 0 <= i < |msgs| ==> KeptInNotes(msgs[i])) ==> |r| == |msgs|
  {
    if |msgs| == 0 then []
    else
      var rest := NoteLines(msgs[1..], repr);
      assert (forall i :: 0 <= i < |msgs| ==> KeptInNotes(msgs[i])) ==>
             (forall i :: 0 <= i < |msgs[1..]| ==> KeptInNotes(msgs[1..][i])) by {
        if forall i :: 0 <= i < |msgs| ==> KeptInNotes(msgs[i]) {
          forall i | 0 <= i < |msgs[1..]| ensures KeptInNotes(msgs[1..][i]) {
            assert msgs[1..][i] == msgs[i + 1];
          }
        }
      }
      (if KeptInNotes(msgs[0]) then [Str(msgs[0].content, repr)] else []) + rest
  }

  /** The lines distribute over concatenation; with `NoteLinesOfOne` this
      pins them down: every kept message contributes its text once, in
      history order, and every other message contributes nothing. */
  lemma {:induction false} NoteLinesAppend(a: seq<Message>, b: seq<Message>, repr: seq<Block> -> string)
    ensures NoteLines(a + b, repr) == NoteLines(a, repr) + NoteLines(b, repr)
    decreases |a|
  {
    if |a| > 0 {
      assert (a + b)[0] == a[0] && (a + b)[1..] == a[1..] + b;
      NoteLinesAppend(a[1..], b, repr);
    } else {
      assert a + b == b;
    }
  }

  lemma NoteLinesOfOne(m: Message, repr: seq<Block> -> string)
    ensures KeptInNotes(m) ==> NoteLines([m], repr) == [Str(m.content, repr)]
    ensures !KeptInNotes(m) ==> NoteLines([m], repr) == []
  {
    assert [m][1..] == [];
  }

  /** Removing a human, system or other non-kept message anywhere in the
      history leaves the raw notes unchanged. */
  lemma ExcludedMessageIgnored(a: seq<Message>, m: Message, b: seq<Message>, repr: seq<Block> -> string)
    requires !KeptInNotes(m)
    ensures NoteLines(a + [m] + b, repr) == NoteLines(a + b, repr)
  {
    NoteLinesAppend(a + [m], b, repr);
    NoteLinesAppend(a, [m], repr);
    NoteLinesAppend(a, b, repr);
    NoteLinesOfOne(m, repr);
  }

  /** `SummarizeResearch.__call__`: the summary is `str(response.content)`
      and exactly one raw note, the kept lines joined with newlines. */
  function Summarize(s: State, response: Content, repr: seq<Block> -> string): (u: Update)
    ensures u.messages.None?
    ensures u.researchSummary == Some(Str(response, repr))
    ensures u.rawNotes.Some? && |u.rawNotes.value| == 1
    ensures u.rawNotes.value[0] == Join("\n", NoteLines(s.messages, repr))
  {
    Update(None, Some(Str(response, repr)), Some([Join("\n", NoteLines(s.messages, repr))]))
  }

  /** The worker graph. */
  const Edges: Graph.Table := [
    Graph.Direct(Graph.Start, LlmCallNode),
    Graph.Branch(LlmCallNode, map[ToolNodeName := ToolNodeName, SummarizeNode := SummarizeNode]),
    Graph.Direct(ToolNodeName, LlmCallNode),
    Graph.Direct(SummarizeNode, Graph.End)
  ]

  const Nodes := {LlmCallNode, ToolNodeName, SummarizeNode}

  /** The table is closed over the worker's nodes, and whatever the router
      answers is a key of its declared map, so routing after the model step
      never fails and lands where the router said. */
  lemma RouteFollowsEdges(s: State)
    ensures Graph.WellFormed(Edges, Nodes)
    ensures Route(s).Ok? ==> Graph.Next(Edges, LlmCallNode, Some(Route(s).value)) == Ok(Route(s).value)
  {
    assert Edges[1].src == LlmCallNode && Edges[0].src != LlmCallNode;
  }

  /** One model step followed by routing and, when the reply asks for
      tools, one tool-node step.  `Ok((true, s1))` means the router chose
      the summarizer, with `s1` the state it will read. */
  function Step(s: State, reply: Message, tools: Tools): (r: Result<(bool, State)>)
    ensures StepContract(s, reply, tools, r)
  {
    var s1 := Apply(s, Decide(reply));
    assert s1.messages[|s1.messages| - 1] == reply;
    match Route(s1)
    case Err(e) => Err(e)
    case Ok(next) =>
      if next == SummarizeNode then Ok((true, s1))
      else
        match ToolNode(s1, tools)
        case Err(e) => Err(e)
        case Ok(u) => Ok((false, Apply(s1, u)))
  }

  /** What a step guarantees: it raises exactly when the reply is not an
      assistant message or one of its tools fails; it heads for the
      summarizer exactly when the reply has no tool calls, having added only
      the reply; otherwise it adds the reply and one answer per call. */
  predicate StepContract(s: State, reply: Message, tools: Tools, r: Result<(bool, State)>) {
    && (r.Err? <==> !reply.AI? || (|reply.toolCalls| > 0 && Observe(tools, reply.toolCalls).Err?))
    && (r.Ok? ==> (r.value.0 <==> |reply.toolCalls| == 0))
    && (r.Ok? && r.value.0 ==> r.value.1 == s.(messages := s.messages + [reply]))
    && (r.Ok? && !r.value.0 ==>
          r.value.1 == s.(messages := s.messages + [reply] + Observe(tools, reply.toolCalls).value))
  }

  /** How a worker run ends. */
  datatype Outcome = Finished(final: State, rounds: nat) | Crashed(error: string) | OutOfReplies(last: State)

  /** The loop driven by a step function, fed the model's successive
      replies; `summary` is the summarizer's response. */
  function RunWith(s: State, replies: seq<Message>, step: (State, Message) -> Result<(bool, State)>,
                   summary: Content, repr: seq<Block> -> string): Outcome
    decreases |replies|
  {
    if |replies| == 0 then OutOfReplies(s)
    else
      match step(s, replies[0])
      case Err(e) => Crashed(e)
      case Ok((done, s1)) =>
        if done then Finished(Apply(s1, Summarize(s1, summary, repr)), 1)
        else
          match RunWith(s1, replies[1..], step, summary, repr)
          case Finished(f, n) => Finished(f, n + 1)
          case other => other
  }

  /** The worker loop. */
  function Run(s: State, replies: seq<Message>, tools: Tools, summary: Content,
               repr: seq<Block> -> string): Outcome
  {
    RunWith(s, replies, (st, reply) => Step(st, reply, tools), summary, repr)
  }

  /** How a finished run looks: it ended at the first reply without tool
      calls, every earlier reply asked for tools, and the final state holds
      the summary and exactly one more raw note. */
  predicate EndsWithoutCalls(s: State, replies: seq<Message>, summary: Content,
                             repr: seq<Block> -> string, o: Outcome) {
    o.Finished? ==>
      && 1 <= o.rounds <= |replies|
      && replies[o.rounds - 1].AI? && |replies[o.rounds - 1].toolCalls| == 0
      && (forall i :: 0 <= i < o.rounds - 1 ==> replies[i].AI? && |replies[i].toolCalls| > 0)
      && |o.final.rawNotes| == |s.rawNotes| + 1
      && o.final.researchSummary == Some(Str(summary, repr))
  }

  /** The loop ends only at a reply without tool calls. */
  lemma RunEndsOnlyWithoutCalls(s: State, replies: seq<Message>, tools: Tools,
                                summary: Content, repr: seq<Block> -> string)
    ensures EndsWithoutCalls(s, replies, summary, repr, Run(s, replies, tools, summary, repr))
  {
    RunWithEndsOnlyWithoutCalls(s, replies, tools, (st, reply) => Step(st, reply, tools), summary, repr);
  }

  lemma {:induction false} RunWithEndsOnlyWithoutCalls(s: State, replies: seq<Message>, tools: Tools,
                                                       step: (State, Message) -> Result<(bool, State)>,
                                                       summary: Content, repr: seq<Block> -> string)
    requires forall st, reply :: StepContract(st, reply, tools, step(st, reply))
    ensures EndsWithoutCalls(s, replies, summary, repr, RunWith(s, replies, step, summary, repr))
    decreases |replies|
  {
    if |replies| > 0 {
      var r := step(s, replies[0]);
      assert StepContract(s, replies[0], tools, r);
      if r.Ok? && !r.value.0 {
        var s1 := r.value.1;
        RunWithEndsOnlyWithoutCalls(s1, replies[1..], tools, step, summary, repr);
        var o := RunWith(s1, replies[1..], step, summary, repr);
        if o.Finished? {
          assert forall i :: 1 <= i < |replies| ==> replies[i] == replies[1..][i - 1];
        }
      }
    }
  }

  /** Every reply asks for tools, and every tool it asks for exists and returns. */
  predicate KeepsCalling(replies: seq<Message>, tools: Tools) {
    forall i :: 0 <= i < |replies| ==>
      replies[i].AI? && |replies[i].toolCalls| > 0 &&
      forall j :: 0 <= j < |replies[i].toolCalls| ==> Runs(tools, replies[i].toolCalls[j])
  }

  /** No bound: as long as the model keeps asking for tools that exist and
      return, the loop keeps going, however long the history grows and
      whatever the tool-call counter says. */
  lemma NoIterationBound(s: State, replies: seq<Message>, tools: Tools,
                         summary: Content, repr: seq<Block> -> string)
    requires KeepsCalling(replies, tools)
    ensures Run(s, replies, tools, summary, repr).OutOfReplies?
    ensures |Run(s, replies, tools, summary, repr).last.messages| >= |s.messages| + 2 * |replies|
  {
    RunWithNoIterationBound(s, replies, tools, (st, reply) => Step(st, reply, tools), summary, repr);
  }

  lemma {:induction false} RunWithNoIterationBound(s: State, replies: seq<Message>, tools: Tools,
                                                   step: (State, Message) -> Result<(bool, State)>,
                                                   summary: Content, repr: seq<Block> -> string)
    requires forall st, reply :: StepContract(st, reply, tools, step(st, reply))
    requires KeepsCalling(replies, tools)
    ensures RunWith(s, replies, step, summary, repr).OutOfReplies?
    ensures |RunWith(s, replies, step, summary, repr).last.messages| >= |s.messages| + 2 * |replies|
    decreases |replies|
  {
    if |replies| > 0 {
      var r := step(s, replies[0]);
      assert StepContract(s, replies[0], tools, r);
      assert replies[0].AI? && |replies[0].toolCalls| > 0;
      assert KeepsCalling(replies[1..], tools) by {
        assert forall i :: 1 <= i < |replies| ==> replies[i] == replies[1..][i - 1];
      }
      RunWithNoIterationBound(r.value.1, replies[1..], tools, step, summary, repr);
    }
  }
}
