/** The research supervisor: a decide step that asks the model for its next
    move, and a tool node that either ends the loop (collecting notes) or
    runs the requested reflections and delegations and loops back.  Both
    nodes return a command naming their successor together with a partial
    state update, merged by the per-field reducers of `Apply`. */
module Supervisor {
  import opened Common
  import opened Messages
  import opened ToolDispatch
  import Graph

  /** The iteration bound the tool node checks. */
  const MaxResearcherIterations := 6

  const SupervisorNode := "supervisor"
  const ToolNodeName := "tool_node"

  /** `SupervisorState`.  `researchBrief` and `researchIterations` may be
      absent from the state dictionary. */
  datatype State = State(
    messages: seq<Message>,
    researchBrief: Option<string>,
    notes: seq<Content>,
    researchIterations: Option<int>,
    rawNotes: seq<string>)

  /** A partial update: `None` means the key is not in the returned dict. */
  datatype Update = Update(
    messages: Option<seq<Message>>,
    researchBrief: Option<string>,
    notes: Option<seq<Content>>,
    researchIterations: Option<int>,
    rawNotes: Option<seq<string>>)

  const NoUpdate := Update(None, None, None, None, None)

  /** `Command(goto=..., update=...)` */
  datatype Command = Command(goto: string, update: Update)

  /** Merge an update into the state: `messages` appends, `notes` and
      `raw_notes` concatenate (`operator.add`), the scalars are replaced. */
  function Apply(s: State, u: Update): (r: State)
    ensures s.messages <= r.messages && s.notes <= r.notes && s.rawNotes <= r.rawNotes
    ensures u.messages.None? ==> r.messages == s.messages
    ensures u.notes.None? ==> r.notes == s.notes
    ensures u.rawNotes.None? ==> r.rawNotes == s.rawNotes
    ensures u.researchBrief.None? ==> r.researchBrief == s.researchBrief
    ensures u.researchIterations.None? ==> r.researchIterations == s.researchIterations
    ensures r.messages == s.messages + u.messages.GetOr([])
    ensures r.notes == s.notes + u.notes.GetOr([])
    ensures r.rawNotes == s.rawNotes + u.rawNotes.GetOr([])
    ensures u.researchBrief.Some? ==> r.researchBrief == u.researchBrief
    ensures u.researchIterations.Some? ==> r.researchIterations == u.researchIterations
  {
    State(
      s.messages + u.messages.GetOr([]),
      if u.researchBrief.Some? then u.researchBrief else s.researchBrief,
      s.notes + u.notes.GetOr([]),
      if u.researchIterations.Some? then u.researchIterations else s.researchIterations,
      s.rawNotes + u.rawNotes.GetOr([]))
  }

  /** Applying the same update twice accumulates both copies of the list
      fields (no deduplication) while a replaced field keeps the last value. */
  lemma ApplyTwice(s: State, u: Update)
    ensures Apply(Apply(s, u), u).notes == s.notes + u.notes.GetOr([]) + u.notes.GetOr([])
    ensures Apply(Apply(s, u), u).rawNotes == s.rawNotes + u.rawNotes.GetOr([]) + u.rawNotes.GetOr([])
    ensures Apply(Apply(s, u), u).messages == s.messages + u.messages.GetOr([]) + u.messages.GetOr([])
    ensures Apply(Apply(s, u), u).researchBrief ==
      (if u.researchBrief.Some? then u.researchBrief else s.researchBrief)
    ensures Apply(Apply(s, u), u).researchIterations ==
      (if u.researchIterations.Some? then u.researchIterations else s.researchIterations)
  {
  }

  /** `get_notes_from_tool_calls`: the content of every tool message, in order. */
  function ToolContents(msgs: seq<Message>): (r: seq<Content>)
    ensures |r| <= |msgs|
  {
    if |msgs| == 0 then []
    else (if msgs[0].Tool? then [msgs[0].content] else []) + ToolContents(msgs[1..])
  }

  /** Notes extraction distributes over concatenation; with
      `ToolContentsOfOne` this fixes it: every tool message, whatever its
      name, contributes its content once, in history order. */
  lemma {:induction false} ToolContentsAppend(a: seq<Message>, b: seq<Message>)
    ensures ToolContents(a + b) == ToolContents(a) + ToolContents(b)
    decreases |a|
  {
    if |a| > 0 {
      assert (a + b)[0] == a[0] && (a + b)[1..] == a[1..] + b;
      ToolContentsAppend(a[1..], b);
    } else {
      assert a + b == b;
    }
  }

  /** A tool message contributes its content, any other message nothing. */
  lemma ToolContentsOfOne(m: Message)
    ensures ToolContents([m]) == (if m.Tool? then [m.content] else [])
  {
  }

  /** `LLMCall.__call__`: append the model's reply, count one more
      iteration (from 0 when absent), and go to the tool node. */
  function Decide(s: State, reply: Message): (c: Command)
    ensures c.goto == ToolNodeName
    ensures Apply(s, c.update) ==
      s.(messages := s.messages + [reply],
         researchIterations := Some(s.researchIterations.GetOr(0) + 1))
  {
    Command(ToolNodeName,
      NoUpdate.(messages := Some([reply]),
                researchIterations := Some(s.researchIterations.GetOr(0) + 1)))
  }

  /** The exit test of the tool node. */
  predicate ShouldEnd(iterations: int, calls: seq<ToolCall>) {
    iterations >= MaxResearcherIterations || |calls| == 0 || AnyNamed(calls, ResearchComplete)
  }

  /** The update of every path to END: the notes of the whole history and
      the brief carried over; no messages and no raw notes. */
  function EndCommand(s: State): Command {
    Command(Graph.End,
      NoUpdate.(notes := Some(ToolContents(s.messages)),
                researchBrief := Some(s.researchBrief.GetOr(""))))
  }

  /** `ToolNode.__call__`.  `gathered` is what `asyncio.gather` returns for
      the ConductResearch calls, one outcome per call in call order.  An
      empty history or a last message without `tool_calls` raises before
      the guarded block; a failure inside it ends the loop. */
  function Dispatch(s: State, think: ToolCall -> Option<string>,
                    gathered: seq<Option<ResearchResult>>): (r: Result<Command>)
    requires |gathered| == |ResearchCalls(PendingCalls(s.messages))|
    ensures r.Err? <==> |s.messages| == 0 || !s.messages[|s.messages| - 1].AI?
    ensures r.Ok? ==> r.value.goto == Graph.End || r.value.goto == SupervisorNode
    ensures r.Ok? ==>
      (r.value.goto == SupervisorNode <==>
         && s.researchIterations.GetOr(0) < MaxResearcherIterations
         && |PendingCalls(s.messages)| > 0
         && (forall i :: 0 <= i < |PendingCalls(s.messages)| ==>
               PendingCalls(s.messages)[i].name != ResearchComplete)
         && Execute(PendingCalls(s.messages), think, gathered).Some?)
    ensures r.Ok? && r.value.goto == Graph.End ==>
      && r.value.update.notes == Some(ToolContents(s.messages))
      && r.value.update.researchBrief == Some(s.researchBrief.GetOr(""))
      && r.value.update.messages.None?
      && r.value.update.rawNotes.None?
      && r.value.update.researchIterations.None?
    ensures r.Ok? && r.value.goto == SupervisorNode ==>
      && r.value.update.messages == Some(Execute(PendingCalls(s.messages), think, gathered).value.messages)
      && r.value.update.rawNotes == Some(Execute(PendingCalls(s.messages), think, gathered).value.rawNotes)
      && r.value.update.notes.None?
      && r.value.update.researchBrief.None?
      && r.value.update.researchIterations.None?
  {
    match LastOf(s.messages)
    case None => Err("IndexError: list index out of range")
    case Some(last) =>
      match ToolCallsOf(last)
      case None => Err("AttributeError: message has no tool_calls")
      case Some(calls) =>
        if ShouldEnd(s.researchIterations.GetOr(0), calls) then Ok(EndCommand(s))
        else
          match Execute(calls, think, gathered)
          case None => Ok(EndCommand(s))
          case Some(out) =>
            Ok(Command(SupervisorNode, NoUpdate.(messages := Some(out.messages), rawNotes := Some(out.rawNotes))))
  }

  /** The supervisor graph: only the entry edge is static; both nodes name
      their successor in the command they return. */
  const Edges: Graph.Table := [Graph.Direct(Graph.Start, SupervisorNode)]

  /** A run enters at the decide step, and nothing else is routed by the
      table. */
  lemma EntersAtSupervisor()
    ensures Graph.Next(Edges, Graph.Start, None) == Ok(SupervisorNode)
    ensures Graph.WellFormed(Edges, {SupervisorNode, ToolNodeName})
    ensures forall node :: node != Graph.Start ==> Graph.EdgeFrom(Edges, node).None?
  {
  }

  /** How a run of the loop ends: at END after some decide/dispatch rounds,
      by an exception escaping a node, or because the supplied model replies
      ran out first. */
  datatype Outcome = Finished(final: State, rounds: nat) | Crashed(error: string) | OutOfReplies(last: State)

  /** What a decide/dispatch round guarantees: it raises exactly when the
      model's reply is not an assistant message; otherwise it ends at END
      or loops to the supervisor, keeps the history and appends the reply,
      counts one iteration, and ends whenever the counter reaches the bound. */
  predicate RoundContract(s: State, reply: Message, r: Result<(string, State)>) {
    var k := s.researchIterations.GetOr(0);
    && (r.Err? <==> !reply.AI?)
    && (r.Ok? ==> r.value.0 == Graph.End || r.value.0 == SupervisorNode)
    && (r.Ok? ==> s.messages + [reply] <= r.value.1.messages)
    && (r.Ok? ==> r.value.1.researchIterations == Some(k + 1))
    && (r.Ok? && k + 1 >= MaxResearcherIterations ==> r.value.0 == Graph.End)
  }

  /** One decide step followed by one tool-node step. */
  function Round(s: State, reply: Message, think: ToolCall -> Option<string>,
                 research: ToolCall -> Option<ResearchResult>): (r: Result<(string, State)>)
    ensures RoundContract(s, reply, r)
  {
    var s1 := Apply(s, Decide(s, reply).update);
    var gathered := Gather(ResearchCalls(PendingCalls(s1.messages)), research);
    match Dispatch(s1, think, gathered)
    case Err(e) => Err(e)
    case Ok(cmd) => Ok((cmd.goto, Apply(s1, cmd.update)))
  }

  /** The loop driven by a round function, fed the model's successive replies. */
  function RunWith(s: State, replies: seq<Message>, round: (State, Message) -> Result<(string, State)>): Outcome
    decreases |replies|
  {
    if |replies| == 0 then OutOfReplies(s)
    else
      match round(s, replies[0])
      case Err(e) => Crashed(e)
      case Ok((next, s2)) =>
        if next == Graph.End then Finished(s2, 1)
        else
          match RunWith(s2, replies[1..], round)
          case Finished(f, n) => Finished(f, n + 1)
          case other => other
  }

  /** The supervisor loop. */
  function Run(s: State, replies: seq<Message>, think: ToolCall -> Option<string>,
               research: ToolCall -> Option<ResearchResult>): Outcome
  {
    RunWith(s, replies, (st, reply) => Round(st, reply, think, research))
  }

  /** The most rounds a run starting from `s` can take. */
  function Budget(s: State): nat {
    var k := s.researchIterations.GetOr(0);
    if k >= MaxResearcherIterations - 1 then 1 else MaxResearcherIterations - k
  }

  /** A run from `s` that reached END (or crashed) without running out of
      replies, in at most `Budget(s)` rounds, counting one iteration per
      round and only growing the history. */
  predicate WithinBudget(s: State, o: Outcome) {
    && !o.OutOfReplies?
    && (o.Finished? ==>
          && o.rounds <= Budget(s)
          && o.final.researchIterations == Some(s.researchIterations.GetOr(0) + o.rounds)
          && s.messages <= o.final.messages)
  }

  /** The iteration bound holds whatever the model replies: the loop reaches
      END within `Budget(s)` rounds, the counter ends exactly one higher per
      round, the history only grows, and a model that always answers with
      an assistant message never makes the loop crash. */
  lemma RunIsBounded(s: State, replies: seq<Message>, think: ToolCall -> Option<string>,
                     research: ToolCall -> Option<ResearchResult>)
    requires |replies| >= Budget(s)
    ensures WithinBudget(s, Run(s, replies, think, research))
    ensures (forall i :: 0 <= i < |replies| ==> replies[i].AI?) ==> Run(s, replies, think, research).Finished?
  {
    RunWithIsBounded(s, replies, (st, reply) => Round(st, reply, think, research));
  }

  /** The same bound for any round function that keeps the round contract. */
  lemma {:induction false} RunWithIsBounded(s: State, replies: seq<Message>,
                                            round: (State, Message) -> Result<(string, State)>)
    requires |replies| >= Budget(s)
    requires forall st, reply :: RoundContract(st, reply, round(st, reply))
    ensures WithinBudget(s, RunWith(s, replies, round))
    ensures (forall i :: 0 <= i < |replies| ==> replies[i].AI?) ==> RunWith(s, replies, round).Finished?
    decreases |replies|
  {
    var r := round(s, replies[0]);
    assert RoundContract(s, replies[0], r);
    if r.Ok? {
      var s2 := r.value.1;
      assert s.messages <= s2.messages by {
        assert s.messages <= s.messages + [replies[0]];
      }
      if r.value.0 != Graph.End {
        assert Budget(s2) == Budget(s) - 1;
        assert forall i :: 0 <= i < |replies[1..]| ==> replies[1..][i] == replies[i + 1];
        RunWithIsBounded(s2, replies[1..], round);
        var rest := RunWith(s2, replies[1..], round);
        if rest.Finished? {
          PrefixTransitive(s.messages, s2.messages, rest.final.messages);
        }
      }
    }
  }

  lemma PrefixTransitive(a: seq<Message>, b: seq<Message>, c: seq<Message>)
    requires a <= b && b <= c
    ensures a <= c
  {
  }

  /** A reply that signals completion ends the loop in its round, whatever
      else it asks for: the history gains only the reply, and the notes gain
      the content of every tool message already in the history. */
  lemma CompletionEndsRound(s: State, reply: Message, think: ToolCall -> Option<string>,
                            research: ToolCall -> Option<ResearchResult>)
    requires reply.AI? && exists i :: 0 <= i < |reply.toolCalls| && reply.toolCalls[i].name == ResearchComplete
    ensures var r := Round(s, reply, think, research);
      && r.Ok? && r.value.0 == Graph.End
      && r.value.1.messages == s.messages + [reply]
      && r.value.1.notes == s.notes + ToolContents(s.messages)
      && r.value.1.rawNotes == s.rawNotes
  {
    var s1 := Apply(s, Decide(s, reply).update);
    ToolContentsAppend(s.messages, [reply]);
    assert ToolContents([reply]) == [];
    assert ToolContents(s1.messages) == ToolContents(s.messages);
  }

  /** A reply asking only for reflections, below the iteration bound and
      with every reflection returning, loops back with the reflections'
      answers appended after the reply and no raw notes. */
  lemma ReflectionRound(s: State, reply: Message, think: ToolCall -> Option<string>,
                        research: ToolCall -> Option<ResearchResult>)
    requires reply.AI? && |reply.toolCalls| > 0
    requires s.researchIterations.GetOr(0) + 1 < MaxResearcherIterations
    requires forall i :: 0 <= i < |reply.toolCalls| ==>
      reply.toolCalls[i].name == ThinkTool && think(reply.toolCalls[i]).Some?
    ensures var r := Round(s, reply, think, research);
      && r.Ok? && r.value.0 == SupervisorNode
      && ThinkMessages(reply.toolCalls, think).Some?
      && r.value.1.messages == s.messages + [reply] + ThinkMessages(reply.toolCalls, think).value
      && r.value.1.notes == s.notes
      && r.value.1.rawNotes == s.rawNotes
  {
    var s1 := Apply(s, Decide(s, reply).update);
    assert s1.messages == s.messages + [reply];
    ReflectionDispatch(s1, think, Gather(ResearchCalls(PendingCalls(s1.messages)), research));
  }

  /** The tool-node half of `ReflectionRound`. */
  lemma ReflectionDispatch(s: State, think: ToolCall -> Option<string>, gathered: seq<Option<ResearchResult>>)
    requires |s.messages| > 0 && s.messages[|s.messages| - 1].AI?
    requires |gathered| == |ResearchCalls(PendingCalls(s.messages))|
    requires var calls := s.messages[|s.messages| - 1].toolCalls;
      && |calls| > 0
      && s.researchIterations.GetOr(0) < MaxResearcherIterations
      && forall i :: 0 <= i < |calls| ==> calls[i].name == ThinkTool && think(calls[i]).Some?
    ensures var calls := s.messages[|s.messages| - 1].toolCalls;
      && ThinkMessages(calls, think).Some?
      && Dispatch(s, think, gathered) ==
           Ok(Command(SupervisorNode, NoUpdate.(messages := ThinkMessages(calls, think), rawNotes := Some([]))))
  {
    var calls := s.messages[|s.messages| - 1].toolCalls;
    AllNamedFilter(calls, ThinkTool);
    NoneNamedFilter(calls, ConductResearch);
    assert !AnyNamed(calls, ResearchComplete);
  }

  /** Filtering calls that all carry the name keeps them all. */
  lemma {:induction false} AllNamedFilter(calls: seq<ToolCall>, name: string)
    requires forall i :: 0 <= i < |calls| ==> calls[i].name == name
    ensures CallsNamed(calls, name) == calls
    decreases |calls|
  {
    if |calls| > 0 {
      AllNamedFilter(calls[1..], name);
    }
  }

  /** Filtering calls none of which carries the name keeps nothing. */
  lemma {:induction false} NoneNamedFilter(calls: seq<ToolCall>, name: string)
    requires forall i :: 0 <= i < |calls| ==> calls[i].name != name
    ensures CallsNamed(calls, name) == []
    decreases |calls|
  {
    if |calls| > 0 {
      NoneNamedFilter(calls[1..], name);
    }
  }

  /** A two-round run: the model first asks for one reflection, then signals
      completion.  The reflection is answered and the loop ends at the
      second round with the reflection's text as the only note. */
  lemma ReflectThenComplete(brief: string, reflection: string)
    ensures var s0 := State([Human(Text(brief))], None, [], None, []);
      var first := AI(Text(""), [ToolCall(ThinkTool, map[], "call-1")]);
      var second := AI(Text(""), [ToolCall(ResearchComplete, map[], "call-2")]);
      var o := Run(s0, [first, second], c => Some(reflection), c => None);
      && o.Finished? && o.rounds == 2
      && o.final.notes == [Text(reflection)]
      && o.final.rawNotes == []
  {
    var s0 := State([Human(Text(brief))], None, [], None, []);
    var first := AI(Text(""), [ToolCall(ThinkTool, map[], "call-1")]);
    var second := AI(Text(""), [ToolCall(ResearchComplete, map[], "call-2")]);
    var think: ToolCall -> Option<string> := c => Some(reflection);
    var research: ToolCall -> Option<ResearchResult> := c => None;
    var round := (st, reply) => Round(st, reply, think, research);
    var s2 := ScenarioFirstRound(brief, reflection, think, research);
    var s4 := ScenarioSecondRound(brief, reflection, s2, think, research);
    assert RunWith(s2, [second], round) == Finished(s4, 1);
    assert [first, second][1..] == [second];
    assert RunWith(s0, [first, second], round) == Finished(s4, 2);
  }

  lemma ScenarioFirstRound(brief: string, reflection: string, think: ToolCall -> Option<string>,
                           research: ToolCall -> Option<ResearchResult>) returns (s2: State)
    requires think(ToolCall(ThinkTool, map[], "call-1")) == Some(reflection)
    ensures var s0 := State([Human(Text(brief))], None, [], None, []);
      var first := AI(Text(""), [ToolCall(ThinkTool, map[], "call-1")]);
      && Round(s0, first, think, research) == Ok((SupervisorNode, s2))
      && s2.messages == [Human(Text(brief)), first, Tool(Text(reflection), ThinkTool, "call-1")]
      && s2.notes == [] && s2.rawNotes == [] && s2.researchIterations == Some(1)
  {
    var s0 := State([Human(Text(brief))], None, [], None, []);
    var first := AI(Text(""), [ToolCall(ThinkTool, map[], "call-1")]);
    ReflectionRound(s0, first, think, research);
    var answers := ThinkMessages(first.toolCalls, think).value;
    assert answers == [Tool(Text(reflection), ThinkTool, "call-1")] by {
      assert |answers| == 1 && answers[0] == Tool(Text(reflection), ThinkTool, "call-1");
    }
    s2 := Round(s0, first, think, research).value.1;
    assert s2.messages == [Human(Text(brief))] + [first] + answers;
  }

  lemma ScenarioSecondRound(brief: string, reflection: string, s2: State, think: ToolCall -> Option<string>,
                            research: ToolCall -> Option<ResearchResult>) returns (s4: State)
    requires s2.messages == [Human(Text(brief)), AI(Text(""), [ToolCall(ThinkTool, map[], "call-1")]),
                             Tool(Text(reflection), ThinkTool, "call-1")]
    requires s2.notes == [] && s2.rawNotes == []
    ensures var second := AI(Text(""), [ToolCall(ResearchComplete, map[], "call-2")]);
      && Round(s2, second, think, research) == Ok((Graph.End, s4))
      && s4.notes == [Text(reflection)] && s4.rawNotes == []
  {
    var second := AI(Text(""), [ToolCall(ResearchComplete, map[], "call-2")]);
    assert second.toolCalls[0].name == ResearchComplete;
    CompletionEndsRound(s2, second, think, research);
    s4 := Round(s2, second, think, research).value.1;
    var head := [Human(Text(brief)), AI(Text(""), [ToolCall(ThinkTool, map[], "call-1")])];
    ToolContentsAppend(head, [Tool(Text(reflection), ThinkTool, "call-1")]);
    assert head + [Tool(Text(reflection), ThinkTool, "call-1")] == s2.messages;
    assert ToolContents(head) == [];
  }
}
