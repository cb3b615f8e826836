/** The scoping gate: a clarifier step records whether the topic is clear
    enough, and a router either goes on to write the research brief or
    stops the graph. */
module Scope {
  import opened Common
  import opened Messages
  import Graph
  import Utils

  const AnalyzeNode := "analyze_research_topic"
  const BriefNode := "write_research_brief"

  /** `ScopeSystemState`.  The flag may be absent from the state. */
  datatype State = State(messages: seq<Message>, isTopicClarified: Option<bool>)

  datatype Update = Update(messages: Option<seq<Message>>, isTopicClarified: Option<bool>)

  /** `messages` appends; the flag is replaced. */
  function Apply(s: State, u: Update): (r: State)
    ensures s.messages <= r.messages
    ensures u.messages.None? ==> r.messages == s.messages
    ensures u.isTopicClarified.None? ==> r.isTopicClarified == s.isTopicClarified
    ensures r.messages == s.messages + u.messages.GetOr([])
    ensures u.isTopicClarified.Some? ==> r.isTopicClarified == u.isTopicClarified
  {
    State(s.messages + u.messages.GetOr([]),
          if u.isTopicClarified.Some? then u.isTopicClarified else s.isTopicClarified)
  }

  /** The structured answers of the two model calls. */
  datatype TopicAnalysis = TopicAnalysis(isTopicClarified: bool, question: string)
  datatype ResearchQuestion = ResearchQuestion(title: string)

  /** The scoping steps use the message library's own `get_buffer_string`,
      which accepts the same message classes as `Utils.GetBufferString` and
      raises the same `ValueError`, but does not render an assistant
      message's tool calls.  It is modelled as that serialiser with an empty
      call rendering; only whether it succeeds matters here, since the
      prompt text goes to the model, which is a parameter. */
  const NoCallRendering: seq<ToolCall> -> string := calls => ""

  /** Serialising the history under the default prefixes. */
  function Prompt(s: State): (r: Result<string>)
    ensures r.Ok? <==> Utils.AllSupported(s.messages)
    ensures r.Err? ==> r.error == Utils.UnsupportedError
  {
    Utils.GetBufferString(s.messages, "Human", "AI", NoCallRendering)
  }

  /** `TopicClarifier.__call__`: raises when the history cannot be
      serialised; otherwise one assistant message holding the JSON dump of
      the analysis, and the analysis's flag copied into the state. */
  function Clarify(s: State, analysis: TopicAnalysis, dump: TopicAnalysis -> string): (r: Result<Update>)
    ensures r.Ok? <==> Utils.AllSupported(s.messages)
    ensures r.Err? ==> r.error == Utils.UnsupportedError
    ensures r.Ok? ==> r.value.messages == Some([AI(Text(dump(analysis)), [])])
    ensures r.Ok? ==> r.value.isTopicClarified == Some(analysis.isTopicClarified)
  {
    match Prompt(s)
    case Err(e) => Err(e)
    case Ok(_) => Ok(Update(Some([AI(Text(dump(analysis)), [])]), Some(analysis.isTopicClarified)))
  }

  /** `ResearchBrief.__call__`: raises when the history cannot be
      serialised; otherwise one assistant message holding the JSON dump of
      the question, and nothing else. */
  function WriteBrief(s: State, question: ResearchQuestion, dump: ResearchQuestion -> string): (r: Result<Update>)
    ensures r.Ok? <==> Utils.AllSupported(s.messages)
    ensures r.Err? ==> r.error == Utils.UnsupportedError
    ensures r.Ok? ==> r.value.messages == Some([AI(Text(dump(question)), [])])
    ensures r.Ok? ==> r.value.isTopicClarified.None?
  {
    match Prompt(s)
    case Err(e) => Err(e)
    case Ok(_) => Ok(Update(Some([AI(Text(dump(question)), [])]), None))
  }

  /** `check_clarity`: an absent or false flag stops the graph. */
  function CheckClarity(s: State): (r: string)
    ensures r == BriefNode <==> s.isTopicClarified == Some(true)
    ensures r != BriefNode ==> r == Graph.End
  {
    if s.isTopicClarified.Some? && s.isTopicClarified.value then BriefNode else Graph.End
  }

  /** The scope graph. */
  const Edges: Graph.Table := [
    Graph.Direct(Graph.Start, AnalyzeNode),
    Graph.Branch(AnalyzeNode, map[BriefNode := BriefNode, Graph.End := Graph.End]),
    Graph.Direct(BriefNode, Graph.End)
  ]

  const Nodes := {AnalyzeNode, BriefNode}

  /** The table is closed over the two nodes, the graph starts at the
      clarifier, the brief writer ends it, and whatever the gate answers is
      a key of its declared map and leads where it says. */
  lemma GateFollowsEdges(s: State)
    ensures Graph.WellFormed(Edges, Nodes)
    ensures Graph.Next(Edges, Graph.Start, None) == Ok(AnalyzeNode)
    ensures Graph.Next(Edges, AnalyzeNode, Some(CheckClarity(s))) == Ok(CheckClarity(s))
    ensures Graph.Next(Edges, BriefNode, None) == Ok(Graph.End)
  {
    Graph.EdgeFromFirst(Edges, Graph.Start, 0);
    Graph.EdgeFromFirst(Edges, AnalyzeNode, 1);
    Graph.EdgeFromFirst(Edges, BriefNode, 2);
  }

  /** How a scoping run ends: the history it leaves and whether a brief was
      written. */
  datatype Outcome = Outcome(final: State, wroteBrief: bool)

  /** The whole scope graph: clarify, then write the brief if the gate
      lets the run through.  An exception in either step ends the run. */
  function Run(s: State, analysis: TopicAnalysis, question: ResearchQuestion,
               dumpAnalysis: TopicAnalysis -> string, dumpQuestion: ResearchQuestion -> string): Result<Outcome>
  {
    match Clarify(s, analysis, dumpAnalysis)
    case Err(e) => Err(e)
    case Ok(u) =>
      var s1 := Apply(s, u);
      if CheckClarity(s1) == BriefNode then
        match WriteBrief(s1, question, dumpQuestion)
        case Err(e) => Err(e)
        case Ok(u2) => Ok(Outcome(Apply(s1, u2), true))
      else Ok(Outcome(s1, false))
  }

  /** A run raises exactly when the incoming history holds a message the
      serialiser rejects; the clarifier's own message never makes the brief
      writer fail.  Otherwise the gate reads the flag the clarifier just
      wrote, whatever flag the state held before: a brief is written exactly
      when the analysis says the topic is clear, and the history gains one
      message per step taken. */
  lemma GateFollowsAnalysis(s: State, analysis: TopicAnalysis, question: ResearchQuestion,
                            dumpAnalysis: TopicAnalysis -> string, dumpQuestion: ResearchQuestion -> string)
    ensures var r := Run(s, analysis, question, dumpAnalysis, dumpQuestion);
      && (r.Ok? <==> Utils.AllSupported(s.messages))
      && (r.Err? ==> r.error == Utils.UnsupportedError)
    ensures var r := Run(s, analysis, question, dumpAnalysis, dumpQuestion);
      r.Ok? ==>
      && (r.value.wroteBrief <==> analysis.isTopicClarified)
      && r.value.final.isTopicClarified == Some(analysis.isTopicClarified)
      && r.value.final.messages ==
           s.messages + [AI(Text(dumpAnalysis(analysis)), [])] +
           (if analysis.isTopicClarified then [AI(Text(dumpQuestion(question)), [])] else [])
  {
    if Utils.AllSupported(s.messages) {
      var s1 := Apply(s, Clarify(s, analysis, dumpAnalysis).value);
      assert s1.messages == s.messages + [AI(Text(dumpAnalysis(analysis)), [])];
      assert Utils.AllSupported(s1.messages) by {
        forall i | 0 <= i < |s1.messages|
          ensures !s1.messages[i].Unsupported?
        {
          if i < |s.messages| { assert s1.messages[i] == s.messages[i]; }
        }
      }
      assert CheckClarity(s1) == BriefNode <==> analysis.isTopicClarified;
      if !analysis.isTopicClarified {
        assert s1.messages == s.messages + [AI(Text(dumpAnalysis(analysis)), [])] + [];
      }
    }
  }
}
