/** The execution block shared by the supervisor's tool node and the macro
    tool node: split the pending tool calls into think_tool calls and
    ConductResearch calls, run the reflections in order, fan the research
    calls out, and pair every result with the call that produced it.

    The reflection tool is a function from a call to its observation (`None`
    when it raises).  The fan-in of `asyncio.gather` is a list of outcomes
    aligned by index with the ConductResearch calls: `FillAsCompleted`
    writes each run's outcome into its own slot as the runs finish, and
    `GatherIgnoresCompletionOrder` shows the list it fills is the same for
    every completion order. */
module ToolDispatch {
  import opened Common
  import opened Messages

  /** Content used when a delegated run's result has no `research_summary`. */
  const MissingSummary := "Error synthesizing research report"

  /** The argument a ConductResearch call must carry. */
  const TopicKey := "research_topic"

  /** What a delegated run hands back, read through `result.get(...)`. */
  datatype ResearchResult = ResearchResult(summary: Option<string>, rawNotes: Option<seq<string>>)

  /** The tool messages and raw notes one execution produces. */
  datatype Outputs = Outputs(messages: seq<Message>, rawNotes: seq<string>)

  /** Runs the reflection calls one after the other; `None` as soon as one raises. */
  function ThinkMessages(calls: seq<ToolCall>, think: ToolCall -> Option<string>): (r: Option<seq<Message>>)
    ensures r.Some? <==> forall i :: 0 <= i < |calls| ==> think(calls[i]).Some?
    ensures r.Some? ==> |r.value| == |calls|
    ensures r.Some? ==> forall i :: 0 <= i < |calls| ==>
      r.value[i] == Tool(Text(think(calls[i]).value), calls[i].name, calls[i].id)
  {
    if |calls| == 0 then Some([])
    else
      match think(calls[0])
      case None => None
      case Some(observation) =>
        match ThinkMessages(calls[1..], think)
        case None =>
          assert exists i :: 1 <= i < |calls| && think(calls[i]).None? by {
            var j :| 0 <= j < |calls[1..]| && think(calls[1..][j]).None?;
            assert calls[1..][j] == calls[j + 1];
          }
          None
        case Some(rest) =>
          assert forall i :: 1 <= i < |calls| ==> calls[i] == calls[1..][i - 1];
          Some([Tool(Text(observation), calls[0].name, calls[0].id)] + rest)
  }

  /** The tool message for one delegated result. */
  function ResearchMessage(call: ToolCall, result: ResearchResult): Message {
    Tool(Text(result.summary.GetOr(MissingSummary)), call.name, call.id)
  }

  /** `"\n".join(result.get("raw_notes", []))` */
  function RawNote(result: ResearchResult): string {
    Join("\n", result.rawNotes.GetOr([]))
  }

  /** Every research call names a topic and every delegated run returned. */
  predicate DelegationSucceeds(calls: seq<ToolCall>, gathered: seq<Option<ResearchResult>>) {
    forall j :: 0 <= j < |calls| ==> TopicKey in calls[j].args && j < |gathered| && gathered[j].Some?
  }

  /** `zip(tool_results, conduct_research_calls)` turned into tool messages. */
  function ResearchMessages(calls: seq<ToolCall>, gathered: seq<Option<ResearchResult>>): seq<Message>
    requires |gathered| == |calls| && DelegationSucceeds(calls, gathered)
  {
    seq(|calls|, j requires 0 <= j < |calls| => ResearchMessage(calls[j], gathered[j].value))
  }

  function RawNotes(gathered: seq<Option<ResearchResult>>): seq<string>
    requires forall j :: 0 <= j < |gathered| ==> gathered[j].Some?
  {
    seq(|gathered|, j requires 0 <= j < |gathered| => RawNote(gathered[j].value))
  }

  /** `asyncio.gather` over one delegated run per call, in call order.  This
      is the reference the fan-in is compared with: its contract only
      spells out the index alignment, and `GatherIgnoresCompletionOrder`
      relates it to the order in which the runs actually finish. */
  function Gather(calls: seq<ToolCall>, research: ToolCall -> Option<ResearchResult>): (r: seq<Option<ResearchResult>>)
    ensures |r| == |calls|
    ensures forall i :: 0 <= i < |calls| ==> r[i] == research(calls[i])
  {
    seq(|calls|, i requires 0 <= i < |calls| => research(calls[i]))
  }

  /** The slots of the fan-in before any delegated run has finished. */
  function Unfilled(n: nat): seq<Option<ResearchResult>> {
    seq(n, i => None)
  }

  /** The fan-in as the delegated runs finish: `order` lists the runs in
      completion order, and a finishing run's outcome is written into the
      slot of the call that launched it.  A slot holds its call's outcome
      once that run has finished and is untouched until then. */
  function FillAsCompleted(slots: seq<Option<ResearchResult>>, calls: seq<ToolCall>,
                           research: ToolCall -> Option<ResearchResult>, order: seq<nat>): (r: seq<Option<ResearchResult>>)
    requires |slots| == |calls|
    requires forall k :: 0 <= k < |order| ==> order[k] < |calls|
    ensures |r| == |calls|
    ensures forall i :: 0 <= i < |calls| ==> r[i] == (if i in order then research(calls[i]) else slots[i])
    decreases |order|
  {
    if |order| == 0 then slots
    else
      var j := order[0];
      var r := FillAsCompleted(slots[j := research(calls[j])], calls, research, order[1..]);
      assert forall i :: i in order <==> i == j || i in order[1..] by {
        assert order == [j] + order[1..];
      }
      r
  }

  /** `order` is a completion order of `n` runs: each run finishes exactly once. */
  predicate IsCompletionOrder(order: seq<nat>, n: nat) {
    && |order| == n
    && (forall k :: 0 <= k < |order| ==> order[k] < n)
    && (forall i :: 0 <= i < n ==> i in order)
    && (forall k, l :: 0 <= k < l < |order| ==> order[k] != order[l])
  }

  /** Whatever order the delegated runs finish in, the fan-in hands back
      the outcomes aligned by index with the calls: the list `Gather` gives. */
  lemma GatherIgnoresCompletionOrder(calls: seq<ToolCall>, research: ToolCall -> Option<ResearchResult>,
                                     order: seq<nat>)
    requires IsCompletionOrder(order, |calls|)
    ensures FillAsCompleted(Unfilled(|calls|), calls, research, order) == Gather(calls, research)
  {
    var r := FillAsCompleted(Unfilled(|calls|), calls, research, order);
    assert forall i :: 0 <= i < |calls| ==> r[i] == research(calls[i]);
  }

  /** The guarded block of the tool node: `None` when anything in it raises. */
  function Execute(calls: seq<ToolCall>, think: ToolCall -> Option<string>,
                   gathered: seq<Option<ResearchResult>>): (r: Option<Outputs>)
    requires |gathered| == |ResearchCalls(calls)|
    ensures r.Some? <==>
      && (forall i :: 0 <= i < |ThinkCalls(calls)| ==> think(ThinkCalls(calls)[i]).Some?)
      && (forall j :: 0 <= j < |ResearchCalls(calls)| ==>
            TopicKey in ResearchCalls(calls)[j].args && gathered[j].Some?)
    ensures r.Some? ==> |r.value.messages| == |ThinkCalls(calls)| + |ResearchCalls(calls)|
    ensures r.Some? ==> forall i :: 0 <= i < |ThinkCalls(calls)| ==>
      r.value.messages[i] ==
        Tool(Text(think(ThinkCalls(calls)[i]).value), ThinkTool, ThinkCalls(calls)[i].id)
    ensures r.Some? ==> forall j :: 0 <= j < |ResearchCalls(calls)| ==>
      r.value.messages[|ThinkCalls(calls)| + j] ==
        Tool(Text(gathered[j].value.summary.GetOr(MissingSummary)), ConductResearch, ResearchCalls(calls)[j].id)
    ensures r.Some? ==> |r.value.rawNotes| == |ResearchCalls(calls)|
    ensures r.Some? ==> forall j :: 0 <= j < |ResearchCalls(calls)| ==>
      r.value.rawNotes[j] == Join("\n", gathered[j].value.rawNotes.GetOr([]))
  {
    var thinkMessages := ThinkMessages(ThinkCalls(calls), think);
    var research := ResearchCalls(calls);
    if thinkMessages.None? then None
    else if |research| == 0 then Some(Outputs(thinkMessages.value, []))
    else if DelegationSucceeds(research, gathered) then
      Some(Outputs(thinkMessages.value + ResearchMessages(research, gathered), RawNotes(gathered)))
    else None
  }

  /** Every emitted message answers a reflection or a delegation. */
  lemma ExecuteAnswersOnlyTwoTools(calls: seq<ToolCall>, think: ToolCall -> Option<string>,
                                   gathered: seq<Option<ResearchResult>>)
    requires |gathered| == |ResearchCalls(calls)|
    requires Execute(calls, think, gathered).Some?
    ensures var out := Execute(calls, think, gathered).value.messages;
      forall k :: 0 <= k < |out| ==> out[k].Tool? && (out[k].name == ThinkTool || out[k].name == ConductResearch)
  {
    var out := Execute(calls, think, gathered).value.messages;
    forall k | 0 <= k < |out|
      ensures out[k].Tool? && (out[k].name == ThinkTool || out[k].name == ConductResearch)
    {
      if k >= |ThinkCalls(calls)| {
        assert out[|ThinkCalls(calls)| + (k - |ThinkCalls(calls)|)] == out[k];
      }
    }
  }

  /** `out` answers every call of the reply by id and name, and no two of
      its messages share an id. */
  predicate AnswersDistinctCalls(calls: seq<ToolCall>, out: seq<Message>) {
    && (forall k :: 0 <= k < |out| ==>
          (out[k].Tool? && exists p :: 0 <= p < |calls| && calls[p].id == out[k].toolCallId && calls[p].name == out[k].name))
    && (forall k, l :: 0 <= k < l < |out| ==> out[k].toolCallId != out[l].toolCallId)
  }

  /** `out` answers the reflection group position by position, then the
      delegation group. */
  predicate GroupLayout(thinks: seq<ToolCall>, research: seq<ToolCall>, out: seq<Message>) {
    && |out| == |thinks| + |research|
    && (forall i :: 0 <= i < |thinks| ==>
          out[i].Tool? && out[i].toolCallId == thinks[i].id && out[i].name == ThinkTool)
    && (forall j :: 0 <= j < |research| ==>
          out[|thinks| + j].Tool? && out[|thinks| + j].toolCallId == research[j].id &&
          out[|thinks| + j].name == ConductResearch)
  }

  /** The layout of the block's messages. */
  lemma ExecuteLayout(calls: seq<ToolCall>, think: ToolCall -> Option<string>,
                      gathered: seq<Option<ResearchResult>>)
    requires |gathered| == |ResearchCalls(calls)|
    requires Execute(calls, think, gathered).Some?
    ensures GroupLayout(ThinkCalls(calls), ResearchCalls(calls), Execute(calls, think, gathered).value.messages)
  {
  }

  /** With unique call ids, the emitted tool messages answer distinct calls:
      every message carries the id and name of a call of the reply, and no
      two messages share an id. */
  lemma PairingOneToOne(calls: seq<ToolCall>, think: ToolCall -> Option<string>,
                        gathered: seq<Option<ResearchResult>>)
    requires |gathered| == |ResearchCalls(calls)|
    requires DistinctIds(calls)
    requires Execute(calls, think, gathered).Some?
    ensures AnswersDistinctCalls(calls, Execute(calls, think, gathered).value.messages)
  {
    CallsNamedDistinct(calls, ThinkTool);
    CallsNamedDistinct(calls, ConductResearch);
    ExecuteLayout(calls, think, gathered);
    GroupsAnswerDistinctCalls(calls, ThinkCalls(calls), ResearchCalls(calls),
                              Execute(calls, think, gathered).value.messages);
  }

  /** The pairing argument, stated over the two groups and the messages that
      answer them position by position. */
  lemma GroupsAnswerDistinctCalls(calls: seq<ToolCall>, thinks: seq<ToolCall>, research: seq<ToolCall>,
                                  out: seq<Message>)
    requires DistinctIds(calls) && DistinctIds(thinks) && DistinctIds(research)
    requires forall i :: 0 <= i < |thinks| ==> thinks[i] in calls && thinks[i].name == ThinkTool
    requires forall j :: 0 <= j < |research| ==> research[j] in calls && research[j].name == ConductResearch
    requires GroupLayout(thinks, research, out)
    ensures AnswersDistinctCalls(calls, out)
  {
    forall k | 0 <= k < |out|
      ensures out[k].Tool? &&
        exists p :: 0 <= p < |calls| && calls[p].id == out[k].toolCallId && calls[p].name == out[k].name
    {
      var c := if k < |thinks| then thinks[k] else research[k - |thinks|];
      assert c in calls && out[k].Tool? && out[k].toolCallId == c.id && out[k].name == c.name;
      var p :| 0 <= p < |calls| && calls[p] == c;
    }
    forall k, l | 0 <= k < l < |out|
      ensures out[k].toolCallId != out[l].toolCallId
    {
      if l < |thinks| {
        assert out[k].toolCallId == thinks[k].id && out[l].toolCallId == thinks[l].id;
      } else if |thinks| <= k {
        assert out[k].toolCallId == research[k - |thinks|].id;
        assert out[l].toolCallId == research[l - |thinks|].id;
      } else {
        // One think call and one research call: different calls, so different positions.
        var c, d := thinks[k], research[l - |thinks|];
        assert out[k].toolCallId == c.id && out[l].toolCallId == d.id;
        var p :| 0 <= p < |calls| && calls[p] == c;
        var q :| 0 <= q < |calls| && calls[q] == d;
        assert p != q;
      }
    }
  }
}
