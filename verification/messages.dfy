/** The chat messages every node reads and writes, and the tool calls an
    assistant message carries.  Each message class of the library becomes
    one constructor; only the fields the control logic looks at are kept. */
module Messages {
  import opened Common

  /** Tool-call arguments.  Only string-valued keys are read by the core
      (`research_topic`); everything else is passed through opaquely. */
  type Args = map<string, string>

  /** `{"name": ..., "args": ..., "id": ...}` on an assistant message. */
  datatype ToolCall = ToolCall(name: string, args: Args, id: string)

  /** One item of list-shaped message content: a dict with a `type` key,
      or a bare string, which list content may also hold. */
  datatype Block =
    | StrItem(raw: string)
    | TextBlock(text: string)
    | ToolUseBlock(name: string, input: Args, id: Option<string>)
    | OtherBlock(kind: string)

  /** Message content: a plain string or a list of content blocks. */
  datatype Content = Text(s: string) | Blocks(items: seq<Block>)

  /** The message classes the code distinguishes.  Only `AI` carries
      `tool_calls`; `Unsupported` stands for any other message class. */
  datatype Message =
    | Human(content: Content)
    | AI(content: Content, toolCalls: seq<ToolCall>)
    | System(content: Content)
    | FunctionResult(content: Content, fname: string)
    | Tool(content: Content, name: string, toolCallId: string)
    | Chat(content: Content, role: string)
    | Unsupported(content: Content)

  const ThinkTool := "think_tool"
  const ConductResearch := "ConductResearch"
  const ResearchComplete := "ResearchComplete"

  /** `m.tool_calls`: only assistant messages have the attribute; reading
      it on any other message raises. */
  function ToolCallsOf(m: Message): Option<seq<ToolCall>> {
    if m.AI? then Some(m.toolCalls) else None
  }

  /** `messages[-1]`, which raises on an empty list. */
  function LastOf(msgs: seq<Message>): Option<Message> {
    if |msgs| == 0 then None else Some(msgs[|msgs| - 1])
  }

  /** The tool calls of the last message, or none when it has none to give. */
  function PendingCalls(msgs: seq<Message>): seq<ToolCall> {
    if |msgs| > 0 && msgs[|msgs| - 1].AI? then msgs[|msgs| - 1].toolCalls else []
  }

  /** `[tc for tc in calls if tc["name"] == name]` */
  function CallsNamed(calls: seq<ToolCall>, name: string): (r: seq<ToolCall>)
    ensures |r| <= |calls|
    ensures forall i :: 0 <= i < |r| ==> r[i].name == name
    ensures forall i :: 0 <= i < |r| ==> r[i] in calls
    ensures forall i :: 0 <= i < |calls| && calls[i].name == name ==> calls[i] in r
  {
    if |calls| == 0 then []
    else if calls[0].name == name then [calls[0]] + CallsNamed(calls[1..], name)
    else CallsNamed(calls[1..], name)
  }

  /** The filter distributes over concatenation: together with its value on
      one call this fixes it completely, so each group keeps call order. */
  lemma {:induction false} CallsNamedAppend(a: seq<ToolCall>, b: seq<ToolCall>, name: string)
    ensures CallsNamed(a + b, name) == CallsNamed(a, name) + CallsNamed(b, name)
    decreases |a|
  {
    if |a| > 0 {
      assert (a + b)[0] == a[0] && (a + b)[1..] == a[1..] + b;
      CallsNamedAppend(a[1..], b, name);
    } else {
      assert a + b == b;
    }
  }

  /** Each group is a subsequence of the calls: original relative order. */
  lemma {:induction false} CallsNamedIsSubsequence(calls: seq<ToolCall>, name: string)
    ensures IsSubsequence(CallsNamed(calls, name), calls)
    decreases |calls|
  {
    if |calls| > 0 {
      CallsNamedIsSubsequence(calls[1..], name);
      var r := CallsNamed(calls, name);
      if calls[0].name == name {
        assert r[0] == calls[0] && r[1..] == CallsNamed(calls[1..], name);
      } else {
        assert r == CallsNamed(calls[1..], name);
        if |r| > 0 {
          assert IsSubsequence(r, calls[1..]);
        }
      }
    }
  }

  /** The think_tool calls of a reply, in reply order. */
  function ThinkCalls(calls: seq<ToolCall>): seq<ToolCall> {
    CallsNamed(calls, ThinkTool)
  }

  /** The ConductResearch calls of a reply, in reply order. */
  function ResearchCalls(calls: seq<ToolCall>): seq<ToolCall> {
    CallsNamed(calls, ConductResearch)
  }

  /** `any(tc["name"] == name for tc in calls)` */
  function AnyNamed(calls: seq<ToolCall>, name: string): (b: bool)
    ensures b <==> exists i :: 0 <= i < |calls| && calls[i].name == name
  {
    if |calls| == 0 then false
    else if calls[0].name == name then true
    else
      var rest := AnyNamed(calls[1..], name);
      assert forall i :: 1 <= i < |calls| ==> calls[i] == calls[1..][i - 1];
      rest
  }

  /** Tool-call ids are unique within one assistant message. */
  predicate DistinctIds(calls: seq<ToolCall>) {
    forall i, j :: 0 <= i < j < |calls| ==> calls[i].id != calls[j].id
  }

  /** Filtering keeps ids unique. */
  lemma {:induction false} CallsNamedDistinct(calls: seq<ToolCall>, name: string)
    requires DistinctIds(calls)
    ensures DistinctIds(CallsNamed(calls, name))
    decreases |calls|
  {
    if |calls| > 0 {
      assert DistinctIds(calls[1..]) by {
        forall i, j | 0 <= i < j < |calls[1..]|
          ensures calls[1..][i].id != calls[1..][j].id
        {
          assert calls[1..][i] == calls[i + 1] && calls[1..][j] == calls[j + 1];
        }
      }
      CallsNamedDistinct(calls[1..], name);
      if calls[0].name == name {
        var rest := CallsNamed(calls[1..], name);
        forall k | 0 <= k < |rest|
          ensures rest[k].id != calls[0].id
        {
          var p :| 0 <= p < |calls[1..]| && calls[1..][p] == rest[k];
          assert calls[p + 1] == rest[k];
        }
        var r := CallsNamed(calls, name);
        assert r == [calls[0]] + rest;
        forall i, j | 0 <= i < j < |r|
          ensures r[i].id != r[j].id
        {
          if i == 0 {
            assert r[j] == rest[j - 1];
          } else {
            assert r[i] == rest[i - 1] && r[j] == rest[j - 1];
          }
        }
      }
    }
  }

  /** `BaseMessage.text`: the string content itself, or the concatenation of
      the bare strings and text blocks of list content. */
  function TextOf(c: Content): string {
    match c
    case Text(s) => s
    case Blocks(items) => BlockTexts(items)
  }

  function BlockTexts(items: seq<Block>): string {
    if |items| == 0 then ""
    else
      (if items[0].TextBlock? then items[0].text else if items[0].StrItem? then items[0].raw else "")
        + BlockTexts(items[1..])
  }

  /** `str(content)`: a string is itself; the rendering of a list
      (Python's repr) is an opaque parameter. */
  function Str(c: Content, reprBlocks: seq<Block> -> string): string {
    match c
    case Text(s) => s
    case Blocks(items) => reprBlocks(items)
  }
}
