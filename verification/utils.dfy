/** Rendering messages as text: the display formatter for one message and
    the transcript serialiser that turns a history into one prompt string.
    `json.dumps` of tool arguments and Python's `repr` of a tool-call list
    are opaque string functions passed in by the caller. */
module Utils {
  import opened Common
  import opened Messages

  const ToolCallHeader := "\n\U{1F527} Tool Call: "
  const ArgsLabel := "   Args: "
  const IdLabel := "   ID: "
  /** Shown when a tool_use block carries no id. */
  const MissingId := "N/A"

  /** The three lines that display one tool call. */
  function CallLines(name: string, argsJson: string, id: string): seq<string> {
    [ToolCallHeader + name, ArgsLabel + argsJson, IdLabel + id]
  }

  /** What one content block contributes: text items their text, tool_use
      items their three lines, other dicts nothing.  A bare string never
      contributes: reading its `type` raises first. */
  function ItemParts(b: Block, dumps: Args -> string): seq<string> {
    match b
    case StrItem(_) => []
    case TextBlock(t) => [t]
    case ToolUseBlock(name, input, id) => CallLines(name, dumps(input), id.GetOr(MissingId))
    case OtherBlock(_) => []
  }

  /** The parts of list-shaped content, block by block in order. */
  function BlockParts(items: seq<Block>, dumps: Args -> string): seq<string>
    decreases |items|
  {
    if |items| == 0 then [] else ItemParts(items[0], dumps) + BlockParts(items[1..], dumps)
  }

  /** Whether list content holds a tool_use block, which sets
      `tool_calls_processed`. */
  predicate HasToolUse(items: seq<Block>) {
    exists i :: 0 <= i < |items| && items[i].ToolUseBlock?
  }

  /** Whether list content holds a bare string, on which `item.get` raises. */
  predicate HasBareString(items: seq<Block>) {
    exists i :: 0 <= i < |items| && items[i].StrItem?
  }

  /** The parts of the content alone, and whether tool calls were already shown. */
  function ContentParts(c: Content, dumps: Args -> string): (seq<string>, bool) {
    match c
    case Text(s) => ([s], false)
    case Blocks(items) => (BlockParts(items, dumps), HasToolUse(items))
  }

  /** The lines for the tool calls attached to an assistant message. */
  function AttachedParts(calls: seq<ToolCall>, dumps: Args -> string): (r: seq<string>)
    ensures |r| == 3 * |calls|
    ensures forall i :: 0 <= i < |calls| ==>
      && r[3 * i] == ToolCallHeader + calls[i].name
      && r[3 * i + 1] == ArgsLabel + dumps(calls[i].args)
      && r[3 * i + 2] == IdLabel + calls[i].id
    decreases |calls|
  {
    if |calls| == 0 then []
    else
      var rest := AttachedParts(calls[1..], dumps);
      var r := CallLines(calls[0].name, dumps(calls[0].args), calls[0].id) + rest;
      forall i | 1 <= i < |calls|
        ensures && r[3 * i] == ToolCallHeader + calls[i].name
                && r[3 * i + 1] == ArgsLabel + dumps(calls[i].args)
                && r[3 * i + 2] == IdLabel + calls[i].id
      {
        var j := i - 1;
        assert calls[i] == calls[1..][j];
        assert 3 * i == 3 * j + 3;
      }
      r
  }

  /** Raised by the formatter on a bare string item of list content. */
  const BareStringError := "AttributeError: 'str' object has no attribute 'get'"

  /** `format_message_content`: the content's parts, then the attached
      tool calls unless a tool_use block already showed them, one per line.
      It raises exactly when list content holds a bare string, and string
      content without attached calls is shown unchanged. */
  function FormatMessageContent(m: Message, dumps: Args -> string): (r: Result<string>)
    ensures r.Err? <==> m.content.Blocks? && HasBareString(m.content.items)
    ensures r.Err? ==> r.error == BareStringError
    ensures m.content.Text? && (!m.AI? || |m.toolCalls| == 0) ==> r == Ok(m.content.s)
  {
    if m.content.Blocks? && HasBareString(m.content.items) then Err(BareStringError)
    else
      var (parts, processed) := ContentParts(m.content, dumps);
      var attached := if !processed && m.AI? && |m.toolCalls| > 0 then AttachedParts(m.toolCalls, dumps) else [];
      assert m.content.Text? && attached == [] ==> parts + attached == [m.content.s];
      Ok(Join("\n", parts + attached))
  }

  /** List content whose every block is text is shown as those texts, one
      per line, in order. */
  lemma {:induction false} TextBlocksShowTexts(items: seq<Block>, dumps: Args -> string)
    requires forall i :: 0 <= i < |items| ==> items[i].TextBlock?
    ensures BlockParts(items, dumps) == seq(|items|, i requires 0 <= i < |items| => items[i].text)
    decreases |items|
  {
    if |items| > 0 {
      TextBlocksShowTexts(items[1..], dumps);
    }
  }

  /** Parts of two runs of blocks are the parts of each, in order. */
  lemma {:induction false} BlockPartsAppend(a: seq<Block>, b: seq<Block>, dumps: Args -> string)
    ensures BlockParts(a + b, dumps) == BlockParts(a, dumps) + BlockParts(b, dumps)
    decreases |a|
  {
    if |a| == 0 {
      assert a + b == b;
    } else {
      assert (a + b)[1..] == a[1..] + b;
      BlockPartsAppend(a[1..], b, dumps);
    }
  }

  /** A tool_use block in the content hides the attached tool calls: the
      message is shown as if it had none. */
  lemma ToolUseHidesAttachedCalls(m: Message, dumps: Args -> string)
    requires m.AI? && m.content.Blocks? && HasToolUse(m.content.items)
    ensures FormatMessageContent(m, dumps) == FormatMessageContent(m.(toolCalls := []), dumps)
  {
  }

  /** Without a tool_use block, the attached calls follow the content on
      their own lines, three per call. */
  lemma AttachedCallsFollowContent(m: Message, dumps: Args -> string)
    requires m.AI? && |m.toolCalls| > 0
    requires m.content.Text? ||
      (|BlockParts(m.content.items, dumps)| > 0 && !HasToolUse(m.content.items) && !HasBareString(m.content.items))
    ensures FormatMessageContent(m.(toolCalls := []), dumps).Ok?
    ensures FormatMessageContent(m, dumps) ==
      Ok(FormatMessageContent(m.(toolCalls := []), dumps).value + "\n" + Join("\n", AttachedParts(m.toolCalls, dumps)))
  {
    var parts := ContentParts(m.content, dumps).0;
    assert parts + [] == parts;
    JoinAppend("\n", parts, AttachedParts(m.toolCalls, dumps));
  }

  /** Raised for a message class the serialiser does not know. */
  const UnsupportedError := "ValueError: Got unsupported message type"

  /** The role prefix of a message; `None` for an unsupported class. */
  function Role(m: Message, humanPrefix: string, aiPrefix: string): (r: Option<string>)
    ensures r.None? <==> m.Unsupported?
  {
    match m
    case Human(_) => Some(humanPrefix)
    case AI(_, _) => Some(aiPrefix)
    case System(_) => Some("System")
    case FunctionResult(_, _) => Some("Function")
    case Tool(_, _, _) => Some("Tool")
    case Chat(_, role) => Some(role)
    case Unsupported(_) => None
  }

  /** One line of the transcript: role, colon, text, and for an assistant
      message the rendering of its tool-call list whatever its length. */
  function Line(m: Message, humanPrefix: string, aiPrefix: string, reprCalls: seq<ToolCall> -> string): string
    requires !m.Unsupported?
  {
    Role(m, humanPrefix, aiPrefix).value + ": " + TextOf(m.content) +
      (if m.AI? then reprCalls(m.toolCalls) else "")
  }

  predicate AllSupported(msgs: seq<Message>) {
    forall i :: 0 <= i < |msgs| ==> !msgs[i].Unsupported?
  }

  /** The lines of a history, one per message in order, or the error
      raised at the first unsupported message. */
  function Lines(msgs: seq<Message>, humanPrefix: string, aiPrefix: string,
                 reprCalls: seq<ToolCall> -> string): (r: Result<seq<string>>)
    ensures r.Ok? <==> AllSupported(msgs)
    ensures r.Err? ==> r.error == UnsupportedError
    ensures r.Ok? ==> |r.value| == |msgs|
    ensures r.Ok? ==> forall i :: 0 <= i < |msgs| ==>
      !msgs[i].Unsupported? && r.value[i] == Line(msgs[i], humanPrefix, aiPrefix, reprCalls)
    decreases |msgs|
  {
    if |msgs| == 0 then Ok([])
    else if msgs[0].Unsupported? then Err(UnsupportedError)
    else
      match Lines(msgs[1..], humanPrefix, aiPrefix, reprCalls)
      case Err(e) =>
        assert !AllSupported(msgs) by {
          var j :| 0 <= j < |msgs[1..]| && msgs[1..][j].Unsupported?;
          assert msgs[j + 1].Unsupported?;
        }
        Err(e)
      case Ok(rest) =>
        assert forall i :: 1 <= i < |msgs| ==> msgs[i] == msgs[1..][i - 1];
        Ok([Line(msgs[0], humanPrefix, aiPrefix, reprCalls)] + rest)
  }

  /** `get_buffer_string`: the lines joined by newlines. */
  function GetBufferString(msgs: seq<Message>, humanPrefix: string, aiPrefix: string,
                           reprCalls: seq<ToolCall> -> string): (r: Result<string>)
    ensures r.Ok? <==> AllSupported(msgs)
    ensures r.Err? ==> r.error == UnsupportedError
    ensures |msgs| == 0 ==> r == Ok("")
    ensures |msgs| == 1 && r.Ok? ==> r.value == Line(msgs[0], humanPrefix, aiPrefix, reprCalls)
  {
    match Lines(msgs, humanPrefix, aiPrefix, reprCalls)
    case Err(e) => Err(e)
    case Ok(lines) => Ok(Join("\n", lines))
  }

  /** Serialising two non-empty histories one after the other is
      serialising each and joining them with one newline; the transcript of
      a history is therefore a prefix of the transcript of any extension. */
  lemma BufferOfConcat(a: seq<Message>, b: seq<Message>, humanPrefix: string, aiPrefix: string,
                       reprCalls: seq<ToolCall> -> string)
    requires |a| > 0 && |b| > 0 && AllSupported(a) && AllSupported(b)
    ensures AllSupported(a + b)
    ensures GetBufferString(a + b, humanPrefix, aiPrefix, reprCalls).value ==
      GetBufferString(a, humanPrefix, aiPrefix, reprCalls).value + "\n" +
      GetBufferString(b, humanPrefix, aiPrefix, reprCalls).value
  {
    assert AllSupported(a + b) by {
      forall i | 0 <= i < |a + b| ensures !(a + b)[i].Unsupported? {
        if i >= |a| { assert (a + b)[i] == b[i - |a|]; }
      }
    }
    var la := Lines(a, humanPrefix, aiPrefix, reprCalls).value;
    var lb := Lines(b, humanPrefix, aiPrefix, reprCalls).value;
    var lab := Lines(a + b, humanPrefix, aiPrefix, reprCalls).value;
    assert lab == la + lb by {
      forall i | 0 <= i < |lab| ensures lab[i] == (la + lb)[i] {
        if i >= |a| { assert (a + b)[i] == b[i - |a|]; }
      }
    }
    JoinAppend("\n", la, lb);
  }

  /** An unsupported message anywhere in the history makes the whole
      serialisation fail, even after valid messages. */
  lemma UnsupportedAnywhereFails(msgs: seq<Message>, k: nat, humanPrefix: string, aiPrefix: string,
                                 reprCalls: seq<ToolCall> -> string)
    requires k < |msgs| && msgs[k].Unsupported?
    ensures GetBufferString(msgs, humanPrefix, aiPrefix, reprCalls) == Err(UnsupportedError)
  {
  }

  /** A question and its answer, as in the serialiser's own documentation:
      the assistant line still ends with the rendering of its empty
      tool-call list, which the documented result leaves out. */
  lemma ExchangeRendersEmptyCallList(question: string, answer: string, reprCalls: seq<ToolCall> -> string)
    ensures GetBufferString([Human(Text(question)), AI(Text(answer), [])], "Human", "AI", reprCalls) ==
      Ok("Human" + ": " + question + "\n" + ("AI" + ": " + answer + reprCalls([])))
  {
    var msgs := [Human(Text(question)), AI(Text(answer), [])];
    var lines := Lines(msgs, "Human", "AI", reprCalls).value;
    assert AllSupported(msgs);
    assert |lines| == 2;
    assert lines[0] == Line(msgs[0], "Human", "AI", reprCalls) == "Human" + ": " + question;
    assert lines[1] == Line(msgs[1], "Human", "AI", reprCalls) == "AI" + ": " + answer + reprCalls([]);
    assert lines[1..] == [lines[1]];
    assert Join("\n", lines) == lines[0] + "\n" + lines[1];
  }
}
