/**
 OpenAI chat histories as Anthropic messages: content and tool calls become blocks,
 and neighbours of one role become one message.
 */
module ChatConversion {
  import opened Options
  import opened Text
  import opened Wire
  import StreamBatch

  datatype ChatMessage = ChatMessage(role: string, content: Json, toolCalls: seq<ToolCall>, toolCallID: string)

  datatype AnthropicMessage = AnthropicMessage(role: string, content: seq<ContentBlock>)

  datatype Codec = Codec(
    encode: Json -> string,
    decode: string -> Option<Json>,
    encodeCall: ToolCall -> string)

  /** Encoding is faithful, and writes no white space around a value. */
  ghost predicate Lawful(c: Codec) {
    && (forall v :: c.decode(c.encode(v)) == Some(v))
    && (forall v :: c.encode(v) != "" && Trimmed(c.encode(v)))
    && c.encode(Obj(map[])) == "{}"
  }

  // Content

  /** `flattenStructuredContentPart`. */
  function PartText(part: Json): string {
    if !part.Obj? then ""
    else if "text" in part.fields && part.fields["text"].Str? then Trim(part.fields["text"].s)
    else if "input_text" in part.fields && part.fields["input_text"].Str? then Trim(part.fields["input_text"].s)
    else if "output_text" in part.fields && part.fields["output_text"].Str? then Trim(part.fields["output_text"].s)
    else ""
  }

  function PartTexts(items: seq<Json>): seq<string> {
    if items == [] then []
    else (if PartText(items[0]) == "" then [] else [PartText(items[0])]) + PartTexts(items[1..])
  }

  /** `flattenMessageContent`. */
  function FlattenContent(c: Codec, content: Json): string {
    match content
    case Null => ""
    case Str(s) => s
    case Arr(items) => if PartTexts(items) != [] then Join(PartTexts(items), "\n") else c.encode(content)
    case Obj(_) => if PartText(content) != "" then PartText(content) else c.encode(content)
    case _ => c.encode(content)
  }

  function FlattenCall(c: Codec, call: ToolCall): string {
    if call.call.None? then c.encodeCall(call)
    else
      var name, args := Trim(call.call.value.name), Trim(call.call.value.arguments);
      if name != "" && args != "" then "tool_call " + name + "(" + args + ")"
      else if name != "" then "tool_call " + name
      else c.encodeCall(call)
  }

  function FlattenCalls(c: Codec, calls: seq<ToolCall>): seq<string> {
    if calls == [] then [] else [FlattenCall(c, calls[0])] + FlattenCalls(c, calls[1..])
  }

  /** `flattenChatMessage`. */
  function FlattenMessage(c: Codec, message: ChatMessage): string {
    var content := Trim(FlattenContent(c, message.content));
    var calls := Trim(Join(FlattenCalls(c, message.toolCalls), "\n"));
    Join((if content == "" then [] else [content]) + (if calls == "" then [] else [calls]), "\n")
  }

  function TextBlocks(texts: seq<string>): seq<ContentBlock> {
    seq(|texts|, i requires 0 <= i < |texts| => TextBlock(texts[i]))
  }

  /** `convertContentToAnthropicTextBlocks`. */
  function ContentBlocks(c: Codec, content: Json): seq<ContentBlock> {
    if content.Null? then []
    else if content.Str? then (if Blank(content.s) then [] else [TextBlock(content.s)])
    else if content.Arr? && PartTexts(content.items) != [] then TextBlocks(PartTexts(content.items))
    else if content.Obj? && PartText(content) != "" then [TextBlock(PartText(content))]
    else
      var flattened := Trim(FlattenContent(c, content));
      if flattened == "" then [] else [TextBlock(flattened)]
  }

  /** `parseToolCallArguments`. */
  function ParseArguments(c: Codec, raw: string): Json {
    if Blank(raw) then Obj(map[])
    else if c.decode(Trim(raw)).None? then Obj(map["raw" := Str(Trim(raw))])
    else c.decode(Trim(raw)).value
  }

  // Messages

  function ToolUse(c: Codec, call: ToolCall): seq<ContentBlock> {
    match call.call
    case None => []
    case Some(f) => [ToolUseBlock(DefaultIfBlank(call.id, "tool_call"), Trim(f.name), ParseArguments(c, f.arguments))]
  }

  function ToolUses(c: Codec, calls: seq<ToolCall>): seq<ContentBlock> {
    if calls == [] then []
    else ToolUses(c, calls[..|calls| - 1]) + ToolUse(c, calls[|calls| - 1])
  }

  function AssistantBlocks(c: Codec, message: ChatMessage): seq<ContentBlock> {
    ContentBlocks(c, message.content) + ToolUses(c, message.toolCalls)
  }

  /** `convertUserMessageToAnthropicBlocks`. */
  function UserBlocks(c: Codec, message: ChatMessage): seq<ContentBlock> {
    if ContentBlocks(c, message.content) != [] then ContentBlocks(c, message.content)
    else
      var fallback := Trim(FlattenMessage(c, message));
      if fallback == "" then [] else [TextBlock(fallback)]
  }

  /** `convertToolMessageToAnthropicBlocks`. */
  function ToolBlocks(c: Codec, message: ChatMessage): seq<ContentBlock> {
    var toolUseID := Trim(message.toolCallID);
    var flattened := Trim(FlattenContent(c, message.content));
    var content := if flattened == "" then c.encode(message.content) else flattened;
    if toolUseID == "" && content == "" then []
    else [ToolResultBlock(toolUseID, DefaultIfBlank(content, "{}"))]
  }

  /** `convertAssistantMessageToAnthropicBlocks`. */
  method ConvertAssistantMessage(c: Codec, message: ChatMessage) returns (blocks: seq<ContentBlock>)
    ensures blocks == AssistantBlocks(c, message)
  {
    blocks := ContentBlocks(c, message.content);
    for i := 0 to |message.toolCalls|
      invariant blocks == ContentBlocks(c, message.content) + ToolUses(c, message.toolCalls[..i])
    {
      hide ContentBlocks, ParseArguments;
      var toolCall := message.toolCalls[i];
      assert message.toolCalls[..i + 1][..i] == message.toolCalls[..i];
      if toolCall.call.None? {
        continue;
      }
      var input := ParseArguments(c, toolCall.call.value.arguments);
      blocks := blocks
        + [ToolUseBlock(DefaultIfBlank(toolCall.id, "tool_call"), Trim(toolCall.call.value.name), input)];
    }
    assert message.toolCalls[..|message.toolCalls|] == message.toolCalls;
  }

  function Role(message: ChatMessage): string {
    Trim(ToLower(message.role))
  }

  /** The role a message speaks in on the Anthropic side. */
  function Speaker(message: ChatMessage): string {
    if Role(message) == "assistant" then "assistant" else "user"
  }

  /** The blocks a message contributes to the conversation; system messages go to the prompt. */
  function MessageBlocks(c: Codec, message: ChatMessage): seq<ContentBlock> {
    if Role(message) == "system" then []
    else if Role(message) == "assistant" then AssistantBlocks(c, message)
    else if Role(message) == "tool" then ToolBlocks(c, message)
    else UserBlocks(c, message)
  }

  function SystemText(c: Codec, message: ChatMessage): seq<string> {
    var text := Trim(FlattenMessage(c, message));
    if Role(message) == "system" && text != "" then [text] else []
  }

  function SystemTexts(c: Codec, messages: seq<ChatMessage>): seq<string> {
    if messages == [] then []
    else SystemTexts(c, messages[..|messages| - 1]) + SystemText(c, messages[|messages| - 1])
  }

  /** A block with the role that speaks it. */
  datatype Spoken = Spoken(role: string, block: ContentBlock)

  function Speak(role: string, blocks: seq<ContentBlock>): seq<Spoken> {
    seq(|blocks|, i requires 0 <= i < |blocks| => Spoken(role, blocks[i]))
  }

  /** What a chat history says: the blocks of its messages in order, each with its role. */
  function Said(c: Codec, messages: seq<ChatMessage>): seq<Spoken> {
    if messages == [] then []
    else
      var m := messages[|messages| - 1];
      Said(c, messages[..|messages| - 1]) + Speak(Speaker(m), MessageBlocks(c, m))
  }

  /** What a list of Anthropic messages says. */
  function Told(converted: seq<AnthropicMessage>): seq<Spoken> {
    if converted == [] then []
    else
      var m := converted[|converted| - 1];
      Told(converted[..|converted| - 1]) + Speak(m.role, m.content)
  }

  /** No message is empty, and neighbours differ in role. */
  predicate WellGrouped(converted: seq<AnthropicMessage>) {
    && (forall i :: 0 <= i < |converted| ==> converted[i].content != [])
    && (forall i :: 0 < i < |converted| ==> converted[i - 1].role != converted[i].role)
  }

  /** The `appendMessage` step. */
  method AppendMessage(converted: seq<AnthropicMessage>, role: string, blocks: seq<ContentBlock>)
    returns (extended: seq<AnthropicMessage>)
    requires WellGrouped(converted)
    ensures WellGrouped(extended)
    ensures Told(extended) == Told(converted) + Speak(role, blocks)
  {
    hide Told, Speak;
    SpeakAppend(role, [], blocks);
    if |blocks| == 0 {
      assert Told(converted) + [] == Told(converted);
      return converted;
    }
    var n := |converted|;
    if n > 0 && converted[n - 1].role == role {
      var last := converted[n - 1];
      extended := converted[n - 1 := last.(content := last.content + blocks)];
      SpeakAppend(role, last.content, blocks);
      ToldSnoc(converted[..n - 1], last);
      ToldSnoc(converted[..n - 1], last.(content := last.content + blocks));
      assert converted == converted[..n - 1] + [last];
      assert extended == converted[..n - 1] + [last.(content := last.content + blocks)];
      return;
    }
    extended := converted + [AnthropicMessage(role, blocks)];
    ToldSnoc(converted, AnthropicMessage(role, blocks));
  }

  lemma SpeakAppend(role: string, a: seq<ContentBlock>, b: seq<ContentBlock>)
    ensures Speak(role, a + b) == Speak(role, a) + Speak(role, b)
    ensures Speak(role, []) == []
  {
  }

  lemma ToldSnoc(front: seq<AnthropicMessage>, m: AnthropicMessage)
    ensures Told(front + [m]) == Told(front) + Speak(m.role, m.content)
  {
    assert (front + [m])[..|front|] == front;
  }

  /**
   `convertChatMessagesToAnthropic`: the converted messages are well grouped and say what the
   history says, block for block and role for role; the system texts make up the prompt.
   */
  method ConvertChatMessages(c: Codec, messages: seq<ChatMessage>)
    returns (system: string, converted: seq<AnthropicMessage>)
    ensures WellGrouped(converted) && Told(converted) == Said(c, messages)
    ensures system == Join(SystemTexts(c, messages), "\n\n")
  {
    hide WellGrouped, Told, SystemText, AssistantBlocks, UserBlocks, ToolBlocks;
    var systemParts: seq<string> := [];
    converted := [];
    assert WellGrouped([]) && Told([]) == [] by { NothingTold(); }
    for i := 0 to |messages|
      invariant systemParts == SystemTexts(c, messages[..i])
      invariant WellGrouped(converted) && Told(converted) == Said(c, messages[..i])
    {
      var message := messages[i];
      assert messages[..i + 1][..i] == messages[..i];
      var role := Trim(ToLower(message.role));
      systemParts := SystemStep(c, systemParts, message);
      match role {
        case "system" =>
          assert Speak(Speaker(message), []) == [] && Told(converted) + [] == Told(converted);
        case "assistant" =>
          var blocks := ConvertAssistantMessage(c, message);
          converted := AppendMessage(converted, "assistant", blocks);
        case "tool" =>
          converted := AppendMessage(converted, "user", ToolBlocks(c, message));
        case _ =>
          converted := AppendMessage(converted, "user", UserBlocks(c, message));
      }
    }
    assert messages[..|messages|] == messages;
    system := Join(systemParts, "\n\n");
  }

  lemma NothingTold()
    ensures WellGrouped([]) && Told([]) == []
  {
  }

  /** A system message adds its text to the prompt, unless it is blank. */
  method SystemStep(c: Codec, parts: seq<string>, message: ChatMessage) returns (extended: seq<string>)
    ensures extended == parts + SystemText(c, message)
  {
    extended := parts;
    if Trim(ToLower(message.role)) == "system" {
      var text := Trim(FlattenMessage(c, message));
      if text != "" {
        extended := parts + [text];
      }
    }
  }

  // Grouping is unique

  lemma ToldEmpty(converted: seq<AnthropicMessage>)
    requires WellGrouped(converted)
    ensures Told(converted) == [] <==> converted == []
    ensures converted != [] ==> Told(converted)[|Told(converted)| - 1].role == converted[|converted| - 1].role
  {
  }

  lemma SpeakInjective(role: string, a: seq<ContentBlock>, b: seq<ContentBlock>)
    requires Speak(role, a) == Speak(role, b)
    ensures a == b
  {
    assert |Speak(role, a)| == |a| && |Speak(role, b)| == |b|;
    forall i | 0 <= i < |a| ensures a[i] == b[i] {
      assert Speak(role, a)[i] == Spoken(role, a[i]);
      assert Speak(role, b)[i] == Spoken(role, b[i]);
    }
  }

  lemma LastSplit(a: seq<AnthropicMessage>)
    requires WellGrouped(a) && a != []
    ensures
      var m, front := a[|a| - 1], a[..|a| - 1];
      && WellGrouped(front) && m.content != [] && |Speak(m.role, m.content)| == |m.content|
      && Told(a) == Told(front) + Speak(m.role, m.content)
      && (front != [] ==> front[|front| - 1].role != m.role)
  {
  }

  /** A well-grouped list ends in a run of its last message's role, and no longer a run than that message. */
  lemma LastRun(a: seq<AnthropicMessage>)
    requires WellGrouped(a) && a != []
    ensures
      var m := a[|a| - 1];
      var cut := |Told(a)| - |m.content|;
      && 0 <= cut < |Told(a)|
      && (forall k :: cut <= k < |Told(a)| ==> Told(a)[k].role == m.role)
      && (cut > 0 ==> Told(a)[cut - 1].role != m.role)
      && WellGrouped(a[..|a| - 1]) && Told(a[..|a| - 1]) == Told(a)[..cut] && Speak(m.role, m.content) == Told(a)[cut..]
  {
    hide Told, WellGrouped;
    var m, front := a[|a| - 1], a[..|a| - 1];
    LastSplit(a);
    ToldEmpty(front);
  }

  lemma LastAgrees(a: seq<AnthropicMessage>, b: seq<AnthropicMessage>)
    requires WellGrouped(a) && WellGrouped(b) && Told(a) == Told(b) && a != [] && b != []
    ensures a[|a| - 1] == b[|b| - 1]
    ensures WellGrouped(a[..|a| - 1]) && WellGrouped(b[..|b| - 1]) && Told(a[..|a| - 1]) == Told(b[..|b| - 1])
  {
    hide Told, Speak, WellGrouped;
    var m, n := a[|a| - 1], b[|b| - 1];
    LastRun(a);
    LastRun(b);
    var told := Told(a);
    assert m.role == told[|told| - 1].role == n.role;
    assert |m.content| == |n.content|;
    assert Speak(m.role, m.content) == told[|told| - |m.content|..] == Speak(n.role, n.content);
    SpeakInjective(m.role, m.content, n.content);
  }

  /** There is one well-grouped list of messages for a conversation, so the converted history is it. */
  lemma {:induction false} GroupingUnique(a: seq<AnthropicMessage>, b: seq<AnthropicMessage>)
    requires WellGrouped(a) && WellGrouped(b) && Told(a) == Told(b)
    ensures a == b
    decreases |a|
  {
    ToldEmpty(a);
    ToldEmpty(b);
    if a != [] {
      hide Told, WellGrouped;
      LastAgrees(a, b);
      GroupingUnique(a[..|a| - 1], b[..|b| - 1]);
      assert a == a[..|a| - 1] + [a[|a| - 1]] && b == b[..|b| - 1] + [b[|b| - 1]];
    }
  }

  // Assistant messages and back

  /** A message as the batch normalizer reads its blocks. */
  function Back(c: Codec, message: ChatMessage): (Json, seq<ToolCall>) {
    StreamBatch.BatchMessage(c.encode, AssistantBlocks(c, message))
  }

  /** Arguments that are the encoding of a value other than null. */
  predicate CanonicalArguments(c: Codec, args: string) {
    c.decode(args).Some? && !c.decode(args).value.Null? && c.encode(c.decode(args).value) == args
  }

  predicate CanonicalCall(c: Codec, call: ToolCall) {
    && call.kind == "function" && call.index.None? && !Blank(call.id)
    && call.call.Some? && Trimmed(call.call.value.name) && CanonicalArguments(c, call.call.value.arguments)
  }

  predicate AllCanonical(c: Codec, calls: seq<ToolCall>) {
    forall i :: 0 <= i < |calls| ==> CanonicalCall(c, calls[i])
  }

  /** Content that comes back: nothing beside tool calls, text that says something, or empty text alone. */
  predicate CanonicalContent(message: ChatMessage) {
    match message.content
    case Null => message.toolCalls != []
    case Str(s) => !Blank(s) || (s == "" && message.toolCalls == [])
    case _ => false
  }

  lemma ArgumentsReturn(c: Codec, args: string)
    requires Lawful(c)
    ensures StreamBatch.InputPayload(c.encode, ParseArguments(c, args)) == args <==> CanonicalArguments(c, args)
  {
    TrimFixed(args);
    TrimFixed("{}");
    EmptyObjectDecodes(c);
    var v := ParseArguments(c, args);
    TrimFixed(c.encode(v));
    assert c.decode(c.encode(v)) == Some(v);
    if CanonicalArguments(c, args) {
      assert Trimmed(c.encode(c.decode(args).value));
    }
  }

  lemma EmptyObjectDecodes(c: Codec)
    requires Lawful(c)
    ensures c.decode("{}") == Some(Obj(map[]))
  {
    assert c.decode(c.encode(Obj(map[]))) == Some(Obj(map[]));
  }

  lemma CallReturns(c: Codec, call: ToolCall)
    requires Lawful(c) && call.call.Some?
    ensures StreamBatch.ToolPart(c.encode, ToolUse(c, call)[0]) == call <==> CanonicalCall(c, call)
  {
    hide ParseArguments, CanonicalArguments, StreamBatch.InputPayload;
    ArgumentsReturn(c, call.call.value.arguments);
    TrimFixed(call.call.value.name);
    TrimFixed("tool_call");
  }

  /** What one more call adds to the parts: the call itself exactly when it is canonical. */
  lemma ToolUsesSnoc(c: Codec, front: seq<ToolCall>, call: ToolCall) returns (part: seq<ToolCall>)
    requires Lawful(c)
    ensures
      var before, after := ToolUses(c, front), ToolUses(c, front + [call]);
      && StreamBatch.ToolParts(c.encode, after) == StreamBatch.ToolParts(c.encode, before) + part
      && StreamBatch.TextParts(after) == StreamBatch.TextParts(before)
    ensures |part| <= 1 && (part == [call] <==> CanonicalCall(c, call))
  {
    hide CanonicalCall, ToolUse, StreamBatch.ToolPart, StreamBatch.TextParts, StreamBatch.ToolParts;
    assert (front + [call])[..|front|] == front;
    var before := ToolUses(c, front);
    if call.call.None? {
      NoToolUse(c, call);
      assert before + [] == before;
      part := [];
      assert StreamBatch.ToolParts(c.encode, before) + [] == StreamBatch.ToolParts(c.encode, before);
    } else {
      var block := OneToolUse(c, call);
      CallReturns(c, call);
      StreamBatch.PartsSnoc(c.encode, before, block);
      part := [StreamBatch.ToolPart(c.encode, block)];
    }
  }

  lemma {:induction false} CallsReturn(c: Codec, calls: seq<ToolCall>)
    requires Lawful(c)
    ensures |StreamBatch.ToolParts(c.encode, ToolUses(c, calls))| <= |calls|
    ensures StreamBatch.TextParts(ToolUses(c, calls)) == []
    ensures StreamBatch.ToolParts(c.encode, ToolUses(c, calls)) == calls <==> AllCanonical(c, calls)
    decreases |calls|
  {
    if calls == [] {
      StreamBatch.PartsNone(c.encode);
    } else {
      hide CanonicalCall, ToolUses, AllCanonical, StreamBatch.TextParts, StreamBatch.ToolParts;
      var front, call := calls[..|calls| - 1], calls[|calls| - 1];
      assert calls == front + [call];
      CallsReturn(c, front);
      AllCanonicalSnoc(c, front, call);
      var part := ToolUsesSnoc(c, front, call);
      var back := StreamBatch.ToolParts(c.encode, ToolUses(c, front));
      if part == [] {
        assert |back + part| < |calls|;
      } else {
        SnocEqual(back, part[0], front, call);
        assert part == [part[0]];
      }
    }
  }

  lemma NoToolUse(c: Codec, call: ToolCall)
    requires call.call.None?
    ensures ToolUse(c, call) == [] && !CanonicalCall(c, call)
  {
  }

  lemma OneToolUse(c: Codec, call: ToolCall) returns (block: ContentBlock)
    requires call.call.Some?
    ensures ToolUse(c, call) == [block] && ToolUse(c, call)[0] == block
    ensures block.kind == "tool_use"
  {
    block := ToolUse(c, call)[0];
  }

  lemma SnocEqual<T>(xs: seq<T>, x: T, ys: seq<T>, y: T)
    ensures xs + [x] == ys + [y] <==> xs == ys && x == y
  {
    if xs + [x] == ys + [y] {
      assert (xs + [x])[|xs|] == x && (ys + [y])[|ys|] == y;
      assert (xs + [x])[..|xs|] == xs && (ys + [y])[..|ys|] == ys;
    }
  }

  lemma AllCanonicalSnoc(c: Codec, front: seq<ToolCall>, call: ToolCall)
    ensures AllCanonical(c, front + [call]) <==> AllCanonical(c, front) && CanonicalCall(c, call)
  {
    var all := front + [call];
    assert all[|front|] == call;
    assert forall i :: 0 <= i < |front| ==> all[i] == front[i];
  }

  lemma {:induction false} TextBeforeTools(c: Codec, texts: seq<ContentBlock>, blocks: seq<ContentBlock>)
    requires forall i :: 0 <= i < |texts| ==> texts[i].kind == "text"
    ensures StreamBatch.ToolParts(c.encode, texts + blocks) == StreamBatch.ToolParts(c.encode, blocks)
    ensures StreamBatch.TextParts(texts + blocks) == StreamBatch.TextParts(texts) + StreamBatch.TextParts(blocks)
    decreases texts
  {
    if texts == [] {
      assert texts + blocks == blocks;
    } else {
      hide StreamBatch.ToolPart, Blank;
      assert (texts + blocks)[1..] == texts[1..] + blocks;
      TextBeforeTools(c, texts[1..], blocks);
      assert StreamBatch.ToolOf(c.encode, texts[0]) == [];
      hide StreamBatch.ToolOf, StreamBatch.TextOf;
    }
  }

  lemma ContentIsText(c: Codec, content: Json)
    ensures forall i :: 0 <= i < |ContentBlocks(c, content)| ==> ContentBlocks(c, content)[i].kind == "text"
  {
    hide FlattenContent, PartTexts, PartText;
  }

  /**
   An assistant message turned into blocks and back is itself exactly when its tool calls are
   canonical and its content is absent beside tool calls, says something, or is empty text alone.
   */
  lemma AssistantReturns(c: Codec, message: ChatMessage)
    requires Lawful(c)
    ensures Back(c, message) == (message.content, message.toolCalls) <==>
      AllCanonical(c, message.toolCalls) && CanonicalContent(message)
  {
    hide AllCanonical, ToolUses;
    var texts, tools := ContentBlocks(c, message.content), ToolUses(c, message.toolCalls);
    ContentIsText(c, message.content);
    TextBeforeTools(c, texts, tools);
    CallsReturn(c, message.toolCalls);
    ContentReturns(c, message.content);
    NoCallsCanonical(c, message.toolCalls);
    assert StreamBatch.TextParts(texts) + [] == StreamBatch.TextParts(texts);
  }

  lemma NoCallsCanonical(c: Codec, calls: seq<ToolCall>)
    ensures calls == [] ==> AllCanonical(c, calls)
  {
  }

  /** The text of string content is kept whole; other content comes back as text, if at all. */
  lemma ContentReturns(c: Codec, content: Json)
    ensures
      var texts := StreamBatch.TextParts(ContentBlocks(c, content));
      && (content.Null? ==> texts == [])
      && (content.Str? ==> texts == if Blank(content.s) then [] else [content.s])
      && (content.Str? && !Blank(content.s) ==> Join(texts, "\n") == content.s)
      && (content.Str? && content.s == "" ==> texts == [])
  {
    hide FlattenContent, PartTexts, PartText;
    if content.Str? {
      assert [TextBlock(content.s)][1..] == [];
      TrimFixed("");
    }
  }
}
