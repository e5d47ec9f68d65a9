/**
 Chat histories as people write them, and what the converted conversation says of them, block by block.
 */
module Dialogue {
  import opened Options
  import opened Text
  import opened Wire
  import opened ChatConversion

  /** A part of structured content: the one field it has, and its text. */
  datatype Part = Part(key: string, text: string)

  datatype Content = Nothing | Plain(text: string) | Parts(parts: seq<Part>)

  datatype Call = Call(id: string, name: string, arguments: string)

  /** A turn of a dialogue; a user line may come under any role but the other three. */
  datatype Line =
    | System(text: string)
    | User(content: Content, calls: seq<Call>)
    | Assistant(content: Content, calls: seq<Call>)
    | Tool(callID: string, content: Content)

  // As it is sent

  function PartJson(p: Part): Json {
    Obj(map[p.key := Str(p.text)])
  }

  function PartsJson(parts: seq<Part>): seq<Json> {
    if parts == [] then [] else [PartJson(parts[0])] + PartsJson(parts[1..])
  }

  function ContentJson(content: Content): Json {
    match content
    case Nothing => Null
    case Plain(text) => Str(text)
    case Parts(parts) => Arr(PartsJson(parts))
  }

  function SentCall(call: Call): ToolCall {
    ToolCall(call.id, "function", Some(FunctionCall(call.name, call.arguments)), None)
  }

  function SentCalls(calls: seq<Call>): seq<ToolCall> {
    seq(|calls|, k requires 0 <= k < |calls| => SentCall(calls[k]))
  }

  /** The role fits the line, in whatever case and between whatever white space it is written. */
  predicate Fits(line: Line, role: string) {
    var r := Trim(ToLower(role));
    match line
    case System(_) => r == "system"
    case User(_, _) => r != "system" && r != "assistant" && r != "tool"
    case Assistant(_, _) => r == "assistant"
    case Tool(_, _) => r == "tool"
  }

  function Sent(line: Line, role: string): ChatMessage {
    match line
    case System(text) => ChatMessage(role, Str(text), [], "")
    case User(content, calls) => ChatMessage(role, ContentJson(content), SentCalls(calls), "")
    case Assistant(content, calls) => ChatMessage(role, ContentJson(content), SentCalls(calls), "")
    case Tool(callID, content) => ChatMessage(role, ContentJson(content), [], callID)
  }

  function SentAll(lines: seq<Line>, roles: seq<string>): seq<ChatMessage>
    requires |roles| == |lines|
  {
    seq(|lines|, k requires 0 <= k < |lines| => Sent(lines[k], roles[k]))
  }

  // As it is said

  /** The texts of the parts that have one, trimmed, without blank ones. */
  function Words(parts: seq<Part>): seq<string> {
    if parts == [] then []
    else
      var text := if parts[0].key in {"text", "input_text", "output_text"} then Trim(parts[0].text) else "";
      (if text == "" then [] else [text]) + Words(parts[1..])
  }

  function SaidText(text: string): ContentBlock {
    ContentBlock("text", text, "", "", Null, "", Null)
  }

  function SaidTexts(texts: seq<string>): seq<ContentBlock> {
    if texts == [] then [] else [SaidText(texts[0])] + SaidTexts(texts[1..])
  }

  /** Text is said as it is, unless it is blank; parts one by one; and parts without any text as their encoding. */
  function ContentSaid(c: Codec, content: Content): seq<ContentBlock> {
    match content
    case Nothing => []
    case Plain(text) => if Trim(text) == "" then [] else [SaidText(text)]
    case Parts(parts) =>
      if Words(parts) != [] then SaidTexts(Words(parts))
      else
        var encoded := Trim(c.encode(ContentJson(content)));
        if encoded == "" then [] else [SaidText(encoded)]
  }

  /** The arguments of a call: nothing is an empty object, and text that does not decode is passed on as it is. */
  function Input(c: Codec, arguments: string): Json {
    var raw := Trim(arguments);
    if raw == "" then Obj(map[])
    else match c.decode(raw) case Some(v) => v case None => Obj(map["raw" := Str(raw)])
  }

  function CallID(id: string): string {
    if Trim(id) == "" then "tool_call" else id
  }

  function CallSaid(c: Codec, call: Call): ContentBlock {
    ContentBlock("tool_use", "", CallID(call.id), Trim(call.name), Input(c, call.arguments), "", Null)
  }

  function CallsSaid(c: Codec, calls: seq<Call>): seq<ContentBlock> {
    if calls == [] then [] else CallsSaid(c, calls[..|calls| - 1]) + [CallSaid(c, calls[|calls| - 1])]
  }

  /** A call told in words. */
  function CallText(c: Codec, call: Call): string {
    var name, arguments := Trim(call.name), Trim(call.arguments);
    if name == "" then c.encodeCall(SentCall(call))
    else if arguments == "" then "tool_call " + name
    else "tool_call " + name + "(" + arguments + ")"
  }

  function CallTexts(c: Codec, calls: seq<Call>): seq<string> {
    if calls == [] then [] else [CallText(c, calls[0])] + CallTexts(c, calls[1..])
  }

  /** Calls under a user's role are told in words, a line each, where the content says nothing. */
  function CallsTold(c: Codec, calls: seq<Call>): seq<ContentBlock> {
    var text := Trim(Join(CallTexts(c, calls), "\n"));
    if text == "" then [] else [SaidText(text)]
  }

  /** The text of a tool's answer: its words, a line each; where there are none, its encoding. */
  function AnswerText(c: Codec, content: Content): string {
    var text := match content
      case Nothing => ""
      case Plain(text) => Trim(text)
      case Parts(parts) =>
        if Words(parts) != [] then Trim(Join(Words(parts), "\n")) else Trim(c.encode(ContentJson(content)));
    if text == "" then c.encode(ContentJson(content)) else text
  }

  function AnswerSaid(c: Codec, callID: string, content: Content): seq<ContentBlock> {
    var text := AnswerText(c, content);
    if Trim(callID) == "" && text == "" then []
    else [ContentBlock("tool_result", "", "", "", Null, Trim(callID), Str(if Trim(text) == "" then "{}" else text))]
  }

  function LineSaid(c: Codec, line: Line): seq<ContentBlock> {
    match line
    case System(_) => []
    case User(content, calls) => if ContentSaid(c, content) != [] then ContentSaid(c, content) else CallsTold(c, calls)
    case Assistant(content, calls) => ContentSaid(c, content) + CallsSaid(c, calls)
    case Tool(callID, content) => AnswerSaid(c, callID, content)
  }

  /** What a dialogue says: assistant lines in the assistant's role, all others in the user's. */
  function DialogueSaid(c: Codec, lines: seq<Line>): seq<Spoken> {
    if lines == [] then []
    else
      var last := lines[|lines| - 1];
      DialogueSaid(c, lines[..|lines| - 1])
      + Speak(if last.Assistant? then "assistant" else "user", LineSaid(c, last))
  }

  /** The texts that make up the prompt. */
  function Prompts(lines: seq<Line>): seq<string> {
    if lines == [] then []
    else
      var last := lines[|lines| - 1];
      Prompts(lines[..|lines| - 1]) + if last.System? && Trim(last.text) != "" then [Trim(last.text)] else []
  }

  // The two agree

  lemma {:induction false} WordsArePartTexts(parts: seq<Part>)
    ensures PartTexts(PartsJson(parts)) == Words(parts)
    decreases |parts|
  {
    if parts != [] {
      WordsArePartTexts(parts[1..]);
      assert ([PartJson(parts[0])] + PartsJson(parts[1..]))[1..] == PartsJson(parts[1..]);
      PartIsWord(parts[0]);
    }
  }

  lemma PartIsWord(p: Part)
    ensures PartText(PartJson(p)) == if p.key in {"text", "input_text", "output_text"} then Trim(p.text) else ""
  {
    hide Trim;
  }

  lemma {:induction false} TextsAreBlocks(texts: seq<string>)
    ensures TextBlocks(texts) == SaidTexts(texts)
    decreases |texts|
  {
    if texts != [] {
      TextsAreBlocks(texts[1..]);
      assert TextBlocks(texts) == [TextBlock(texts[0])] + TextBlocks(texts[1..]);
    }
  }

  lemma ContentIsSaid(c: Codec, content: Content)
    ensures ContentBlocks(c, ContentJson(content)) == ContentSaid(c, content)
  {
    hide Trim;
    if content.Parts? {
      WordsArePartTexts(content.parts);
      TextsAreBlocks(Words(content.parts));
    }
  }

  lemma {:induction false} CallsAreSaid(c: Codec, calls: seq<Call>)
    ensures ToolUses(c, SentCalls(calls)) == CallsSaid(c, calls)
    decreases |calls|
  {
    if calls != [] {
      var n := |calls| - 1;
      CallsAreSaid(c, calls[..n]);
      CallIsSaid(c, calls[n]);
      hide ToolUse, CallSaid, SentCall;
      assert SentCalls(calls)[..n] == SentCalls(calls[..n]);
    }
  }

  lemma CallIsSaid(c: Codec, call: Call)
    ensures ToolUse(c, SentCall(call)) == [CallSaid(c, call)]
  {
    hide Trim;
  }

  lemma AnswerIsSaid(c: Codec, callID: string, content: Content, role: string)
    ensures ToolBlocks(c, Sent(Tool(callID, content), role)) == AnswerSaid(c, callID, content)
  {
    if content.Parts? {
      WordsArePartTexts(content.parts);
    }
    TrimFixed("");
    hide Trim, PartTexts, Words, Join;
  }

  lemma {:induction false} CallsAreTold(c: Codec, calls: seq<Call>)
    ensures FlattenCalls(c, SentCalls(calls)) == CallTexts(c, calls)
    decreases |calls|
  {
    if calls != [] {
      CallsAreTold(c, calls[1..]);
      assert SentCalls(calls)[1..] == SentCalls(calls[1..]);
      hide Trim;
    }
  }

  lemma UserIsSaid(c: Codec, content: Content, calls: seq<Call>, role: string)
    ensures UserBlocks(c, Sent(User(content, calls), role)) == LineSaid(c, User(content, calls))
  {
    ContentIsSaid(c, content);
    CallsAreTold(c, calls);
    if ContentSaid(c, content) == [] {
      NothingFlattened(c, content);
      TrimFixed("");
      var text := Trim(Join(CallTexts(c, calls), "\n"));
      TrimFixed(Join(CallTexts(c, calls), "\n"));
      assert [] + [text] == [text] && Join([text], "\n") == text && Join([], "\n") == "";
      hide Trim, ContentBlocks, ContentSaid, FlattenCalls, CallTexts, FlattenContent;
    }
  }

  /** Content that says nothing leaves no text at all. */
  lemma NothingFlattened(c: Codec, content: Content)
    requires ContentSaid(c, content) == []
    ensures Trim(FlattenContent(c, ContentJson(content))) == ""
  {
    if content.Parts? {
      WordsArePartTexts(content.parts);
    }
    TrimFixed("");
    hide Trim, PartTexts, Words, Join;
  }

  lemma LineIsSaid(c: Codec, line: Line, role: string)
    requires Fits(line, role)
    ensures
      var m := Sent(line, role);
      MessageBlocks(c, m) == LineSaid(c, line) && Speaker(m) == (if line.Assistant? then "assistant" else "user")
  {
    hide Trim, ToLower, ToolBlocks, UserBlocks, AnswerSaid, ContentSaid, ContentBlocks;
    match line
    case System(_) =>
    case User(content, calls) => UserIsSaid(c, content, calls, role);
    case Assistant(content, calls) =>
      ContentIsSaid(c, content);
      CallsAreSaid(c, calls);
    case Tool(callID, content) => AnswerIsSaid(c, callID, content, role);
  }

  lemma SystemIsPrompt(c: Codec, line: Line, role: string)
    requires Fits(line, role)
    ensures SystemText(c, Sent(line, role)) ==
      if line.System? && Trim(line.text) != "" then [Trim(line.text)] else []
  {
    if line.System? {
      TrimFixed(line.text);
      TrimFixed("");
      assert FlattenCalls(c, []) == [] && Join([], "\n") == "";
      assert Join([Trim(line.text)], "\n") == Trim(line.text);
      hide Trim, ToLower;
      assert [Trim(line.text)] + [] == [Trim(line.text)];
    }
  }

  /**
   A dialogue, its roles written in whatever way, is converted to what it says: every text, tool call and answer in
   its place and under its role, and the system lines in the prompt.
   */
  lemma {:induction false} DialogueIsSaid(c: Codec, lines: seq<Line>, roles: seq<string>)
    requires |roles| == |lines| && forall k :: 0 <= k < |lines| ==> Fits(lines[k], roles[k])
    ensures Said(c, SentAll(lines, roles)) == DialogueSaid(c, lines)
    ensures SystemTexts(c, SentAll(lines, roles)) == Prompts(lines)
    decreases |lines|
  {
    if lines != [] {
      hide Sent, Fits, MessageBlocks, LineSaid, Speaker, SystemText;
      var n := |lines| - 1;
      DialogueIsSaid(c, lines[..n], roles[..n]);
      assert SentAll(lines, roles)[..n] == SentAll(lines[..n], roles[..n]);
      LineIsSaid(c, lines[n], roles[n]);
      SystemIsPrompt(c, lines[n], roles[n]);
    }
  }

  /**
   An answer goes to a call exactly if it names the call's id once trimmed, for the ids of calls are passed on as
   they are: a call whose id has white space around it cannot be answered, not even by that id itself.
   */
  lemma AnswerFindsCall(c: Codec, call: Call, callID: string, content: Content)
    requires Trim(call.id) != "" && Trim(callID) != ""
    ensures
      var answer := AnswerSaid(c, callID, content);
      && |answer| == 1
      && (answer[0].toolUseID == CallSaid(c, call).id <==> Trim(callID) == call.id)
      && (callID == call.id ==> (answer[0].toolUseID == CallSaid(c, call).id <==> Trimmed(call.id)))
  {
    TrimFixed(call.id);
    hide Trim, AnswerText;
  }
}
