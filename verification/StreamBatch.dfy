/**
 Streamed and batch replies compared: a client that folds the emitted chunks
 against the normalizer of whole Anthropic responses.
 */
module StreamBatch {
  import opened Options
  import opened Text
  import opened Wire
  import opened SseFraming
  import opened AnthropicStream
  import opened StreamInvariant

  // The batch normalizer

  /** `json.Marshal` of a tool's input; a missing input is an empty object. */
  function InputPayload(encode: Json -> string, input: Json): string {
    if input.Null? then "{}" else encode(input)
  }

  function TextOf(block: ContentBlock): seq<string> {
    if block.kind == "text" && !Blank(block.text) then [block.text] else []
  }

  function TextParts(blocks: seq<ContentBlock>): seq<string> {
    if blocks == [] then [] else TextOf(blocks[0]) + TextParts(blocks[1..])
  }

  function ToolOf(encode: Json -> string, block: ContentBlock): seq<ToolCall> {
    if block.kind == "tool_use" then [ToolPart(encode, block)] else []
  }

  function ToolParts(encode: Json -> string, blocks: seq<ContentBlock>): seq<ToolCall> {
    if blocks == [] then [] else ToolOf(encode, blocks[0]) + ToolParts(encode, blocks[1..])
  }

  function ToolPart(encode: Json -> string, block: ContentBlock): ToolCall {
    ToolCall(DefaultIfBlank(block.id, "tool_call"), "function",
      Some(FunctionCall(Trim(block.name), InputPayload(encode, block.input))), None)
  }

  /** The content and tool calls of a whole response: no content, not empty content, when there are only tool calls. */
  function BatchMessage(encode: Json -> string, blocks: seq<ContentBlock>): (Json, seq<ToolCall>) {
    (if TextParts(blocks) != [] then Str(Join(TextParts(blocks), "\n"))
     else if ToolParts(encode, blocks) != [] then Null
     else Str(""),
     ToolParts(encode, blocks))
  }

  lemma {:induction false} TextPartsSnoc(blocks: seq<ContentBlock>, block: ContentBlock)
    ensures TextParts(blocks + [block]) == TextParts(blocks) + TextOf(block)
    decreases blocks
  {
    hide TextOf;
    if blocks == [] {
      assert blocks + [block] == [block] && [block][1..] == [];
      assert TextOf(block) + [] == [] + TextOf(block);
    } else {
      var first, rest, last := TextOf(blocks[0]), blocks[1..], TextOf(block);
      TextPartsSnoc(rest, block);
      assert (blocks + [block])[1..] == rest + [block];
      assert first + (TextParts(rest) + last) == first + TextParts(rest) + last;
    }
  }

  lemma {:induction false} ToolPartsSnoc(encode: Json -> string, blocks: seq<ContentBlock>, block: ContentBlock)
    ensures ToolParts(encode, blocks + [block]) == ToolParts(encode, blocks) + ToolOf(encode, block)
    decreases blocks
  {
    hide ToolOf;
    if blocks == [] {
      assert blocks + [block] == [block] && [block][1..] == [];
      assert ToolOf(encode, block) + [] == [] + ToolOf(encode, block);
    } else {
      var first, rest, last := ToolOf(encode, blocks[0]), blocks[1..], ToolOf(encode, block);
      ToolPartsSnoc(encode, rest, block);
      assert (blocks + [block])[1..] == rest + [block];
      assert first + (ToolParts(encode, rest) + last) == first + ToolParts(encode, rest) + last;
    }
  }

  lemma PartsSnoc(encode: Json -> string, blocks: seq<ContentBlock>, block: ContentBlock)
    ensures TextParts(blocks + [block]) == TextParts(blocks) + TextOf(block)
    ensures ToolParts(encode, blocks + [block]) == ToolParts(encode, blocks) + ToolOf(encode, block)
  {
    TextPartsSnoc(blocks, block);
    ToolPartsSnoc(encode, blocks, block);
  }

  lemma PartsNone(encode: Json -> string)
    ensures TextParts([]) == [] && ToolParts(encode, []) == []
  {
  }

  /** `convertAnthropicBlocksToOpenAIMessage`. */
  method ConvertAnthropicBlocksToOpenAIMessage(encode: Json -> string, blocks: seq<ContentBlock>)
    returns (content: Json, toolCalls: seq<ToolCall>)
    ensures (content, toolCalls) == BatchMessage(encode, blocks)
  {
    hide TextParts, ToolParts;
    var textParts: seq<string> := [];
    toolCalls := [];
    PartsNone(encode);
    for i := 0 to |blocks|
      invariant textParts == TextParts(blocks[..i]) && toolCalls == ToolParts(encode, blocks[..i])
    {
      var block := blocks[i];
      assert blocks[..i + 1] == blocks[..i] + [block];
      PartsSnoc(encode, blocks[..i], block);
      match block.kind {
        case "text" =>
          if !Blank(block.text) {
            textParts := textParts + [block.text];
          }
        case "tool_use" =>
          var inputPayload := "{}";
          if !block.input.Null? {
            inputPayload := encode(block.input);
          }
          var call := FunctionCall(Trim(block.name), inputPayload);
          toolCalls := toolCalls + [ToolCall(DefaultIfBlank(block.id, "tool_call"), "function", Some(call), None)];
        case _ =>
      }
    }
    assert blocks[..|blocks|] == blocks;
    if |textParts| > 0 {
      content := Str(Join(textParts, "\n"));
    } else if |toolCalls| > 0 {
      content := Null;
    } else {
      content := Str("");
    }
  }

  /** A reply as a client holds it. */
  datatype Reply = Reply(
    role: string,
    content: string,
    calls: seq<ToolCall>,
    finishReason: string,
    usage: Option<Usage>)

  const NO_REPLY := Reply("", "", [], "", None)

  function ContentText(content: Json): string {
    if content.Str? then content.s else ""
  }

  /** The reply of `normalizeAnthropicResponse`. */
  function BatchReply(
    encode: Json -> string, role: string, blocks: seq<ContentBlock>, stopReason: string, input: int, output: int
  ): Reply {
    var (content, calls) := BatchMessage(encode, blocks);
    Reply(DefaultIfBlank(role, "assistant"), ContentText(content), calls, NormalizeStopReason(stopReason),
      Some(Usage(input, output, input + output)))
  }

  // The client of a stream

  /** A tool-call fragment goes to the call of its index, or opens one. */
  function MergeCall(calls: seq<ToolCall>, fragment: ToolCall): seq<ToolCall> {
    if calls == [] then [fragment]
    else if calls[0].index == fragment.index then [AppendArguments(calls[0], Fragment(Some(fragment)))] + calls[1..]
    else [calls[0]] + MergeCall(calls[1..], fragment)
  }

  function AppendArguments(call: ToolCall, more: string): ToolCall {
    call.(call := match call.call
                  case None => Some(FunctionCall("", more))
                  case Some(f) => Some(f.(arguments := f.arguments + more)))
  }

  function MergeCalls(calls: seq<ToolCall>, fragments: seq<ToolCall>): seq<ToolCall>
    decreases |fragments|
  {
    if fragments == [] then calls else MergeCalls(MergeCall(calls, fragments[0]), fragments[1..])
  }

  function Absorb(reply: Reply, chunk: Chunk): Reply {
    Reply(
      if chunk.role == "" then reply.role else chunk.role,
      reply.content + chunk.content,
      MergeCalls(reply.calls, chunk.toolCalls),
      if chunk.finishReason == "" then reply.finishReason else chunk.finishReason,
      OrElse(chunk.usage, reply.usage))
  }

  /** The reply a client assembles from the chunks it receives. */
  function Assemble(chunks: seq<Chunk>): Reply {
    if chunks == [] then NO_REPLY
    else Absorb(Assemble(chunks[..|chunks| - 1]), chunks[|chunks| - 1])
  }

  /** The gateway and the client side by side. */
  datatype Exchange = Exchange(st: StreamState, reply: Reply)

  function Step(x: Exchange, turn: Turn): Exchange {
    var r := React(x.st, turn.kind, turn.ev);
    Exchange(r.st, if r.chunk.Some? then Absorb(x.reply, r.chunk.value) else x.reply)
  }

  function Run(x: Exchange, turns: seq<Turn>): Exchange
    decreases turns
  {
    if turns == [] then x else Run(Step(x, turns[0]), turns[1..])
  }

  lemma {:induction false} RunAppend(x: Exchange, a: seq<Turn>, b: seq<Turn>)
    ensures Run(x, a + b) == Run(Run(x, a), b)
    decreases a
  {
    if a == [] {
      assert a + b == b;
    } else {
      assert (a + b)[1..] == a[1..] + b;
      RunAppend(Step(x, a[0]), a[1..], b);
    }
  }

  /** Running the exchange is playing the turns and assembling their chunks. */
  lemma {:induction false} RunAssembles(turns: seq<Turn>)
    ensures Run(Exchange(FRESH, NO_REPLY), turns) == Exchange(Play(turns).0, Assemble(Chunks(Play(turns).1)))
    decreases |turns|
  {
    hide React;
    var x := Exchange(FRESH, NO_REPLY);
    if turns != [] {
      var n := |turns| - 1;
      var front := turns[..n];
      RunAssembles(front);
      assert turns == front + [turns[n]] && [turns[n]][1..] == [];
      RunAppend(x, front, [turns[n]]);
      PlaySnoc(front, turns[n]);
      var cs := Chunks(Play(front).1);
      var r := React(Play(front).0, turns[n].kind, turns[n].ev);
      if r.chunk.Some? {
        assert (cs + [r.chunk.value])[..|cs|] == cs;
      } else {
        assert cs + [] == cs;
      }
    }
  }

  // Turns without effect

  /** Events the gateway passes over: pings, block ends, blocks and deltas of other types, empty texts and errors. */
  predicate Noise(turn: Turn) {
    var ev := turn.ev;
    match turn.kind
    case "message_start" => false
    case "message_delta" => false
    case "message_stop" => false
    case "error" => !Fails(turn)
    case "content_block_start" =>
      ev.contentBlock.None? || ev.index.None?
      || (ev.contentBlock.value.kind != "text" && ev.contentBlock.value.kind != "tool_use")
    case "content_block_delta" =>
      ev.index.None? || ev.delta.None?
      || (ev.delta.value.kind == "text_delta" && ev.delta.value.text == "")
      || (ev.delta.value.kind != "text_delta" && ev.delta.value.kind != "input_json_delta")
    case _ => true
  }

  function Denoise(turns: seq<Turn>): seq<Turn> {
    if turns == [] then []
    else (if Noise(turns[0]) then [] else [turns[0]]) + Denoise(turns[1..])
  }

  lemma NoiseIsQuiet(x: Exchange, turn: Turn)
    requires Noise(turn)
    ensures Step(x, turn) == x
  {
    hide Stamp, NormalizeStopReason, Trim, Absorb;
  }

  /** Interleaved noise changes neither side. */
  lemma {:induction false} RunDenoised(x: Exchange, turns: seq<Turn>)
    ensures Run(x, turns) == Run(x, Denoise(turns))
    decreases turns
  {
    if turns != [] {
      hide Step, Noise;
      RunDenoised(Step(x, turns[0]), turns[1..]);
      if Noise(turns[0]) {
        NoiseIsQuiet(x, turns[0]);
        assert Denoise(turns) == Denoise(turns[1..]);
      } else {
        assert ([turns[0]] + Denoise(turns[1..]))[1..] == Denoise(turns[1..]);
      }
    }
  }

  // The stream of a response

  /**
   A block of a response, the text and input its start event shows (nothing yet, on an ordinary
   stream), and the pieces in which the deltas bring the real ones.
   */
  datatype Script = Script(block: ContentBlock, shownText: string, shownInput: Json, pieces: seq<string>)

  /** The block as its start event announces it. */
  function Announcement(s: Script): ContentBlock {
    s.block.(text := s.shownText, input := s.shownInput)
  }

  function Event(kind: string): StreamEvent {
    StreamEvent(kind, None, None, None, None, None, None)
  }

  function StartTurn(i: int, block: ContentBlock): Turn {
    Turn("content_block_start", Event("content_block_start").(index := Some(i), contentBlock := Some(block)))
  }

  function TextTurn(i: int, piece: string): Turn {
    Turn("content_block_delta", Event("content_block_delta").(
      index := Some(i), delta := Some(EventDelta("text_delta", piece, "", ""))))
  }

  function JsonTurn(i: int, piece: string): Turn {
    Turn("content_block_delta", Event("content_block_delta").(
      index := Some(i), delta := Some(EventDelta("input_json_delta", "", piece, ""))))
  }

  function TextTurns(i: int, pieces: seq<string>): seq<Turn> {
    if pieces == [] then [] else [TextTurn(i, pieces[0])] + TextTurns(i, pieces[1..])
  }

  function JsonTurns(i: int, pieces: seq<string>): seq<Turn> {
    if pieces == [] then [] else [JsonTurn(i, pieces[0])] + JsonTurns(i, pieces[1..])
  }

  function BlockTurns(i: int, s: Script): seq<Turn> {
    if s.block.kind == "text" then [StartTurn(i, Announcement(s))] + TextTurns(i, s.pieces)
    else if s.block.kind == "tool_use" then [StartTurn(i, Announcement(s))] + JsonTurns(i, s.pieces)
    else []
  }

  function BodyTurns(i: int, scripts: seq<Script>): seq<Turn>
    decreases scripts
  {
    if scripts == [] then [] else BlockTurns(i, scripts[0]) + BodyTurns(i + 1, scripts[1..])
  }

  function OpeningTurn(head: MessageHead): Turn {
    Turn("message_start", Event("message_start").(message := Some(head)))
  }

  function ClosingTurn(stopReason: string, output: int): Turn {
    Turn("message_delta", Event("message_delta").(
      delta := Some(EventDelta("", "", "", stopReason)), outputTokens := Some(output)))
  }

  /** The turns of a whole response, without noise but for pieces of empty text. */
  function ScriptTurns(head: MessageHead, scripts: seq<Script>, stopReason: string, output: int): seq<Turn> {
    [OpeningTurn(head)] + BodyTurns(0, scripts)
    + [ClosingTurn(stopReason, output), Turn("message_stop", Event("message_stop"))]
  }

  /** The turns are those of the response, noise aside. */
  predicate Streams(
    turns: seq<Turn>, head: MessageHead, scripts: seq<Script>, stopReason: string, output: int
  ) {
    Denoise(turns) == Denoise(ScriptTurns(head, scripts, stopReason, output))
  }

  function Blocks(scripts: seq<Script>): seq<ContentBlock> {
    seq(|scripts|, i requires 0 <= i < |scripts| => scripts[i].block)
  }

  /** What the stream says of a response: its text, and its tool calls under their block indexes. */
  function StreamedText(scripts: seq<Script>): string {
    if scripts == [] then ""
    else (if scripts[0].block.kind == "text" then Flatten(scripts[0].pieces) else "") + StreamedText(scripts[1..])
  }

  function StreamedCall(i: int, s: Script): ToolCall {
    ToolCall(DefaultIfBlank(s.block.id, "call_" + Decimal(i)), "function",
      Some(FunctionCall(Trim(s.block.name), Flatten(s.pieces))), Some(i))
  }

  function StreamedCalls(i: int, scripts: seq<Script>): seq<ToolCall>
    decreases scripts
  {
    if scripts == [] then []
    else
      (if scripts[0].block.kind == "tool_use" then [StreamedCall(i, scripts[0])] else [])
      + StreamedCalls(i + 1, scripts[1..])
  }

  predicate Speaks(scripts: seq<Script>) {
    exists k :: 0 <= k < |scripts| && (scripts[k].block.kind == "text" || scripts[k].block.kind == "tool_use")
  }

  /** The calls a client holds so far are numbered below `i`. */
  ghost predicate Below(calls: seq<ToolCall>, i: int) {
    forall k :: 0 <= k < |calls| ==> calls[k].index.Some? && calls[k].index.value < i
  }

  lemma {:induction false} MergeLast(calls: seq<ToolCall>, last: ToolCall, fragment: ToolCall, i: int)
    requires Below(calls, i) && last.index == Some(i) == fragment.index
    ensures MergeCall(calls + [last], fragment) == calls + [AppendArguments(last, Fragment(Some(fragment)))]
    decreases calls
  {
    if calls != [] {
      assert (calls + [last])[1..] == calls[1..] + [last];
      MergeLast(calls[1..], last, fragment, i);
    }
  }

  lemma {:induction false} MergeNew(calls: seq<ToolCall>, fragment: ToolCall, i: int)
    requires Below(calls, i) && fragment.index == Some(i)
    ensures MergeCall(calls, fragment) == calls + [fragment]
    decreases calls
  {
    if calls != [] {
      MergeNew(calls[1..], fragment, i);
    }
  }

  lemma AbsorbText(reply: Reply, chunk: Chunk, text: string)
    requires chunk.role == "" && chunk.content == text && chunk.toolCalls == []
    requires chunk.finishReason == "" && chunk.usage.None?
    ensures Absorb(reply, chunk) == reply.(content := reply.content + text)
  {
  }

  lemma AbsorbCall(reply: Reply, chunk: Chunk, call: ToolCall)
    requires chunk.content == "" && chunk.toolCalls == [call] && chunk.finishReason == "" && chunk.usage.None?
    ensures Absorb(reply, chunk) ==
      reply.(role := if chunk.role == "" then reply.role else chunk.role, calls := MergeCall(reply.calls, call))
  {
    assert [call][1..] == [] && reply.content + "" == reply.content;
    assert MergeCalls(reply.calls, [call]) == MergeCalls(MergeCall(reply.calls, call), []);
  }

  lemma {:induction false} RunText(x: Exchange, i: int, pieces: seq<string>)
    ensures Run(x, TextTurns(i, pieces)) ==
      Exchange(x.st.(assistantText := x.st.assistantText + Flatten(pieces)),
               x.reply.(content := x.reply.content + Flatten(pieces)))
    decreases pieces
  {
    hide Step;
    if pieces == [] {
      assert x.st.assistantText + "" == x.st.assistantText && x.reply.content + "" == x.reply.content;
    } else {
      hide Run;
      var rest := pieces[1..];
      TextStep(x, i, pieces[0]);
      RunCons(x, TextTurn(i, pieces[0]), TextTurns(i, rest));
      RunText(Step(x, TextTurn(i, pieces[0])), i, rest);
      assert x.st.assistantText + pieces[0] + Flatten(rest) == x.st.assistantText + (pieces[0] + Flatten(rest));
      assert x.reply.content + pieces[0] + Flatten(rest) == x.reply.content + (pieces[0] + Flatten(rest));
    }
  }

  lemma RunCons(x: Exchange, turn: Turn, turns: seq<Turn>)
    ensures Run(x, [turn] + turns) == Run(Step(x, turn), turns)
  {
    hide Step;
    assert ([turn] + turns)[1..] == turns;
  }

  lemma TextStep(x: Exchange, i: int, piece: string)
    ensures Step(x, TextTurn(i, piece)) ==
      Exchange(x.st.(assistantText := x.st.assistantText + piece), x.reply.(content := x.reply.content + piece))
  {
    hide Absorb, ReactStart, ReactClosing;
    if piece == "" {
      assert x.st.assistantText + "" == x.st.assistantText && x.reply.content + "" == x.reply.content;
    } else {
      AbsorbText(x.reply, Stamp(x.st).(content := piece), piece);
    }
  }

  /** Tool call `i` stands open, last among the client's calls. */
  ghost predicate OpenCall(x: Exchange, i: int, calls: seq<ToolCall>, args: string) {
    && i in x.st.toolCalls && Below(calls, i)
    && x.st.toolCalls[i].arguments == args
    && x.reply.calls == calls + [ToolCall(x.st.toolCalls[i].id, "function",
                                    Some(FunctionCall(x.st.toolCalls[i].name, args)), Some(i))]
  }

  lemma JsonStep(x: Exchange, i: int, calls: seq<ToolCall>, args: string, piece: string)
    requires OpenCall(x, i, calls, args)
    ensures
      var tool := x.st.toolCalls[i].(arguments := args + piece);
      && OpenCall(Step(x, JsonTurn(i, piece)), i, calls, args + piece)
      && Step(x, JsonTurn(i, piece)) ==
           Exchange(x.st.(toolCalls := x.st.toolCalls[i := tool]),
                    x.reply.(calls := Step(x, JsonTurn(i, piece)).reply.calls))
      && Step(x, JsonTurn(i, piece)).st.toolCalls[i] == tool
  {
    hide Absorb, ReactStart, ReactClosing;
    var tool := x.st.toolCalls[i];
    var call := ToolCall(tool.id, "function", Some(FunctionCall("", piece)), Some(i));
    var last := ToolCall(tool.id, "function", Some(FunctionCall(tool.name, args)), Some(i));
    AbsorbCall(x.reply, Stamp(x.st).(toolCalls := [call]), call);
    MergeLast(calls, last, call, i);
  }

  lemma {:induction false} RunJson(x: Exchange, i: int, calls: seq<ToolCall>, args: string, pieces: seq<string>)
    requires OpenCall(x, i, calls, args)
    ensures
      var y := Run(x, JsonTurns(i, pieces));
      && OpenCall(y, i, calls, args + Flatten(pieces))
      && y.st == x.st.(toolCalls := y.st.toolCalls) && y.reply == x.reply.(calls := y.reply.calls)
      && y.st.toolCalls[i].id == x.st.toolCalls[i].id && y.st.toolCalls[i].name == x.st.toolCalls[i].name
    decreases pieces
  {
    if pieces == [] {
      assert args + "" == args;
    } else {
      var turn := JsonTurn(i, pieces[0]);
      JsonStep(x, i, calls, args, pieces[0]);
      hide Step, Absorb;
      assert ([turn] + JsonTurns(i, pieces[1..]))[1..] == JsonTurns(i, pieces[1..]);
      RunJson(Step(x, turn), i, calls, args + pieces[0], pieces[1..]);
      assert args + pieces[0] + Flatten(pieces[1..]) == args + Flatten(pieces);
    }
  }

  /** The client has the role exactly when the gateway has sent it. */
  ghost predicate RoleKnown(x: Exchange) {
    x.reply.role == if x.st.sentRole then "assistant" else ""
  }

  /** What a block adds to an exchange. */
  ghost predicate Adds(x: Exchange, y: Exchange, text: string, calls: seq<ToolCall>, spoken: bool) {
    && y.st == x.st.(
         assistantText := y.st.assistantText, toolCalls := y.st.toolCalls, sentRole := x.st.sentRole || spoken)
    && RoleKnown(y)
    && y.reply == x.reply.(role := y.reply.role, content := x.reply.content + text, calls := x.reply.calls + calls)
  }

  lemma RunTextBlock(x: Exchange, i: int, s: Script)
    requires RoleKnown(x) && s.block.kind == "text"
    ensures Adds(x, Run(x, BlockTurns(i, s)), Flatten(s.pieces), [], true)
  {
    var turns := TextTurns(i, s.pieces);
    assert BlockTurns(i, s)[1..] == turns && BlockTurns(i, s)[0] == StartTurn(i, Announcement(s));
    var y := Step(x, StartTurn(i, Announcement(s)));
    assert x.reply.content + "" == x.reply.content;
    assert y == Exchange(x.st.(sentRole := true), x.reply.(role := "assistant"));
    hide Step, Absorb;
    RunText(y, i, s.pieces);
    assert x.reply.calls + [] == x.reply.calls;
  }

  lemma RunToolBlock(x: Exchange, i: int, s: Script)
    requires RoleKnown(x) && s.block.kind == "tool_use" && Below(x.reply.calls, i)
    ensures Adds(x, Run(x, BlockTurns(i, s)), "", [StreamedCall(i, s)], true)
  {
    var turns := JsonTurns(i, s.pieces);
    assert BlockTurns(i, s)[1..] == turns && BlockTurns(i, s)[0] == StartTurn(i, Announcement(s));
    ToolStep(x, i, Announcement(s));
    var y := Step(x, StartTurn(i, Announcement(s)));
    hide Step, Absorb;
    RunJson(y, i, x.reply.calls, "", s.pieces);
    assert "" + Flatten(s.pieces) == Flatten(s.pieces) && x.reply.content + "" == x.reply.content;
  }

  lemma ToolStep(x: Exchange, i: int, block: ContentBlock)
    requires RoleKnown(x) && block.kind == "tool_use" && Below(x.reply.calls, i)
    ensures
      var y := Step(x, StartTurn(i, block));
      && OpenCall(y, i, x.reply.calls, "")
      && y.st == x.st.(toolCalls := y.st.toolCalls, sentRole := true)
      && y.reply == x.reply.(role := "assistant", calls := y.reply.calls)
      && y.st.toolCalls[i] == ToolState(DefaultIfBlank(block.id, "call_" + Decimal(i)), Trim(block.name), "")
  {
    hide Absorb, ReactDelta, ReactClosing;
    var tool := ToolState(DefaultIfBlank(block.id, "call_" + Decimal(i)), Trim(block.name), "");
    var call := ToolCall(tool.id, "function", Some(FunctionCall(tool.name, "")), Some(i));
    AbsorbCall(x.reply, Stamp(x.st).(role := RoleToSend(x.st), toolCalls := [call]), call);
    MergeNew(x.reply.calls, call, i);
  }

  lemma {:induction false} RunBody(x: Exchange, i: int, scripts: seq<Script>)
    requires RoleKnown(x) && Below(x.reply.calls, i)
    ensures Adds(x, Run(x, BodyTurns(i, scripts)), StreamedText(scripts), StreamedCalls(i, scripts), Speaks(scripts))
    decreases scripts
  {
    hide Step, BlockTurns, StreamedCall;
    if scripts == [] {
      assert x.reply.content + "" == x.reply.content && x.reply.calls + [] == x.reply.calls;
    } else {
      hide Run, Adds, Speaks, Below, RoleKnown;
      var s, rest := scripts[0], scripts[1..];
      var y := Run(x, BlockTurns(i, s));
      BlockAdds(x, i, s);
      RunBody(y, i + 1, rest);
      SpeaksCons(s, rest);
      assert scripts == [s] + rest;
      RunAppend(x, BlockTurns(i, s), BodyTurns(i + 1, rest));
      AddsBoth(x, y, Run(y, BodyTurns(i + 1, rest)),
        if s.block.kind == "text" then Flatten(s.pieces) else "",
        if s.block.kind == "tool_use" then [StreamedCall(i, s)] else [],
        s.block.kind == "text" || s.block.kind == "tool_use",
        StreamedText(rest), StreamedCalls(i + 1, rest), Speaks(rest));
    }
  }

  lemma AddsBoth(
    x: Exchange, y: Exchange, z: Exchange, text: string, calls: seq<ToolCall>, spoken: bool,
    text': string, calls': seq<ToolCall>, spoken': bool
  )
    requires Adds(x, y, text, calls, spoken) && Adds(y, z, text', calls', spoken')
    ensures Adds(x, z, text + text', calls + calls', spoken || spoken')
  {
    assert x.reply.content + text + text' == x.reply.content + (text + text');
    assert x.reply.calls + calls + calls' == x.reply.calls + (calls + calls');
  }

  lemma BlockAdds(x: Exchange, i: int, s: Script)
    requires RoleKnown(x) && Below(x.reply.calls, i)
    ensures
      var text := if s.block.kind == "text" then Flatten(s.pieces) else "";
      var calls := if s.block.kind == "tool_use" then [StreamedCall(i, s)] else [];
      var y := Run(x, BlockTurns(i, s));
      && Adds(x, y, text, calls, s.block.kind == "text" || s.block.kind == "tool_use")
      && RoleKnown(y) && Below(y.reply.calls, i + 1)
  {
    hide Step, Absorb;
    if s.block.kind == "text" {
      RunTextBlock(x, i, s);
    } else if s.block.kind == "tool_use" {
      RunToolBlock(x, i, s);
    } else {
      assert x.reply.content + "" == x.reply.content && x.reply.calls + [] == x.reply.calls;
    }
  }

  lemma SpeaksCons(s: Script, rest: seq<Script>)
    ensures Speaks([s] + rest) <==> s.block.kind == "text" || s.block.kind == "tool_use" || Speaks(rest)
  {
    var all := [s] + rest;
    assert all[0] == s;
    if Speaks(rest) {
      var k :| 0 <= k < |rest| && (rest[k].block.kind == "text" || rest[k].block.kind == "tool_use");
      assert all[k + 1] == rest[k];
    }
  }

  // Agreement

  /** The pieces of every text block make up its text. */
  ghost predicate Delivered(scripts: seq<Script>) {
    forall k :: 0 <= k < |scripts| && scripts[k].block.kind == "text" ==>
      Flatten(scripts[k].pieces) == scripts[k].block.text
  }

  /** Every tool call has an id, and its pieces make up the encoding of its input. */
  ghost predicate ToolsDelivered(encode: Json -> string, scripts: seq<Script>) {
    forall k :: 0 <= k < |scripts| && scripts[k].block.kind == "tool_use" ==>
      !Blank(scripts[k].block.id) && Flatten(scripts[k].pieces) == InputPayload(encode, scripts[k].block.input)
  }

  function Unnumbered(calls: seq<ToolCall>): seq<ToolCall> {
    seq(|calls|, i requires 0 <= i < |calls| => calls[i].(index := None))
  }

  /** The reply of a stream: what the client holds once the closing chunk is in. */
  function StreamReply(turns: seq<Turn>): Reply {
    Assemble(Chunks(Play(turns).1) + [FinalChunk(Play(turns).0)])
  }

  lemma BlocksCons(scripts: seq<Script>)
    requires scripts != []
    ensures Blocks(scripts) == [scripts[0].block] + Blocks(scripts[1..])
    ensures Blocks(scripts)[1..] == Blocks(scripts[1..])
  {
  }

  /** The texts of the text blocks, in order. */
  function Texts(blocks: seq<ContentBlock>): seq<string> {
    if blocks == [] then []
    else (if blocks[0].kind == "text" then [blocks[0].text] else []) + Texts(blocks[1..])
  }

  /**
   White-space-only texts stand between two texts that say something as exactly one newline, and
   nowhere else. `gap` is the white space since the last text that said something.
   */
  predicate SpacedFrom(texts: seq<string>, first: bool, gap: string) {
    if texts == [] then gap == ""
    else if Blank(texts[0]) then SpacedFrom(texts[1..], first, gap + texts[0])
    else gap == (if first then "" else "\n") && SpacedFrom(texts[1..], false, "")
  }

  predicate Spaced(texts: seq<string>) {
    SpacedFrom(texts, true, "")
  }

  /** The texts that say something, each but the first after a newline. */
  function Joined(texts: seq<string>, first: bool): string {
    if texts == [] then ""
    else if Blank(texts[0]) then Joined(texts[1..], first)
    else (if first then "" else "\n") + (texts[0] + Joined(texts[1..], false))
  }

  lemma BlankIsSpace(s: string)
    ensures Blank(s) <==> AllSpace(s)
  {
    if AllSpace(s) {
      TrimUnique(s, "", "");
      assert s + "" + "" == s;
    } else {
      var a, b := TrimSplit(s);
      assert a + "" + b == a + b;
    }
  }

  /** Two white-space gaps before the same text that says something are told apart by what they start. */
  lemma CutGap(gap: string, sep: string, text: string, a: string, b: string)
    requires AllSpace(gap) && AllSpace(sep) && !AllSpace(text)
    ensures gap + (text + a) == sep + (text + b) <==> gap == sep && a == b
  {
    if gap + (text + a) == sep + (text + b) {
      var k := FirstWord(text);
      GapReaches(gap, sep, text, a, b, k);
      GapReaches(sep, gap, text, b, a, k);
      var left, right := gap + (text + a), sep + (text + b);
      assert left[..|gap|] == gap && right[..|gap|] == sep;
      assert left[|gap| + |text|..] == a && right[|gap| + |text|..] == b;
    }
  }

  lemma GapReaches(gap: string, sep: string, text: string, a: string, b: string, k: nat)
    requires AllSpace(sep) && k < |text| && !IsSpace(text[k]) && AllSpace(text[..k])
    requires gap + (text + a) == sep + (text + b)
    ensures |gap| >= |sep|
  {
    hide IsSpace, AllSpace;
    assert (gap + (text + a))[|gap| + k] == text[k];
    if |gap| < |sep| {
      SpaceBefore(sep, text, b, k, |gap| + k);
    }
  }

  lemma {:induction false} FirstWord(text: string) returns (k: nat)
    requires !AllSpace(text)
    ensures k < |text| && !IsSpace(text[k]) && AllSpace(text[..k])
    decreases text
  {
    if IsSpace(text[0]) {
      assert forall i :: 0 < i < |text| ==> text[i] == text[1..][i - 1];
      assert !AllSpace(text[1..]);
      var j := FirstWord(text[1..]);
      k := j + 1;
      forall i | 0 <= i < k ensures IsSpace(text[..k][i]) {
        if i > 0 {
          assert text[..k][i] == text[1..][..j][i - 1];
        }
      }
    } else {
      k := 0;
    }
  }

  lemma SpaceBefore(gap: string, text: string, tail: string, k: nat, i: nat)
    requires AllSpace(gap) && k < |text| && AllSpace(text[..k]) && i < |gap| + k
    ensures IsSpace((gap + (text + tail))[i])
  {
    if i >= |gap| {
      assert (gap + (text + tail))[i] == text[..k][i - |gap|];
    }
  }

  /** Putting the texts end to end gives the joined text exactly when they are spaced. */
  lemma {:induction false} SpacedJoins(texts: seq<string>, first: bool, gap: string)
    requires AllSpace(gap)
    ensures gap + Flatten(texts) == Joined(texts, first) <==> SpacedFrom(texts, first, gap)
    decreases texts
  {
    if texts == [] {
      assert gap + "" == gap;
    } else {
      hide Blank, IsSpace;
      var t, rest := texts[0], texts[1..];
      BlankIsSpace(t);
      if Blank(t) {
        SpacedJoins(rest, first, gap + t);
        assert gap + (t + Flatten(rest)) == gap + t + Flatten(rest);
      } else {
        var sep := if first then "" else "\n";
        assert AllSpace(sep) by { assert IsSpace('\n') by { NewlineIsSpace(); } }
        CutGap(gap, sep, t, Flatten(rest), Joined(rest, false));
        SpacedJoins(rest, false, "");
        assert "" + Flatten(rest) == Flatten(rest);
      }
    }
  }

  lemma NewlineIsSpace()
    ensures IsSpace('\n')
  {
  }

  lemma {:induction false} JoinedParts(blocks: seq<ContentBlock>)
    ensures
      var parts, texts := TextParts(blocks), Texts(blocks);
      && Joined(texts, true) == Join(parts, "\n")
      && Joined(texts, false) == if parts == [] then "" else "\n" + Join(parts, "\n")
    decreases blocks
  {
    hide Blank;
    if blocks != [] {
      var rest := blocks[1..];
      JoinedParts(rest);
      var parts, texts := TextParts(rest), Texts(rest);
      if blocks[0].kind == "text" {
        var t := blocks[0].text;
        assert ([t] + texts)[1..] == texts;
        if Blank(t) {
          assert [] + parts == parts;
        } else {
          JoinCons(t, parts);
          assert "" + Join([t] + parts, "\n") == Join([t] + parts, "\n");
        }
      } else {
        assert [] + texts == texts && [] + parts == parts;
      }
    }
  }

  lemma JoinCons(t: string, parts: seq<string>)
    ensures Join([t] + parts, "\n") == if parts == [] then t else t + "\n" + Join(parts, "\n")
    ensures t + (if parts == [] then "" else "\n" + Join(parts, "\n")) == Join([t] + parts, "\n")
  {
    assert ([t] + parts)[1..] == parts;
    assert t + ("\n" + Join(parts, "\n")) == t + "\n" + Join(parts, "\n");
  }

  lemma {:induction false} TextsDelivered(scripts: seq<Script>)
    requires Delivered(scripts)
    ensures StreamedText(scripts) == Flatten(Texts(Blocks(scripts)))
    decreases scripts
  {
    if scripts != [] {
      var rest := scripts[1..];
      BlocksCons(scripts);
      assert forall k :: 0 <= k < |rest| ==> rest[k] == scripts[k + 1];
      TextsDelivered(rest);
      var texts := Texts(Blocks(rest));
      if scripts[0].block.kind == "text" {
        assert ([scripts[0].block.text] + texts)[1..] == texts;
      } else {
        assert [] + texts == texts && "" + StreamedText(rest) == StreamedText(rest);
      }
    }
  }

  /** Whatever the blocks, the streamed text is the batch text exactly when the texts are spaced by single newlines. */
  lemma TextAgreement(encode: Json -> string, scripts: seq<Script>)
    requires Delivered(scripts)
    ensures
      var batch := ContentText(BatchMessage(encode, Blocks(scripts)).0);
      StreamedText(scripts) == batch <==> Spaced(Texts(Blocks(scripts)))
  {
    hide Blank, IsSpace;
    var texts := Texts(Blocks(scripts));
    TextsDelivered(scripts);
    SpacedJoins(texts, true, "");
    assert "" + Flatten(texts) == Flatten(texts);
    JoinedParts(Blocks(scripts));
  }

  /** When every text says something, or nothing at all, that is to say: at most one of them speaks. */
  lemma {:induction false} SpacedWithoutBlanks(blocks: seq<ContentBlock>, first: bool)
    requires forall t :: t in Texts(blocks) ==> t == "" || !Blank(t)
    ensures SpacedFrom(Texts(blocks), first, "") <==> |TextParts(blocks)| <= if first then 1 else 0
    decreases blocks
  {
    if blocks != [] {
      var texts := Texts(blocks[1..]);
      if blocks[0].kind == "text" {
        var t := blocks[0].text;
        assert ([t] + texts)[1..] == texts && forall u :: u in texts ==> u in [t] + texts;
        assert "" + "" == "";
        if Blank(t) {
          assert t in [t] + texts;
          SpacedWithoutBlanks(blocks[1..], first);
        } else {
          SpacedWithoutBlanks(blocks[1..], false);
        }
      } else {
        assert [] + texts == texts;
        SpacedWithoutBlanks(blocks[1..], first);
      }
    }
  }

  lemma CallAgreement(encode: Json -> string, i: int, s: Script)
    requires s.block.kind == "tool_use"
    ensures StreamedCall(i, s).(index := None) == ToolPart(encode, s.block) <==>
      !Blank(s.block.id) && Flatten(s.pieces) == InputPayload(encode, s.block.input)
  {
    assert ("call_" + Decimal(i))[0] == 'c' && "tool_call"[0] == 't';
  }

  lemma {:induction false} CallsAgreement(encode: Json -> string, i: int, scripts: seq<Script>)
    ensures |StreamedCalls(i, scripts)| == |ToolParts(encode, Blocks(scripts))|
    ensures Unnumbered(StreamedCalls(i, scripts)) == ToolParts(encode, Blocks(scripts)) <==>
      ToolsDelivered(encode, scripts)
    decreases scripts
  {
    if scripts != [] {
      hide StreamedCall, ToolPart, ToolsDelivered, Unnumbered;
      var s, rest := scripts[0], scripts[1..];
      BlocksCons(scripts);
      hide Blocks;
      CallsAgreement(encode, i + 1, rest);
      ToolsDeliveredCons(encode, s, rest);
      CallsCons(encode, i, s, rest);
      hide Blank, Flatten, InputPayload, StreamedCalls, ToolParts;
      assert scripts == [s] + rest && Blocks(scripts) == [s.block] + Blocks(rest);
      if s.block.kind == "tool_use" {
        CallAgreement(encode, i, s);
        UnnumberedCons(StreamedCall(i, s), StreamedCalls(i + 1, rest), ToolPart(encode, s.block),
          ToolParts(encode, Blocks(rest)));
      }
    }
  }

  /** One more block adds its call to both sides, if it is a tool block. */
  lemma CallsCons(encode: Json -> string, i: int, s: Script, rest: seq<Script>)
    ensures
      var a, b := StreamedCalls(i + 1, rest), ToolParts(encode, Blocks(rest));
      && StreamedCalls(i, [s] + rest) == (if s.block.kind == "tool_use" then [StreamedCall(i, s)] + a else a)
      && ToolParts(encode, [s.block] + Blocks(rest)) ==
           (if s.block.kind == "tool_use" then [ToolPart(encode, s.block)] + b else b)
  {
    hide StreamedCall, ToolPart;
    var a, b := StreamedCalls(i + 1, rest), ToolParts(encode, Blocks(rest));
    assert ([s] + rest)[1..] == rest && ([s.block] + Blocks(rest))[1..] == Blocks(rest);
    assert [] + a == a && [] + b == b;
  }

  lemma UnnumberedCons(c: ToolCall, a: seq<ToolCall>, d: ToolCall, b: seq<ToolCall>)
    ensures Unnumbered([c] + a) == [d] + b <==> c.(index := None) == d && Unnumbered(a) == b
  {
    assert Unnumbered([c] + a) == [c.(index := None)] + Unnumbered(a);
    ConsEqual(c.(index := None), Unnumbered(a), d, b);
  }

  lemma ConsEqual<T>(x: T, xs: seq<T>, y: T, ys: seq<T>)
    ensures [x] + xs == [y] + ys <==> x == y && xs == ys
  {
    if [x] + xs == [y] + ys {
      assert ([x] + xs)[0] == ([y] + ys)[0];
      assert ([x] + xs)[1..] == xs && ([y] + ys)[1..] == ys;
    }
  }

  lemma ToolsDeliveredCons(encode: Json -> string, s: Script, rest: seq<Script>)
    ensures ToolsDelivered(encode, [s] + rest) <==>
      ToolsDelivered(encode, rest)
      && (s.block.kind == "tool_use" ==> !Blank(s.block.id) && Flatten(s.pieces) == InputPayload(encode, s.block.input))
  {
    var all := [s] + rest;
    assert all[0] == s && all[1..] == rest;
    forall k | 0 <= k < |rest| ensures rest[k] == all[k + 1] {
    }
    if ToolsDelivered(encode, all) {
      forall k | 0 <= k < |rest| && rest[k].block.kind == "tool_use"
        ensures !Blank(rest[k].block.id) && Flatten(rest[k].pieces) == InputPayload(encode, rest[k].block.input)
      {
        assert all[k + 1] == rest[k];
      }
    }
  }

  /** The reply a client assembles from the stream of a response. */
  function ExpectedReply(head: MessageHead, scripts: seq<Script>, stopReason: string, output: int): Reply {
    Reply(
      if Speaks(scripts) then "assistant" else "",
      StreamedText(scripts),
      StreamedCalls(0, scripts),
      NormalizeStopReason(stopReason),
      Some(Usage(head.inputTokens, output, head.inputTokens + output)))
  }

  /** From the first event to the closing chunk, a response's stream assembles to the expected reply. */
  lemma StreamAssembles(
    turns: seq<Turn>, head: MessageHead, scripts: seq<Script>, stopReason: string, output: int
  )
    requires Streams(turns, head, scripts, stopReason, output)
    ensures StreamReply(turns) == ExpectedReply(head, scripts, stopReason, output)
    ensures FinalChunk(Play(turns).0).id == if Blank(head.id) then "chatcmpl-anthropic" else head.id
    ensures FinalChunk(Play(turns).0).model == head.model
  {
    var x := Exchange(FRESH, NO_REPLY);
    hide React, Play, Absorb;
    RunAssembles(turns);
    RunDenoised(x, turns);
    RunDenoised(x, ScriptTurns(head, scripts, stopReason, output));
    var z := Run(x, turns);
    ScriptRuns(head, scripts, stopReason, output);
    var chunks := Chunks(Play(turns).1);
    var last := FinalChunk(z.st);
    assert (chunks + [last])[..|chunks|] == chunks;
    AbsorbFinal(z.reply, z.st);
  }

  lemma AbsorbFinal(reply: Reply, st: StreamState)
    ensures Absorb(reply, FinalChunk(st)) ==
      reply.(usage := Some(Usage(st.promptTokens, st.completionTokens, st.promptTokens + st.completionTokens)))
  {
    assert reply.content + "" == reply.content;
  }

  lemma ScriptRuns(head: MessageHead, scripts: seq<Script>, stopReason: string, output: int)
    ensures
      var z := Run(Exchange(FRESH, NO_REPLY), ScriptTurns(head, scripts, stopReason, output));
      && z.reply == ExpectedReply(head, scripts, stopReason, output).(usage := None)
      && z.st.promptTokens == head.inputTokens && z.st.completionTokens == output
      && z.st.responseID == head.id && z.st.model == head.model
  {
    var x := Exchange(FRESH, NO_REPLY);
    var body := BodyTurns(0, scripts);
    var closing, stop := ClosingTurn(stopReason, output), Turn("message_stop", Event("message_stop"));
    assert ScriptTurns(head, scripts, stopReason, output) == [OpeningTurn(head)] + (body + ([closing] + ([stop] + [])));
    var y := Exchange(FRESH.(responseID := head.id, model := head.model, promptTokens := head.inputTokens), NO_REPLY);
    assert Step(x, OpeningTurn(head)) == y;
    RunBody(y, 0, scripts);
    var w := Run(y, body);
    ClosingStep(w, stopReason, output);
    var v := Step(w, closing);
    assert Step(v, stop) == v;
    hide Run, Step;
    RunCons(x, OpeningTurn(head), body + ([closing] + ([stop] + [])));
    RunAppend(y, body, [closing] + ([stop] + []));
    RunCons(w, closing, [stop] + []);
    RunCons(v, stop, []);
    RunNone(v);
    assert "" + StreamedText(scripts) == StreamedText(scripts);
    assert [] + StreamedCalls(0, scripts) == StreamedCalls(0, scripts);
  }

  lemma RunNone(x: Exchange)
    ensures Run(x, []) == x
  {
  }

  lemma ClosingStep(x: Exchange, stopReason: string, output: int)
    ensures Step(x, ClosingTurn(stopReason, output)) ==
      var reason := NormalizeStopReason(stopReason);
      Exchange(x.st.(completionTokens := output),
               x.reply.(finishReason := if reason == "" then x.reply.finishReason else reason))
  {
    hide NormalizeStopReason;
    assert x.reply.content + "" == x.reply.content;
  }

  /**
   Streaming agrees with batch. However the response is cut into pieces, whatever its start events
   show, and whatever noise is mixed in, the client's reply has the batch reply's finish reason and
   token counts; its tool calls are the batch ones exactly when every call has an id and its pieces
   are the encoded input; its text is the batch text exactly when the texts are spaced by single
   newlines; and its role is the batch role exactly when something is streamed and the response names
   the assistant or no role.
   */
  lemma StreamAgreesWithBatch(
    encode: Json -> string, role: string, turns: seq<Turn>, head: MessageHead, scripts: seq<Script>,
    stopReason: string, output: int
  )
    requires Streams(turns, head, scripts, stopReason, output)
    requires Delivered(scripts)
    ensures
      var stream := StreamReply(turns);
      var batch := BatchReply(encode, role, Blocks(scripts), stopReason, head.inputTokens, output);
      && stream.finishReason == batch.finishReason
      && stream.usage == batch.usage
      && (Unnumbered(stream.calls) == batch.calls <==> ToolsDelivered(encode, scripts))
      && (stream.content == batch.content <==> Spaced(Texts(Blocks(scripts))))
      && (stream.role == batch.role <==> Speaks(scripts) && (Blank(role) || role == "assistant"))
  {
    hide Play, NormalizeStopReason, ToolsDelivered, StreamedCalls, StreamedText, TextParts, Texts, Blocks, Streams,
      Delivered, StreamReply, ToolParts, Unnumbered, Speaks, Spaced;
    StreamAssembles(turns, head, scripts, stopReason, output);
    TextAgreement(encode, scripts);
    CallsAgreement(encode, 0, scripts);
  }

  /** The finish reason a client is to see for a stop reason, white space around it aside. */
  predicate Finishes(finish: string, stop: string) {
    && (finish == "stop" <==> stop == "end_turn" || stop == "stop_sequence")
    && (finish == "length" <==> stop == "max_tokens")
    && (finish == "tool_calls" <==> stop == "tool_use")
    && (finish == "" <==> stop !in {"end_turn", "stop_sequence", "max_tokens", "tool_use"})
  }

  /** Streamed or in one piece, every response ends for the reason its stop reason gives, and its tokens add up. */
  lemma FinishReasons(
    encode: Json -> string, role: string, turns: seq<Turn>, head: MessageHead, scripts: seq<Script>,
    stopReason: string, output: int
  )
    requires Streams(turns, head, scripts, stopReason, output)
    ensures
      var stream := StreamReply(turns);
      var batch := BatchReply(encode, role, Blocks(scripts), stopReason, head.inputTokens, output);
      && Finishes(stream.finishReason, Trim(stopReason)) && Finishes(batch.finishReason, Trim(stopReason))
      && stream.usage == batch.usage == Some(Usage(head.inputTokens, output, head.inputTokens + output))
  {
    hide Play, Trim, StreamedCalls, StreamedText, TextParts, Blocks, Streams, StreamReply, ToolParts, Speaks;
    StreamAssembles(turns, head, scripts, stopReason, output);
  }

  /** An ordinary response: a text and a tool call, announced without text and with an empty input. */
  function OrdinaryScripts(
    text: string, textPieces: seq<string>, id: string, name: string, input: Json, inputPieces: seq<string>
  ): seq<Script> {
    [Script(TextBlock(text), "", Null, textPieces), Script(ToolUseBlock(id, name, input), "", Obj(map[]), inputPieces)]
  }

  /** On an ordinary response with something to say the two replies are one, and carry the text and the whole input. */
  lemma OrdinaryResponse(
    encode: Json -> string, turns: seq<Turn>, head: MessageHead, text: string, textPieces: seq<string>,
    id: string, name: string, input: Json, inputPieces: seq<string>, stopReason: string, output: int
  )
    requires Streams(turns, head, OrdinaryScripts(text, textPieces, id, name, input, inputPieces), stopReason, output)
    requires !Blank(text) && Flatten(textPieces) == text
    requires !Blank(id) && !input.Null? && Flatten(inputPieces) == encode(input)
    ensures
      var blocks := [TextBlock(text), ToolUseBlock(id, name, input)];
      var stream := StreamReply(turns);
      && stream.(calls := Unnumbered(stream.calls))
           == BatchReply(encode, "assistant", blocks, stopReason, head.inputTokens, output)
      && stream.content == text
      && Unnumbered(stream.calls) == [ToolCall(id, "function", Some(FunctionCall(Trim(name), encode(input))), None)]
  {
    var blocks := [TextBlock(text), ToolUseBlock(id, name, input)];
    var scripts := OrdinaryScripts(text, textPieces, id, name, input, inputPieces);
    OrdinaryDelivered(encode, text, textPieces, id, name, input, inputPieces);
    OrdinaryParts(encode, text, id, name, input);
    hide Blank, Trim, Play, NormalizeStopReason, StreamReply, Unnumbered, Streams, TextParts, Texts, ToolParts, Denoise,
      OrdinaryScripts, Delivered, ToolsDelivered, Speaks, Blocks, Spaced, ToolUseBlock, TextBlock;
    StreamAgreesWithBatch(encode, "assistant", turns, head, scripts, stopReason, output);
  }

  lemma OrdinaryDelivered(
    encode: Json -> string, text: string, textPieces: seq<string>, id: string, name: string, input: Json,
    inputPieces: seq<string>
  )
    requires Flatten(textPieces) == text && !Blank(id) && !input.Null? && Flatten(inputPieces) == encode(input)
    ensures
      var scripts := OrdinaryScripts(text, textPieces, id, name, input, inputPieces);
      && Blocks(scripts) == [TextBlock(text), ToolUseBlock(id, name, input)]
      && Delivered(scripts) && ToolsDelivered(encode, scripts) && Speaks(scripts)
  {
    hide Blank, Flatten;
    var scripts := OrdinaryScripts(text, textPieces, id, name, input, inputPieces);
    assert scripts[0].block.kind == "text";
  }

  lemma OrdinaryParts(encode: Json -> string, text: string, id: string, name: string, input: Json)
    requires !Blank(text) && !Blank(id) && !input.Null?
    ensures
      var blocks := [TextBlock(text), ToolUseBlock(id, name, input)];
      && TextParts(blocks) == [text] && Spaced(Texts(blocks)) && !Blank("assistant")
      && ToolParts(encode, blocks) ==
           [ToolCall(id, "function", Some(FunctionCall(Trim(name), encode(input))), None)]
  {
    var said, tool := TextBlock(text), ToolUseBlock(id, name, input);
    OrdinaryBlocks(encode, said, tool);
    TrimFixed("assistant");
    hide Trim, TextParts, ToolParts, Texts;
    SpacedAlone(text);
  }

  lemma OrdinaryBlocks(encode: Json -> string, said: ContentBlock, tool: ContentBlock)
    requires said.kind == "text" && !Blank(said.text) && tool.kind == "tool_use"
    ensures TextParts([said, tool]) == [said.text] && Texts([said, tool]) == [said.text]
    ensures ToolParts(encode, [said, tool]) == [ToolPart(encode, tool)]
  {
    hide Blank, ToolPart;
    var both, one := [said, tool], [tool];
    assert both[0] == said && both[1..] == one && one[0] == tool && one[1..] == [];
    assert TextParts(one) == TextOf(tool) + TextParts([]) == [] && Texts(one) == [] + Texts([]) == [];
    assert TextParts(both) == TextOf(said) + TextParts(one) && Texts(both) == [said.text] + Texts(one);
    assert ToolParts(encode, one) == ToolOf(encode, tool) + ToolParts(encode, []) == [ToolPart(encode, tool)];
    assert ToolParts(encode, both) == ToolOf(encode, said) + ToolParts(encode, one);
  }

  lemma SpacedAlone(text: string)
    requires !Blank(text)
    ensures Spaced([text])
  {
    hide Blank;
    var one := [text];
    assert one[0] == text && one[1..] == [] && SpacedFrom([], false, "");
    assert SpacedFrom(one, true, "");
  }

  /** A tool call whose input comes in no piece at all has no arguments on the stream, but an encoding in the batch. */
  lemma WithoutPieces(
    encode: Json -> string, role: string, turns: seq<Turn>, head: MessageHead, scripts: seq<Script>, k: nat,
    stopReason: string, output: int
  )
    requires Streams(turns, head, scripts, stopReason, output) && Delivered(scripts)
    requires k < |scripts| && scripts[k].block.kind == "tool_use" && Flatten(scripts[k].pieces) == ""
    requires InputPayload(encode, scripts[k].block.input) != ""
    ensures Unnumbered(StreamReply(turns).calls)
      != BatchReply(encode, role, Blocks(scripts), stopReason, head.inputTokens, output).calls
  {
    hide Play, StreamReply, Unnumbered, Streams, Delivered, BatchReply, Denoise, Blocks, Flatten, Speaks, Spaced, Texts;
    StreamAgreesWithBatch(encode, role, turns, head, scripts, stopReason, output);
  }

  // From the wire to the reply

  /** Events are encoded as one trimmed line each, and decode to themselves. */
  ghost predicate LawfulEvents(encode: StreamEvent -> string, decode: string -> Option<StreamEvent>) {
    forall ev :: decode(encode(ev)) == Some(ev) && OneLine(encode(ev)) && Trimmed(encode(ev)) && !Blank(encode(ev))
  }

  /** The types on the `event:` lines are the kinds of the turns, or empty where the payload says the kind. */
  ghost predicate Typed(turns: seq<Turn>, types: seq<string>) {
    |types| == |turns| &&
    forall k :: 0 <= k < |turns| ==>
      if types[k] == "" then turns[k].ev.kind == turns[k].kind
      else types[k] == turns[k].kind && OneLine(types[k]) && Trimmed(types[k]) && !Blank(types[k])
  }

  function WireMessages(encode: StreamEvent -> string, turns: seq<Turn>, types: seq<string>): seq<Message>
    requires |types| == |turns|
  {
    seq(|turns|, k requires 0 <= k < |turns| => Message(types[k], [encode(turns[k].ev)]))
  }

  lemma WireSendable(
    encode: StreamEvent -> string, decode: string -> Option<StreamEvent>, turns: seq<Turn>, types: seq<string>
  )
    requires LawfulEvents(encode, decode) && Typed(turns, types)
    ensures forall k :: 0 <= k < |turns| ==> Sendable(WireMessages(encode, turns, types)[k])
  {
    forall k | 0 <= k < |turns| ensures Sendable(WireMessages(encode, turns, types)[k]) {
      assert OneLine(types[k]);
    }
  }

  lemma {:induction false} ReceivedSnoc(messages: seq<Message>, m: Message)
    ensures ReceivedAll(messages + [m]) == ReceivedAll(messages) + [Received(m)]
    decreases messages
  {
    hide Received;
    if messages == [] {
      assert ([] + [m])[1..] == [];
    } else {
      assert (messages + [m])[1..] == messages[1..] + [m];
      ReceivedSnoc(messages[1..], m);
    }
  }

  lemma {:induction false} TurnsReceived(
    encode: StreamEvent -> string, decode: string -> Option<StreamEvent>, turns: seq<Turn>, types: seq<string>
  )
    requires LawfulEvents(encode, decode) && Typed(turns, types)
    requires forall k :: 0 <= k < |turns| - 1 ==> !Ends(turns[k])
    ensures TurnsOf(decode, ReceivedAll(WireMessages(encode, turns, types))) == turns
    ensures |ReceivedAll(WireMessages(encode, turns, types))| == |turns|
    decreases |turns|
  {
    hide Received, TurnsOf, WireMessages, ReceivedAll;
    if turns == [] {
      NothingReceived(encode, decode);
    } else {
      var n := |turns| - 1;
      var front, turn, named := turns[..n], turns[n], types[..n];
      TurnsReceived(encode, decode, front, named);
      var m := Message(types[n], [encode(turn.ev)]);
      WireMessagesSnoc(encode, front, named, turn, types[n]);
      assert turns == front + [turn] && types == named + [types[n]];
      ReceivedSnoc(WireMessages(encode, front, named), m);
      ReceivedIntact(m);
      assert Received(m) == Frame(types[n], encode(turn.ev));
      TurnsOfSnoc(decode, ReceivedAll(WireMessages(encode, front, named)), Received(m));
    }
  }

  lemma NothingReceived(encode: StreamEvent -> string, decode: string -> Option<StreamEvent>)
    ensures WireMessages(encode, [], []) == [] && ReceivedAll([]) == [] && TurnsOf(decode, []) == []
  {
  }

  lemma WireMessagesSnoc(
    encode: StreamEvent -> string, front: seq<Turn>, types: seq<string>, turn: Turn, eventType: string
  )
    requires |types| == |front|
    ensures WireMessages(encode, front + [turn], types + [eventType]) ==
      WireMessages(encode, front, types) + [Message(eventType, [encode(turn.ev)])]
  {
  }

  lemma TurnsOfSnoc(decode: string -> Option<StreamEvent>, frames: seq<Frame>, frame: Frame)
    requires Readable(decode, frame)
    ensures
      var turns := TurnsOf(decode, frames);
      var ev := decode(frame.payload).value;
      TurnsOf(decode, frames + [frame]) ==
        if turns != [] && Ends(turns[|turns| - 1]) then turns
        else turns + [Turn(Kind(frame.eventType, ev), ev)]
  {
    assert (frames + [frame])[..|frames|] == frames;
  }

  lemma {:induction false} DenoiseKeeps(turns: seq<Turn>, k: nat)
    requires k < |turns| && !Noise(turns[k])
    ensures turns[k] in Denoise(turns)
    decreases turns
  {
    hide Noise;
    if k > 0 {
      DenoiseKeeps(turns[1..], k - 1);
    }
  }

  lemma {:induction false} DenoiseDrops(turns: seq<Turn>, turn: Turn)
    requires turn in Denoise(turns)
    ensures turn in turns
    decreases turns
  {
    hide Noise;
    if turns != [] && turn in Denoise(turns[1..]) {
      DenoiseDrops(turns[1..], turn);
    }
  }

  lemma {:induction false} BodyKinds(i: int, scripts: seq<Script>)
    ensures forall t :: t in BodyTurns(i, scripts) ==> t.kind != "error"
    decreases scripts
  {
    if scripts != [] {
      BodyKinds(i + 1, scripts[1..]);
      PieceKinds(i, scripts[0].pieces);
    }
  }

  lemma {:induction false} PieceKinds(i: int, pieces: seq<string>)
    ensures forall t :: t in TextTurns(i, pieces) || t in JsonTurns(i, pieces) ==> t.kind != "error"
    decreases pieces
  {
    if pieces != [] {
      PieceKinds(i, pieces[1..]);
    }
  }

  lemma {:induction false} FailingTurn(turns: seq<Turn>) returns (k: nat)
    requires AnyFails(turns)
    ensures k < |turns| && Fails(turns[k])
    decreases |turns|
  {
    var n := |turns| - 1;
    if Fails(turns[n]) {
      k := n;
    } else {
      k := FailingTurn(turns[..n]);
    }
  }

  lemma ScriptNeverFails(
    turns: seq<Turn>, head: MessageHead, scripts: seq<Script>, stopReason: string, output: int
  )
    requires Streams(turns, head, scripts, stopReason, output)
    ensures !AnyFails(turns)
  {
    if AnyFails(turns) {
      var k := FailingTurn(turns);
      DenoiseKeeps(turns, k);
      DenoiseDrops(ScriptTurns(head, scripts, stopReason, output), turns[k]);
      BodyKinds(0, scripts);
      assert false;
    }
  }

  /**
   A response printed as server-sent events, with or without types on the `event:` lines, however cut
   and mixed with noise, and read by the framing loop over a connection that takes every write: nothing
   fails, and what the client assembles is the reply of the stream.
   */
  lemma WireToReply(
    encode: StreamEvent -> string, decode: string -> Option<StreamEvent>, accepts: nat -> bool,
    turns: seq<Turn>, types: seq<string>, head: MessageHead, scripts: seq<Script>, stopReason: string, output: int
  )
    requires LawfulEvents(encode, decode) && Typed(turns, types)
    requires forall n :: accepts(n)
    requires forall k :: 0 <= k < |turns| - 1 ==> !Ends(turns[k])
    requires Streams(turns, head, scripts, stopReason, output)
    ensures
      var p := DeliverAll(decode, accepts, OPENING, FramesRead(Print(WireMessages(encode, turns, types)), false));
      && !p.failed
      && Assemble(p.attempts + [FinalChunk(p.st)]) == ExpectedReply(head, scripts, stopReason, output)
  {
    hide Play, Streams, DeliverAll, AnyFails, TurnsOf, ExpectedReply, Assemble;
    var messages := WireMessages(encode, turns, types);
    WireSendable(encode, decode, turns, types);
    PrintedFrames(messages);
    TurnsReceived(encode, decode, turns, types);
    DeliverPlays(decode, accepts, ReceivedAll(messages));
    ScriptNeverFails(turns, head, scripts, stopReason, output);
    StreamAssembles(turns, head, scripts, stopReason, output);
  }
}
