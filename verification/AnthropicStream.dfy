/**
 The streaming half of the gateway: Anthropic events in, OpenAI chunks out.
 `React` says what one event does; the class does it in place.
 */
module AnthropicStream {
  import opened Options
  import opened Text
  import opened Wire
  import opened SseFraming

  datatype ToolState = ToolState(id: string, name: string, arguments: string)

  datatype StreamState = StreamState(
    responseID: string,
    model: string,
    promptTokens: int,
    completionTokens: int,
    assistantText: string,
    toolCalls: map<int, ToolState>,
    sentRole: bool)

  const FRESH := StreamState("", "", 0, 0, "", map[], false)

  /** The chunk a state stamps with its response id and model. */
  function Stamp(st: StreamState): Chunk {
    Chunk(DefaultIfBlank(st.responseID, FALLBACK_RESPONSE_ID), st.model, "", "", [], "", None)
  }

  function RoleToSend(st: StreamState): string {
    if st.sentRole then "" else "assistant"
  }

  /** The effect of an event: the new state, the chunk it asks for, and whether the stream ends or fails. */
  datatype Reaction = Reaction(st: StreamState, chunk: Option<Chunk>, finished: bool, error: Option<string>)

  function Quiet(st: StreamState): Reaction {
    Reaction(st, None, false, None)
  }

  function Kind(eventType: string, ev: StreamEvent): string {
    if Blank(eventType) then ev.kind else eventType
  }

  function ReactStart(st: StreamState, index: int, block: ContentBlock): (r: Reaction)
    ensures !r.finished && r.error.None?
  {
    var spoken := st.(sentRole := true);
    if block.kind == "text" then
      Reaction(spoken, Some(Stamp(st).(role := RoleToSend(st))), false, None)
    else if block.kind == "tool_use" then
      var tool := ToolState(DefaultIfBlank(block.id, "call_" + Decimal(index)), Trim(block.name), "");
      var call := ToolCall(tool.id, "function", Some(FunctionCall(tool.name, "")), Some(index));
      Reaction(
        spoken.(toolCalls := st.toolCalls[index := tool]),
        Some(Stamp(st).(role := RoleToSend(st), toolCalls := [call])), false, None)
    else Quiet(st)
  }

  function ReactDelta(st: StreamState, index: int, delta: EventDelta): (r: Reaction)
    ensures !r.finished && r.error.None?
  {
    if delta.kind == "text_delta" && delta.text != "" then
      Reaction(
        st.(assistantText := st.assistantText + delta.text), Some(Stamp(st).(content := delta.text)), false, None)
    else if delta.kind == "input_json_delta" && index in st.toolCalls then
      var tool := st.toolCalls[index];
      var call := ToolCall(tool.id, "function", Some(FunctionCall("", delta.partialJSON)), Some(index));
      Reaction(
        st.(toolCalls := st.toolCalls[index := tool.(arguments := tool.arguments + delta.partialJSON)]),
        Some(Stamp(st).(toolCalls := [call])), false, None)
    else Quiet(st)
  }

  function ReactClosing(st: StreamState, ev: StreamEvent): (r: Reaction)
    ensures !r.finished && r.error.None?
  {
    var counted := if ev.outputTokens.Some? then st.(completionTokens := ev.outputTokens.value) else st;
    var reason := if ev.delta.Some? then NormalizeStopReason(ev.delta.value.stopReason) else "";
    Reaction(counted, if reason == "" then None else Some(Stamp(st).(finishReason := reason)), false, None)
  }

  function React(st: StreamState, kind: string, ev: StreamEvent): Reaction {
    if kind == "message_start" then
      if ev.message.None? then Quiet(st)
      else
        var head := ev.message.value;
        Quiet(st.(responseID := head.id, model := head.model, promptTokens := head.inputTokens))
    else if kind == "content_block_start" then
      if ev.contentBlock.None? || ev.index.None? then Quiet(st)
      else ReactStart(st, ev.index.value, ev.contentBlock.value)
    else if kind == "content_block_delta" then
      if ev.index.None? || ev.delta.None? then Quiet(st)
      else ReactDelta(st, ev.index.value, ev.delta.value)
    else if kind == "message_delta" then ReactClosing(st, ev)
    else if kind == "message_stop" then Reaction(st, None, true, None)
    else if kind == "error" && ev.errorMessage.Some? && !Blank(ev.errorMessage.value) then
      Reaction(st, None, false, ev.errorMessage)
    else Quiet(st)
  }

  // A whole stream

  /** What a stream has come to: the state, the chunks written or tried, whether anything failed, whether it ended. */
  datatype Progress = Progress(st: StreamState, attempts: seq<Chunk>, failed: bool, done: bool)

  const OPENING := Progress(FRESH, [], false, false)

  function Deliver(
    decode: string -> Option<StreamEvent>, accepts: nat -> bool, p: Progress, frame: Frame
  ): Progress {
    if Blank(frame.payload) || decode(frame.payload).None? then p
    else
      var ev := decode(frame.payload).value;
      var r := React(p.st, Kind(frame.eventType, ev), ev);
      match r.chunk
      case None => Progress(r.st, p.attempts, p.failed || r.error.Some?, p.done || r.finished)
      case Some(chunk) => Progress(r.st, p.attempts + [chunk], p.failed || !accepts(|p.attempts|), p.done)
  }

  /** Frames are delivered in order until one ends the stream; a failed one does not stop the rest. */
  function DeliverAll(
    decode: string -> Option<StreamEvent>, accepts: nat -> bool, p: Progress, frames: seq<Frame>
  ): Progress
    decreases |frames|
  {
    if frames == [] || p.done then p
    else DeliverAll(decode, accepts, Deliver(decode, accepts, p, frames[0]), frames[1..])
  }

  /** The chunk that closes a stream and carries its token counts. */
  function FinalChunk(st: StreamState): Chunk {
    Stamp(st).(usage := Some(Usage(st.promptTokens, st.completionTokens, st.promptTokens + st.completionTokens)))
  }

  /** The frames the loop reads from a body that ends cleanly or breaks off. */
  function FramesRead(body: string, broken: bool): seq<Frame> {
    if broken then Framed(START, Lines(body)).frames else Frames(body)
  }

  /** The complete lines of a body, without a line that breaks off. */
  function CompleteLines(s: string): seq<string>
    decreases |s|
  {
    if s == "" || !EndsLine(ReadLine(s).0) then [] else [ReadLine(s).0] + CompleteLines(ReadLine(s).1)
  }

  lemma {:induction false} DeliverAppend(
    decode: string -> Option<StreamEvent>, accepts: nat -> bool, p: Progress, a: seq<Frame>, b: seq<Frame>
  )
    ensures DeliverAll(decode, accepts, p, a + b) ==
      DeliverAll(decode, accepts, DeliverAll(decode, accepts, p, a), b)
    decreases |a|
  {
    if a == [] || p.done {
      assert a == [] ==> a + b == b;
    } else {
      assert (a + b)[1..] == a[1..] + b;
      DeliverAppend(decode, accepts, Deliver(decode, accepts, p, a[0]), a[1..], b);
    }
  }

  /** The frame a flush closes, if data lines are waiting. */
  function FlushedFrames(f: Framing): seq<Frame> {
    if f.data == [] then [] else [Frame(f.eventType, Join(f.data, "\n"))]
  }

  lemma FlushFrames(f: Framing, line: string)
    ensures Flush(f).frames == f.frames + FlushedFrames(f)
    ensures OnLine(f, line).frames == f.frames + (if Chomp(line) == "" then FlushedFrames(f) else [])
  {
  }

  lemma DeliverOne(decode: string -> Option<StreamEvent>, accepts: nat -> bool, p: Progress, frame: Frame)
    ensures !p.done ==> DeliverAll(decode, accepts, p, [frame]) == Deliver(decode, accepts, p, frame)
    ensures
      var q := Deliver(decode, accepts, p.(failed := false, done := false), frame);
      Deliver(decode, accepts, p, frame) == q.(failed := p.failed || q.failed, done := p.done || q.done)
  {
    hide React;
    assert [frame][1..] == [];
  }

  /** Delivering the flushed frame from a clean slate is delivering it in the run. */
  lemma DeliverFlush(
    decode: string -> Option<StreamEvent>, accepts: nat -> bool, p: Progress, q: Progress, f: Framing
  )
    requires p == DeliverAll(decode, accepts, OPENING, f.frames)
    requires p.done ==> f.data == []
    requires q == DeliverAll(decode, accepts, p.(failed := false, done := false), FlushedFrames(f))
    ensures DeliverAll(decode, accepts, OPENING, f.frames + FlushedFrames(f)) ==
      q.(failed := p.failed || q.failed, done := p.done || q.done)
  {
    hide Deliver;
    DeliverAppend(decode, accepts, OPENING, f.frames, FlushedFrames(f));
    if f.data != [] {
      DeliverOne(decode, accepts, p, FlushedFrames(f)[0]);
      DeliverOne(decode, accepts, p.(failed := false, done := false), FlushedFrames(f)[0]);
    }
  }

  lemma {:induction false} FramedGrows(f: Framing, lines: seq<string>)
    ensures f.frames <= Framed(f, lines).frames
    decreases |lines|
  {
    if lines != [] {
      FlushFrames(f, lines[0]);
      FramedGrows(OnLine(f, lines[0]), lines[1..]);
    }
  }

  /** What comes after the end of a stream is not delivered. */
  lemma DoneStays(
    decode: string -> Option<StreamEvent>, accepts: nat -> bool, a: seq<Frame>, b: seq<Frame>
  )
    requires a <= b && DeliverAll(decode, accepts, OPENING, a).done
    ensures DeliverAll(decode, accepts, OPENING, b) == DeliverAll(decode, accepts, OPENING, a)
  {
    assert b == a + b[|a|..];
    DeliverAppend(decode, accepts, OPENING, a, b[|a|..]);
  }

  lemma ReadOne(f: Framing, unread: string)
    ensures
      var (line, rest) := ReadLine(unread);
      && (EndsLine(line) ==> |rest| < |unread|)
      && (EndsLine(line) ==> Framed(f, Lines(unread)) == Framed(OnLine(f, line), Lines(rest)))
      && (EndsLine(line) ==> Framed(f, CompleteLines(unread)) == Framed(OnLine(f, line), CompleteLines(rest)))
      && (!EndsLine(line) ==> Framed(f, Lines(unread)) == if line == "" then f else OnLine(f, line))
      && (!EndsLine(line) ==> Framed(f, CompleteLines(unread)) == f)
  {
    hide OnLine;
    var (line, rest) := ReadLine(unread);
    if unread != "" {
      assert ([line] + Lines(rest))[1..] == Lines(rest);
      assert ([line] + CompleteLines(rest))[1..] == CompleteLines(rest);
    }
  }

  class AnthropicStream {
    const decode: string -> Option<StreamEvent>
    /** Whether the client's connection takes the n-th write. */
    const accepts: nat -> bool

    var responseID: string
    var model: string
    var promptTokens: int
    var completionTokens: int
    var assistantText: string
    var toolCalls: map<int, ToolState>
    var sentRole: bool
    /** The chunks written, or tried, so far. */
    var attempts: seq<Chunk>
    /** Whether the closing mark of the stream was written. */
    var closed: bool

    constructor (decode: string -> Option<StreamEvent>, accepts: nat -> bool)
      ensures this.decode == decode && this.accepts == accepts
      ensures State() == FRESH && attempts == [] && !closed
    {
      this.decode, this.accepts := decode, accepts;
      responseID, model, promptTokens, completionTokens := "", "", 0, 0;
      assistantText, toolCalls, sentRole := "", map[], false;
      attempts, closed := [], false;
    }

    function State(): StreamState
      reads this
    {
      StreamState(responseID, model, promptTokens, completionTokens, assistantText, toolCalls, sentRole)
    }

    /** `emitOpenAIStreamPayload`: the chunk is tried whether or not the write succeeds. */
    method Emit(chunk: Chunk) returns (ok: bool)
      modifies this`attempts
      ensures attempts == old(attempts) + [chunk] && ok == accepts(|old(attempts)|)
    {
      ok := accepts(|attempts|);
      attempts := attempts + [chunk];
    }

    /** `conditionalAssistantRole`: the role is spoken once. */
    method ConditionalAssistantRole() returns (role: string)
      modifies this`sentRole
      ensures role == RoleToSend(old(State())) && State() == old(State()).(sentRole := true)
    {
      if sentRole {
        return "";
      }
      sentRole := true;
      return "assistant";
    }

    method NewChunk() returns (chunk: Chunk)
      ensures chunk == Stamp(State())
    {
      chunk := Chunk(DefaultIfBlank(responseID, FALLBACK_RESPONSE_ID), model, "", "", [], "", None);
    }

    method ProcessStart(index: int, block: ContentBlock) returns (ok: bool)
      modifies this`toolCalls, this`sentRole, this`attempts
      ensures
        var r := ReactStart(old(State()), index, block);
        && State() == r.st
        && attempts == old(attempts) + (if r.chunk.Some? then [r.chunk.value] else [])
        && ok == (r.chunk.Some? ==> accepts(|old(attempts)|))
    {
      ok := true;
      if block.kind == "text" {
        var chunk := NewChunk();
        var role := ConditionalAssistantRole();
        ok := Emit(chunk.(role := role));
      } else if block.kind == "tool_use" {
        var tool := ToolState(DefaultIfBlank(block.id, "call_" + Decimal(index)), Trim(block.name), "");
        toolCalls := toolCalls[index := tool];
        var chunk := NewChunk();
        var role := ConditionalAssistantRole();
        var call := ToolCall(tool.id, "function", Some(FunctionCall(tool.name, "")), Some(index));
        ok := Emit(chunk.(role := role, toolCalls := [call]));
      }
    }

    method ProcessDelta(index: int, delta: EventDelta) returns (ok: bool)
      modifies this`toolCalls, this`assistantText, this`attempts
      ensures
        var r := ReactDelta(old(State()), index, delta);
        && State() == r.st
        && attempts == old(attempts) + (if r.chunk.Some? then [r.chunk.value] else [])
        && ok == (r.chunk.Some? ==> accepts(|old(attempts)|))
    {
      ok := true;
      match delta.kind {
        case "text_delta" =>
          if delta.text == "" {
            return;
          }
          assistantText := assistantText + delta.text;
          var chunk := NewChunk();
          ok := Emit(chunk.(content := delta.text));
        case "input_json_delta" =>
          if index !in toolCalls {
            return;
          }
          var tool := toolCalls[index];
          toolCalls := toolCalls[index := tool.(arguments := tool.arguments + delta.partialJSON)];
          var chunk := NewChunk();
          var call := ToolCall(tool.id, "function", Some(FunctionCall("", delta.partialJSON)), Some(index));
          ok := Emit(chunk.(toolCalls := [call]));
        case _ =>
      }
    }

    method ProcessClosing(ev: StreamEvent) returns (ok: bool)
      modifies this`completionTokens, this`attempts
      ensures
        var r := ReactClosing(old(State()), ev);
        && State() == r.st
        && attempts == old(attempts) + (if r.chunk.Some? then [r.chunk.value] else [])
        && ok == (r.chunk.Some? ==> accepts(|old(attempts)|))
    {
      ok := true;
      if ev.outputTokens.Some? {
        completionTokens := ev.outputTokens.value;
      }
      if ev.delta.Some? {
        var finishReason := NormalizeStopReason(ev.delta.value.stopReason);
        if finishReason != "" {
          var chunk := NewChunk();
          ok := Emit(chunk.(finishReason := finishReason));
        }
      }
    }

    /** `processAnthropicStreamEvent`: whether the stream is finished, and whether it went without error. */
    method ProcessEvent(payload: string, eventType: string) returns (finished: bool, ok: bool)
      modifies this`responseID, this`model, this`promptTokens, this`completionTokens,
               this`assistantText, this`toolCalls, this`sentRole, this`attempts
      ensures
        var was := Progress(old(State()), old(attempts), false, false);
        Progress(State(), attempts, !ok, finished) == Deliver(decode, accepts, was, Frame(eventType, payload))
    {
      hide ReactStart, ReactDelta, ReactClosing, Blank;
      finished, ok := false, true;
      assert attempts + [] == attempts;
      if Blank(payload) {
        return;
      }
      var decoded := decode(payload);
      if decoded.None? {
        return;
      }
      var ev := decoded.value;
      var kind := if Blank(eventType) then ev.kind else eventType;
      match kind {
        case "message_start" =>
          if ev.message.Some? {
            responseID := ev.message.value.id;
            model := ev.message.value.model;
            promptTokens := ev.message.value.inputTokens;
          }
        case "content_block_start" =>
          if ev.contentBlock.None? || ev.index.None? {
            return;
          }
          ok := ProcessStart(ev.index.value, ev.contentBlock.value);
        case "content_block_delta" =>
          if ev.index.None? || ev.delta.None? {
            return;
          }
          ok := ProcessDelta(ev.index.value, ev.delta.value);
        case "message_delta" =>
          ok := ProcessClosing(ev);
        case "message_stop" =>
          return true, true;
        case "error" =>
          if ev.errorMessage.Some? && !Blank(ev.errorMessage.value) {
            return false, false;
          }
        case _ =>
      }
    }

    method FlushEvent(eventType: string, dataLines: seq<string>) returns (finished: bool, ok: bool)
      modifies this`responseID, this`model, this`promptTokens, this`completionTokens,
               this`assistantText, this`toolCalls, this`sentRole, this`attempts
      ensures
        var was := Progress(old(State()), old(attempts), false, false);
        Progress(State(), attempts, !ok, finished)
          == DeliverAll(decode, accepts, was, FlushedFrames(Framing([], eventType, dataLines)))
    {
      hide Deliver;
      if |dataLines| == 0 {
        return false, true;
      }
      var payload := Join(dataLines, "\n");
      ghost var was := Progress(State(), attempts, false, false);
      DeliverOne(decode, accepts, was, Frame(eventType, payload));
      finished, ok := ProcessEvent(payload, eventType);
    }

    /** The framing loop of `streamAnthropic`: reads the body line by line and delivers each frame. */
    method ReadBody(body: string, broken: bool) returns (failed: bool)
      requires State() == FRESH && attempts == []
      modifies this`responseID, this`model, this`promptTokens, this`completionTokens,
               this`assistantText, this`toolCalls, this`sentRole, this`attempts
      ensures
        var p := DeliverAll(decode, accepts, OPENING, FramesRead(body, broken));
        var cut := broken && !DeliverAll(decode, accepts, OPENING, Framed(START, CompleteLines(body)).frames).done;
        && State() == p.st && attempts == p.attempts && failed == (p.failed || cut)
    {
      hide Deliver, Trim, Join, HasPrefix, TrimPrefix, Chomp, ReadLine;
      failed := false;
      var eventType, dataLines: seq<string> := "", [];
      var done := false;
      var unread, atEnd := body, false;
      ghost var f, p := START, OPENING;
      ghost var complete := Framed(START, CompleteLines(body)).frames;
      while !done && !atEnd
        invariant f.eventType == eventType && f.data == dataLines && (done ==> dataLines == [])
        invariant p == DeliverAll(decode, accepts, OPENING, f.frames)
        invariant p.st == State() && p.attempts == attempts && p.done == done
        invariant failed == (p.failed || (atEnd && broken))
        invariant !atEnd ==> Framed(f, Lines(unread)) == Framed(START, Lines(body))
        invariant !atEnd ==> Framed(f, CompleteLines(unread)) == Framed(START, CompleteLines(body))
        invariant atEnd ==> f.frames == FramesRead(body, broken)
        invariant atEnd ==> !DeliverAll(decode, accepts, OPENING, complete).done
        decreases !atEnd, |unread|
      {
        hide DeliverAll, Lines, CompleteLines, Framed;
        var line := ReadLine(unread).0;
        ReadOne(f, unread);
        unread := ReadLine(unread).1;
        atEnd := !EndsLine(line);
        if line != "" {
          FlushFrames(f, line);
          var text := Chomp(line);
          if text == "" {
            var finished, ok := FlushEvent(eventType, dataLines);
            DeliverFlush(decode, accepts, p, Progress(State(), attempts, !ok, finished), f);
            done, failed := done || finished, failed || !ok;
            eventType, dataLines := "", [];
          } else if HasPrefix(text, "event:") {
            eventType := Trim(TrimPrefix(text, "event:"));
          } else if HasPrefix(text, "data:") {
            dataLines := dataLines + [Trim(TrimPrefix(text, "data:"))];
          }
          f := OnLine(f, line);
          p := DeliverAll(decode, accepts, OPENING, f.frames);
        }
        if atEnd {
          if broken {
            failed := true;
          } else {
            FlushFrames(f, line);
            var finished, ok := FlushEvent(eventType, dataLines);
            DeliverFlush(decode, accepts, p, Progress(State(), attempts, !ok, finished), f);
            done, failed := done || finished, failed || !ok;
            eventType, dataLines := "", [];
            f := Flush(f);
            p := DeliverAll(decode, accepts, OPENING, f.frames);
          }
        }
      }
      if !atEnd {
        FramedGrows(f, Lines(unread));
        FramedGrows(f, CompleteLines(unread));
        DoneStays(decode, accepts, f.frames, complete);
        FlushFrames(Framed(START, Lines(body)), "");
        DoneStays(decode, accepts, f.frames, FramesRead(body, broken));
      }
    }

    /**
     `streamAnthropic` once the response is open: reads the body and, unless that failed, closes
     the stream with the token counts. `broken` says the body ends in a read error.
     */
    method StreamBody(body: string, broken: bool) returns (failed: bool)
      requires State() == FRESH && attempts == [] && !closed
      modifies this
      ensures
        var p := DeliverAll(decode, accepts, OPENING, FramesRead(body, broken));
        var cut := broken && !DeliverAll(decode, accepts, OPENING, Framed(START, CompleteLines(body)).frames).done;
        && State() == p.st
        && failed == (p.failed || cut)
        && attempts == p.attempts + (if failed then [] else [FinalChunk(p.st)])
        && closed == (!failed && accepts(|p.attempts|) && accepts(|p.attempts| + 1))
    {
      hide DeliverAll, FramesRead, CompleteLines, Framed;
      failed := ReadBody(body, broken);
      if !failed {
        var chunk := NewChunk();
        var usage := Usage(promptTokens, completionTokens, promptTokens + completionTokens);
        var ok := Emit(chunk.(usage := Some(usage)));
        if ok {
          closed := accepts(|attempts|);
        }
      }
    }
  }
}
