/**
 What every stream keeps: the chunks sent so far, read on their own, tell the
 same text, tool arguments and role as the state the gateway holds.
 */
module StreamInvariant {
  import opened Options
  import opened Text
  import opened Wire
  import opened SseFraming
  import opened AnthropicStream

  /** A decoded event under the kind it is handled as. */
  datatype Turn = Turn(kind: string, ev: StreamEvent)

  /** The state after some turns, and the chunk each turn asked for. */
  function Play(turns: seq<Turn>): (r: (StreamState, seq<Option<Chunk>>))
    ensures |r.1| == |turns|
  {
    if turns == [] then (FRESH, [])
    else
      var n := |turns| - 1;
      var (st, outs) := Play(turns[..n]);
      var r := React(st, turns[n].kind, turns[n].ev);
      (r.st, outs + [r.chunk])
  }

  function Chunks(outs: seq<Option<Chunk>>): seq<Chunk> {
    if outs == [] then []
    else
      var n := |outs| - 1;
      Chunks(outs[..n]) + (if outs[n].Some? then [outs[n].value] else [])
  }

  // From frames to turns

  predicate Ends(turn: Turn) {
    turn.kind == "message_stop"
  }

  predicate Fails(turn: Turn) {
    turn.kind == "error" && turn.ev.errorMessage.Some? && !Blank(turn.ev.errorMessage.value)
  }

  predicate AnyFails(turns: seq<Turn>) {
    turns != [] && (Fails(turns[|turns| - 1]) || AnyFails(turns[..|turns| - 1]))
  }

  predicate Readable(decode: string -> Option<StreamEvent>, frame: Frame) {
    !Blank(frame.payload) && decode(frame.payload).Some?
  }

  /** The turns a run of frames comes to: those that decode, up to the end of the stream. */
  function TurnsOf(decode: string -> Option<StreamEvent>, frames: seq<Frame>): seq<Turn>
    decreases |frames|
  {
    if frames == [] then []
    else
      var n := |frames| - 1;
      var turns := TurnsOf(decode, frames[..n]);
      if (turns != [] && Ends(turns[|turns| - 1])) || !Readable(decode, frames[n]) then turns
      else
        var ev := decode(frames[n].payload).value;
        turns + [Turn(Kind(frames[n].eventType, ev), ev)]
  }

  lemma DeliverSnoc(
    decode: string -> Option<StreamEvent>, accepts: nat -> bool, p: Progress, frames: seq<Frame>, frame: Frame
  )
    ensures DeliverAll(decode, accepts, p, frames + [frame]) ==
      var q := DeliverAll(decode, accepts, p, frames);
      if q.done then q else Deliver(decode, accepts, q, frame)
  {
    hide Deliver;
    DeliverAppend(decode, accepts, p, frames, [frame]);
    DeliverOne(decode, accepts, DeliverAll(decode, accepts, p, frames), frame);
  }

  lemma PlaySnoc(turns: seq<Turn>, turn: Turn)
    ensures
      var r := React(Play(turns).0, turn.kind, turn.ev);
      && Play(turns + [turn]) == (r.st, Play(turns).1 + [r.chunk])
      && Chunks(Play(turns + [turn]).1) == Chunks(Play(turns).1) + (if r.chunk.Some? then [r.chunk.value] else [])
  {
    hide React;
    assert (turns + [turn])[..|turns|] == turns;
    var r := React(Play(turns).0, turn.kind, turn.ev);
    assert (Play(turns).1 + [r.chunk])[..|turns|] == Play(turns).1;
  }

  /** What delivering frames comes to, told by their turns. */
  ghost predicate Plays(accepts: nat -> bool, p: Progress, turns: seq<Turn>) {
    && p.st == Play(turns).0
    && p.attempts == Chunks(Play(turns).1)
    && (p.done <==> turns != [] && Ends(turns[|turns| - 1]))
    && ((forall n :: accepts(n)) ==> (p.failed <==> AnyFails(turns)))
  }

  /** Delivering frames is playing their turns; without write errors only an error event fails the stream. */
  lemma {:induction false} DeliverPlays(
    decode: string -> Option<StreamEvent>, accepts: nat -> bool, frames: seq<Frame>
  )
    ensures Plays(accepts, DeliverAll(decode, accepts, OPENING, frames), TurnsOf(decode, frames))
    decreases |frames|
  {
    if frames != [] {
      hide Deliver, DeliverAll, Plays;
      var n := |frames| - 1;
      assert frames == frames[..n] + [frames[n]];
      DeliverPlays(decode, accepts, frames[..n]);
      DeliverSnoc(decode, accepts, OPENING, frames[..n], frames[n]);
      var q := DeliverAll(decode, accepts, OPENING, frames[..n]);
      PlaysStep(decode, accepts, q, frames[n], TurnsOf(decode, frames[..n]));
    }
  }

  lemma PlaysStep(
    decode: string -> Option<StreamEvent>, accepts: nat -> bool, q: Progress, frame: Frame, turns: seq<Turn>
  )
    requires Plays(accepts, q, turns)
    ensures q.done <==> turns != [] && Ends(turns[|turns| - 1])
    ensures !q.done && !Readable(decode, frame) ==> Plays(accepts, Deliver(decode, accepts, q, frame), turns)
    ensures !q.done && Readable(decode, frame) ==>
      var ev := decode(frame.payload).value;
      Plays(accepts, Deliver(decode, accepts, q, frame), turns + [Turn(Kind(frame.eventType, ev), ev)])
  {
    if Readable(decode, frame) {
      hide Deliver, Play, Chunks, React;
      var ev := decode(frame.payload).value;
      var turn := Turn(Kind(frame.eventType, ev), ev);
      PlaySnoc(turns, turn);
      DeliverTurn(decode, accepts, q, frame, turn);
      assert (turns + [turn])[..|turns|] == turns;
    } else {
      hide React, Play, Chunks;
    }
  }

  lemma DeliverTurn(
    decode: string -> Option<StreamEvent>, accepts: nat -> bool, q: Progress, frame: Frame, turn: Turn
  )
    requires Readable(decode, frame)
    requires turn == Turn(Kind(frame.eventType, decode(frame.payload).value), decode(frame.payload).value)
    ensures
      var p := Deliver(decode, accepts, q, frame);
      var r := React(q.st, turn.kind, turn.ev);
      && p.st == r.st && p.attempts == q.attempts + (if r.chunk.Some? then [r.chunk.value] else [])
      && (p.done <==> q.done || Ends(turn))
      && ((forall n :: accepts(n)) ==> (p.failed <==> q.failed || Fails(turn)))
  {
    hide ReactStart, ReactDelta, ReactClosing, Blank;
  }

  /** An error event fails the stream but does not end it: the text that follows is still sent. */
  lemma ErrorDoesNotEnd(decode: string -> Option<StreamEvent>, accepts: nat -> bool, bad: Frame, more: Frame)
    requires Readable(decode, bad) && Readable(decode, more)
    requires
      var ev := decode(bad.payload).value;
      Kind(bad.eventType, ev) == "error" && ev.errorMessage.Some? && !Blank(ev.errorMessage.value)
    requires
      var ev := decode(more.payload).value;
      && Kind(more.eventType, ev) == "content_block_delta" && ev.index.Some? && ev.delta.Some?
      && ev.delta.value.kind == "text_delta" && ev.delta.value.text != ""
    ensures
      var p := DeliverAll(decode, accepts, OPENING, [bad, more]);
      && p.failed && !p.done && |p.attempts| == 1
      && p.attempts[0].content == decode(more.payload).value.delta.value.text
  {
    hide Blank, Kind;
    var failed := Deliver(decode, accepts, OPENING, bad);
    assert failed.failed && !failed.done && failed.attempts == [];
    hide DeliverAll;
    assert [bad] + [more] == [bad, more];
    DeliverOne(decode, accepts, OPENING, bad);
    DeliverSnoc(decode, accepts, OPENING, [bad], more);
  }

  // What the chunks tell

  /** The content of the chunks, end to end. */
  function ContentOf(outs: seq<Option<Chunk>>): string {
    if outs == [] then ""
    else ContentOf(outs[..|outs| - 1]) + (match outs[|outs| - 1] case None => "" case Some(c) => c.content)
  }

  /** How many chunks carry a role. */
  function RolesIn(outs: seq<Option<Chunk>>): nat {
    if outs == [] then 0
    else
      RolesIn(outs[..|outs| - 1])
      + (match outs[|outs| - 1] case None => 0 case Some(c) => if c.role == "" then 0 else 1)
  }

  /** The turn opens tool call `i`. */
  predicate StartsTool(turn: Turn, i: int) {
    && turn.kind == "content_block_start" && turn.ev.index == Some(i)
    && turn.ev.contentBlock.Some? && turn.ev.contentBlock.value.kind == "tool_use"
  }

  /** The tool call a chunk carries for index `i`. */
  function CallFor(out: Option<Chunk>, i: int): Option<ToolCall> {
    if out.Some? && |out.value.toolCalls| == 1 && out.value.toolCalls[0].index == Some(i) then
      Some(out.value.toolCalls[0])
    else None
  }

  function Fragment(call: Option<ToolCall>): string {
    if call.Some? && call.value.call.Some? then call.value.call.value.arguments else ""
  }

  /** The argument fragments sent for tool call `i` since it was last opened. */
  function ArgumentsSince(turns: seq<Turn>, outs: seq<Option<Chunk>>, i: int): string
    requires |turns| == |outs|
  {
    if turns == [] then ""
    else
      var n := |turns| - 1;
      if StartsTool(turns[n], i) then ""
      else ArgumentsSince(turns[..n], outs[..n], i) + Fragment(CallFor(outs[n], i))
  }

  /** The id and name under which tool call `i` was last announced. */
  function Announced(turns: seq<Turn>, outs: seq<Option<Chunk>>, i: int): Option<ToolCall>
    requires |turns| == |outs|
  {
    if turns == [] then None
    else
      var n := |turns| - 1;
      if StartsTool(turns[n], i) then CallFor(outs[n], i)
      else Announced(turns[..n], outs[..n], i)
  }

  /** What the state says of tool call `i` is what the chunks say. */
  ghost predicate ToolAgrees(turns: seq<Turn>, i: int) {
    var (st, outs) := Play(turns);
    var a := Announced(turns, outs, i);
    && (i in st.toolCalls <==> a.Some?)
    && (i in st.toolCalls ==>
          && a.value.id == st.toolCalls[i].id
          && a.value.call == Some(FunctionCall(st.toolCalls[i].name, ""))
          && ArgumentsSince(turns, outs, i) == st.toolCalls[i].arguments)
    && (i !in st.toolCalls ==> ArgumentsSince(turns, outs, i) == "")
  }

  /** After any events: the text sent is the assistant text, and the role was sent once, or not yet. */
  lemma {:induction false} TextAndRole(turns: seq<Turn>)
    ensures ContentOf(Play(turns).1) == Play(turns).0.assistantText
    ensures RolesIn(Play(turns).1) == if Play(turns).0.sentRole then 1 else 0
    decreases |turns|
  {
    if turns != [] {
      var n := |turns| - 1;
      TextAndRole(turns[..n]);
      TurnText(Play(turns[..n]).0, turns[n]);
      assert Play(turns).1[..n] == Play(turns[..n]).1;
    }
  }

  lemma TurnText(st: StreamState, turn: Turn)
    ensures
      var r := React(st, turn.kind, turn.ev);
      && r.st.assistantText == st.assistantText + (if r.chunk.Some? then r.chunk.value.content else "")
      && (st.sentRole ==> r.st.sentRole)
      && (r.chunk.Some? && r.chunk.value.role != "" <==> !st.sentRole && r.st.sentRole)
  {
    hide Blank, Trim, NormalizeStopReason;
  }

  /** After any events and for every index: the announced call and the fragments sent since are the stored tool call. */
  lemma {:induction false} ToolArguments(turns: seq<Turn>, i: int)
    ensures ToolAgrees(turns, i)
    decreases |turns|
  {
    if turns != [] {
      hide React;
      var n := |turns| - 1;
      ToolArguments(turns[..n], i);
      TurnTool(Play(turns[..n]).0, turns[n], i);
      assert Play(turns).1[..n] == Play(turns[..n]).1;
    }
  }

  lemma TurnTool(st: StreamState, turn: Turn, i: int)
    ensures
      var r := React(st, turn.kind, turn.ev);
      var call := if r.chunk.Some? then CallFor(r.chunk, i) else None;
      if StartsTool(turn, i) then
        && i in r.st.toolCalls && call.Some? && call.value.id == r.st.toolCalls[i].id
        && call.value.call == Some(FunctionCall(r.st.toolCalls[i].name, "")) && r.st.toolCalls[i].arguments == ""
      else
        && (i in r.st.toolCalls <==> i in st.toolCalls)
        && (i in st.toolCalls ==>
              r.st.toolCalls[i] == st.toolCalls[i].(arguments := st.toolCalls[i].arguments + Fragment(call)))
        && (call.Some? ==> i in st.toolCalls && call.value.id == st.toolCalls[i].id)
  {
    hide Blank, Trim, NormalizeStopReason;
  }

  lemma {:induction false} PlayPrefix(turns: seq<Turn>, k: nat)
    requires k <= |turns|
    ensures Play(turns[..k]).1 == Play(turns).1[..k]
    decreases |turns|
  {
    if k < |turns| {
      var n := |turns| - 1;
      PlayPrefix(turns[..n], k);
      assert turns[..n][..k] == turns[..k];
    } else {
      assert turns[..k] == turns;
    }
  }

  lemma PlayAt(turns: seq<Turn>, k: nat)
    requires k < |turns|
    ensures Play(turns).1[..k] == Play(turns[..k]).1
    ensures Play(turns).1[k] == React(Play(turns[..k]).0, turns[k].kind, turns[k].ev).chunk
  {
    hide React;
    PlayPrefix(turns, k);
    PlayPrefix(turns, k + 1);
    var upto := turns[..k + 1];
    assert upto[..k] == turns[..k] && upto[k] == turns[k];
    assert Play(turns).1[k] == Play(upto).1[k];
  }

  /**
   Every chunk with tool calls has one, with an index and a function; it announces that call, or
   carries a fragment under the id the call was last announced with, earlier in the stream.
   */
  lemma FragmentsAnnounced(turns: seq<Turn>, k: nat)
    requires k < |turns| && Play(turns).1[k].Some? && Play(turns).1[k].value.toolCalls != []
    ensures
      var calls := Play(turns).1[k].value.toolCalls;
      && |calls| == 1 && calls[0].index.Some? && calls[0].call.Some?
      && var i := calls[0].index.value;
         var a := Announced(turns[..k], Play(turns).1[..k], i);
         StartsTool(turns[k], i) || (a.Some? && a.value.id == calls[0].id)
  {
    hide React, StartsTool, Play;
    PlayAt(turns, k);
    var st := Play(turns[..k]).0;
    OneCall(st, turns[k]);
    var i := Play(turns).1[k].value.toolCalls[0].index.value;
    ToolArguments(turns[..k], i);
    TurnTool(st, turns[k], i);
  }

  lemma OneCall(st: StreamState, turn: Turn)
    requires React(st, turn.kind, turn.ev).chunk.Some? && React(st, turn.kind, turn.ev).chunk.value.toolCalls != []
    ensures
      var calls := React(st, turn.kind, turn.ev).chunk.value.toolCalls;
      |calls| == 1 && calls[0].index.Some? && calls[0].call.Some?
  {
    hide Blank, Trim, NormalizeStopReason;
  }
}
