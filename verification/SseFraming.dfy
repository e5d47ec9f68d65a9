/**
 Server-sent-events framing (section 9.2.6 of the WHATWG HTML Living Standard),
 as the streaming gateway reads it: `event:` and `data:` lines, closed by a blank line.
 */
module SseFraming {
  import opened Text

  datatype Frame = Frame(eventType: string, payload: string)

  /** What the framing loop holds between lines: the frames it has closed, and the open one. */
  datatype Framing = Framing(frames: seq<Frame>, eventType: string, data: seq<string>)

  const START := Framing([], "", [])

  /** `ReadString('\n')`: a line with its newline, if there is one, and the text after it. */
  function ReadLine(s: string): (r: (string, string))
    ensures |r.0| + |r.1| == |s| && r.0 + r.1 == s
    ensures s != "" ==> r.0 != ""
    ensures !EndsLine(r.0) ==> r.1 == ""
  {
    if s == "" then ("", "")
    else if s[0] == '\n' then (s[..1], s[1..])
    else var (line, rest) := ReadLine(s[1..]); (s[..1] + line, rest)
  }

  predicate EndsLine(line: string) {
    line != "" && line[|line| - 1] == '\n'
  }

  function Lines(s: string): seq<string>
    decreases |s|
  {
    if s == "" then [] else [ReadLine(s).0] + Lines(ReadLine(s).1)
  }

  /** `strings.TrimRight(line, "\r\n")`. */
  function Chomp(line: string): string {
    if line != "" && (line[|line| - 1] == '\r' || line[|line| - 1] == '\n') then Chomp(line[..|line| - 1])
    else line
  }

  function Flush(f: Framing): Framing {
    if f.data == [] then f.(eventType := "")
    else Framing(f.frames + [Frame(f.eventType, Join(f.data, "\n"))], "", [])
  }

  function OnLine(f: Framing, line: string): Framing {
    var text := Chomp(line);
    if text == "" then Flush(f)
    else if HasPrefix(text, "event:") then f.(eventType := Trim(TrimPrefix(text, "event:")))
    else if HasPrefix(text, "data:") then f.(data := f.data + [Trim(TrimPrefix(text, "data:"))])
    else f
  }

  function Framed(f: Framing, lines: seq<string>): Framing
    decreases |lines|
  {
    if lines == [] then f else Framed(OnLine(f, lines[0]), lines[1..])
  }

  /** The frames of a body that is read to its end. */
  function Frames(body: string): seq<Frame> {
    Flush(Framed(START, Lines(body))).frames
  }

  // Printing

  /** An event to send: its type and the lines of its payload. */
  datatype Message = Message(eventType: string, lines: seq<string>)

  predicate OneLine(s: string) {
    '\n' !in s
  }

  /** An event a server can send: there is a payload, and no text breaks its line. */
  predicate Sendable(m: Message) {
    OneLine(m.eventType) && m.lines != [] && forall i :: 0 <= i < |m.lines| ==> OneLine(m.lines[i])
  }

  function PrintData(lines: seq<string>): string {
    if lines == [] then "" else ("data: " + lines[0] + "\n") + PrintData(lines[1..])
  }

  function PrintMessage(m: Message): string {
    ("event: " + m.eventType + "\n") + PrintData(m.lines) + "\n"
  }

  function Print(messages: seq<Message>): string {
    if messages == [] then "" else PrintMessage(messages[0]) + Print(messages[1..])
  }

  function TrimLines(lines: seq<string>): seq<string> {
    seq(|lines|, i requires 0 <= i < |lines| => Trim(lines[i]))
  }

  /** What arrives of a message: its type and payload lines, trimmed. */
  function Received(m: Message): Frame {
    Frame(Trim(m.eventType), Join(TrimLines(m.lines), "\n"))
  }

  function ReceivedAll(messages: seq<Message>): seq<Frame> {
    if messages == [] then [] else [Received(messages[0])] + ReceivedAll(messages[1..])
  }

  lemma {:induction false} ReadLinePrinted(text: string, rest: string)
    requires OneLine(text)
    ensures ReadLine(text + "\n" + rest) == (text + "\n", rest)
  {
    var s := text + "\n" + rest;
    if text == "" {
      assert s[..1] == "\n" && s[1..] == rest;
    } else {
      assert text[0] in text;
      assert forall c :: c in text[1..] ==> c in text;
      ReadLinePrinted(text[1..], rest);
      assert s[1..] == text[1..] + "\n" + rest;
      assert s[..1] + (text[1..] + "\n") == text + "\n";
    }
  }

  lemma LinesPrinted(text: string, rest: string)
    requires OneLine(text)
    ensures Lines(text + "\n" + rest) == [text + "\n"] + Lines(rest)
  {
    ReadLinePrinted(text, rest);
  }

  /** A field's value survives the line ending and is trimmed. */
  lemma ChompField(name: string, value: string)
    requires name != "" && name[|name| - 1] == ':'
    ensures HasPrefix(Chomp(name + " " + value + "\n"), name)
    ensures Trim(Chomp(name + " " + value + "\n")[|name|..]) == Trim(value)
  {
    var head := name + " " + value;
    assert (head + "\n")[..|head + "\n"| - 1] == head;
    ChompHead(name + " ", value);
    var kept := ChompValue(value);
    var text := name + " " + kept;
    assert text[..|name|] == name && text[|name|..] == " " + kept;
    ChompTrim(value);
    var a, b := TrimSplit(kept);
    TrimUnique(" " + a, Trim(kept), b);
    assert " " + a + Trim(kept) + b == " " + kept;
  }

  /** The part of a value that `Chomp` leaves. */
  function ChompValue(value: string): string {
    if value != "" && (value[|value| - 1] == '\r' || value[|value| - 1] == '\n') then ChompValue(value[..|value| - 1])
    else value
  }

  lemma {:induction false} ChompHead(head: string, value: string)
    requires head != "" && head[|head| - 1] == ' '
    ensures Chomp(head + value) == head + ChompValue(value)
  {
    if value == "" {
      assert head + value == head;
    } else {
      assert (head + value)[..|head + value| - 1] == head + value[..|value| - 1];
      if value[|value| - 1] == '\r' || value[|value| - 1] == '\n' {
        ChompHead(head, value[..|value| - 1]);
      }
    }
  }

  lemma {:induction false} ChompTrim(value: string)
    ensures Trim(ChompValue(value)) == Trim(value)
  {
    if value != "" && (value[|value| - 1] == '\r' || value[|value| - 1] == '\n') {
      var head := value[..|value| - 1];
      ChompTrim(head);
      var a, b := TrimSplit(head);
      TrimUnique(a, Trim(head), b + [value[|value| - 1]]);
      assert a + Trim(head) + (b + [value[|value| - 1]]) == value;
    }
  }

  lemma OnEventLine(f: Framing, value: string)
    ensures OnLine(f, "event: " + value + "\n") == f.(eventType := Trim(value))
  {
    ChompField("event:", value);
    assert "event:" + " " + value + "\n" == "event: " + value + "\n";
  }

  lemma OtherPrefix(s: string, prefix: string)
    requires s != "" && prefix != "" && s[0] != prefix[0]
    ensures !HasPrefix(s, prefix)
  {
    assert |prefix| <= |s| ==> s[..|prefix|][0] == s[0];
  }

  lemma OnDataLine(f: Framing, value: string)
    ensures OnLine(f, "data: " + value + "\n") == f.(data := f.data + [Trim(value)])
  {
    ChompField("data:", value);
    var line := "data: " + value + "\n";
    assert "data:" + " " + value + "\n" == line;
    var text := Chomp(line);
    assert text[..5] == "data:";
    assert text[0] == 'd';
    OtherPrefix(text, "event:");
  }

  lemma FramedCons(f: Framing, line: string, lines: seq<string>)
    ensures Framed(f, [line] + lines) == Framed(OnLine(f, line), lines)
  {
    assert ([line] + lines)[1..] == lines;
  }

  lemma {:induction false} FramedData(f: Framing, lines: seq<string>, rest: string)
    requires forall i :: 0 <= i < |lines| ==> OneLine(lines[i])
    ensures Framed(f, Lines(PrintData(lines) + rest)) ==
      Framed(f.(data := f.data + TrimLines(lines)), Lines(rest))
    decreases lines
  {
    hide Lines, OnLine, Framed;
    if lines == [] {
      assert PrintData(lines) + rest == rest && f.data + [] == f.data;
    } else {
      var tail := PrintData(lines[1..]) + rest;
      assert PrintData(lines) + rest == "data: " + lines[0] + "\n" + tail;
      LinesPrinted("data: " + lines[0], tail);
      OnDataLine(f, lines[0]);
      var g := f.(data := f.data + [Trim(lines[0])]);
      FramedCons(f, "data: " + lines[0] + "\n", Lines(tail));
      FramedData(g, lines[1..], rest);
      assert f.data + [Trim(lines[0])] + TrimLines(lines[1..]) == f.data + TrimLines(lines);
    }
  }

  lemma FramedMessage(frames: seq<Frame>, m: Message, rest: string)
    requires Sendable(m)
    ensures Framed(Framing(frames, "", []), Lines(PrintMessage(m) + rest)) ==
      Framed(Framing(frames + [Received(m)], "", []), Lines(rest))
  {
    hide Lines, Framed;
    var f := Framing(frames, "", []);
    var tail := PrintData(m.lines) + ("" + "\n" + rest);
    assert PrintMessage(m) + rest == "event: " + m.eventType + "\n" + tail;
    LinesPrinted("event: " + m.eventType, tail);
    OnEventLine(f, m.eventType);
    FramedCons(f, "event: " + m.eventType + "\n", Lines(tail));
    var g := f.(eventType := Trim(m.eventType));
    FramedData(g, m.lines, "" + "\n" + rest);
    LinesPrinted("", rest);
    var h := g.(data := g.data + TrimLines(m.lines));
    assert Chomp("\n") == "" by { assert "\n"[..0] == ""; }
    assert g.data + TrimLines(m.lines) == TrimLines(m.lines);
    assert "" + "\n" == "\n";
    FramedCons(h, "\n", Lines(rest));
  }

  lemma {:induction false} FramedPrinted(frames: seq<Frame>, messages: seq<Message>)
    requires forall i :: 0 <= i < |messages| ==> Sendable(messages[i])
    ensures Framed(Framing(frames, "", []), Lines(Print(messages))) ==
      Framing(frames + ReceivedAll(messages), "", [])
    decreases messages
  {
    hide PrintMessage, Received;
    if messages == [] {
      assert frames + [] == frames;
    } else {
      hide Framed, Lines;
      FramedMessage(frames, messages[0], Print(messages[1..]));
      FramedPrinted(frames + [Received(messages[0])], messages[1..]);
      assert frames + [Received(messages[0])] + ReceivedAll(messages[1..]) == frames + ReceivedAll(messages);
    }
  }

  /** Printed messages arrive one for one and in order, each trimmed. */
  lemma PrintedFrames(messages: seq<Message>)
    requires forall i :: 0 <= i < |messages| ==> Sendable(messages[i])
    ensures Frames(Print(messages)) == ReceivedAll(messages)
  {
    FramedPrinted([], messages);
    assert [] + ReceivedAll(messages) == ReceivedAll(messages);
  }

  lemma {:induction false} JoinLength(lines: seq<string>)
    ensures |Join(TrimLines(lines), "\n")| <= |Join(lines, "\n")|
    ensures |Join(TrimLines(lines), "\n")| == |Join(lines, "\n")| ==>
      forall i :: 0 <= i < |lines| ==> Trimmed(lines[i])
  {
    if lines != [] {
      TrimFixed(lines[0]);
      if |Trim(lines[0])| == |lines[0]| {
        var a, b := TrimSplit(lines[0]);
        assert a == "" && b == "";
      }
      if |lines| > 1 {
        JoinLength(lines[1..]);
        assert TrimLines(lines)[1..] == TrimLines(lines[1..]);
        assert forall i :: 0 < i < |lines| ==> lines[i] == lines[1..][i - 1];
      }
    }
  }

  /** A message arrives as sent exactly when its type and every payload line are trimmed. */
  lemma ReceivedIntact(m: Message)
    ensures Received(m) == Frame(m.eventType, Join(m.lines, "\n")) <==>
      Trimmed(m.eventType) && forall i :: 0 <= i < |m.lines| ==> Trimmed(m.lines[i])
  {
    TrimFixed(m.eventType);
    JoinLength(m.lines);
    if forall i :: 0 <= i < |m.lines| ==> Trimmed(m.lines[i]) {
      forall i | 0 <= i < |m.lines| ensures Trim(m.lines[i]) == m.lines[i] {
        TrimFixed(m.lines[i]);
      }
      assert TrimLines(m.lines) == m.lines;
    }
  }
}
