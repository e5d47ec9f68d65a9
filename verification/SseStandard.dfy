/**
 The event stream parser of section 9.2.6 of the WHATWG HTML Living Standard, against the framing
 loop of the gateway.
 */
module SseStandard {
  import opened Text
  import opened SseFraming

  const BYTE_ORDER_MARK := '\U{FEFF}'

  /** A line without its end, which is CR LF, LF or CR, and the text after it. */
  function CutLine(s: string): (r: (string, string))
    ensures s != "" ==> |r.1| < |s|
  {
    if s == "" then ("", "")
    else if s[0] == '\n' then ("", s[1..])
    else if s[0] == '\r' then ("", if |s| > 1 && s[1] == '\n' then s[2..] else s[1..])
    else var (line, rest) := CutLine(s[1..]); (s[..1] + line, rest)
  }

  function StandardLines(s: string): seq<string>
    decreases |s|
  {
    if s == "" then [] else [CutLine(s).0] + StandardLines(CutLine(s).1)
  }

  function FieldName(line: string): string {
    if line == "" || line[0] == ':' then "" else line[..1] + FieldName(line[1..])
  }

  predicate HasColon(line: string) {
    |FieldName(line)| < |line|
  }

  /** What follows the colon, without one leading space. */
  function FieldValue(line: string): string {
    if !HasColon(line) then "" else StripSpace(AfterColon(line))
  }

  function AfterColon(line: string): string
    requires HasColon(line)
  {
    line[|FieldName(line)| + 1..]
  }

  function StripSpace(value: string): string {
    if value != "" && value[0] == ' ' then value[1..] else value
  }

  /** The event is dispatched if it has data, its lines joined by newlines; either way its type is forgotten. */
  function Dispatched(f: Framing): Framing {
    if f.data == [] then Framing(f.frames, "", [])
    else Framing(f.frames + [Frame(f.eventType, Join(f.data, "\n"))], "", [])
  }

  /** One line: a blank line dispatches the event, a line of field `event` or `data` adds to it. */
  function OnStandardLine(f: Framing, line: string): Framing {
    if line == "" then Dispatched(f)
    else if FieldName(line) == "event" then f.(eventType := FieldValue(line))
    else if FieldName(line) == "data" then f.(data := f.data + [FieldValue(line)])
    else f
  }

  function Parsed(f: Framing, lines: seq<string>): Framing
    decreases |lines|
  {
    if lines == [] then f else Parsed(OnStandardLine(f, lines[0]), lines[1..])
  }

  function WithoutMark(body: string): string {
    if body != "" && body[0] == BYTE_ORDER_MARK then body[1..] else body
  }

  /** The events of a body; one that is open when the body ends is discarded. */
  function Events(body: string): seq<Frame> {
    Parsed(START, StandardLines(WithoutMark(body))).frames
  }

  /** What the loop makes of a line whose end is cut off. */
  function OnText(f: Framing, text: string): Framing {
    if text == "" then Flush(f)
    else if HasPrefix(text, "event:") then f.(eventType := Trim(TrimPrefix(text, "event:")))
    else if HasPrefix(text, "data:") then f.(data := f.data + [Trim(TrimPrefix(text, "data:"))])
    else f
  }

  /** A line of field `event` or `data` has a colon, and a value that is trimmed but for one leading space. */
  predicate Plain(line: string) {
    FieldName(line) == "event" || FieldName(line) == "data" ==> HasColon(line) && Trimmed(FieldValue(line))
  }

  lemma {:induction false} NamePrefix(line: string, name: string)
    requires ':' !in name
    ensures HasPrefix(line, name + ":") <==> HasColon(line) && FieldName(line) == name
    decreases line
  {
    if line != "" && line[0] != ':' {
      if name == "" {
        assert line[..1][0] == line[0];
      } else {
        var rest := name[1..];
        assert forall c :: c in rest ==> c in name;
        NamePrefix(line[1..], rest);
        PrefixCons(line, name + ":");
        assert (name + ":")[1..] == rest + ":";
        NameCons(line, name);
      }
    } else if line != "" {
      assert HasPrefix(line, name + ":") ==> line[..|name| + 1][0] == (name + ":")[0];
      assert name != "" ==> name[0] in name;
      assert name == "" ==> line[..1] == ":" && name + ":" == ":";
    }
  }

  lemma PrefixCons(s: string, p: string)
    requires s != "" && p != ""
    ensures HasPrefix(s, p) <==> s[0] == p[0] && HasPrefix(s[1..], p[1..])
  {
    if |p| <= |s| {
      assert s[..|p|] == [s[0]] + s[1..][..|p| - 1];
      assert p == [p[0]] + p[1..];
    }
  }

  lemma NameCons(line: string, name: string)
    requires line != "" && line[0] != ':' && name != ""
    ensures FieldName(line) == name <==> line[0] == name[0] && FieldName(line[1..]) == name[1..]
    ensures HasColon(line) <==> HasColon(line[1..])
  {
    assert FieldName(line)[1..] == FieldName(line[1..]) && FieldName(line)[0] == line[0];
    assert name == [name[0]] + name[1..];
  }

  lemma TrimStripped(value: string)
    ensures Trim(value) == Trim(StripSpace(value))
    ensures Trim(value) == StripSpace(value) <==> Trimmed(StripSpace(value))
  {
    var rest := StripSpace(value);
    if rest != value {
      var a, b := TrimSplit(rest);
      TrimUnique(" " + a, Trim(rest), b);
      assert " " + a + Trim(rest) + b == " " + rest == value;
    }
    TrimFixed(rest);
  }

  /** What the loop makes of a line, in the standard's terms. */
  lemma TextByField(f: Framing, line: string)
    ensures OnText(f, line) ==
      if line == "" then Flush(f)
      else if HasColon(line) && FieldName(line) == "event" then f.(eventType := Trim(FieldValue(line)))
      else if HasColon(line) && FieldName(line) == "data" then f.(data := f.data + [Trim(FieldValue(line))])
      else f
  {
    NamePrefix(line, "event");
    NamePrefix(line, "data");
    assert "event" + ":" == "event:" && "data" + ":" == "data:";
    if HasColon(line) {
      TrimStripped(AfterColon(line));
    }
  }

  /** The loop takes a line as the standard does, whatever came before it, exactly when the line is plain. */
  lemma PlainExactly(line: string)
    ensures Plain(line) <==> forall f :: OnText(f, line) == OnStandardLine(f, line)
  {
    assert line == "" ==> FieldName(line) == "";
    hide Trim, Trimmed, FieldName, HasPrefix, Flush;
    TrimFixed(FieldValue(line));
    forall f ensures Plain(line) ==> OnText(f, line) == OnStandardLine(f, line) {
      TextByField(f, line);
    }
    if !Plain(line) {
      var f := START.(eventType := FieldValue(line) + "x");
      TextByField(f, line);
      hide OnText;
      var value, trimmed := FieldValue(line), Trim(FieldValue(line));
      assert f.data + [value] == [value] && [value][0] == value;
      assert f.data + [trimmed] == [trimmed] && [trimmed][0] == trimmed;
      assert OnText(f, line) != OnStandardLine(f, line);
    }
  }

  /** Every carriage return is followed by a newline. */
  predicate Paired(s: string) {
    forall i :: 0 <= i < |s| && s[i] == '\r' ==> i + 1 < |s| && s[i + 1] == '\n'
  }

  lemma PairedRest(s: string)
    requires Paired(s) && s != ""
    ensures Paired(s[1..]) && (s[0] == '\r' ==> |s| > 1 && s[1] == '\n' && Paired(s[2..]))
  {
    forall i | 0 <= i < |s[1..]| && s[1..][i] == '\r' ensures i + 1 < |s[1..]| && s[1..][i + 1] == '\n' {
      assert s[i + 1] == '\r';
    }
    if s[0] == '\r' {
      forall i | 0 <= i < |s[2..]| && s[2..][i] == '\r' ensures i + 1 < |s[2..]| && s[2..][i + 1] == '\n' {
        assert s[i + 2] == '\r';
      }
    }
  }

  /** The loop and the standard cut the same line off, and the loop keeps its end. */
  lemma {:induction false} SameLine(s: string)
    requires Paired(s)
    ensures ReadLine(s).1 == CutLine(s).1 && Paired(CutLine(s).1)
    ensures
      var line := CutLine(s).0;
      ReadLine(s).0 == line || ReadLine(s).0 == line + "\n" || ReadLine(s).0 == line + "\r\n"
    ensures forall c :: c in CutLine(s).0 ==> c != '\n' && c != '\r'
    decreases s
  {
    if s != "" {
      PairedRest(s);
      if s[0] == '\n' {
        assert s[..1] == "\n" == "" + "\n";
      } else if s[0] == '\r' {
        assert s[1..][0] == '\n' && s[1..][1..] == s[2..] && s[1..][..1] == "\n";
        assert s[..1] + "\n" == "\r\n" == "" + "\r\n";
      } else {
        SameLine(s[1..]);
        var line := CutLine(s[1..]).0;
        assert s[..1] + (line + "\n") == s[..1] + line + "\n";
        assert s[..1] + (line + "\r\n") == s[..1] + line + "\r\n";
      }
    }
  }

  lemma ChompLine(text: string)
    requires forall c :: c in text ==> c != '\n' && c != '\r'
    ensures Chomp(text) == text && Chomp(text + "\n") == text && Chomp(text + "\r\n") == text
  {
    assert text != "" ==> text[|text| - 1] in text;
    assert (text + "\n")[..|text|] == text;
    assert (text + "\r\n")[..|text| + 1] == text + "\r" && (text + "\r")[..|text|] == text;
  }

  lemma {:induction false} SameFraming(f: Framing, s: string)
    requires Paired(s) && forall line :: line in StandardLines(s) ==> Plain(line)
    ensures Framed(f, Lines(s)) == Parsed(f, StandardLines(s))
    decreases |s|
  {
    if s != "" {
      hide Plain, OnText, OnStandardLine, Chomp, Paired;
      var line, rest := CutLine(s).0, CutLine(s).1;
      SameLine(s);
      ChompLine(line);
      assert OnLine(f, ReadLine(s).0) == OnText(f, line) by { LineIsText(f, ReadLine(s).0); }
      assert line in StandardLines(s);
      PlainExactly(line);
      assert StandardLines(s)[1..] == StandardLines(rest) && Lines(s)[1..] == Lines(rest);
      hide OnLine;
      SameFraming(OnStandardLine(f, line), rest);
    }
  }

  lemma LineIsText(f: Framing, line: string)
    ensures OnLine(f, line) == OnText(f, Chomp(line))
  {
  }

  /**
   On a body of plain lines that end in LF or CR LF, without a byte order mark, the loop delivers the
   standard's events exactly when the body closes its last event: at the end the standard discards
   what is open, and the loop delivers it.
   */
  lemma FramesAreEvents(body: string)
    requires Paired(body) && (body == "" || body[0] != BYTE_ORDER_MARK)
    requires forall line :: line in StandardLines(body) ==> Plain(line)
    ensures Frames(body) == Events(body) <==> Parsed(START, StandardLines(body)).data == []
  {
    SameFraming(START, body);
    hide Parsed, Framed, Lines, StandardLines;
    var open := Parsed(START, StandardLines(body));
    assert |Flush(open).frames| == |open.frames| + if open.data == [] then 0 else 1;
  }
}
