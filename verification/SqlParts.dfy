/**
 What the splitter takes a migration file to be: code, quoted text, comments and statement ends, written out
 character by character. Every text is such a script, and its statements are read off the parts.
 */
module SqlParts {
  import opened Text
  import opened SqlSplitter

  datatype Part =
    | Code(c: char)
    | Quote(q: char, body: string)
    | LineNote(text: string)
    | BlockNote(text: string)
    | Cut

  /** How a text ends: after a whole part, or inside one. */
  datatype Ending = Complete | OpenQuote(q: char, body: string) | OpenLine(text: string) | OpenBlock(text: string)

  predicate QuoteMark(c: char) {
    c == '\'' || c == '"' || c == '`'
  }

  /**
   Text inside quotes. A backslash takes the next character along, but for NUL, and a quote is doubled; between
   backticks there is neither. Text that is closed does not end in a lone backslash.
   */
  predicate Body(q: char, s: string, closed: bool)
    decreases |s|
  {
    if s == "" then true
    else if q != '`' && s[0] == '\\' then
      if |s| == 1 then !closed else Body(q, if s[1] == '\U{00}' then s[1..] else s[2..], closed)
    else if s[0] == q then q != '`' && |s| > 1 && s[1] == q && Body(q, s[2..], closed)
    else Body(q, s[1..], closed)
  }

  /** Dashes open a comment before white space, before NUL, and at the end of the text. */
  predicate AfterDashes(s: string) {
    s == "" || s[0] == ' ' || s[0] == '\t' || s[0] == '\r' || s[0] == '\n' || s[0] == '\U{00}'
  }

  predicate LineText(s: string) {
    AfterDashes(s) && '\n' !in s
  }

  predicate BlockText(s: string) {
    forall k :: 0 <= k < |s| - 1 ==> !(s[k] == '*' && s[k + 1] == '/')
  }

  predicate Valid(p: Part) {
    match p
    case Code(c) => !QuoteMark(c) && c != ';'
    case Quote(q, body) => QuoteMark(q) && Body(q, body, true)
    case LineNote(text) => LineText(text)
    case BlockNote(text) => BlockText(text)
    case Cut => true
  }

  predicate ValidEnding(e: Ending) {
    match e
    case Complete => true
    case OpenQuote(q, body) => QuoteMark(q) && Body(q, body, false)
    case OpenLine(text) => LineText(text)
    case OpenBlock(text) => BlockText(text)
  }

  function PrintPart(p: Part): string {
    match p
    case Code(c) => [c]
    case Quote(q, body) => [q] + body + [q]
    case LineNote(text) => "--" + text + "\n"
    case BlockNote(text) => "/*" + text + "*/"
    case Cut => ";"
  }

  function PrintEnding(e: Ending): string {
    match e
    case Complete => ""
    case OpenQuote(q, body) => [q] + body
    case OpenLine(text) => "--" + text
    case OpenBlock(text) => "/*" + text
  }

  function Print(parts: seq<Part>, e: Ending): string {
    if parts == [] then PrintEnding(e) else PrintPart(parts[0]) + Print(parts[1..], e)
  }

  /** The part does not open a comment together with what follows it. */
  predicate Apart(p: Part, next: string) {
    && (p == Code('-') ==> !(next != "" && next[0] == '-' && AfterDashes(next[1..])))
    && (p == Code('/') ==> !(next != "" && next[0] == '*'))
  }

  /** A script: valid parts that stay apart, and an ending. */
  predicate Script(parts: seq<Part>, e: Ending) {
    if parts == [] then ValidEnding(e)
    else Valid(parts[0]) && Apart(parts[0], Print(parts[1..], e)) && Script(parts[1..], e)
  }

  function Statement(text: string): seq<string> {
    if Trim(text) == "" then [] else [Trim(text)]
  }

  /** The statements of a script: its code and quoted text, cut at the statement ends, trimmed, without blank ones. */
  function Statements(current: string, parts: seq<Part>, e: Ending): seq<string>
    decreases parts
  {
    if parts == [] then Statement(current + if e.OpenQuote? then [e.q] + e.body else "")
    else
      match parts[0]
      case Code(c) => Statements(current + [c], parts[1..], e)
      case Quote(q, body) => Statements(current + [q] + body + [q], parts[1..], e)
      case Cut => Statement(current) + Statements("", parts[1..], e)
      case _ => Statements(current, parts[1..], e)
  }

  // Reading a script

  function ModeOf(q: char): Mode {
    if q == '\'' then InSingle else if q == '"' then InDouble else InBacktick
  }

  /** Quoted text is kept whole, up to and with its closing quote. */
  lemma {:induction false} ScanBody(done: seq<string>, current: string, q: char, body: string, rest: string)
    requires QuoteMark(q) && Body(q, body, true)
    ensures Scan(done, ModeOf(q), current, body + [q] + rest) == Scan(done, Top, current + body + [q], rest)
    decreases |body|
  {
    var s := body + [q] + rest;
    if body == "" {
      assert s[1..] == rest && current + body + [q] == current + [q];
      if rest != "" && rest[0] == q && q != '`' {
        assert s[2..] == rest[1..];
      }
    } else if q != '`' && ((body[0] == '\\' && body[1] != '\U{00}') || body[0] == q) {
      assert s[2..] == body[2..] + [q] + rest;
      assert current + [body[0]] + [body[1]] + body[2..] + [q] == current + body + [q];
      ScanBody(done, current + [body[0]] + [body[1]], q, body[2..], rest);
    } else {
      assert s[1..] == body[1..] + [q] + rest;
      assert current + [body[0]] + body[1..] + [q] == current + body + [q];
      ScanBody(done, current + [body[0]], q, body[1..], rest);
    }
  }

  lemma {:induction false} ScanOpenBody(done: seq<string>, current: string, q: char, body: string)
    requires QuoteMark(q) && Body(q, body, false)
    ensures Scan(done, ModeOf(q), current, body) == done + Finish(current + body)
    decreases |body|
  {
    if body == "" {
      assert current + body == current;
    } else if q != '`' && |body| > 1 && ((body[0] == '\\' && body[1] != '\U{00}') || body[0] == q) {
      assert current + [body[0]] + [body[1]] + body[2..] == current + body;
      ScanOpenBody(done, current + [body[0]] + [body[1]], q, body[2..]);
    } else {
      assert current + [body[0]] + body[1..] == current + body;
      ScanOpenBody(done, current + [body[0]], q, body[1..]);
    }
  }

  lemma {:induction false} ScanLine(done: seq<string>, current: string, text: string, rest: string)
    requires '\n' !in text
    ensures Scan(done, InLine, current, text + "\n" + rest) == Scan(done, Top, current, rest)
    ensures Scan(done, InLine, current, text) == done + Finish(current)
    decreases |text|
  {
    var s := text + "\n" + rest;
    if text == "" {
      assert s[1..] == rest;
    } else {
      assert s[1..] == text[1..] + "\n" + rest;
      ScanLine(done, current, text[1..], rest);
    }
  }

  lemma {:induction false} ScanBlock(done: seq<string>, current: string, text: string, rest: string)
    requires BlockText(text)
    ensures Scan(done, InBlock, current, text + "*/" + rest) == Scan(done, Top, current, rest)
    ensures Scan(done, InBlock, current, text) == done + Finish(current)
    decreases |text|
  {
    var s := text + "*/" + rest;
    if text == "" {
      assert s[2..] == rest;
    } else {
      assert s[1..] == text[1..] + "*/" + rest;
      assert BlockText(text[1..]);
      assert s[0] == '*' ==> s[1] != '/';
      ScanBlock(done, current, text[1..], rest);
    }
  }

  lemma {:induction false} ScanPart(done: seq<string>, current: string, p: Part, next: string)
    requires Valid(p) && Apart(p, next)
    ensures Scan(done, Top, current, PrintPart(p) + next) ==
      match p
      case Code(c) => Scan(done, Top, current + [c], next)
      case Quote(q, body) => Scan(done, Top, current + [q] + body + [q], next)
      case Cut => Scan(done + Statement(current), Top, "", next)
      case _ => Scan(done, Top, current, next)
  {
    hide Scan, PrintPart, Statement;
    match p
    case Code(c) => ScanMark(done, current, p, next);
    case Quote(q, body) => ScanQuote(done, current, p, next);
    case LineNote(text) => ScanNote(done, current, p, next);
    case BlockNote(text) => ScanNote(done, current, p, next);
    case Cut => ScanMark(done, current, p, next);
  }

  lemma ScanMark(done: seq<string>, current: string, p: Part, next: string)
    requires Valid(p) && Apart(p, next) && (p.Code? || p.Cut?)
    ensures Scan(done, Top, current, PrintPart(p) + next) ==
      if p.Code? then Scan(done, Top, current + [p.c], next) else Scan(done + Statement(current), Top, "", next)
  {
    var s := PrintPart(p) + next;
    assert s[1..] == next;
  }

  lemma ScanQuote(done: seq<string>, current: string, p: Part, next: string)
    requires Valid(p) && p.Quote?
    ensures Scan(done, Top, current, PrintPart(p) + next) == Scan(done, Top, current + [p.q] + p.body + [p.q], next)
  {
    var s := PrintPart(p) + next;
    assert s[1..] == p.body + [p.q] + next;
    hide Body;
    ScanBody(done, current + [p.q], p.q, p.body, next);
  }

  lemma ScanNote(done: seq<string>, current: string, p: Part, next: string)
    requires Valid(p) && (p.LineNote? || p.BlockNote?)
    ensures Scan(done, Top, current, PrintPart(p) + next) == Scan(done, Top, current, next)
  {
    var s := PrintPart(p) + next;
    if p.LineNote? {
      assert s[2..] == p.text + "\n" + next;
      ScanLine(done, current, p.text, next);
    } else {
      assert s[2..] == p.text + "*/" + next;
      ScanBlock(done, current, p.text, next);
    }
  }

  lemma ScanEnding(done: seq<string>, current: string, e: Ending)
    requires ValidEnding(e)
    ensures Scan(done, Top, current, PrintEnding(e)) == done + Statements(current, [], e)
  {
    var s := PrintEnding(e);
    match e
    case Complete => assert current + "" == current;
    case OpenQuote(q, body) =>
      assert s[1..] == body && current + [q] + body == current + ([q] + body);
      ScanOpenBody(done, current + [q], q, body);
    case OpenLine(text) =>
      assert s[2..] == text && current + "" == current;
      ScanLine(done, current, text, "");
    case OpenBlock(text) =>
      assert s[2..] == text && current + "" == current;
      ScanBlock(done, current, text, "");
  }

  lemma {:induction false} ScanScript(done: seq<string>, current: string, parts: seq<Part>, e: Ending)
    requires Script(parts, e)
    ensures Scan(done, Top, current, Print(parts, e)) == done + Statements(current, parts, e)
    decreases parts
  {
    hide Scan, PrintPart, PrintEnding, Valid, Apart, ValidEnding, Statement;
    if parts == [] {
      ScanEnding(done, current, e);
    } else {
      var p, rest := parts[0], parts[1..];
      ScanPart(done, current, p, Print(rest, e));
      match p
      case Code(c) => ScanScript(done, current + [c], rest, e);
      case Quote(q, body) => ScanScript(done, current + [q] + body + [q], rest, e);
      case Cut => ScanScript(done + Statement(current), "", rest, e);
      case _ => ScanScript(done, current, rest, e);
    }
  }

  /** The splitter reads every script as it is meant: comments go, quoted text stays whole, statements end at `;`. */
  lemma SplitReadsScript(parts: seq<Part>, e: Ending)
    requires Script(parts, e)
    ensures Split(Print(parts, e)) == Statements("", parts, e)
  {
    hide Scan, Split, Script;
    ScanSplit(Print(parts, e));
    ScanScript([], "", parts, e);
  }

  // Every text is a script

  /** Where quoted text ends, if it does. */
  lemma {:induction false} ParseBody(q: char, s: string) returns (body: string, rest: string, closed: bool)
    requires QuoteMark(q)
    ensures Body(q, body, closed)
    ensures s == if closed then body + [q] + rest else body
    decreases |s|
  {
    if s == "" {
      body, rest, closed := "", "", false;
    } else if q != '`' && |s| > 1 && ((s[0] == '\\' && s[1] != '\U{00}') || (s[0] == q && s[1] == q)) {
      body, rest, closed := ParseBody(q, s[2..]);
      body := s[..2] + body;
      assert body[2..] == s[2..][..|body| - 2];
    } else if s[0] == q {
      body, rest, closed := "", s[1..], true;
    } else {
      body, rest, closed := ParseBody(q, s[1..]);
      body := s[..1] + body;
      assert body[1..] == s[1..][..|body| - 1];
    }
  }

  lemma {:induction false} ParseLine(s: string) returns (text: string, rest: string, closed: bool)
    ensures '\n' !in text && s == if closed then text + "\n" + rest else text
    decreases |s|
  {
    if s == "" {
      text, rest, closed := "", "", false;
    } else if s[0] == '\n' {
      text, rest, closed := "", s[1..], true;
    } else {
      text, rest, closed := ParseLine(s[1..]);
      text := s[..1] + text;
    }
  }

  lemma {:induction false} ParseBlock(s: string) returns (text: string, rest: string, closed: bool)
    ensures BlockText(text) && s == if closed then text + "*/" + rest else text
    decreases |s|
  {
    if s == "" {
      text, rest, closed := "", "", false;
    } else if |s| > 1 && s[0] == '*' && s[1] == '/' {
      text, rest, closed := "", s[2..], true;
    } else {
      text, rest, closed := ParseBlock(s[1..]);
      assert text != "" ==> text[0] == s[1];
      text := s[..1] + text;
      assert forall k :: 1 <= k < |text| ==> text[k] == text[1..][k - 1];
    }
  }

  /** The first part of a text, if it is whole, or else its ending. */
  lemma ParseFirst(s: string) returns (p: Part, rest: string, e: Ending, whole: bool)
    requires s != ""
    ensures whole ==> Valid(p) && Apart(p, rest) && s == PrintPart(p) + rest && |rest| < |s|
    ensures !whole ==> ValidEnding(e) && s == PrintEnding(e)
  {
    p, rest, e, whole := Cut, "", Complete, true;
    if QuoteMark(s[0]) {
      var body;
      body, rest, whole := ParseBody(s[0], s[1..]);
      p, e := Quote(s[0], body), OpenQuote(s[0], body);
    } else if |s| > 1 && s[0] == '-' && s[1] == '-' && AfterDashes(s[2..]) {
      var text;
      text, rest, whole := ParseLine(s[2..]);
      p, e := LineNote(text), OpenLine(text);
    } else if |s| > 1 && s[0] == '/' && s[1] == '*' {
      var text;
      text, rest, whole := ParseBlock(s[2..]);
      p, e := BlockNote(text), OpenBlock(text);
    } else {
      p, rest := if s[0] == ';' then Cut else Code(s[0]), s[1..];
    }
  }

  /** Every text is a script. */
  lemma {:induction false} EveryTextIsScript(s: string) returns (parts: seq<Part>, e: Ending)
    ensures Script(parts, e) && Print(parts, e) == s
    decreases |s|
  {
    if s == "" {
      parts, e := [], Complete;
    } else {
      var p, rest, ending, whole := ParseFirst(s);
      hide Valid, Apart, ValidEnding, PrintPart, PrintEnding;
      if whole {
        var tail;
        tail, e := EveryTextIsScript(rest);
        parts := [p] + tail;
        assert parts[1..] == tail;
      } else {
        parts, e := [], ending;
      }
    }
  }

  // Taking comments out

  predicate Note(p: Part) {
    p.LineNote? || p.BlockNote?
  }

  lemma {:induction false} NoteSkipped(current: string, a: seq<Part>, note: Part, b: seq<Part>, e: Ending)
    requires Note(note)
    ensures Statements(current, a + [note] + b, e) == Statements(current, a + b, e)
    decreases a
  {
    var whole := a + [note] + b;
    if a == [] {
      assert whole[1..] == b && a + b == b;
    } else {
      assert whole[1..] == a[1..] + [note] + b && (a + b)[1..] == a[1..] + b;
      match a[0]
      case Code(c) => NoteSkipped(current + [c], a[1..], note, b, e);
      case Quote(q, body) => NoteSkipped(current + [q] + body + [q], a[1..], note, b, e);
      case Cut => NoteSkipped("", a[1..], note, b, e);
      case _ => NoteSkipped(current, a[1..], note, b, e);
    }
  }

  /** No two marks of a comment meet where the text goes on with `next`. */
  predicate Seamless(a: seq<Part>, next: string) {
    var n := |a|;
    && (n > 0 ==> Apart(a[n - 1], next))
    && (n > 1 && a[n - 2] == a[n - 1] == Code('-') ==> !AfterDashes(next))
  }

  /** What a script starts with is the first character of its first part. */
  lemma PrintHead(parts: seq<Part>, more: seq<Part>, e: Ending)
    requires parts != [] && more != [] && parts[0] == more[0]
    ensures AfterDashes(Print(parts, e)) <==> AfterDashes(Print(more, e))
  {
    assert PrintPart(parts[0]) != "";
    hide PrintPart;
  }

  lemma PrintCons(p: Part, rest: seq<Part>, e: Ending)
    ensures Print([p] + rest, e) == PrintPart(p) + Print(rest, e)
  {
    assert ([p] + rest)[1..] == rest;
    hide PrintPart;
  }

  /** Whether a part stays apart is seen from the next part, and from what follows that only if both are dashes. */
  lemma ApartFrom(p: Part, first: Part, x: string, y: string)
    requires Valid(first)
    ensures p == first == Code('-') ==> (Apart(p, PrintPart(first) + x) <==> !AfterDashes(x))
    ensures p != Code('-') || first != Code('-') ==>
      (Apart(p, PrintPart(first) + x) <==> Apart(p, PrintPart(first) + y))
  {
    var u, v := PrintPart(first) + x, PrintPart(first) + y;
    assert u[0] == v[0];
    if first == Code('-') {
      assert u[1..] == x;
    } else if u[0] == '-' {
      assert u[1] == v[1] == '-';
    }
  }

  /** A comment further on does not change whether a part stays apart, unless two dashes stand right before it. */
  lemma ApartAlike(p: Part, a: seq<Part>, note: Part, b: seq<Part>, e: Ending)
    requires a != [] && Note(note) && Valid(a[0])
    ensures
      var dashes := |a| == 1 && p == a[0] == Code('-');
      Apart(p, Print(a + b, e)) <==>
        if dashes then !AfterDashes(Print(b, e)) else Apart(p, Print(a + [note] + b, e))
  {
    hide Print, PrintPart, Apart, AfterDashes;
    var first, rest := a[0], a[1..];
    var with, without := rest + [note] + b, rest + b;
    assert a + [note] + b == [first] + with && a + b == [first] + without;
    PrintCons(first, with, e);
    PrintCons(first, without, e);
    ApartFrom(p, first, Print(with, e), Print(without, e));
    ApartFrom(p, first, Print(without, e), Print(with, e));
    if rest == [] {
      assert without == b;
    } else {
      assert with[0] == without[0];
      PrintHead(with, without, e);
    }
  }

  /** A script stays a script without one of its comments exactly when no two marks then meet. */
  lemma {:induction false} WithoutNote(a: seq<Part>, note: Part, b: seq<Part>, e: Ending)
    requires Note(note) && Script(a + [note] + b, e)
    ensures Script(a + b, e) <==> Seamless(a, Print(b, e))
    decreases a
  {
    hide Valid, Apart, PrintPart, PrintEnding, ValidEnding, Print, AfterDashes;
    var whole := a + [note] + b;
    if a == [] {
      assert whole[1..] == b && a + b == b;
    } else {
      var p, rest := a[0], a[1..];
      assert whole[1..] == rest + [note] + b && (a + b)[1..] == rest + b;
      WithoutNote(rest, note, b, e);
      if rest == [] {
        assert rest + b == b;
      } else {
        assert whole[1..][0] == rest[0];
        ApartAlike(p, rest, note, b, e);
      }
    }
  }

  /**
   Comments are nothing to the splitter: taking one out of a script leaves its statements as they are, exactly where
   the text is still that script, that is, where no two marks of a comment meet.
   */
  lemma CommentsVanish(a: seq<Part>, note: Part, b: seq<Part>, e: Ending)
    requires Note(note) && Script(a + [note] + b, e)
    ensures Script(a + b, e) <==> Seamless(a, Print(b, e))
    ensures Script(a + b, e) ==> Split(Print(a + [note] + b, e)) == Split(Print(a + b, e))
  {
    hide Script, Split, Print, Statements, Seamless;
    WithoutNote(a, note, b, e);
    NoteSkipped("", a, note, b, e);
    SplitReadsScript(a + [note] + b, e);
    if Script(a + b, e) {
      SplitReadsScript(a + b, e);
    }
  }

  /** Where marks do meet, the statements can change. */
  lemma MarksMeet()
    ensures Split("-/**/-") == ["--"] && Split("--") == []
  {
    hide Split, Trim;
    var dash, none := [Code('-')], [BlockNote("")];
    OneDash();
    assert "-" + ['-'] == "--" && (none + dash)[1..] == dash && (dash + none + dash)[1..] == none + dash;
    assert PrintPart(none[0]) + "-" == "/**/-" && [dash[0].c] + "/**/-" == "-/**/-";
    SplitReadsScript(dash + none + dash, Complete);
    TrimFixed("--");
    SplitReadsScript([], OpenLine(""));
    assert "--" + "" == "--" && "" + "" == "" && "" + ['-'] == "-";
    TrimFixed("");
  }

  lemma OneDash()
    ensures
      var dash := [Code('-')];
      && Script(dash, Complete) && Print(dash, Complete) == "-"
      && forall current :: Statements(current, dash, Complete) == Statement(current + ['-'])
  {
    var dash := [Code('-')];
    assert dash[1..] == [] && ['-'] + "" == "-";
    forall current ensures Statements(current, dash, Complete) == Statement(current + ['-']) {
      assert current + ['-'] + "" == current + ['-'];
    }
  }
}
