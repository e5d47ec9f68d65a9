/**
 The migration runner's SQL statement splitter: a scanner that walks the text
 with five flags and a buffer. It is proved against a tokenizer that takes whole
 literals and whole comments at a time.
 */
module SqlSplitter {
  import opened Text

  const NUL: char := '\U{00}'

  datatype Token =
    | Plain(c: char)
    | Separator
    | Literal(text: string)
    | Comment(text: string)

  predicate IsQuote(c: char) {
    c == '\'' || c == '"' || c == '`'
  }

  /** What follows an opening quote `q`: the rest of the literal, and what is left. */
  function Quoted(q: char, s: string): (r: (string, string))
    ensures |r.1| <= |s|
  {
    if s == "" then ("", "")
    else if q != '`' && s[0] == '\\' && |s| > 1 && s[1] != NUL then
      var (t, rest) := Quoted(q, s[2..]); (s[..2] + t, rest)
    else if s[0] == q then
      if q != '`' && |s| > 1 && s[1] == q then
        var (t, rest) := Quoted(q, s[2..]); (s[..2] + t, rest)
      else (s[..1], s[1..])
    else
      var (t, rest) := Quoted(q, s[1..]); (s[..1] + t, rest)
  }

  /** A line comment runs through its newline. */
  function LineTail(s: string): (r: (string, string))
    ensures |r.1| <= |s|
  {
    if s == "" then ("", "")
    else if s[0] == '\n' then (s[..1], s[1..])
    else var (t, rest) := LineTail(s[1..]); (s[..1] + t, rest)
  }

  /** A block comment runs through its closing mark. */
  function BlockTail(s: string): (r: (string, string))
    ensures |r.1| <= |s|
  {
    if s == "" then ("", "")
    else if s[0] == '*' && |s| > 1 && s[1] == '/' then (s[..2], s[2..])
    else var (t, rest) := BlockTail(s[1..]); (s[..1] + t, rest)
  }

  lemma {:induction false} QuotedSource(q: char, s: string)
    ensures Quoted(q, s).0 + Quoted(q, s).1 == s
    decreases |s|
  {
    if s == "" {
    } else if q != '`' && |s| > 1 && ((s[0] == '\\' && s[1] != NUL) || (s[0] == q && s[1] == q)) {
      QuotedSource(q, s[2..]);
      assert s == s[..2] + (Quoted(q, s[2..]).0 + Quoted(q, s[2..]).1);
    } else if s[0] != q {
      QuotedSource(q, s[1..]);
      assert s == s[..1] + (Quoted(q, s[1..]).0 + Quoted(q, s[1..]).1);
    }
  }

  lemma {:induction false} LineSource(s: string)
    ensures LineTail(s).0 + LineTail(s).1 == s
    decreases |s|
  {
    if s != "" && s[0] != '\n' {
      LineSource(s[1..]);
      assert s == s[..1] + (LineTail(s[1..]).0 + LineTail(s[1..]).1);
    }
  }

  lemma {:induction false} BlockSource(s: string)
    ensures BlockTail(s).0 + BlockTail(s).1 == s
    decreases |s|
  {
    if s != "" && !(s[0] == '*' && |s| > 1 && s[1] == '/') {
      BlockSource(s[1..]);
      assert s == s[..1] + (BlockTail(s[1..]).0 + BlockTail(s[1..]).1);
    }
  }

  predicate EndsDash(c: char) {
    c == NUL || c == ' ' || c == '\t' || c == '\r' || c == '\n'
  }

  /** Two dashes open a comment at the end of the text or before white space. */
  predicate OpensLineComment(s: string) {
    |s| > 1 && s[0] == '-' && s[1] == '-' && (|s| == 2 || EndsDash(s[2]))
  }

  predicate OpensBlockComment(s: string) {
    |s| > 1 && s[0] == '/' && s[1] == '*'
  }

  function SourceText(t: Token): string {
    match t
    case Plain(c) => [c]
    case Separator => ";"
    case Literal(text) => text
    case Comment(text) => text
  }

  function Tokens(s: string): seq<Token>
    decreases |s|
  {
    if s == "" then []
    else if OpensLineComment(s) then
      var (t, rest) := LineTail(s[2..]);
      [Comment(s[..2] + t)] + Tokens(rest)
    else if OpensBlockComment(s) then
      var (t, rest) := BlockTail(s[2..]);
      [Comment(s[..2] + t)] + Tokens(rest)
    else if IsQuote(s[0]) then
      var (t, rest) := Quoted(s[0], s[1..]);
      [Literal(s[..1] + t)] + Tokens(rest)
    else
      [if s[0] == ';' then Separator else Plain(s[0])] + Tokens(s[1..])
  }

  predicate KeepsToken(t: Token) {
    t.Plain? || t.Literal?
  }

  lemma FirstComment(s: string) returns (t: Token, rest: string)
    requires OpensLineComment(s) || OpensBlockComment(s)
    ensures t.Comment? && Tokens(s) == [t] + Tokens(rest) && |rest| < |s|
    ensures t.text + rest == s && |t.text| > 1
    ensures rest == if OpensLineComment(s) then LineTail(s[2..]).1 else BlockTail(s[2..]).1
  {
    hide Quoted, LineTail, BlockTail;
    if OpensLineComment(s) {
      t, rest := Comment(s[..2] + LineTail(s[2..]).0), LineTail(s[2..]).1;
      LineSource(s[2..]);
      assert s == s[..2] + (LineTail(s[2..]).0 + rest);
    } else {
      t, rest := Comment(s[..2] + BlockTail(s[2..]).0), BlockTail(s[2..]).1;
      BlockSource(s[2..]);
      assert s == s[..2] + (BlockTail(s[2..]).0 + rest);
    }
  }

  lemma FirstLiteral(s: string) returns (t: Token, rest: string)
    requires s != "" && IsQuote(s[0])
    ensures t.Literal? && Tokens(s) == [t] + Tokens(rest) && |rest| < |s|
    ensures t.text + rest == s
    ensures t.text == s[..1] + Quoted(s[0], s[1..]).0 && rest == Quoted(s[0], s[1..]).1
  {
    hide Quoted, LineTail, BlockTail;
    t, rest := Literal(s[..1] + Quoted(s[0], s[1..]).0), Quoted(s[0], s[1..]).1;
    QuotedSource(s[0], s[1..]);
    assert s == s[..1] + (Quoted(s[0], s[1..]).0 + rest);
  }

  /** The next token of a text and the text after it: one round of the tokenizer. */
  lemma First(s: string) returns (t: Token, rest: string)
    requires s != ""
    ensures Tokens(s) == [t] + Tokens(rest)
    ensures SourceText(t) + rest == s && |rest| < |s|
    ensures t.Comment? <==> OpensLineComment(s) || OpensBlockComment(s)
    ensures t.Comment? ==>
      |t.text| > 1 && rest == if OpensLineComment(s) then LineTail(s[2..]).1 else BlockTail(s[2..]).1
    ensures t.Literal? <==> IsQuote(s[0])
    ensures t.Literal? ==> t.text == s[..1] + Quoted(s[0], s[1..]).0 && rest == Quoted(s[0], s[1..]).1
    ensures t.Separator? <==> s[0] == ';'
    ensures !t.Comment? && !t.Literal? ==> rest == s[1..]
  {
    hide Quoted, LineTail, BlockTail;
    if OpensLineComment(s) || OpensBlockComment(s) {
      t, rest := FirstComment(s);
    } else if IsQuote(s[0]) {
      t, rest := FirstLiteral(s);
    } else {
      t, rest := if s[0] == ';' then Separator else Plain(s[0]), s[1..];
    }
  }

  /** The text a token keeps in the statement it belongs to. */
  function KeptText(t: Token): string {
    match t
    case Plain(c) => [c]
    case Literal(text) => text
    case _ => ""
  }

  function Kept(ts: seq<Token>): string {
    if ts == [] then "" else KeptText(ts[0]) + Kept(ts[1..])
  }

  function Source(ts: seq<Token>): string {
    if ts == [] then "" else SourceText(ts[0]) + Source(ts[1..])
  }

  /** The untrimmed statements: the kept text, cut at the separators. */
  function Pieces(current: string, ts: seq<Token>): seq<string>
    decreases |ts|
  {
    if ts == [] then [current]
    else if ts[0].Separator? then [current] + Pieces("", ts[1..])
    else Pieces(current + KeptText(ts[0]), ts[1..])
  }

  function Finish(current: string): seq<string> {
    if Blank(current) then [] else [Trim(current)]
  }

  function TrimAll(pieces: seq<string>): seq<string> {
    if pieces == [] then [] else Finish(pieces[0]) + TrimAll(pieces[1..])
  }

  /** The statements of a migration. */
  function Split(input: string): seq<string> {
    TrimAll(Pieces("", Tokens(input)))
  }

  // The scanner

  datatype Mode = Top | InSingle | InDouble | InBacktick | InLine | InBlock

  /** The scanner one step at a time: the statements it has once it has read the rest. */
  ghost function Scan(done: seq<string>, mode: Mode, current: string, rest: string): seq<string>
    decreases |rest|
  {
    if rest == "" then done + Finish(current)
    else
      var ch, next := rest[0], if |rest| > 1 then rest[1] else NUL;
      match mode
      case InLine => Scan(done, if ch == '\n' then Top else InLine, current, rest[1..])
      case InBlock =>
        if ch == '*' && next == '/' then Scan(done, Top, current, rest[2..])
        else Scan(done, InBlock, current, rest[1..])
      case InBacktick => Scan(done, if ch == '`' then Top else InBacktick, current + [ch], rest[1..])
      case Top =>
        if OpensLineComment(rest) then Scan(done, InLine, current, rest[2..])
        else if OpensBlockComment(rest) then Scan(done, InBlock, current, rest[2..])
        else if ch == ';' then Scan(done + Finish(current), Top, "", rest[1..])
        else
          var entered := if ch == '\'' then InSingle else if ch == '"' then InDouble
                         else if ch == '`' then InBacktick else Top;
          Scan(done, entered, current + [ch], rest[1..])
      case _ =>
        var q := if mode.InSingle? then '\'' else '"';
        if (ch == '\\' && next != NUL) || (ch == q && next == q) then
          Scan(done, mode, current + [ch] + [next], rest[2..])
        else Scan(done, if ch == q then Top else mode, current + [ch], rest[1..])
  }

  /** The scanner, flag by flag, yields the tokenizer's statements. */
  method SplitSQLStatements(input: string) returns (statements: seq<string>)
    ensures statements == Split(input)
  {
    hide Split, Trim;
    ScanSplit(input);
    statements := [];
    var current := "";
    var inSingleQuote, inDoubleQuote, inBacktick := false, false, false;
    var inLineComment, inBlockComment := false, false;
    ghost var mode := Top;
    assert input[0..] == input;
    var i := 0;
    while i < |input|
      invariant 0 <= i <= |input|
      invariant inSingleQuote == mode.InSingle? && inDoubleQuote == mode.InDouble?
      invariant inBacktick == mode.InBacktick?
      invariant inLineComment == mode.InLine? && inBlockComment == mode.InBlock?
      invariant Scan(statements, mode, current, input[i..]) == Split(input)
    {
      var ch := input[i];
      var next := if i + 1 < |input| then input[i + 1] else NUL;
      ghost var rest := input[i..];
      assert rest[1..] == input[i + 1..];
      assert i + 1 < |input| ==> rest[2..] == input[i + 2..];
      assert statements + [] == statements;

      if inLineComment {
        if ch == '\n' {
          inLineComment, mode := false, Top;
        }
      } else if inBlockComment {
        if ch == '*' && next == '/' {
          inBlockComment, mode := false, Top;
          i := i + 1;
        }
      } else if inSingleQuote {
        current := current + [ch];
        if ch == '\\' && next != NUL {
          i := i + 1;
          current := current + [next];
        } else if ch == '\'' {
          if next == '\'' {
            i := i + 1;
            current := current + [next];
          } else {
            inSingleQuote, mode := false, Top;
          }
        }
      } else if inDoubleQuote {
        current := current + [ch];
        if ch == '\\' && next != NUL {
          i := i + 1;
          current := current + [next];
        } else if ch == '"' {
          if next == '"' {
            i := i + 1;
            current := current + [next];
          } else {
            inDoubleQuote, mode := false, Top;
          }
        }
      } else if inBacktick {
        current := current + [ch];
        if ch == '`' {
          inBacktick, mode := false, Top;
        }
      } else {
        var afterNext := if i + 2 < |input| then input[i + 2] else NUL;
        if ch == '-' && next == '-' && EndsDash(afterNext) {
          inLineComment, mode := true, InLine;
          i := i + 1;
        } else if ch == '/' && next == '*' {
          inBlockComment, mode := true, InBlock;
          i := i + 1;
        } else {
          match ch
          case '\'' =>
            inSingleQuote, mode := true, InSingle;
            current := current + [ch];
          case '"' =>
            inDoubleQuote, mode := true, InDouble;
            current := current + [ch];
          case '`' =>
            inBacktick, mode := true, InBacktick;
            current := current + [ch];
          case ';' =>
            var statement := Trim(current);
            if statement != "" {
              statements := statements + [statement];
            }
            current := "";
          case _ =>
            current := current + [ch];
        }
      }
      i := i + 1;
    }
    assert input[i..] == "" && statements + [] == statements;
    var statement := Trim(current);
    if statement != "" {
      statements := statements + [statement];
    }
  }

  // The scanner against the tokenizer

  /** The text a mode still belongs to: what it keeps, and where the next token starts. */
  ghost function Pending(mode: Mode, rest: string): (string, string) {
    match mode
    case Top => ("", rest)
    case InSingle => Quoted('\'', rest)
    case InDouble => Quoted('"', rest)
    case InBacktick => Quoted('`', rest)
    case InLine => ("", LineTail(rest).1)
    case InBlock => ("", BlockTail(rest).1)
  }

  ghost function Resume(mode: Mode, current: string, rest: string): seq<string> {
    TrimAll(Pieces(current + Pending(mode, rest).0, Tokens(Pending(mode, rest).1)))
  }

  /** The scanner in any mode agrees with finishing the token it is in and tokenizing the rest. */
  lemma {:induction false} ScanTokens(done: seq<string>, mode: Mode, current: string, rest: string)
    ensures Scan(done, mode, current, rest) == done + Resume(mode, current, rest)
    decreases |rest|, 1
  {
    if rest == "" {
      assert current + "" == current;
      assert Pending(mode, rest) == ("", "");
      assert Pieces(current, []) == [current] && [current][1..] == [] && TrimAll([]) == [];
    } else {
      hide Scan, Resume;
      match mode
      case Top => ScanTop(done, current, rest);
      case InLine => ScanComment(done, mode, current, rest);
      case InBlock => ScanComment(done, mode, current, rest);
      case _ => ScanQuoted(done, mode, current, rest);
    }
  }

  lemma {:induction false} ScanTop(done: seq<string>, current: string, rest: string)
    requires rest != ""
    ensures Scan(done, Top, current, rest) == done + Resume(Top, current, rest)
    decreases |rest|, 0
  {
    hide Resume;
    if OpensLineComment(rest) || OpensBlockComment(rest) {
      ResumeTopComment(current, rest);
      ScanTokens(done, InLine, current, rest[2..]);
      ScanTokens(done, InBlock, current, rest[2..]);
    } else if rest[0] == ';' {
      ResumeTopSeparator(current, rest);
      ScanTokens(done + Finish(current), Top, "", rest[1..]);
    } else {
      ResumeTopKept(current, rest);
      ScanTokens(done, Top, current + [rest[0]], rest[1..]);
      ScanTokens(done, InSingle, current + [rest[0]], rest[1..]);
      ScanTokens(done, InDouble, current + [rest[0]], rest[1..]);
      ScanTokens(done, InBacktick, current + [rest[0]], rest[1..]);
    }
  }

  lemma {:induction false} ScanComment(done: seq<string>, mode: Mode, current: string, rest: string)
    requires rest != "" && (mode.InLine? || mode.InBlock?)
    ensures Scan(done, mode, current, rest) == done + Resume(mode, current, rest)
    decreases |rest|, 0
  {
    hide Tokens, Pieces, TrimAll;
    if |rest| > 1 {
      ScanTokens(done, Top, current, rest[2..]);
    }
    ScanTokens(done, Top, current, rest[1..]);
    ScanTokens(done, mode, current, rest[1..]);
  }

  lemma {:induction false} ScanQuoted(done: seq<string>, mode: Mode, current: string, rest: string)
    requires rest != "" && (mode.InSingle? || mode.InDouble? || mode.InBacktick?)
    ensures Scan(done, mode, current, rest) == done + Resume(mode, current, rest)
    decreases |rest|, 0
  {
    hide Resume;
    ResumeQuoted(mode, current, rest);
    if |rest| > 1 {
      assert current + [rest[0]] + [rest[1]] == current + [rest[0], rest[1]];
      ScanTokens(done, mode, current + [rest[0], rest[1]], rest[2..]);
    }
    ScanTokens(done, Top, current + [rest[0]], rest[1..]);
    ScanTokens(done, mode, current + [rest[0]], rest[1..]);
  }

  lemma ScanSplit(input: string)
    ensures Scan([], Top, "", input) == Split(input)
  {
    ScanTokens([], Top, "", input);
    assert "" + "" == "";
  }

  lemma ResumeQuoted(mode: Mode, current: string, rest: string)
    requires mode.InSingle? || mode.InDouble? || mode.InBacktick?
    requires rest != ""
    ensures
      var q := if mode.InSingle? then '\'' else if mode.InDouble? then '"' else '`';
      Resume(mode, current, rest) ==
        if q != '`' && |rest| > 1 && ((rest[0] == '\\' && rest[1] != NUL) || (rest[0] == q && rest[1] == q)) then
          Resume(mode, current + [rest[0], rest[1]], rest[2..])
        else Resume(if rest[0] == q then Top else mode, current + [rest[0]], rest[1..])
  {
    var q := if mode.InSingle? then '\'' else if mode.InDouble? then '"' else '`';
    assert rest[..1] == [rest[0]];
    assert current + ([rest[0]] + Quoted(q, rest[1..]).0) == current + [rest[0]] + Quoted(q, rest[1..]).0;
    assert current + [rest[0]] + "" == current + [rest[0]];
    if |rest| > 1 {
      assert rest[..2] == [rest[0], rest[1]];
      assert current + (rest[..2] + Quoted(q, rest[2..]).0) == current + [rest[0], rest[1]] + Quoted(q, rest[2..]).0;
    }
  }

  lemma ResumeTopComment(current: string, rest: string)
    requires OpensLineComment(rest) || OpensBlockComment(rest)
    ensures Resume(Top, current, rest) ==
      Resume(if OpensLineComment(rest) then InLine else InBlock, current, rest[2..])
  {
    hide Tokens, Pieces, TrimAll, Quoted, LineTail, BlockTail;
    var t, tail := First(rest);
    PiecesCons(current, t, Tokens(tail));
    assert current + "" == current;
  }

  lemma ResumeTopSeparator(current: string, rest: string)
    requires rest != "" && rest[0] == ';'
    ensures Resume(Top, current, rest) == Finish(current) + Resume(Top, "", rest[1..])
  {
    hide Tokens, Pieces, TrimAll, Quoted, LineTail, BlockTail;
    var t, tail := First(rest);
    PiecesCons(current, t, Tokens(tail));
    assert current + "" == current && "" + "" == "";
  }

  lemma ResumeTopKept(current: string, rest: string)
    requires rest != "" && !OpensLineComment(rest) && !OpensBlockComment(rest) && rest[0] != ';'
    ensures Resume(Top, current, rest) ==
      Resume(if rest[0] == '\'' then InSingle else if rest[0] == '"' then InDouble
             else if rest[0] == '`' then InBacktick else Top, current + [rest[0]], rest[1..])
  {
    hide Tokens, Pieces, TrimAll, Quoted, LineTail, BlockTail;
    var t, tail := First(rest);
    PiecesCons(current, t, Tokens(tail));
    assert current + "" == current && rest[..1] == [rest[0]];
    assert current + [rest[0]] + "" == current + [rest[0]];
    if t.Literal? {
      assert current + t.text == current + [rest[0]] + Quoted(rest[0], rest[1..]).0;
    }
  }

  lemma PiecesCons(current: string, t: Token, ts: seq<Token>)
    ensures TrimAll(Pieces(current, [t] + ts)) ==
      if t.Separator? then Finish(current) + TrimAll(Pieces("", ts))
      else TrimAll(Pieces(current + KeptText(t), ts))
  {
    assert ([t] + ts)[1..] == ts;
    if t.Separator? {
      assert ([current] + Pieces("", ts))[1..] == Pieces("", ts);
    }
  }

  // What the statements are

  /** The tokens lose nothing: put back together they are the input. */
  lemma {:induction false} TokensSource(s: string)
    ensures Source(Tokens(s)) == s
    decreases |s|
  {
    if s != "" {
      var t, rest := First(s);
      TokensSource(rest);
    }
  }

  lemma {:induction false} PiecesKept(current: string, ts: seq<Token>)
    ensures Flatten(Pieces(current, ts)) == current + Kept(ts)
    decreases |ts|
  {
    if ts == [] {
      assert [current][1..] == [];
    } else if ts[0].Separator? {
      PiecesKept("", ts[1..]);
      assert ([current] + Pieces("", ts[1..]))[1..] == Pieces("", ts[1..]);
      assert "" + Kept(ts[1..]) == Kept(ts[1..]) && Kept(ts) == Kept(ts[1..]);
    } else {
      PiecesKept(current + KeptText(ts[0]), ts[1..]);
      assert current + KeptText(ts[0]) + Kept(ts[1..]) == current + (KeptText(ts[0]) + Kept(ts[1..]));
    }
  }

  /** The untrimmed statements, put end to end, are the input without its comments and separators. */
  lemma SplitConservesText(input: string)
    ensures Source(Tokens(input)) == input
    ensures Flatten(Pieces("", Tokens(input))) == Kept(Tokens(input))
  {
    TokensSource(input);
    PiecesKept("", Tokens(input));
    assert "" + Kept(Tokens(input)) == Kept(Tokens(input));
  }

  // A quote-tracking automaton, independent of the tokenizer

  datatype Quoting = Outside | Inside(q: char) | Escaped(q: char)

  function Advance(state: Quoting, c: char): Quoting {
    match state
    case Outside => if IsQuote(c) then Inside(c) else Outside
    case Inside(q) =>
      if c == '\\' && q != '`' then Escaped(q)
      else if c == q then Outside
      else state
    case Escaped(q) => Inside(q)
  }

  function Track(state: Quoting, s: string): Quoting
    decreases s
  {
    if s == "" then state else Track(Advance(state, s[0]), s[1..])
  }

  /** No semicolon of `s` stands outside quotes. */
  predicate Guarded(state: Quoting, s: string)
    decreases s
  {
    s == "" || (!(state.Outside? && s[0] == ';') && Guarded(Advance(state, s[0]), s[1..]))
  }

  lemma {:induction false} TrackAppend(state: Quoting, a: string, b: string)
    ensures Track(state, a + b) == Track(Track(state, a), b)
    ensures Guarded(state, a + b) <==> Guarded(state, a) && Guarded(Track(state, a), b)
    decreases a
  {
    if a == "" {
      assert a + b == b;
    } else {
      assert (a + b)[1..] == a[1..] + b;
      TrackAppend(Advance(state, a[0]), a[1..], b);
    }
  }

  lemma {:induction false} QuotedGuarded(q: char, s: string)
    requires IsQuote(q)
    ensures Guarded(Inside(q), Quoted(q, s).0)
    ensures Quoted(q, s).1 != "" ==> Track(Inside(q), Quoted(q, s).0).Outside?
    decreases |s|
  {
    if s == "" {
    } else if q != '`' && |s| > 1 && ((s[0] == '\\' && s[1] != NUL) || (s[0] == q && s[1] == q)) {
      QuotedGuarded(q, s[2..]);
      var t := Quoted(q, s[2..]).0;
      assert s[..2] == [s[0]] + [s[1]];
      TrackAppend(Inside(q), s[..2], t);
      assert s[..2][1..] == [s[1]];
    } else if s[0] != q {
      QuotedGuarded(q, s[1..]);
      var t := Quoted(q, s[1..]).0;
      TrackAppend(Inside(q), s[..1], t);
      if s[0] == '\\' && q != '`' && |s| > 1 {
        assert s[1] == NUL;
        EscapedNul(q, s[1..]);
      }
    }
  }

  /** A backslash does not escape a NUL; tracking it as escaped changes nothing. */
  lemma EscapedNul(q: char, s: string)
    requires IsQuote(q) && s != "" && s[0] == NUL
    ensures Quoted(q, s).0 != "" && Quoted(q, s).0[0] == NUL
    ensures Track(Escaped(q), Quoted(q, s).0) == Track(Inside(q), Quoted(q, s).0)
    ensures Guarded(Escaped(q), Quoted(q, s).0) == Guarded(Inside(q), Quoted(q, s).0)
  {
  }

  lemma {:induction false} PiecesGuarded(current: string, s: string)
    requires Guarded(Outside, current) && Track(Outside, current).Outside?
    ensures forall p :: p in Pieces(current, Tokens(s)) ==> Guarded(Outside, p)
    decreases |s|
  {
    if s != "" {
      var t, rest := First(s);
      if t.Literal? {
        QuotedGuarded(s[0], s[1..]);
        assert t.text[1..] == Quoted(s[0], s[1..]).0;
      }
      TrackAppend(Outside, current, KeptText(t));
      if t.Separator? {
        PiecesGuarded("", rest);
      } else if rest != "" {
        PiecesGuarded(current + KeptText(t), rest);
      }
    }
  }

  lemma {:induction false} SpaceStaysOutside(a: string)
    requires AllSpace(a)
    ensures Track(Outside, a).Outside?
  {
    if a != "" {
      SpaceStaysOutside(a[1..]);
    }
  }

  lemma TrimGuarded(p: string)
    requires Guarded(Outside, p)
    ensures Guarded(Outside, Trim(p))
  {
    var a, b := TrimSplit(p);
    TrackAppend(Outside, a + Trim(p), b);
    TrackAppend(Outside, a, Trim(p));
    SpaceStaysOutside(a);
  }

  lemma {:induction false} TrimAllStatements(pieces: seq<string>)
    requires forall p :: p in pieces ==> Guarded(Outside, p)
    ensures forall o :: o in TrimAll(pieces) ==> o != "" && Trimmed(o) && Guarded(Outside, o)
  {
    if pieces != [] {
      TrimAllStatements(pieces[1..]);
      TrimGuarded(pieces[0]);
      TrimFixed(pieces[0]);
      TrimFixed(Trim(pieces[0]));
    }
  }

  /** Every statement is nonempty and trimmed, and has no semicolon outside quotes. */
  lemma SplitStatements(input: string)
    ensures forall o :: o in Split(input) ==> o != "" && Trimmed(o) && Guarded(Outside, o)
  {
    PiecesGuarded("", input);
    TrimAllStatements(Pieces("", Tokens(input)));
  }

  // Splitting again

  predicate KeepsAll(ts: seq<Token>) {
    forall i :: 0 <= i < |ts| ==> KeepsToken(ts[i])
  }

  lemma {:induction false} KeptLength(s: string)
    ensures |Kept(Tokens(s))| <= |s|
    ensures |Kept(Tokens(s))| == |s| <==> KeepsAll(Tokens(s))
    ensures KeepsAll(Tokens(s)) ==> Kept(Tokens(s)) == s
    decreases |s|
  {
    if s != "" {
      var t, rest := First(s);
      KeptLength(rest);
      KeepsAllCons(t, Tokens(rest));
      assert Tokens(s)[1..] == Tokens(rest);
    }
  }

  lemma {:induction false} PiecesWhole(current: string, ts: seq<Token>)
    requires KeepsAll(ts)
    ensures Pieces(current, ts) == [current + Kept(ts)]
    decreases |ts|
  {
    if ts == [] {
      assert current + "" == current;
    } else {
      PiecesWhole(current + KeptText(ts[0]), ts[1..]);
      assert current + KeptText(ts[0]) + Kept(ts[1..]) == current + (KeptText(ts[0]) + Kept(ts[1..]));
    }
  }

  lemma {:induction false} TrimAllLength(pieces: seq<string>)
    ensures |Flatten(TrimAll(pieces))| <= |Flatten(pieces)|
  {
    if pieces != [] {
      TrimAllLength(pieces[1..]);
      TrimFixed(pieces[0]);
      var head := Finish(pieces[0]);
      FlattenAppend(head, TrimAll(pieces[1..]));
      assert |head| == 1 ==> head[1..] == [];
    }
  }

  /** A text is its own only statement exactly when it is trimmed, not empty, and free of comments and separators. */
  lemma SplitFixed(s: string)
    ensures Split(s) == [s] <==> s != "" && Trimmed(s) && KeepsAll(Tokens(s))
  {
    var ts := Tokens(s);
    FlattenSnoc([], s);
    KeptLength(s);
    TrimFixed(s);
    if KeepsAll(ts) {
      PiecesWhole("", ts);
      assert "" + Kept(ts) == Kept(ts);
      assert Pieces("", ts) == [s] && [s][1..] == [];
      assert TrimAll([s]) == Finish(s) + TrimAll([]);
      SplitStatements(s);
    } else if Split(s) == [s] {
      SplitConservesText(s);
      TrimAllLength(Pieces("", ts));
    }
  }

  lemma DashesSplit()
    ensures Split("--;") == ["--"]
  {
    var d := Plain('-');
    assert Tokens(";") == [Separator] by { assert ";"[1..] == ""; }
    assert Tokens("-;") == [d, Separator] by { assert "-;"[1..] == ";"; }
    assert Tokens("--;") == [d, d, Separator] by { assert "--;"[1..] == "-;"; }
    hide Tokens;
    assert "" + KeptText(d) == "-" && "-" + KeptText(d) == "--";
    assert Pieces("--", [Separator]) == ["--", ""];
    assert Pieces("-", [d, Separator]) == ["--", ""];
    assert ["--", ""][1..] == [""] && [""][1..] == [];
    TrimFixed("--");
  }

  /** Splitting an output again can change it: a dash pair is a comment only at the end of the text. */
  lemma ResplitDiffers()
    ensures Split("--;") == ["--"] && Split("--") != ["--"]
  {
    hide Tokens, Split;
    DashesSplit();
    var t, rest := First("--");
    assert !KeepsToken(Tokens("--")[0]);
    SplitFixed("--");
  }

  // Printing and splitting

  /** A statement that stands on its own: trimmed, closed, and without comments or separators. */
  predicate Clean(s: string) {
    s != "" && Trimmed(s) && KeepsAll(Tokens(s)) && Track(Outside, s).Outside?
  }

  /** Each statement is followed by a semicolon, and statements are set on lines of their own. */
  function Script(statements: seq<string>): string {
    Join(statements, ";\n")
  }

  lemma {:induction false} QuotedExtends(q: char, s: string, x: string)
    requires IsQuote(q) && x != "" && x[0] == ';'
    requires Track(Inside(q), Quoted(q, s).0).Outside?
    ensures Quoted(q, s + x) == (Quoted(q, s).0, Quoted(q, s).1 + x)
    decreases |s|
  {
    var w := s + x;
    if s == "" {
    } else if q != '`' && |s| > 1 && ((s[0] == '\\' && s[1] != NUL) || (s[0] == q && s[1] == q)) {
      var t := Quoted(q, s[2..]).0;
      assert s[..2] == [s[0]] + [s[1]] && s[..2][1..] == [s[1]];
      TrackAppend(Inside(q), s[..2], t);
      QuotedExtends(q, s[2..], x);
      assert w[2..] == s[2..] + x && w[..2] == s[..2];
    } else if s[0] == q {
      assert w[1..] == s[1..] + x && w[..1] == s[..1];
    } else {
      var t := Quoted(q, s[1..]).0;
      TrackAppend(Inside(q), s[..1], t);
      if s[0] == '\\' && q != '`' {
        assert |s| > 1;
        EscapedNul(q, s[1..]);
      }
      QuotedExtends(q, s[1..], x);
      assert w[1..] == s[1..] + x && w[..1] == s[..1];
    }
  }

  lemma KeepsAllCons(t: Token, ts: seq<Token>)
    ensures KeepsAll([t] + ts) <==> KeepsToken(t) && KeepsAll(ts)
  {
    var all := [t] + ts;
    assert all[0] == t;
    if KeepsAll(all) {
      forall i | 0 <= i < |ts| ensures KeepsToken(ts[i]) {
        assert ts[i] == all[i + 1];
      }
    }
  }

  /** The first token of a text that ends outside quotes is closed, and the rest ends outside quotes. */
  lemma FirstClosed(s: string, t: Token, rest: string)
    requires s != "" && KeepsToken(t) && SourceText(t) + rest == s && Track(Outside, s).Outside?
    requires t.Literal? <==> IsQuote(s[0])
    requires t.Literal? ==> t.text == s[..1] + Quoted(s[0], s[1..]).0 && rest == Quoted(s[0], s[1..]).1
    ensures Track(Outside, rest).Outside?
    ensures t.Literal? ==> Track(Inside(s[0]), Quoted(s[0], s[1..]).0).Outside?
  {
    hide Quoted;
    TrackAppend(Outside, KeptText(t), rest);
    if t.Literal? {
      QuotedGuarded(s[0], s[1..]);
      assert t.text[1..] == Quoted(s[0], s[1..]).0;
    }
  }

  /** Such a token is read alike when a semicolon follows the text. */
  lemma FirstExtends(s: string, t: Token, rest: string, x: string)
    requires s != "" && x != "" && x[0] == ';' && KeepsToken(t) && SourceText(t) + rest == s
    requires t.Literal? <==> IsQuote(s[0])
    requires t.Literal? ==> t.text == s[..1] + Quoted(s[0], s[1..]).0 && rest == Quoted(s[0], s[1..]).1
    requires t.Literal? ==> Track(Inside(s[0]), Quoted(s[0], s[1..]).0).Outside?
    requires !OpensLineComment(s) && !OpensBlockComment(s) && s[0] != ';'
    ensures Tokens(s + x) == [t] + Tokens(rest + x)
  {
    hide Tokens, Quoted, LineTail, BlockTail, Track;
    var w := s + x;
    assert w[0] == s[0] && w[1..] == s[1..] + x && w[..1] == s[..1];
    if t.Literal? {
      QuotedExtends(s[0], s[1..], x);
      var t', rest' := FirstLiteral(w);
    } else {
      assert !OpensLineComment(w) && !OpensBlockComment(w);
      var t', rest' := First(w);
    }
  }

  lemma {:induction false} TokensExtend(s: string, x: string)
    requires KeepsAll(Tokens(s)) && Track(Outside, s).Outside?
    requires x != "" && x[0] == ';'
    ensures Tokens(s + x) == Tokens(s) + Tokens(x)
    decreases |s|
  {
    hide Tokens, Track, Quoted, LineTail, BlockTail;
    if s == "" {
      TokensEmpty();
      assert s + x == x;
    } else {
      var t, rest := First(s);
      KeepsAllCons(t, Tokens(rest));
      FirstClosed(s, t, rest);
      FirstExtends(s, t, rest, x);
      TokensExtend(rest, x);
    }
  }

  lemma TokensEmpty()
    ensures Tokens("") == []
  {
  }

  lemma {:induction false} PiecesCut(current: string, ts: seq<Token>, rest: seq<Token>)
    requires KeepsAll(ts)
    ensures Pieces(current, ts + [Separator] + rest) == [current + Kept(ts)] + Pieces("", rest)
    decreases |ts|
  {
    var all := ts + [Separator] + rest;
    if ts == [] {
      assert all[1..] == rest && current + "" == current;
    } else {
      assert all[1..] == ts[1..] + [Separator] + rest;
      PiecesCut(current + KeptText(ts[0]), ts[1..], rest);
      assert current + KeptText(ts[0]) + Kept(ts[1..]) == current + (KeptText(ts[0]) + Kept(ts[1..]));
    }
  }

  /** Leading white space of a script does not reach its statements. */
  lemma SplitLeadingNewline(s: string)
    ensures Split("\n" + s) == Split(s)
  {
    hide Tokens;
    var w := "\n" + s;
    var t, rest := First(w);
    PiecesPrefix("\n", "", Tokens(s));
    var ps := Pieces("", Tokens(s));
    TrimLeading("\n", ps[0]);
    assert w[1..] == s && Tokens(w)[1..] == Tokens(s);
    assert "" + KeptText(t) == "\n" + "";
    assert (["\n" + ps[0]] + ps[1..])[1..] == ps[1..];
  }

  lemma {:induction false} PiecesPrefix(a: string, current: string, ts: seq<Token>)
    ensures |Pieces(current, ts)| > 0
    ensures Pieces(a + current, ts) == [a + Pieces(current, ts)[0]] + Pieces(current, ts)[1..]
    decreases |ts|
  {
    if ts != [] && !ts[0].Separator? {
      PiecesPrefix(a, current + KeptText(ts[0]), ts[1..]);
      assert a + current + KeptText(ts[0]) == a + (current + KeptText(ts[0]));
    }
  }

  lemma TrimLeading(a: string, s: string)
    requires AllSpace(a)
    ensures Trim(a + s) == Trim(s)
  {
    var l, r := TrimSplit(s);
    TrimUnique(a + l, Trim(s), r);
    assert a + s == a + l + Trim(s) + r;
  }

  lemma SplitOne(s: string, script: string)
    requires Clean(s)
    ensures Split(s + ";\n" + script) == [s] + Split(script)
  {
    hide Tokens, Track, Quoted, LineTail, BlockTail;
    var x := ";\n" + script;
    var t, rest := First(x);
    assert x[1..] == "\n" + script && s + ";\n" + script == s + x;
    TokensExtend(s, x);
    assert Tokens(s + x) == Tokens(s) + [Separator] + Tokens(rest);
    PiecesCut("", Tokens(s), Tokens(rest));
    KeptLength(s);
    SplitLeadingNewline(script);
    TrimFixed(s);
    assert "" + s == s;
    assert ([s] + Pieces("", Tokens(rest)))[1..] == Pieces("", Tokens(rest));
  }

  /** Clean statements survive printing and splitting. */
  lemma {:induction false} SplitScript(statements: seq<string>)
    requires forall i :: 0 <= i < |statements| ==> Clean(statements[i])
    ensures Split(Script(statements)) == statements
  {
    if statements == [] {
      assert Pieces("", []) == [""] && [""][1..] == [];
      TrimFixed("");
    } else if |statements| == 1 {
      SplitFixed(statements[0]);
      assert statements == [statements[0]];
    } else {
      SplitScript(statements[1..]);
      SplitOne(statements[0], Script(statements[1..]));
      assert statements == [statements[0]] + statements[1..];
    }
  }
}
