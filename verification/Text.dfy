/** Optional values: the nil-able pointers of the Go source. */
module Options {
  datatype Option<+T> = None | Some(value: T)

  /** Keeps the incoming value when there is one, the stored value otherwise. */
  function OrElse<T>(incoming: Option<T>, stored: Option<T>): Option<T> {
    if incoming.Some? then incoming else stored
  }
}

/**
 Text as the Go `strings` package treats it: trimming by Unicode white space,
 joining, and concatenation.
 */
module Text {

  /** `unicode.IsSpace`. */
  predicate IsSpace(c: char) {
    || c == '\t' || c == '\n' || c == '\U{0B}' || c == '\U{0C}' || c == '\r' || c == ' '
    || c == '\U{85}' || c == '\U{A0}' || c == '\U{1680}' || '\U{2000}' <= c <= '\U{200A}'
    || c == '\U{2028}' || c == '\U{2029}' || c == '\U{202F}' || c == '\U{205F}' || c == '\U{3000}'
  }

  predicate AllSpace(s: string) {
    forall i :: 0 <= i < |s| ==> IsSpace(s[i])
  }

  /** Neither end of `s` is white space. */
  predicate Trimmed(s: string) {
    s == "" || (!IsSpace(s[0]) && !IsSpace(s[|s| - 1]))
  }

  function TrimLeft(s: string): string {
    if s != "" && IsSpace(s[0]) then TrimLeft(s[1..]) else s
  }

  function TrimRight(s: string): string {
    if s != "" && IsSpace(s[|s| - 1]) then TrimRight(s[..|s| - 1]) else s
  }

  /** `strings.TrimSpace`. */
  function Trim(s: string): string {
    TrimRight(TrimLeft(s))
  }

  predicate Blank(s: string) {
    Trim(s) == ""
  }

  function DefaultIfBlank(value: string, fallback: string): string {
    if Blank(value) then fallback else value
  }

  function Flatten<T>(parts: seq<seq<T>>): seq<T> {
    if parts == [] then [] else parts[0] + Flatten(parts[1..])
  }

  /** `strings.Join`. */
  function Join(parts: seq<string>, sep: string): string {
    if parts == [] then ""
    else if |parts| == 1 then parts[0]
    else parts[0] + sep + Join(parts[1..], sep)
  }

  function LowerChar(c: char): char {
    if 'A' <= c <= 'Z' then c - 'A' + 'a' else c
  }

  /** `strings.ToLower`, on the ASCII letters. */
  function ToLower(s: string): string {
    seq(|s|, i requires 0 <= i < |s| => LowerChar(s[i]))
  }

  predicate HasPrefix(s: string, prefix: string) {
    |prefix| <= |s| && s[..|prefix|] == prefix
  }

  /** `strings.TrimPrefix`. */
  function TrimPrefix(s: string, prefix: string): string {
    if HasPrefix(s, prefix) then s[|prefix|..] else s
  }

  lemma {:induction false} TrimLeftUnique(a: string, r: string)
    requires AllSpace(a) && (r == "" || !IsSpace(r[0]))
    ensures TrimLeft(a + r) == r
  {
    if a == "" {
      assert a + r == r;
    } else {
      assert (a + r)[1..] == a[1..] + r;
      TrimLeftUnique(a[1..], r);
    }
  }

  lemma {:induction false} TrimRightUnique(r: string, b: string)
    requires AllSpace(b) && (r == "" || !IsSpace(r[|r| - 1]))
    ensures TrimRight(r + b) == r
  {
    if b == "" {
      assert r + b == r;
    } else {
      assert (r + b)[..|r + b| - 1] == r + b[..|b| - 1];
      TrimRightUnique(r, b[..|b| - 1]);
    }
  }

  /** Trimming removes exactly the surrounding white space. */
  lemma TrimUnique(a: string, r: string, b: string)
    requires AllSpace(a) && AllSpace(b) && Trimmed(r)
    ensures Trim(a + r + b) == r
  {
    if r == "" {
      TrimLeftUnique(a + b, "");
      assert a + r + b == a + b + "";
    } else {
      TrimLeftUnique(a, r + b);
      assert a + r + b == a + (r + b);
      TrimRightUnique(r, b);
    }
  }

  lemma {:induction false} TrimLeftSplit(s: string) returns (a: string)
    ensures AllSpace(a) && s == a + TrimLeft(s)
    ensures TrimLeft(s) == "" || !IsSpace(TrimLeft(s)[0])
  {
    a := "";
    if s != "" && IsSpace(s[0]) {
      var tail := TrimLeftSplit(s[1..]);
      a := [s[0]] + tail;
    }
  }

  lemma {:induction false} TrimRightSplit(s: string) returns (b: string)
    ensures AllSpace(b) && s == TrimRight(s) + b
    ensures TrimRight(s) == "" || !IsSpace(TrimRight(s)[|TrimRight(s)| - 1])
  {
    b := "";
    if s != "" && IsSpace(s[|s| - 1]) {
      var head := TrimRightSplit(s[..|s| - 1]);
      b := head + [s[|s| - 1]];
    }
  }

  /** Every text is its trimmed core between two runs of white space. */
  lemma TrimSplit(s: string) returns (a: string, b: string)
    ensures AllSpace(a) && AllSpace(b) && s == a + Trim(s) + b && Trimmed(Trim(s))
  {
    a := TrimLeftSplit(s);
    b := TrimRightSplit(TrimLeft(s));
    assert s == a + Trim(s) + b;
  }

  /** The fixed points of trimming are the trimmed texts. */
  lemma TrimFixed(s: string)
    ensures Trim(s) == s <==> Trimmed(s)
    ensures Trim(Trim(s)) == Trim(s)
    ensures |Trim(s)| <= |s|
  {
    var a, b := TrimSplit(s);
    TrimUnique("", Trim(s), "");
    assert "" + Trim(s) + "" == Trim(s);
    if Trimmed(s) {
      TrimUnique("", s, "");
      assert "" + s + "" == s;
    }
  }

  lemma {:induction false} FlattenAppend<T>(a: seq<seq<T>>, b: seq<seq<T>>)
    ensures Flatten(a + b) == Flatten(a) + Flatten(b)
  {
    if a == [] {
      assert a + b == b;
    } else {
      assert (a + b)[1..] == a[1..] + b;
      FlattenAppend(a[1..], b);
    }
  }

  lemma FlattenSnoc<T>(a: seq<seq<T>>, x: seq<T>)
    ensures Flatten(a + [x]) == Flatten(a) + x
  {
    FlattenAppend(a, [x]);
    assert [x][1..] == [];
  }

  /** Every character with Unicode's White_Space property is trimmed, and no other. */
  lemma SpacesAreTrimmed(c: char)
    ensures Trim([c]) == "" <==> c as int in {
      0x09, 0x0A, 0x0B, 0x0C, 0x0D, 0x20, 0x85, 0xA0, 0x1680, 0x2000, 0x2001, 0x2002, 0x2003, 0x2004, 0x2005, 0x2006,
      0x2007, 0x2008, 0x2009, 0x200A, 0x2028, 0x2029, 0x202F, 0x205F, 0x3000
    }
  {
    TrimFixed([c]);
    if IsSpace(c) {
      TrimUnique([c], "", "");
      assert [c] + "" + "" == [c];
    }
    hide Trim;
  }

  /** Capital letters are lowered to the letters in their place, and nothing else is changed. */
  lemma LettersAreLowered(s: string, k: nat)
    requires k < |s|
    ensures |ToLower(s)| == |s|
    ensures
      var capital, small := "ABCDEFGHIJKLMNOPQRSTUVWXYZ", "abcdefghijklmnopqrstuvwxyz";
      && (forall n :: 0 <= n < 26 && s[k] == capital[n] ==> ToLower(s)[k] == small[n])
      && (s[k] !in capital ==> ToLower(s)[k] == s[k])
  {
    var capital := "ABCDEFGHIJKLMNOPQRSTUVWXYZ";
    assert forall n :: 0 <= n < 26 ==> capital[n] == 'A' + n as char;
    if 'A' <= s[k] <= 'Z' {
      assert capital[(s[k] - 'A') as int] == s[k];
    }
  }
}
