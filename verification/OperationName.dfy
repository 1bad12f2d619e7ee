/**
 Finding the operation in a GraphQL document: a small lexer over ignored characters, comments,
 names and punctuation, and the first two tokens it delivers. What counts as a digit beyond
 ASCII is a parameter.
 */
module OperationName {
  import opened Options

  predicate Ignored(c: char) {
    c == ' ' || c == '\t' || c == '\n' || c == '\r' || c == ',' || c == '\U{FEFF}'
  }

  predicate NameStart(c: char) {
    c == '_' || 'A' <= c <= 'Z' || 'a' <= c <= 'z'
  }

  predicate NameChar(c: char) {
    NameStart(c) || '0' <= c <= '9'
  }

  predicate IsName(tok: string) {
    tok != "" && NameStart(tok[0]) && forall i :: 0 < i < |tok| ==> NameChar(tok[i])
  }

  const KEYWORDS := {"query", "mutation", "subscription"}

  // ---------------------------------------------------------------- what the lexer computes

  /** What follows the first newline, if there is one. */
  function AfterLine(s: string): (r: Option<string>)
    ensures r.Some? ==> |r.value| < |s|
  {
    if s == "" then None else if s[0] == '\n' then Some(s[1..]) else AfterLine(s[1..])
  }

  /** The length of the leading run of name characters. */
  function NameRun(s: string): (n: nat)
    ensures n <= |s|
  {
    if s == "" || !NameChar(s[0]) then 0 else 1 + NameRun(s[1..])
  }

  /** The next significant token and the text after it. */
  function Lex(digit: char -> bool, s: string): Option<(string, string)>
    decreases |s|
  {
    if s == "" then None
    else if s[0] == '#' then
      match AfterLine(s[1..])
      case None => None
      case Some(rest) => Lex(digit, rest)
    else if Ignored(s[0]) then Lex(digit, s[1..])
    else if NameStart(s[0]) || digit(s[0]) then
      var n := 1 + NameRun(s[1..]);
      Some((s[..n], s[n..]))
    else Some((s[..1], s[1..]))
  }

  /** Name and type of the first operation. */
  function Operation(digit: char -> bool, doc: string): (string, string) {
    match Lex(digit, doc)
    case None => ("", "")
    case Some(first) =>
      if first.0 == "{" then ("", "query")
      else if first.0 !in KEYWORDS then ("", "")
      else
        match Lex(digit, first.1)
        case None => ("", first.0)
        case Some(second) => (if IsName(second.0) then second.0 else "", first.0)
  }

  // ---------------------------------------------------------------- the lexer

  class Reader {
    const text: string
    var pos: nat

    ghost predicate Valid()
      reads this
    {
      pos <= |text|
    }

    constructor (text: string)
      ensures Valid() && this.text == text && pos == 0
    {
      this.text := text;
      pos := 0;
    }

    method NextToken(digit: char -> bool) returns (tok: Option<string>)
      requires Valid()
      modifies this
      ensures Valid()
      ensures match Lex(digit, old(text[pos..]))
              case None => tok == None
              case Some(r) => tok == Some(r.0) && text[pos..] == r.1
    {
      ghost var start := text[pos..];
      while true
        invariant Valid() && Lex(digit, text[pos..]) == Lex(digit, start)
        decreases |text| - pos
      {
        ghost var here := text[pos..];
        if pos == |text| {
          return None;
        }
        var ch := text[pos];
        pos := pos + 1;
        assert here[0] == ch && here[1..] == text[pos..];
        if ch == '#' {
          var found := SkipLine();
          if !found {
            return None;
          }
        } else if !Ignored(ch) {
          if NameStart(ch) || digit(ch) {
            var name := ReadName();
            assert here[..1 + NameRun(here[1..])] == [ch] + name;
            return Some([ch] + name);
          }
          assert here[..1] == [ch];
          return Some([ch]);
        }
      }
    }

    method SkipLine() returns (found: bool)
      requires Valid()
      modifies this
      ensures Valid() && pos >= old(pos)
      ensures match AfterLine(old(text[pos..]))
              case None => !found
              case Some(rest) => found && text[pos..] == rest
    {
      ghost var start := text[pos..];
      while true
        invariant Valid() && pos >= old(pos) && AfterLine(text[pos..]) == AfterLine(start)
        decreases |text| - pos
      {
        ghost var here := text[pos..];
        if pos == |text| {
          return false;
        }
        var c := text[pos];
        pos := pos + 1;
        assert here[0] == c && here[1..] == text[pos..];
        if c == '\n' {
          return true;
        }
      }
    }

    method ReadName() returns (name: string)
      requires Valid()
      modifies this
      ensures Valid() && pos >= old(pos)
      ensures var n := NameRun(old(text[pos..])); name == old(text[pos..])[..n] && text[pos..] == old(text[pos..])[n..]
    {
      ghost var start := text[pos..];
      name := "";
      while pos < |text| && NameChar(text[pos])
        invariant Valid() && pos == old(pos) + |name|
        invariant name == start[..|name|]
        invariant NameRun(start) == |name| + NameRun(text[pos..])
      {
        ghost var here := text[pos..];
        name := name + [text[pos]];
        pos := pos + 1;
        assert here[1..] == text[pos..];
      }
    }
  }

  method ParseDocument(digit: char -> bool, doc: string) returns (name: string, opType: string)
    ensures (name, opType) == Operation(digit, doc)
  {
    var r := new Reader(doc);
    assert doc[0..] == doc;
    var tok := r.NextToken(digit);
    if tok.None? {
      return "", "";
    }
    if tok.value == "{" {
      return "", "query";
    }
    if tok.value !in KEYWORDS {
      return "", "";
    }
    opType := tok.value;
    var next := r.NextToken(digit);
    if next.Some? && IsName(next.value) {
      return next.value, opType;
    }
    return "", opType;
  }

  // ------------------------------------------------------ the grammar (sections 2.1.7 and 2.1.9, October 2021)

  /** Text without meaning: an ignored character, or a comment up to a newline. */
  datatype Filler = Blank(c: char) | Comment(text: string)

  predicate FillerOk(f: Filler) {
    match f
    case Blank(c) => Ignored(c)
    case Comment(text) => '\n' !in text
  }

  predicate AllOk(fs: seq<Filler>) {
    forall i :: 0 <= i < |fs| ==> FillerOk(fs[i])
  }

  function Render(f: Filler): string {
    match f
    case Blank(c) => [c]
    case Comment(text) => "#" + text + "\n"
  }

  function RenderAll(fs: seq<Filler>): string {
    if fs == [] then "" else Render(fs[0]) + RenderAll(fs[1..])
  }

  /** Cannot continue a name. */
  predicate Breaks(rest: string) {
    rest != "" ==> !NameChar(rest[0])
  }

  /** The document is this named operation, with `rest` after the name. */
  ghost predicate Denotes(doc: string, opType: string, name: string, pre: seq<Filler>, gap: seq<Filler>, rest: string) {
    && AllOk(pre) && AllOk(gap) && gap != [] && opType in KEYWORDS && IsName(name) && Breaks(rest)
    && doc == RenderAll(pre) + opType + RenderAll(gap) + name + rest
  }

  lemma {:induction false} AfterComment(text: string, rest: string)
    requires '\n' !in text
    ensures AfterLine(text + "\n" + rest) == Some(rest)
  {
    var s := text + "\n" + rest;
    if text == "" {
      assert s == "\n" + rest && s[1..] == rest;
    } else {
      AfterComment(text[1..], rest);
      assert s[1..] == text[1..] + "\n" + rest;
    }
  }

  lemma OneIsSkipped(digit: char -> bool, f: Filler, rest: string)
    requires FillerOk(f)
    ensures Lex(digit, Render(f) + rest) == Lex(digit, rest)
  {
    var all := Render(f) + rest;
    match f
    case Blank(c) => assert all[1..] == rest;
    case Comment(text) =>
      assert all[1..] == text + "\n" + rest;
      AfterComment(text, rest);
  }

  lemma {:induction false} FillerIsSkipped(digit: char -> bool, fs: seq<Filler>, s: string)
    requires AllOk(fs)
    ensures Lex(digit, RenderAll(fs) + s) == Lex(digit, s)
  {
    if fs == [] {
      assert RenderAll(fs) + s == s;
    } else {
      FillerIsSkipped(digit, fs[1..], s);
      var rest := RenderAll(fs[1..]) + s;
      assert RenderAll(fs) + s == Render(fs[0]) + rest;
      OneIsSkipped(digit, fs[0], rest);
    }
  }

  lemma {:induction false} RunStops(a: string, rest: string)
    requires (forall i :: 0 <= i < |a| ==> NameChar(a[i])) && Breaks(rest)
    ensures NameRun(a + rest) == |a|
  {
    if a == "" {
      assert a + rest == rest;
    } else {
      RunStops(a[1..], rest);
      assert (a + rest)[1..] == a[1..] + rest;
    }
  }

  lemma NameIsRead(digit: char -> bool, name: string, rest: string)
    requires IsName(name) && Breaks(rest)
    ensures Lex(digit, name + rest) == Some((name, rest))
  {
    var s := name + rest;
    assert s[1..] == name[1..] + rest;
    RunStops(name[1..], rest);
    assert s[..|name|] == name && s[|name|..] == rest;
  }

  lemma KeywordsAreNames(k: string)
    requires k in KEYWORDS
    ensures IsName(k) && k != "{"
  {
  }

  lemma FillerBreaks(gap: seq<Filler>, rest: string)
    requires AllOk(gap) && gap != []
    ensures Breaks(RenderAll(gap) + rest)
  {
    assert FillerOk(gap[0]);
  }

  lemma WordIsRead(digit: char -> bool, fs: seq<Filler>, word: string, rest: string)
    requires AllOk(fs) && IsName(word) && Breaks(rest)
    ensures Lex(digit, RenderAll(fs) + (word + rest)) == Some((word, rest))
  {
    FillerIsSkipped(digit, fs, word + rest);
    NameIsRead(digit, word, rest);
  }

  lemma Regroup(a: string, b: string, c: string, d: string, e: string)
    ensures a + b + c + d + e == a + (b + (c + (d + e)))
  {
  }

  /** Every well-formed named operation is recognized, whatever surrounds the two words. */
  lemma NamedOperationIsFound(digit: char -> bool, doc: string, opType: string, name: string,
                              pre: seq<Filler>, gap: seq<Filler>, rest: string)
    requires Denotes(doc, opType, name, pre, gap, rest)
    ensures Operation(digit, doc) == (name, opType)
  {
    var after := RenderAll(gap) + (name + rest);
    Regroup(RenderAll(pre), opType, RenderAll(gap), name, rest);
    KeywordsAreNames(opType);
    FillerBreaks(gap, name + rest);
    WordIsRead(digit, pre, opType, after);
    WordIsRead(digit, gap, name, rest);
    TwoWords(digit, doc, opType, after, name, rest);
  }

  lemma TwoWords(digit: char -> bool, doc: string, opType: string, after: string, name: string, rest: string)
    requires Lex(digit, doc) == Some((opType, after)) && Lex(digit, after) == Some((name, rest))
    requires opType in KEYWORDS && opType != "{" && IsName(name)
    ensures Operation(digit, doc) == (name, opType)
  {
  }

  // ---------------------------------------------------------------- and nothing else is

  lemma {:induction false} LineSplits(s: string)
    ensures AfterLine(s).Some? ==>
              var n := |s| - |AfterLine(s).value| - 1;
              0 <= n < |s| && s[n] == '\n' && '\n' !in s[..n] && s[n + 1..] == AfterLine(s).value
  {
    if s != "" && s[0] != '\n' {
      LineSplits(s[1..]);
      if AfterLine(s).Some? {
        var n := |s| - |AfterLine(s).value| - 1;
        assert s[..n] == [s[0]] + s[1..][..n - 1];
        assert s[n + 1..] == s[1..][n..];
      }
    }
  }

  lemma {:induction false} RunIsMaximal(s: string)
    ensures (forall i :: 0 <= i < NameRun(s) ==> NameChar(s[i])) && Breaks(s[NameRun(s)..])
  {
    if s != "" && NameChar(s[0]) {
      RunIsMaximal(s[1..]);
      assert s[NameRun(s)..] == s[1..][NameRun(s[1..])..];
    }
  }

  lemma ConsFiller(f: Filler, fs: seq<Filler>, s: string, line: string, tail: string)
    requires FillerOk(f) && AllOk(fs) && s == Render(f) + line && line == RenderAll(fs) + tail
    ensures AllOk([f] + fs) && s == RenderAll([f] + fs) + tail
  {
    assert ([f] + fs)[1..] == fs;
    assert Render(f) + (RenderAll(fs) + tail) == Render(f) + RenderAll(fs) + tail;
  }

  /** What can stand at the front of a text for the lexer to stop there. */
  ghost predicate Delivered(tok: string, rest: string) {
    tok != "" && (NameStart(tok[0]) ==> Breaks(rest))
  }

  lemma TokenAtFront(digit: char -> bool, s: string)
    requires s != "" && s[0] != '#' && !Ignored(s[0])
    ensures var (tok, rest) := Lex(digit, s).value; s == tok + rest && Delivered(tok, rest)
  {
    RunIsMaximal(s[1..]);
    var n := NameRun(s[1..]);
    assert s[1 + n..] == s[1..][n..];
  }

  lemma CommentAtFront(s: string) returns (f: Filler)
    requires s != "" && s[0] == '#' && AfterLine(s[1..]).Some?
    ensures FillerOk(f) && s == Render(f) + AfterLine(s[1..]).value
  {
    LineSplits(s[1..]);
    var line := AfterLine(s[1..]).value;
    var n := |s[1..]| - |line| - 1;
    f := Comment(s[1..][..n]);
    assert s[1..] == s[1..][..n] + "\n" + line;
    assert s == "#" + s[1..];
  }

  /** A token is preceded by fillers only, and one that starts like a name cannot be continued. */
  lemma {:induction false} TokenIsPreceded(digit: char -> bool, s: string) returns (fs: seq<Filler>)
    ensures AllOk(fs)
    ensures Lex(digit, s).Some? ==>
              var (tok, rest) := Lex(digit, s).value;
              s == RenderAll(fs) + (tok + rest) && Delivered(tok, rest)
    decreases |s|
  {
    fs := [];
    if Lex(digit, s).Some? {
      var (tok, rest) := Lex(digit, s).value;
      if s[0] == '#' {
        var line := AfterLine(s[1..]).value;
        var f := CommentAtFront(s);
        fs := TokenIsPreceded(digit, line);
        ConsFiller(f, fs, s, line, tok + rest);
        fs := [f] + fs;
      } else if Ignored(s[0]) {
        fs := TokenIsPreceded(digit, s[1..]);
        ConsFiller(Blank(s[0]), fs, s, s[1..], tok + rest);
        fs := [Blank(s[0])] + fs;
      } else {
        TokenAtFront(digit, s);
        assert s == RenderAll(fs) + (tok + rest);
      }
    }
  }

  lemma NamesDoNotBreak(gap: seq<Filler>, name: string, rest: string)
    requires IsName(name)
    ensures Breaks(RenderAll(gap) + (name + rest)) ==> gap != []
  {
    assert RenderAll([]) + (name + rest) == name + rest;
    assert (name + rest)[0] == name[0];
  }

  /**
   The converse: a name is reported only for a document of that shape, so on every other input
   the name is empty; and the type is one of the three keywords or empty.
   */
  lemma OnlyNamedOperationsAreFound(digit: char -> bool, doc: string)
    returns (pre: seq<Filler>, gap: seq<Filler>, rest: string)
    ensures var (name, opType) := Operation(digit, doc);
            && (opType in KEYWORDS || opType == "")
            && (name != "" ==> Denotes(doc, opType, name, pre, gap, rest))
  {
    pre, gap, rest := [], [], "";
    var (name, opType) := Operation(digit, doc);
    if name != "" {
      pre := TokenIsPreceded(digit, doc);
      var after := Lex(digit, doc).value.1;
      gap := TokenIsPreceded(digit, after);
      rest := Lex(digit, after).value.1;
      KeywordsAreNames(opType);
      NamesDoNotBreak(gap, name, rest);
      Regroup(RenderAll(pre), opType, RenderAll(gap), name, rest);
    }
  }

  // ---------------------------------------------------------------- comments and carriage returns

  /** A comment that no newline ends swallows the rest of the document, carriage returns included. */
  lemma {:induction false} CommentNeedsNewline(digit: char -> bool, pre: seq<Filler>, text: string)
    requires AllOk(pre) && '\n' !in text
    ensures Operation(digit, RenderAll(pre) + "#" + text) == ("", "")
  {
    FillerIsSkipped(digit, pre, "#" + text);
    assert RenderAll(pre) + "#" + text == RenderAll(pre) + ("#" + text);
    NoLineEnd(text);
    assert ("#" + text)[1..] == text;
  }

  lemma {:induction false} NoLineEnd(s: string)
    requires '\n' !in s
    ensures AfterLine(s) == None
  {
    if s != "" {
      NoLineEnd(s[1..]);
    }
  }

  /**
   The specification ends a comment at a carriage return as well as at a newline, and would find
   the operation after either; the lexer finds it after a newline only.
   */
  lemma CarriageReturnDoesNotEndComment(digit: char -> bool, opType: string, name: string)
    requires opType in KEYWORDS && IsName(name)
    ensures Operation(digit, "#" + ("\r" + opType + " " + name)) == ("", "")
    ensures Operation(digit, "#\n" + opType + " " + name) == (name, opType)
  {
    KeywordsAreNames(opType);
    NamesHaveNoNewline(opType);
    NamesHaveNoNewline(name);
    var text := "\r" + opType + " " + name;
    CommentNeedsNewline(digit, [], text);
    assert RenderAll([]) + "#" + text == "#" + text;
    AfterNewline(digit, opType, name);
  }

  lemma NamesHaveNoNewline(name: string)
    requires IsName(name)
    ensures '\n' !in name
  {
    assert forall i :: 0 <= i < |name| ==> NameChar(name[i]);
  }

  lemma AfterNewline(digit: char -> bool, opType: string, name: string)
    requires opType in KEYWORDS && IsName(name)
    ensures Operation(digit, "#\n" + opType + " " + name) == (name, opType)
  {
    var doc := "#\n" + opType + " " + name;
    var pre, gap := [Comment("")], [Blank(' ')];
    RenderOne(Comment(""));
    RenderOne(Blank(' '));
    assert "#" + "" + "\n" == "#\n";
    assert doc == RenderAll(pre) + opType + RenderAll(gap) + name + "";
    NamedOperationIsFound(digit, doc, opType, name, pre, gap, "");
  }

  lemma RenderOne(f: Filler)
    ensures RenderAll([f]) == Render(f)
  {
    assert [f][1..] == [];
  }

  // ---------------------------------------------------------------- operations without a name

  /** A selection set in front is an unnamed query. */
  lemma ShorthandIsQuery(digit: char -> bool, pre: seq<Filler>, rest: string)
    requires AllOk(pre) && !digit('{')
    ensures Operation(digit, RenderAll(pre) + ("{" + rest)) == ("", "query")
  {
    FillerIsSkipped(digit, pre, "{" + rest);
    var s := "{" + rest;
    assert s[0] == '{' && s[..1] == "{";
  }

  /** Begins neither a name nor anything that is skipped. */
  predicate Unnamed(rest: string) {
    rest == "" || (!NameStart(rest[0]) && !Ignored(rest[0]) && rest[0] != '#')
  }

  /** A keyword followed by anything else than a name gives its type and no name. */
  lemma UnnamedOperation(digit: char -> bool, pre: seq<Filler>, opType: string, gap: seq<Filler>, rest: string)
    requires AllOk(pre) && AllOk(gap) && opType in KEYWORDS && Unnamed(rest)
    requires gap == [] ==> Breaks(rest)
    ensures Operation(digit, RenderAll(pre) + (opType + (RenderAll(gap) + rest))) == ("", opType)
  {
    var after := RenderAll(gap) + rest;
    KeywordsAreNames(opType);
    if gap == [] {
      assert after == rest;
    } else {
      FillerBreaks(gap, rest);
    }
    WordIsRead(digit, pre, opType, after);
    FillerIsSkipped(digit, gap, rest);
    NoNameInFront(digit, rest);
  }

  lemma NoNameInFront(digit: char -> bool, rest: string)
    requires Unnamed(rest)
    ensures Lex(digit, rest).None? || !IsName(Lex(digit, rest).value.0)
  {
    if rest != "" {
      var tok := Lex(digit, rest).value.0;
      assert tok[0] == rest[0];
    }
  }

  /** Any other word in front is not an operation. */
  lemma OtherWordsAreNoOperation(digit: char -> bool, pre: seq<Filler>, word: string, rest: string)
    requires AllOk(pre) && IsName(word) && word != "query" && word != "mutation" && word != "subscription"
    requires Breaks(rest)
    ensures Operation(digit, RenderAll(pre) + (word + rest)) == ("", "")
  {
    WordIsRead(digit, pre, word, rest);
    assert word[0] != '{';
  }

  /** The token in front: a word from a letter, an underscore or a digit on, or else a single character. */
  lemma TokenInFrontIs(digit: char -> bool, word: string, rest: string)
    requires word != "" && word[0] != '#' && !Ignored(word[0])
    requires forall i :: 0 < i < |word| ==> NameChar(word[i])
    ensures (NameStart(word[0]) || digit(word[0])) && Breaks(rest) ==> Lex(digit, word + rest) == Some((word, rest))
    ensures !NameStart(word[0]) && !digit(word[0]) ==>
              Lex(digit, word + rest) == Some(([word[0]], word[1..] + rest))
  {
    var s := word + rest;
    assert s[1..] == word[1..] + rest;
    if Breaks(rest) {
      RunStops(word[1..], rest);
    }
    assert s[..|word|] == word && s[|word|..] == rest && s[..1] == [word[0]];
  }

  /** What is skipped and what makes a name, by character codes. */
  lemma CharactersAre(c: char)
    ensures Ignored(c) <==> var n := c as int; n == 32 || n == 9 || n == 10 || n == 13 || n == 44 || n == 0xFEFF
    ensures NameStart(c) <==> var n := c as int; n == 95 || 65 <= n <= 90 || 97 <= n <= 122
    ensures NameChar(c) <==> var n := c as int; n == 95 || 65 <= n <= 90 || 97 <= n <= 122 || 48 <= n <= 57
  {
  }
}
