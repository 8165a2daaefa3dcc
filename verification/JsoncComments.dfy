/** `src-tauri/src/jsonc.rs`: comments in a config text become whitespace. */
module JsoncComments {
  import opened Wrappers

  /** The lexical elements of a config text. `end` is the character that ended a
      line comment, or "" when the text ended first. */
  datatype Token =
    | Plain(c: char)
    | Quoted(text: string)
    | LineComment(body: string, end: string)
    | BlockComment(body: string)
  {
    /** The characters the element was written with. */
    function Source(): string {
      match this
      case Plain(c) => [c]
      case Quoted(text) => text
      case LineComment(body, end) => "//" + body + end
      case BlockComment(body) => "/*" + body + "*/"
    }

    /** The characters that replace it. */
    function Rendered(): string {
      match this
      case Plain(c) => [c]
      case Quoted(text) => text
      case LineComment(_, end) => " " + end
      case BlockComment(body) => " " + LineFeeds(body)
    }

    predicate IsComment() { LineComment? || BlockComment? }
  }

  function LineFeeds(s: string): string {
    if s == "" then "" else (if s[0] == '\n' then "\n" else "") + LineFeeds(s[1..])
  }

  function SourceOf(ts: seq<Token>): string {
    if ts == [] then "" else ts[0].Source() + SourceOf(ts[1..])
  }

  function RenderedOf(ts: seq<Token>): string {
    if ts == [] then "" else ts[0].Rendered() + RenderedOf(ts[1..])
  }

  // ---------------------------------------------------------------- grammar

  /** Reading a string literal after its opening quote; `Past` once a character
      follows the closing quote. */
  datatype QuoteState = Inside | Escaped | Closed | Past

  function ReadQuoted(state: QuoteState, c: char): QuoteState {
    match state
    case Inside => if c == '\\' then Escaped else if c == '"' then Closed else Inside
    case Escaped => Inside
    case Closed => Past
    case Past => Past
  }

  function QuoteStateAfter(state: QuoteState, s: string): QuoteState
    decreases |s|
  {
    if s == "" then state else QuoteStateAfter(ReadQuoted(state, s[0]), s[1..])
  }

  predicate IsLineEnd(c: char) { c == '\n' || c == '\r' }

  predicate ClosesAt(s: string, i: nat) { i + 1 < |s| && s[i] == '*' && s[i + 1] == '/' }

  ghost predicate NoClose(s: string) { forall i: nat :: !ClosesAt(s, i) }

  /** One element is well formed when the text `rest` follows it. */
  ghost predicate TokenOk(t: Token, rest: string) {
    match t
    case Plain(c) =>
      && c != '"'
      && (c == '/' && rest != "" ==> rest[0] != '/' && rest[0] != '*')
    case Quoted(text) =>
      && text != "" && text[0] == '"'
      && var state := QuoteStateAfter(Inside, text[1..]);
         state == Closed || (state in {Inside, Escaped} && rest == "")
    case LineComment(body, end) =>
      && (forall i :: 0 <= i < |body| ==> !IsLineEnd(body[i]))
      && (end == "\n" || end == "\r" || (end == "" && rest == ""))
    case BlockComment(body) => NoClose(body)
  }

  /** A reading of a text: every element is well formed where it stands, and
      `tail` follows the last one. */
  ghost predicate Lexical(ts: seq<Token>, tail: string) {
    ts == [] || (TokenOk(ts[0], SourceOf(ts[1..]) + tail) && Lexical(ts[1..], tail))
  }

  ghost predicate IsReading(ts: seq<Token>, s: string) {
    SourceOf(ts) == s && Lexical(ts, "")
  }

  /** `s` reads as `ts` up to a block comment that never closes. */
  ghost predicate IsOpenReading(ts: seq<Token>, rest: string, s: string) {
    Lexical(ts, "/*" + rest) && NoClose(rest) && s == SourceOf(ts) + ("/*" + rest)
  }

  ghost predicate LeavesCommentOpen(s: string) {
    exists ts, rest :: IsOpenReading(ts, rest, s)
  }

  // -------------------------------------------------------------- tokenizer

  function QuoteEnd(s: string, i: nat, escaped: bool): (n: nat)
    requires i <= |s|
    ensures i <= n <= |s|
    decreases |s| - i
  {
    if i == |s| then i
    else if escaped then QuoteEnd(s, i + 1, false)
    else if s[i] == '\\' then QuoteEnd(s, i + 1, true)
    else if s[i] == '"' then i + 1
    else QuoteEnd(s, i + 1, false)
  }

  function LineEnd(s: string, i: nat): (n: nat)
    requires i <= |s|
    ensures i <= n <= |s|
    ensures forall k :: i <= k < n ==> !IsLineEnd(s[k])
    ensures n < |s| ==> IsLineEnd(s[n])
    decreases |s| - i
  {
    if i == |s| || IsLineEnd(s[i]) then i else LineEnd(s, i + 1)
  }

  function BlockEnd(s: string, i: nat): (r: Option<nat>)
    requires i <= |s|
    ensures r.Some? ==> i <= r.value && ClosesAt(s, r.value)
    ensures forall k: nat :: i <= k && (r.Some? ==> k < r.value) ==> !ClosesAt(s, k)
    decreases |s| - i
  {
    if i + 1 >= |s| then None
    else if s[i] == '*' && s[i + 1] == '/' then Some(i)
    else BlockEnd(s, i + 1)
  }

  function Prepend(t: Token, r: Option<seq<Token>>): Option<seq<Token>> {
    if r.Some? then Some([t] + r.value) else None
  }

  /** The elements of `s`, or None when a block comment never closes. */
  function Tokenize(s: string): Option<seq<Token>>
    decreases |s|
  {
    if s == "" then Some([])
    else if s[0] == '"' then
      var n := QuoteEnd(s, 1, false);
      Prepend(Quoted(s[..n]), Tokenize(s[n..]))
    else if s[0] == '/' && 1 < |s| && s[1] == '/' then
      var n := LineEnd(s, 2);
      if n < |s| then Prepend(LineComment(s[2..n], [s[n]]), Tokenize(s[n + 1..]))
      else Some([LineComment(s[2..], "")])
    else if s[0] == '/' && 1 < |s| && s[1] == '*' then
      match BlockEnd(s, 2)
      case None => None
      case Some(n) => Prepend(BlockComment(s[2..n]), Tokenize(s[n + 2..]))
    else Prepend(Plain(s[0]), Tokenize(s[1..]))
  }

  function Stripped(s: string): Option<string> {
    match Tokenize(s)
    case None => None
    case Some(ts) => Some(RenderedOf(ts))
  }

  function Append(out: string, r: Option<string>): Option<string> {
    if r.Some? then Some(out + r.value) else None
  }

  // ------------------------------------------------------------- the method

  /** Reads a line comment from its opener; `blank` replaces it. */
  method SkipLineComment(raw: string, from: nat) returns (i: nat, blank: string)
    requires from + 1 < |raw| && raw[from] == '/' && raw[from + 1] == '/'
    ensures from + 2 <= i <= |raw|
    ensures var n := from + LineEnd(raw[from..], 2);
            if n < |raw| then n == i - 1 && blank == " " + [raw[n]] else n == i && blank == " "
  {
    ghost var rest := raw[from..];
    i, blank := from + 2, " ";
    while i < |raw|
      invariant from + 2 <= i <= |raw|
      invariant blank == " " && LineEnd(rest, 2) == LineEnd(rest, i - from)
    {
      var next := raw[i];
      assert rest[i - from] == next;
      i := i + 1;
      if next == '\n' || next == '\r' {
        blank := blank + [next];
        return;
      }
    }
  }

  /** Reads a block comment from its opener, keeping its line feeds. */
  method SkipBlockComment(raw: string, from: nat) returns (i: nat, blank: string, closed: bool)
    requires from + 1 < |raw| && raw[from] == '/' && raw[from + 1] == '*'
    ensures from + 2 <= i <= |raw|
    ensures var end := BlockEnd(raw[from..], 2);
            if closed then
              && from + 4 <= i && end == Some(i - from - 2)
              && blank == " " + LineFeeds(raw[from..][2..i - from - 2])
            else end.None?
  {
    ghost var rest := raw[from..];
    i, blank, closed := from + 2, " ", false;
    assert rest[2..2] == "" && LineFeeds("") == "";
    hide LineFeeds;
    while i < |raw|
      invariant from + 2 <= i <= |raw|
      invariant BlockEnd(rest, 2) == BlockEnd(rest, i - from)
      invariant blank == " " + LineFeeds(rest[2..i - from])
    {
      var next := raw[i];
      assert rest[i - from] == next;
      LineFeedsSnoc(rest[2..i - from], next);
      SliceSnoc(rest, 2, i - from);
      if next == '\n' {
        blank := blank + "\n";
      }
      i := i + 1;
      if next == '*' && i < |raw| && raw[i] == '/' {
        assert rest[i - from] == '/';
        i := i + 1;
        closed := true;
        return;
      }
    }
  }

  /** One pass over the characters, as the source does it. */
  method StripJsoncComments(raw: string) returns (r: Option<string>)
    ensures r == Stripped(raw)
  {
    var out := "";
    var i := 0;
    var inString, escaped := false, false;
    ghost var start, before := 0, "";
    hide Tokenize, RenderedOf, LineEnd, BlockEnd;
    assert raw[0..] == raw;
    AppendNothing(Stripped(raw));
    while i < |raw|
      invariant 0 <= i <= |raw|
      invariant !inString ==> Stripped(raw) == Append(out, Stripped(raw[i..]))
      invariant inString ==>
        && start < i && raw[start] == '"'
        && out == before + raw[start..i]
        && Stripped(raw) == Append(before, Stripped(raw[start..]))
        && QuoteEnd(raw[start..], 1, false) == QuoteEnd(raw[start..], i - start, escaped)
    {
      var ch := raw[i];
      ghost var from, rest, kept := i, raw[i..], out;
      if inString {
        assert raw[start..i + 1] == raw[start..i] + [ch];
        assert raw[start..][i - start] == ch;
        out := out + [ch];
        i := i + 1;
        if escaped {
          escaped := false;
        } else if ch == '\\' {
          escaped := true;
        } else if ch == '"' {
          inString := false;
          CloseQuote(raw, start, i, before, out);
        }
      } else if ch == '"' {
        inString, escaped := true, false;
        start, before := i, out;
        out := out + [ch];
        i := i + 1;
      } else if ch == '/' && i + 1 < |raw| && raw[i + 1] == '/' {
        var blank;
        i, blank := SkipLineComment(raw, i);
        out := out + blank;
        EndLineComment(raw, from, i, kept, out);
      } else if ch == '/' && i + 1 < |raw| && raw[i + 1] == '*' {
        var closed, blank;
        i, blank, closed := SkipBlockComment(raw, i);
        out := out + blank;
        if !closed {
          OpenBlockComment(raw, from, kept);
          return None;
        }
        EndBlockComment(raw, from, i, kept, out);
      } else {
        out := out + [ch];
        i := i + 1;
        KeepPlain(raw, from, kept, out);
      }
    }
    if inString {
      CloseQuote(raw, start, i, before, out);
    }
    NothingLeft(out, raw[i..]);
    r := Some(out);
  }

  lemma NothingLeft(out: string, rest: string)
    requires rest == ""
    ensures Append(out, Stripped(rest)) == Some(out)
  {
    assert out + "" == out;
  }

  lemma KeepPlain(raw: string, from: nat, kept: string, out: string)
    requires from < |raw| && raw[from] != '"' && out == kept + [raw[from]]
    requires raw[from] == '/' && from + 1 < |raw| ==> raw[from + 1] != '/' && raw[from + 1] != '*'
    ensures Append(kept, Stripped(raw[from..])) == Append(out, Stripped(raw[from + 1..]))
  {
    assert raw[from..][1..] == raw[from + 1..];
    PrependRenders(Plain(raw[from]), Tokenize(raw[from + 1..]), kept);
  }

  lemma EndLineComment(raw: string, from: nat, i: nat, kept: string, out: string)
    requires from + 2 <= i <= |raw| && raw[from] == '/' && raw[from + 1] == '/'
    requires var n := from + LineEnd(raw[from..], 2);
             if n < |raw| then n == i - 1 && out == kept + (" " + [raw[n]])
             else n == i && out == kept + " "
    ensures Append(kept, Stripped(raw[from..])) == Append(out, Stripped(raw[i..]))
  {
    var rest := raw[from..];
    var n := LineEnd(rest, 2);
    if n < |rest| {
      assert rest[n + 1..] == raw[i..];
      PrependRenders(LineComment(rest[2..n], [rest[n]]), Tokenize(raw[i..]), kept);
      assert kept + (" " + [rest[n]]) == out;
    } else {
      assert Tokenize(rest) == Some([LineComment(rest[2..], "")]);
      PrependRenders(LineComment(rest[2..], ""), Some([]), kept);
      assert [LineComment(rest[2..], "")] + [] == [LineComment(rest[2..], "")];
      assert kept + (" " + "") == out && raw[i..] == "" && out + "" == out;
      assert Tokenize(raw[i..]) == Some([]);
    }
  }

  lemma OpenBlockComment(raw: string, from: nat, kept: string)
    requires from + 1 < |raw| && raw[from] == '/' && raw[from + 1] == '*'
    requires BlockEnd(raw[from..], 2).None?
    ensures Append(kept, Stripped(raw[from..])).None?
  {
  }

  lemma EndBlockComment(raw: string, from: nat, i: nat, kept: string, out: string)
    requires from + 4 <= i <= |raw| && raw[from] == '/' && raw[from + 1] == '*'
    requires BlockEnd(raw[from..], 2) == Some(i - from - 2)
    requires out == kept + (" " + LineFeeds(raw[from..][2..i - from - 2]))
    ensures Append(kept, Stripped(raw[from..])) == Append(out, Stripped(raw[i..]))
  {
    hide BlockEnd, LineEnd, QuoteEnd, LineFeeds, RenderedOf;
    var rest := raw[from..];
    var body := rest[2..i - from - 2];
    assert rest[i - from..] == raw[i..];
    PrependRenders(BlockComment(body), Tokenize(raw[i..]), kept);
    assert kept + (" " + LineFeeds(body)) == out;
  }

  lemma CloseQuote(raw: string, start: nat, i: nat, before: string, out: string)
    requires start < i <= |raw| && raw[start] == '"'
    requires out == before + raw[start..i]
    requires QuoteEnd(raw[start..], 1, false) == i - start
    ensures Append(before, Stripped(raw[start..])) == Append(out, Stripped(raw[i..]))
  {
    var literal, text := raw[start..], raw[start..i];
    assert literal[..i - start] == text && literal[i - start..] == raw[i..];
    PrependRenders(Quoted(text), Tokenize(raw[i..]), before);
  }

  lemma PrependRenders(t: Token, r: Option<seq<Token>>, kept: string)
    ensures match r
            case None => Prepend(t, r).None?
            case Some(ts) => kept + RenderedOf(Prepend(t, r).value)
                             == kept + t.Rendered() + RenderedOf(ts)
  {
    if r.Some? { assert ([t] + r.value)[1..] == r.value; }
  }

  lemma Associative<T>(a: seq<T>, b: seq<T>, c: seq<T>)
    ensures (a + b) + c == a + (b + c)
  {
  }

  lemma AppendNothing(r: Option<string>)
    ensures Append("", r) == r
  {
    if r.Some? { assert "" + r.value == r.value; }
  }

  lemma {:induction false} LineFeedsSnoc(s: string, c: char)
    ensures LineFeeds(s + [c]) == LineFeeds(s) + if c == '\n' then "\n" else ""
    decreases |s|
  {
    LineFeedsStep(s);
    LineFeedsStep(s + [c]);
    hide LineFeeds;
    if s == "" {
      assert s + [c] == [c] && [c][1..] == "";
    } else {
      assert (s + [c])[1..] == s[1..] + [c];
      LineFeedsSnoc(s[1..], c);
    }
  }

  lemma LineFeedsStep(s: string)
    ensures LineFeeds(s) == if s == "" then "" else (if s[0] == '\n' then "\n" else "") + LineFeeds(s[1..])
    ensures LineFeeds("") == ""
  {
  }

  lemma SliceSnoc(s: string, from: nat, to: nat)
    requires from <= to < |s|
    ensures s[from..to] + [s[to]] == s[from..to + 1]
  {
  }

  // ---------------------------------------------- what the tokenizer accepts

  lemma {:induction false} QuoteEndReads(s: string, i: nat, escaped: bool)
    requires i <= |s|
    ensures var n := QuoteEnd(s, i, escaped);
            var state := QuoteStateAfter(if escaped then Escaped else Inside, s[i..n]);
            state == Closed || (state in {Inside, Escaped} && n == |s|)
    decreases |s| - i
  {
    var n := QuoteEnd(s, i, escaped);
    if i < |s| {
      if !escaped && s[i] == '"' {
        assert s[i..n] == ['"'];
        assert QuoteStateAfter(Closed, []) == Closed;
        assert s[i..n][1..] == [];
      } else {
        var escaped' := !escaped && s[i] == '\\';
        QuoteEndReads(s, i + 1, escaped');
        assert s[i..n][1..] == s[i + 1..n];
      }
    }
  }

  /** The text of `t` followed by `rest` is cut exactly after `t`. */
  lemma {:induction false} QuoteEndIsUnique(s: string, i: nat, escaped: bool, n: nat)
    requires i <= n <= |s|
    requires var state := QuoteStateAfter(if escaped then Escaped else Inside, s[i..n]);
             state == Closed || (state in {Inside, Escaped} && n == |s|)
    ensures QuoteEnd(s, i, escaped) == n
    decreases |s| - i
  {
    if i < n {
      assert s[i..n][1..] == s[i + 1..n];
      if !escaped && s[i] == '"' {
        if s[i + 1..n] != "" { PastStays(Closed, s[i + 1..n]); }
      } else {
        QuoteEndIsUnique(s, i + 1, !escaped && s[i] == '\\', n);
      }
    }
  }

  lemma {:induction false} PastStays(state: QuoteState, s: string)
    requires state == Past || (state == Closed && s != "")
    ensures QuoteStateAfter(state, s) == Past
    decreases |s|
  {
    if s != "" { PastStays(Past, s[1..]); }
  }

  lemma {:induction false} LineEndIsUnique(s: string, i: nat, n: nat)
    requires i <= n <= |s|
    requires forall k :: i <= k < n ==> !IsLineEnd(s[k])
    requires n < |s| ==> IsLineEnd(s[n])
    ensures LineEnd(s, i) == n
    decreases n - i
  {
    if i < n { LineEndIsUnique(s, i + 1, n); }
  }

  lemma StepQuoted(text: string, rest: string)
    requires TokenOk(Quoted(text), rest)
    ensures Tokenize(text + rest) == Prepend(Quoted(text), Tokenize(rest))
  {
    var s := text + rest;
    assert s[1..|text|] == text[1..];
    QuoteEndIsUnique(s, 1, false, |text|);
    assert s[..|text|] == text && s[|text|..] == rest;
  }

  lemma StepLineComment(body: string, end: string, rest: string)
    requires TokenOk(LineComment(body, end), rest)
    ensures Tokenize("//" + body + end + rest) == Prepend(LineComment(body, end), Tokenize(rest))
  {
    var s, n := "//" + body + end + rest, 2 + |body|;
    assert s[2..n] == body;
    assert forall k :: 2 <= k < n ==> s[k] == body[k - 2];
    LineEndIsUnique(s, 2, n);
    if end != "" {
      assert [s[n]] == end && s[n + 1..] == rest;
    } else {
      assert n == |s| && s[2..] == body && rest == "" && end == "";
      assert Tokenize(rest) == Some([]);
      assert [LineComment(body, "")] + [] == [LineComment(body, "")];
    }
  }

  lemma StepBlockComment(body: string, rest: string)
    requires NoClose(body)
    ensures Tokenize("/*" + body + "*/" + rest) == Prepend(BlockComment(body), Tokenize(rest))
  {
    var s, n := "/*" + body + "*/" + rest, 2 + |body|;
    assert s[2..n] == body;
    forall k: nat | 2 <= k < n ensures !ClosesAt(s, k) {
      assert s[k] == body[k - 2];
      if k + 1 < n {
        assert !ClosesAt(body, k - 2) && s[k + 1] == body[k - 1];
      } else {
        assert s[k + 1] == '*';
      }
    }
    assert ClosesAt(s, n);
    assert BlockEnd(s, 2) == Some(n);
    assert s[n + 2..] == rest;
  }

  /** The first element of a well-formed reading is the one the tokenizer finds. */
  lemma TokenizeStep(t: Token, rest: string)
    requires TokenOk(t, rest)
    ensures Tokenize(t.Source() + rest) == Prepend(t, Tokenize(rest))
  {
    match t
    case Plain(c) => assert ([c] + rest)[1..] == rest;
    case Quoted(text) => StepQuoted(text, rest);
    case LineComment(body, end) => StepLineComment(body, end, rest);
    case BlockComment(body) => StepBlockComment(body, rest);
  }

  function Before(ts: seq<Token>, r: Option<seq<Token>>): Option<seq<Token>> {
    if r.Some? then Some(ts + r.value) else None
  }

  lemma BeforeSplits(ts: seq<Token>, r: Option<seq<Token>>)
    requires ts != []
    ensures Before(ts, r) == Prepend(ts[0], Before(ts[1..], r))
  {
    if r.Some? { assert [ts[0]] + (ts[1..] + r.value) == ts + r.value; }
  }

  /** Any well-formed reading is the tokenizer's own, whatever follows it. */
  lemma {:induction false} TokenizeReads(ts: seq<Token>, tail: string)
    requires Lexical(ts, tail)
    ensures Tokenize(SourceOf(ts) + tail) == Before(ts, Tokenize(tail))
    decreases |ts|
  {
    if ts == [] {
      assert SourceOf(ts) + tail == tail;
      if Tokenize(tail).Some? { assert [] + Tokenize(tail).value == Tokenize(tail).value; }
    } else {
      var rest := SourceOf(ts[1..]) + tail;
      assert SourceOf(ts) + tail == ts[0].Source() + rest;
      TokenizeStep(ts[0], rest);
      TokenizeReads(ts[1..], tail);
      BeforeSplits(ts, Tokenize(tail));
    }
  }

  /** What the tokenizer returns is a well-formed reading of the whole text. */
  lemma {:induction false} TokenizeIsLexical(s: string)
    ensures match Tokenize(s)
            case Some(ts) => IsReading(ts, s)
            case None => LeavesCommentOpen(s)
    decreases |s|, 1
  {
    if s == "" {
    } else if s[0] == '"' {
      var n := QuoteEnd(s, 1, false);
      QuoteEndReads(s, 1, false);
      assert s[..n][1..] == s[1..n];
      ExtendReading(Quoted(s[..n]), s, s[n..]);
    } else if s[0] == '/' && 1 < |s| && s[1] == '/' {
      ReadLineComment(s);
    } else if s[0] == '/' && 1 < |s| && s[1] == '*' {
      ReadBlockComment(s);
    } else {
      assert s == Plain(s[0]).Source() + s[1..];
      ExtendReading(Plain(s[0]), s, s[1..]);
    }
  }

  lemma {:induction false} ReadLineComment(s: string)
    requires 1 < |s| && s[0] == '/' && s[1] == '/'
    ensures match Tokenize(s)
            case Some(ts) => IsReading(ts, s)
            case None => LeavesCommentOpen(s)
    decreases |s|, 0
  {
    var n := LineEnd(s, 2);
    if n < |s| {
      var t := LineComment(s[2..n], [s[n]]);
      assert s == t.Source() + s[n + 1..];
      ExtendReading(t, s, s[n + 1..]);
    } else {
      var t := LineComment(s[2..], "");
      assert Tokenize(s) == Some([t]) && [t][1..] == [];
      assert t.Source() + "" == s;
    }
  }

  lemma {:induction false} ReadBlockComment(s: string)
    requires 1 < |s| && s[0] == '/' && s[1] == '*'
    ensures match Tokenize(s)
            case Some(ts) => IsReading(ts, s)
            case None => LeavesCommentOpen(s)
    decreases |s|, 0
  {
    match BlockEnd(s, 2)
    case None =>
      var rest := s[2..];
      forall i: nat ensures !ClosesAt(rest, i) { assert !ClosesAt(s, i + 2); }
      assert SourceOf([]) + ("/*" + rest) == s;
      assert IsOpenReading([], rest, s);
    case Some(n) =>
      var t := BlockComment(s[2..n]);
      forall i: nat ensures !ClosesAt(t.body, i) {
        if i + 1 < |t.body| {
          assert t.body[i] == s[i + 2] && t.body[i + 1] == s[i + 3];
          assert !ClosesAt(s, i + 2);
        }
      }
      assert s == t.Source() + s[n + 2..];
      ExtendReading(t, s, s[n + 2..]);
  }

  lemma {:induction false} ExtendReading(t: Token, s: string, rest: string)
    requires |rest| < |s| && s == t.Source() + rest && TokenOk(t, rest)
    requires Tokenize(s) == Prepend(t, Tokenize(rest))
    ensures match Tokenize(s)
            case Some(ts) => IsReading(ts, s)
            case None => LeavesCommentOpen(s)
    decreases |rest|, 2
  {
    TokenizeIsLexical(rest);
    hide Tokenize, TokenOk, IsReading, LeavesCommentOpen;
    match Tokenize(rest)
    case Some(us) => ReadingGrows(t, s, us, rest);
    case None => OpenReadingGrows(t, s, rest);
  }

  lemma ReadingGrows(t: Token, s: string, us: seq<Token>, rest: string)
    requires s == t.Source() + rest && TokenOk(t, rest) && IsReading(us, rest)
    ensures IsReading([t] + us, s)
  {
    hide TokenOk;
    assert ([t] + us)[1..] == us && SourceOf(us) + "" == rest;
  }

  lemma OpenReadingGrows(t: Token, s: string, rest: string)
    requires s == t.Source() + rest && TokenOk(t, rest) && LeavesCommentOpen(rest)
    ensures LeavesCommentOpen(s)
  {
    hide TokenOk, NoClose;
    var us, tail :| IsOpenReading(us, tail, rest);
    var ts := [t] + us;
    assert ts[1..] == us;
    Associative(t.Source(), SourceOf(us), "/*" + tail);
    assert IsOpenReading(ts, tail, s);
  }

  // ------------------------------------------------------------ main results

  /** Success means exactly: the text has a well-formed reading, which is unique,
      and the answer is that reading with each comment replaced by whitespace. */
  lemma StripFollowsTheGrammar(s: string)
    ensures Stripped(s).Some? <==> exists ts :: IsReading(ts, s)
    ensures forall ts, us :: IsReading(ts, s) && IsReading(us, s) ==> ts == us
    ensures forall ts :: IsReading(ts, s) ==> Stripped(s) == Some(RenderedOf(ts))
  {
    TokenizeIsLexical(s);
    if Tokenize(s).Some? { assert IsReading(Tokenize(s).value, s); }
    forall ts | IsReading(ts, s) ensures Tokenize(s) == Some(ts) {
      TokenizeReads(ts, "");
      assert SourceOf(ts) + "" == s && ts + [] == ts;
    }
  }

  /** Stripping fails exactly when a block comment opens and never closes. */
  lemma StripFailsOnlyOnAnOpenComment(s: string)
    ensures Stripped(s).None? <==> LeavesCommentOpen(s)
  {
    TokenizeIsLexical(s);
    if LeavesCommentOpen(s) {
      var ts, rest :| IsOpenReading(ts, rest, s);
      TokenizeReads(ts, "/*" + rest);
      OpenCommentFails(rest);
    }
  }

  lemma OpenCommentFails(rest: string)
    requires NoClose(rest)
    ensures Tokenize("/*" + rest).None?
  {
    var s := "/*" + rest;
    if BlockEnd(s, 2).Some? {
      assert ClosesAt(rest, BlockEnd(s, 2).value - 2);
    }
  }

  function CountLineFeeds(s: string): nat { |LineFeeds(s)| }

  lemma {:induction false} LineFeedsConcat(a: string, b: string)
    ensures LineFeeds(a + b) == LineFeeds(a) + LineFeeds(b)
    decreases |a|
  {
    if a == "" {
      assert a + b == b;
    } else {
      assert (a + b)[1..] == a[1..] + b;
      LineFeedsConcat(a[1..], b);
      var first := if a[0] == '\n' then "\n" else "";
      assert (first + LineFeeds(a[1..])) + LineFeeds(b) == first + (LineFeeds(a[1..]) + LineFeeds(b));
    }
  }

  lemma {:induction false} LineFeedsOfLineFeeds(s: string)
    ensures LineFeeds(LineFeeds(s)) == LineFeeds(s)
    decreases |s|
  {
    if s != "" {
      LineFeedsOfLineFeeds(s[1..]);
      if s[0] == '\n' {
        assert LineFeeds(s)[1..] == LineFeeds(s[1..]);
      } else {
        assert LineFeeds(s) == LineFeeds(s[1..]);
      }
    }
  }

  lemma {:induction false} NoLineFeeds(s: string)
    requires forall i :: 0 <= i < |s| ==> s[i] != '\n'
    ensures LineFeeds(s) == ""
    decreases |s|
  {
    if s != "" { NoLineFeeds(s[1..]); }
  }

  lemma TokenKeepsLines(t: Token, rest: string)
    requires TokenOk(t, rest)
    ensures LineFeeds(t.Rendered()) == LineFeeds(t.Source())
  {
    match t
    case Plain(_) =>
    case Quoted(_) =>
    case LineComment(body, end) =>
      NoLineFeeds("//" + body);
      NoLineFeeds(" ");
      LineFeedsConcat("//" + body, end);
      LineFeedsConcat(" ", end);
    case BlockComment(body) =>
      NoLineFeeds("/*"); NoLineFeeds("*/"); NoLineFeeds(" ");
      LineFeedsConcat("/*" + body, "*/");
      LineFeedsConcat("/*", body);
      LineFeedsConcat(" ", LineFeeds(body));
      LineFeedsOfLineFeeds(body);
  }

  /** Every element keeps its line number: whatever elements stand before it, their
      replacements hold the same line feeds as their source. */
  lemma {:induction false} LinesAreKept(ts: seq<Token>, tail: string)
    requires Lexical(ts, tail)
    ensures LineFeeds(RenderedOf(ts)) == LineFeeds(SourceOf(ts))
    decreases |ts|
  {
    if ts != [] {
      hide TokenOk, LineFeeds;
      TokenKeepsLines(ts[0], SourceOf(ts[1..]) + tail);
      LinesAreKept(ts[1..], tail);
      LineFeedsConcat(ts[0].Source(), SourceOf(ts[1..]));
      LineFeedsConcat(ts[0].Rendered(), RenderedOf(ts[1..]));
    }
  }

  function Plains(s: string): seq<Token> {
    if s == "" then [] else [Plain(s[0])] + Plains(s[1..])
  }

  /** The output as elements: literals stay, comments are whitespace. */
  function Cleaned(ts: seq<Token>): seq<Token> {
    if ts == [] then []
    else (if ts[0].IsComment() then Plains(ts[0].Rendered()) else [ts[0]]) + Cleaned(ts[1..])
  }

  ghost predicate NoComments(ts: seq<Token>) { forall t :: t in ts ==> !t.IsComment() }

  predicate IsBlank(c: char) { c == ' ' || c == '\n' || c == '\r' }

  lemma {:induction false} PlainsAreLexical(s: string, us: seq<Token>)
    requires forall c :: c in s ==> IsBlank(c)
    requires Lexical(us, "") && NoComments(us)
    ensures var ts := Plains(s) + us;
            Lexical(ts, "") && NoComments(ts) && SourceOf(ts) == s + SourceOf(us)
    decreases |s|
  {
    if s == "" {
      assert Plains(s) + us == us && s + SourceOf(us) == SourceOf(us);
    } else {
      var rest := Plains(s[1..]) + us;
      assert forall c :: c in s[1..] ==> c in s;
      PlainsAreLexical(s[1..], us);
      BlankInFront(s[0], rest);
      Associative([Plain(s[0])], Plains(s[1..]), us);
      Associative([s[0]], s[1..], SourceOf(us));
      assert s == [s[0]] + s[1..];
    }
  }

  lemma BlankInFront(c: char, us: seq<Token>)
    requires IsBlank(c) && Lexical(us, "") && NoComments(us)
    ensures var ts := [Plain(c)] + us;
            Lexical(ts, "") && NoComments(ts) && SourceOf(ts) == [c] + SourceOf(us)
  {
    var ts := [Plain(c)] + us;
    assert ts[1..] == us;
  }

  lemma {:induction false} LineFeedsAreBlank(s: string)
    ensures forall c :: c in LineFeeds(s) ==> IsBlank(c)
    decreases |s|
  {
    if s != "" { LineFeedsAreBlank(s[1..]); }
  }

  lemma {:induction false} CleanedIsLexical(ts: seq<Token>)
    requires Lexical(ts, "")
    ensures Lexical(Cleaned(ts), "") && NoComments(Cleaned(ts))
    ensures SourceOf(Cleaned(ts)) == RenderedOf(ts)
    ensures SourceOf(ts) == "" <==> RenderedOf(ts) == ""
    ensures ts != [] && SourceOf(ts) != "" ==>
              (RenderedOf(ts)[0] == SourceOf(ts)[0] || RenderedOf(ts)[0] == ' ')
    decreases |ts|
  {
    if ts != [] {
      var t, rest := ts[0], ts[1..];
      CleanedIsLexical(rest);
      assert SourceOf(rest) + "" == SourceOf(rest);
      if t.IsComment() {
        match t {
          case BlockComment(body) => LineFeedsAreBlank(body);
          case LineComment(_, _) =>
        }
        PlainsAreLexical(t.Rendered(), Cleaned(rest));
      } else {
        var us := [t] + Cleaned(rest);
        assert us[1..] == Cleaned(rest);
        assert SourceOf(us[1..]) + "" == RenderedOf(rest);
        assert TokenOk(t, RenderedOf(rest));
      }
    }
  }

  lemma {:induction false} NoCommentsRenderVerbatim(ts: seq<Token>)
    requires NoComments(ts)
    ensures RenderedOf(ts) == SourceOf(ts)
    decreases |ts|
  {
    if ts != [] {
      assert ts[0] in ts;
      assert forall t :: t in ts[1..] ==> t in ts;
      NoCommentsRenderVerbatim(ts[1..]);
    }
  }

  /** The output holds no comment opener outside its string literals, has the
      input's line feeds, and stripping it again changes nothing. */
  lemma OutputIsCommentFree(s: string)
    requires Stripped(s).Some?
    ensures var out := Stripped(s).value;
            && (exists us :: IsReading(us, out) && NoComments(us))
            && CountLineFeeds(out) == CountLineFeeds(s)
            && Stripped(out) == Some(out)
  {
    TokenizeIsLexical(s);
    var ts := Tokenize(s).value;
    var out := RenderedOf(ts);
    LinesAreKept(ts, "");
    CleanedIsLexical(ts);
    var us := Cleaned(ts);
    TokenizeReads(us, "");
    assert SourceOf(us) + "" == out && us + [] == us;
    NoCommentsRenderVerbatim(us);
    assert IsReading(us, out);
  }
}
