/**
  The two word-based tokenisers (the client's TokenParser and the server's parseArgs), and the
  quoting that the server applies to the fields of its frames.
*/
module Tokens {
  import opened Text

  /** `std::istringstream` read with `>>`: the cursor moves over whitespace and then over one word. */
  class WordStream {
    const src: string
    var pos: nat

    ghost predicate Valid()
      reads this
    {
      pos <= |src|
    }

    constructor (src: string)
      ensures Valid() && this.src == src && pos == 0
    {
      this.src := src;
      pos := 0;
    }

    /** The words not read yet. */
    ghost function Rest(): (ws: seq<string>)
      requires Valid()
      reads this
      ensures NonEmptyWords(ws)
    {
      Words(src[pos..])
    }

    method SkipSpace()
      requires Valid()
      modifies this`pos
      ensures Valid() && old(pos) <= pos && Rest() == old(Rest())
      ensures pos < |src| ==> !IsSpace(src[pos])
    {
      while pos < |src| && IsSpace(src[pos])
        invariant old(pos) <= pos <= |src|
        invariant AllSpace(src[old(pos)..pos])
      {
        assert src[old(pos)..pos + 1] == src[old(pos)..pos] + [src[pos]];
        pos := pos + 1;
      }
      WordsAfterSpace(src[old(pos)..pos], src[pos..]);
      assert src[old(pos)..] == src[old(pos)..pos] + src[pos..];
    }

    method Next() returns (ok: bool, word: string)
      requires Valid()
      modifies this`pos
      ensures Valid() && old(pos) <= pos
      ensures ok ==> old(pos) < pos && word != "" && old(Rest()) == [word] + Rest()
      ensures !ok ==> old(Rest()) == [] && Rest() == []
    {
      SkipSpace();
      word := "";
      ghost var start := pos;
      while pos < |src| && !IsSpace(src[pos])
        invariant start <= pos <= |src|
        invariant word == src[start..pos] && NoSpace(word)
        invariant pos == start < |src| ==> !IsSpace(src[pos])
      {
        word := word + [src[pos]];
        pos := pos + 1;
      }
      ok := word != "";
      assert src[start..] == word + src[pos..];
      if ok {
        WordsOfWord(word, src[pos..]);
      } else {
        assert pos == start == |src|;
      }
    }
  }

  function Last(s: string): (c: char)
    requires s != ""
  {
    s[|s| - 1]
  }

  function DropLast(s: string): (r: string)
    requires s != ""
  {
    s[..|s| - 1]
  }

  // ---------------------------------------------------------------------------
  // The client's tokeniser

  /** Collect words until one ends with a quote: the closed field and the words after it. */
  function CloseQuote(acc: string, ws: seq<string>): (r: Option<(string, seq<string>)>)
    requires NonEmptyWords(ws)
    ensures r.Some? ==> NonEmptyWords(r.value.1) && |r.value.1| < |ws|
    decreases |ws|
  {
    if ws == [] then None
    else if Last(ws[0]) == '"' then Some((DropLast(acc + " " + ws[0]), ws[1..]))
    else CloseQuote(acc + " " + ws[0], ws[1..])
  }

  /** Tokens of a word list; `None` when a quote is never closed. */
  function TokensOf(ws: seq<string>): (r: Option<seq<string>>)
    requires NonEmptyWords(ws)
    decreases |ws|
  {
    if ws == [] then Some([])
    else if ws[0][0] != '"' then Prepend(ws[0], TokensOf(ws[1..]))
    else
      var q := ws[0][1..];
      if q != "" && Last(q) == '"' then Prepend(DropLast(q), TokensOf(ws[1..]))
      else match CloseQuote(q, ws[1..])
        case None => None
        case Some((token, rest)) => Prepend(token, TokensOf(rest))
  }

  function Prepend(token: string, r: Option<seq<string>>): Option<seq<string>> {
    match r
    case None => None
    case Some(ts) => Some([token] + ts)
  }

  function Tokenise(frame: string): Option<seq<string>> {
    TokensOf(Words(frame))
  }

  function Complete(tokens: seq<string>, r: Option<seq<string>>): Option<seq<string>> {
    match r
    case None => None
    case Some(ts) => Some(tokens + ts)
  }

  lemma CompleteNothing(r: Option<seq<string>>)
    ensures Complete([], r) == r
  {
    if r.Some? {
      assert [] + r.value == r.value;
    }
  }

  lemma CompletePrepend(tokens: seq<string>, token: string, r: Option<seq<string>>)
    ensures Complete(tokens, Prepend(token, r)) == Complete(tokens + [token], r)
  {
    if r.Some? {
      assert tokens + ([token] + r.value) == tokens + [token] + r.value;
    }
  }

  /** The inner loop of both tokenisers. */
  method ReadToClosingQuote(stream: WordStream, opening: string) returns (closed: bool, quoted: string)
    requires stream.Valid()
    modifies stream`pos
    ensures stream.Valid() && old(stream.pos) <= stream.pos
    ensures CloseQuote(opening, old(stream.Rest())) == if closed then Some((quoted, stream.Rest())) else None
    ensures !closed ==> stream.Rest() == []
  {
    quoted := opening;
    while true
      invariant stream.Valid() && old(stream.pos) <= stream.pos
      invariant CloseQuote(opening, old(stream.Rest())) == CloseQuote(quoted, stream.Rest())
      decreases |stream.src| - stream.pos
    {
      ghost var before := stream.Rest();
      var more, nextWord := stream.Next();
      if !more {
        return false, quoted;
      }
      assert before[1..] == stream.Rest();
      quoted := quoted + " " + nextWord;
      if Last(nextWord) == '"' {
        return true, DropLast(quoted);
      }
    }
  }

  method ParseTokens(rawFrame: string) returns (r: Option<seq<string>>)
    ensures r == Tokenise(rawFrame)
  {
    var tokens: seq<string> := [];
    var stream := new WordStream(rawFrame);
    assert rawFrame[0..] == rawFrame;
    CompleteNothing(Tokenise(rawFrame));
    while true
      invariant stream.Valid() && stream.src == rawFrame
      invariant Tokenise(rawFrame) == Complete(tokens, TokensOf(stream.Rest()))
      decreases |rawFrame| - stream.pos
    {
      ghost var before := stream.Rest();
      var ok, word := stream.Next();
      if !ok {
        assert tokens + [] == tokens;
        return Some(tokens);
      }
      assert before[1..] == stream.Rest();
      var token := word;
      if word[0] == '"' {
        token := word[1..];
        if token != "" && Last(token) == '"' {
          token := DropLast(token);
        } else {
          var closedQuote;
          closedQuote, token := ReadToClosingQuote(stream, token);
          if !closedQuote {
            return None;
          }
        }
      }
      CompletePrepend(tokens, token, TokensOf(stream.Rest()));
      tokens := tokens + [token];
    }
  }

  // ---------------------------------------------------------------------------
  // The server's tokeniser

  /** `Undefined`: the code asks for the last character of an empty string. */
  datatype ArgParse = Args(args: seq<string>) | Undefined

  function PrependArg(arg: string, r: ArgParse): ArgParse {
    match r
    case Undefined => Undefined
    case Args(a) => Args([arg] + a)
  }

  function ArgsOf(ws: seq<string>): (r: ArgParse)
    requires NonEmptyWords(ws)
    decreases |ws|
  {
    if ws == [] then Args([])
    else if ws[0][0] != '"' then PrependArg(ws[0], ArgsOf(ws[1..]))
    else
      var q := ws[0][1..];
      if q == "" then Undefined
      else if Last(q) == '"' then PrependArg(DropLast(q), ArgsOf(ws[1..]))
      else match CloseQuote(q, ws[1..])
        case None => Args([])
        case Some((arg, rest)) => PrependArg(arg, ArgsOf(rest))
  }

  function CommandArgs(line: string): ArgParse {
    ArgsOf(Words(line))
  }

  function CompleteArgs(args: seq<string>, r: ArgParse): ArgParse {
    match r
    case Undefined => Undefined
    case Args(a) => Args(args + a)
  }

  lemma CompletePrependArg(args: seq<string>, arg: string, r: ArgParse)
    ensures CompleteArgs(args, PrependArg(arg, r)) == CompleteArgs(args + [arg], r)
  {
    if r.Args? {
      assert args + ([arg] + r.args) == args + [arg] + r.args;
    }
  }

  method ParseArgs(rawCommand: string) returns (arguments: seq<string>)
    requires CommandArgs(rawCommand) != Undefined
    ensures CommandArgs(rawCommand) == Args(arguments)
  {
    arguments := [];
    var stream := new WordStream(rawCommand);
    assert rawCommand[0..] == rawCommand;
    while true
      invariant stream.Valid() && stream.src == rawCommand
      invariant CommandArgs(rawCommand) == CompleteArgs(arguments, ArgsOf(stream.Rest()))
      decreases |rawCommand| - stream.pos
    {
      ghost var before := stream.Rest();
      var ok, word := stream.Next();
      if !ok {
        assert arguments + [] == arguments;
        return;
      }
      assert before[1..] == stream.Rest();
      var arg, complete := word, true;
      if word[0] == '"' {
        arg := word[1..];
        if Last(arg) == '"' {
          arg := DropLast(arg);
        } else {
          complete, arg := ReadToClosingQuote(stream, arg);
        }
      }
      if complete {
        CompletePrependArg(arguments, arg, ArgsOf(stream.Rest()));
        arguments := arguments + [arg];
      }
    }
  }

  // ---------------------------------------------------------------------------
  // Agreement of the two tokenisers

  /** Where the server's parse is defined it extends every successful client parse. */
  lemma {:induction false} ArgsFollowTokens(ws: seq<string>)
    requires NonEmptyWords(ws)
    requires ArgsOf(ws) != Undefined && TokensOf(ws).Some?
    ensures ArgsOf(ws) == Args(TokensOf(ws).value)
    decreases |ws|
  {
    if ws != [] {
      if ws[0][0] != '"' {
        ArgsFollowTokens(ws[1..]);
      } else {
        var q := ws[0][1..];
        if Last(q) == '"' {
          ArgsFollowTokens(ws[1..]);
        } else {
          ArgsFollowTokens(CloseQuote(q, ws[1..]).value.1);
        }
      }
    }
  }

  // ---------------------------------------------------------------------------
  // Quotes that are never closed

  /** The word opens a quote that neither it nor any later word closes. */
  predicate NeverClosed(w: string, post: seq<string>)
    requires w != "" && NonEmptyWords(post)
  {
    && w[0] == '"' && (|w| == 1 || Last(w) != '"')
    && forall i :: 0 <= i < |post| ==> Last(post[i]) != '"'
  }

  lemma {:induction false} CloseQuoteNever(acc: string, post: seq<string>)
    requires NonEmptyWords(post)
    ensures CloseQuote(acc, post).None? <==> forall i :: 0 <= i < |post| ==> Last(post[i]) != '"'
    decreases |post|
  {
    if post != [] && Last(post[0]) != '"' {
      CloseQuoteNever(acc + " " + post[0], post[1..]);
      assert forall i :: 1 <= i < |post| ==> post[i] == post[1..][i - 1];
    }
  }

  lemma {:induction false} CloseQuoteMore(acc: string, a: seq<string>, b: seq<string>)
    requires NonEmptyWords(a) && NonEmptyWords(b) && NonEmptyWords(a + b) && CloseQuote(acc, a).Some?
    ensures CloseQuote(acc, a + b) == Some((CloseQuote(acc, a).value.0, CloseQuote(acc, a).value.1 + b))
    decreases |a|
  {
    assert (a + b)[0] == a[0] && (a + b)[1..] == a[1..] + b;
    if Last(a[0]) != '"' {
      CloseQuoteMore(acc + " " + a[0], a[1..], b);
    }
  }

  /**
    Behind complete tokens, a quote that is never closed makes the client refuse the whole text, while
    the server keeps the arguments before it.
  */
  lemma {:induction false} NeverClosedAfter(pre: seq<string>, w: string, post: seq<string>)
    requires w != "" && NonEmptyWords(pre) && NonEmptyWords(post) && NeverClosed(w, post) && TokensOf(pre).Some?
    ensures NonEmptyWords(pre + ([w] + post)) && TokensOf(pre + ([w] + post)).None?
    ensures |w| > 1 ==> ArgsOf(pre + ([w] + post)) == ArgsOf(pre)
    decreases |pre|
  {
    var ws := pre + ([w] + post);
    if pre == [] {
      assert ws[0] == w && ws[1..] == post;
      CloseQuoteNever(w[1..], post);
    } else {
      assert ws[0] == pre[0] && ws[1..] == pre[1..] + ([w] + post);
      if pre[0][0] != '"' {
        NeverClosedAfter(pre[1..], w, post);
      } else {
        NeverClosedInside(pre, w, post);
      }
    }
  }

  lemma {:induction false} NeverClosedInside(pre: seq<string>, w: string, post: seq<string>)
    requires w != "" && NonEmptyWords(pre) && NonEmptyWords(post) && NeverClosed(w, post) && TokensOf(pre).Some?
    requires pre != [] && pre[0][0] == '"'
    ensures NonEmptyWords(pre + ([w] + post)) && TokensOf(pre + ([w] + post)).None?
    ensures |w| > 1 ==> ArgsOf(pre + ([w] + post)) == ArgsOf(pre)
    decreases |pre|, 0
  {
    var ws, q := pre + ([w] + post), pre[0][1..];
    assert ws[0] == pre[0] && ws[1..] == pre[1..] + ([w] + post);
    if q != "" && Last(q) == '"' {
      NeverClosedAfter(pre[1..], w, post);
    } else {
      CloseQuoteMore(q, pre[1..], [w] + post);
      NeverClosedAfter(CloseQuote(q, pre[1..]).value.1, w, post);
    }
  }

  lemma {:induction false} CloseQuoteSplit(acc: string, ws: seq<string>) returns (a: seq<string>)
    requires NonEmptyWords(ws) && CloseQuote(acc, ws).Some?
    ensures a <= ws && ws == a + CloseQuote(acc, ws).value.1 && NonEmptyWords(a)
    ensures CloseQuote(acc, a) == Some((CloseQuote(acc, ws).value.0, []))
    decreases |ws|
  {
    if Last(ws[0]) == '"' {
      a := [ws[0]];
      assert a[1..] == [];
    } else {
      var more := CloseQuoteSplit(acc + " " + ws[0], ws[1..]);
      a := [ws[0]] + more;
      assert a[1..] == more;
    }
  }

  /** The other way round: a text that the client refuses ends in a quote that is never closed. */
  lemma {:induction false} RefusedIsNeverClosed(ws: seq<string>) returns (pre: seq<string>, w: string, post: seq<string>)
    requires NonEmptyWords(ws) && TokensOf(ws).None?
    ensures w != "" && NonEmptyWords(pre) && NonEmptyWords(post) && NeverClosed(w, post)
    ensures ws == pre + ([w] + post) && TokensOf(pre).Some?
    decreases |ws|
  {
    var q := ws[0][1..];
    if ws[0][0] == '"' && (q == "" || Last(q) != '"') && CloseQuote(q, ws[1..]).None? {
      CloseQuoteNever(q, ws[1..]);
      pre, w, post := [], ws[0], ws[1..];
    } else if ws[0][0] != '"' || (q != "" && Last(q) == '"') {
      var more;
      more, w, post := RefusedIsNeverClosed(ws[1..]);
      pre := [ws[0]] + more;
      assert pre[1..] == more;
    } else {
      var closed := CloseQuoteSplit(q, ws[1..]);
      var more;
      more, w, post := RefusedIsNeverClosed(CloseQuote(q, ws[1..]).value.1);
      pre := [ws[0]] + (closed + more);
      CloseQuoteMore(q, closed, more);
      assert pre[1..] == closed + more;
      assert [] + more == more;
    }
  }

  /** The words that open a quoted token. */
  function Openers(ws: seq<string>): seq<string>
    requires NonEmptyWords(ws)
    decreases |ws|
  {
    if ws == [] then []
    else if ws[0][0] != '"' then Openers(ws[1..])
    else
      var q := ws[0][1..];
      [ws[0]] +
      (if q != "" && Last(q) == '"' then Openers(ws[1..])
       else match CloseQuote(q, ws[1..])
         case None => []
         case Some((_, rest)) => Openers(rest))
  }

  /** The server's parse is undefined exactly when a quote-opening word is a lone quote. */
  lemma {:induction false} ArgsUndefinedExactly(ws: seq<string>)
    requires NonEmptyWords(ws)
    ensures ArgsOf(ws) == Undefined <==> "\"" in Openers(ws)
    decreases |ws|
  {
    if ws != [] {
      if ws[0][0] != '"' {
        ArgsUndefinedExactly(ws[1..]);
      } else {
        var q := ws[0][1..];
        assert ws[0] == "\"" <==> q == "" by { assert ws[0] == ['"'] + q; }
        if q == "" {
          assert Openers(ws)[0] == "\"";
        } else if Last(q) == '"' {
          ArgsUndefinedExactly(ws[1..]);
        } else if CloseQuote(q, ws[1..]).Some? {
          ArgsUndefinedExactly(CloseQuote(q, ws[1..]).value.1);
        }
      }
    }
  }

  lemma {:induction false} CloseQuoteNormal(acc: string, ws: seq<string>)
    requires NonEmptyWords(ws) && (forall i :: 0 <= i < |ws| ==> NoSpace(ws[i]))
    requires Normal(acc) && (acc == "" || !IsSpace(Last(acc)))
    requires CloseQuote(acc, ws).Some?
    ensures Normal(CloseQuote(acc, ws).value.0)
    ensures forall w :: w in CloseQuote(acc, ws).value.1 ==> w in ws
    decreases |ws|
  {
    var next := acc + " " + ws[0];
    assert Normal(next) by {
      forall i | 0 < i < |next| ensures !(IsSpace(next[i - 1]) && IsSpace(next[i])) {
        if i > |acc| { assert next[i] == ws[0][i - |acc| - 1]; }
      }
    }
    if Last(ws[0]) != '"' {
      CloseQuoteNormal(next, ws[1..]);
    }
  }

  /** Whatever a client sends, no argument reaching a command holds a line break or a run of spaces. */
  lemma {:induction false} ArgsNormal(ws: seq<string>)
    requires NonEmptyWords(ws) && (forall i :: 0 <= i < |ws| ==> NoSpace(ws[i]))
    requires ArgsOf(ws).Args?
    ensures forall i :: 0 <= i < |ArgsOf(ws).args| ==> Normal(ArgsOf(ws).args[i])
    decreases |ws|
  {
    if ws != [] {
      var q := ws[0][1..];
      if ws[0][0] != '"' || Last(q) == '"' {
        ArgsNormal(ws[1..]);
      } else if CloseQuote(q, ws[1..]).Some? {
        CloseQuoteNormal(q, ws[1..]);
        var rest := CloseQuote(q, ws[1..]).value.1;
        forall i | 0 <= i < |rest| ensures NoSpace(rest[i]) {
          assert rest[i] in ws[1..];
        }
        ArgsNormal(rest);
      }
    }
  }

  // ---------------------------------------------------------------------------
  // Texts made of bare words and quoted fields

  datatype Token = Bare(text: string) | Quoted(text: string) {
    predicate Valid() {
      match this
      case Bare(w) => w != "" && NoSpace(w) && w[0] != '"'
      case Quoted(t) => '"' !in t
    }

    function Source(): string {
      match this
      case Bare(w) => w
      case Quoted(t) => "\"" + t + "\""
    }

    /** What the tokenisers make of it. */
    function Value(): string {
      match this
      case Bare(w) => w
      case Quoted(t) => Collapse(t)
    }

    /** The opening quote stands alone as a word. */
    predicate LoneQuote() {
      Quoted? && text != "" && IsSpace(text[0])
    }
  }

  datatype Item = Item(gap: string, token: Token)

  predicate Separated(items: seq<Item>, tail: string) {
    if items == [] then AllSpace(tail)
    else
      && AllSpace(items[0].gap)
      && items[0].token.Valid()
      && (|items| > 1 ==> items[1].gap != "")
      && Separated(items[1..], tail)
  }

  function Render(items: seq<Item>, tail: string): string {
    if items == [] then tail
    else items[0].gap + items[0].token.Source() + Render(items[1..], tail)
  }

  function Values(items: seq<Item>): seq<string> {
    seq(|items|, i requires 0 <= i < |items| => items[i].token.Value())
  }

  /** The words of a text in which only the very last character is a quote. */
  predicate ClosesLast(ws: seq<string>) {
    && ws != [] && NonEmptyWords(ws)
    && Last(ws[|ws| - 1]) == '"'
    && (forall i :: 0 <= i < |ws| - 1 ==> Last(ws[i]) != '"')
  }

  lemma {:induction false} WordsCloseLast(t: string)
    requires '"' !in t
    ensures ClosesLast(Words(t + "\""))
    decreases |t|
  {
    var s := t + "\"";
    if t == "" {
      WordsOfWord("\"", "");
      assert "\"" + "" == s;
    } else if IsSpace(t[0]) {
      assert s[1..] == t[1..] + "\"";
      WordsCloseLast(t[1..]);
    } else {
      var n := LeadWord(s);
      var w, rest := s[..n], s[n..];
      assert s == w + rest;
      WordsOfWord(w, rest);
      if n < |s| {
        assert n <= |t| && w == t[..n] && rest == t[n..] + "\"";
        assert w[|w| - 1] in t;
        WordsCloseLast(t[n..]);
        var ws := Words(rest);
        assert Words(s) == [w] + ws;
        forall i | 0 <= i < |ws| ensures Last(([w] + ws)[i]) != '"' {
          if i > 0 { assert ([w] + ws)[i] == ws[i - 1]; }
        }
      } else {
        assert rest == "" && w == s;
      }
    }
  }

  lemma {:induction false} CloseQuoteRun(acc: string, ws: seq<string>, rest: seq<string>)
    requires ClosesLast(ws) && NonEmptyWords(rest)
    ensures Join(ws) != ""
    ensures CloseQuote(acc, ws + rest) == Some((acc + " " + DropLast(Join(ws)), rest))
    decreases |ws|
  {
    assert (ws + rest)[0] == ws[0] && (ws + rest)[1..] == ws[1..] + rest;
    if |ws| == 1 {
      assert ws[1..] + rest == rest;
      assert DropLast(acc + " " + ws[0]) == acc + " " + DropLast(ws[0]);
    } else {
      var next := acc + " " + ws[0];
      CloseQuoteRun(next, ws[1..], rest);
      assert next + " " + DropLast(Join(ws[1..])) == acc + " " + DropLast(Join(ws)) by {
        assert DropLast(Join(ws)) == ws[0] + " " + DropLast(Join(ws[1..]));
      }
    }
  }

  lemma {:induction false} CollapseSnoc(t: string, c: char)
    requires !IsSpace(c)
    ensures Collapse(t + [c]) == Collapse(t) + [c]
    decreases |t|
  {
    if t == "" {
      assert t + [c] == [c];
      assert Collapse([c]) == [c] + Collapse([]);
    } else if IsSpace(t[0]) {
      var n := LeadSpace(t);
      assert t == t[..n] + t[n..];
      assert t + [c] == t[..n] + (t[n..] + [c]);
      CollapseSpaces(t[..n], t[n..] + [c]);
      CollapseSnoc(t[n..], c);
    } else {
      assert (t + [c])[1..] == t[1..] + [c];
      CollapseSnoc(t[1..], c);
    }
  }

  /** Collapsing a text inside quotes. */
  lemma CollapseQuoted(t: string)
    ensures Collapse("\"" + t + "\"") == "\"" + Collapse(t) + "\""
  {
    CollapseWord("\"", t + "\"");
    assert "\"" + t + "\"" == "\"" + (t + "\"");
    CollapseSnoc(t, '"');
  }

  /** The words of a quoted field: one word when it holds no space, otherwise an opening word and the rest. */
  lemma QuotedWords(t: string) returns (q: string, vs: seq<string>)
    requires '"' !in t
    ensures Words("\"" + t + "\"") == ["\"" + q] + vs
    ensures vs == [] ==> q == t + "\"" && Collapse(t) == t && !Quoted(t).LoneQuote()
    ensures vs != [] ==> ClosesLast(vs) && Join(vs) != "" && '"' !in q
    ensures vs != [] ==> Collapse(t) == q + " " + DropLast(Join(vs))
    ensures vs != [] ==> (q == "" <==> Quoted(t).LoneQuote())
  {
    var s := "\"" + t + "\"";
    var n := LeadWord(s);
    var w, after := s[..n], s[n..];
    assert s == w + after;
    WordsOfWord(w, after);
    q, vs := w[1..], Words(after);
    assert w == "\"" + q;
    assert s[1..] == t + "\"";
    assert q == s[1..][..n - 1] && after == s[1..][n - 1..];
    if n == |s| {
      assert q == t + "\"" && after == "";
      assert NoSpace(t) by { forall i | 0 <= i < |t| ensures !IsSpace(t[i]) { assert t[i] == w[i + 1]; } }
      CollapseWord(t, "");
      assert t + "" == t;
    } else {
      assert q == t[..n - 1];
      assert after == t[n - 1..] + "\"";
      WordsCloseLast(t[n - 1..]);
      CloseQuoteRun(q, vs, []);
      QuotedCollapse(t, q, vs);
      if q == "" { assert s[1] == t[0]; } else { assert q[0] == t[0] == w[1]; }
    }
  }

  lemma StripQuotes(c: string, d: string)
    requires "\"" + c + "\"" == "\"" + d
    ensures d != "" && c == DropLast(d)
  {
    assert ("\"" + c + "\"")[1..] == c + "\"";
    assert ("\"" + d)[1..] == d;
    assert DropLast(c + "\"") == c;
  }

  lemma QuotedCollapse(t: string, q: string, vs: seq<string>)
    requires vs != [] && Join(vs) != ""
    requires Words("\"" + t + "\"") == ["\"" + q] + vs
    ensures Collapse(t) == q + " " + DropLast(Join(vs))
  {
    JoinOfWords("\"" + t + "\"");
    CollapseQuoted(t);
    var ws := ["\"" + q] + vs;
    assert ws[1..] == vs;
    assert Join(ws) == "\"" + (q + " " + Join(vs));
    StripQuotes(Collapse(t), q + " " + Join(vs));
  }

  /** One quoted field at the head of a word list: both tokenisers take its collapsed text. */
  lemma QuotedField(t: string, rest: seq<string>)
    requires '"' !in t && NonEmptyWords(rest)
    ensures TokensOf(Words("\"" + t + "\"") + rest) == Prepend(Collapse(t), TokensOf(rest))
    ensures ArgsOf(Words("\"" + t + "\"") + rest) ==
            if Quoted(t).LoneQuote() then Undefined else PrependArg(Collapse(t), ArgsOf(rest))
  {
    var q, vs := QuotedWords(t);
    QuotedHead(t, q, vs, rest);
  }

  lemma QuotedHead(t: string, q: string, vs: seq<string>, rest: seq<string>)
    requires NonEmptyWords(vs) && NonEmptyWords(rest)
    requires vs == [] ==> q == t + "\"" && Collapse(t) == t && !Quoted(t).LoneQuote()
    requires vs != [] ==> ClosesLast(vs) && Join(vs) != "" && '"' !in q
    requires vs != [] ==> Collapse(t) == q + " " + DropLast(Join(vs))
    requires vs != [] ==> (q == "" <==> Quoted(t).LoneQuote())
    ensures TokensOf(["\"" + q] + vs + rest) == Prepend(Collapse(t), TokensOf(rest))
    ensures ArgsOf(["\"" + q] + vs + rest) ==
            if Quoted(t).LoneQuote() then Undefined else PrependArg(Collapse(t), ArgsOf(rest))
  {
    var w := "\"" + q;
    var all := [w] + vs + rest;
    assert all[1..] == vs + rest && all[0][1..] == q;
    if vs == [] {
      assert vs + rest == rest;
      assert DropLast(q) == t;
    } else {
      CloseQuoteRun(q, vs, rest);
      assert q != "" ==> Last(q) in q;
    }
  }

  /**
    For every list of bare words and quoted fields and every whitespace between them, the client's
    tokeniser returns the words and the collapsed fields. The server's returns the same exactly when
    no field starts with whitespace, and is undefined otherwise.
  */
  lemma {:induction false} RenderedTokens(items: seq<Item>, tail: string)
    requires Separated(items, tail)
    ensures Tokenise(Render(items, tail)) == Some(Values(items))
    ensures CommandArgs(Render(items, tail)) ==
            if exists i :: 0 <= i < |items| && items[i].token.LoneQuote() then Undefined else Args(Values(items))
    decreases |items|
  {
    if items == [] {
      WordsOfSpace(tail);
    } else {
      var more := items[1..];
      RenderedTokens(more, tail);
      RenderedWords(items, tail);
      HeadToken(items[0].token, Words(Render(more, tail)));
      assert Values(items) == [items[0].token.Value()] + Values(more);
      AnyLoneQuote(items);
    }
  }

  /** The words of a rendering: those of the first token, then the others. */
  lemma RenderedWords(items: seq<Item>, tail: string)
    requires items != [] && Separated(items, tail)
    ensures Words(Render(items, tail)) == Words(items[0].token.Source()) + Words(Render(items[1..], tail))
  {
    var gap, src, rest := items[0].gap, items[0].token.Source(), Render(items[1..], tail);
    assert WordEnd(rest);
    WordsAfterSpace(gap, src + rest);
    assert gap + src + rest == gap + (src + rest);
    WordsSplit(src, rest);
  }

  lemma AnyLoneQuote(items: seq<Item>)
    requires items != []
    ensures (exists i :: 0 <= i < |items| && items[i].token.LoneQuote()) <==>
            items[0].token.LoneQuote() || exists i :: 0 <= i < |items[1..]| && items[1..][i].token.LoneQuote()
  {
    if i :| 0 < i < |items| && items[i].token.LoneQuote() {
      assert items[1..][i - 1].token.LoneQuote();
    }
  }

  lemma HeadToken(token: Token, rest: seq<string>)
    requires token.Valid() && NonEmptyWords(rest)
    ensures TokensOf(Words(token.Source()) + rest) == Prepend(token.Value(), TokensOf(rest))
    ensures ArgsOf(Words(token.Source()) + rest) ==
            if token.LoneQuote() then Undefined else PrependArg(token.Value(), ArgsOf(rest))
  {
    match token
    case Quoted(t) => QuotedField(t, rest);
    case Bare(w) =>
      WordsOfWord(w, "");
      assert w + "" == w;
      assert ([w] + rest)[1..] == rest;
  }

  // ---------------------------------------------------------------------------
  // Protocol fields

  function Escape(v: string): (r: string) {
    if v == "" then ""
    else (if v[0] == '\\' || v[0] == '"' then ['\\', v[0]] else [v[0]]) + Escape(v[1..])
  }

  function Quote(v: string): string {
    "\"" + Escape(v) + "\""
  }

  lemma {:induction false} EscapeConcat(a: string, b: string)
    ensures Escape(a + b) == Escape(a) + Escape(b)
  {
    if a == "" {
      assert a + b == b;
    } else {
      assert (a + b)[1..] == a[1..] + b;
      EscapeConcat(a[1..], b);
    }
  }

  method QuoteProtocolField(value: string) returns (r: string)
    ensures r == Quote(value)
  {
    var escaped := "";
    for i := 0 to |value|
      invariant escaped == Escape(value[..i])
    {
      var c := value[i];
      EscapeConcat(value[..i], [c]);
      assert value[..i + 1] == value[..i] + [c];
      assert [c][1..] == "" && Escape("") == "";
      if c == '\\' || c == '"' {
        escaped := escaped + "\\";
      }
      escaped := escaped + [c];
    }
    assert value[..|value|] == value;
    r := "\"" + escaped + "\"";
  }

  /** Neither quote nor backslash. */
  predicate Plain(v: string) {
    '"' !in v && '\\' !in v
  }

  /** Escaping is the identity exactly on plain text, and otherwise adds solid characters. */
  lemma {:induction false} EscapePlain(v: string)
    ensures Plain(v) ==> Escape(v) == v
    ensures !Plain(v) ==> Solid(Escape(v)) > Solid(v)
    ensures Solid(Escape(v)) >= Solid(v)
  {
    if v != "" {
      EscapePlain(v[1..]);
      var head := if v[0] == '\\' || v[0] == '"' then ['\\', v[0]] else [v[0]];
      SolidConcat(head, Escape(v[1..]));
      assert v == [v[0]] + v[1..];
      assert Solid([v[0]]) == Solid(v) - Solid(v[1..]) by { SolidConcat([v[0]], v[1..]); }
      if |head| == 2 {
        assert head[1..] == [v[0]];
      }
    }
  }

  lemma {:induction false} CloseQuoteAll(acc: string, ws: seq<string>)
    requires NonEmptyWords(ws)
    requires CloseQuote(acc, ws).Some? && CloseQuote(acc, ws).value.1 == []
    ensures Join(ws) != "" && CloseQuote(acc, ws).value.0 == DropLast(acc + " " + Join(ws))
    decreases |ws|
  {
    if |ws| == 1 {
    } else {
      CloseQuoteAll(acc + " " + ws[0], ws[1..]);
      assert acc + " " + ws[0] + " " + Join(ws[1..]) == acc + " " + Join(ws);
    }
  }

  /** A quoted field comes back as itself exactly when it is plain and its whitespace is isolated spaces. */
  lemma FieldRoundTrip(v: string)
    ensures Tokenise(Quote(v)) == Some([v]) <==> Plain(v) && Normal(v)
  {
    EscapePlain(v);
    NormalIffCollapsed(v);
    if Plain(v) {
      PlainRoundTrip(v);
    } else if Tokenise(Quote(v)) == Some([v]) {
      SingleTokenText(v);
      SolidCollapse(Escape(v));
    }
  }

  lemma PlainRoundTrip(v: string)
    requires Plain(v)
    ensures Tokenise(Quote(v)) == Some([Collapse(v)])
  {
    EscapePlain(v);
    QuotedField(v, []);
    var ws := Words(Quote(v));
    assert ws + [] == ws;
    assert Quote(v) == "\"" + v + "\"";
    assert Prepend(Collapse(v), TokensOf([])) == Some([Collapse(v)]) by { assert [Collapse(v)] + [] == [Collapse(v)]; }
  }

  lemma SingleTokenText(v: string)
    requires Tokenise(Quote(v)) == Some([v])
    ensures v == Collapse(Escape(v))
  {
    var ws := Words(Quote(v));
    JoinOfWords(Quote(v));
    CollapseQuoted(Escape(v));
    FirstWord(Quote(v));
    SingleToken(ws, v);
    StripQuotes(Collapse(Escape(v)), Join(ws)[1..]);
  }

  lemma FirstWord(s: string)
    requires s != "" && !IsSpace(s[0])
    ensures Words(s) != [] && Words(s)[0] == [s[0]] + Words(s)[0][1..]
  {
  }

  /** If a whole word list opened by a quote is one token, the token is the joined words without the quotes. */
  lemma SingleToken(ws: seq<string>, v: string)
    requires ws != [] && NonEmptyWords(ws) && ws[0] == "\"" + ws[0][1..]
    requires TokensOf(ws) == Some([v])
    ensures |Join(ws)| >= 2 && v == DropLast(Join(ws)[1..])
    ensures Join(ws) == "\"" + Join(ws)[1..]
  {
    var q := ws[0][1..];
    if q != "" && Last(q) == '"' {
      var ts := TokensOf(ws[1..]).value;
      assert [DropLast(q)] + ts == [v];
      assert ([DropLast(q)] + ts)[0] == v;
      assert ts == [];
      NoTokensNoWords(ws[1..]);
      assert Join(ws) == ws[0];
    } else {
      var (token, rest) := CloseQuote(q, ws[1..]).value;
      var ts := TokensOf(rest).value;
      assert [token] + ts == [v];
      assert ([token] + ts)[0] == v && ts == [];
      NoTokensNoWords(rest);
      CloseQuoteAll(q, ws[1..]);
      assert Join(ws) == "\"" + (q + " " + Join(ws[1..]));
      assert Join(ws)[1..] == q + " " + Join(ws[1..]);
    }
  }

  lemma NoTokensNoWords(ws: seq<string>)
    requires NonEmptyWords(ws) && TokensOf(ws) == Some([])
    ensures ws == []
  {
  }
}
