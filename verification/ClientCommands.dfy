/**
  The client's validate-then-send path, from the typed line to the command frame, and what the
  server's tokeniser makes of the frames it sends.
*/
module ClientCommands {
  import opened Text
  import opened Tokens

  // ---------------------------------------------------------------------------
  // Command schemas

  const MAX_NAME: nat := 32
  const MAX_BODY: nat := 512
  const MAX_UUID: nat := 36

  datatype Schema = Schema(name: string, minArgs: nat, maxArgs: nat, maxLens: seq<nat>)

  const SCHEMAS: seq<Schema> := [
    Schema("/login", 1, 1, [MAX_NAME, 0, 0]),
    Schema("/logout", 0, 0, [0, 0, 0]),
    Schema("/users", 0, 0, [0, 0, 0]),
    Schema("/user", 1, 1, [MAX_UUID, 0, 0]),
    Schema("/send", 2, 2, [MAX_UUID, MAX_BODY, 0]),
    Schema("/messages", 1, 1, [MAX_UUID, 0, 0]),
    Schema("/subscribe", 1, 1, [MAX_UUID, 0, 0]),
    Schema("/subscribed", 0, 1, [MAX_UUID, 0, 0]),
    Schema("/unsubscribe", 1, 1, [MAX_UUID, 0, 0]),
    Schema("/use", 0, 3, [MAX_UUID, MAX_UUID, MAX_UUID]),
    Schema("/create", 1, 1, [MAX_BODY, 0, 0]),
    Schema("/create", 2, 2, [MAX_NAME, MAX_BODY, 0]),
    Schema("/list", 0, 0, [0, 0, 0]),
    Schema("/info", 0, 0, [0, 0, 0])
  ]

  predicate Supported(command: string) {
    exists i :: 0 <= i < |SCHEMAS| && SCHEMAS[i].name == command
  }

  predicate Fits(schema: Schema, command: string, argc: nat) {
    schema.name == command && schema.minArgs <= argc <= schema.maxArgs
  }

  /** What every command name has in common. */
  predicate CommandName(c: string) {
    |c| > 1 && c[0] == '/' && NoSpace(c) && c[|c| - 1] != '"' && c != "/help"
  }

  lemma SchemasWellFormed(i: nat)
    requires i < |SCHEMAS|
    ensures CommandName(SCHEMAS[i].name)
    ensures SCHEMAS[i].maxArgs <= |SCHEMAS[i].maxLens|
  {
  }

  method IsSupportedServerCommand(command: string) returns (r: bool)
    ensures r == Supported(command)
  {
    for i := 0 to |SCHEMAS|
      invariant forall j :: 0 <= j < i ==> SCHEMAS[j].name != command
    {
      if SCHEMAS[i].name == command {
        return true;
      }
    }
    return false;
  }

  /** Index of the first schema of that name that admits that many arguments. */
  function SchemaFrom(command: string, argc: nat, from: nat): (r: Option<nat>)
    requires from <= |SCHEMAS|
    ensures r.Some? ==> from <= r.value < |SCHEMAS| && Fits(SCHEMAS[r.value], command, argc)
    ensures r.Some? ==> forall j :: from <= j < r.value ==> !Fits(SCHEMAS[j], command, argc)
    ensures r.None? ==> forall j :: from <= j < |SCHEMAS| ==> !Fits(SCHEMAS[j], command, argc)
    decreases |SCHEMAS| - from
  {
    if from == |SCHEMAS| then None
    else if Fits(SCHEMAS[from], command, argc) then Some(from)
    else SchemaFrom(command, argc, from + 1)
  }

  method FindSchema(command: string, argc: nat) returns (r: Option<nat>)
    ensures r == SchemaFrom(command, argc, 0)
  {
    for i := 0 to |SCHEMAS|
      invariant SchemaFrom(command, argc, 0) == SchemaFrom(command, argc, i)
    {
      if SCHEMAS[i].name == command && argc >= SCHEMAS[i].minArgs && argc <= SCHEMAS[i].maxArgs {
        return Some(i);
      }
    }
    return None;
  }

  // ---------------------------------------------------------------------------
  // Quoted arguments

  function FindQuote(s: string): (n: nat)
    ensures n <= |s| && '"' !in s[..n]
    ensures n < |s| ==> s[n] == '"'
  {
    if s == "" || s[0] == '"' then 0
    else
      var m := FindQuote(s[1..]);
      assert s[..m + 1] == [s[0]] + s[1..][..m];
      m + 1
  }

  lemma {:induction false} FindQuoteIs(a: string, b: string)
    requires '"' !in a && b != "" && b[0] == '"'
    ensures FindQuote(a + b) == |a|
  {
    if a == "" {
      assert a + b == b;
    } else {
      assert (a + b)[1..] == a[1..] + b;
      FindQuoteIs(a[1..], b);
    }
  }

  function TrimLeft(line: string): string {
    line[LeadSpace(line)..]
  }

  /** Where the field that opens the text ends: at its closing quote, or at the end of the text. */
  function FieldEnd(t: string): (n: nat)
    requires t != ""
    ensures 0 < n <= |t|
  {
    1 + FindQuote(t[1..])
  }

  /** Only quoted fields, with or without whitespace between them. */
  predicate QuotedRun(s: string)
    decreases |s|
  {
    var t := TrimLeft(s);
    t == "" || (t[0] == '"' && FieldEnd(t) < |t| && QuotedRun(t[FieldEnd(t) + 1..]))
  }

  predicate Fields(items: seq<Item>, tail: string) {
    && AllSpace(tail)
    && forall i :: 0 <= i < |items| ==>
         AllSpace(items[i].gap) && items[i].token.Quoted? && items[i].token.Valid()
  }

  lemma TrimIs(gap: string, body: string)
    requires AllSpace(gap) && (body == "" || !IsSpace(body[0]))
    ensures TrimLeft(gap + body) == body
  {
    LeadSpaceIs(gap, body);
  }

  lemma FieldEndIs(t: string, rest: string)
    requires '"' !in t
    ensures var body := "\"" + t + "\"" + rest; FieldEnd(body) == |t| + 1 && body[|t| + 2..] == rest
  {
    var body := "\"" + t + "\"" + rest;
    assert body[1..] == t + ("\"" + rest);
    FindQuoteIs(t, "\"" + rest);
  }

  lemma QuotedRunStep(s: string, gap: string, t: string, rest: string)
    requires s == gap + "\"" + t + "\"" + rest && AllSpace(gap) && '"' !in t
    ensures QuotedRun(s) == QuotedRun(rest)
  {
    var body := "\"" + t + "\"" + rest;
    assert s == gap + body;
    TrimIs(gap, body);
    FieldEndIs(t, rest);
  }

  lemma RenderField(items: seq<Item>, tail: string)
    requires items != [] && items[0].token.Quoted?
    ensures Render(items, tail) == items[0].gap + "\"" + items[0].token.text + "\"" + Render(items[1..], tail)
  {
    var g, t, rest := items[0].gap, items[0].token.text, Render(items[1..], tail);
    assert g + ("\"" + t + "\"") + rest == g + "\"" + t + "\"" + rest;
  }

  /** Every rendering of quoted fields is accepted... */
  lemma {:induction false} FieldsAreQuotedRun(items: seq<Item>, tail: string)
    requires Fields(items, tail)
    ensures QuotedRun(Render(items, tail))
    decreases |items|
  {
    if items == [] {
      BlankIsQuotedRun(tail);
    } else {
      var more := items[1..];
      FieldsAreQuotedRun(more, tail);
      RenderField(items, tail);
      QuotedRunStep(Render(items, tail), items[0].gap, items[0].token.text, Render(more, tail));
    }
  }

  /** One unfolding of the definition. */
  lemma RunHead(s: string)
    requires QuotedRun(s) && TrimLeft(s) != ""
    ensures var t := TrimLeft(s); t[0] == '"' && FieldEnd(t) < |t| && QuotedRun(t[FieldEnd(t) + 1..])
  {
  }

  lemma FieldBefore(gap: string, t: string)
    requires t != "" && t[0] == '"' && FieldEnd(t) < |t|
    ensures var n := FieldEnd(t); '"' !in t[1..n] && gap + t == gap + "\"" + t[1..n] + "\"" + t[n + 1..]
  {
    var n := FieldEnd(t);
    assert t[1..n] == t[1..][..n - 1];
    assert t[n] == t[1..][n - 1] == '"';
    assert t == "\"" + t[1..n] + "\"" + t[n + 1..];
  }

  lemma SplitGap(s: string) returns (gap: string)
    ensures s == gap + TrimLeft(s) && AllSpace(gap)
  {
    gap := s[..LeadSpace(s)];
  }

  /** The first field of a run. */
  lemma CutRun(s: string) returns (gap: string, field: string, rest: string)
    requires QuotedRun(s) && TrimLeft(s) != ""
    ensures s == gap + "\"" + field + "\"" + rest && AllSpace(gap) && '"' !in field && QuotedRun(rest)
  {
    var t := TrimLeft(s);
    gap := SplitGap(s);
    RunHead(s);
    FieldBefore(gap, t);
    field, rest := t[1..FieldEnd(t)], t[FieldEnd(t) + 1..];
  }

  /** ... and nothing else is. */
  lemma {:induction false} QuotedRunIsFields(s: string) returns (items: seq<Item>, tail: string)
    requires QuotedRun(s)
    ensures Fields(items, tail) && s == Render(items, tail)
    decreases |s|
  {
    if TrimLeft(s) == "" {
      items, tail := [], s;
      assert s[..|s|] == s;
    } else {
      var gap, field, rest := CutRun(s);
      var more;
      more, tail := QuotedRunIsFields(rest);
      items := [Item(gap, Quoted(field))] + more;
      assert items[1..] == more;
      RenderField(items, tail);
    }
  }

  lemma BlankIsQuotedRun(s: string)
    requires AllSpace(s)
    ensures QuotedRun(s)
  {
    LeadSpaceIs(s, "");
    assert s + "" == s;
  }

  lemma BareIsNotQuotedRun(gap: string, t: string)
    requires AllSpace(gap) && t != "" && !IsSpace(t[0]) && t[0] != '"'
    ensures !QuotedRun(gap + t)
  {
    LeadSpaceIs(gap, t);
    assert (gap + t)[|gap|..] == t;
  }

  lemma OpenIsNotQuotedRun(gap: string, t: string)
    requires AllSpace(gap) && '"' !in t
    ensures !QuotedRun(gap + "\"" + t)
  {
    var s := gap + ("\"" + t);
    assert s == gap + "\"" + t;
    LeadSpaceIs(gap, "\"" + t);
    assert s[|gap|..] == "\"" + t;
    assert ("\"" + t)[1..] == t;
  }

  lemma CutField(s: string, start: nat, open: nat, close: nat)
    requires start <= open < close <= |s| && s[open] == '"' && (close < |s| ==> s[close] == '"')
    ensures close < |s| ==>
              s[start..] == s[start..open] + "\"" + s[open + 1..close] + "\"" + s[close + 1..]
    ensures close == |s| ==> s[start..] == s[start..open] + "\"" + s[open + 1..close]
  {
  }

  lemma FieldStep(s: string, start: nat, open: nat, close: nat, next: nat)
    requires start <= open < close < |s| && s[open] == '"' && s[close] == '"' && next == close + 1
    requires AllSpace(s[start..open]) && '"' !in s[open + 1..close]
    ensures QuotedRun(s[start..]) == QuotedRun(s[next..])
  {
    CutField(s, start, open, close);
    QuotedRunStep(s[start..], s[start..open], s[open + 1..close], s[next..]);
  }

  lemma BlankStep(s: string, start: nat)
    requires start <= |s| && AllSpace(s[start..|s|])
    ensures QuotedRun(s[start..]) && QuotedRun(s[|s|..])
  {
    assert s[start..|s|] == s[start..];
    BlankIsQuotedRun(s[start..]);
    BlankIsQuotedRun(s[|s|..]);
  }

  lemma BareStep(s: string, start: nat, open: nat)
    requires start <= open < |s| && AllSpace(s[start..open]) && !IsSpace(s[open]) && s[open] != '"'
    ensures !QuotedRun(s[start..])
  {
    BareIsNotQuotedRun(s[start..open], s[open..]);
    assert s[start..] == s[start..open] + s[open..];
  }

  lemma OpenStep(s: string, start: nat, open: nat)
    requires start <= open < |s| && AllSpace(s[start..open]) && s[open] == '"' && '"' !in s[open + 1..|s|]
    ensures !QuotedRun(s[start..])
  {
    CutField(s, start, open, |s|);
    OpenIsNotQuotedRun(s[start..open], s[open + 1..|s|]);
  }

  /** One turn of the scan: past one quoted field, or past trailing whitespace. */
  method SkipField(s: string, start: nat) returns (ok: bool, pos: nat)
    requires start < |s|
    ensures ok ==> start < pos <= |s| && QuotedRun(s[start..]) == QuotedRun(s[pos..])
    ensures !ok ==> !QuotedRun(s[start..])
  {
    var open := SkipSpaces(s, start);
    if open >= |s| {
      BlankStep(s, start);
      return true, open;
    }
    if s[open] != '"' {
      BareStep(s, start, open);
      return false, open;
    }
    var close := SkipToQuote(s, open + 1);
    if close >= |s| {
      OpenStep(s, start, open);
      return false, close;
    }
    pos := close + 1;
    FieldStep(s, start, open, close, pos);
    return true, pos;
  }

  method HasUnquotedArgs(argsView: string) returns (r: bool)
    ensures r == !QuotedRun(argsView)
  {
    var pos := 0;
    assert argsView[0..] == argsView;
    while pos < |argsView|
      invariant pos <= |argsView|
      invariant QuotedRun(argsView) == QuotedRun(argsView[pos..])
      decreases |argsView| - pos
    {
      var ok, next := SkipField(argsView, pos);
      if !ok {
        return true;
      }
      pos := next;
    }
    BlankIsQuotedRun(argsView[pos..]);
    return false;
  }

  method SkipSpaces(s: string, from: nat) returns (pos: nat)
    requires from <= |s|
    ensures pos == from + LeadSpace(s[from..]) <= |s|
    ensures AllSpace(s[from..pos]) && (pos < |s| ==> !IsSpace(s[pos]))
  {
    pos := from;
    while pos < |s| && IsSpace(s[pos])
      invariant from <= pos <= |s|
      invariant AllSpace(s[from..pos])
    {
      assert s[from..pos + 1] == s[from..pos] + [s[pos]];
      pos := pos + 1;
    }
    LeadSpaceIs(s[from..pos], s[pos..]);
    assert s[from..] == s[from..pos] + s[pos..];
  }

  method SkipToQuote(s: string, from: nat) returns (pos: nat)
    requires from <= |s|
    ensures from <= pos <= |s| && '"' !in s[from..pos] && (pos < |s| ==> s[pos] == '"')
  {
    pos := from;
    while pos < |s| && s[pos] != '"'
      invariant from <= pos <= |s|
      invariant '"' !in s[from..pos]
    {
      assert s[from..pos + 1] == s[from..pos] + [s[pos]];
      pos := pos + 1;
    }
  }

  method Trim(line: string) returns (r: string)
    ensures r == TrimLeft(line)
  {
    var index := SkipSpaces(line, 0);
    assert line[0..] == line;
    r := line[index..];
  }

  // ---------------------------------------------------------------------------
  // Validation and dispatch

  datatype Refusal = Unquoted | Unclosed | WrongCount | TooLong(index: nat)

  function LongArg(tokens: seq<string>, maxLens: seq<nat>, from: nat): (r: Option<nat>)
    requires from <= |tokens| <= |maxLens|
    ensures r.Some? ==> from <= r.value < |tokens| && |tokens[r.value]| > maxLens[r.value]
    ensures r.None? <==> forall i :: from <= i < |tokens| ==> |tokens[i]| <= maxLens[i]
    decreases |tokens| - from
  {
    if from == |tokens| then None
    else if |tokens[from]| > maxLens[from] then Some(from)
    else LongArg(tokens, maxLens, from + 1)
  }

  function Validate(command: string, args: string): (r: Option<Refusal>) {
    if !QuotedRun(args) then Some(Unquoted)
    else match Tokenise(args)
      case None => Some(Unclosed)
      case Some(tokens) =>
        match SchemaFrom(command, |tokens|, 0)
        case None => Some(WrongCount)
        case Some(i) =>
          SchemasWellFormed(i);
          match LongArg(tokens, SCHEMAS[i].maxLens, 0)
          case None => None
          case Some(j) => Some(TooLong(j))
  }

  method ValidateArgs(command: string, argsView: string) returns (r: Option<Refusal>)
    ensures r == Validate(command, argsView)
  {
    var unquoted := HasUnquotedArgs(argsView);
    if unquoted {
      return Some(Unquoted);
    }
    var tokens := ParseTokens(argsView);
    if tokens.None? {
      return Some(Unclosed);
    }
    var schema := FindSchema(command, |tokens.value|);
    if schema.None? {
      return Some(WrongCount);
    }
    SchemasWellFormed(schema.value);
    var long := FindLongArg(tokens.value, SCHEMAS[schema.value].maxLens);
    if long.Some? {
      return Some(TooLong(long.value));
    }
    return None;
  }

  method FindLongArg(tokens: seq<string>, maxLens: seq<nat>) returns (r: Option<nat>)
    requires |tokens| <= |maxLens|
    ensures r == LongArg(tokens, maxLens, 0)
  {
    for i := 0 to |tokens|
      invariant LongArg(tokens, maxLens, 0) == LongArg(tokens, maxLens, i)
    {
      if |tokens[i]| > maxLens[i] {
        return Some(i);
      }
    }
    return None;
  }

  datatype Dispatch =
    | Blank
    | BadFormat
    | Help
    | Unknown(command: string)
    | Refused(reason: Refusal)
    | Sent(command: string, frame: string)

  function DispatchLine(line: string): (r: Dispatch) {
    var t := TrimLeft(line);
    if t == "" then Blank
    else match Tokenise(t)
      case None => BadFormat
      case Some(tokens) =>
        if tokens == [] then BadFormat
        else
          var c := tokens[0];
          if c == "/help" then Help
          else if c == "" || c[0] != '/' then BadFormat
          else if !Supported(c) then Unknown(c)
          else
            FirstTokenFits(t);
            match Validate(c, t[|c|..])
            case Some(reason) => Refused(reason)
            case None => Sent(c, c + t[|c|..])
  }

  method DispatchCommandLine(line: string) returns (r: Dispatch)
    ensures r == DispatchLine(line)
  {
    var trimmedLine := Trim(line);
    if trimmedLine == "" {
      return Blank;
    }
    var tokens := ParseTokens(trimmedLine);
    if tokens.None? || tokens.value == [] {
      return BadFormat;
    }
    var command := tokens.value[0];
    if command == "/help" {
      return Help;
    }
    if command == "" || command[0] != '/' {
      return BadFormat;
    }
    var supported := IsSupportedServerCommand(command);
    if !supported {
      return Unknown(command);
    }
    FirstTokenFits(trimmedLine);
    var argsView := trimmedLine[|command|..];
    var err := ValidateArgs(command, argsView);
    if err.Some? {
      return Refused(err.value);
    }
    return Sent(command, command + argsView);
  }

  // ---------------------------------------------------------------------------
  // The first token of a line

  lemma {:induction false} WordsShort(s: string)
    ensures |Join(Words(s))| <= |s|
    decreases |s|
  {
    if s == "" {
    } else if IsSpace(s[0]) {
      WordsShort(s[1..]);
    } else {
      var n := LeadWord(s);
      WordsShort(s[n..]);
      var ws := Words(s[n..]);
      assert ([s[..n]] + ws)[1..] == ws;
      if ws != [] && n < |s| {
        assert s[n..][1..] == s[n + 1..];
        WordsShort(s[n + 1..]);
        assert Words(s[n..]) == Words(s[n + 1..]);
      }
    }
  }

  lemma {:induction false} CloseQuoteShort(acc: string, ws: seq<string>)
    requires NonEmptyWords(ws) && CloseQuote(acc, ws).Some?
    ensures |CloseQuote(acc, ws).value.0| <= |acc| + |Join(ws)|
    ensures acc + " " <= CloseQuote(acc, ws).value.0
    decreases |ws|
  {
    if Last(ws[0]) == '"' {
      assert DropLast(acc + " " + ws[0]) == acc + " " + DropLast(ws[0]);
    } else {
      CloseQuoteShort(acc + " " + ws[0], ws[1..]);
    }
  }

  lemma FirstTokenFits(t: string)
    requires Tokenise(t).Some? && Tokenise(t).value != []
    ensures |Tokenise(t).value[0]| <= |t|
  {
    WordsShort(t);
    var ws := Words(t);
    var q := ws[0][1..];
    if ws[0][0] == '"' && !(q != "" && Last(q) == '"') {
      CloseQuoteShort(q, ws[1..]);
    }
  }

  /** A line that opens with a quote never gets past validation with a command name as its first token. */
  lemma QuotedCommandRefused(t: string, c: string)
    requires t != "" && t[0] == '"' && CommandName(c)
    requires Tokenise(t).Some? && Tokenise(t).value != [] && Tokenise(t).value[0] == c
    ensures |c| < |t| && !QuotedRun(t[|c|..])
  {
    var n := LeadWord(t);
    var w, ws := t[..n], Words(t);
    assert t == w + t[n..];
    WordsOfWord(w, t[n..]);
    var q := w[1..];
    if q != "" && Last(q) == '"' {
      assert c == DropLast(q);
      assert t[|c|] == w[|c|] == q[|c| - 1] == c[|c| - 1];
      assert LeadSpace(t[|c|..]) == 0;
      assert t[|c|..][0..] == t[|c|..];
    } else {
      CloseQuoteShort(q, ws[1..]);
      assert IsSpace((q + " ")[|q|]);
      assert false;
    }
  }

  /** A bare first word is the first token; the rest of the line is tokenised by itself. */
  lemma BareCommandFirst(t: string)
    requires t != "" && !IsSpace(t[0]) && t[0] != '"'
    ensures var c := t[..LeadWord(t)];
            && t == c + t[|c|..]
            && Tokenise(t) == Prepend(c, Tokenise(t[|c|..]))
            && CommandArgs(t) == PrependArg(c, CommandArgs(t[|c|..]))
  {
    var n := LeadWord(t);
    var c, rest := t[..n], t[n..];
    assert t == c + rest;
    WordsOfWord(c, rest);
    assert ([c] + Words(rest))[1..] == Words(rest);
  }

  /**
    Every frame the client sends is the left-trimmed line, its first word is the bare command name,
    its other tokens are the validated arguments, and unless a quote-opening word is a lone quote the
    server derives exactly the command followed by those arguments.
  */
  lemma SentFrame(line: string)
    requires DispatchLine(line).Sent?
    ensures var Sent(c, frame) := DispatchLine(line);
            && frame == TrimLeft(line) && CommandName(c) && Supported(c)
            && c <= frame && WordEnd(frame[|c|..])
            && Validate(c, frame[|c|..]) == None
            && Tokenise(frame) == Prepend(c, Tokenise(frame[|c|..])) && Tokenise(frame).Some?
            && CommandArgs(frame) == if "\"" in Openers(Words(frame)) then Undefined else Args(Tokenise(frame).value)
  {
    var t, c := TrimLeft(line), DispatchLine(line).command;
    SentCommand(line);
    SentIsBare(t, c);
    BareCommandFirst(t);
    ArgsUndefinedExactly(Words(t));
    if CommandArgs(t) != Undefined {
      ArgsFollowTokens(Words(t));
    }
  }

  /** What a line must have passed to be sent. */
  lemma SentCommand(line: string)
    requires DispatchLine(line).Sent?
    ensures var t, c := TrimLeft(line), DispatchLine(line).command;
            && t != "" && Tokenise(t).Some? && Tokenise(t).value != [] && Tokenise(t).value[0] == c
            && CommandName(c) && Supported(c) && |c| <= |t| && Validate(c, t[|c|..]) == None
            && DispatchLine(line).frame == c + t[|c|..]
  {
    var c := DispatchLine(line).command;
    FirstTokenFits(TrimLeft(line));
    var i :| 0 <= i < |SCHEMAS| && SCHEMAS[i].name == c;
    SchemasWellFormed(i);
  }

  lemma SentIsBare(t: string, c: string)
    requires t != "" && Tokenise(t).Some? && Tokenise(t).value != [] && Tokenise(t).value[0] == c
    requires CommandName(c) && |c| <= |t| && Validate(c, t[|c|..]) == None
    ensures t[0] != '"'
  {
    if t[0] == '"' {
      QuotedCommandRefused(t, c);
      assert false;
    }
  }

  // ---------------------------------------------------------------------------
  // Lines of separated fields

  /** A command name followed by quoted fields, with whitespace before each field. */
  function CommandLine(c: string, items: seq<Item>, tail: string): string {
    c + Render(items, tail)
  }

  predicate WellSeparated(items: seq<Item>, tail: string) {
    && Fields(items, tail)
    && forall i :: 0 <= i < |items| ==> items[i].gap != ""
  }

  predicate Acceptable(c: string, items: seq<Item>) {
    exists i :: 0 <= i < |SCHEMAS| && SchemaFrom(c, |items|, 0) == Some(i) &&
      SCHEMAS[i].maxArgs <= |SCHEMAS[i].maxLens| &&
      forall j :: 0 <= j < |items| ==> |Collapse(items[j].token.text)| <= SCHEMAS[i].maxLens[j]
  }

  lemma {:induction false} FieldsSeparated(items: seq<Item>, tail: string)
    requires WellSeparated(items, tail)
    ensures Separated(items, tail)
    decreases |items|
  {
    if items != [] {
      FieldsSeparated(items[1..], tail);
    }
  }

  /**
    A well-formed command line is sent unchanged, and the server reads the same command and fields
    from it exactly when no field starts with whitespace.
  */
  lemma WellFormedLine(c: string, items: seq<Item>, tail: string)
    requires Supported(c) && WellSeparated(items, tail) && Acceptable(c, items)
    ensures var line := CommandLine(c, items, tail);
            && DispatchLine(line) == Sent(c, line)
            && CommandArgs(line) ==
               if exists i :: 0 <= i < |items| && items[i].token.LoneQuote() then Undefined
               else Args([c] + Values(items))
  {
    var line, rest := CommandLine(c, items, tail), Render(items, tail);
    var i :| 0 <= i < |SCHEMAS| && SCHEMAS[i].name == c;
    SchemasWellFormed(i);
    assert WordEnd(rest);
    LeadWordIs(c, rest);
    assert line[..|c|] == c && line[|c|..] == rest;
    assert LeadSpace(line) == 0 && TrimLeft(line) == line;
    FieldsSeparated(items, tail);
    RenderedTokens(items, tail);
    FieldsAreQuotedRun(items, tail);
    BareCommandFirst(line);
    WellFormedArgs(c, items, rest);
  }

  lemma WellFormedArgs(c: string, items: seq<Item>, args: string)
    requires QuotedRun(args) && Tokenise(args) == Some(Values(items)) && Acceptable(c, items)
    requires forall i :: 0 <= i < |items| ==> items[i].token.Quoted?
    ensures Validate(c, args) == None
  {
    var i :| 0 <= i < |SCHEMAS| && SchemaFrom(c, |items|, 0) == Some(i) &&
      SCHEMAS[i].maxArgs <= |SCHEMAS[i].maxLens| &&
      forall j :: 0 <= j < |items| ==> |Collapse(items[j].token.text)| <= SCHEMAS[i].maxLens[j];
    var tokens := Values(items);
    assert forall j :: 0 <= j < |tokens| ==> tokens[j] == Collapse(items[j].token.text);
  }

  lemma LoginAcceptable(items: seq<Item>)
    requires |items| == 1 && |Collapse(items[0].token.text)| <= MAX_NAME
    ensures Supported("/login") && Acceptable("/login", items)
  {
    assert SCHEMAS[0].name == "/login";
    assert Fits(SCHEMAS[0], "/login", 1);
  }

  /** The client can send a frame on which the server's parse is undefined: a field with a leading space. */
  lemma LeadingSpaceReachesServer()
    ensures DispatchLine("/login \" x\"") == Sent("/login", "/login \" x\"")
    ensures CommandArgs("/login \" x\"") == Undefined
  {
    var items := [Item(" ", Quoted(" x"))];
    LeadingSpaceItems(items);
    LoginAcceptable(items);
    WellFormedLine("/login", items, "");
    assert items[0].token.LoneQuote();
  }

  lemma LeadingSpaceItems(items: seq<Item>)
    requires items == [Item(" ", Quoted(" x"))]
    ensures WellSeparated(items, "") && |Collapse(items[0].token.text)| <= MAX_NAME
    ensures CommandLine("/login", items, "") == "/login \" x\""
  {
    NormalIsFixed(" x");
    RenderField(items, "");
    assert items[1..] == [];
  }
}
