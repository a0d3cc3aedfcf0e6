/** What the client's validation lets through, and what of that the server still refuses. */
module Agreement {
  import opened Text
  import opened Tokens
  import opened Protocol
  import opened Model
  import opened Lookup
  import opened Commands
  import opened Outcomes
  import opened ClientCommands

  // ---------------------------------------------------------------------------
  // What the client accepts

  predicate NoArguments(c: string) {
    c == "/logout" || c == "/users" || c == "/list" || c == "/info"
  }

  predicate OneIdentifier(c: string) {
    c == "/user" || c == "/messages" || c == "/subscribe" || c == "/unsubscribe"
  }

  predicate AllWithin(tokens: seq<string>, max: nat) {
    forall i :: 0 <= i < |tokens| ==> |tokens[i]| <= max
  }

  /** The argument counts and lengths of each command. */
  predicate Accepts(c: string, tokens: seq<string>) {
    || (c == "/login" && |tokens| == 1 && |tokens[0]| <= 32)
    || (NoArguments(c) && |tokens| == 0)
    || (OneIdentifier(c) && |tokens| == 1 && |tokens[0]| <= 36)
    || (c == "/send" && |tokens| == 2 && |tokens[0]| <= 36 && |tokens[1]| <= 512)
    || (c == "/subscribed" && |tokens| <= 1 && AllWithin(tokens, 36))
    || (c == "/use" && |tokens| <= 3 && AllWithin(tokens, 36))
    || (c == "/create" && |tokens| == 1 && |tokens[0]| <= 512)
    || (c == "/create" && |tokens| == 2 && |tokens[0]| <= 32 && |tokens[1]| <= 512)
  }

  predicate LengthsOk(schema: Schema, tokens: seq<string>)
    requires |tokens| <= |schema.maxLens|
  {
    forall j :: 0 <= j < |tokens| ==> |tokens[j]| <= schema.maxLens[j]
  }

  lemma FitMeansAccept(i: nat, c: string, tokens: seq<string>)
    requires i < |SCHEMAS| && Fits(SCHEMAS[i], c, |tokens|)
    ensures |tokens| <= |SCHEMAS[i].maxLens| && (LengthsOk(SCHEMAS[i], tokens) <==> Accepts(c, tokens))
  {
  }

  /** Arguments pass validation if and only if they are quoted fields in the number and within the lengths of their command. */
  lemma ValidExactly(c: string, args: string)
    ensures Validate(c, args) == None <==> QuotedRun(args) && Tokenise(args).Some? && Accepts(c, Tokenise(args).value)
  {
    if QuotedRun(args) && Tokenise(args).Some? {
      var tokens := Tokenise(args).value;
      var schema := SchemaFrom(c, |tokens|, 0);
      if schema.Some? {
        FitMeansAccept(schema.value, c, tokens);
      } else if Accepts(c, tokens) {
        var i := CountMeansFit(c, |tokens|);
      }
    }
  }

  /** How many arguments a command takes. */
  predicate CountOk(c: string, n: nat) {
    || ((c == "/login" || OneIdentifier(c)) && n == 1) || (NoArguments(c) && n == 0)
    || (c == "/send" && n == 2) || (c == "/subscribed" && n <= 1) || (c == "/use" && n <= 3) || (c == "/create" && 1 <= n <= 2)
  }

  /** The longest that the `j`th of `n` arguments may be: a name, a text or an identifier. */
  function Limit(c: string, n: nat, j: nat): nat {
    if c == "/login" || (c == "/create" && n == 2 && j == 0) then 32
    else if c == "/create" || (c == "/send" && j == 1) then 512
    else 36
  }

  lemma FitMeansLimit(i: nat, c: string, n: nat)
    requires i < |SCHEMAS| && Fits(SCHEMAS[i], c, n)
    ensures CountOk(c, n) && n <= |SCHEMAS[i].maxLens| && forall j :: 0 <= j < n ==> SCHEMAS[i].maxLens[j] == Limit(c, n, j)
  {
  }

  lemma CountMeansFit(c: string, n: nat) returns (i: nat)
    requires CountOk(c, n)
    ensures i < |SCHEMAS| && Fits(SCHEMAS[i], c, n)
  {
    i := if c == "/login" then 0 else if c == "/logout" then 1 else if c == "/users" then 2 else if c == "/user" then 3
         else if c == "/send" then 4 else if c == "/messages" then 5 else if c == "/subscribe" then 6
         else if c == "/subscribed" then 7 else if c == "/unsubscribe" then 8 else if c == "/use" then 9
         else if c == "/create" then (if n == 1 then 10 else 11) else if c == "/list" then 12 else 13;
  }

  /** The argument is too long, and none before it is. */
  predicate FirstTooLong(c: string, tokens: seq<string>, j: nat) {
    && j < |tokens| && |tokens[j]| > Limit(c, |tokens|, j)
    && forall i :: 0 <= i < j ==> |tokens[i]| <= Limit(c, |tokens|, i)
  }

  /** Why arguments are refused: form, then quotes, then count, then the first argument that is too long. */
  lemma RefusedFor(c: string, args: string)
    ensures Validate(c, args) == Some(Unquoted) <==> !QuotedRun(args)
    ensures QuotedRun(args) ==> (Validate(c, args) == Some(Unclosed) <==> Tokenise(args).None?)
    ensures QuotedRun(args) && Tokenise(args).Some? ==>
              (Validate(c, args) == Some(WrongCount) <==> !CountOk(c, |Tokenise(args).value|))
    ensures forall j :: Validate(c, args) == Some(TooLong(j)) ==> FirstTooLong(c, Tokenise(args).value, j)
  {
    if QuotedRun(args) && Tokenise(args).Some? {
      var tokens := Tokenise(args).value;
      var schema := SchemaFrom(c, |tokens|, 0);
      if schema.Some? {
        FitMeansLimit(schema.value, c, |tokens|);
        FirstLong(tokens, SCHEMAS[schema.value].maxLens, 0);
      } else if CountOk(c, |tokens|) {
        var i := CountMeansFit(c, |tokens|);
      }
    }
  }

  lemma {:induction false} FirstLong(tokens: seq<string>, maxLens: seq<nat>, from: nat)
    requires from <= |tokens| <= |maxLens|
    ensures var r := LongArg(tokens, maxLens, from);
            r.Some? ==> forall i :: from <= i < r.value ==> |tokens[i]| <= maxLens[i]
    decreases |tokens| - from
  {
    if from < |tokens| {
      FirstLong(tokens, maxLens, from + 1);
    }
  }

  /** A command the client knows. */
  predicate KnownCommand(c: string) {
    || c == "/login" || c == "/logout" || c == "/users" || c == "/user" || c == "/send" || c == "/messages"
    || c == "/subscribe" || c == "/subscribed" || c == "/unsubscribe" || c == "/use" || c == "/create" || c == "/list"
    || c == "/info"
  }

  lemma SupportedExactly(c: string)
    ensures Supported(c) <==> KnownCommand(c)
  {
    if KnownCommand(c) {
      var i := CountMeansFit(c, if NoArguments(c) then 0 else if c == "/send" then 2 else 1);
    }
    if Supported(c) {
      var i :| 0 <= i < |SCHEMAS| && SCHEMAS[i].name == c;
    }
  }

  /** The first word of a line, after leading whitespace, as the tokeniser reads it. */
  function FirstWord(line: string): Option<string> {
    var tokens := Tokenise(TrimLeft(line));
    if tokens.Some? && tokens.value != [] then Some(tokens.value[0]) else None
  }

  /** What becomes of a line depends on its first word, and then on the arguments. */
  lemma DispatchExactly(line: string)
    ensures var d, word := DispatchLine(line), FirstWord(line);
            && (d == Blank <==> AllSpace(line))
            && (d == Help <==> !AllSpace(line) && word == Some("/help"))
            && (d.Unknown? <==> !AllSpace(line) && word.Some? && word.value != "" && word.value[0] == '/'
                                && word.value != "/help" && !KnownCommand(word.value))
            && (d.Unknown? ==> word == Some(d.command))
            && (d.Refused? || d.Sent? <==> !AllSpace(line) && word.Some? && KnownCommand(word.value))
            && (d.Sent? ==> word == Some(d.command) && d.frame == TrimLeft(line))
  {
    BlankExactly(line);
    if DispatchLine(line).Sent? {
      SentFrame(line);
    }
    if FirstWord(line).Some? {
      SupportedExactly(FirstWord(line).value);
      if KnownCommand(FirstWord(line).value) {
        CommandsDiffer(FirstWord(line).value);
      }
    }
  }

  lemma BlankExactly(line: string)
    ensures AllSpace(line) <==> TrimLeft(line) == ""
  {
    if TrimLeft(line) == "" {
      assert line[..LeadSpace(line)] == line;
    } else {
      assert !IsSpace(line[LeadSpace(line)]);
    }
  }

  lemma CommandsDiffer(c: string)
    requires KnownCommand(c)
    ensures c != "/help" && c != "" && c[0] == '/'
  {
  }

  // ---------------------------------------------------------------------------
  // What the server refuses of it

  /** The only output is a 400 answer to the requester. */
  predicate BadRequest(fd: int, e: Effect) {
    e.outs == [Out({fd}, [Word("400"), Word("BAD_REQUEST")])]
  }

  lemma AnswersDiffer(db: Database, me: Client, fd: int, frame: Frame)
    requires frame != [] && frame[0] != Word("400")
    ensures !BadRequest(fd, Answer(db, me, fd, frame))
  {
  }

  lemma StatusesDiffer()
    ensures "200" != "400" && "201" != "400" && "401" != "400" && "403" != "400" && "404" != "400" && "409" != "400"
  {
    assert "401"[2] != "400"[2] && "403"[2] != "400"[2] && "404"[2] != "400"[2] && "409"[2] != "400"[2];
    assert "200"[0] != "400"[0] && "201"[0] != "400"[0];
  }

  lemma RefusalsDiffer(db: Database, me: Client, fd: int, what: string, kind: string)
    ensures !BadRequest(fd, Answer(db, me, fd, UNAUTHORIZED)) && !BadRequest(fd, Answer(db, me, fd, FORBIDDEN))
    ensures !BadRequest(fd, Answer(db, me, fd, ALREADY_EXISTS)) && !BadRequest(fd, Answer(db, me, fd, NotFound(what)))
    ensures !BadRequest(fd, Answer(db, me, fd, NotFoundKind(kind, what)))
  {
    StatusesDiffer();
    AnswersDiffer(db, me, fd, UNAUTHORIZED);
    AnswersDiffer(db, me, fd, FORBIDDEN);
    AnswersDiffer(db, me, fd, ALREADY_EXISTS);
    AnswersDiffer(db, me, fd, NotFound(what));
    AnswersDiffer(db, me, fd, NotFoundKind(kind, what));
  }

  lemma ListsDiffer(db: Database, me: Client, fd: int, kind: Kind, lines: seq<Frame>)
    ensures !BadRequest(fd, AnswerList(db, me, fd, kind, lines))
  {
  }

  /** What a creation at the client's level still lacks: a text, a second argument, or a short enough description. */
  predicate LacksFor(ctx: Context, tokens: seq<string>) {
    if ctx.channel == "" then |tokens| < 2 || tokens[0] == "" || tokens[1] == "" || |tokens[1]| > 255
    else if ctx.thread == "" then |tokens| < 2 || tokens[0] == "" || tokens[1] == ""
    else |tokens| < 1 || tokens[0] == ""
  }

  /** The place where the client creates is there and open to it. */
  predicate PlaceOpen(db: Database, me: Client) {
    || me.ctx.team == ""
    || (&& AccessibleTeam(db, me).0.Some?
        && (me.ctx.channel == "" || FindChannel(db, me.ctx.team, me.ctx.channel).Some?)
        && (me.ctx.channel == "" || me.ctx.thread == "" || FindThread(db, me.ctx.channel, me.ctx.thread).Some?))
  }

  lemma CreatedDiffers(fd: int, e: Effect)
    requires e.outs != [] && e.outs[0].frame != [] && e.outs[0].frame[0] == Word("201")
    ensures !BadRequest(fd, e)
  {
    StatusesDiffer();
  }

  lemma TeamLacks(db: Database, clients: Clients, fd: int, args: seq<string>, id: string)
    requires fd in clients && args != [] && Accepts("/create", args[1..])
    requires clients[fd].ctx == NO_CONTEXT
    ensures BadRequest(fd, CreateTeam(db, clients, fd, args, id)) <==> LacksFor(NO_CONTEXT, args[1..])
  {
    var e, me := CreateTeam(db, clients, fd, args, id), clients[fd];
    RefusalsDiffer(db, me, fd, "", "");
    if !LacksFor(NO_CONTEXT, args[1..]) && e != Answer(db, me, fd, ALREADY_EXISTS) {
      CreatedDiffers(fd, e);
    }
  }

  lemma ChannelLacks(db: Database, clients: Clients, fd: int, args: seq<string>, id: string)
    requires fd in clients && args != [] && Accepts("/create", args[1..])
    requires clients[fd].ctx.channel == "" && AccessibleTeam(db, clients[fd]).0.Some?
    ensures BadRequest(fd, CreateChannel(db, clients, fd, args, id)) <==> LacksFor(clients[fd].ctx, args[1..])
  {
    var e, me := CreateChannel(db, clients, fd, args, id), clients[fd];
    RefusalsDiffer(db, me, fd, "", "");
    if !LacksFor(me.ctx, args[1..]) && e != Answer(db, me, fd, ALREADY_EXISTS) {
      CreatedDiffers(fd, e);
    }
  }

  lemma ThreadLacks(db: Database, clients: Clients, fd: int, args: seq<string>, id: string, now: int)
    requires fd in clients && args != [] && Accepts("/create", args[1..]) && AccessibleTeam(db, clients[fd]).0.Some?
    requires clients[fd].ctx.channel != "" && clients[fd].ctx.thread == ""
    requires FindChannel(db, clients[fd].ctx.team, clients[fd].ctx.channel).Some?
    ensures BadRequest(fd, CreateThread(db, clients, fd, args, id, now)) <==> LacksFor(clients[fd].ctx, args[1..])
  {
    var e, me := CreateThread(db, clients, fd, args, id, now), clients[fd];
    RefusalsDiffer(db, me, fd, "", "");
    if !LacksFor(me.ctx, args[1..]) && e != Answer(db, me, fd, ALREADY_EXISTS) {
      CreatedDiffers(fd, e);
    }
  }

  lemma ReplyLacks(db: Database, clients: Clients, fd: int, args: seq<string>, id: string, now: int)
    requires fd in clients && args != [] && Accepts("/create", args[1..]) && AccessibleTeam(db, clients[fd]).0.Some?
    requires clients[fd].ctx.channel != "" && clients[fd].ctx.thread != ""
    requires FindChannel(db, clients[fd].ctx.team, clients[fd].ctx.channel).Some?
    requires FindThread(db, clients[fd].ctx.channel, clients[fd].ctx.thread).Some?
    ensures BadRequest(fd, CreateReply(db, clients, fd, args, id, now)) <==> LacksFor(clients[fd].ctx, args[1..])
  {
    var e, me := CreateReply(db, clients, fd, args, id, now), clients[fd];
    if !LacksFor(me.ctx, args[1..]) {
      CreatedDiffers(fd, e);
    }
  }

  /** A context is left level by level. */
  predicate Layered(ctx: Context) {
    (ctx.team == "" ==> ctx.channel == "") && (ctx.channel == "" ==> ctx.thread == "")
  }

  lemma ClosedDiffers(db: Database, clients: Clients, fd: int, args: seq<string>, id: string, now: int)
    requires fd in clients && Layered(clients[fd].ctx) && clients[fd].user != "" && !PlaceOpen(db, clients[fd])
    ensures !BadRequest(fd, Create(db, clients, fd, args, id, now))
  {
    var me := clients[fd];
    RefusalsDiffer(db, me, fd, me.ctx.team, "");
    RefusalsDiffer(db, me, fd, me.ctx.channel, "");
    RefusalsDiffer(db, me, fd, me.ctx.thread, "");
  }

  lemma CreationRefusedExactly(db: Database, clients: Clients, fd: int, args: seq<string>, id: string, now: int)
    requires fd in clients && args != [] && Accepts("/create", args[1..]) && Layered(clients[fd].ctx)
    ensures BadRequest(fd, Create(db, clients, fd, args, id, now)) <==>
            clients[fd].user != "" && PlaceOpen(db, clients[fd]) && LacksFor(clients[fd].ctx, args[1..])
  {
    var me := clients[fd];
    RefusalsDiffer(db, me, fd, "", "");
    if me.user != "" {
      if !PlaceOpen(db, me) {
        ClosedDiffers(db, clients, fd, args, id, now);
      } else if me.ctx.team == "" {
        TeamLacks(db, clients, fd, args, id);
      } else if me.ctx.channel == "" {
        ChannelLacks(db, clients, fd, args, id);
      } else if me.ctx.thread == "" {
        ThreadLacks(db, clients, fd, args, id, now);
      } else {
        ReplyLacks(db, clients, fd, args, id, now);
      }
    }
  }

  lemma SessionsRefusedExactly(db: Database, clients: Clients, fd: int, args: seq<string>, id: string)
    requires fd in clients && args != []
    ensures Accepts("/login", args[1..]) ==>
              (BadRequest(fd, Login(db, clients, fd, args, id)) <==> clients[fd].user == "" && args[1] == "")
    ensures !BadRequest(fd, Logout(db, clients, fd))
  {
    RefusalsDiffer(db, clients[fd], fd, "", "");
    StatusesDiffer();
    var e := Logout(db, clients, fd);
    if clients[fd].user != "" {
      assert e.outs[|e.outs| - 1].frame == OK;
    }
  }

  lemma MessagesRefusedExactly(db: Database, clients: Clients, fd: int, args: seq<string>, now: int)
    requires fd in clients && args != []
    ensures Accepts("/send", args[1..]) ==> (BadRequest(fd, Send(db, clients, fd, args, now)) <==> args[1] == "" || args[2] == "")
    ensures Accepts("/messages", args[1..]) ==>
              (BadRequest(fd, MessagesOf(db, clients, fd, args)) <==> clients[fd].user != "" && args[1] == "")
  {
    var me := clients[fd];
    RefusalsDiffer(db, me, fd, if |args| >= 2 then args[1] else "", "USER");
    if |args| >= 2 && FindUser(db, me.user).Some? {
      ListsDiffer(db, me, fd, Messages, MapSeq(Conversation(db.users[FindUser(db, me.user).value], args[1]), MessageLine));
    }
  }

  lemma UsersNotRefused(db: Database, clients: Clients, fd: int, args: seq<string>)
    requires fd in clients && args != []
    ensures Accepts("/user", args[1..]) ==> !BadRequest(fd, UserInfo(db, clients, fd, args))
    ensures !BadRequest(fd, ListUsers(db, clients, fd))
  {
    var me := clients[fd];
    StatusesDiffer();
    RefusalsDiffer(db, me, fd, if |args| >= 2 then args[1] else "", "USER");
    ListsDiffer(db, me, fd, Users, MapSeq(db.users, UserLine));
  }

  lemma SubscriptionsRefusedExactly(db: Database, clients: Clients, fd: int, args: seq<string>)
    requires fd in clients && args != []
    ensures Accepts("/subscribe", args[1..]) ==>
              (BadRequest(fd, SubscribeTo(db, clients, fd, args)) <==> clients[fd].user != "" && args[1] == "")
    ensures Accepts("/unsubscribe", args[1..]) ==>
              (BadRequest(fd, UnsubscribeFrom(db, clients, fd, args)) <==> clients[fd].user != "" && args[1] == "")
    ensures Accepts("/subscribed", args[1..]) ==>
              (BadRequest(fd, Subscribed(db, clients, fd, args)) <==> clients[fd].user != "" && |args| > 1 && args[1] == "")
  {
    var me := clients[fd];
    StatusesDiffer();
    RefusalsDiffer(db, me, fd, if |args| >= 2 then args[1] else "", "TEAM");
    ListsDiffer(db, me, fd, Teams, SubscribedTeams(db.teams, me.user));
    if |args| >= 2 && FindTeam(db, args[1]).Some? {
      ListsDiffer(db, me, fd, Users, SubscriberLines(db, db.teams[FindTeam(db, args[1]).value].subscribers));
    }
  }

  lemma ContextsNotRefused(db: Database, clients: Clients, fd: int, args: seq<string>)
    requires fd in clients && args != []
    ensures Accepts("/use", args[1..]) ==> !BadRequest(fd, Use(db, clients, fd, args))
  {
    var me := clients[fd];
    StatusesDiffer();
    RefusalsDiffer(db, me, fd, if |args| >= 2 then args[1] else "", "TEAM");
  }

  lemma ListNotRefused(db: Database, clients: Clients, fd: int)
    requires fd in clients
    ensures !BadRequest(fd, ListHere(db, clients, fd))
  {
    var me := clients[fd];
    RefusalsDiffer(db, me, fd, me.ctx.team, "TEAM");
    RefusalsDiffer(db, me, fd, me.ctx.channel, "CHANNEL");
    RefusalsDiffer(db, me, fd, me.ctx.thread, "THREAD");
  }

  lemma InfoNotRefused(db: Database, clients: Clients, fd: int)
    requires fd in clients
    ensures !BadRequest(fd, Info(db, clients, fd))
  {
    var me := clients[fd];
    StatusesDiffer();
    RefusalsDiffer(db, me, fd, me.ctx.team, "TEAM");
    RefusalsDiffer(db, me, fd, me.ctx.channel, "CHANNEL");
    RefusalsDiffer(db, me, fd, me.ctx.thread, "THREAD");
    RefusalsDiffer(db, me, fd, me.user, "USER");
  }

  /** What the client accepts and the server refuses: empty arguments, and what a creation lacks at its level. */
  predicate StillRefused(db: Database, me: Client, c: string, tokens: seq<string>) {
    || (c == "/login" && me.user == "" && tokens == [""])
    || (c == "/send" && |tokens| == 2 && (tokens[0] == "" || tokens[1] == ""))
    || ((c == "/messages" || c == "/subscribe" || c == "/unsubscribe" || c == "/subscribed") && me.user != "" && tokens == [""])
    || (c == "/create" && me.user != "" && PlaceOpen(db, me) && LacksFor(me.ctx, tokens))
  }

  /** A command that passed the client's validation is answered 400 if and only if it is one of these. */
  lemma RefusedExactly(db: Database, clients: Clients, fd: int, c: string, tokens: seq<string>, id: string, now: int)
    requires fd in clients && Accepts(c, tokens) && Layered(clients[fd].ctx)
    ensures BadRequest(fd, Execute(db, clients, fd, [c] + tokens, id, now)) <==> StillRefused(db, clients[fd], c, tokens)
  {
    var args := [c] + tokens;
    assert args[1..] == tokens && args[0] == c;
    assert forall i :: 0 <= i < |tokens| ==> args[i + 1] == tokens[i];
    Dispatched(db, clients, fd, args, id, now);
    if c == "/create" {
      CreationRefusedExactly(db, clients, fd, args, id, now);
    } else if c == "/login" || c == "/logout" {
      SessionsRefusedExactly(db, clients, fd, args, id);
    } else if c == "/send" || c == "/messages" {
      MessagesRefusedExactly(db, clients, fd, args, now);
    } else if c == "/user" || c == "/users" {
      UsersNotRefused(db, clients, fd, args);
    } else if c == "/list" {
      ListNotRefused(db, clients, fd);
    } else if c == "/info" {
      InfoNotRefused(db, clients, fd);
    } else if c == "/use" {
      ContextsNotRefused(db, clients, fd, args);
    } else {
      SubscriptionsRefusedExactly(db, clients, fd, args);
    }
  }

  /** What the server reads of a frame that was sent: a command and arguments that its validation accepts. */
  lemma SentAccepted(line: string)
    requires DispatchLine(line).Sent? && CommandArgs(DispatchLine(line).frame) != Undefined
    ensures var args := CommandArgs(DispatchLine(line).frame).args;
            args != [] && args[0] == DispatchLine(line).command && Accepts(args[0], args[1..])
  {
    var c, frame := DispatchLine(line).command, DispatchLine(line).frame;
    SentFrame(line);
    ValidExactly(c, frame[|c|..]);
    var tokens := Tokenise(frame[|c|..]).value;
    assert ([c] + tokens)[1..] == tokens;
  }

  /** From the typed line to the server's answer. */
  lemma SentRefusedExactly(db: Database, clients: Clients, fd: int, line: string, id: string, now: int)
    requires fd in clients && Layered(clients[fd].ctx)
    requires DispatchLine(line).Sent? && CommandArgs(DispatchLine(line).frame) != Undefined
    ensures var args := CommandArgs(DispatchLine(line).frame).args;
            && args != []
            && (BadRequest(fd, Execute(db, clients, fd, args, id, now)) <==>
                StillRefused(db, clients[fd], DispatchLine(line).command, args[1..]))
  {
    var args := CommandArgs(DispatchLine(line).frame).args;
    SentAccepted(line);
    RefusedExactly(db, clients, fd, args[0], args[1..], id, now);
    assert [args[0]] + args[1..] == args;
  }
}
