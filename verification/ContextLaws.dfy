/** What `/use`, `/list` and `/info` do at every level of the context, frame by frame. */
module ContextLaws {
  import opened Text
  import opened Numbers
  import opened Protocol
  import opened Model
  import opened Lookup
  import opened Commands
  import opened Invariant
  import opened Outcomes

  // ---------------------------------------------------------------------------
  // Entering a context

  /** Only the requester's context changes, and only the requester hears of it. */
  ghost predicate Installs(db: Database, me: Client, fd: int, e: Effect, ctx: Context, frames: seq<Frame>) {
    e.db == db && e.user == me.user && e.ctx == ctx && Tells(e, fd, frames)
  }

  predicate Asks(clients: Clients, fd: int, args: seq<string>, command: string) {
    fd in clients && args != [] && args[0] == command
  }

  /** Without arguments `/use` leaves every context; too many are refused, and so is an unknown team. */
  lemma UseOutside(db: Database, clients: Clients, fd: int, args: seq<string>, id: string, now: int)
    requires Asks(clients, fd, args, "/use")
    ensures var e, me := Execute(db, clients, fd, args, id, now), clients[fd];
            && (me.user == "" ==> Only(db, me, fd, e, [[Word("401"), Word("UNAUTHORIZED")]]))
            && (me.user != "" && |args| > 4 ==> Only(db, me, fd, e, [[Word("400"), Word("BAD_REQUEST")]]))
            && (me.user != "" && |args| == 1 ==> Installs(db, me, fd, e, Context("", "", ""), [[Word("200"), Word("OK")]]))
            && (me.user != "" && 2 <= |args| <= 4 && !IsTeam(db, args[1]) ==>
                  Only(db, me, fd, e, [[Word("404"), Word("NOT_FOUND"), Word("TEAM"), Field(args[1])]]))
  {
    var me := clients[fd];
    Dispatched(db, clients, fd, args, id, now);
    AnswerTells(db, me, fd, UNAUTHORIZED);
    AnswerTells(db, me, fd, BAD_REQUEST);
    EachTells(db, me.user, NO_CONTEXT, fd, [OK]);
    if |args| >= 2 && !IsTeam(db, args[1]) {
      NoTeam(db, args[1]);
      AnswerTells(db, me, fd, NotFoundKind("TEAM", args[1]));
    }
  }

  predicate AsksUse(clients: Clients, fd: int, args: seq<string>) {
    Asks(clients, fd, args, "/use") && clients[fd].user != "" && 2 <= |args| <= 4
  }

  /** The team is the first argument: one must subscribe to it, and a channel must be one of its own. */
  lemma UseTeam(db: Database, clients: Clients, fd: int, args: seq<string>, id: string, now: int, t: nat)
    requires DbOk(db) && AsksUse(clients, fd, args) && t < |db.teams| && db.teams[t].uuid == args[1]
    ensures var e, me := Execute(db, clients, fd, args, id, now), clients[fd];
            if me.user !in db.teams[t].subscribers then Only(db, me, fd, e, [[Word("403"), Word("FORBIDDEN")]])
            else if |args| == 2 then Installs(db, me, fd, e, Context(args[1], "", ""), [[Word("200"), Word("OK")]])
            else !HasChannel(db.teams[t], args[2]) ==>
              Only(db, me, fd, e, [[Word("200"), Word("OK")], [Word("404"), Word("NOT_FOUND"), Word("CHANNEL"), Field(args[2])]])
  {
    var me := clients[fd];
    Dispatched(db, clients, fd, args, id, now);
    TeamAt(db, t);
    AnswerTells(db, me, fd, FORBIDDEN);
    if |args| == 2 {
      EachTells(db, me.user, Context(args[1], "", ""), fd, [OK]);
    } else if !HasChannel(db.teams[t], args[2]) {
      NoChannel(db, t, args[2]);
      EachTells(db, me.user, me.ctx, fd, [OK, NotFoundKind("CHANNEL", args[2])]);
      assert [OK] + [NotFoundKind("CHANNEL", args[2])] == [OK, NotFoundKind("CHANNEL", args[2])];
    }
  }

  lemma ChannelReached(db: Database, clients: Clients, fd: int, args: seq<string>, id: string, now: int, t: nat, c: nat)
    requires DbOk(db) && AsksUse(clients, fd, args) && |args| >= 3 && t < |db.teams| && db.teams[t].uuid == args[1]
    requires clients[fd].user in db.teams[t].subscribers
    requires c < |db.teams[t].channels| && db.teams[t].channels[c].uuid == args[2]
    ensures Execute(db, clients, fd, args, id, now) == UseThread(db, clients[fd], fd, args, [OK, OK])
  {
    Dispatched(db, clients, fd, args, id, now);
    TeamAt(db, t);
    ChannelAt(db, t, c);
    assert [OK] + [OK] == [OK, OK];
  }

  /** The channel is the second argument, and a thread must be one of its own. */
  lemma UseChannelOf(db: Database, clients: Clients, fd: int, args: seq<string>, id: string, now: int, t: nat, c: nat)
    requires DbOk(db) && AsksUse(clients, fd, args) && |args| >= 3 && t < |db.teams| && db.teams[t].uuid == args[1]
    requires clients[fd].user in db.teams[t].subscribers
    requires c < |db.teams[t].channels| && db.teams[t].channels[c].uuid == args[2]
    ensures var e, me := Execute(db, clients, fd, args, id, now), clients[fd];
            if |args| == 3 then
              Installs(db, me, fd, e, Context(args[1], args[2], ""), [[Word("200"), Word("OK")], [Word("200"), Word("OK")]])
            else !HasThread(db.teams[t].channels[c], args[3]) ==>
              Only(db, me, fd, e, [[Word("200"), Word("OK")], [Word("200"), Word("OK")],
                                   [Word("404"), Word("NOT_FOUND"), Word("THREAD"), Field(args[3])]])
  {
    var me := clients[fd];
    ChannelReached(db, clients, fd, args, id, now, t, c);
    if |args| == 3 {
      EachTells(db, me.user, Context(args[1], args[2], ""), fd, [OK, OK]);
    } else if !HasThread(db.teams[t].channels[c], args[3]) {
      NoThread(db, t, c, args[3]);
      var refusal := NotFoundKind("THREAD", args[3]);
      EachTells(db, me.user, me.ctx, fd, [OK, OK, refusal]);
      assert [OK, OK] + [refusal] == [OK, OK, refusal];
    }
  }

  /** All three levels validate. */
  lemma UseThreadOf(db: Database, clients: Clients, fd: int, args: seq<string>, id: string, now: int, t: nat, c: nat, h: nat)
    requires DbOk(db) && AsksUse(clients, fd, args) && |args| == 4 && t < |db.teams| && db.teams[t].uuid == args[1]
    requires clients[fd].user in db.teams[t].subscribers
    requires c < |db.teams[t].channels| && db.teams[t].channels[c].uuid == args[2]
    requires h < |db.teams[t].channels[c].threads| && db.teams[t].channels[c].threads[h].uuid == args[3]
    ensures Installs(db, clients[fd], fd, Execute(db, clients, fd, args, id, now), Context(args[1], args[2], args[3]),
                     [[Word("200"), Word("OK")], [Word("200"), Word("OK")], [Word("200"), Word("OK")]])
  {
    ChannelReached(db, clients, fd, args, id, now, t, c);
    ThreadAt(db, t, c, h);
    EachTells(db, clients[fd].user, Context(args[1], args[2], args[3]), fd, [OK, OK, OK]);
    assert [OK, OK] + [OK] == [OK, OK, OK];
  }

  /** The arguments name a team that the user subscribes to, and a channel and a thread inside it. */
  ghost predicate Resolves(db: Database, user: string, args: seq<string>)
    requires 2 <= |args|
  {
    exists t :: 0 <= t < |db.teams| && db.teams[t].uuid == args[1] && user in db.teams[t].subscribers &&
      (|args| == 2 || ResolvesIn(db.teams[t], args))
  }

  ghost predicate ResolvesIn(team: Team, args: seq<string>)
    requires 3 <= |args|
  {
    exists c :: 0 <= c < |team.channels| && team.channels[c].uuid == args[2] &&
      (|args| == 3 || HasThread(team.channels[c], args[3]))
  }

  function ContextOf(args: seq<string>): Context
    requires 2 <= |args|
  {
    Context(args[1], if |args| >= 3 then args[2] else "", if |args| == 4 then args[3] else "")
  }

  /** `/use` installs exactly its arguments if they resolve, and otherwise leaves the context as it was. */
  lemma UseInstallsExactly(db: Database, clients: Clients, fd: int, args: seq<string>, id: string, now: int)
    requires DbOk(db) && AsksUse(clients, fd, args)
    ensures Execute(db, clients, fd, args, id, now).ctx ==
            if Resolves(db, clients[fd].user, args) then ContextOf(args) else clients[fd].ctx
  {
    if IsTeam(db, args[1]) {
      var t :| 0 <= t < |db.teams| && db.teams[t].uuid == args[1];
      UseInTeam(db, clients, fd, args, id, now, t);
    } else {
      UseOutside(db, clients, fd, args, id, now);
    }
  }

  lemma UseInTeam(db: Database, clients: Clients, fd: int, args: seq<string>, id: string, now: int, t: nat)
    requires DbOk(db) && AsksUse(clients, fd, args) && t < |db.teams| && db.teams[t].uuid == args[1]
    ensures Execute(db, clients, fd, args, id, now).ctx ==
            if clients[fd].user in db.teams[t].subscribers && (|args| == 2 || ResolvesIn(db.teams[t], args))
            then ContextOf(args) else clients[fd].ctx
  {
    UseTeam(db, clients, fd, args, id, now, t);
    if |args| >= 3 && clients[fd].user in db.teams[t].subscribers && HasChannel(db.teams[t], args[2]) {
      var c :| 0 <= c < |db.teams[t].channels| && db.teams[t].channels[c].uuid == args[2];
      UseChannelOf(db, clients, fd, args, id, now, t, c);
      OneChannel(db, t, c);
      if |args| == 4 && HasThread(db.teams[t].channels[c], args[3]) {
        var h :| 0 <= h < |db.teams[t].channels[c].threads| && db.teams[t].channels[c].threads[h].uuid == args[3];
        UseThreadOf(db, clients, fd, args, id, now, t, c, h);
      }
    }
  }

  lemma OneChannel(db: Database, t: nat, c: nat)
    requires DbOk(db) && t < |db.teams| && c < |db.teams[t].channels|
    ensures forall k :: 0 <= k < |db.teams[t].channels| && db.teams[t].channels[k].uuid == db.teams[t].channels[c].uuid ==> k == c
  {
    assert ChannelIdsUnique(db.teams);
  }

  // ---------------------------------------------------------------------------
  // Listing and describing the context

  /** Who is not logged in, or no longer subscribes to the team of the context, learns nothing. */
  lemma ContextRefused(db: Database, clients: Clients, fd: int, args: seq<string>, id: string, now: int)
    requires Asks(clients, fd, args, "/list") || Asks(clients, fd, args, "/info")
    ensures var e, me := Execute(db, clients, fd, args, id, now), clients[fd];
            && (me.user == "" ==> Only(db, me, fd, e, [[Word("401"), Word("UNAUTHORIZED")]]))
            && (me.user != "" && me.ctx.team != "" && !IsTeam(db, me.ctx.team) ==>
                  Only(db, me, fd, e, [[Word("404"), Word("NOT_FOUND"), Word("TEAM"), Field(me.ctx.team)]]))
  {
    var me := clients[fd];
    Dispatched(db, clients, fd, args, id, now);
    AnswerTells(db, me, fd, UNAUTHORIZED);
    AnswerTells(db, me, fd, NotFoundKind("TEAM", me.ctx.team));
  }

  /** The client's context is in this team. */
  predicate InTeam(db: Database, me: Client, t: nat) {
    me.user != "" && t < |db.teams| && db.teams[t].uuid == me.ctx.team
  }

  predicate InChannel(db: Database, me: Client, t: nat, c: nat) {
    && InTeam(db, me, t) && me.user in db.teams[t].subscribers
    && c < |db.teams[t].channels| && db.teams[t].channels[c].uuid == me.ctx.channel
  }

  predicate InThread(db: Database, me: Client, t: nat, c: nat, h: nat) {
    && InChannel(db, me, t, c) && h < |db.teams[t].channels[c].threads|
    && db.teams[t].channels[c].threads[h].uuid == me.ctx.thread
  }

  lemma OutsidersRefused(db: Database, clients: Clients, fd: int, args: seq<string>, id: string, now: int, t: nat)
    requires DbOk(db) && (Asks(clients, fd, args, "/list") || Asks(clients, fd, args, "/info"))
    requires InTeam(db, clients[fd], t) && clients[fd].user !in db.teams[t].subscribers
    ensures Only(db, clients[fd], fd, Execute(db, clients, fd, args, id, now), [[Word("403"), Word("FORBIDDEN")]])
  {
    Dispatched(db, clients, fd, args, id, now);
    TeamAt(db, t);
    assert TeamOk(db.users, db.teams[t]);
    AnswerTells(db, clients[fd], fd, FORBIDDEN);
  }

  /** Outside every context: all teams. */
  lemma TeamsListed(db: Database, clients: Clients, fd: int, args: seq<string>, id: string, now: int) returns (lines: seq<Frame>)
    requires Asks(clients, fd, args, "/list") && clients[fd].user != "" && clients[fd].ctx.team == ""
    ensures Only(db, clients[fd], fd, Execute(db, clients, fd, args, id, now), BlockOf("TEAMS", lines))
    ensures |lines| == |db.teams| && forall i :: 0 <= i < |lines| ==>
              lines[i] == [Word("210"), Field(db.teams[i].uuid), Field(db.teams[i].name), Field(db.teams[i].description)]
  {
    Dispatched(db, clients, fd, args, id, now);
    lines := MapSeq(db.teams, TeamLine);
    AnswerListTells(db, clients[fd], fd, Teams, lines);
    forall t {
      TeamRowIs(t);
    }
  }

  lemma ListDispatched(db: Database, clients: Clients, fd: int, args: seq<string>, id: string, now: int)
    requires Asks(clients, fd, args, "/list")
    ensures Execute(db, clients, fd, args, id, now) == ListHere(db, clients, fd)
  {
    Dispatched(db, clients, fd, args, id, now);
  }

  lemma ChannelLines(channels: seq<Channel>) returns (lines: seq<Frame>)
    ensures lines == MapSeq(channels, ChannelLine) && |lines| == |channels|
    ensures forall i :: 0 <= i < |lines| ==>
              lines[i] == [Word("210"), Field(channels[i].uuid), Field(channels[i].name), Field(channels[i].description)]
  {
    lines := MapSeq(channels, ChannelLine);
  }

  /** In a team: its channels. */
  lemma ChannelsListed(db: Database, clients: Clients, fd: int, args: seq<string>, id: string, now: int, t: nat)
    returns (lines: seq<Frame>)
    requires DbOk(db) && Asks(clients, fd, args, "/list") && InTeam(db, clients[fd], t)
    requires clients[fd].user in db.teams[t].subscribers && clients[fd].ctx.channel == ""
    ensures Only(db, clients[fd], fd, Execute(db, clients, fd, args, id, now), BlockOf("CHANNELS", lines))
    ensures var channels := db.teams[t].channels;
            |lines| == |channels| && forall i :: 0 <= i < |lines| ==>
              lines[i] == [Word("210"), Field(channels[i].uuid), Field(channels[i].name), Field(channels[i].description)]
  {
    lines := ChannelLines(db.teams[t].channels);
    ChannelsReached(db, clients, fd, t, lines);
    ListDispatched(db, clients, fd, args, id, now);
    ListTells(db, clients[fd], fd, Execute(db, clients, fd, args, id, now), Channels, lines);
  }

  lemma ChannelsReached(db: Database, clients: Clients, fd: int, t: nat, lines: seq<Frame>)
    requires DbOk(db) && fd in clients && InTeam(db, clients[fd], t)
    requires clients[fd].user in db.teams[t].subscribers && clients[fd].ctx.channel == ""
    requires lines == MapSeq(db.teams[t].channels, ChannelLine)
    ensures ListHere(db, clients, fd) == AnswerList(db, clients[fd], fd, Channels, lines)
  {
    TeamAt(db, t);
    assert TeamOk(db.users, db.teams[t]);
  }

  lemma ThreadLines(threads: seq<Thread>) returns (lines: seq<Frame>)
    ensures lines == MapSeq(threads, ThreadLine) && |lines| == |threads|
    ensures forall i :: 0 <= i < |lines| ==>
              lines[i] == [Word("210"), Field(threads[i].uuid), Field(threads[i].author), Word(IntText(threads[i].timestamp)),
                           Field(threads[i].title), Field(threads[i].body)]
  {
    lines := MapSeq(threads, ThreadLine);
  }

  lemma InsideChannel(db: Database, me: Client, t: nat, c: nat)
    requires DbOk(db) && InChannel(db, me, t, c)
    ensures ContextRefusal(db, me).None? && me.ctx.team != "" && me.ctx.channel != ""
    ensures FindChannel(db, me.ctx.team, me.ctx.channel) == Some((t, c))
  {
    TeamAt(db, t);
    ChannelAt(db, t, c);
    assert TeamOk(db.users, db.teams[t]);
    assert ChannelOk(db.users, db.teams[t].channels[c]);
  }

  /** In a channel: its threads. */
  lemma ThreadsListed(db: Database, clients: Clients, fd: int, args: seq<string>, id: string, now: int, t: nat, c: nat)
    returns (lines: seq<Frame>)
    requires DbOk(db) && Asks(clients, fd, args, "/list") && InChannel(db, clients[fd], t, c) && clients[fd].ctx.thread == ""
    ensures Only(db, clients[fd], fd, Execute(db, clients, fd, args, id, now), BlockOf("THREADS", lines))
    ensures var threads := db.teams[t].channels[c].threads;
            |lines| == |threads| && forall i :: 0 <= i < |lines| ==>
              lines[i] == [Word("210"), Field(threads[i].uuid), Field(threads[i].author), Word(IntText(threads[i].timestamp)),
                           Field(threads[i].title), Field(threads[i].body)]
  {
    ThreadsReached(db, clients, fd, t, c);
    ListDispatched(db, clients, fd, args, id, now);
    lines := ThreadsTold(db, clients[fd], fd, Execute(db, clients, fd, args, id, now), db.teams[t].channels[c].threads);
  }

  lemma ThreadsTold(db: Database, me: Client, fd: int, e: Effect, threads: seq<Thread>) returns (lines: seq<Frame>)
    requires e == AnswerList(db, me, fd, Threads, MapSeq(threads, ThreadLine))
    ensures Only(db, me, fd, e, BlockOf("THREADS", lines))
    ensures |lines| == |threads| && forall i :: 0 <= i < |lines| ==>
              lines[i] == [Word("210"), Field(threads[i].uuid), Field(threads[i].author), Word(IntText(threads[i].timestamp)),
                           Field(threads[i].title), Field(threads[i].body)]
  {
    lines := ThreadLines(threads);
    ListTells(db, me, fd, e, Threads, lines);
  }

  lemma ThreadsReached(db: Database, clients: Clients, fd: int, t: nat, c: nat)
    requires DbOk(db) && fd in clients && InChannel(db, clients[fd], t, c) && clients[fd].ctx.thread == ""
    ensures ListHere(db, clients, fd) ==
            AnswerList(db, clients[fd], fd, Threads, MapSeq(db.teams[t].channels[c].threads, ThreadLine))
  {
    InsideChannel(db, clients[fd], t, c);
  }

  lemma ReplyRows(thread: string, replies: seq<Reply>) returns (lines: seq<Frame>)
    ensures lines == ReplyLines(thread, replies) && |lines| == |replies|
    ensures forall i :: 0 <= i < |lines| ==>
              lines[i] == [Word("210"), Field(thread), Field(replies[i].author), Word(IntText(replies[i].timestamp)),
                           Field(replies[i].body)]
  {
    lines := ReplyLines(thread, replies);
  }

  /** In a thread: its replies, each with the thread's identifier. */
  lemma RepliesListed(db: Database, clients: Clients, fd: int, args: seq<string>, id: string, now: int, t: nat, c: nat, h: nat)
    returns (lines: seq<Frame>)
    requires DbOk(db) && Asks(clients, fd, args, "/list") && InThread(db, clients[fd], t, c, h)
    ensures Only(db, clients[fd], fd, Execute(db, clients, fd, args, id, now), BlockOf("REPLIES", lines))
    ensures var replies := db.teams[t].channels[c].threads[h].replies;
            |lines| == |replies| && forall i :: 0 <= i < |lines| ==>
              lines[i] == [Word("210"), Field(clients[fd].ctx.thread), Field(replies[i].author),
                           Word(IntText(replies[i].timestamp)), Field(replies[i].body)]
  {
    RepliesReached(db, clients, fd, t, c, h);
    ListDispatched(db, clients, fd, args, id, now);
    lines := RepliesTold(db, clients[fd], fd, Execute(db, clients, fd, args, id, now), clients[fd].ctx.thread,
                         db.teams[t].channels[c].threads[h].replies);
  }

  lemma RepliesTold(db: Database, me: Client, fd: int, e: Effect, thread: string, replies: seq<Reply>) returns (lines: seq<Frame>)
    requires e == AnswerList(db, me, fd, Replies, ReplyLines(thread, replies))
    ensures Only(db, me, fd, e, BlockOf("REPLIES", lines))
    ensures |lines| == |replies| && forall i :: 0 <= i < |lines| ==>
              lines[i] == [Word("210"), Field(thread), Field(replies[i].author), Word(IntText(replies[i].timestamp)),
                           Field(replies[i].body)]
  {
    lines := ReplyRows(thread, replies);
    ListTells(db, me, fd, e, Replies, lines);
  }

  lemma RepliesReached(db: Database, clients: Clients, fd: int, t: nat, c: nat, h: nat)
    requires DbOk(db) && fd in clients && InThread(db, clients[fd], t, c, h)
    ensures ListHere(db, clients, fd) ==
            AnswerList(db, clients[fd], fd, Replies,
                       ReplyLines(clients[fd].ctx.thread, db.teams[t].channels[c].threads[h].replies))
  {
    InsideThread(db, clients[fd], t, c, h);
  }

  lemma InsideThread(db: Database, me: Client, t: nat, c: nat, h: nat)
    requires DbOk(db) && InThread(db, me, t, c, h)
    ensures ContextRefusal(db, me).None? && me.ctx.team != "" && me.ctx.channel != "" && me.ctx.thread != ""
    ensures FindThread(db, me.ctx.channel, me.ctx.thread) == Some((t, c, h))
  {
    InsideChannel(db, me, t, c);
    ThreadAt(db, t, c, h);
    assert TeamOk(db.users, db.teams[t]);
    assert ChannelOk(db.users, db.teams[t].channels[c]);
    assert ThreadOk(db.users, db.teams[t].channels[c].threads[h]);
  }

  /** A channel that is not there is named in the refusal. */
  lemma ChannelMissing(db: Database, clients: Clients, fd: int, args: seq<string>, id: string, now: int, t: nat)
    requires DbOk(db) && (Asks(clients, fd, args, "/list") || Asks(clients, fd, args, "/info"))
    requires InTeam(db, clients[fd], t) && clients[fd].user in db.teams[t].subscribers
    requires clients[fd].ctx.channel != "" && clients[fd].ctx.thread == "" && !HasChannel(db.teams[t], clients[fd].ctx.channel)
    ensures Only(db, clients[fd], fd, Execute(db, clients, fd, args, id, now),
                 [[Word("404"), Word("NOT_FOUND"), Word("CHANNEL"), Field(clients[fd].ctx.channel)]])
  {
    var me := clients[fd];
    Dispatched(db, clients, fd, args, id, now);
    TeamAt(db, t);
    assert TeamOk(db.users, db.teams[t]);
    NoChannel(db, t, me.ctx.channel);
    AnswerTells(db, me, fd, NotFoundKind("CHANNEL", me.ctx.channel));
  }

  lemma ThreadMissing(db: Database, clients: Clients, fd: int, args: seq<string>, id: string, now: int, t: nat, c: nat)
    requires DbOk(db) && (Asks(clients, fd, args, "/list") || Asks(clients, fd, args, "/info"))
    requires InChannel(db, clients[fd], t, c)
    requires clients[fd].ctx.thread != "" && !HasThread(db.teams[t].channels[c], clients[fd].ctx.thread)
    ensures Only(db, clients[fd], fd, Execute(db, clients, fd, args, id, now),
                 [[Word("404"), Word("NOT_FOUND"), Word("THREAD"), Field(clients[fd].ctx.thread)]])
  {
    var me := clients[fd];
    Dispatched(db, clients, fd, args, id, now);
    InsideChannel(db, me, t, c);
    NoThread(db, t, c, me.ctx.thread);
    AnswerTells(db, me, fd, NotFoundKind("THREAD", me.ctx.thread));
  }

  /** `/info` describes the innermost entity of the context. */
  lemma ThreadDescribed(db: Database, clients: Clients, fd: int, args: seq<string>, id: string, now: int, t: nat, c: nat, h: nat)
    requires DbOk(db) && Asks(clients, fd, args, "/info") && InThread(db, clients[fd], t, c, h)
    ensures var x := db.teams[t].channels[c].threads[h];
            Only(db, clients[fd], fd, Execute(db, clients, fd, args, id, now),
                 [[Word("200"), Word("INFO"), Word("THREAD"), Field(x.uuid), Field(x.author), Word(IntText(x.timestamp)),
                   Field(x.title), Field(x.body)]])
  {
    var x := db.teams[t].channels[c].threads[h];
    Dispatched(db, clients, fd, args, id, now);
    InsideThread(db, clients[fd], t, c, h);
    AnswerTells(db, clients[fd], fd, [Word("200"), Word("INFO"), Word("THREAD"), Field(x.uuid), Field(x.author),
                                      Word(IntText(x.timestamp)), Field(x.title), Field(x.body)]);
  }

  lemma ChannelDescribed(db: Database, clients: Clients, fd: int, args: seq<string>, id: string, now: int, t: nat, c: nat)
    requires DbOk(db) && Asks(clients, fd, args, "/info") && InChannel(db, clients[fd], t, c) && clients[fd].ctx.thread == ""
    ensures var x := db.teams[t].channels[c];
            Only(db, clients[fd], fd, Execute(db, clients, fd, args, id, now),
                 [[Word("200"), Word("INFO"), Word("CHANNEL"), Field(x.uuid), Field(x.name), Field(x.description)]])
  {
    var x := db.teams[t].channels[c];
    Dispatched(db, clients, fd, args, id, now);
    InsideChannel(db, clients[fd], t, c);
    AnswerTells(db, clients[fd], fd, [Word("200"), Word("INFO"), Word("CHANNEL"), Field(x.uuid), Field(x.name), Field(x.description)]);
  }

  lemma TeamDescribed(db: Database, clients: Clients, fd: int, args: seq<string>, id: string, now: int, t: nat)
    requires DbOk(db) && Asks(clients, fd, args, "/info") && InTeam(db, clients[fd], t)
    requires clients[fd].user in db.teams[t].subscribers && clients[fd].ctx.channel == "" && clients[fd].ctx.thread == ""
    ensures var x := db.teams[t];
            Only(db, clients[fd], fd, Execute(db, clients, fd, args, id, now),
                 [[Word("200"), Word("INFO"), Word("TEAM"), Field(x.uuid), Field(x.name), Field(x.description)]])
  {
    var x := db.teams[t];
    Dispatched(db, clients, fd, args, id, now);
    TeamAt(db, t);
    assert TeamOk(db.users, x);
    AnswerTells(db, clients[fd], fd, [Word("200"), Word("INFO"), Word("TEAM"), Field(x.uuid), Field(x.name), Field(x.description)]);
  }

  /** Outside every context `/info` describes the user. */
  lemma SelfDescribed(db: Database, clients: Clients, fd: int, args: seq<string>, id: string, now: int, i: nat)
    requires DbOk(db) && Asks(clients, fd, args, "/info") && clients[fd].user != "" && clients[fd].ctx == Context("", "", "")
    requires i < |db.users| && db.users[i].uuid == clients[fd].user
    ensures var x := db.users[i];
            Only(db, clients[fd], fd, Execute(db, clients, fd, args, id, now),
                 [[Word("200"), Word("INFO"), Word("USER"), Field(x.uuid), Field(x.name), Word(if x.connections > 0 then "1" else "0")]])
  {
    var x := db.users[i];
    Dispatched(db, clients, fd, args, id, now);
    UserAt(db, i);
    AnswerTells(db, clients[fd], fd, [Word("200"), Word("INFO"), Word("USER"), Field(x.uuid), Field(x.name), Connected(x)]);
  }
}
