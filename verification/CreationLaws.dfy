/** What `/create` stores at each level of the context, who hears of it, and that it can be entered at once. */
module CreationLaws {
  import opened Text
  import opened Numbers
  import opened Protocol
  import opened Model
  import opened Lookup
  import opened Commands
  import opened Delivery
  import opened Invariant
  import opened CommandsKeep
  import opened Guarantees
  import opened Outcomes
  import opened ContextLaws

  // ---------------------------------------------------------------------------
  // Conditions and audiences

  /** Two texts, the first a name of at most 32 characters, the second within its own limit. */
  predicate TwoTexts(args: seq<string>, max: nat) {
    |args| >= 3 && 0 < |args[1]| <= 32 && 0 < |args[2]| <= max
  }

  ghost predicate TeamNamed(db: Database, name: string) {
    exists t :: 0 <= t < |db.teams| && db.teams[t].name == name
  }

  ghost predicate ChannelNamed(team: Team, name: string) {
    exists c :: 0 <= c < |team.channels| && team.channels[c].name == name
  }

  ghost predicate ThreadTitled(channel: Channel, title: string) {
    exists h :: 0 <= h < |channel.threads| && channel.threads[h].title == title
  }

  /** The requester is answered, then every client logged in as one of these users is told. */
  ghost predicate Announces(clients: Clients, fd: int, subs: seq<string>, e: Effect, answer: Frame, event: Frame) {
    forall f :: FramesFor(f, e.outs) ==
      (if f == fd then [answer] else []) + (if f in clients && clients[f].user in subs then [event] else [])
  }

  lemma NobodySubscribes(db: Database, t: nat)
    requires DbOk(db) && t < |db.teams|
    ensures "" !in db.teams[t].subscribers
  {
    assert TeamOk(db.users, db.teams[t]);
    NobodyIsEmpty(db);
    FindUserKnown(db, "");
  }

  lemma AnnouncedTwo(clients: Clients, fd: int, subs: seq<string>, e: Effect, answer: Frame, event: Frame)
    requires "" !in subs && e.outs == [To(fd, answer)] + [Out(SubscriberSessions(clients, subs), event)]
    ensures Announces(clients, fd, subs, e, answer, event)
  {
    assert e.outs == [To(fd, answer), Out(SubscriberSessions(clients, subs), event)];
    forall f ensures FramesFor(f, e.outs) ==
      (if f == fd then [answer] else []) + (if f in clients && clients[f].user in subs then [event] else [])
    {
      TwoFor(f, To(fd, answer), Out(SubscriberSessions(clients, subs), event));
    }
  }

  /** Who is not logged in creates nothing, and neither does who left the team of the context. */
  lemma CreateRefused(db: Database, clients: Clients, fd: int, args: seq<string>, id: string, now: int)
    requires Asks(clients, fd, args, "/create")
    ensures var e, me := Execute(db, clients, fd, args, id, now), clients[fd];
            && (me.user == "" ==> Only(db, me, fd, e, [[Word("401"), Word("UNAUTHORIZED")]]))
            && (me.user != "" && me.ctx.team != "" && !IsTeam(db, me.ctx.team) ==>
                  Only(db, me, fd, e, [[Word("404"), Word("NOT_FOUND"), Field(me.ctx.team)]]))
  {
    var me := clients[fd];
    Dispatched(db, clients, fd, args, id, now);
    AnswerTells(db, me, fd, UNAUTHORIZED);
    AnswerTells(db, me, fd, NotFound(me.ctx.team));
  }

  lemma StrangerCreatesNothing(db: Database, clients: Clients, fd: int, args: seq<string>, id: string, now: int, t: nat)
    requires DbOk(db) && Asks(clients, fd, args, "/create")
    requires InTeam(db, clients[fd], t) && clients[fd].user !in db.teams[t].subscribers
    ensures Only(db, clients[fd], fd, Execute(db, clients, fd, args, id, now), [[Word("403"), Word("FORBIDDEN")]])
  {
    Dispatched(db, clients, fd, args, id, now);
    TeamAt(db, t);
    assert TeamOk(db.users, db.teams[t]);
    AnswerTells(db, clients[fd], fd, FORBIDDEN);
  }

  // ---------------------------------------------------------------------------
  // Teams

  predicate CreatesTeam(clients: Clients, fd: int, args: seq<string>) {
    Asks(clients, fd, args, "/create") && clients[fd].user != "" && clients[fd].ctx.team == ""
  }

  lemma TeamRefused(db: Database, clients: Clients, fd: int, args: seq<string>, id: string, now: int)
    requires CreatesTeam(clients, fd, args)
    ensures var e, me := Execute(db, clients, fd, args, id, now), clients[fd];
            && (!TwoTexts(args, 255) ==> Only(db, me, fd, e, [[Word("400"), Word("BAD_REQUEST")]]))
            && (TwoTexts(args, 255) && TeamNamed(db, args[1]) ==> Only(db, me, fd, e, [[Word("409"), Word("ALREADY_EXISTS")]]))
  {
    Dispatched(db, clients, fd, args, id, now);
    AnswerTells(db, clients[fd], fd, BAD_REQUEST);
    AnswerTells(db, clients[fd], fd, ALREADY_EXISTS);
  }

  /** One team is appended, with its creator as the only subscriber; everybody hears of it. */
  lemma TeamCreated(db: Database, clients: Clients, fd: int, args: seq<string>, id: string, now: int)
    requires CreatesTeam(clients, fd, args) && TwoTexts(args, 255) && !TeamNamed(db, args[1])
    ensures var e, me := Execute(db, clients, fd, args, id, now), clients[fd];
            && e.db == Database(db.users, db.teams + [Team(id, args[1], args[2], [me.user], [])])
            && e.user == me.user && e.ctx == me.ctx
            && forall f :: FramesFor(f, e.outs) ==
                 (if f == fd then [[Word("201"), Word("CREATED"), Word("TEAM"), Field(id), Field(args[1]), Field(args[2])]] else []) +
                 (if f in clients then [[Word("EVENT"), Word("TEAM_CREATED"), Field(id), Field(args[1]), Field(args[2])]] else [])
  {
    var e := Execute(db, clients, fd, args, id, now);
    Dispatched(db, clients, fd, args, id, now);
    var answer := To(fd, [Word("201"), Word("CREATED"), Word("TEAM"), Field(id), Field(args[1]), Field(args[2])]);
    var event := ToAll(clients, [Word("EVENT"), Word("TEAM_CREATED"), Field(id), Field(args[1]), Field(args[2])]);
    forall f ensures FramesFor(f, e.outs) == (if f == fd then [answer.frame] else []) + (if f in clients then [event.frame] else []) {
      TwoFor(f, answer, event);
    }
  }

  // ---------------------------------------------------------------------------
  // Channels

  predicate CreatesChannel(db: Database, clients: Clients, fd: int, args: seq<string>, t: nat) {
    && Asks(clients, fd, args, "/create") && InTeam(db, clients[fd], t) && clients[fd].user in db.teams[t].subscribers
    && clients[fd].ctx.channel == ""
  }

  lemma ChannelReachedFor(db: Database, clients: Clients, fd: int, args: seq<string>, id: string, now: int, t: nat)
    requires DbOk(db) && CreatesChannel(db, clients, fd, args, t)
    ensures Execute(db, clients, fd, args, id, now) == CreateChannel(db, clients, fd, args, id)
    ensures AccessibleTeam(db, clients[fd]).0 == Some(t) && clients[fd].ctx.team != ""
  {
    Dispatched(db, clients, fd, args, id, now);
    TeamAt(db, t);
    assert TeamOk(db.users, db.teams[t]);
  }

  lemma ChannelRefused(db: Database, clients: Clients, fd: int, args: seq<string>, id: string, now: int, t: nat)
    requires DbOk(db) && CreatesChannel(db, clients, fd, args, t)
    ensures var e, me := Execute(db, clients, fd, args, id, now), clients[fd];
            && (!TwoTexts(args, 255) ==> Only(db, me, fd, e, [[Word("400"), Word("BAD_REQUEST")]]))
            && (TwoTexts(args, 255) && ChannelNamed(db.teams[t], args[1]) ==>
                  Only(db, me, fd, e, [[Word("409"), Word("ALREADY_EXISTS")]]))
  {
    ChannelReachedFor(db, clients, fd, args, id, now, t);
    AnswerTells(db, clients[fd], fd, BAD_REQUEST);
    AnswerTells(db, clients[fd], fd, ALREADY_EXISTS);
  }

  /** One channel is appended to the team of the context. */
  lemma ChannelCreated(db: Database, clients: Clients, fd: int, args: seq<string>, id: string, now: int, t: nat)
    requires DbOk(db) && CreatesChannel(db, clients, fd, args, t)
    requires TwoTexts(args, 255) && !ChannelNamed(db.teams[t], args[1])
    ensures var e, me, team := Execute(db, clients, fd, args, id, now), clients[fd], db.teams[t];
            && e.db == Database(db.users, db.teams[t := team.(channels := team.channels + [Channel(id, args[1], args[2], [])])])
            && e.user == me.user && e.ctx == me.ctx
            && Announces(clients, fd, team.subscribers, e,
                         [Word("201"), Word("CREATED"), Word("CHANNEL"), Field(id), Field(args[1]), Field(args[2])],
                         [Word("EVENT"), Word("CHANNEL_CREATED"), Field(id), Field(args[1]), Field(args[2])])
  {
    ChannelReachedFor(db, clients, fd, args, id, now, t);
    ChannelAppended(db, clients, fd, args, id, t);
  }

  lemma ChannelAppended(db: Database, clients: Clients, fd: int, args: seq<string>, id: string, t: nat)
    requires DbOk(db) && CreatesChannel(db, clients, fd, args, t) && AccessibleTeam(db, clients[fd]).0 == Some(t)
    requires clients[fd].ctx.team != "" && TwoTexts(args, 255) && !ChannelNamed(db.teams[t], args[1])
    ensures var e, me, team := CreateChannel(db, clients, fd, args, id), clients[fd], db.teams[t];
            && e.db == Database(db.users, db.teams[t := team.(channels := team.channels + [Channel(id, args[1], args[2], [])])])
            && e.user == me.user && e.ctx == me.ctx
            && Announces(clients, fd, team.subscribers, e,
                         [Word("201"), Word("CREATED"), Word("CHANNEL"), Field(id), Field(args[1]), Field(args[2])],
                         [Word("EVENT"), Word("CHANNEL_CREATED"), Field(id), Field(args[1]), Field(args[2])])
  {
    var e := CreateChannel(db, clients, fd, args, id);
    var answer := [Word("201"), Word("CREATED"), Word("CHANNEL"), Field(id), Field(args[1]), Field(args[2])];
    var event := [Word("EVENT"), Word("CHANNEL_CREATED"), Field(id), Field(args[1]), Field(args[2])];
    NotifySame(db, e.db, clients, clients[fd].ctx.team, event);
    NobodySubscribes(db, t);
    AnnouncedTwo(clients, fd, db.teams[t].subscribers, e, answer, event);
  }

  // ---------------------------------------------------------------------------
  // Threads

  predicate CreatesThread(db: Database, clients: Clients, fd: int, args: seq<string>, t: nat, c: nat) {
    Asks(clients, fd, args, "/create") && InChannel(db, clients[fd], t, c) && clients[fd].ctx.thread == ""
  }

  lemma ThreadReachedFor(db: Database, clients: Clients, fd: int, args: seq<string>, id: string, now: int, t: nat, c: nat)
    requires DbOk(db) && CreatesThread(db, clients, fd, args, t, c)
    ensures Execute(db, clients, fd, args, id, now) == CreateThread(db, clients, fd, args, id, now)
    ensures AccessibleTeam(db, clients[fd]).0 == Some(t) && clients[fd].ctx.team != ""
    ensures FindChannel(db, clients[fd].ctx.team, clients[fd].ctx.channel) == Some((t, c))
  {
    Dispatched(db, clients, fd, args, id, now);
    TeamAt(db, t);
    InsideChannel(db, clients[fd], t, c);
  }

  lemma ThreadRefused(db: Database, clients: Clients, fd: int, args: seq<string>, id: string, now: int, t: nat, c: nat)
    requires DbOk(db) && CreatesThread(db, clients, fd, args, t, c)
    ensures var e, me := Execute(db, clients, fd, args, id, now), clients[fd];
            && (!TwoTexts(args, 512) ==> Only(db, me, fd, e, [[Word("400"), Word("BAD_REQUEST")]]))
            && (TwoTexts(args, 512) && ThreadTitled(db.teams[t].channels[c], args[1]) ==>
                  Only(db, me, fd, e, [[Word("409"), Word("ALREADY_EXISTS")]]))
  {
    ThreadReachedFor(db, clients, fd, args, id, now, t, c);
    AnswerTells(db, clients[fd], fd, BAD_REQUEST);
    AnswerTells(db, clients[fd], fd, ALREADY_EXISTS);
  }

  /** The database with another list of threads in one channel. */
  function WithThreads(db: Database, t: nat, c: nat, threads: seq<Thread>): Database
    requires t < |db.teams| && c < |db.teams[t].channels|
  {
    var team := db.teams[t];
    Database(db.users, db.teams[t := team.(channels := team.channels[c := team.channels[c].(threads := threads)])])
  }

  /** One thread is appended to the channel of the context, by its author at its time. */
  lemma ThreadCreated(db: Database, clients: Clients, fd: int, args: seq<string>, id: string, now: int, t: nat, c: nat)
    requires DbOk(db) && CreatesThread(db, clients, fd, args, t, c)
    requires TwoTexts(args, 512) && !ThreadTitled(db.teams[t].channels[c], args[1])
    ensures var e, me := Execute(db, clients, fd, args, id, now), clients[fd];
            && e.db == WithThreads(db, t, c, db.teams[t].channels[c].threads + [Thread(id, me.user, now, args[1], args[2], [])])
            && e.user == me.user && e.ctx == me.ctx
            && Announces(clients, fd, db.teams[t].subscribers, e,
                         [Word("201"), Word("CREATED"), Word("THREAD"), Field(id), Field(me.user), Word(IntText(now)),
                          Field(args[1]), Field(args[2])],
                         [Word("EVENT"), Word("THREAD_CREATED"), Field(id), Field(me.user), Word(IntText(now)),
                          Field(args[1]), Field(args[2])])
  {
    ThreadReachedFor(db, clients, fd, args, id, now, t, c);
    ThreadAppended(db, clients, fd, args, id, now, t, c);
  }

  lemma ThreadAppended(db: Database, clients: Clients, fd: int, args: seq<string>, id: string, now: int, t: nat, c: nat)
    requires DbOk(db) && CreatesThread(db, clients, fd, args, t, c) && AccessibleTeam(db, clients[fd]).0 == Some(t)
    requires clients[fd].ctx.team != "" && FindChannel(db, clients[fd].ctx.team, clients[fd].ctx.channel) == Some((t, c))
    requires TwoTexts(args, 512) && !ThreadTitled(db.teams[t].channels[c], args[1])
    ensures var e, me := CreateThread(db, clients, fd, args, id, now), clients[fd];
            && e.db == WithThreads(db, t, c, db.teams[t].channels[c].threads + [Thread(id, me.user, now, args[1], args[2], [])])
            && e.user == me.user && e.ctx == me.ctx
            && Announces(clients, fd, db.teams[t].subscribers, e,
                         [Word("201"), Word("CREATED"), Word("THREAD"), Field(id), Field(me.user), Word(IntText(now)),
                          Field(args[1]), Field(args[2])],
                         [Word("EVENT"), Word("THREAD_CREATED"), Field(id), Field(me.user), Word(IntText(now)),
                          Field(args[1]), Field(args[2])])
  {
    var e, me := CreateThread(db, clients, fd, args, id, now), clients[fd];
    var fields := [Field(id), Field(me.user), Time(now), Field(args[1]), Field(args[2])];
    var event := [Word("EVENT"), Word("THREAD_CREATED")] + fields;
    NotifySame(db, e.db, clients, me.ctx.team, event);
    NobodySubscribes(db, t);
    AnnouncedTwo(clients, fd, db.teams[t].subscribers, e, [Word("201"), Word("CREATED"), Word("THREAD")] + fields, event);
    ThreadWords(id, me.user, now, args[1], args[2]);
  }

  lemma ThreadWords(id: string, author: string, now: int, title: string, body: string)
    ensures var fields := [Field(id), Field(author), Time(now), Field(title), Field(body)];
            && [Word("201"), Word("CREATED"), Word("THREAD")] + fields ==
               [Word("201"), Word("CREATED"), Word("THREAD"), Field(id), Field(author), Word(IntText(now)), Field(title), Field(body)]
            && [Word("EVENT"), Word("THREAD_CREATED")] + fields ==
               [Word("EVENT"), Word("THREAD_CREATED"), Field(id), Field(author), Word(IntText(now)), Field(title), Field(body)]
  {
  }

  // ---------------------------------------------------------------------------
  // Replies

  predicate CreatesReply(db: Database, clients: Clients, fd: int, args: seq<string>, t: nat, c: nat, h: nat) {
    Asks(clients, fd, args, "/create") && InThread(db, clients[fd], t, c, h)
  }

  lemma ReplyReachedFor(db: Database, clients: Clients, fd: int, args: seq<string>, id: string, now: int, t: nat, c: nat, h: nat)
    requires DbOk(db) && CreatesReply(db, clients, fd, args, t, c, h)
    ensures Execute(db, clients, fd, args, id, now) == CreateReply(db, clients, fd, args, id, now)
    ensures AccessibleTeam(db, clients[fd]).0 == Some(t) && clients[fd].ctx.team != ""
    ensures FindChannel(db, clients[fd].ctx.team, clients[fd].ctx.channel).Some?
    ensures FindThread(db, clients[fd].ctx.channel, clients[fd].ctx.thread) == Some((t, c, h))
  {
    Dispatched(db, clients, fd, args, id, now);
    TeamAt(db, t);
    InsideChannel(db, clients[fd], t, c);
    InsideThread(db, clients[fd], t, c, h);
  }

  lemma ReplyRefused(db: Database, clients: Clients, fd: int, args: seq<string>, id: string, now: int, t: nat, c: nat, h: nat)
    requires DbOk(db) && CreatesReply(db, clients, fd, args, t, c, h)
    requires |args| < 2 || args[1] == "" || |args[1]| > 512
    ensures Only(db, clients[fd], fd, Execute(db, clients, fd, args, id, now), [[Word("400"), Word("BAD_REQUEST")]])
  {
    ReplyReachedFor(db, clients, fd, args, id, now, t, c, h);
    AnswerTells(db, clients[fd], fd, BAD_REQUEST);
  }

  function WithReply(threads: seq<Thread>, h: nat, r: Reply): seq<Thread>
    requires h < |threads|
  {
    threads[h := threads[h].(replies := threads[h].replies + [r])]
  }

  /** One reply is appended to the thread of the context, by its author at its time. */
  lemma ReplyCreated(db: Database, clients: Clients, fd: int, args: seq<string>, id: string, now: int, t: nat, c: nat, h: nat)
    requires DbOk(db) && CreatesReply(db, clients, fd, args, t, c, h) && |args| >= 2 && 0 < |args[1]| <= 512
    ensures var e, me := Execute(db, clients, fd, args, id, now), clients[fd];
            && e.db == WithThreads(db, t, c, WithReply(db.teams[t].channels[c].threads, h, Reply(id, me.user, now, args[1])))
            && e.user == me.user && e.ctx == me.ctx
            && Announces(clients, fd, db.teams[t].subscribers, e,
                         [Word("201"), Word("CREATED"), Word("REPLY"), Field(me.ctx.thread), Field(me.user), Word(IntText(now)),
                          Field(args[1])],
                         [Word("EVENT"), Word("REPLY_CREATED"), Field(me.ctx.team), Field(me.ctx.thread), Field(me.user),
                          Field(args[1])])
  {
    ReplyReachedFor(db, clients, fd, args, id, now, t, c, h);
    ReplyAppended(db, clients, fd, args, id, now, t, c, h);
  }

  lemma ReplyAppended(db: Database, clients: Clients, fd: int, args: seq<string>, id: string, now: int, t: nat, c: nat, h: nat)
    requires DbOk(db) && CreatesReply(db, clients, fd, args, t, c, h) && |args| >= 2 && 0 < |args[1]| <= 512
    requires AccessibleTeam(db, clients[fd]).0 == Some(t) && clients[fd].ctx.team != ""
    requires FindChannel(db, clients[fd].ctx.team, clients[fd].ctx.channel).Some?
    requires FindThread(db, clients[fd].ctx.channel, clients[fd].ctx.thread) == Some((t, c, h))
    ensures var e, me := CreateReply(db, clients, fd, args, id, now), clients[fd];
            && e.db == WithThreads(db, t, c, WithReply(db.teams[t].channels[c].threads, h, Reply(id, me.user, now, args[1])))
            && e.user == me.user && e.ctx == me.ctx
            && Announces(clients, fd, db.teams[t].subscribers, e,
                         [Word("201"), Word("CREATED"), Word("REPLY"), Field(me.ctx.thread), Field(me.user), Word(IntText(now)),
                          Field(args[1])],
                         [Word("EVENT"), Word("REPLY_CREATED"), Field(me.ctx.team), Field(me.ctx.thread), Field(me.user),
                          Field(args[1])])
  {
    var e, me := CreateReply(db, clients, fd, args, id, now), clients[fd];
    var answer := [Word("201"), Word("CREATED"), Word("REPLY"), Field(me.ctx.thread), Field(me.user), Time(now), Field(args[1])];
    var event := [Word("EVENT"), Word("REPLY_CREATED"), Field(me.ctx.team), Field(me.ctx.thread), Field(me.user), Field(args[1])];
    NotifySame(db, e.db, clients, me.ctx.team, event);
    NobodySubscribes(db, t);
    AnnouncedTwo(clients, fd, db.teams[t].subscribers, e, answer, event);
  }

  /** A context whose channel or thread is gone is named in the refusal. */
  lemma ChannelGone(db: Database, clients: Clients, fd: int, args: seq<string>, id: string, now: int, t: nat)
    requires DbOk(db) && Asks(clients, fd, args, "/create") && InTeam(db, clients[fd], t)
    requires clients[fd].user in db.teams[t].subscribers
    requires clients[fd].ctx.channel != "" && !HasChannel(db.teams[t], clients[fd].ctx.channel)
    ensures Only(db, clients[fd], fd, Execute(db, clients, fd, args, id, now),
                 [[Word("404"), Word("NOT_FOUND"), Field(clients[fd].ctx.channel)]])
  {
    Dispatched(db, clients, fd, args, id, now);
    TeamAt(db, t);
    assert TeamOk(db.users, db.teams[t]);
    NoChannel(db, t, clients[fd].ctx.channel);
    AnswerTells(db, clients[fd], fd, NotFound(clients[fd].ctx.channel));
  }

  lemma ThreadGone(db: Database, clients: Clients, fd: int, args: seq<string>, id: string, now: int, t: nat, c: nat)
    requires DbOk(db) && Asks(clients, fd, args, "/create") && InChannel(db, clients[fd], t, c)
    requires clients[fd].ctx.thread != "" && !HasThread(db.teams[t].channels[c], clients[fd].ctx.thread)
    ensures Only(db, clients[fd], fd, Execute(db, clients, fd, args, id, now),
                 [[Word("404"), Word("NOT_FOUND"), Field(clients[fd].ctx.thread)]])
  {
    Dispatched(db, clients, fd, args, id, now);
    TeamAt(db, t);
    InsideChannel(db, clients[fd], t, c);
    NoThread(db, t, c, clients[fd].ctx.thread);
    AnswerTells(db, clients[fd], fd, NotFound(clients[fd].ctx.thread));
  }

  // ---------------------------------------------------------------------------
  // Creating, then entering

  lemma UserAfter(clients: Clients, fd: int, e: Effect)
    requires fd in clients
    ensures Apply(clients, fd, e)[fd].user == e.user
  {
    ApplyShare(clients, fd, e, fd);
  }

  lemma TeamThenUse(db: Database, clients: Clients, fd: int, args: seq<string>, id: string, now: int, id': string, now': int)
    requires Ready(db, clients, fd, args, id, now) && CreatesTeam(clients, fd, args)
    requires TwoTexts(args, 255) && !TeamNamed(db, args[1])
    ensures var e := Execute(db, clients, fd, args, id, now);
            Execute(e.db, Apply(clients, fd, e), fd, ["/use", id], id', now').ctx == Context(id, "", "")
  {
    var e := Execute(db, clients, fd, args, id, now);
    TeamCreated(db, clients, fd, args, id, now);
    ExecuteKeepsDb(db, clients, fd, args, id, now);
    UserAfter(clients, fd, e);
    UseTeam(e.db, Apply(clients, fd, e), fd, ["/use", id], id', now', |db.teams|);
  }

  lemma ChannelThenUse(db: Database, clients: Clients, fd: int, args: seq<string>, id: string, now: int, id': string, now': int,
                       t: nat)
    requires Ready(db, clients, fd, args, id, now) && CreatesChannel(db, clients, fd, args, t)
    requires TwoTexts(args, 255) && !ChannelNamed(db.teams[t], args[1])
    ensures var e, team := Execute(db, clients, fd, args, id, now), clients[fd].ctx.team;
            Execute(e.db, Apply(clients, fd, e), fd, ["/use", team, id], id', now').ctx == Context(team, id, "")
  {
    var e, team := Execute(db, clients, fd, args, id, now), clients[fd].ctx.team;
    ChannelCreated(db, clients, fd, args, id, now, t);
    ExecuteKeepsDb(db, clients, fd, args, id, now);
    UserAfter(clients, fd, e);
    assert e.db.teams[t].channels[|db.teams[t].channels|].uuid == id;
    UseChannelOf(e.db, Apply(clients, fd, e), fd, ["/use", team, id], id', now', t, |db.teams[t].channels|);
  }

  lemma ThreadThenUse(db: Database, clients: Clients, fd: int, args: seq<string>, id: string, now: int, id': string, now': int,
                      t: nat, c: nat)
    requires Ready(db, clients, fd, args, id, now) && CreatesThread(db, clients, fd, args, t, c)
    requires TwoTexts(args, 512) && !ThreadTitled(db.teams[t].channels[c], args[1])
    ensures var e, ctx := Execute(db, clients, fd, args, id, now), clients[fd].ctx;
            Execute(e.db, Apply(clients, fd, e), fd, ["/use", ctx.team, ctx.channel, id], id', now').ctx ==
            Context(ctx.team, ctx.channel, id)
  {
    var e, ctx := Execute(db, clients, fd, args, id, now), clients[fd].ctx;
    ThreadCreated(db, clients, fd, args, id, now, t, c);
    ExecuteKeepsDb(db, clients, fd, args, id, now);
    UserAfter(clients, fd, e);
    var h := |db.teams[t].channels[c].threads|;
    assert e.db.teams[t].channels[c].threads[h].uuid == id;
    UseThreadOf(e.db, Apply(clients, fd, e), fd, ["/use", ctx.team, ctx.channel, id], id', now', t, c, h);
  }

  /** The level below the context. */
  function Below(ctx: Context, id: string): Context {
    if ctx.team == "" then Context(id, "", "")
    else if ctx.channel == "" then Context(ctx.team, id, "")
    else Context(ctx.team, ctx.channel, id)
  }

  function PathTo(ctx: Context): seq<string> {
    if ctx.channel == "" then ["/use", ctx.team]
    else if ctx.thread == "" then ["/use", ctx.team, ctx.channel]
    else ["/use", ctx.team, ctx.channel, ctx.thread]
  }

  /** A team, channel or thread just created can be entered at once: `/use` with its identifier installs it. */
  lemma CreateThenUse(db: Database, clients: Clients, fd: int, args: seq<string>, id: string, now: int, id': string, now': int)
    requires Ready(db, clients, fd, args, id, now) && Asks(clients, fd, args, "/create") && clients[fd].ctx.thread == ""
    requires Execute(db, clients, fd, args, id, now).db != db
    ensures var e, below := Execute(db, clients, fd, args, id, now), Below(clients[fd].ctx, id);
            Execute(e.db, Apply(clients, fd, e), fd, PathTo(below), id', now').ctx == below
  {
    var me := clients[fd];
    assert SessionOk(db, me) && id != "";
    CreateRefused(db, clients, fd, args, id, now);
    if me.ctx.team == "" {
      TeamRefused(db, clients, fd, args, id, now);
      TeamThenUse(db, clients, fd, args, id, now, id', now');
    } else if me.ctx.channel == "" {
      var t := FindTeam(db, me.ctx.team).value;
      ChannelCreatedBy(db, clients, fd, args, id, now, t);
      ChannelThenUse(db, clients, fd, args, id, now, id', now', t);
    } else {
      var (t, c) := FindChannel(db, me.ctx.team, me.ctx.channel).value;
      FindChannelIs(db, me.ctx.team, me.ctx.channel);
      ThreadCreatedBy(db, clients, fd, args, id, now, t, c);
      ThreadThenUse(db, clients, fd, args, id, now, id', now', t, c);
    }
  }

  lemma ChannelCreatedBy(db: Database, clients: Clients, fd: int, args: seq<string>, id: string, now: int, t: nat)
    requires DbOk(db) && Asks(clients, fd, args, "/create") && InTeam(db, clients[fd], t) && clients[fd].ctx.channel == ""
    requires Execute(db, clients, fd, args, id, now).db != db
    ensures CreatesChannel(db, clients, fd, args, t) && TwoTexts(args, 255) && !ChannelNamed(db.teams[t], args[1])
  {
    if clients[fd].user !in db.teams[t].subscribers {
      StrangerCreatesNothing(db, clients, fd, args, id, now, t);
    } else {
      ChannelRefused(db, clients, fd, args, id, now, t);
    }
  }

  lemma ThreadCreatedBy(db: Database, clients: Clients, fd: int, args: seq<string>, id: string, now: int, t: nat, c: nat)
    requires DbOk(db) && Asks(clients, fd, args, "/create") && InTeam(db, clients[fd], t) && clients[fd].ctx.thread == ""
    requires c < |db.teams[t].channels| && db.teams[t].channels[c].uuid == clients[fd].ctx.channel
    requires Execute(db, clients, fd, args, id, now).db != db
    ensures CreatesThread(db, clients, fd, args, t, c)
    ensures TwoTexts(args, 512) && !ThreadTitled(db.teams[t].channels[c], args[1])
  {
    if clients[fd].user !in db.teams[t].subscribers {
      StrangerCreatesNothing(db, clients, fd, args, id, now, t);
    } else {
      ThreadRefused(db, clients, fd, args, id, now, t, c);
    }
  }
}
