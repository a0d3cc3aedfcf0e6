/** What the commands mean for users: notifications, access, conversations, listings. */
module Guarantees {
  import opened Text
  import opened Protocol
  import opened Framing
  import opened Model
  import opened Lookup
  import opened Commands
  import opened Delivery
  import opened Invariant
  import opened CommandsKeep
  import opened FramesKeep

  // ---------------------------------------------------------------------------
  // Creations and who hears of them

  predicate IsCreated(f: Frame) {
    |f| >= 2 && f[0] == Word("201") && f[1] == Word("CREATED")
  }

  predicate IsEvent(f: Frame) {
    |f| >= 2 && f[0] == Word("EVENT")
  }

  /** The answer first, then the event to every client logged in as a subscriber. */
  predicate Notified(clients: Clients, fd: int, subs: seq<string>, outs: seq<Out>) {
    && |outs| == 2 && IsCreated(outs[0].frame) && IsEvent(outs[1].frame)
    && outs[0].to == {fd} && outs[1].to == SubscriberSessions(clients, subs)
  }

  predicate Refused(fd: int, outs: seq<Out>) {
    |outs| == 1 && outs[0].to == {fd} && !IsCreated(outs[0].frame)
  }

  /** The same teams with the same subscribers. */
  predicate SameTeams(a: Database, b: Database) {
    && TeamIds(b.teams) == TeamIds(a.teams)
    && forall i :: 0 <= i < |a.teams| ==> b.teams[i].subscribers == a.teams[i].subscribers
  }

  lemma NotifySame(a: Database, b: Database, clients: Clients, uuid: string, event: Frame)
    requires uuid != "" && FindTeam(a, uuid).Some? && |a.teams| == |b.teams| && SameTeams(a, b)
    ensures Notify(b, clients, uuid, event) ==
            [Out(SubscriberSessions(clients, a.teams[FindTeam(a, uuid).value].subscribers), event)]
  {
  }

  lemma RefusalWords(what: string)
    ensures !IsCreated(BAD_REQUEST) && !IsCreated(ALREADY_EXISTS) && !IsCreated(FORBIDDEN) && !IsCreated(NotFound(what))
  {
    assert "400" != "201" && "409" != "201" && "403" != "201" && "404" != "201" by {
      assert "400"[0] != "201"[0] && "409"[0] != "201"[0] && "403"[0] != "201"[0] && "404"[0] != "201"[0];
    }
  }

  lemma ChannelNotifies(db: Database, clients: Clients, fd: int, args: seq<string>, id: string)
    requires fd in clients && clients[fd].ctx.team != ""
    ensures var e, team := CreateChannel(db, clients, fd, args, id), FindTeam(db, clients[fd].ctx.team);
            if e.db == db then Refused(fd, e.outs)
            else team.Some? && Notified(clients, fd, db.teams[team.value].subscribers, e.outs)
  {
    var me := clients[fd];
    var e, team := CreateChannel(db, clients, fd, args, id), AccessibleTeam(db, me).0;
    RefusalWords(me.ctx.team);
    if !Refused(fd, e.outs) {
      var event := [Word("EVENT"), Word("CHANNEL_CREATED"), Field(id), Field(args[1]), Field(args[2])];
      NotifySame(db, e.db, clients, me.ctx.team, event);
      assert |e.db.teams[team.value].channels| == |db.teams[team.value].channels| + 1;
    }
  }

  lemma ThreadNotifies(db: Database, clients: Clients, fd: int, args: seq<string>, id: string, now: int)
    requires fd in clients && clients[fd].ctx.team != ""
    ensures var e, team := CreateThread(db, clients, fd, args, id, now), FindTeam(db, clients[fd].ctx.team);
            if e.db == db then Refused(fd, e.outs)
            else team.Some? && Notified(clients, fd, db.teams[team.value].subscribers, e.outs)
  {
    var me := clients[fd];
    var e, team := CreateThread(db, clients, fd, args, id, now), AccessibleTeam(db, me).0;
    RefusalWords(me.ctx.team);
    RefusalWords(me.ctx.channel);
    if !Refused(fd, e.outs) {
      var fields := [Field(id), Field(me.user), Time(now), Field(args[1]), Field(args[2])];
      var answer, event := [Word("201"), Word("CREATED"), Word("THREAD")] + fields, [Word("EVENT"), Word("THREAD_CREATED")] + fields;
      var (t, c) := FindChannel(db, me.ctx.team, me.ctx.channel).value;
      ThreadAdded(db, t, c, Thread(id, me.user, now, args[1], args[2], []));
      NotifySame(db, e.db, clients, me.ctx.team, event);
      AnsweredThenTold(clients, fd, db.teams[team.value].subscribers, answer, event, e.outs);
    }
  }

  lemma ThreadAdded(db: Database, t: nat, c: nat, x: Thread)
    requires t < |db.teams| && c < |db.teams[t].channels|
    ensures var db' := SetThreads(db, t, c, db.teams[t].channels[c].threads + [x]);
            |db'.teams| == |db.teams| && SameTeams(db, db') && db' != db
  {
    var db' := SetThreads(db, t, c, db.teams[t].channels[c].threads + [x]);
    assert |db'.teams[t].channels[c].threads| == |db.teams[t].channels[c].threads| + 1;
  }

  lemma AnsweredThenTold(clients: Clients, fd: int, subs: seq<string>, answer: Frame, event: Frame, outs: seq<Out>)
    requires IsCreated(answer) && IsEvent(event)
    requires outs == [To(fd, answer)] + [Out(SubscriberSessions(clients, subs), event)]
    ensures Notified(clients, fd, subs, outs)
  {
  }

  lemma ReplyAdded(db: Database, t: nat, c: nat, h: nat, r: Reply)
    requires t < |db.teams| && c < |db.teams[t].channels| && h < |db.teams[t].channels[c].threads|
    ensures var db' := AddReply(db, t, c, h, r); |db'.teams| == |db.teams| && SameTeams(db, db') && db' != db
  {
    var db' := AddReply(db, t, c, h, r);
    assert |db'.teams[t].channels[c].threads[h].replies| == |db.teams[t].channels[c].threads[h].replies| + 1;
  }

  lemma ReplyNotifies(db: Database, clients: Clients, fd: int, args: seq<string>, id: string, now: int)
    requires fd in clients && clients[fd].ctx.team != ""
    ensures var e, team := CreateReply(db, clients, fd, args, id, now), FindTeam(db, clients[fd].ctx.team);
            if e.db == db then Refused(fd, e.outs)
            else team.Some? && Notified(clients, fd, db.teams[team.value].subscribers, e.outs)
  {
    var me := clients[fd];
    RefusalWords(me.ctx.team);
    RefusalWords(me.ctx.channel);
    RefusalWords(me.ctx.thread);
    if AccessibleTeam(db, me).0.Some? && FindChannel(db, me.ctx.team, me.ctx.channel).Some?
       && FindThread(db, me.ctx.channel, me.ctx.thread).Some? && !(|args| < 2 || InvalidLength(args[1], MAX_BODY_LENGTH)) {
      ReplySucceeds(db, clients, fd, args, id, now);
    }
  }

  lemma ReplySucceeds(db: Database, clients: Clients, fd: int, args: seq<string>, id: string, now: int)
    requires fd in clients && clients[fd].ctx.team != ""
    requires AccessibleTeam(db, clients[fd]).0.Some?
    requires FindChannel(db, clients[fd].ctx.team, clients[fd].ctx.channel).Some?
    requires FindThread(db, clients[fd].ctx.channel, clients[fd].ctx.thread).Some?
    requires |args| >= 2 && !InvalidLength(args[1], MAX_BODY_LENGTH)
    ensures var e, team := CreateReply(db, clients, fd, args, id, now), FindTeam(db, clients[fd].ctx.team);
            e.db != db && team.Some? && Notified(clients, fd, db.teams[team.value].subscribers, e.outs)
  {
    var me := clients[fd];
    var e, team := CreateReply(db, clients, fd, args, id, now), AccessibleTeam(db, me).0;
    var (t, c, h) := FindThread(db, me.ctx.channel, me.ctx.thread).value;
    ReplyAdded(db, t, c, h, Reply(id, me.user, now, args[1]));
    var event := [Word("EVENT"), Word("REPLY_CREATED"), Field(me.ctx.team), Field(me.ctx.thread), Field(me.user), Field(args[1])];
    var answer := [Word("201"), Word("CREATED"), Word("REPLY"), Field(me.ctx.thread), Field(me.user), Time(now), Field(args[1])];
    NotifySame(db, e.db, clients, me.ctx.team, event);
    AnsweredThenTold(clients, fd, db.teams[team.value].subscribers, answer, event, e.outs);
  }

  /**
    Creating a channel, a thread or a reply either changes nothing and refuses the creator alone, or
    answers the creator and then tells every client logged in as a subscriber of the team.
  */
  lemma CreationNotifies(db: Database, clients: Clients, fd: int, args: seq<string>, id: string, now: int)
    requires fd in clients && clients[fd].user != "" && clients[fd].ctx.team != ""
    ensures var e, team := Create(db, clients, fd, args, id, now), FindTeam(db, clients[fd].ctx.team);
            if e.db == db then Refused(fd, e.outs)
            else team.Some? && Notified(clients, fd, db.teams[team.value].subscribers, e.outs)
  {
    if clients[fd].ctx.channel == "" {
      ChannelNotifies(db, clients, fd, args, id);
    } else if clients[fd].ctx.thread == "" {
      ThreadNotifies(db, clients, fd, args, id, now);
    } else {
      ReplyNotifies(db, clients, fd, args, id, now);
    }
  }

  /** What a notification leaves in each client's buffer: its own answer, then its own event, or nothing. */
  lemma NotifiedBuffers(clients: Clients, fd: int, e: Effect, subs: seq<string>, f: int)
    requires fd in clients && f in clients && Notified(clients, fd, subs, e.outs)
    ensures var mine := clients[f].user != "" && clients[f].user in subs;
            var news := (if f == fd then [e.outs[0].frame] else []) + (if mine then [e.outs[1].frame] else []);
            FramesFor(f, e.outs) == news &&
            Apply(clients, fd, e)[f].writeBuffer == clients[f].writeBuffer + Wire(FrameTexts(news))
  {
    assert e.outs[1..] == [e.outs[1]];
    assert [e.outs[1]][1..] == [];
    assert FramesFor(f, [e.outs[1]]) == (if f in e.outs[1].to then [e.outs[1].frame] else []) + FramesFor(f, []);
    DeliverBuffers(SetSession(clients, fd, e.user, e.ctx), e.outs, f);
  }

  // ---------------------------------------------------------------------------
  // Access

  predicate Alone(fd: int, outs: seq<Out>) {
    forall i :: 0 <= i < |outs| ==> outs[i].to == {fd}
  }

  /** Before it logs in, a client changes nothing and nobody else hears of what it does. */
  lemma OutsiderChangesNothing(db: Database, clients: Clients, fd: int, args: seq<string>, id: string, now: int)
    requires DbOk(db) && fd in clients && clients[fd].user == "" && (args == [] || args[0] != "/login")
    ensures var e := Execute(db, clients, fd, args, id, now);
            e.db == db && e.user == "" && e.ctx == clients[fd].ctx && Alone(fd, e.outs)
  {
    NobodyIsEmpty(db);
  }

  lemma NobodyIsEmpty(db: Database)
    requires DbOk(db)
    ensures FindUser(db, "").None?
  {
    forall i | 0 <= i < |db.users| ensures db.users[i].uuid != "" {
      assert UserOk(db.users[i]);
    }
    FindUserKnown(db, "");
  }

  /** Only a subscriber's command changes what a team holds. */
  lemma OnlySubscribersChange(db: Database, clients: Clients, fd: int, args: seq<string>, id: string, now: int, t: nat)
    requires DbOk(db) && fd in clients && CtxOk(db, clients[fd].ctx) && t < |db.teams|
    ensures var db' := Execute(db, clients, fd, args, id, now).db;
            t < |db'.teams| &&
            (db'.teams[t].channels == db.teams[t].channels || clients[fd].user in db.teams[t].subscribers)
  {
    if args != [] && args[0] == "/create" {
      OnlySubscribersCreate(db, clients, fd, args, id, now, t);
    } else if IsQuery(args) {
      QueriesChangeNothing(db, clients, fd, args, id, now);
    } else {
      OthersKeepChannels(db, clients, fd, args, id, now, t);
    }
  }

  /** Sessions, messages and subscriptions leave every team's channels alone. */
  lemma OthersKeepChannels(db: Database, clients: Clients, fd: int, args: seq<string>, id: string, now: int, t: nat)
    requires fd in clients && t < |db.teams|
    ensures Login(db, clients, fd, args, id).db.teams == db.teams && Logout(db, clients, fd).db.teams == db.teams
    ensures Send(db, clients, fd, args, now).db.teams == db.teams
    ensures |SubscribeTo(db, clients, fd, args).db.teams| == |UnsubscribeFrom(db, clients, fd, args).db.teams| == |db.teams|
    ensures SubscribeTo(db, clients, fd, args).db.teams[t].channels == db.teams[t].channels
    ensures UnsubscribeFrom(db, clients, fd, args).db.teams[t].channels == db.teams[t].channels
  {
  }

  lemma OnlySubscribersCreate(db: Database, clients: Clients, fd: int, args: seq<string>, id: string, now: int, t: nat)
    requires fd in clients && CtxOk(db, clients[fd].ctx) && t < |db.teams|
    ensures var db' := Create(db, clients, fd, args, id, now).db;
            t < |db'.teams| &&
            (db'.teams[t].channels == db.teams[t].channels || clients[fd].user in db.teams[t].subscribers)
  {
    var me := clients[fd];
    if me.ctx.thread != "" {
      FindChannelIs(db, me.ctx.team, me.ctx.channel);
    }
  }

  // ---------------------------------------------------------------------------
  // Listings

  /** Every subscriber has a line: the skip of unknown users never happens. */
  lemma {:induction false} SubscriberLinesComplete(db: Database, subs: seq<string>)
    requires forall i :: 0 <= i < |subs| ==> Known(db.users, subs[i])
    ensures |SubscriberLines(db, subs)| == |subs|
    ensures forall i :: 0 <= i < |subs| ==>
              FindUser(db, subs[i]).Some? && SubscriberLines(db, subs)[i] == UserLine(db.users[FindUser(db, subs[i]).value])
  {
    if subs != [] {
      var rest := subs[1..];
      assert forall i :: 0 <= i < |rest| ==> rest[i] == subs[i + 1];
      SubscriberLinesComplete(db, rest);
      FindUserKnown(db, subs[0]);
      forall i | 0 <= i < |subs|
        ensures FindUser(db, subs[i]).Some? && SubscriberLines(db, subs)[i] == UserLine(db.users[FindUser(db, subs[i]).value])
      {
        if i > 0 { assert subs[i] == rest[i - 1]; }
      }
    }
  }

  // ---------------------------------------------------------------------------
  // Conversations

  /** A stored message ends both ends' conversation; every other conversation stays as it is. */
  lemma StoreMessageEndsBoth(users: seq<User>, s: nat, r: nat, m: Message, i: nat, other: string)
    requires UsersOk(users) && s < |users| && r < |users| && i < |users|
    ensures var after := Conversation(StoreMessage(users, s, r, m)[i], other);
            var before := Conversation(users[i], other);
            after == before + (if i == s && other == users[r].uuid then [m] else [])
                            + (if i == r && other == users[s].uuid then [m] else [])
  {
    assert Conversation(users[i], other) + [] == Conversation(users[i], other);
  }

  /** Both ends of a conversation are shown the same list. */
  lemma SameMessagesShown(db: Database, clients: Clients, f: int, g: int)
    requires DbOk(db) && f in clients && g in clients && clients[f].user != clients[g].user
    requires Known(db.users, clients[f].user) && Known(db.users, clients[g].user)
    ensures FramesFor(f, MessagesOf(db, clients, f, ["/messages", clients[g].user]).outs) ==
            FramesFor(g, MessagesOf(db, clients, g, ["/messages", clients[f].user]).outs)
  {
    var a, b := clients[f].user, clients[g].user;
    FindUserKnown(db, a);
    FindUserKnown(db, b);
    var i, j := FindUser(db, a).value, FindUser(db, b).value;
    assert UserOk(db.users[i]) && UserOk(db.users[j]);
    var lines := MapSeq(Conversation(db.users[i], b), MessageLine);
    ToEachFor(f, ListBlock(Messages, lines), f);
    ToEachFor(g, ListBlock(Messages, lines), g);
  }
}
