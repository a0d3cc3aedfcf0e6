/** When the clients are told that a user is gone: exactly when that user's last session ends. */
module Departures {
  import opened Text
  import opened Protocol
  import opened Model
  import opened Lookup
  import opened Commands
  import opened Delivery
  import opened Invariant
  import opened CommandsKeep
  import opened ServerState
  import opened Runs

  // ---------------------------------------------------------------------------
  // Announcing that a user is gone

  predicate Sends(outs: seq<Out>, frame: Frame) {
    exists i :: 0 <= i < |outs| && outs[i].frame == frame
  }

  /** The frame is sent, and only ever to this audience. */
  predicate SentTo(outs: seq<Out>, frame: Frame, audience: set<int>) {
    Sends(outs, frame) && forall i :: 0 <= i < |outs| && outs[i].frame == frame ==> outs[i].to == audience
  }

  /** The frames whose second word is as long as `USER_LOGGED_OUT` and starts like it: that word is the only one. */
  predicate Departure(f: Frame) {
    |f| >= 2 && f[1].Word? && |f[1].text| == 15 && f[1].text[0] == 'U'
  }

  predicate NoDeparture(outs: seq<Out>) {
    forall i :: 0 <= i < |outs| ==> !Departure(outs[i].frame)
  }

  /** Releasing a session announces the user exactly when it was the only one. */
  lemma ReleaseAnnounces(db: Database, clients: Clients, fd: int)
    requires DbOk(db) && SessionsOk(db, clients) && fd in clients && clients[fd].user != ""
    ensures FindUser(db, clients[fd].user).Some?
    ensures var u := db.users[FindUser(db, clients[fd].user).value];
            var gone := Release(db, clients[fd].user).1;
            && (gone.Some? <==> Sessions(clients, clients[fd].user) == {fd})
            && (gone.Some? ==> LoggedOut(gone.value) == LoggedOut(u))
  {
    var user := clients[fd].user;
    assert SessionOk(db, clients[fd]);
    FindUserKnown(db, user);
    var i := FindUser(db, user).value;
    LeaveCounts(db.users, i, clients, fd);
    var s := Sessions(clients, user);
    assert fd in s && db.users[i].connections == |s|;
    if |s| == 1 {
      OnlyMember(s, fd);
    }
  }

  lemma OnlyMember(s: set<int>, x: int)
    requires x in s && |s| == 1
    ensures s == {x}
  {
    assert |s - {x}| == 0;
    assert s == (s - {x}) + {x};
  }

  lemma LogoutAnnounces(db: Database, clients: Clients, fd: int)
    requires DbOk(db) && SessionsOk(db, clients) && fd in clients && clients[fd].user != ""
    ensures FindUser(db, clients[fd].user).Some?
    ensures var u := db.users[FindUser(db, clients[fd].user).value];
            Logout(db, clients, fd).outs ==
            (if Sessions(clients, clients[fd].user) == {fd} then [ToAll(clients, LoggedOut(u))] else []) + [To(fd, OK)]
  {
    ReleaseAnnounces(db, clients, fd);
  }

  /** A disconnection tells the remaining clients exactly when the user's last session goes with it. */
  lemma DisconnectAnnounces(s: State, fd: int)
    requires Inv(s) && fd in s.clients
    ensures var user := s.clients[fd].user;
            if user == "" || Sessions(s.clients, user) != {fd} then Announcement(s, fd) == []
            else && FindUser(s.db, user).Some?
                 && Announcement(s, fd) == [ToAll(s.clients - {fd}, LoggedOut(s.db.users[FindUser(s.db, user).value]))]
  {
    if s.clients[fd].user != "" {
      ReleaseAnnounces(s.db, s.clients, fd);
    }
  }

  lemma StatusNoDeparture(kind: string, what: string)
    ensures !Departure(OK) && !Departure(BAD_REQUEST) && !Departure(UNAUTHORIZED) && !Departure(FORBIDDEN)
    ensures !Departure(ALREADY_EXISTS) && !Departure(NotFound(what)) && !Departure(NotFoundKind(kind, what))
  {
  }

  lemma CreateTeamNoDeparture(db: Database, clients: Clients, fd: int, args: seq<string>, id: string)
    requires fd in clients
    ensures NoDeparture(CreateTeam(db, clients, fd, args, id).outs)
  {
    StatusNoDeparture("", "");
  }

  lemma CreateChannelNoDeparture(db: Database, clients: Clients, fd: int, args: seq<string>, id: string)
    requires fd in clients
    ensures NoDeparture(CreateChannel(db, clients, fd, args, id).outs)
  {
    StatusNoDeparture("", clients[fd].ctx.team);
  }

  lemma CreateThreadNoDeparture(db: Database, clients: Clients, fd: int, args: seq<string>, id: string, now: int)
    requires fd in clients
    ensures NoDeparture(CreateThread(db, clients, fd, args, id, now).outs)
  {
    StatusNoDeparture("", clients[fd].ctx.team);
    StatusNoDeparture("", clients[fd].ctx.channel);
  }

  lemma CreateReplyNoDeparture(db: Database, clients: Clients, fd: int, args: seq<string>, id: string, now: int)
    requires fd in clients
    ensures NoDeparture(CreateReply(db, clients, fd, args, id, now).outs)
  {
    StatusNoDeparture("", clients[fd].ctx.team);
    StatusNoDeparture("", clients[fd].ctx.channel);
    StatusNoDeparture("", clients[fd].ctx.thread);
    var me := clients[fd];
    var found := FindThread(db, me.ctx.channel, me.ctx.thread);
    if found.Some? && |args| >= 2 {
      var (t, c, h) := found.value;
      ReplyNoDeparture(AddReply(db, t, c, h, Reply(id, me.user, now, args[1])), clients, fd, me.ctx.team,
        [Word("201"), Word("CREATED"), Word("REPLY"), Field(me.ctx.thread), Field(me.user), Time(now), Field(args[1])],
        [Word("EVENT"), Word("REPLY_CREATED"), Field(me.ctx.team), Field(me.ctx.thread), Field(me.user), Field(args[1])]);
    }
  }

  lemma ReplyNoDeparture(db: Database, clients: Clients, fd: int, team: string, answer: Frame, event: Frame)
    requires |answer| >= 2 && answer[1] == Word("CREATED") && |event| >= 2 && event[1] == Word("REPLY_CREATED")
    ensures NoDeparture([To(fd, answer)] + Notify(db, clients, team, event))
  {
  }

  lemma CreateNoDeparture(db: Database, clients: Clients, fd: int, args: seq<string>, id: string, now: int)
    requires fd in clients
    ensures NoDeparture(Create(db, clients, fd, args, id, now).outs)
  {
    StatusNoDeparture("", "");
    var me := clients[fd];
    if me.ctx.team == "" {
      CreateTeamNoDeparture(db, clients, fd, args, id);
    } else if me.ctx.channel == "" {
      CreateChannelNoDeparture(db, clients, fd, args, id);
    } else if me.ctx.thread == "" {
      CreateThreadNoDeparture(db, clients, fd, args, id, now);
    } else {
      CreateReplyNoDeparture(db, clients, fd, args, id, now);
    }
  }

  lemma LoginNoDeparture(db: Database, clients: Clients, fd: int, args: seq<string>, id: string)
    requires fd in clients
    ensures NoDeparture(Login(db, clients, fd, args, id).outs)
  {
    StatusNoDeparture("", "");
  }

  lemma SendNoDeparture(db: Database, clients: Clients, fd: int, args: seq<string>, now: int)
    requires fd in clients
    ensures NoDeparture(Send(db, clients, fd, args, now).outs)
  {
    StatusNoDeparture("USER", if |args| > 1 then args[1] else "");
  }

  lemma SubscriptionsNoDeparture(db: Database, clients: Clients, fd: int, args: seq<string>)
    requires fd in clients
    ensures NoDeparture(SubscribeTo(db, clients, fd, args).outs) && NoDeparture(UnsubscribeFrom(db, clients, fd, args).outs)
  {
    StatusNoDeparture("TEAM", if |args| > 1 then args[1] else "");
  }

  /** A list block holds no announcement. */
  lemma ListNoDeparture(fd: int, kind: Kind, lines: seq<Frame>)
    requires forall i :: 0 <= i < |lines| ==> |lines[i]| >= 2 && !lines[i][1].Word?
    ensures NoDeparture(ToEach(fd, ListBlock(kind, lines)))
  {
    var b, e := BeginFrame(kind), EndFrame(kind);
    assert |KindName(kind)| <= 8 && |"USER_LOGGED_OUT"| == 15;
    assert !Departure(b) && !Departure(e);
    var block := ListBlock(kind, lines);
    forall i | 0 <= i < |block| ensures !Departure(block[i]) {
      if 0 < i < |block| - 1 { assert block[i] == lines[i - 1]; }
    }
  }

  predicate LinesHaveFields(lines: seq<Frame>) {
    forall i :: 0 <= i < |lines| ==> |lines[i]| >= 2 && !lines[i][1].Word?
  }

  lemma {:induction false} SubscribedHaveFields(db: Database, teams: seq<Team>, subs: seq<string>, user: string)
    ensures LinesHaveFields(SubscribedTeams(teams, user)) && LinesHaveFields(SubscriberLines(db, subs))
    decreases |teams| + |subs|
  {
    if teams != [] {
      SubscribedHaveFields(db, teams[1..], subs, user);
    } else if subs != [] {
      SubscribedHaveFields(db, teams, subs[1..], user);
    }
  }

  lemma SubscribedNoDeparture(db: Database, clients: Clients, fd: int, args: seq<string>)
    requires fd in clients
    ensures NoDeparture(Subscribed(db, clients, fd, args).outs)
  {
    var me := clients[fd];
    StatusNoDeparture("TEAM", if |args| > 1 then args[1] else "");
    SubscribedHaveFields(db, db.teams, [], me.user);
    ListNoDeparture(fd, Teams, SubscribedTeams(db.teams, me.user));
    if |args| == 2 && FindTeam(db, args[1]).Some? {
      var subs := db.teams[FindTeam(db, args[1]).value].subscribers;
      SubscribedHaveFields(db, [], subs, me.user);
      ListNoDeparture(fd, Users, SubscriberLines(db, subs));
    }
  }

  lemma ListHereNoDeparture(db: Database, clients: Clients, fd: int)
    requires fd in clients
    ensures NoDeparture(ListHere(db, clients, fd).outs)
  {
    var me := clients[fd];
    StatusNoDeparture("TEAM", me.ctx.team);
    if ContextRefusal(db, me).None? {
      if me.ctx.team == "" {
        ListNoDeparture(fd, Teams, MapSeq(db.teams, TeamLine));
      } else if me.ctx.channel == "" {
        ListNoDeparture(fd, Channels, MapSeq(db.teams[FindTeam(db, me.ctx.team).value].channels, ChannelLine));
      } else {
        ListBelowNoDeparture(db, clients, fd);
      }
    }
  }

  lemma ListBelowNoDeparture(db: Database, clients: Clients, fd: int)
    requires fd in clients && ContextRefusal(db, clients[fd]).None? && clients[fd].ctx.team != "" && clients[fd].ctx.channel != ""
    ensures NoDeparture(ListHere(db, clients, fd).outs)
  {
    var me := clients[fd];
    if me.ctx.thread == "" {
      StatusNoDeparture("CHANNEL", me.ctx.channel);
      match FindChannel(db, me.ctx.team, me.ctx.channel)
      case None =>
      case Some((t, c)) => ListNoDeparture(fd, Threads, MapSeq(db.teams[t].channels[c].threads, ThreadLine));
    } else {
      StatusNoDeparture("THREAD", me.ctx.thread);
      match FindThread(db, me.ctx.channel, me.ctx.thread)
      case None =>
      case Some((t, c, h)) =>
        var thread := db.teams[t].channels[c].threads[h];
        ListNoDeparture(fd, Replies, ReplyLines(thread.uuid, thread.replies));
    }
  }

  lemma InfoWord(f: Frame)
    requires |f| >= 2 && f[1] == Word("INFO")
    ensures !Departure(f)
  {
  }

  lemma InfoNoDeparture(db: Database, clients: Clients, fd: int)
    requires fd in clients
    ensures NoDeparture(Info(db, clients, fd).outs)
  {
    var me := clients[fd];
    StatusNoDeparture("TEAM", me.ctx.team);
    if ContextRefusal(db, me).None? {
      if me.ctx.thread != "" {
        InfoOfThread(db, clients, fd);
      } else if me.ctx.channel != "" {
        InfoOfChannel(db, clients, fd);
      } else {
        InfoOfOthers(db, clients, fd);
      }
    }
  }

  lemma InfoOfThread(db: Database, clients: Clients, fd: int)
    requires fd in clients && ContextRefusal(db, clients[fd]).None? && clients[fd].ctx.thread != ""
    ensures NoDeparture(Info(db, clients, fd).outs)
  {
    StatusNoDeparture("THREAD", clients[fd].ctx.thread);
    if FindThread(db, clients[fd].ctx.channel, clients[fd].ctx.thread).Some? {
      InfoWord(Info(db, clients, fd).outs[0].frame);
    }
  }

  lemma InfoOfChannel(db: Database, clients: Clients, fd: int)
    requires fd in clients && ContextRefusal(db, clients[fd]).None? && clients[fd].ctx.thread == "" && clients[fd].ctx.channel != ""
    ensures NoDeparture(Info(db, clients, fd).outs)
  {
    StatusNoDeparture("CHANNEL", clients[fd].ctx.channel);
    if FindChannel(db, clients[fd].ctx.team, clients[fd].ctx.channel).Some? {
      InfoWord(Info(db, clients, fd).outs[0].frame);
    }
  }

  lemma InfoOfOthers(db: Database, clients: Clients, fd: int)
    requires fd in clients && ContextRefusal(db, clients[fd]).None? && clients[fd].ctx.thread == "" && clients[fd].ctx.channel == ""
    ensures NoDeparture(Info(db, clients, fd).outs)
  {
    StatusNoDeparture("USER", clients[fd].user);
    if clients[fd].ctx.team != "" || FindUser(db, clients[fd].user).Some? {
      InfoWord(Info(db, clients, fd).outs[0].frame);
    }
  }

  lemma UseNoDeparture(db: Database, clients: Clients, fd: int, args: seq<string>)
    requires fd in clients
    ensures NoDeparture(Use(db, clients, fd, args).outs)
  {
    StatusNoDeparture("", "");
    forall kind, what: string ensures !Departure(NotFoundKind(kind, what)) {
      StatusNoDeparture(kind, what);
    }
  }

  lemma UsersNoDeparture(db: Database, clients: Clients, fd: int, args: seq<string>)
    requires fd in clients
    ensures NoDeparture(MessagesOf(db, clients, fd, args).outs)
    ensures NoDeparture(UserInfo(db, clients, fd, args).outs) && NoDeparture(ListUsers(db, clients, fd).outs)
  {
    StatusNoDeparture("USER", if |args| > 1 then args[1] else "");
    ListNoDeparture(fd, Users, MapSeq(db.users, UserLine));
    var s := FindUser(db, clients[fd].user);
    if |args| > 1 && s.Some? {
      ListNoDeparture(fd, Messages, MapSeq(Conversation(db.users[s.value], args[1]), MessageLine));
    }
  }

  /** Only a logout announces anyone. */
  lemma OthersNoDeparture(db: Database, clients: Clients, fd: int, args: seq<string>, id: string, now: int)
    requires fd in clients && (args == [] || args[0] != "/logout")
    ensures NoDeparture(Execute(db, clients, fd, args, id, now).outs)
  {
    if args != [] {
      match args[0]
      case "/create" => CreateNoDeparture(db, clients, fd, args, id, now);
      case "/list" => ListHereNoDeparture(db, clients, fd);
      case "/use" => UseNoDeparture(db, clients, fd, args);
      case "/info" => InfoNoDeparture(db, clients, fd);
      case "/login" => LoginNoDeparture(db, clients, fd, args, id);
      case "/send" => SendNoDeparture(db, clients, fd, args, now);
      case _ =>
        SubscriptionsNoDeparture(db, clients, fd, args);
        SubscribedNoDeparture(db, clients, fd, args);
        UsersNoDeparture(db, clients, fd, args);
    }
  }

  /** A command other than logout takes no session away. */
  lemma OthersKeepSessions(db: Database, clients: Clients, fd: int, args: seq<string>, id: string, now: int, u: string)
    requires fd in clients && u != "" && (args == [] || args[0] != "/logout")
    ensures Sessions(clients, u) <= Sessions(Apply(clients, fd, Execute(db, clients, fd, args, id, now)), u)
  {
    var e := Execute(db, clients, fd, args, id, now);
    if args == [] || args[0] != "/login" {
      OtherCounts(db, clients, fd, args, id, now);
    }
    assert e.user == clients[fd].user || clients[fd].user == "";
    SessionMoves(clients, fd, e.user, e.ctx, u);
    DeliverSessions(SetSession(clients, fd, e.user, e.ctx), e.outs, u);
  }

  lemma LogoutEndsSession(db: Database, clients: Clients, fd: int, u: string)
    requires fd in clients && u != ""
    ensures Sessions(Apply(clients, fd, Logout(db, clients, fd)), u) == Sessions(clients, u) - {fd}
  {
    var e := Logout(db, clients, fd);
    SessionMoves(clients, fd, e.user, e.ctx, u);
    DeliverSessions(SetSession(clients, fd, e.user, e.ctx), e.outs, u);
  }

  /** Over all commands: every client is told that a user is gone exactly when the command ends that user's last session. */
  lemma AnnouncedExactly(db: Database, clients: Clients, fd: int, args: seq<string>, id: string, now: int, k: nat)
    requires DbOk(db) && SessionsOk(db, clients) && fd in clients && k < |db.users|
    ensures var e := Execute(db, clients, fd, args, id, now);
            var u := db.users[k];
            if Sessions(clients, u.uuid) != {} && Sessions(Apply(clients, fd, e), u.uuid) == {}
            then SentTo(e.outs, LoggedOut(u), clients.Keys)
            else !Sends(e.outs, LoggedOut(u))
  {
    var u := db.users[k];
    assert UserOk(u);
    if args == [] || args[0] != "/logout" {
      OthersNoDeparture(db, clients, fd, args, id, now);
      OthersKeepSessions(db, clients, fd, args, id, now, u.uuid);
    } else {
      LogoutAnnouncedExactly(db, clients, fd, k);
    }
  }

  lemma LogoutAnnouncedExactly(db: Database, clients: Clients, fd: int, k: nat)
    requires DbOk(db) && SessionsOk(db, clients) && fd in clients && k < |db.users|
    ensures var e := Logout(db, clients, fd);
            var u := db.users[k];
            if Sessions(clients, u.uuid) != {} && Sessions(Apply(clients, fd, e), u.uuid) == {}
            then SentTo(e.outs, LoggedOut(u), clients.Keys)
            else !Sends(e.outs, LoggedOut(u))
  {
    assert UserOk(db.users[k]);
    LogoutSends(db, clients, fd, k);
    LogoutEndsSession(db, clients, fd, db.users[k].uuid);
    LastSession(clients, fd, db.users[k].uuid);
  }

  /** Taking a client out of the sessions of a user leaves none exactly when it was the only one. */
  lemma LastSession(clients: Clients, fd: int, u: string)
    requires fd in clients
    ensures var s := Sessions(clients, u); (s != {} && s - {fd} == {}) <==> (clients[fd].user == u && s == {fd})
  {
    var s := Sessions(clients, u);
    if s != {} && s - {fd} == {} {
      var f :| f in s;
      assert f !in s - {fd};
      assert s == (s - {fd}) + {fd};
    }
  }

  lemma LogoutSends(db: Database, clients: Clients, fd: int, k: nat)
    requires DbOk(db) && SessionsOk(db, clients) && fd in clients && k < |db.users|
    ensures var u := db.users[k];
            if clients[fd].user == u.uuid && Sessions(clients, u.uuid) == {fd}
            then SentTo(Logout(db, clients, fd).outs, LoggedOut(u), clients.Keys)
            else !Sends(Logout(db, clients, fd).outs, LoggedOut(u))
  {
    var me, u, outs := clients[fd], db.users[k], Logout(db, clients, fd).outs;
    assert UserOk(u);
    StatusNoDeparture("", "");
    if me.user != "" {
      LogoutAnnounces(db, clients, fd);
      var i := FindUser(db, me.user).value;
      var bye := LoggedOut(db.users[i]);
      SameFarewell(db.users, i, k);
      if Sessions(clients, me.user) == {fd} {
        assert outs == [ToAll(clients, bye), To(fd, OK)];
        assert outs[0].frame == bye && outs[1].frame == OK;
      } else {
        assert outs == [To(fd, OK)];
      }
    }
  }

  lemma SameFarewell(users: seq<User>, i: nat, k: nat)
    requires UsersOk(users) && i < |users| && k < |users|
    ensures LoggedOut(users[i]) == LoggedOut(users[k]) <==> users[i].uuid == users[k].uuid
    ensures users[i].uuid == users[k].uuid <==> i == k
    ensures Departure(LoggedOut(users[k]))
  {
    assert LoggedOut(users[i])[2] == Field(users[i].uuid);
    assert LoggedOut(users[k])[2] == Field(users[k].uuid);
  }

  lemma OneFarewell(outs: seq<Out>, clients: Clients, gone: User, u: User)
    requires outs == [ToAll(clients, LoggedOut(gone))]
    ensures if LoggedOut(gone) == LoggedOut(u) then SentTo(outs, LoggedOut(u), clients.Keys) else !Sends(outs, LoggedOut(u))
  {
    assert outs[0].frame == LoggedOut(gone);
  }

  /** The same for a disconnection. */
  lemma DisconnectAnnouncedExactly(s: State, fd: int, k: nat)
    requires Inv(s) && fd in s.clients && k < |s.db.users|
    ensures var u := s.db.users[k];
            if Sessions(s.clients, u.uuid) != {} && Sessions(Disconnect(s, fd).clients, u.uuid) == {}
            then SentTo(Announcement(s, fd), LoggedOut(u), s.clients.Keys - {fd})
            else !Sends(Announcement(s, fd), LoggedOut(u))
  {
    var u := s.db.users[k];
    assert UserOk(u);
    DisconnectAnnounces(s, fd);
    DeliverSessions(s.clients - {fd}, Announcement(s, fd), u.uuid);
    assert Sessions(s.clients - {fd}, u.uuid) == Sessions(s.clients, u.uuid) - {fd};
    LastSession(s.clients, fd, u.uuid);
    var user := s.clients[fd].user;
    if user != "" && Sessions(s.clients, user) == {fd} {
      var i := FindUser(s.db, user).value;
      SameFarewell(s.db.users, i, k);
      OneFarewell(Announcement(s, fd), s.clients - {fd}, s.db.users[i], u);
    }
  }
}
