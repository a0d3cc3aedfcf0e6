/** What logging in and out, disconnecting, subscribing and unsubscribing do, frame by frame. */
module SessionLaws {
  import opened Protocol
  import opened Model
  import opened Lookup
  import opened Commands
  import opened Delivery
  import opened Invariant
  import opened CommandsKeep
  import opened Guarantees
  import opened ServerState
  import opened Runs
  import opened Departures
  import opened Outcomes
  import opened ContextLaws
  import opened CreationLaws

  // ---------------------------------------------------------------------------
  // Logging in

  /** The requester is answered, then every client is told. */
  ghost predicate TellsAll(clients: Clients, fd: int, e: Effect, answer: Frame, event: Frame) {
    forall f :: FramesFor(f, e.outs) == (if f == fd then [answer] else []) + (if f in clients then [event] else [])
  }

  lemma ToldAll(clients: Clients, fd: int, e: Effect, answer: Frame, event: Frame)
    requires e.outs == [To(fd, answer), ToAll(clients, event)]
    ensures TellsAll(clients, fd, e, answer, event)
  {
    forall f ensures FramesFor(f, e.outs) == (if f == fd then [answer] else []) + (if f in clients then [event] else []) {
      TwoFor(f, To(fd, answer), ToAll(clients, event));
    }
  }

  predicate LogsIn(clients: Clients, fd: int, args: seq<string>) {
    Asks(clients, fd, args, "/login") && clients[fd].user == "" && |args| >= 2 && 0 < |args[1]| <= 32
  }

  lemma LoginRefused(db: Database, clients: Clients, fd: int, args: seq<string>, id: string, now: int)
    requires Asks(clients, fd, args, "/login")
    ensures var e, me := Execute(db, clients, fd, args, id, now), clients[fd];
            && (|args| < 2 ==> Only(db, me, fd, e, [[Word("400"), Word("BAD_REQUEST")]]))
            && (|args| >= 2 && me.user != "" ==> Only(db, me, fd, e, [[Word("401"), Word("UNAUTHORIZED")]]))
            && (|args| >= 2 && me.user == "" && (args[1] == "" || |args[1]| > 32) ==>
                  Only(db, me, fd, e, [[Word("400"), Word("BAD_REQUEST")]]))
  {
    Dispatched(db, clients, fd, args, id, now);
    AnswerTells(db, clients[fd], fd, BAD_REQUEST);
    AnswerTells(db, clients[fd], fd, UNAUTHORIZED);
  }

  ghost predicate UserNamed(db: Database, name: string) {
    exists i :: 0 <= i < |db.users| && db.users[i].name == name
  }

  /** A new name becomes a new user, with one session. */
  lemma NewUserLogsIn(db: Database, clients: Clients, fd: int, args: seq<string>, id: string, now: int)
    requires LogsIn(clients, fd, args) && !UserNamed(db, args[1])
    ensures var e := Execute(db, clients, fd, args, id, now);
            && e.db == Database(db.users + [User(id, args[1], 1, [], map[])], db.teams)
            && e.user == id && e.ctx == clients[fd].ctx
            && TellsAll(clients, fd, e, [Word("200"), Word("OK"), Raw(id), Raw(args[1])],
                        [Word("EVENT"), Word("USER_LOGGED_IN"), Field(id), Field(args[1])])
  {
    var e := Execute(db, clients, fd, args, id, now);
    Dispatched(db, clients, fd, args, id, now);
    ToldAll(clients, fd, e, [Word("200"), Word("OK"), Raw(id), Raw(args[1])],
            [Word("EVENT"), Word("USER_LOGGED_IN"), Field(id), Field(args[1])]);
  }

  /** A known name becomes one more session of its user. */
  lemma KnownUserLogsIn(db: Database, clients: Clients, fd: int, args: seq<string>, id: string, now: int, i: nat)
    requires DbOk(db) && LogsIn(clients, fd, args) && i < |db.users| && db.users[i].name == args[1]
    ensures var e, u := Execute(db, clients, fd, args, id, now), db.users[i];
            && e.db == Database(db.users[i := u.(connections := u.connections + 1)], db.teams)
            && e.user == u.uuid && e.ctx == clients[fd].ctx
            && TellsAll(clients, fd, e, [Word("200"), Word("OK"), Raw(u.uuid), Raw(u.name)],
                        [Word("EVENT"), Word("USER_LOGGED_IN"), Field(u.uuid), Field(u.name)])
  {
    var e, u := Execute(db, clients, fd, args, id, now), db.users[i];
    Dispatched(db, clients, fd, args, id, now);
    IndexIs(UserNames(db.users), args[1], i);
    ToldAll(clients, fd, e, [Word("200"), Word("OK"), Raw(u.uuid), Raw(u.name)],
            [Word("EVENT"), Word("USER_LOGGED_IN"), Field(u.uuid), Field(u.name)]);
  }

  // ---------------------------------------------------------------------------
  // Logging out and disconnecting

  lemma LogoutRefused(db: Database, clients: Clients, fd: int, args: seq<string>, id: string, now: int)
    requires Asks(clients, fd, args, "/logout") && clients[fd].user == ""
    ensures Only(db, clients[fd], fd, Execute(db, clients, fd, args, id, now), [[Word("401"), Word("UNAUTHORIZED")]])
  {
    Dispatched(db, clients, fd, args, id, now);
    AnswerTells(db, clients[fd], fd, UNAUTHORIZED);
  }

  /** No other client is logged in as the same user. */
  predicate LastOf(clients: Clients, fd: int)
    requires fd in clients
  {
    forall f :: f in clients && f != fd ==> clients[f].user != clients[fd].user
  }

  lemma LastOfSessions(clients: Clients, fd: int)
    requires fd in clients
    ensures LastOf(clients, fd) <==> Sessions(clients, clients[fd].user) == {fd}
  {
    var s := Sessions(clients, clients[fd].user);
    assert fd in s;
    if LastOf(clients, fd) {
      forall f ensures f in s <==> f in {fd} {
      }
      assert s == {fd};
    } else if s == {fd} {
      forall f | f in clients && f != fd ensures clients[f].user != clients[fd].user {
        assert f !in s;
      }
    }
  }

  /** The user has one session less. */
  predicate OneLess(before: Database, after: Database, i: nat)
    requires i < |before.users|
  {
    && before.users[i].connections > 0
    && after == Database(before.users[i := before.users[i].(connections := before.users[i].connections - 1)], before.teams)
  }

  /** The session ends; everybody hears of it if it was the user's last one, and the requester is answered. */
  lemma LogsOut(db: Database, clients: Clients, fd: int, args: seq<string>, id: string, now: int, i: nat)
    requires DbOk(db) && SessionsOk(db, clients) && Asks(clients, fd, args, "/logout")
    requires i < |db.users| && db.users[i].uuid == clients[fd].user
    ensures var e, u := Execute(db, clients, fd, args, id, now), db.users[i];
            && OneLess(db, e.db, i) && e.user == "" && e.ctx == clients[fd].ctx
            && forall f :: FramesFor(f, e.outs) ==
                 (if f in clients && LastOf(clients, fd)
                  then [[Word("EVENT"), Word("USER_LOGGED_OUT"), Field(u.uuid), Field(u.name)]] else []) +
                 (if f == fd then [[Word("200"), Word("OK")]] else [])
  {
    var e, u := Execute(db, clients, fd, args, id, now), db.users[i];
    Dispatched(db, clients, fd, args, id, now);
    UserAt(db, i);
    assert UserOk(u);
    LeaveCounts(db.users, i, clients, fd);
    LogoutAnnounces(db, clients, fd);
    LastOfSessions(clients, fd);
    forall f ensures FramesFor(f, e.outs) == (if f in clients && LastOf(clients, fd) then [LoggedOut(u)] else []) +
                                             (if f == fd then [OK] else [])
    {
      FarewellFor(clients, fd, u, f);
    }
  }

  lemma FarewellFor(clients: Clients, fd: int, u: User, f: int)
    ensures FramesFor(f, [ToAll(clients, LoggedOut(u))] + [To(fd, OK)]) ==
            (if f in clients then [LoggedOut(u)] else []) + (if f == fd then [OK] else [])
    ensures FramesFor(f, [] + [To(fd, OK)]) == if f == fd then [OK] else []
  {
    assert [ToAll(clients, LoggedOut(u))] + [To(fd, OK)] == [ToAll(clients, LoggedOut(u)), To(fd, OK)];
    assert [] + [To(fd, OK)] == [To(fd, OK)];
    TwoFor(f, ToAll(clients, LoggedOut(u)), To(fd, OK));
    OneFor(f, To(fd, OK));
  }

  /** Losing a connection ends its session in the same way; only the other clients are left to hear of it. */
  lemma LosesConnection(s: State, fd: int, i: nat, f: int)
    requires Inv(s) && fd in s.clients && i < |s.db.users| && s.db.users[i].uuid == s.clients[fd].user
    requires f in s.clients && f != fd
    ensures var s', u := Disconnect(s, fd), s.db.users[i];
            && OneLess(s.db, s'.db, i) && s'.clients.Keys == s.clients.Keys - {fd}
            && s'.clients[f] == s.clients[f].(writeBuffer := s.clients[f].writeBuffer +
                 if LastOf(s.clients, fd)
                 then FrameText([Word("EVENT"), Word("USER_LOGGED_OUT"), Field(u.uuid), Field(u.name)]) + "\r\n" else "")
  {
    var u := s.db.users[i];
    UserAt(s.db, i);
    assert UserOk(u);
    LeaveCounts(s.db.users, i, s.clients, fd);
    DisconnectAnnounces(s, fd);
    LastOfSessions(s.clients, fd);
    AnnouncedTo(s.clients - {fd}, u, f);
  }

  /** A connection that nobody logged in on leaves no trace. */
  lemma GuestLeaves(s: State, fd: int)
    requires Inv(s) && fd in s.clients && s.clients[fd].user == ""
    ensures Disconnect(s, fd).db == s.db && Disconnect(s, fd).clients == s.clients - {fd}
  {
  }

  lemma AnnouncedTo(clients: Clients, u: User, f: int)
    requires f in clients
    ensures Deliver(clients, [ToAll(clients, LoggedOut(u))])[f] ==
            clients[f].(writeBuffer := clients[f].writeBuffer + (FrameText(LoggedOut(u)) + "\r\n"))
    ensures clients[f].writeBuffer + "" == clients[f].writeBuffer
  {
    DeliverOne(clients, ToAll(clients, LoggedOut(u)));
  }

  // ---------------------------------------------------------------------------
  // Subscribing and unsubscribing

  lemma SubscriptionRefused(db: Database, clients: Clients, fd: int, args: seq<string>, id: string, now: int)
    requires Asks(clients, fd, args, "/subscribe") || Asks(clients, fd, args, "/unsubscribe")
    ensures var e, me := Execute(db, clients, fd, args, id, now), clients[fd];
            && (me.user == "" ==> Only(db, me, fd, e, [[Word("401"), Word("UNAUTHORIZED")]]))
            && (me.user != "" && (|args| < 2 || args[1] == "") ==> Only(db, me, fd, e, [[Word("400"), Word("BAD_REQUEST")]]))
            && (me.user != "" && |args| >= 2 && args[1] != "" && !IsTeam(db, args[1]) ==>
                  Only(db, me, fd, e, [[Word("404"), Word("NOT_FOUND"), Word("TEAM"), Field(args[1])]]))
  {
    Dispatched(db, clients, fd, args, id, now);
    AnswerTells(db, clients[fd], fd, UNAUTHORIZED);
    AnswerTells(db, clients[fd], fd, BAD_REQUEST);
    if |args| >= 2 && !IsTeam(db, args[1]) {
      NoTeam(db, args[1]);
      AnswerTells(db, clients[fd], fd, NotFoundKind("TEAM", args[1]));
    }
  }

  predicate NamesTeam(db: Database, clients: Clients, fd: int, args: seq<string>, command: string, t: nat) {
    && Asks(clients, fd, args, command) && clients[fd].user != "" && |args| >= 2
    && t < |db.teams| && db.teams[t].uuid == args[1]
  }

  function WithSubscribers(db: Database, t: nat, subs: seq<string>): Database
    requires t < |db.teams|
  {
    Database(db.users, db.teams[t := db.teams[t].(subscribers := subs)])
  }

  /** The subscribers are told, then the requester is answered. */
  ghost predicate TellsThenAnswers(clients: Clients, fd: int, subs: seq<string>, e: Effect, event: Frame, answer: Frame) {
    forall f :: FramesFor(f, e.outs) ==
      (if f in clients && clients[f].user in subs then [event] else []) + (if f == fd then [answer] else [])
  }

  lemma ToldThenAnswered(clients: Clients, fd: int, subs: seq<string>, e: Effect, event: Frame, answer: Frame)
    requires "" !in subs && e.outs == [Out(SubscriberSessions(clients, subs), event)] + [To(fd, answer)]
    ensures TellsThenAnswers(clients, fd, subs, e, event, answer)
  {
    assert e.outs == [Out(SubscriberSessions(clients, subs), event), To(fd, answer)];
    forall f ensures FramesFor(f, e.outs) ==
      (if f in clients && clients[f].user in subs then [event] else []) + (if f == fd then [answer] else [])
    {
      TwoFor(f, Out(SubscriberSessions(clients, subs), event), To(fd, answer));
    }
  }

  lemma NotifyAfter(db: Database, clients: Clients, t: nat, subs: seq<string>, event: Frame)
    requires DbOk(db) && t < |db.teams|
    ensures Notify(SetSubscribers(db, t, subs), clients, db.teams[t].uuid, event) == [Out(SubscriberSessions(clients, subs), event)]
  {
    var db' := SetSubscribers(db, t, subs);
    assert TeamOk(db.users, db.teams[t]);
    assert TeamIds(db'.teams) == TeamIds(db.teams);
    TeamAt(db, t);
  }

  /** A new subscriber is put at the end of the list, and counts among those who are told; an old one is only answered. */
  lemma Subscribes(db: Database, clients: Clients, fd: int, args: seq<string>, id: string, now: int, t: nat)
    requires DbOk(db) && NamesTeam(db, clients, fd, args, "/subscribe", t)
    ensures var e, me, subs := Execute(db, clients, fd, args, id, now), clients[fd], db.teams[t].subscribers;
            var answer := [Word("200"), Word("SUBSCRIBE"), Field(me.user), Field(args[1])];
            if me.user in subs then Only(db, me, fd, e, [answer])
            else && e.db == WithSubscribers(db, t, subs + [me.user]) && e.user == me.user && e.ctx == me.ctx
                 && TellsThenAnswers(clients, fd, subs + [me.user], e, [Word("user_subscribed"), Raw(args[1]), Raw(me.user)], answer)
  {
    var e, me, subs := Execute(db, clients, fd, args, id, now), clients[fd], db.teams[t].subscribers;
    Dispatched(db, clients, fd, args, id, now);
    TeamAt(db, t);
    assert TeamOk(db.users, db.teams[t]);
    var answer := [Word("200"), Word("SUBSCRIBE"), Field(me.user), Field(args[1])];
    AnswerTells(db, me, fd, answer);
    if me.user !in subs {
      var event := [Word("user_subscribed"), Raw(args[1]), Raw(me.user)];
      NotifyAfter(db, clients, t, subs + [me.user], event);
      NobodySubscribes(db, t);
      ToldThenAnswered(clients, fd, subs + [me.user], e, event, answer);
    }
  }

  /** A subscriber is cut out of the list, and those who stay are told; anybody else is refused. */
  lemma Unsubscribes(db: Database, clients: Clients, fd: int, args: seq<string>, id: string, now: int, t: nat, k: nat)
    requires DbOk(db) && NamesTeam(db, clients, fd, args, "/unsubscribe", t)
    requires k < |db.teams[t].subscribers| && db.teams[t].subscribers[k] == clients[fd].user
    ensures var e, me, subs := Execute(db, clients, fd, args, id, now), clients[fd], db.teams[t].subscribers;
            var rest := subs[..k] + subs[k + 1..];
            && e.db == WithSubscribers(db, t, rest) && e.user == me.user && e.ctx == me.ctx
            && TellsThenAnswers(clients, fd, rest, e, [Word("user_unsubscribed"), Raw(args[1]), Raw(me.user)],
                                [Word("200"), Word("UNSUBSCRIBE"), Field(me.user), Field(args[1])])
  {
    var e, me, subs := Execute(db, clients, fd, args, id, now), clients[fd], db.teams[t].subscribers;
    var rest := subs[..k] + subs[k + 1..];
    Dispatched(db, clients, fd, args, id, now);
    TeamAt(db, t);
    assert TeamOk(db.users, db.teams[t]);
    WithoutCutsOne(subs, k);
    var event := [Word("user_unsubscribed"), Raw(args[1]), Raw(me.user)];
    NotifyAfter(db, clients, t, rest, event);
    NobodySubscribes(db, t);
    ToldThenAnswered(clients, fd, rest, e, event, [Word("200"), Word("UNSUBSCRIBE"), Field(me.user), Field(args[1])]);
  }

  lemma StrangerUnsubscribes(db: Database, clients: Clients, fd: int, args: seq<string>, id: string, now: int, t: nat)
    requires DbOk(db) && NamesTeam(db, clients, fd, args, "/unsubscribe", t) && clients[fd].user !in db.teams[t].subscribers
    ensures Only(db, clients[fd], fd, Execute(db, clients, fd, args, id, now), [[Word("403"), Word("FORBIDDEN")]])
  {
    Dispatched(db, clients, fd, args, id, now);
    TeamAt(db, t);
    assert TeamOk(db.users, db.teams[t]);
    AnswerTells(db, clients[fd], fd, FORBIDDEN);
  }

  // ---------------------------------------------------------------------------
  // What one subscribes to, and who subscribes

  lemma {:induction false} OwnTeamsSnoc(teams: seq<Team>, last: Team, user: string)
    ensures SubscribedTeams(teams + [last], user) ==
            SubscribedTeams(teams, user) + if user in last.subscribers then [TeamLine(last)] else []
    decreases |teams|
  {
    if teams == [] {
      assert [] + [last] == [last] && [last][1..] == [];
    } else {
      assert (teams + [last])[1..] == teams[1..] + [last];
      OwnTeamsSnoc(teams[1..], last, user);
    }
  }

  /** The positions of one's teams, in order, each with its line. */
  lemma {:induction false} OwnTeams(teams: seq<Team>, user: string) returns (at: seq<nat>)
    ensures |SubscribedTeams(teams, user)| == |at|
    ensures forall i, j :: 0 <= i < j < |at| ==> at[i] < at[j]
    ensures forall t :: t in at <==> 0 <= t < |teams| && user in teams[t].subscribers
    ensures forall i :: 0 <= i < |at| ==> at[i] < |teams| && SubscribedTeams(teams, user)[i] == TeamLine(teams[at[i]])
    decreases |teams|
  {
    if teams == [] {
      at := [];
    } else {
      var n := |teams| - 1;
      at := OwnTeams(teams[..n], user);
      assert teams == teams[..n] + [teams[n]];
      OwnTeamsSnoc(teams[..n], teams[n], user);
      forall i | 0 <= i < |at| ensures at[i] < n {
        assert at[i] in at;
      }
      if user in teams[n].subscribers {
        at := at + [n];
      }
    }
  }

  lemma SubscribedRefused(db: Database, clients: Clients, fd: int, args: seq<string>, id: string, now: int)
    requires Asks(clients, fd, args, "/subscribed")
    ensures var e, me := Execute(db, clients, fd, args, id, now), clients[fd];
            && (me.user == "" ==> Only(db, me, fd, e, [[Word("401"), Word("UNAUTHORIZED")]]))
            && (me.user != "" && (|args| > 2 || (|args| == 2 && args[1] == "")) ==>
                  Only(db, me, fd, e, [[Word("400"), Word("BAD_REQUEST")]]))
            && (me.user != "" && |args| == 2 && args[1] != "" && !IsTeam(db, args[1]) ==>
                  Only(db, me, fd, e, [[Word("404"), Word("NOT_FOUND"), Word("TEAM"), Field(args[1])]]))
  {
    Dispatched(db, clients, fd, args, id, now);
    AnswerTells(db, clients[fd], fd, UNAUTHORIZED);
    AnswerTells(db, clients[fd], fd, BAD_REQUEST);
    if |args| >= 2 && !IsTeam(db, args[1]) {
      NoTeam(db, args[1]);
      AnswerTells(db, clients[fd], fd, NotFoundKind("TEAM", args[1]));
    }
  }

  /** Without an argument: exactly the teams that the user subscribes to, in order. */
  lemma OwnTeamsShown(db: Database, clients: Clients, fd: int, args: seq<string>, id: string, now: int)
    returns (at: seq<nat>, lines: seq<Frame>)
    requires Asks(clients, fd, args, "/subscribed") && clients[fd].user != "" && |args| == 1
    ensures Only(db, clients[fd], fd, Execute(db, clients, fd, args, id, now), BlockOf("TEAMS", lines))
    ensures forall i, j :: 0 <= i < j < |at| ==> at[i] < at[j]
    ensures forall t :: t in at <==> 0 <= t < |db.teams| && clients[fd].user in db.teams[t].subscribers
    ensures |lines| == |at| && forall i :: 0 <= i < |at| ==>
              && at[i] < |db.teams|
              && lines[i] == [Word("210"), Field(db.teams[at[i]].uuid), Field(db.teams[at[i]].name),
                              Field(db.teams[at[i]].description)]
  {
    Dispatched(db, clients, fd, args, id, now);
    at := OwnTeams(db.teams, clients[fd].user);
    lines := SubscribedTeams(db.teams, clients[fd].user);
    AnswerListTells(db, clients[fd], fd, Teams, lines);
    forall i | 0 <= i < |at|
      ensures at[i] < |db.teams| && lines[i] == [Word("210"), Field(db.teams[at[i]].uuid), Field(db.teams[at[i]].name),
                                                 Field(db.teams[at[i]].description)]
    {
      TeamRowIs(db.teams[at[i]]);
    }
  }

  /** With a team: every one of its subscribers, in order, with whether anybody is logged in as that user. */
  lemma SubscribersShown(db: Database, clients: Clients, fd: int, args: seq<string>, id: string, now: int, t: nat)
    returns (lines: seq<Frame>)
    requires DbOk(db) && NamesTeam(db, clients, fd, args, "/subscribed", t) && |args| == 2
    ensures Only(db, clients[fd], fd, Execute(db, clients, fd, args, id, now), BlockOf("USERS", lines))
    ensures |lines| == |db.teams[t].subscribers|
    ensures forall i, k :: 0 <= i < |lines| && 0 <= k < |db.users| && db.users[k].uuid == db.teams[t].subscribers[i] ==>
              lines[i] == [Word("210"), Field(db.users[k].uuid), Field(db.users[k].name),
                           Word(if db.users[k].connections > 0 then "1" else "0")]
  {
    lines := SubscriberLines(db, db.teams[t].subscribers);
    SubscribersAnswered(db, clients, fd, args, id, now, t);
    SubscriberRows(db, db.teams[t].subscribers);
  }

  lemma SubscribersAnswered(db: Database, clients: Clients, fd: int, args: seq<string>, id: string, now: int, t: nat)
    requires DbOk(db) && NamesTeam(db, clients, fd, args, "/subscribed", t) && |args| == 2
    ensures Only(db, clients[fd], fd, Execute(db, clients, fd, args, id, now),
                 BlockOf("USERS", SubscriberLines(db, db.teams[t].subscribers)))
    ensures forall i :: 0 <= i < |db.teams[t].subscribers| ==> Known(db.users, db.teams[t].subscribers[i])
  {
    Dispatched(db, clients, fd, args, id, now);
    TeamAt(db, t);
    assert TeamOk(db.users, db.teams[t]);
    AnswerListTells(db, clients[fd], fd, Users, SubscriberLines(db, db.teams[t].subscribers));
  }

  lemma SubscriberRows(db: Database, subs: seq<string>)
    requires DbOk(db) && forall i :: 0 <= i < |subs| ==> Known(db.users, subs[i])
    ensures |SubscriberLines(db, subs)| == |subs|
    ensures forall i, k :: 0 <= i < |subs| && 0 <= k < |db.users| && db.users[k].uuid == subs[i] ==>
              SubscriberLines(db, subs)[i] == [Word("210"), Field(db.users[k].uuid), Field(db.users[k].name),
                                               Word(if db.users[k].connections > 0 then "1" else "0")]
  {
    SubscriberLinesComplete(db, subs);
    forall u {
      UserRowIs(u);
    }
    forall i, k | 0 <= i < |subs| && 0 <= k < |db.users| && db.users[k].uuid == subs[i]
      ensures SubscriberLines(db, subs)[i] == [Word("210"), Field(db.users[k].uuid), Field(db.users[k].name),
                                               Word(if db.users[k].connections > 0 then "1" else "0")]
    {
      UserAt(db, k);
    }
  }

  // ---------------------------------------------------------------------------
  // Everything else

  /** A line without a command, or with one that does not exist, does nothing and is not answered. */
  lemma UnknownIgnored(db: Database, clients: Clients, fd: int, args: seq<string>, id: string, now: int)
    requires fd in clients
    requires args == [] || args[0] !in {"/create", "/list", "/use", "/info", "/subscribe", "/unsubscribe", "/subscribed",
                                        "/login", "/logout", "/send", "/messages", "/user", "/users"}
    ensures Only(db, clients[fd], fd, Execute(db, clients, fd, args, id, now), [])
  {
  }
}
