/** The invariant through every command: database, contexts and session counts. */
module CommandsKeep {
  import opened Model
  import opened Lookup
  import opened Commands
  import opened Delivery
  import opened Invariant
  import opened Preservation

  /** What a command may rely on: the invariant, and a fresh identifier, a bounded clock and normal arguments. */
  predicate Ready(db: Database, clients: Clients, fd: int, args: seq<string>, id: string, now: int) {
    DbOk(db) && SessionsOk(db, clients) && fd in clients && ArgsOk(args) && Fresh(db, id) && TimeOk(now)
  }

  /** The database side of one step. */
  predicate DbStep(db: Database, db': Database) {
    DbOk(db') && Grows(db, db')
  }

  lemma NoStep(db: Database)
    requires DbOk(db)
    ensures DbStep(db, db)
  {
    GrowsRefl(db);
  }

  // ---------------------------------------------------------------------------
  // Database

  lemma LoginKeeps(db: Database, clients: Clients, fd: int, args: seq<string>, id: string, now: int)
    requires Ready(db, clients, fd, args, id, now)
    ensures DbStep(db, Login(db, clients, fd, args, id).db)
  {
    NoStep(db);
    if |args| >= 2 && clients[fd].user == "" && !InvalidLength(args[1], MAX_NAME_LENGTH) {
      match FindUserByName(db, args[1])
      case None =>
        forall i | 0 <= i < |db.users| ensures db.users[i].name != args[1] {
          assert UserNames(db.users)[i] == db.users[i].name;
        }
        AddUserOk(db, User(id, args[1], 1, [], map[]));
      case Some(i) =>
        var u := db.users[i];
        SameStoredOk(db, db.users[i := u.(connections := u.connections + 1)]);
    }
  }

  lemma ReleaseKeeps(db: Database, user: string)
    requires DbOk(db)
    ensures DbStep(db, Release(db, user).0)
  {
    NoStep(db);
    match FindUser(db, user)
    case None =>
    case Some(i) => SameStoredOk(db, db.users[i := Released(db.users[i])]);
  }

  lemma SendKeeps(db: Database, clients: Clients, fd: int, args: seq<string>, id: string, now: int)
    requires Ready(db, clients, fd, args, id, now)
    ensures DbStep(db, Send(db, clients, fd, args, now).db)
  {
    NoStep(db);
    if !(|args| < 3 || args[1] == "" || InvalidLength(args[2], MAX_BODY_LENGTH)) {
      var s, r := FindUser(db, clients[fd].user), FindUser(db, args[1]);
      if s.Some? && r.Some? {
        var m := Message(db.users[s.value].uuid, db.users[r.value].uuid, now, args[2]);
        StoreMessageOk(db, s.value, r.value, m);
      }
    }
  }

  lemma SubscribeKeeps(db: Database, clients: Clients, fd: int, args: seq<string>, id: string, now: int)
    requires Ready(db, clients, fd, args, id, now)
    ensures DbStep(db, SubscribeTo(db, clients, fd, args).db)
  {
    NoStep(db);
    var me := clients[fd];
    if me.user != "" && |args| >= 2 && args[1] != "" && FindTeam(db, args[1]).Some? {
      var t := FindTeam(db, args[1]).value;
      assert TeamOk(db.users, db.teams[t]);
      assert SessionOk(db, me);
      SubscribeRefinesInsert(db.teams[t].subscribers, me.user);
      SetSubscribersOk(db, t, Subscribe(db.teams[t].subscribers, me.user));
    }
  }

  lemma UnsubscribeKeeps(db: Database, clients: Clients, fd: int, args: seq<string>, id: string, now: int)
    requires Ready(db, clients, fd, args, id, now)
    ensures DbStep(db, UnsubscribeFrom(db, clients, fd, args).db)
  {
    NoStep(db);
    var me := clients[fd];
    if me.user != "" && |args| >= 2 && args[1] != "" && FindTeam(db, args[1]).Some? {
      var t := FindTeam(db, args[1]).value;
      assert TeamOk(db.users, db.teams[t]);
      var subs := Without(db.teams[t].subscribers, me.user);
      WithoutDistinct(db.teams[t].subscribers, me.user);
      forall i | 0 <= i < |subs| ensures Known(db.users, subs[i]) {
        assert subs[i] in db.teams[t].subscribers;
      }
      SetSubscribersOk(db, t, subs);
    }
  }

  lemma CreateTeamKeeps(db: Database, clients: Clients, fd: int, args: seq<string>, id: string, now: int)
    requires Ready(db, clients, fd, args, id, now) && clients[fd].user != ""
    ensures DbStep(db, CreateTeam(db, clients, fd, args, id).db)
  {
    NoStep(db);
    var me := clients[fd];
    assert SessionOk(db, me);
    if !(|args| < 3 || InvalidLength(args[1], MAX_NAME_LENGTH) || InvalidLength(args[2], MAX_DESCRIPTION_LENGTH))
       && Index(TeamNames(db.teams), args[1]).None? {
      forall i | 0 <= i < |db.teams| ensures db.teams[i].name != args[1] {
        assert TeamNames(db.teams)[i] == db.teams[i].name;
      }
      AddTeamOk(db, Team(id, args[1], args[2], [me.user], []));
    }
  }

  lemma CreateChannelKeeps(db: Database, clients: Clients, fd: int, args: seq<string>, id: string, now: int)
    requires Ready(db, clients, fd, args, id, now)
    ensures DbStep(db, CreateChannel(db, clients, fd, args, id).db)
  {
    NoStep(db);
    var (team, _) := AccessibleTeam(db, clients[fd]);
    if team.Some?
       && !(|args| < 3 || InvalidLength(args[1], MAX_NAME_LENGTH) || InvalidLength(args[2], MAX_DESCRIPTION_LENGTH)) {
      var channels := db.teams[team.value].channels;
      if Index(ChannelNames(channels), args[1]).None? {
        forall i | 0 <= i < |channels| ensures channels[i].name != args[1] {
          assert ChannelNames(channels)[i] == channels[i].name;
        }
        AddChannelOk(db, team.value, Channel(id, args[1], args[2], []));
      }
    }
  }

  lemma CreateThreadKeeps(db: Database, clients: Clients, fd: int, args: seq<string>, id: string, now: int)
    requires Ready(db, clients, fd, args, id, now) && clients[fd].user != ""
    ensures DbStep(db, CreateThread(db, clients, fd, args, id, now).db)
  {
    NoStep(db);
    var me := clients[fd];
    assert SessionOk(db, me);
    var (team, _) := AccessibleTeam(db, me);
    var channel := FindChannel(db, me.ctx.team, me.ctx.channel);
    if team.Some? && channel.Some?
       && !(|args| < 3 || InvalidLength(args[1], MAX_NAME_LENGTH) || InvalidLength(args[2], MAX_BODY_LENGTH)) {
      var (t, c) := channel.value;
      var threads := db.teams[t].channels[c].threads;
      if Index(ThreadTitles(threads), args[1]).None? {
        forall i | 0 <= i < |threads| ensures threads[i].title != args[1] && threads[i].uuid != id {
          assert ThreadTitles(threads)[i] == threads[i].title;
          assert db.teams[t].channels[c].threads[i].uuid != id;
        }
        AddThreadOk(db, t, c, Thread(id, me.user, now, args[1], args[2], []));
      }
    }
  }

  lemma CreateReplyKeeps(db: Database, clients: Clients, fd: int, args: seq<string>, id: string, now: int)
    requires Ready(db, clients, fd, args, id, now) && clients[fd].user != ""
    ensures DbStep(db, CreateReply(db, clients, fd, args, id, now).db)
  {
    NoStep(db);
    var me := clients[fd];
    assert SessionOk(db, me);
    var (team, _) := AccessibleTeam(db, me);
    var thread := FindThread(db, me.ctx.channel, me.ctx.thread);
    if team.Some? && FindChannel(db, me.ctx.team, me.ctx.channel).Some? && thread.Some?
       && !(|args| < 2 || InvalidLength(args[1], MAX_BODY_LENGTH)) {
      var (t, c, h) := thread.value;
      AddReplyOk(db, t, c, h, Reply(id, me.user, now, args[1]));
    }
  }

  lemma CreateKeeps(db: Database, clients: Clients, fd: int, args: seq<string>, id: string, now: int)
    requires Ready(db, clients, fd, args, id, now)
    ensures DbStep(db, Create(db, clients, fd, args, id, now).db)
  {
    NoStep(db);
    var me := clients[fd];
    if me.user != "" {
      if me.ctx.team == "" {
        CreateTeamKeeps(db, clients, fd, args, id, now);
      } else if me.ctx.channel == "" {
        CreateChannelKeeps(db, clients, fd, args, id, now);
      } else if me.ctx.thread == "" {
        CreateThreadKeeps(db, clients, fd, args, id, now);
      } else {
        CreateReplyKeeps(db, clients, fd, args, id, now);
      }
    }
  }

  /** Every command keeps the database invariant, and only grows the database. */
  lemma ExecuteKeepsDb(db: Database, clients: Clients, fd: int, args: seq<string>, id: string, now: int)
    requires Ready(db, clients, fd, args, id, now)
    ensures DbStep(db, Execute(db, clients, fd, args, id, now).db)
  {
    if args != [] && args[0] == "/create" {
      CreateKeeps(db, clients, fd, args, id, now);
    } else if args != [] && args[0] == "/subscribe" {
      SubscribeKeeps(db, clients, fd, args, id, now);
    } else if args != [] && args[0] == "/unsubscribe" {
      UnsubscribeKeeps(db, clients, fd, args, id, now);
    } else if args != [] && args[0] == "/login" {
      LoginKeeps(db, clients, fd, args, id, now);
    } else if args != [] && args[0] == "/logout" {
      NoStep(db);
      ReleaseKeeps(db, clients[fd].user);
    } else if args != [] && args[0] == "/send" {
      SendKeeps(db, clients, fd, args, id, now);
    } else {
      NoStep(db);
      QueriesChangeNothing(db, clients, fd, args, id, now);
    }
  }

  predicate IsQuery(args: seq<string>) {
    args == [] ||
    (args[0] != "/create" && args[0] != "/subscribe" && args[0] != "/unsubscribe" && args[0] != "/login" &&
     args[0] != "/logout" && args[0] != "/send")
  }

  /** The commands that only look. */
  lemma QueriesChangeNothing(db: Database, clients: Clients, fd: int, args: seq<string>, id: string, now: int)
    requires fd in clients && IsQuery(args)
    ensures var e := Execute(db, clients, fd, args, id, now); e.db == db && e.user == clients[fd].user
  {
    ContextQueries(db, clients, fd, args);
    ListQueries(db, clients, fd, args);
  }

  lemma ContextQueries(db: Database, clients: Clients, fd: int, args: seq<string>)
    requires fd in clients
    ensures ListHere(db, clients, fd).db == db && ListHere(db, clients, fd).user == clients[fd].user
    ensures Info(db, clients, fd).db == db && Info(db, clients, fd).user == clients[fd].user
    ensures Use(db, clients, fd, args).db == db && Use(db, clients, fd, args).user == clients[fd].user
  {
  }

  lemma ListQueries(db: Database, clients: Clients, fd: int, args: seq<string>)
    requires fd in clients
    ensures Subscribed(db, clients, fd, args).db == db && Subscribed(db, clients, fd, args).user == clients[fd].user
    ensures MessagesOf(db, clients, fd, args).db == db && MessagesOf(db, clients, fd, args).user == clients[fd].user
    ensures UserInfo(db, clients, fd, args).db == db && UserInfo(db, clients, fd, args).user == clients[fd].user
    ensures ListUsers(db, clients, fd).db == db && ListUsers(db, clients, fd).user == clients[fd].user
  {
  }

  // ---------------------------------------------------------------------------
  // Contexts

  /** A context that `/use` installs resolves; the thread it names lies in the channel it names. */
  lemma UseContextOk(db: Database, clients: Clients, fd: int, args: seq<string>)
    requires DbOk(db) && fd in clients && CtxOk(db, clients[fd].ctx)
    ensures CtxOk(db, Use(db, clients, fd, args).ctx)
  {
    var e := Use(db, clients, fd, args);
    if e.ctx != clients[fd].ctx && |args| >= 2 {
      assert TeamOk(db.users, db.teams[FindTeam(db, args[1]).value]);
      if |args| >= 3 {
        FindChannelIs(db, args[1], args[2]);
        var (t, c) := FindChannel(db, args[1], args[2]).value;
        ChannelAnywhereIs(db.teams, t, c);
        assert ChannelOk(db.users, db.teams[t].channels[c]);
        if |args| >= 4 {
          assert ThreadOk(db.users, db.teams[t].channels[c].threads[FindThread(db, args[2], args[3]).value.2]);
        }
      }
    }
  }

  // ---------------------------------------------------------------------------
  // Sessions

  /** One client's user changes: that client leaves one set of sessions and joins another. */
  lemma SessionMoves(clients: Clients, fd: int, user: string, ctx: Context, u: string)
    requires fd in clients
    ensures Sessions(SetSession(clients, fd, user, ctx), u) ==
            if u == user then Sessions(clients, u) + {fd} else Sessions(clients, u) - {fd}
  {
    var next := SetSession(clients, fd, user, ctx);
    assert forall f :: f in clients && f != fd ==> next[f] == clients[f];
  }

  lemma DeliverSessions(clients: Clients, outs: seq<Out>, u: string)
    ensures Sessions(Deliver(clients, outs), u) == Sessions(clients, u)
  {
    DeliverKeepsSessions(clients, outs);
  }

  /** The same users with the same counts. */
  predicate SameCounts(a: seq<User>, b: seq<User>) {
    |a| == |b| && forall i :: 0 <= i < |a| ==> b[i].uuid == a[i].uuid && b[i].connections == a[i].connections
  }

  lemma SameUserCounts(users: seq<User>, more: seq<User>, clients: Clients, fd: int, ctx: Context)
    requires CountsOk(users, clients) && SameCounts(users, more) && fd in clients
    ensures CountsOk(more, SetSession(clients, fd, clients[fd].user, ctx))
  {
    forall i | 0 <= i < |more|
      ensures more[i].connections == |Sessions(SetSession(clients, fd, clients[fd].user, ctx), more[i].uuid)|
    {
      SessionMoves(clients, fd, clients[fd].user, ctx, more[i].uuid);
      var s := Sessions(clients, more[i].uuid);
      if more[i].uuid == clients[fd].user { assert s + {fd} == s; } else { assert s - {fd} == s; }
      assert users[i].connections == |Sessions(clients, users[i].uuid)|;
    }
  }

  /** Entering: one more session for the `i`th user, one more client logged in as that user. */
  lemma EnterCounts(users: seq<User>, i: nat, clients: Clients, fd: int)
    requires UsersOk(users) && CountsOk(users, clients) && i < |users| && fd in clients && clients[fd].user == ""
    ensures var more := users[i := users[i].(connections := users[i].connections + 1)];
            CountsOk(more, SetSession(clients, fd, users[i].uuid, clients[fd].ctx))
  {
    var more := users[i := users[i].(connections := users[i].connections + 1)];
    var next := SetSession(clients, fd, users[i].uuid, clients[fd].ctx);
    forall j | 0 <= j < |more| ensures more[j].connections == |Sessions(next, more[j].uuid)| {
      assert UserOk(users[j]);
      var s := Sessions(clients, users[j].uuid);
      SessionMoves(clients, fd, users[i].uuid, clients[fd].ctx, users[j].uuid);
      assert fd !in s;
      if j != i { assert s - {fd} == s; }
    }
  }

  /** Leaving: one session less for the user that the client was logged in as. */
  lemma LeaveCounts(users: seq<User>, i: nat, clients: Clients, fd: int)
    requires UsersOk(users) && CountsOk(users, clients) && i < |users| && fd in clients && clients[fd].user == users[i].uuid
    ensures users[i].connections > 0
    ensures CountsOk(users[i := Released(users[i])], SetSession(clients, fd, "", clients[fd].ctx))
  {
    var more := users[i := Released(users[i])];
    var next := SetSession(clients, fd, "", clients[fd].ctx);
    assert fd in Sessions(clients, users[i].uuid);
    forall j | 0 <= j < |more| ensures more[j].connections == |Sessions(next, more[j].uuid)| {
      assert UserOk(users[j]);
      var s := Sessions(clients, users[j].uuid);
      SessionMoves(clients, fd, "", clients[fd].ctx, users[j].uuid);
      if j != i { assert fd !in s && s - {fd} == s; }
    }
  }

  lemma DeliverCounts(users: seq<User>, clients: Clients, outs: seq<Out>)
    requires CountsOk(users, clients)
    ensures CountsOk(users, Deliver(clients, outs))
  {
    forall i | 0 <= i < |users| ensures users[i].connections == |Sessions(Deliver(clients, outs), users[i].uuid)| {
      DeliverSessions(clients, outs, users[i].uuid);
    }
  }

  lemma LoginCounts(db: Database, clients: Clients, fd: int, args: seq<string>, id: string, now: int)
    requires Ready(db, clients, fd, args, id, now)
    ensures var e := Login(db, clients, fd, args, id);
            CountsOk(e.db.users, SetSession(clients, fd, e.user, e.ctx)) && (e.user == "" || Known(e.db.users, e.user))
            && e.ctx == clients[fd].ctx
  {
    var me := clients[fd];
    assert SessionOk(db, me);
    SameUserCounts(db.users, db.users, clients, fd, me.ctx);
    if |args| >= 2 && me.user == "" && !InvalidLength(args[1], MAX_NAME_LENGTH) {
      match FindUserByName(db, args[1])
      case Some(i) =>
        EnterCounts(db.users, i, clients, fd);
        assert Login(db, clients, fd, args, id).db.users[i].uuid == db.users[i].uuid;
      case None => NewUserCounts(db, clients, fd, args[1], id);
    }
  }

  /** Nobody can be logged in as a user that does not exist yet. */
  lemma NewUserCounts(db: Database, clients: Clients, fd: int, name: string, id: string)
    requires DbOk(db) && SessionsOk(db, clients) && fd in clients && clients[fd].user == "" && Fresh(db, id)
    ensures var users := db.users + [User(id, name, 1, [], map[])];
            CountsOk(users, SetSession(clients, fd, id, clients[fd].ctx)) && Known(users, id)
  {
    var users := db.users + [User(id, name, 1, [], map[])];
    var next := SetSession(clients, fd, id, clients[fd].ctx);
    assert users[|db.users|].uuid == id;
    forall j | 0 <= j < |users| ensures users[j].connections == |Sessions(next, users[j].uuid)| {
      var s := Sessions(clients, users[j].uuid);
      SessionMoves(clients, fd, id, clients[fd].ctx, users[j].uuid);
      if j < |db.users| {
        assert UserOk(db.users[j]);
        assert fd !in s && s - {fd} == s;
      } else {
        forall f | f in clients ensures clients[f].user != id {
          assert SessionOk(db, clients[f]);
        }
        assert s == {};
      }
    }
  }

  lemma LogoutCounts(db: Database, clients: Clients, fd: int)
    requires DbOk(db) && SessionsOk(db, clients) && fd in clients
    ensures var e := Logout(db, clients, fd);
            CountsOk(e.db.users, SetSession(clients, fd, e.user, e.ctx)) && e.user == "" && e.ctx == clients[fd].ctx
  {
    var me := clients[fd];
    assert SessionOk(db, me);
    SameUserCounts(db.users, db.users, clients, fd, me.ctx);
    if me.user != "" {
      FindUserKnown(db, me.user);
      LeaveCounts(db.users, FindUser(db, me.user).value, clients, fd);
    }
  }

  lemma StoreMessageCounts(users: seq<User>, s: nat, r: nat, m: Message)
    requires s < |users| && r < |users|
    ensures SameCounts(users, StoreMessage(users, s, r, m))
  {
  }

  lemma SendCounts(db: Database, clients: Clients, fd: int, args: seq<string>, now: int)
    requires fd in clients
    ensures var e := Send(db, clients, fd, args, now); SameCounts(db.users, e.db.users) && e.user == clients[fd].user
  {
    if !(|args| < 3 || args[1] == "" || InvalidLength(args[2], MAX_BODY_LENGTH)) {
      var s, r := FindUser(db, clients[fd].user), FindUser(db, args[1]);
      if s.Some? && r.Some? {
        StoreMessageCounts(db.users, s.value, r.value,
                           Message(db.users[s.value].uuid, db.users[r.value].uuid, now, args[2]));
      }
    }
  }

  lemma CreateCounts(db: Database, clients: Clients, fd: int, args: seq<string>, id: string, now: int)
    requires fd in clients
    ensures var e := Create(db, clients, fd, args, id, now); e.db.users == db.users && e.user == clients[fd].user
  {
  }

  /** Commands other than login and logout move no session. */
  lemma OtherCounts(db: Database, clients: Clients, fd: int, args: seq<string>, id: string, now: int)
    requires fd in clients
    requires args == [] || (args[0] != "/login" && args[0] != "/logout")
    ensures var e := Execute(db, clients, fd, args, id, now);
            SameCounts(db.users, e.db.users) && e.user == clients[fd].user
  {
    if args != [] && args[0] == "/send" {
      SendCounts(db, clients, fd, args, now);
    } else if args != [] && args[0] == "/create" {
      CreateCounts(db, clients, fd, args, id, now);
    } else if IsQuery(args) {
      QueriesChangeNothing(db, clients, fd, args, id, now);
    }
  }

  lemma ExecuteCounts(db: Database, clients: Clients, fd: int, args: seq<string>, id: string, now: int)
    requires Ready(db, clients, fd, args, id, now)
    ensures var e := Execute(db, clients, fd, args, id, now);
            && CountsOk(e.db.users, SetSession(clients, fd, e.user, e.ctx))
            && (e.user == "" || Known(e.db.users, e.user))
  {
    var e := Execute(db, clients, fd, args, id, now);
    if args != [] && args[0] == "/login" {
      LoginCounts(db, clients, fd, args, id, now);
    } else if args != [] && args[0] == "/logout" {
      LogoutCounts(db, clients, fd);
    } else {
      OtherCounts(db, clients, fd, args, id, now);
      SameUserCounts(db.users, e.db.users, clients, fd, e.ctx);
      assert SessionOk(db, clients[fd]);
      if e.user != "" {
        ExecuteKeepsDb(db, clients, fd, args, id, now);
        GrowsKnown(db, e.db, e.user);
      }
    }
  }

  lemma ExecuteCtx(db: Database, clients: Clients, fd: int, args: seq<string>, id: string, now: int)
    requires Ready(db, clients, fd, args, id, now)
    ensures CtxOk(db, Execute(db, clients, fd, args, id, now).ctx)
  {
    assert SessionOk(db, clients[fd]);
    if args != [] && args[0] == "/use" {
      UseContextOk(db, clients, fd, args);
    } else {
      OtherCtx(db, clients, fd, args, id, now);
    }
  }

  lemma OtherCtx(db: Database, clients: Clients, fd: int, args: seq<string>, id: string, now: int)
    requires fd in clients && (args == [] || args[0] != "/use")
    ensures Execute(db, clients, fd, args, id, now).ctx == clients[fd].ctx
  {
  }

  /** Every command keeps counts, logged-in users and contexts right for all clients. */
  lemma ExecuteKeepsSessions(db: Database, clients: Clients, fd: int, args: seq<string>, id: string, now: int)
    requires Ready(db, clients, fd, args, id, now)
    ensures var e := Execute(db, clients, fd, args, id, now); SessionsOk(e.db, Apply(clients, fd, e))
  {
    var e := Execute(db, clients, fd, args, id, now);
    ExecuteCounts(db, clients, fd, args, id, now);
    ExecuteCtx(db, clients, fd, args, id, now);
    ExecuteKeepsDb(db, clients, fd, args, id, now);
    AppliedSessions(db, clients, fd, e);
  }

  lemma AppliedSessions(db: Database, clients: Clients, fd: int, e: Effect)
    requires fd in clients && SessionsOk(db, clients) && DbStep(db, e.db)
    requires CountsOk(e.db.users, SetSession(clients, fd, e.user, e.ctx))
    requires (e.user == "" || Known(e.db.users, e.user)) && CtxOk(db, e.ctx)
    ensures SessionsOk(e.db, Apply(clients, fd, e))
  {
    var moved := SetSession(clients, fd, e.user, e.ctx);
    DeliverCounts(e.db.users, moved, e.outs);
    DeliverKeepsSessions(moved, e.outs);
    CtxStays(db, e.db, e.ctx);
    forall f | f in Apply(clients, fd, e) ensures SessionOk(e.db, Apply(clients, fd, e)[f]) {
      if f != fd {
        assert SessionOk(db, clients[f]);
        CtxStays(db, e.db, clients[f].ctx);
        if clients[f].user != "" {
          GrowsKnown(db, e.db, clients[f].user);
        }
      }
    }
  }
}
