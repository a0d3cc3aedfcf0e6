/** What holds after every run that starts on a good database, spelled out. */
module Safety {
  import opened Model
  import opened Lookup
  import opened Commands
  import opened Invariant
  import opened ServerState
  import opened Runs

  /** A database the server may start on: well-formed, nobody connected. */
  predicate GoodStart(db: Database) {
    DbOk(db) && forall i :: 0 <= i < |db.users| ==> db.users[i].connections == 0
  }

  predicate PossibleFrom(serverFd: int, db: Database, events: seq<Event>) {
    GoodStart(db) && Possible(Started(serverFd, db), events)
  }

  function After(serverFd: int, db: Database, events: seq<Event>): State
    requires PossibleFrom(serverFd, db, events)
  {
    RunFrom(Started(serverFd, db), events)
  }

  lemma AfterOk(serverFd: int, db: Database, events: seq<Event>)
    requires PossibleFrom(serverFd, db, events)
    ensures Inv(After(serverFd, db, events)) && Grows(db, After(serverFd, db, events).db)
  {
    StartOk(serverFd, db);
    RunKeeps(Started(serverFd, db), events);
  }

  /** Counts are the live sessions, and every logged-in client is an existing user. */
  lemma RunCounts(serverFd: int, db: Database, events: seq<Event>)
    requires PossibleFrom(serverFd, db, events)
    ensures var s := After(serverFd, db, events);
            && (forall i :: 0 <= i < |s.db.users| ==>
                  s.db.users[i].connections == |set fd | fd in s.clients && s.clients[fd].user == s.db.users[i].uuid|)
            && (forall fd :: fd in s.clients && s.clients[fd].user != "" ==> FindUser(s.db, s.clients[fd].user).Some?)
  {
    AfterOk(serverFd, db, events);
    var s := After(serverFd, db, events);
    forall i | 0 <= i < |s.db.users|
      ensures s.db.users[i].connections == |set fd | fd in s.clients && s.clients[fd].user == s.db.users[i].uuid|
    {
      assert Sessions(s.clients, s.db.users[i].uuid) == set fd | fd in s.clients && s.clients[fd].user == s.db.users[i].uuid;
    }
    forall fd | fd in s.clients && s.clients[fd].user != "" ensures FindUser(s.db, s.clients[fd].user).Some? {
      assert SessionOk(s.db, s.clients[fd]);
      FindUserKnown(s.db, s.clients[fd].user);
    }
  }

  /** The two ends of a conversation hold the same messages, and all of them are between these two. */
  lemma RunConversations(serverFd: int, db: Database, events: seq<Event>, i: nat, j: nat)
    requires PossibleFrom(serverFd, db, events)
    requires i < |After(serverFd, db, events).db.users| && j < |After(serverFd, db, events).db.users| && i != j
    ensures var users := After(serverFd, db, events).db.users;
            var a, b := users[i], users[j];
            && Conversation(a, b.uuid) == Conversation(b, a.uuid)
            && (forall m :: m in Conversation(a, b.uuid) ==>
                  multiset{m.sender, m.receiver} == multiset{a.uuid, b.uuid} && 0 < |m.body| <= 512)
  {
    AfterOk(serverFd, db, events);
    var users := After(serverFd, db, events).db.users;
    var a, b := users[i], users[j];
    var ms := Conversation(a, b.uuid);
    forall m | m in ms ensures multiset{m.sender, m.receiver} == multiset{a.uuid, b.uuid} && 0 < |m.body| <= 512 {
      var k :| 0 <= k < |ms| && ms[k] == m;
      assert ConversationOk(ms, a.uuid, b.uuid);
      assert MessageOk(ms[k], a.uuid, b.uuid);
    }
  }

  /** A client's context names a team that exists, a channel of that team and a thread of that channel. */
  lemma RunContexts(serverFd: int, db: Database, events: seq<Event>, fd: int)
    requires PossibleFrom(serverFd, db, events) && fd in After(serverFd, db, events).clients
    ensures var s := After(serverFd, db, events);
            var ctx := s.clients[fd].ctx;
            && (ctx.thread != "" ==> ctx.channel != "") && (ctx.channel != "" ==> ctx.team != "")
            && (ctx.team != "" ==>
                  exists t :: 0 <= t < |s.db.teams| && s.db.teams[t].uuid == ctx.team)
            && (ctx.channel != "" ==>
                  && FindChannel(s.db, ctx.team, ctx.channel).Some?
                  && var (t, c) := FindChannel(s.db, ctx.team, ctx.channel).value;
                     s.db.teams[t].uuid == ctx.team && s.db.teams[t].channels[c].uuid == ctx.channel)
            && (ctx.thread != "" ==>
                  && FindThread(s.db, ctx.channel, ctx.thread).Some?
                  && var (t, c, h) := FindThread(s.db, ctx.channel, ctx.thread).value;
                     && s.db.teams[t].uuid == ctx.team && s.db.teams[t].channels[c].uuid == ctx.channel
                     && s.db.teams[t].channels[c].threads[h].uuid == ctx.thread)
  {
    AfterOk(serverFd, db, events);
    var s := After(serverFd, db, events);
    var ctx := s.clients[fd].ctx;
    assert SessionOk(s.db, s.clients[fd]);
    if ctx.team != "" {
      assert s.db.teams[FindTeam(s.db, ctx.team).value].uuid == ctx.team;
    }
    if ctx.channel != "" {
      FindChannelIs(s.db, ctx.team, ctx.channel);
    }
  }

  /** User names and team names stay unique, and they and the descriptions are within their limits. */
  lemma RunNames(serverFd: int, db: Database, events: seq<Event>)
    requires PossibleFrom(serverFd, db, events)
    ensures var s := After(serverFd, db, events);
            && (forall i, j :: 0 <= i < j < |s.db.users| ==> s.db.users[i].name != s.db.users[j].name)
            && (forall i, j :: 0 <= i < j < |s.db.teams| ==> s.db.teams[i].name != s.db.teams[j].name)
            && (forall i :: 0 <= i < |s.db.users| ==> 0 < |s.db.users[i].name| <= 32)
            && (forall i :: 0 <= i < |s.db.teams| ==> 0 < |s.db.teams[i].name| <= 32 && 0 < |s.db.teams[i].description| <= 255)
  {
    AfterOk(serverFd, db, events);
    var s := After(serverFd, db, events);
    forall i | 0 <= i < |s.db.users| ensures 0 < |s.db.users[i].name| <= 32 {
      assert UserOk(s.db.users[i]);
    }
    forall i | 0 <= i < |s.db.teams| ensures 0 < |s.db.teams[i].name| <= 32 && 0 < |s.db.teams[i].description| <= 255 {
      assert TeamOk(s.db.users, s.db.teams[i]);
    }
  }

  /** Inside a team: channel names unique, thread titles unique in their channel, subscribers listed once and known. */
  lemma RunTeams(serverFd: int, db: Database, events: seq<Event>, t: nat)
    requires PossibleFrom(serverFd, db, events) && t < |After(serverFd, db, events).db.teams|
    ensures var s := After(serverFd, db, events);
            var team := s.db.teams[t];
            && (forall i, j :: 0 <= i < j < |team.subscribers| ==> team.subscribers[i] != team.subscribers[j])
            && (forall u :: u in team.subscribers ==> FindUser(s.db, u).Some?)
            && (forall i, j :: 0 <= i < j < |team.channels| ==> team.channels[i].name != team.channels[j].name)
            && (forall c, i, j :: 0 <= c < |team.channels| && 0 <= i < j < |team.channels[c].threads| ==>
                  team.channels[c].threads[i].title != team.channels[c].threads[j].title)
            && (forall c :: 0 <= c < |team.channels| ==> ChannelLimits(team.channels[c]))
  {
    AfterOk(serverFd, db, events);
    var s := After(serverFd, db, events);
    var team := s.db.teams[t];
    assert TeamOk(s.db.users, team);
    forall u | u in team.subscribers ensures FindUser(s.db, u).Some? {
      FindUserKnown(s.db, u);
    }
    forall c | 0 <= c < |team.channels| ensures ChannelOk(s.db.users, team.channels[c]) && ChannelLimits(team.channels[c]) {
      WithinLimits(s.db.users, team.channels[c]);
    }
  }

  /** The limits of everything in a channel: its name and description, titles, bodies and replies. */
  predicate ChannelLimits(c: Channel) {
    && 0 < |c.name| <= 32 && 0 < |c.description| <= 255
    && (forall h :: 0 <= h < |c.threads| ==> 0 < |c.threads[h].title| <= 32 && 0 < |c.threads[h].body| <= 512)
    && (forall h, r :: 0 <= h < |c.threads| && 0 <= r < |c.threads[h].replies| ==> 0 < |c.threads[h].replies[r].body| <= 512)
  }

  lemma WithinLimits(users: seq<User>, c: Channel)
    requires ChannelOk(users, c)
    ensures ChannelLimits(c)
  {
    forall h | 0 <= h < |c.threads|
      ensures 0 < |c.threads[h].title| <= 32 && 0 < |c.threads[h].body| <= 512
      ensures forall r :: 0 <= r < |c.threads[h].replies| ==> 0 < |c.threads[h].replies[r].body| <= 512
    {
      assert ThreadOk(users, c.threads[h]);
      forall r | 0 <= r < |c.threads[h].replies| ensures 0 < |c.threads[h].replies[r].body| <= 512 {
        assert ReplyOk(users, c.threads[h].replies[r]);
      }
    }
  }

  /** Messages stay: same user, same interlocutor, same order, followed by later ones. */
  lemma RunKeepsMessages(serverFd: int, db: Database, before: seq<Event>, after: seq<Event>, i: nat, k: string)
    requires PossibleFrom(serverFd, db, before) && Possible(After(serverFd, db, before), after)
    requires i < |After(serverFd, db, before).db.users|
    ensures var a, b := After(serverFd, db, before).db, RunFrom(After(serverFd, db, before), after).db;
            && i < |b.users| && b.users[i].uuid == a.users[i].uuid && b.users[i].name == a.users[i].name
            && Conversation(a.users[i], k) <= Conversation(b.users[i], k)
  {
    AfterOk(serverFd, db, before);
    var s := After(serverFd, db, before);
    RunKeeps(s, after);
    assert UserGrows(s.db.users[i], RunFrom(s, after).db.users[i]);
  }

  /** Threads and replies stay: same place, same content, followed by later ones. */
  lemma RunKeepsThreads(serverFd: int, db: Database, before: seq<Event>, after: seq<Event>, t: nat, c: nat, h: nat)
    requires PossibleFrom(serverFd, db, before) && Possible(After(serverFd, db, before), after)
    requires var a := After(serverFd, db, before).db;
             t < |a.teams| && c < |a.teams[t].channels| && h < |a.teams[t].channels[c].threads|
    ensures var a, b := After(serverFd, db, before).db, RunFrom(After(serverFd, db, before), after).db;
            && t < |b.teams| && c < |b.teams[t].channels| && h < |b.teams[t].channels[c].threads|
            && b.teams[t].uuid == a.teams[t].uuid && b.teams[t].name == a.teams[t].name
            && b.teams[t].channels[c].(threads := []) == a.teams[t].channels[c].(threads := [])
            && var x, y := a.teams[t].channels[c].threads[h], b.teams[t].channels[c].threads[h];
               y.(replies := []) == x.(replies := []) && x.replies <= y.replies
  {
    AfterOk(serverFd, db, before);
    var s := After(serverFd, db, before);
    RunKeeps(s, after);
    var a, b := s.db, RunFrom(s, after).db;
    assert TeamGrows(a.teams[t], b.teams[t]);
    assert ChannelGrows(a.teams[t].channels[c], b.teams[t].channels[c]);
    assert ThreadGrows(a.teams[t].channels[c].threads[h], b.teams[t].channels[c].threads[h]);
  }

  /** At every wait: the server first, every client once, output watched exactly where some is pending. */
  lemma RunPoll(serverFd: int, db: Database, events: seq<Event>)
    requires PossibleFrom(serverFd, db, events)
    ensures var s := UpdateFlags(After(serverFd, db, events));
            && s.poll != [] && s.poll[0] == PollEntry(s.serverFd, false)
            && (forall i, j :: 0 <= i < j < |s.poll| ==> s.poll[i].fd != s.poll[j].fd)
            && (set i | 0 < i < |s.poll| :: s.poll[i].fd) == s.clients.Keys
            && (forall i :: 0 < i < |s.poll| ==> s.poll[i].fd in s.clients && (s.poll[i].out <==> s.clients[s.poll[i].fd].writeBuffer != ""))
  {
    AfterOk(serverFd, db, events);
    var s := After(serverFd, db, events);
    FlagsKeep(s);
    WatchesPending(s);
    var next := UpdateFlags(s);
    PollCovers(next);
  }

  lemma PollCovers(s: State)
    requires PollOk(s)
    ensures (set i | 0 < i < |s.poll| :: s.poll[i].fd) == s.clients.Keys
  {
    forall fd ensures fd in (set i | 0 < i < |s.poll| :: s.poll[i].fd) <==> fd in s.clients.Keys {
      if fd in s.clients {
        var i :| 0 < i < |s.poll| && s.poll[i].fd == fd;
      }
    }
  }
}
