/** What every reachable server state satisfies. */
module Invariant {
  import opened Text
  import opened Numbers
  import opened Model
  import opened Lookup
  import opened Commands

  // ---------------------------------------------------------------------------
  // The database

  predicate Known(users: seq<User>, uuid: string) {
    exists i :: 0 <= i < |users| && users[i].uuid == uuid
  }

  /** The length of a printed UUID. */
  const MAX_ID_LENGTH: nat := 36

  predicate IdOk(id: string) {
    0 < |id| <= MAX_ID_LENGTH && Normal(id)
  }

  predicate TextOk(s: string, max: nat) {
    0 < |s| <= max && Normal(s)
  }

  predicate TimeOk(t: int) {
    -TWO_53 <= t <= TWO_53
  }

  predicate UserOk(u: User) {
    IdOk(u.uuid) && TextOk(u.name, MAX_NAME_LENGTH)
  }

  /** Identifiers and names are unique. */
  predicate UsersOk(users: seq<User>) {
    && (forall i {:trigger UserOk(users[i])} :: 0 <= i < |users| ==> UserOk(users[i]))
    && (forall i, j :: 0 <= i < j < |users| ==> users[i].uuid != users[j].uuid)
    && (forall i, j :: 0 <= i < j < |users| ==> users[i].name != users[j].name)
  }

  /** A message of the conversation between two users. */
  predicate MessageOk(m: Message, a: string, b: string) {
    && ((m.sender == a && m.receiver == b) || (m.sender == b && m.receiver == a))
    && TextOk(m.body, MAX_BODY_LENGTH) && TimeOk(m.timestamp)
  }

  predicate ConversationOk(ms: seq<Message>, a: string, b: string) {
    forall i {:trigger MessageOk(ms[i], a, b)} :: 0 <= i < |ms| ==> MessageOk(ms[i], a, b)
  }

  /** Every message to oneself is stored twice in a row. */
  predicate Paired(ms: seq<Message>) {
    |ms| % 2 == 0 && forall i :: 0 <= i < |ms| / 2 ==> ms[2 * i] == ms[2 * i + 1]
  }

  /** Conversations are with existing users, have the two ends as endpoints, and look the same from both. */
  predicate ConversationsOk(users: seq<User>) {
    && (forall i, k :: 0 <= i < |users| && k in users[i].messages ==> Known(users, k))
    && (forall i, k :: 0 <= i < |users| && k in users[i].messages ==> ConversationOk(users[i].messages[k], users[i].uuid, k))
    && (forall i, j :: 0 <= i < |users| && 0 <= j < |users| && i != j ==>
          Conversation(users[i], users[j].uuid) == Conversation(users[j], users[i].uuid))
    && (forall i :: 0 <= i < |users| ==> Paired(Conversation(users[i], users[i].uuid)))
  }

  predicate ReplyOk(users: seq<User>, r: Reply) {
    Known(users, r.author) && TextOk(r.body, MAX_BODY_LENGTH) && TimeOk(r.timestamp)
  }

  predicate ThreadOk(users: seq<User>, t: Thread) {
    && IdOk(t.uuid) && Known(users, t.author) && TimeOk(t.timestamp)
    && TextOk(t.title, MAX_NAME_LENGTH) && TextOk(t.body, MAX_BODY_LENGTH)
    && forall i {:trigger ReplyOk(users, t.replies[i])} :: 0 <= i < |t.replies| ==> ReplyOk(users, t.replies[i])
  }

  predicate ChannelOk(users: seq<User>, c: Channel) {
    && IdOk(c.uuid) && TextOk(c.name, MAX_NAME_LENGTH) && TextOk(c.description, MAX_DESCRIPTION_LENGTH)
    && (forall i {:trigger ThreadOk(users, c.threads[i])} :: 0 <= i < |c.threads| ==> ThreadOk(users, c.threads[i]))
    && (forall i, j :: 0 <= i < j < |c.threads| ==> c.threads[i].title != c.threads[j].title)
    && (forall i, j :: 0 <= i < j < |c.threads| ==> c.threads[i].uuid != c.threads[j].uuid)
  }

  predicate SubscribersOk(users: seq<User>, subs: seq<string>) {
    Distinct(subs) && forall i :: 0 <= i < |subs| ==> Known(users, subs[i])
  }

  predicate TeamOk(users: seq<User>, t: Team) {
    && IdOk(t.uuid) && TextOk(t.name, MAX_NAME_LENGTH) && TextOk(t.description, MAX_DESCRIPTION_LENGTH)
    && SubscribersOk(users, t.subscribers)
    && (forall i {:trigger ChannelOk(users, t.channels[i])} :: 0 <= i < |t.channels| ==> ChannelOk(users, t.channels[i]))
    && (forall i, j :: 0 <= i < j < |t.channels| ==> t.channels[i].name != t.channels[j].name)
  }

  /** No two channels anywhere share an identifier. */
  predicate ChannelIdsUnique(teams: seq<Team>) {
    forall i, j, k, l ::
      (&& 0 <= i < |teams| && 0 <= k < |teams| && 0 <= j < |teams[i].channels| && 0 <= l < |teams[k].channels|
       && teams[i].channels[j].uuid == teams[k].channels[l].uuid)
      ==> i == k && j == l
  }

  predicate TeamsOk(users: seq<User>, teams: seq<Team>) {
    && (forall i {:trigger TeamOk(users, teams[i])} :: 0 <= i < |teams| ==> TeamOk(users, teams[i]))
    && (forall i, j :: 0 <= i < j < |teams| ==> teams[i].uuid != teams[j].uuid)
    && (forall i, j :: 0 <= i < j < |teams| ==> teams[i].name != teams[j].name)
    && ChannelIdsUnique(teams)
  }

  predicate DbOk(db: Database) {
    UsersOk(db.users) && ConversationsOk(db.users) && TeamsOk(db.users, db.teams)
  }

  /** A generated identifier: no user, team, channel or thread has it. */
  predicate Fresh(db: Database, id: string) {
    && IdOk(id)
    && (forall i :: 0 <= i < |db.users| ==> db.users[i].uuid != id)
    && (forall i :: 0 <= i < |db.teams| ==> db.teams[i].uuid != id)
    && (forall i, j :: 0 <= i < |db.teams| && 0 <= j < |db.teams[i].channels| ==> db.teams[i].channels[j].uuid != id)
    && (forall i, j, k :: 0 <= i < |db.teams| && 0 <= j < |db.teams[i].channels| && 0 <= k < |db.teams[i].channels[j].threads| ==>
          db.teams[i].channels[j].threads[k].uuid != id)
  }

  // ---------------------------------------------------------------------------
  // Growth

  predicate ThreadGrows(a: Thread, b: Thread) {
    b == a.(replies := b.replies) && a.replies <= b.replies
  }

  predicate ChannelGrows(a: Channel, b: Channel) {
    && b == a.(threads := b.threads) && |a.threads| <= |b.threads|
    && forall i {:trigger ThreadGrows(a.threads[i], b.threads[i])} :: 0 <= i < |a.threads| ==> ThreadGrows(a.threads[i], b.threads[i])
  }

  predicate TeamGrows(a: Team, b: Team) {
    && b == a.(subscribers := b.subscribers, channels := b.channels) && |a.channels| <= |b.channels|
    && forall i {:trigger ChannelGrows(a.channels[i], b.channels[i])} :: 0 <= i < |a.channels| ==> ChannelGrows(a.channels[i], b.channels[i])
  }

  predicate UserGrows(a: User, b: User) {
    && b == a.(connections := b.connections, messages := b.messages)
    && forall k :: k in a.messages ==> k in b.messages && a.messages[k] <= b.messages[k]
  }

  /** Nothing stored is removed, reordered or rewritten, except for connection counts and subscriber lists. */
  predicate Grows(a: Database, b: Database) {
    && |a.users| <= |b.users| && (forall i {:trigger UserGrows(a.users[i], b.users[i])} :: 0 <= i < |a.users| ==> UserGrows(a.users[i], b.users[i]))
    && |a.teams| <= |b.teams| && (forall i {:trigger TeamGrows(a.teams[i], b.teams[i])} :: 0 <= i < |a.teams| ==> TeamGrows(a.teams[i], b.teams[i]))
  }

  lemma GrowsRefl(a: Database)
    ensures Grows(a, a)
  {
  }

  lemma ThreadGrowsTrans(a: Thread, b: Thread, c: Thread)
    requires ThreadGrows(a, b) && ThreadGrows(b, c)
    ensures ThreadGrows(a, c)
  {
  }

  lemma ChannelGrowsTrans(a: Channel, b: Channel, c: Channel)
    requires ChannelGrows(a, b) && ChannelGrows(b, c)
    ensures ChannelGrows(a, c)
  {
    forall i | 0 <= i < |a.threads| ensures ThreadGrows(a.threads[i], c.threads[i]) {
      ThreadGrowsTrans(a.threads[i], b.threads[i], c.threads[i]);
    }
  }

  lemma TeamGrowsTrans(a: Team, b: Team, c: Team)
    requires TeamGrows(a, b) && TeamGrows(b, c)
    ensures TeamGrows(a, c)
  {
    forall i | 0 <= i < |a.channels| ensures ChannelGrows(a.channels[i], c.channels[i]) {
      ChannelGrowsTrans(a.channels[i], b.channels[i], c.channels[i]);
    }
  }

  lemma UserGrowsTrans(a: User, b: User, c: User)
    requires UserGrows(a, b) && UserGrows(b, c)
    ensures UserGrows(a, c)
  {
    forall k | k in a.messages ensures k in c.messages && a.messages[k] <= c.messages[k] {
      assert k in b.messages;
    }
  }

  lemma GrowsTrans(a: Database, b: Database, c: Database)
    requires Grows(a, b) && Grows(b, c)
    ensures Grows(a, c)
  {
    forall i | 0 <= i < |a.users| ensures UserGrows(a.users[i], c.users[i]) {
      UserGrowsTrans(a.users[i], b.users[i], c.users[i]);
    }
    forall i | 0 <= i < |a.teams| ensures TeamGrows(a.teams[i], c.teams[i]) {
      TeamGrowsTrans(a.teams[i], b.teams[i], c.teams[i]);
    }
  }

  lemma GrowsKnown(a: Database, b: Database, u: string)
    requires Grows(a, b) && Known(a.users, u)
    ensures Known(b.users, u)
  {
    var i :| 0 <= i < |a.users| && a.users[i].uuid == u;
    assert UserGrows(a.users[i], b.users[i]);
    assert b.users[i].uuid == u;
  }

  // ---------------------------------------------------------------------------
  // Contexts

  /** A non-empty context resolves level by level, and the thread search finds the thread in that very channel. */
  predicate CtxOk(db: Database, ctx: Context) {
    && (ctx.team == "" ==> ctx.channel == "")
    && (ctx.channel == "" ==> ctx.thread == "")
    && (ctx.team != "" ==> FindTeam(db, ctx.team).Some?)
    && (ctx.channel != "" ==> FindChannel(db, ctx.team, ctx.channel).Some?)
    && (ctx.thread != "" ==>
          && FindThread(db, ctx.channel, ctx.thread).Some?
          && var (t, c, h) := FindThread(db, ctx.channel, ctx.thread).value;
             FindChannel(db, ctx.team, ctx.channel) == Some((t, c)))
  }

  lemma IndexStays(keys: seq<string>, more: seq<string>, key: string)
    requires Index(keys, key).Some? && |keys| <= |more| && (forall i :: 0 <= i < |keys| ==> more[i] == keys[i])
    ensures Index(more, key) == Index(keys, key)
  {
    IndexIs(more, key, Index(keys, key).value);
  }

  lemma FindTeamStays(a: Database, b: Database, team: string)
    requires Grows(a, b) && FindTeam(a, team).Some?
    ensures FindTeam(b, team) == FindTeam(a, team)
  {
    forall i | 0 <= i < |a.teams| ensures b.teams[i].uuid == a.teams[i].uuid {
      assert TeamGrows(a.teams[i], b.teams[i]);
    }
    IndexStays(TeamIds(a.teams), TeamIds(b.teams), team);
  }

  lemma FindChannelStays(a: Database, b: Database, team: string, channel: string)
    requires Grows(a, b) && FindChannel(a, team, channel).Some?
    ensures FindChannel(b, team, channel) == FindChannel(a, team, channel)
  {
    FindTeamStays(a, b, team);
    var t := FindTeam(a, team).value;
    assert TeamGrows(a.teams[t], b.teams[t]);
    var xs, ys := a.teams[t].channels, b.teams[t].channels;
    forall i | 0 <= i < |xs| ensures ys[i].uuid == xs[i].uuid {
      assert ChannelGrows(xs[i], ys[i]);
    }
    IndexStays(ChannelIds(xs), ChannelIds(ys), channel);
  }

  /** With unique identifiers the search over all teams finds the one channel there is. */
  lemma ChannelAnywhereIs(teams: seq<Team>, t: nat, c: nat)
    requires ChannelIdsUnique(teams) && t < |teams| && c < |teams[t].channels|
    ensures ChannelAnywhere(teams, teams[t].channels[c].uuid, 0) == Some((t, c))
  {
    var r := ChannelAnywhere(teams, teams[t].channels[c].uuid, 0);
    assert r.Some?;
    assert teams[r.value.0].channels[r.value.1].uuid == teams[t].channels[c].uuid;
  }

  lemma FindChannelIs(db: Database, team: string, channel: string)
    requires FindChannel(db, team, channel).Some?
    ensures var (t, c) := FindChannel(db, team, channel).value;
            db.teams[t].uuid == team && db.teams[t].channels[c].uuid == channel
  {
  }

  lemma FindThreadStays(a: Database, b: Database, team: string, channel: string, thread: string)
    requires Grows(a, b) && ChannelIdsUnique(b.teams)
    requires FindThread(a, channel, thread).Some?
    requires var (t, c, h) := FindThread(a, channel, thread).value; FindChannel(a, team, channel) == Some((t, c))
    ensures FindThread(b, channel, thread) == FindThread(a, channel, thread)
  {
    var (t, c, h) := FindThread(a, channel, thread).value;
    FindChannelStays(a, b, team, channel);
    FindChannelIs(b, team, channel);
    ChannelAnywhereIs(b.teams, t, c);
    assert TeamGrows(a.teams[t], b.teams[t]);
    assert ChannelGrows(a.teams[t].channels[c], b.teams[t].channels[c]);
    var xs, ys := a.teams[t].channels[c].threads, b.teams[t].channels[c].threads;
    forall i | 0 <= i < |xs| ensures ys[i].uuid == xs[i].uuid {
      assert ThreadGrows(xs[i], ys[i]);
    }
    IndexStays(ThreadIds(xs), ThreadIds(ys), thread);
  }

  /** Contexts stay resolvable as the database grows. */
  lemma CtxStays(a: Database, b: Database, ctx: Context)
    requires CtxOk(a, ctx) && Grows(a, b) && ChannelIdsUnique(b.teams)
    ensures CtxOk(b, ctx)
  {
    if ctx.team != "" {
      FindTeamStays(a, b, ctx.team);
    }
    if ctx.channel != "" {
      FindChannelStays(a, b, ctx.team, ctx.channel);
    }
    if ctx.thread != "" {
      FindThreadStays(a, b, ctx.team, ctx.channel, ctx.thread);
    }
  }

  /** The parts of a resolvable context are identifiers of stored entities. */
  lemma CtxNormal(db: Database, ctx: Context)
    requires DbOk(db) && CtxOk(db, ctx)
    ensures Normal(ctx.team) && Normal(ctx.channel) && Normal(ctx.thread)
    ensures |ctx.team| <= MAX_ID_LENGTH && |ctx.channel| <= MAX_ID_LENGTH && |ctx.thread| <= MAX_ID_LENGTH
  {
    if ctx.team != "" {
      var t := FindTeam(db, ctx.team).value;
      assert TeamOk(db.users, db.teams[t]);
    }
    if ctx.channel != "" {
      var (t, c) := FindChannel(db, ctx.team, ctx.channel).value;
      FindChannelIs(db, ctx.team, ctx.channel);
      assert TeamOk(db.users, db.teams[t]);
      assert ChannelOk(db.users, db.teams[t].channels[c]);
    }
    if ctx.thread != "" {
      var (t, c, h) := FindThread(db, ctx.channel, ctx.thread).value;
      assert TeamOk(db.users, db.teams[t]);
      assert ChannelOk(db.users, db.teams[t].channels[c]);
      assert ThreadOk(db.users, db.teams[t].channels[c].threads[h]);
    }
  }

  // ---------------------------------------------------------------------------
  // Sessions

  /** Every user's count is the number of clients logged in as that user. */
  predicate CountsOk(users: seq<User>, clients: Clients) {
    forall i :: 0 <= i < |users| ==> users[i].connections == |Sessions(clients, users[i].uuid)|
  }

  predicate SessionOk(db: Database, c: Client) {
    (c.user == "" || Known(db.users, c.user)) && CtxOk(db, c.ctx)
  }

  predicate SessionsOk(db: Database, clients: Clients) {
    CountsOk(db.users, clients) && forall fd {:trigger SessionOk(db, clients[fd])} :: fd in clients ==> SessionOk(db, clients[fd])
  }

  lemma FindUserKnown(db: Database, u: string)
    ensures Known(db.users, u) <==> FindUser(db, u).Some?
  {
    if FindUser(db, u).Some? {
      assert db.users[FindUser(db, u).value].uuid == u;
    } else {
      assert forall i :: 0 <= i < |db.users| ==> UserIds(db.users)[i] != u;
    }
  }
}
