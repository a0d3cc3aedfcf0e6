/** When the saved database comes back unchanged, and what later restarts do to it. */
module SaveExact {
  import opened Text
  import opened Numbers
  import opened Model
  import opened Save
  import opened SaveRoundTrip

  /** The stored part of a database: everything but who is online. */
  function Offline(u: User): User {
    u.(connections := 0)
  }

  function Reset(db: Database): Database {
    Database(MapSeq(db.users, Offline), db.teams)
  }

  predicate ThreadExact(t: Thread) {
    Exact(t.timestamp) && forall i :: 0 <= i < |t.replies| ==> Exact(t.replies[i].timestamp)
  }

  predicate ChannelExact(c: Channel) {
    forall i :: 0 <= i < |c.threads| ==> ThreadExact(c.threads[i])
  }

  predicate TeamExact(t: Team) {
    forall i :: 0 <= i < |t.channels| ==> ChannelExact(t.channels[i])
  }

  predicate ConversationExact(messages: seq<Message>) {
    forall i :: 0 <= i < |messages| ==> Exact(messages[i].timestamp)
  }

  predicate UserExact(u: User) {
    forall k :: k in u.messages ==> ConversationExact(u.messages[k])
  }

  /** Every stored timestamp is a double. */
  predicate TimesExact(db: Database) {
    && (forall i :: 0 <= i < |db.users| ==> UserExact(db.users[i]))
    && (forall i :: 0 <= i < |db.teams| ==> TeamExact(db.teams[i]))
  }

  lemma MapSeqFixed<T(!new)>(xs: seq<T>, f: T -> T)
    ensures MapSeq(xs, f) == xs <==> forall i :: 0 <= i < |xs| ==> f(xs[i]) == xs[i]
  {
    if MapSeq(xs, f) == xs {
      forall i | 0 <= i < |xs| ensures f(xs[i]) == xs[i] {
        assert MapSeq(xs, f)[i] == f(xs[i]);
      }
    }
  }

  lemma ReplyFixed(r: Reply)
    ensures RoundReply(r) == r <==> Exact(r.timestamp)
  {
    ToDoubleExact(r.timestamp);
  }

  lemma ThreadFixed(t: Thread)
    ensures RoundThread(t) == t <==> ThreadExact(t)
  {
    ToDoubleExact(t.timestamp);
    MapSeqFixed(t.replies, RoundReply);
    forall i | 0 <= i < |t.replies| ensures RoundReply(t.replies[i]) == t.replies[i] <==> Exact(t.replies[i].timestamp) {
      ReplyFixed(t.replies[i]);
    }
  }

  lemma ChannelFixed(c: Channel)
    ensures RoundChannel(c) == c <==> ChannelExact(c)
  {
    MapSeqFixed(c.threads, RoundThread);
    forall i | 0 <= i < |c.threads| ensures RoundThread(c.threads[i]) == c.threads[i] <==> ThreadExact(c.threads[i]) {
      ThreadFixed(c.threads[i]);
    }
  }

  lemma TeamFixed(t: Team)
    ensures RoundTeam(t) == t <==> TeamExact(t)
  {
    MapSeqFixed(t.channels, RoundChannel);
    forall i | 0 <= i < |t.channels| ensures RoundChannel(t.channels[i]) == t.channels[i] <==> ChannelExact(t.channels[i]) {
      ChannelFixed(t.channels[i]);
    }
  }

  lemma ConversationFixed(messages: seq<Message>)
    ensures MapSeq(messages, RoundMessage) == messages <==> ConversationExact(messages)
  {
    MapSeqFixed(messages, RoundMessage);
    forall i | 0 <= i < |messages| ensures RoundMessage(messages[i]) == messages[i] <==> Exact(messages[i].timestamp) {
      ToDoubleExact(messages[i].timestamp);
    }
  }

  lemma UserFixed(u: User)
    ensures RoundUser(u) == Offline(u) <==> UserExact(u)
  {
    forall k | k in u.messages ensures MapSeq(u.messages[k], RoundMessage) == u.messages[k] <==> ConversationExact(u.messages[k]) {
      ConversationFixed(u.messages[k]);
    }
    var r := RoundConversations(u.messages);
    assert r.Keys == u.messages.Keys;
    if r == u.messages {
      forall k | k in u.messages ensures ConversationExact(u.messages[k]) {
        assert r[k] == MapSeq(u.messages[k], RoundMessage);
      }
    }
  }

  lemma UsersFixed(users: seq<User>)
    ensures MapSeq(users, RoundUser) == MapSeq(users, Offline) <==> forall i :: 0 <= i < |users| ==> UserExact(users[i])
  {
    forall i | 0 <= i < |users| ensures RoundUser(users[i]) == Offline(users[i]) <==> UserExact(users[i]) {
      UserFixed(users[i]);
    }
    var a, b := MapSeq(users, RoundUser), MapSeq(users, Offline);
    if a == b {
      forall i | 0 <= i < |users| ensures UserExact(users[i]) {
        assert a[i] == b[i];
      }
    }
  }

  lemma TeamsFixed(teams: seq<Team>)
    ensures MapSeq(teams, RoundTeam) == teams <==> forall i :: 0 <= i < |teams| ==> TeamExact(teams[i])
  {
    MapSeqFixed(teams, RoundTeam);
    forall i | 0 <= i < |teams| ensures RoundTeam(teams[i]) == teams[i] <==> TeamExact(teams[i]) {
      TeamFixed(teams[i]);
    }
  }

  /**
    A saved database comes back with the same users, messages, teams, channels, threads, replies and
    subscribers in the same order, everyone offline, exactly when every timestamp is a double.
  */
  lemma RestartKeepsData(db: Database)
    ensures LoadedAfterSave(db) == Reset(db) <==> TimesExact(db)
  {
    SaveThenLoad(db);
    UsersFixed(db.users);
    TeamsFixed(db.teams);
  }

  /** What a restarted server has loaded. */
  function LoadedAfterSave(db: Database): Database {
    SaveThenLoad(db);
    LoadText(EMPTY, SaveText(db))
  }

  lemma UserTextOffline(u: User)
    ensures UserJson(Offline(u)) == UserJson(u)
  {
  }

  /** Who is online does not show in the file. */
  lemma SaveIgnoresSessions(db: Database)
    ensures SaveText(Reset(db)) == SaveText(db)
  {
    var users := MapSeq(db.users, Offline);
    forall i | 0 <= i < |users| ensures UserJson(users[i]) == UserJson(db.users[i]) {
      UserTextOffline(db.users[i]);
    }
    assert MapSeq(users, UserJson) == MapSeq(db.users, UserJson);
  }

  // ---------------------------------------------------------------------------
  // Later generations

  lemma ThreadRounded(t: Thread)
    ensures ThreadExact(RoundThread(t))
  {
    RoundedIsExact(t.timestamp);
    forall i | 0 <= i < |t.replies| ensures Exact(RoundThread(t).replies[i].timestamp) {
      RoundedIsExact(t.replies[i].timestamp);
    }
  }

  lemma TeamRounded(t: Team)
    ensures TeamExact(RoundTeam(t))
  {
    forall i | 0 <= i < |t.channels| ensures ChannelExact(RoundTeam(t).channels[i]) {
      var c := t.channels[i];
      assert RoundTeam(t).channels[i] == RoundChannel(c);
      forall j | 0 <= j < |c.threads| ensures ThreadExact(RoundChannel(c).threads[j]) {
        ThreadRounded(c.threads[j]);
      }
    }
  }

  lemma ConversationRounded(messages: seq<Message>)
    ensures ConversationExact(MapSeq(messages, RoundMessage))
  {
    forall i | 0 <= i < |messages| ensures Exact(MapSeq(messages, RoundMessage)[i].timestamp) {
      RoundedIsExact(messages[i].timestamp);
    }
  }

  lemma UserRounded(u: User)
    ensures UserExact(RoundUser(u))
  {
    forall k | k in RoundUser(u).messages ensures ConversationExact(RoundUser(u).messages[k]) {
      ConversationRounded(u.messages[k]);
    }
  }

  lemma UsersRounded(users: seq<User>)
    ensures var next := MapSeq(users, RoundUser);
            (forall i :: 0 <= i < |next| ==> UserExact(next[i])) && MapSeq(next, Offline) == next
  {
    var next := MapSeq(users, RoundUser);
    forall i | 0 <= i < |next| ensures UserExact(next[i]) {
      UserRounded(users[i]);
    }
  }

  lemma TeamsRounded(teams: seq<Team>)
    ensures var next := MapSeq(teams, RoundTeam); forall i :: 0 <= i < |next| ==> TeamExact(next[i])
  {
    var next := MapSeq(teams, RoundTeam);
    forall i | 0 <= i < |next| ensures TeamExact(next[i]) {
      TeamRounded(teams[i]);
    }
  }

  /** Whatever was saved, what is loaded has timestamps that are doubles, and nobody online. */
  lemma LoadedIsExact(db: Database)
    ensures TimesExact(LoadedAfterSave(db)) && Reset(LoadedAfterSave(db)) == LoadedAfterSave(db)
  {
    SaveThenLoad(db);
    UsersRounded(db.users);
    TeamsRounded(db.teams);
  }

  /** The database after a number of restarts without a command in between. */
  function Generation(db: Database, n: nat): Database {
    if n == 0 then db else LoadedAfterSave(Generation(db, n - 1))
  }

  /**
    For every database: one restart rounds the timestamps, and no later one changes anything. Every
    file from the second on is the same, byte for byte.
  */
  lemma {:induction false} LaterGenerations(db: Database, n: nat)
    requires n > 0
    ensures Generation(db, n) == LoadedAfterSave(db)
    ensures SaveText(Generation(db, n)) == SaveText(LoadedAfterSave(db))
  {
    if n > 1 {
      LaterGenerations(db, n - 1);
      LoadedIsExact(db);
      RestartKeepsData(LoadedAfterSave(db));
    }
  }
}
