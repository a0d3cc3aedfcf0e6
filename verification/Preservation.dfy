/** Every command keeps the database invariant and only grows the database. */
module Preservation {
  import opened Text
  import opened Model
  import opened Commands
  import opened Invariant

  predicate ArgsOk(args: seq<string>) {
    forall i :: 0 <= i < |args| ==> Normal(args[i])
  }

  // ---------------------------------------------------------------------------
  // Knowing more users

  ghost predicate KnowsMore(users: seq<User>, more: seq<User>) {
    forall u :: Known(users, u) ==> Known(more, u)
  }

  lemma TeamKnowsMore(users: seq<User>, more: seq<User>, t: Team)
    requires TeamOk(users, t) && KnowsMore(users, more)
    ensures TeamOk(more, t)
  {
    forall i | 0 <= i < |t.channels| ensures ChannelOk(more, t.channels[i]) {
      var c := t.channels[i];
      assert ChannelOk(users, c);
      forall j | 0 <= j < |c.threads| ensures ThreadOk(more, c.threads[j]) {
        assert ThreadOk(users, c.threads[j]);
        forall k | 0 <= k < |c.threads[j].replies| ensures ReplyOk(more, c.threads[j].replies[k]) {
          assert ReplyOk(users, c.threads[j].replies[k]);
        }
      }
    }
  }

  lemma TeamsKnowMore(users: seq<User>, more: seq<User>, teams: seq<Team>)
    requires TeamsOk(users, teams) && KnowsMore(users, more)
    ensures TeamsOk(more, teams)
  {
    forall i | 0 <= i < |teams| ensures TeamOk(more, teams[i]) {
      TeamKnowsMore(users, more, teams[i]);
    }
  }

  // ---------------------------------------------------------------------------
  // Connection counts

  /** The same users up to who is online. */
  predicate SameStored(a: seq<User>, b: seq<User>) {
    |a| == |b| && forall i :: 0 <= i < |a| ==> b[i] == a[i].(connections := b[i].connections)
  }

  lemma SameStoredKnown(a: seq<User>, b: seq<User>)
    requires SameStored(a, b)
    ensures KnowsMore(a, b)
  {
    forall u | Known(a, u) ensures Known(b, u) {
      var i :| 0 <= i < |a| && a[i].uuid == u;
      assert b[i].uuid == u;
    }
  }

  lemma SameStoredConversations(a: seq<User>, b: seq<User>)
    requires SameStored(a, b) && ConversationsOk(a)
    ensures ConversationsOk(b)
  {
    SameStoredKnown(a, b);
    forall i, k | 0 <= i < |b| && k in b[i].messages
      ensures Known(b, k) && ConversationOk(b[i].messages[k], b[i].uuid, k)
    {
      assert k in a[i].messages;
    }
    forall i, j | 0 <= i < |b| && 0 <= j < |b| && i != j
      ensures Conversation(b[i], b[j].uuid) == Conversation(b[j], b[i].uuid)
    {
      assert Conversation(a[i], a[j].uuid) == Conversation(a[j], a[i].uuid);
    }
    forall i | 0 <= i < |b| ensures Paired(Conversation(b[i], b[i].uuid)) {
      assert Paired(Conversation(a[i], a[i].uuid));
    }
  }

  lemma SameStoredOk(db: Database, users: seq<User>)
    requires DbOk(db) && SameStored(db.users, users)
    ensures DbOk(db.(users := users)) && Grows(db, db.(users := users))
  {
    SameStoredConversations(db.users, users);
    SameStoredKnown(db.users, users);
    forall i | 0 <= i < |users| ensures UserOk(users[i]) {
      assert UserOk(db.users[i]);
    }
    TeamsKnowMore(db.users, users, db.teams);
  }

  // ---------------------------------------------------------------------------
  // A new user

  lemma AddUserConversations(users: seq<User>, u: User)
    requires ConversationsOk(users) && u.messages == map[] && !Known(users, u.uuid)
    ensures ConversationsOk(users + [u])
  {
    var more := users + [u];
    forall i, k | 0 <= i < |more| && k in more[i].messages
      ensures Known(more, k) && ConversationOk(more[i].messages[k], more[i].uuid, k)
    {
      assert i < |users| && more[i] == users[i];
      assert Known(users, k);
      var j :| 0 <= j < |users| && users[j].uuid == k;
      assert more[j].uuid == k;
    }
    forall i, j | 0 <= i < |more| && 0 <= j < |more| && i != j
      ensures Conversation(more[i], more[j].uuid) == Conversation(more[j], more[i].uuid)
    {
      if i < |users| && j < |users| {
        assert Conversation(users[i], users[j].uuid) == Conversation(users[j], users[i].uuid);
      } else if i < |users| {
        assert u.uuid !in users[i].messages;
      } else {
        assert u.uuid !in users[j].messages;
      }
    }
    forall i | 0 <= i < |more| ensures Paired(Conversation(more[i], more[i].uuid)) {
      if i < |users| {
        assert Paired(Conversation(users[i], users[i].uuid));
      }
    }
  }

  lemma AddUserOk(db: Database, u: User)
    requires DbOk(db) && UserOk(u) && u.messages == map[]
    requires forall i :: 0 <= i < |db.users| ==> db.users[i].uuid != u.uuid && db.users[i].name != u.name
    ensures DbOk(db.(users := db.users + [u])) && Grows(db, db.(users := db.users + [u]))
  {
    var more := db.users + [u];
    AddUserConversations(db.users, u);
    assert KnowsMore(db.users, more) by {
      forall x | Known(db.users, x) ensures Known(more, x) {
        var i :| 0 <= i < |db.users| && db.users[i].uuid == x;
        assert more[i].uuid == x;
      }
    }
    TeamsKnowMore(db.users, more, db.teams);
  }

  // ---------------------------------------------------------------------------
  // A message

  lemma PairedGrows(ms: seq<Message>, m: Message)
    requires Paired(ms)
    ensures Paired(ms + [m] + [m])
  {
    var more := ms + [m] + [m];
    forall i | 0 <= i < |more| / 2 ensures more[2 * i] == more[2 * i + 1] {
      if i < |ms| / 2 {
        assert ms[2 * i] == ms[2 * i + 1];
      }
    }
  }

  /** What storing a message does to each conversation. */
  lemma StoredConversation(users: seq<User>, s: nat, r: nat, m: Message, i: nat, k: string)
    requires s < |users| && r < |users| && i < |users| && UsersOk(users)
    ensures var more := StoreMessage(users, s, r, m);
            && |more| == |users| && more[i] == users[i].(messages := more[i].messages)
            && Conversation(more[i], k) ==
                 Conversation(users[i], k)
                 + (if i == s && k == users[r].uuid then [m] else [])
                 + (if i == r && k == users[s].uuid then [m] else [])
            && (k in more[i].messages <==>
                  k in users[i].messages || (i == s && k == users[r].uuid) || (i == r && k == users[s].uuid))
  {
    var c := Conversation(users[i], k);
    assert c + [] + [] == c;
    assert c + [m] + [] == c + [m];
    assert c + [] + [m] == c + [m];
  }

  lemma StoreSymmetric(users: seq<User>, s: nat, r: nat, m: Message, i: nat, j: nat)
    requires s < |users| && r < |users| && i < |users| && j < |users| && i != j && UsersOk(users)
    requires Conversation(users[i], users[j].uuid) == Conversation(users[j], users[i].uuid)
    ensures var more := StoreMessage(users, s, r, m);
            Conversation(more[i], more[j].uuid) == Conversation(more[j], more[i].uuid)
  {
    StoredConversation(users, s, r, m, i, users[j].uuid);
    StoredConversation(users, s, r, m, j, users[i].uuid);
    assert users[j].uuid == users[r].uuid <==> j == r;
    assert users[j].uuid == users[s].uuid <==> j == s;
    assert users[i].uuid == users[r].uuid <==> i == r;
    assert users[i].uuid == users[s].uuid <==> i == s;
    var c := Conversation(users[i], users[j].uuid);
    assert c + [m] + [] == c + [] + [m];
  }

  lemma StorePaired(users: seq<User>, s: nat, r: nat, m: Message, i: nat)
    requires s < |users| && r < |users| && i < |users| && UsersOk(users)
    requires Paired(Conversation(users[i], users[i].uuid))
    ensures var more := StoreMessage(users, s, r, m); Paired(Conversation(more[i], more[i].uuid))
  {
    StoredConversation(users, s, r, m, i, users[i].uuid);
    assert users[i].uuid == users[r].uuid <==> i == r;
    assert users[i].uuid == users[s].uuid <==> i == s;
    var c := Conversation(users[i], users[i].uuid);
    PairedGrows(c, m);
    assert c + [] + [] == c;
  }

  lemma StoreEndpoints(users: seq<User>, s: nat, r: nat, m: Message, i: nat, k: string)
    requires s < |users| && r < |users| && i < |users| && UsersOk(users)
    requires MessageOk(m, users[s].uuid, users[r].uuid)
    requires k in users[i].messages ==> ConversationOk(users[i].messages[k], users[i].uuid, k)
    requires k in StoreMessage(users, s, r, m)[i].messages
    ensures ConversationOk(StoreMessage(users, s, r, m)[i].messages[k], users[i].uuid, k)
  {
    StoredConversation(users, s, r, m, i, k);
    var more := StoreMessage(users, s, r, m)[i].messages[k];
    forall j | 0 <= j < |more| ensures MessageOk(more[j], users[i].uuid, k) {
      if j >= |Conversation(users[i], k)| {
        assert more[j] == m;
      }
    }
  }

  lemma StoreKnown(users: seq<User>, s: nat, r: nat, m: Message)
    requires s < |users| && r < |users|
    ensures KnowsMore(users, StoreMessage(users, s, r, m))
  {
    var more := StoreMessage(users, s, r, m);
    forall u | Known(users, u) ensures Known(more, u) {
      var i :| 0 <= i < |users| && users[i].uuid == u;
      assert more[i].uuid == u;
    }
  }

  lemma StoreOneConversation(users: seq<User>, s: nat, r: nat, m: Message, i: nat, k: string)
    requires s < |users| && r < |users| && i < |users| && UsersOk(users) && ConversationsOk(users)
    requires MessageOk(m, users[s].uuid, users[r].uuid)
    requires k in StoreMessage(users, s, r, m)[i].messages
    ensures Known(users, k) && ConversationOk(StoreMessage(users, s, r, m)[i].messages[k], users[i].uuid, k)
  {
    StoredConversation(users, s, r, m, i, k);
    StoreEndpoints(users, s, r, m, i, k);
    if k !in users[i].messages {
      assert k == users[r].uuid || k == users[s].uuid;
    }
  }

  lemma StoreConversations(users: seq<User>, s: nat, r: nat, m: Message)
    requires s < |users| && r < |users| && UsersOk(users) && ConversationsOk(users)
    requires MessageOk(m, users[s].uuid, users[r].uuid)
    ensures ConversationsOk(StoreMessage(users, s, r, m))
  {
    StoreAllConversations(users, s, r, m);
    StoreMirrored(users, s, r, m);
  }

  lemma StoreAllConversations(users: seq<User>, s: nat, r: nat, m: Message)
    requires s < |users| && r < |users| && UsersOk(users) && ConversationsOk(users)
    requires MessageOk(m, users[s].uuid, users[r].uuid)
    ensures var more := StoreMessage(users, s, r, m);
            forall i, k :: 0 <= i < |more| && k in more[i].messages ==>
              Known(more, k) && ConversationOk(more[i].messages[k], more[i].uuid, k)
  {
    var more := StoreMessage(users, s, r, m);
    StoreKnown(users, s, r, m);
    forall i, k | 0 <= i < |more| && k in more[i].messages
      ensures Known(more, k) && ConversationOk(more[i].messages[k], more[i].uuid, k)
    {
      StoreOneConversation(users, s, r, m, i, k);
    }
  }

  lemma StoreMirrored(users: seq<User>, s: nat, r: nat, m: Message)
    requires s < |users| && r < |users| && UsersOk(users) && ConversationsOk(users)
    ensures var more := StoreMessage(users, s, r, m);
            && (forall i, j :: 0 <= i < |more| && 0 <= j < |more| && i != j ==>
                  Conversation(more[i], more[j].uuid) == Conversation(more[j], more[i].uuid))
            && (forall i :: 0 <= i < |more| ==> Paired(Conversation(more[i], more[i].uuid)))
  {
    var more := StoreMessage(users, s, r, m);
    forall i, j | 0 <= i < |more| && 0 <= j < |more| && i != j
      ensures Conversation(more[i], more[j].uuid) == Conversation(more[j], more[i].uuid)
    {
      StoreSymmetric(users, s, r, m, i, j);
    }
    forall i | 0 <= i < |more| ensures Paired(Conversation(more[i], more[i].uuid)) {
      StorePaired(users, s, r, m, i);
    }
  }

  lemma StoreGrows(users: seq<User>, s: nat, r: nat, m: Message, i: nat)
    requires s < |users| && r < |users| && i < |users| && UsersOk(users)
    ensures UserGrows(users[i], StoreMessage(users, s, r, m)[i])
  {
    var more := StoreMessage(users, s, r, m);
    forall k | k in users[i].messages ensures k in more[i].messages && users[i].messages[k] <= more[i].messages[k] {
      StoredConversation(users, s, r, m, i, k);
    }
    StoredConversation(users, s, r, m, i, "");
  }

  lemma StoreMessageOk(db: Database, s: nat, r: nat, m: Message)
    requires DbOk(db) && s < |db.users| && r < |db.users|
    requires MessageOk(m, db.users[s].uuid, db.users[r].uuid)
    ensures var db' := db.(users := StoreMessage(db.users, s, r, m)); DbOk(db') && Grows(db, db')
  {
    var more := StoreMessage(db.users, s, r, m);
    StoreConversations(db.users, s, r, m);
    StoreKnown(db.users, s, r, m);
    TeamsKnowMore(db.users, more, db.teams);
    forall i | 0 <= i < |db.users| ensures UserGrows(db.users[i], more[i]) && UserOk(more[i]) {
      StoreGrows(db.users, s, r, m, i);
      assert UserOk(db.users[i]);
    }
  }

  // ---------------------------------------------------------------------------
  // Teams

  /** Replacing a team by one that has the same name and identifier and no foreign channel identifiers. */
  lemma ReplaceTeamOk(db: Database, t: nat, team: Team)
    requires DbOk(db) && t < |db.teams| && TeamOk(db.users, team) && TeamGrows(db.teams[t], team)
    requires ChannelIdsUnique(db.teams[t := team])
    ensures DbOk(db.(teams := db.teams[t := team])) && Grows(db, db.(teams := db.teams[t := team]))
  {
  }

  lemma SameChannelsUnique(teams: seq<Team>, t: nat, team: Team)
    requires ChannelIdsUnique(teams) && t < |teams| && |team.channels| == |teams[t].channels|
    requires forall i :: 0 <= i < |team.channels| ==> team.channels[i].uuid == teams[t].channels[i].uuid
    ensures ChannelIdsUnique(teams[t := team])
  {
    var next := teams[t := team];
    forall i, j, k, l | (&& 0 <= i < |next| && 0 <= k < |next| && 0 <= j < |next[i].channels| && 0 <= l < |next[k].channels|
                         && next[i].channels[j].uuid == next[k].channels[l].uuid)
      ensures i == k && j == l
    {
      assert teams[i].channels[j].uuid == teams[k].channels[l].uuid;
    }
  }

  lemma SetSubscribersOk(db: Database, t: nat, subs: seq<string>)
    requires DbOk(db) && t < |db.teams| && SubscribersOk(db.users, subs)
    ensures DbOk(SetSubscribers(db, t, subs)) && Grows(db, SetSubscribers(db, t, subs))
  {
    var team := db.teams[t].(subscribers := subs);
    assert TeamOk(db.users, db.teams[t]);
    SameChannelsUnique(db.teams, t, team);
    ReplaceTeamOk(db, t, team);
  }

  lemma AddTeamOk(db: Database, team: Team)
    requires DbOk(db) && TeamOk(db.users, team) && team.channels == []
    requires forall i :: 0 <= i < |db.teams| ==> db.teams[i].uuid != team.uuid && db.teams[i].name != team.name
    ensures DbOk(db.(teams := db.teams + [team])) && Grows(db, db.(teams := db.teams + [team]))
  {
    var next := db.teams + [team];
    forall i, j, k, l | (&& 0 <= i < |next| && 0 <= k < |next| && 0 <= j < |next[i].channels| && 0 <= l < |next[k].channels|
                         && next[i].channels[j].uuid == next[k].channels[l].uuid)
      ensures i == k && j == l
    {
      assert db.teams[i].channels[j].uuid == db.teams[k].channels[l].uuid;
    }
  }

  lemma AddChannelUnique(teams: seq<Team>, t: nat, c: Channel)
    requires ChannelIdsUnique(teams) && t < |teams|
    requires forall i, j :: 0 <= i < |teams| && 0 <= j < |teams[i].channels| ==> teams[i].channels[j].uuid != c.uuid
    ensures ChannelIdsUnique(teams[t := teams[t].(channels := teams[t].channels + [c])])
  {
    var next := teams[t := teams[t].(channels := teams[t].channels + [c])];
    forall i, j, k, l | (&& 0 <= i < |next| && 0 <= k < |next| && 0 <= j < |next[i].channels| && 0 <= l < |next[k].channels|
                         && next[i].channels[j].uuid == next[k].channels[l].uuid)
      ensures i == k && j == l
    {
      if j < |teams[i].channels| && l < |teams[k].channels| {
        assert teams[i].channels[j].uuid == teams[k].channels[l].uuid;
      }
    }
  }

  lemma AddChannelOk(db: Database, t: nat, c: Channel)
    requires DbOk(db) && t < |db.teams| && ChannelOk(db.users, c) && Fresh(db, c.uuid)
    requires forall i :: 0 <= i < |db.teams[t].channels| ==> db.teams[t].channels[i].name != c.name
    ensures var db' := SetChannels(db, t, db.teams[t].channels + [c]); DbOk(db') && Grows(db, db')
  {
    assert TeamOk(db.users, db.teams[t]);
    AddChannelUnique(db.teams, t, c);
    ReplaceTeamOk(db, t, db.teams[t].(channels := db.teams[t].channels + [c]));
  }

  /** Replacing a channel by one with the same identifier and name. */
  lemma ReplaceChannelOk(db: Database, t: nat, c: nat, channel: Channel)
    requires DbOk(db) && t < |db.teams| && c < |db.teams[t].channels|
    requires ChannelOk(db.users, channel) && ChannelGrows(db.teams[t].channels[c], channel)
    ensures var db' := SetChannels(db, t, db.teams[t].channels[c := channel]); DbOk(db') && Grows(db, db')
  {
    assert TeamOk(db.users, db.teams[t]);
    var team := db.teams[t].(channels := db.teams[t].channels[c := channel]);
    SameChannelsUnique(db.teams, t, team);
    ReplaceTeamOk(db, t, team);
  }

  lemma AddThreadOk(db: Database, t: nat, c: nat, thread: Thread)
    requires DbOk(db) && t < |db.teams| && c < |db.teams[t].channels| && ThreadOk(db.users, thread)
    requires forall i :: 0 <= i < |db.teams[t].channels[c].threads| ==>
               db.teams[t].channels[c].threads[i].title != thread.title && db.teams[t].channels[c].threads[i].uuid != thread.uuid
    ensures var db' := SetThreads(db, t, c, db.teams[t].channels[c].threads + [thread]); DbOk(db') && Grows(db, db')
  {
    assert TeamOk(db.users, db.teams[t]);
    var channel := db.teams[t].channels[c];
    assert ChannelOk(db.users, channel);
    ReplaceChannelOk(db, t, c, channel.(threads := channel.threads + [thread]));
  }

  lemma AddReplyOk(db: Database, t: nat, c: nat, h: nat, r: Reply)
    requires DbOk(db) && t < |db.teams| && c < |db.teams[t].channels| && h < |db.teams[t].channels[c].threads|
    requires ReplyOk(db.users, r)
    ensures DbOk(AddReply(db, t, c, h, r)) && Grows(db, AddReply(db, t, c, h, r))
  {
    assert TeamOk(db.users, db.teams[t]);
    var channel := db.teams[t].channels[c];
    assert ChannelOk(db.users, channel);
    var thread := channel.threads[h];
    assert ThreadOk(db.users, thread);
    var longer := thread.(replies := thread.replies + [r]);
    assert ThreadOk(db.users, longer);
    ReplaceChannelOk(db, t, c, channel.(threads := channel.threads[h := longer]));
  }
}
