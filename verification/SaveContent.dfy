/**
  What the save file holds and what loading takes from it, key by key. The statements are about the
  parsed value alone, so they tie the file to the stored data without naming the printers or the readers.
*/
module SaveContent {
  import opened Text
  import opened Numbers
  import opened Json
  import opened JsonGrammar
  import opened Model
  import opened Save
  import opened SaveRoundTrip
  import opened SaveInjective

  // ---------------------------------------------------------------------------
  // The values of stored entities

  /** An object with these keys and no others. */
  predicate IsObject(v: JsonVal, keys: set<string>) {
    v.Obj? && v.members.Keys == keys
  }

  predicate IsList<T(!new)>(v: JsonVal, xs: seq<T>, holds: (JsonVal, T) -> bool) {
    v.Arr? && |v.items| == |xs| && forall i :: 0 <= i < |xs| ==> holds(v.items[i], xs[i])
  }

  predicate HoldsText(v: JsonVal, s: string) {
    v == Str(s)
  }

  predicate HoldsMessage(v: JsonVal, m: Message) {
    && IsObject(v, {"sender", "receiver", "timestamp", "body"})
    && v.members["sender"] == Str(m.sender) && v.members["receiver"] == Str(m.receiver)
    && v.members["timestamp"] == Num(Printed(m.timestamp)) && v.members["body"] == Str(m.body)
  }

  predicate HoldsReply(v: JsonVal, r: Reply) {
    && IsObject(v, {"uuid", "user_uuid", "timestamp", "body"})
    && v.members["uuid"] == Str(r.uuid) && v.members["user_uuid"] == Str(r.author)
    && v.members["timestamp"] == Num(Printed(r.timestamp)) && v.members["body"] == Str(r.body)
  }

  predicate HoldsThread(v: JsonVal, t: Thread) {
    && IsObject(v, {"uuid", "user_uuid", "timestamp", "title", "body", "replies"})
    && v.members["uuid"] == Str(t.uuid) && v.members["user_uuid"] == Str(t.author)
    && v.members["timestamp"] == Num(Printed(t.timestamp))
    && v.members["title"] == Str(t.title) && v.members["body"] == Str(t.body)
    && IsList(v.members["replies"], t.replies, HoldsReply)
  }

  predicate HoldsChannel(v: JsonVal, c: Channel) {
    && IsObject(v, {"uuid", "name", "description", "threads"})
    && v.members["uuid"] == Str(c.uuid) && v.members["name"] == Str(c.name)
    && v.members["description"] == Str(c.description)
    && IsList(v.members["threads"], c.threads, HoldsThread)
  }

  predicate HoldsTeam(v: JsonVal, t: Team) {
    && IsObject(v, {"uuid", "name", "description", "subscribers", "channels"})
    && v.members["uuid"] == Str(t.uuid) && v.members["name"] == Str(t.name)
    && v.members["description"] == Str(t.description)
    && IsList(v.members["subscribers"], t.subscribers, HoldsText) && IsList(v.members["channels"], t.channels, HoldsChannel)
  }

  predicate HoldsConversationsOf(v: JsonVal, messages: map<string, seq<Message>>) {
    IsObject(v, messages.Keys) && forall k :: k in messages ==> IsList(v.members[k], messages[k], HoldsMessage)
  }

  /** Everybody is saved as offline. */
  predicate HoldsUser(v: JsonVal, u: User) {
    && IsObject(v, {"uuid", "name", "connected", "teams", "messages"})
    && v.members["uuid"] == Str(u.uuid) && v.members["name"] == Str(u.name) && v.members["connected"] == Bool(false)
    && IsList(v.members["teams"], u.teams, HoldsText) && HoldsConversationsOf(v.members["messages"], u.messages)
  }

  predicate HoldsDatabase(v: JsonVal, db: Database) {
    && IsObject(v, {"users", "teams"})
    && IsList(v.members["users"], db.users, HoldsUser) && IsList(v.members["teams"], db.teams, HoldsTeam)
  }

  // ---------------------------------------------------------------------------
  // What the file holds

  /** The members of an object document are its fields. */
  predicate Members(v: JsonVal, fields: seq<(string, Doc)>) {
    v.Obj? && forall i :: 0 <= i < |fields| ==> fields[i].0 in v.members && v.members[fields[i].0] == DocValue(fields[i].1)
  }

  lemma FieldsObject(fields: seq<(string, Doc)>, keys: set<string>)
    requires DistinctKeys(fields) && FieldNames(fields) == keys
    ensures Members(DocValue(ObjDoc(fields)), fields) && IsObject(DocValue(ObjDoc(fields)), keys)
  {
    FieldsValue(fields, map[]);
    ObjDocValue(fields, MembersValue(FieldsDoc(fields), map[]));
  }

  lemma MemberAt(v: JsonVal, fields: seq<(string, Doc)>, i: nat, key: string)
    requires Members(v, fields) && i < |fields| && fields[i].0 == key
    ensures key in v.members && v.members[key] == DocValue(fields[i].1)
  {
  }

  lemma DocsHold<T(!new)>(xs: seq<T>, doc: T -> Doc, holds: (JsonVal, T) -> bool)
    requires forall i :: 0 <= i < |xs| ==> holds(DocValue(doc(xs[i])), xs[i])
    ensures IsList(DocValue(ArrDoc(MapSeq(xs, doc))), xs, holds)
  {
    ListValue(MapSeq(xs, doc));
  }

  lemma {:induction false} NamesAppend(fields: seq<(string, Doc)>, last: (string, Doc))
    ensures FieldNames(fields + [last]) == FieldNames(fields) + {last.0}
  {
    var more := fields + [last];
    assert more[|fields|] == last;
    forall k | k in FieldNames(fields) ensures k in FieldNames(more) {
      var i :| 0 <= i < |fields| && fields[i].0 == k;
      assert more[i].0 == k;
    }
    forall k | k in FieldNames(more) ensures k in FieldNames(fields) + {last.0} {
      var i :| 0 <= i < |more| && more[i].0 == k;
      if i < |fields| { assert fields[i].0 == k; }
    }
  }

  lemma TwoNames(a: (string, Doc), b: (string, Doc))
    ensures FieldNames([a, b]) == {a.0, b.0}
  {
    NamesAppend([], a);
    NamesAppend([a], b);
    assert [] + [a] == [a] && [a] + [b] == [a, b];
  }

  lemma FourNames(a: (string, Doc), b: (string, Doc), c: (string, Doc), d: (string, Doc))
    ensures FieldNames([a, b, c, d]) == {a.0, b.0, c.0, d.0}
  {
    TwoNames(a, b);
    NamesAppend([a, b], c);
    NamesAppend([a, b, c], d);
    assert [a, b] + [c] == [a, b, c] && [a, b, c] + [d] == [a, b, c, d];
  }

  lemma FiveNames(a: (string, Doc), b: (string, Doc), c: (string, Doc), d: (string, Doc), e: (string, Doc))
    ensures FieldNames([a, b, c, d, e]) == {a.0, b.0, c.0, d.0, e.0}
  {
    FourNames(a, b, c, d);
    NamesAppend([a, b, c, d], e);
    assert [a, b, c, d] + [e] == [a, b, c, d, e];
  }

  lemma MessageHeld(m: Message)
    ensures HoldsMessage(DocValue(MessageDoc(m)), m)
  {
    var fields, v := MessageFields(m), DocValue(MessageDoc(m));
    MessageKeys(m);
    FourNames(fields[0], fields[1], fields[2], fields[3]);
    assert fields == [fields[0], fields[1], fields[2], fields[3]];
    FieldsObject(fields, {"sender", "receiver", "timestamp", "body"});
    MemberAt(v, fields, 0, "sender");
    MemberAt(v, fields, 1, "receiver");
    MemberAt(v, fields, 2, "timestamp");
    MemberAt(v, fields, 3, "body");
  }

  lemma ReplyHeld(r: Reply)
    ensures HoldsReply(DocValue(ReplyDoc(r)), r)
  {
    var fields, v := ReplyFields(r), DocValue(ReplyDoc(r));
    ReplyKeys(r);
    FourNames(fields[0], fields[1], fields[2], fields[3]);
    assert fields == [fields[0], fields[1], fields[2], fields[3]];
    FieldsObject(fields, {"uuid", "user_uuid", "timestamp", "body"});
    MemberAt(v, fields, 0, "uuid");
    MemberAt(v, fields, 1, "user_uuid");
    MemberAt(v, fields, 2, "timestamp");
    MemberAt(v, fields, 3, "body");
  }

  lemma SixNames(a: (string, Doc), b: (string, Doc), c: (string, Doc), d: (string, Doc), e: (string, Doc), f: (string, Doc))
    ensures FieldNames([a, b, c, d, e, f]) == {a.0, b.0, c.0, d.0, e.0, f.0}
  {
    FiveNames(a, b, c, d, e);
    NamesAppend([a, b, c, d, e], f);
    assert [a, b, c, d, e] + [f] == [a, b, c, d, e, f];
  }

  lemma ThreadHeld(t: Thread)
    ensures HoldsThread(DocValue(ThreadDoc(t)), t)
  {
    forall i | 0 <= i < |t.replies| ensures HoldsReply(DocValue(ReplyDoc(t.replies[i])), t.replies[i]) {
      ReplyHeld(t.replies[i]);
    }
    DocsHold(t.replies, ReplyDoc, HoldsReply);
    var fields, v := ThreadFields(t), DocValue(ThreadDoc(t));
    ThreadKeys(t);
    SixNames(fields[0], fields[1], fields[2], fields[3], fields[4], fields[5]);
    assert fields == [fields[0], fields[1], fields[2], fields[3], fields[4], fields[5]];
    FieldsObject(fields, {"uuid", "user_uuid", "timestamp", "title", "body", "replies"});
    MemberAt(v, fields, 0, "uuid");
    MemberAt(v, fields, 1, "user_uuid");
    MemberAt(v, fields, 2, "timestamp");
    MemberAt(v, fields, 3, "title");
    MemberAt(v, fields, 4, "body");
    MemberAt(v, fields, 5, "replies");
  }

  lemma ChannelHeld(c: Channel)
    ensures HoldsChannel(DocValue(ChannelDoc(c)), c)
  {
    forall i | 0 <= i < |c.threads| ensures HoldsThread(DocValue(ThreadDoc(c.threads[i])), c.threads[i]) {
      ThreadHeld(c.threads[i]);
    }
    DocsHold(c.threads, ThreadDoc, HoldsThread);
    var fields, v := ChannelFields(c), DocValue(ChannelDoc(c));
    ChannelKeys(c);
    FourNames(fields[0], fields[1], fields[2], fields[3]);
    assert fields == [fields[0], fields[1], fields[2], fields[3]];
    FieldsObject(fields, {"uuid", "name", "description", "threads"});
    MemberAt(v, fields, 0, "uuid");
    MemberAt(v, fields, 1, "name");
    MemberAt(v, fields, 2, "description");
    MemberAt(v, fields, 3, "threads");
  }

  lemma ChannelsHeld(channels: seq<Channel>)
    ensures IsList(DocValue(ArrDoc(MapSeq(channels, ChannelDoc))), channels, HoldsChannel)
  {
    forall i | 0 <= i < |channels| ensures HoldsChannel(DocValue(ChannelDoc(channels[i])), channels[i]) {
      ChannelHeld(channels[i]);
    }
    DocsHold(channels, ChannelDoc, HoldsChannel);
  }

  lemma TeamHeld(t: Team)
    ensures HoldsTeam(DocValue(TeamDoc(t)), t)
  {
    TeamMembers(t, TeamFields(t), DocValue(TeamDoc(t)));
    DocsHold(t.subscribers, StringDoc, HoldsText);
    ChannelsHeld(t.channels);
  }

  lemma TeamMembers(t: Team, fields: seq<(string, Doc)>, v: JsonVal)
    requires fields == TeamFields(t) && v == DocValue(ObjDoc(fields))
    ensures IsObject(v, {"uuid", "name", "description", "subscribers", "channels"})
    ensures v.members["uuid"] == Str(t.uuid) && v.members["name"] == Str(t.name)
    ensures v.members["description"] == Str(t.description)
    ensures v.members["subscribers"] == DocValue(ArrDoc(MapSeq(t.subscribers, StringDoc)))
    ensures v.members["channels"] == DocValue(ArrDoc(MapSeq(t.channels, ChannelDoc)))
  {
    TeamKeys(t);
    FiveNames(fields[0], fields[1], fields[2], fields[3], fields[4]);
    assert fields == [fields[0], fields[1], fields[2], fields[3], fields[4]];
    FieldsObject(fields, {"uuid", "name", "description", "subscribers", "channels"});
    MemberAt(v, fields, 0, "uuid");
    MemberAt(v, fields, 1, "name");
    MemberAt(v, fields, 2, "description");
    MemberAt(v, fields, 3, "subscribers");
    MemberAt(v, fields, 4, "channels");
  }

  lemma ConversationsHeld(messages: map<string, seq<Message>>)
    ensures HoldsConversationsOf(DocValue(ConversationsDoc(messages)), messages)
  {
    var obj := ConversationsObject(messages);
    forall k | k in messages ensures IsList(obj[k], messages[k], HoldsMessage) {
      ConversationHeld(messages[k]);
    }
  }

  lemma ConversationHeld(values: seq<Message>)
    ensures IsList(DocValue(ArrDoc(MapSeq(values, MessageDoc))), values, HoldsMessage)
  {
    forall i | 0 <= i < |values| ensures HoldsMessage(DocValue(MessageDoc(values[i])), values[i]) {
      MessageHeld(values[i]);
    }
    DocsHold(values, MessageDoc, HoldsMessage);
  }

  lemma UserHeld(u: User)
    ensures HoldsUser(DocValue(UserDoc(u)), u)
  {
    DocsHold(u.teams, StringDoc, HoldsText);
    ConversationsHeld(u.messages);
    var fields, v := UserFields(u), DocValue(UserDoc(u));
    UserKeys(u);
    FiveNames(fields[0], fields[1], fields[2], fields[3], fields[4]);
    assert fields == [fields[0], fields[1], fields[2], fields[3], fields[4]];
    FieldsObject(fields, {"uuid", "name", "connected", "teams", "messages"});
    MemberAt(v, fields, 0, "uuid");
    MemberAt(v, fields, 1, "name");
    MemberAt(v, fields, 2, "connected");
    MemberAt(v, fields, 3, "teams");
    MemberAt(v, fields, 4, "messages");
  }

  lemma DatabaseHeld(db: Database)
    ensures HoldsDatabase(DocValue(DatabaseDoc(db)), db)
  {
    forall i | 0 <= i < |db.users| ensures HoldsUser(DocValue(UserDoc(db.users[i])), db.users[i]) {
      UserHeld(db.users[i]);
    }
    DocsHold(db.users, UserDoc, HoldsUser);
    forall i | 0 <= i < |db.teams| ensures HoldsTeam(DocValue(TeamDoc(db.teams[i])), db.teams[i]) {
      TeamHeld(db.teams[i]);
    }
    DocsHold(db.teams, TeamDoc, HoldsTeam);
    var fields, v := DatabaseFields(db), DocValue(DatabaseDoc(db));
    DatabaseKeys(db);
    TwoNames(fields[0], fields[1]);
    assert fields == [fields[0], fields[1]];
    FieldsObject(fields, {"users", "teams"});
    MemberAt(v, fields, 0, "users");
    MemberAt(v, fields, 1, "teams");
  }

  /** The file of every database holds exactly its data, every field under its key. */
  lemma FileHolds(db: Database)
    ensures PValue(SaveText(db), 0).Done? && HoldsDatabase(PValue(SaveText(db), 0).value, db)
  {
    DatabaseTrip(db);
    ParseWhole(SaveText(db), DatabaseDoc(db));
    DatabaseHeld(db);
  }

  // ---------------------------------------------------------------------------
  // What loading takes

  predicate Has(v: JsonVal, key: string) {
    v.Obj? && key in v.members
  }

  /** The text under a key; empty if there is none. */
  function TextUnder(v: JsonVal, key: string): string {
    if Has(v, key) && v.members[key].Str? then v.members[key].s else ""
  }

  /** The number under a key, through a double; zero if there is none. */
  function TimeUnder(v: JsonVal, key: string): int {
    if Has(v, key) && v.members[key].Num? then Truncate(DoubleOf(v.members[key].n)) else 0
  }

  /** The elements under a key; none if there is no array. */
  function ListUnder(v: JsonVal, key: string): seq<JsonVal> {
    if Has(v, key) && v.members[key].Arr? then v.members[key].items else []
  }

  predicate EachTaken<T(!new)>(items: seq<JsonVal>, xs: seq<T>, taken: (JsonVal, T) -> bool) {
    |xs| == |items| && forall i :: 0 <= i < |xs| ==> taken(items[i], xs[i])
  }

  predicate TextTaken(v: JsonVal, s: string) {
    s == if v.Str? then v.s else ""
  }

  predicate MessageTaken(v: JsonVal, m: Message) {
    && m.sender == TextUnder(v, "sender") && m.receiver == TextUnder(v, "receiver")
    && m.timestamp == TimeUnder(v, "timestamp") && m.body == TextUnder(v, "body")
  }

  predicate ReplyTaken(v: JsonVal, r: Reply) {
    && r.uuid == TextUnder(v, "uuid") && r.author == TextUnder(v, "user_uuid")
    && r.timestamp == TimeUnder(v, "timestamp") && r.body == TextUnder(v, "body")
  }

  predicate ThreadTaken(v: JsonVal, t: Thread) {
    && t.uuid == TextUnder(v, "uuid") && t.author == TextUnder(v, "user_uuid") && t.timestamp == TimeUnder(v, "timestamp")
    && t.title == TextUnder(v, "title") && t.body == TextUnder(v, "body")
    && EachTaken(ListUnder(v, "replies"), t.replies, ReplyTaken)
  }

  predicate ChannelTaken(v: JsonVal, c: Channel) {
    && c.uuid == TextUnder(v, "uuid") && c.name == TextUnder(v, "name") && c.description == TextUnder(v, "description")
    && EachTaken(ListUnder(v, "threads"), c.threads, ThreadTaken)
  }

  predicate TeamTaken(v: JsonVal, t: Team) {
    && t.uuid == TextUnder(v, "uuid") && t.name == TextUnder(v, "name") && t.description == TextUnder(v, "description")
    && EachTaken(ListUnder(v, "subscribers"), t.subscribers, TextTaken)
    && EachTaken(ListUnder(v, "channels"), t.channels, ChannelTaken)
  }

  /** One conversation for each key of the message object. */
  predicate ConversationsTaken(v: JsonVal, messages: map<string, seq<Message>>) {
    && messages.Keys == (if v.Obj? then v.members.Keys else {})
    && forall k :: k in messages ==> EachTaken(ListUnder(v, k), messages[k], MessageTaken)
  }

  /** Nobody is connected; `connected` in the file is not looked at. */
  predicate UserTaken(v: JsonVal, u: User) {
    && u.uuid == TextUnder(v, "uuid") && u.name == TextUnder(v, "name") && u.connections == 0
    && EachTaken(ListUnder(v, "teams"), u.teams, TextTaken)
    && ConversationsTaken(if Has(v, "messages") then v.members["messages"] else Null, u.messages)
  }

  lemma ReadTakes<T(!new)>(items: seq<JsonVal>, read: JsonVal -> T, taken: (JsonVal, T) -> bool)
    requires forall i :: 0 <= i < |items| ==> taken(items[i], read(items[i]))
    ensures EachTaken(items, MapSeq(items, read), taken)
  {
  }

  lemma GetIs(v: JsonVal, key: string)
    ensures v.Get(key).AsStr() == TextUnder(v, key) && v.Get(key).AsNum() == TimeUnder(v, key)
    ensures v.Get(key).AsArray() == ListUnder(v, key)
  {
  }

  lemma MessageIsTaken(v: JsonVal)
    ensures MessageTaken(v, MessageFromJson(v))
  {
    GetIs(v, "sender");
    GetIs(v, "receiver");
    GetIs(v, "timestamp");
    GetIs(v, "body");
  }

  lemma ReplyIsTaken(v: JsonVal)
    ensures ReplyTaken(v, ReplyFromJson(v))
  {
    GetIs(v, "uuid");
    GetIs(v, "user_uuid");
    GetIs(v, "timestamp");
    GetIs(v, "body");
  }

  lemma ThreadIsTaken(v: JsonVal)
    ensures ThreadTaken(v, ThreadFromJson(v))
  {
    GetIs(v, "uuid");
    GetIs(v, "user_uuid");
    GetIs(v, "timestamp");
    GetIs(v, "title");
    GetIs(v, "body");
    GetIs(v, "replies");
    forall x { ReplyIsTaken(x); }
    ReadTakes(ListUnder(v, "replies"), ReplyFromJson, ReplyTaken);
  }

  lemma ChannelIsTaken(v: JsonVal)
    ensures ChannelTaken(v, ChannelFromJson(v))
  {
    GetIs(v, "uuid");
    GetIs(v, "name");
    GetIs(v, "description");
    GetIs(v, "threads");
    forall x { ThreadIsTaken(x); }
    ReadTakes(ListUnder(v, "threads"), ThreadFromJson, ThreadTaken);
  }

  lemma TeamIsTaken(v: JsonVal)
    ensures TeamTaken(v, TeamFromJson(v))
  {
    GetIs(v, "uuid");
    GetIs(v, "name");
    GetIs(v, "description");
    GetIs(v, "subscribers");
    GetIs(v, "channels");
    ReadTakes(ListUnder(v, "subscribers"), StringFromJson, TextTaken);
    forall x { ChannelIsTaken(x); }
    ReadTakes(ListUnder(v, "channels"), ChannelFromJson, ChannelTaken);
  }

  lemma ConversationsAreTaken(v: JsonVal)
    ensures ConversationsTaken(v, ConversationsFromJson(v))
  {
    forall x { MessageIsTaken(x); }
    var messages := ConversationsFromJson(v);
    forall k | k in messages ensures EachTaken(ListUnder(v, k), messages[k], MessageTaken) {
      ReadTakes(ListUnder(v, k), MessageFromJson, MessageTaken);
    }
  }

  lemma UserIsTaken(v: JsonVal)
    ensures UserTaken(v, UserFromJson(v))
  {
    GetIs(v, "uuid");
    GetIs(v, "name");
    GetIs(v, "teams");
    ReadTakes(ListUnder(v, "teams"), StringFromJson, TextTaken);
    ConversationsAreTaken(v.Get("messages"));
  }

  /**
    Loading keeps what was there and appends one user and one team for each element of the two lists,
    with every field taken from its own key, whatever the file holds otherwise.
  */
  lemma LoadTakes(db: Database, content: string)
    requires PValue(content, 0) != Diverges
    ensures var root, r := PValue(content, 0).value, LoadText(db, content);
            && db.users <= r.users && EachTaken(ListUnder(root, "users"), r.users[|db.users|..], UserTaken)
            && db.teams <= r.teams && EachTaken(ListUnder(root, "teams"), r.teams[|db.teams|..], TeamTaken)
  {
    var root, r := PValue(content, 0).value, LoadText(db, content);
    GetIs(root, "users");
    GetIs(root, "teams");
    forall v { UserIsTaken(v); }
    forall v { TeamIsTaken(v); }
    var users, teams := ListUnder(root, "users"), ListUnder(root, "teams");
    ReadTakes(users, UserFromJson, UserTaken);
    ReadTakes(teams, TeamFromJson, TeamTaken);
    assert r.users[|db.users|..] == MapSeq(users, UserFromJson);
    assert r.teams[|db.teams|..] == MapSeq(teams, TeamFromJson);
  }
}
