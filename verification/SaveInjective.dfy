/** The save file determines the stored data: databases that differ in it have different files. */
module SaveInjective {
  import opened Text
  import opened Json
  import opened JsonGrammar
  import opened Model
  import opened SortedKeys
  import opened Save
  import opened SaveRoundTrip
  import opened SaveExact

  lemma FieldsMatch(fields: seq<(string, Doc)>)
    requires DistinctKeys(fields)
    ensures Matches(DocValue(ObjDoc(fields)), fields)
  {
    FieldsValue(fields, map[]);
  }

  /** Objects with equal values have equal members. */
  lemma SameMember(a: seq<(string, Doc)>, b: seq<(string, Doc)>, i: nat, key: string)
    requires DistinctKeys(a) && DistinctKeys(b) && DocValue(ObjDoc(a)) == DocValue(ObjDoc(b))
    requires i < |a| && i < |b| && a[i].0 == b[i].0 == key
    ensures DocValue(a[i].1) == DocValue(b[i].1)
  {
    FieldsMatch(a);
    FieldsMatch(b);
    MatchAt(DocValue(ObjDoc(a)), a, i, key);
    MatchAt(DocValue(ObjDoc(b)), b, i, key);
  }

  lemma {:induction false} ListValue(docs: seq<Doc>)
    ensures ItemsValue(ListDoc(docs)) == MapSeq(docs, DocValue)
    decreases |docs|
  {
    if docs != [] {
      ListValue(docs[1..]);
      assert MapSeq(docs, DocValue) == [DocValue(docs[0])] + MapSeq(docs[1..], DocValue);
    }
  }

  /** The document of an entity determines it, but for a part that the file does not hold. */
  ghost predicate Determines<T(!new)>(doc: T -> Doc, core: T -> T) {
    forall x, y :: DocValue(doc(x)) == DocValue(doc(y)) ==> core(x) == core(y)
  }

  lemma ListDetermines<T(!new)>(doc: T -> Doc, core: T -> T, xs: seq<T>, ys: seq<T>)
    requires Determines(doc, core)
    requires DocValue(ArrDoc(MapSeq(xs, doc))) == DocValue(ArrDoc(MapSeq(ys, doc)))
    ensures MapSeq(xs, core) == MapSeq(ys, core)
  {
    var a, b := MapSeq(xs, doc), MapSeq(ys, doc);
    ListValue(a);
    ListValue(b);
    assert MapSeq(a, DocValue) == MapSeq(b, DocValue);
    forall i | 0 <= i < |xs| ensures i < |ys| && core(xs[i]) == core(ys[i]) {
      assert MapSeq(a, DocValue)[i] == MapSeq(b, DocValue)[i];
    }
    assert |MapSeq(a, DocValue)| == |MapSeq(b, DocValue)|;
  }

  lemma SameElements<T(!new)>(xs: seq<T>)
    ensures MapSeq(xs, Same) == xs
  {
  }

  /** Lists of wholly determined entities. */
  lemma ListSame<T(!new)>(doc: T -> Doc, xs: seq<T>, ys: seq<T>)
    requires Determines(doc, Same)
    requires DocValue(ArrDoc(MapSeq(xs, doc))) == DocValue(ArrDoc(MapSeq(ys, doc)))
    ensures xs == ys
  {
    ListDetermines(doc, Same, xs, ys);
    SameElements(xs);
    SameElements(ys);
  }

  lemma PrintedOnce(a: int, b: int)
    requires DocValue(DNum(a)) == DocValue(DNum(b))
    ensures a == b
  {
  }

  lemma StringsDetermined()
    ensures Determines(StringDoc, Same)
  {
  }

  lemma MessagesDetermined()
    ensures Determines(MessageDoc, Same)
  {
    forall x, y | DocValue(MessageDoc(x)) == DocValue(MessageDoc(y)) ensures x == y {
      var a, b := MessageFields(x), MessageFields(y);
      MessageKeys(x);
      MessageKeys(y);
      SameMember(a, b, 0, "sender");
      SameMember(a, b, 1, "receiver");
      SameMember(a, b, 2, "timestamp");
      SameMember(a, b, 3, "body");
      PrintedOnce(x.timestamp, y.timestamp);
    }
  }

  lemma RepliesDetermined()
    ensures Determines(ReplyDoc, Same)
  {
    forall x, y | DocValue(ReplyDoc(x)) == DocValue(ReplyDoc(y)) ensures x == y {
      var a, b := ReplyFields(x), ReplyFields(y);
      ReplyKeys(x);
      ReplyKeys(y);
      SameMember(a, b, 0, "uuid");
      SameMember(a, b, 1, "user_uuid");
      SameMember(a, b, 2, "timestamp");
      SameMember(a, b, 3, "body");
      PrintedOnce(x.timestamp, y.timestamp);
    }
  }

  lemma ThreadsDetermined()
    ensures Determines(ThreadDoc, Same)
  {
    RepliesDetermined();
    forall x, y | DocValue(ThreadDoc(x)) == DocValue(ThreadDoc(y)) ensures x == y {
      var a, b := ThreadFields(x), ThreadFields(y);
      ThreadKeys(x);
      ThreadKeys(y);
      SameMember(a, b, 0, "uuid");
      SameMember(a, b, 1, "user_uuid");
      SameMember(a, b, 2, "timestamp");
      SameMember(a, b, 3, "title");
      SameMember(a, b, 4, "body");
      SameMember(a, b, 5, "replies");
      PrintedOnce(x.timestamp, y.timestamp);
      ListSame(ReplyDoc, x.replies, y.replies);
    }
  }

  lemma ChannelsDetermined()
    ensures Determines(ChannelDoc, Same)
  {
    ThreadsDetermined();
    forall x, y | DocValue(ChannelDoc(x)) == DocValue(ChannelDoc(y)) ensures x == y {
      var a, b := ChannelFields(x), ChannelFields(y);
      ChannelKeys(x);
      ChannelKeys(y);
      SameMember(a, b, 0, "uuid");
      SameMember(a, b, 1, "name");
      SameMember(a, b, 2, "description");
      SameMember(a, b, 3, "threads");
      ListSame(ThreadDoc, x.threads, y.threads);
    }
  }

  lemma TeamsDetermined()
    ensures Determines(TeamDoc, Same)
  {
    StringsDetermined();
    ChannelsDetermined();
    forall x, y | DocValue(TeamDoc(x)) == DocValue(TeamDoc(y)) ensures x == y {
      var a, b := TeamFields(x), TeamFields(y);
      TeamKeys(x);
      TeamKeys(y);
      SameMember(a, b, 0, "uuid");
      SameMember(a, b, 1, "name");
      SameMember(a, b, 2, "description");
      SameMember(a, b, 3, "subscribers");
      SameMember(a, b, 4, "channels");
      ListSame(StringDoc, x.subscribers, y.subscribers);
      ListSame(ChannelDoc, x.channels, y.channels);
    }
  }

  /** The object of a message map: its keys, each with its conversation. */
  predicate HoldsConversations(obj: map<string, JsonVal>, messages: map<string, seq<Message>>) {
    && obj.Keys == messages.Keys
    && forall k :: k in messages ==> obj[k] == DocValue(ArrDoc(MapSeq(messages[k], MessageDoc)))
  }

  lemma SortedKeysDistinct(keys: set<string>)
    ensures forall i, j :: 0 <= i < j < |Sorted(keys)| ==> Sorted(keys)[i] != Sorted(keys)[j]
  {
    forall i, j | 0 <= i < j < |Sorted(keys)| ensures Sorted(keys)[i] != Sorted(keys)[j] {
      SortedDistinct(keys, i, j);
    }
  }

  lemma ConversationsObject(messages: map<string, seq<Message>>) returns (obj: map<string, JsonVal>)
    ensures DocValue(ConversationsDoc(messages)) == Obj(obj) && HoldsConversations(obj, messages)
  {
    var keys := Sorted(messages.Keys);
    var fields := ConversationFields(messages, keys);
    obj := MembersValue(FieldsDoc(fields), map[]);
    ObjDocValue(fields, obj);
    SortedKeysDistinct(messages.Keys);
    FieldsHoldConversations(messages, keys, fields, obj);
  }

  lemma FieldsHoldConversations(messages: map<string, seq<Message>>, keys: seq<string>, fields: seq<(string, Doc)>,
                                obj: map<string, JsonVal>)
    requires (forall k :: k in keys <==> k in messages) && fields == ConversationFields(messages, keys)
    requires forall i, j :: 0 <= i < j < |keys| ==> keys[i] != keys[j]
    requires obj == MembersValue(FieldsDoc(fields), map[])
    ensures HoldsConversations(obj, messages)
  {
    NamedValues(fields, keys, obj);
    ConversationNames(messages, keys);
    KeyedConversations(messages, keys, fields, obj);
  }

  lemma KeyedConversations(messages: map<string, seq<Message>>, keys: seq<string>, fields: seq<(string, Doc)>,
                           obj: map<string, JsonVal>)
    requires (forall k :: k in keys <==> k in messages) && fields == ConversationFields(messages, keys)
    requires obj.Keys == messages.Keys
    requires forall i :: 0 <= i < |keys| ==> keys[i] in obj && obj[keys[i]] == DocValue(fields[i].1)
    ensures HoldsConversations(obj, messages)
  {
    forall k | k in messages ensures obj[k] == DocValue(ArrDoc(MapSeq(messages[k], MessageDoc))) {
      var i :| 0 <= i < |keys| && keys[i] == k;
      assert fields[i].1 == ArrDoc(MapSeq(messages[keys[i]], MessageDoc));
    }
  }

  lemma ConversationsDetermined(a: map<string, seq<Message>>, b: map<string, seq<Message>>)
    requires DocValue(ConversationsDoc(a)) == DocValue(ConversationsDoc(b))
    ensures a == b
  {
    var x := ConversationsObject(a);
    var y := ConversationsObject(b);
    HeldConversations(x, a, b);
  }

  lemma HeldConversations(obj: map<string, JsonVal>, a: map<string, seq<Message>>, b: map<string, seq<Message>>)
    requires HoldsConversations(obj, a) && HoldsConversations(obj, b)
    ensures a == b
  {
    assert forall k :: k in a.Keys <==> k in b.Keys;
    forall k | k in a ensures k in b && a[k] == b[k] {
      SameMessages(obj[k], a[k], b[k]);
    }
  }

  lemma SameMessages(v: JsonVal, xs: seq<Message>, ys: seq<Message>)
    requires v == DocValue(ArrDoc(MapSeq(xs, MessageDoc))) && v == DocValue(ArrDoc(MapSeq(ys, MessageDoc)))
    ensures xs == ys
  {
    MessagesDetermined();
    ListSame(MessageDoc, xs, ys);
  }

  lemma UsersDetermined()
    ensures Determines(UserDoc, Offline)
  {
    StringsDetermined();
    forall x, y | DocValue(UserDoc(x)) == DocValue(UserDoc(y)) ensures Offline(x) == Offline(y) {
      var a, b := UserFields(x), UserFields(y);
      UserKeys(x);
      UserKeys(y);
      SameMember(a, b, 0, "uuid");
      SameMember(a, b, 1, "name");
      SameMember(a, b, 3, "teams");
      SameMember(a, b, 4, "messages");
      ListSame(StringDoc, x.teams, y.teams);
      ConversationsDetermined(x.messages, y.messages);
    }
  }

  /** Two databases have the same file if and only if they differ at most in who is connected. */
  lemma FileDetermines(a: Database, b: Database)
    ensures SaveText(a) == SaveText(b) <==> Reset(a) == Reset(b)
  {
    if SaveText(a) == SaveText(b) {
      SameFile(a, b);
    }
    SaveIgnoresSessions(a);
    SaveIgnoresSessions(b);
  }

  lemma SameFile(a: Database, b: Database)
    requires SaveText(a) == SaveText(b)
    ensures Reset(a) == Reset(b)
  {
    DatabaseTrip(a);
    DatabaseTrip(b);
    SameTextSameValue(DatabaseDoc(a), DatabaseDoc(b));
    DatabaseDetermined(a, b);
  }

  lemma DatabaseKeys(db: Database)
    ensures DistinctKeys(DatabaseFields(db))
  {
    assert DatabaseFields(db)[0].0 == "users" && DatabaseFields(db)[1].0 == "teams";
  }

  lemma DatabaseDetermined(a: Database, b: Database)
    requires DocValue(DatabaseDoc(a)) == DocValue(DatabaseDoc(b))
    ensures Reset(a) == Reset(b)
  {
    DatabaseKeys(a);
    DatabaseKeys(b);
    SameMember(DatabaseFields(a), DatabaseFields(b), 0, "users");
    SameMember(DatabaseFields(a), DatabaseFields(b), 1, "teams");
    UsersDetermined();
    ListDetermines(UserDoc, Offline, a.users, b.users);
    TeamsDetermined();
    ListSame(TeamDoc, a.teams, b.teams);
  }

  /** The file written after a restart is the one read if and only if every timestamp is a double. */
  lemma SaveAgain(db: Database)
    ensures SaveText(LoadedAfterSave(db)) == SaveText(db) <==> TimesExact(db)
  {
    LoadedIsExact(db);
    FileDetermines(LoadedAfterSave(db), db);
    RestartKeepsData(db);
  }
}
