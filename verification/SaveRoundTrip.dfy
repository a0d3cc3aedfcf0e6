/** What a database is after it has been saved and loaded. */
module SaveRoundTrip {
  import opened Text
  import opened Tokens
  import opened Numbers
  import opened Json
  import opened JsonGrammar
  import opened Model
  import opened SortedKeys
  import opened Save

  // ---------------------------------------------------------------------------
  // The documents behind the printed text

  function ListDoc(docs: seq<Doc>): Items {
    if docs == [] then INil else ICons(docs[0], "", "", ListDoc(docs[1..]))
  }

  function ArrDoc(docs: seq<Doc>): Doc {
    DArr("", ListDoc(docs))
  }

  function FieldsDoc(fields: seq<(string, Doc)>): Members {
    if fields == [] then MNil else MCons(fields[0].0, "", "", fields[0].1, "", "", FieldsDoc(fields[1..]))
  }

  function ObjDoc(fields: seq<(string, Doc)>): Doc {
    DObj("", FieldsDoc(fields))
  }

  predicate AllWf(docs: seq<Doc>) {
    forall i :: 0 <= i < |docs| ==> DocWf(docs[i])
  }

  lemma {:induction false} ListDocText(docs: seq<Doc>)
    requires AllWf(docs)
    ensures ItemsWf(ListDoc(docs)) && ItemsText(ListDoc(docs)) == Commas(MapSeq(docs, DocText))
    ensures |ItemsValue(ListDoc(docs))| == |docs|
    ensures forall i :: 0 <= i < |docs| ==> ItemsValue(ListDoc(docs))[i] == DocValue(docs[i])
    decreases |docs|
  {
    if docs != [] {
      ListDocText(docs[1..]);
      var parts := MapSeq(docs, DocText);
      assert parts[1..] == MapSeq(docs[1..], DocText);
      var text, rest := DocText(docs[0]), ListDoc(docs[1..]);
      if |docs| == 1 {
        assert text + ("" + "") == text;
      } else {
        assert text + ("" + ("," + ("" + ItemsText(rest)))) == text + "," + ItemsText(rest);
      }
    }
  }

  /** An array of printed elements is the text of an array document. */
  lemma ArrDocText(docs: seq<Doc>, parts: seq<string>)
    requires AllWf(docs) && |docs| == |parts| && forall i :: 0 <= i < |docs| ==> parts[i] == DocText(docs[i])
    ensures DocWf(ArrDoc(docs)) && DocText(ArrDoc(docs)) == ArrayText(parts)
    ensures DocValue(ArrDoc(docs)).Arr? && |DocValue(ArrDoc(docs)).items| == |docs|
    ensures forall i :: 0 <= i < |docs| ==> DocValue(ArrDoc(docs)).items[i] == DocValue(docs[i])
  {
    ListDocText(docs);
    assert parts == MapSeq(docs, DocText);
    assert "[" + "" + Commas(parts) + "]" == "[" + Commas(parts) + "]";
  }

  predicate FieldsWf(fields: seq<(string, Doc)>) {
    forall i :: 0 <= i < |fields| ==> DocWf(fields[i].1)
  }

  function FieldText(field: (string, Doc)): string {
    MemberPart((field.0, DocText(field.1)))
  }

  lemma {:induction false} FieldsDocText(fields: seq<(string, Doc)>)
    requires FieldsWf(fields)
    ensures MembersWf(FieldsDoc(fields))
    ensures MembersText(FieldsDoc(fields)) == Commas(MapSeq(fields, FieldText))
    decreases |fields|
  {
    if fields != [] {
      FieldsDocText(fields[1..]);
      var parts, rest := MapSeq(fields, FieldText), FieldsDoc(fields[1..]);
      assert parts[1..] == MapSeq(fields[1..], FieldText);
      FieldShape(Quote(fields[0].0), DocText(fields[0].1), MoreMembers("", rest));
      CommasFirst(parts, MembersText(rest));
    }
  }

  lemma CommasFirst(parts: seq<string>, rest: string)
    requires parts != [] && rest == Commas(parts[1..])
    ensures Commas(parts) == parts[0] + (if |parts| == 1 then "" else "," + ("" + rest))
  {
    if |parts| > 1 {
      assert "" + rest == rest;
      ConcatAssoc(parts[0], ",", rest);
    } else {
      assert parts[0] + "" == parts[0];
    }
  }

  lemma FieldShape(key: string, value: string, more: string)
    ensures key + ("" + (":" + ("" + (value + ("" + more))))) == key + ":" + value + more
  {
    ConcatAssoc(key + ":", value, more);
    ConcatAssoc(key, ":", value + more);
  }

  /** An object of printed members is the text of an object document. */
  lemma ObjDocText(fields: seq<(string, Doc)>, parts: seq<(string, string)>)
    requires FieldsWf(fields) && |fields| == |parts|
    requires forall i :: 0 <= i < |fields| ==> parts[i] == (fields[i].0, DocText(fields[i].1))
    ensures DocWf(ObjDoc(fields)) && DocText(ObjDoc(fields)) == ObjectText(parts)
  {
    FieldsDocText(fields);
    assert MapSeq(parts, MemberPart) == MapSeq(fields, FieldText);
    var body := Commas(MapSeq(parts, MemberPart));
    assert "{" + "" + body + "}" == "{" + body + "}";
  }

  predicate DistinctKeys(fields: seq<(string, Doc)>) {
    forall i, j :: 0 <= i < j < |fields| ==> fields[i].0 != fields[j].0
  }

  function FieldNames(fields: seq<(string, Doc)>): set<string> {
    set i | 0 <= i < |fields| :: fields[i].0
  }

  lemma {:induction false} FieldsValue(fields: seq<(string, Doc)>, acc: map<string, JsonVal>)
    requires DistinctKeys(fields) && FieldNames(fields) !! acc.Keys
    ensures var m := MembersValue(FieldsDoc(fields), acc);
            && m.Keys == acc.Keys + FieldNames(fields)
            && (forall i :: 0 <= i < |fields| ==> m[fields[i].0] == DocValue(fields[i].1))
            && (forall k :: k in acc ==> m[k] == acc[k])
    decreases |fields|
  {
    if fields != [] {
      var acc' := acc[fields[0].0 := DocValue(fields[0].1)];
      var rest := fields[1..];
      assert forall i :: 0 <= i < |rest| ==> rest[i] == fields[i + 1];
      assert FieldNames(fields) == {fields[0].0} + FieldNames(rest) by {
        forall k | k in FieldNames(fields) ensures k in {fields[0].0} + FieldNames(rest) {
          var i :| 0 <= i < |fields| && fields[i].0 == k;
          if i > 0 { assert rest[i - 1].0 == k; }
        }
      }
      FieldsValue(rest, acc');
      var m := MembersValue(FieldsDoc(rest), acc');
      forall i | 0 <= i < |fields| ensures m[fields[i].0] == DocValue(fields[i].1) {
        if i > 0 { assert fields[i] == rest[i - 1]; } else { assert fields[0].0 in acc'; }
      }
    }
  }

  /** Reading a value field by field finds the documents' values. */
  predicate Matches(v: JsonVal, fields: seq<(string, Doc)>) {
    forall i :: 0 <= i < |fields| ==> v.Get(fields[i].0) == DocValue(fields[i].1)
  }

  lemma MatchAt(v: JsonVal, fields: seq<(string, Doc)>, i: nat, key: string)
    requires Matches(v, fields) && i < |fields| && fields[i].0 == key
    ensures v.Get(key) == DocValue(fields[i].1)
  {
  }

  /** A printed timestamp is read as its nearest double. */
  lemma TimeAt(v: JsonVal, fields: seq<(string, Doc)>, i: nat, t: int)
    requires Matches(v, fields) && i < |fields| && fields[i] == ("timestamp", DNum(t))
    ensures v.Get("timestamp").AsNum() == ToDouble(t)
  {
    MatchAt(v, fields, i, "timestamp");
    PrintedDouble(t);
  }

  lemma ObjDocOk(fields: seq<(string, Doc)>, parts: seq<(string, string)>)
    requires FieldsWf(fields) && DistinctKeys(fields) && |fields| == |parts|
    requires forall i :: 0 <= i < |fields| ==> parts[i] == (fields[i].0, DocText(fields[i].1))
    ensures DocWf(ObjDoc(fields)) && DocText(ObjDoc(fields)) == ObjectText(parts)
    ensures Matches(DocValue(ObjDoc(fields)), fields)
  {
    ObjDocText(fields, parts);
    FieldsValue(fields, map[]);
  }

  // ---------------------------------------------------------------------------
  // The entities

  function StringDoc(s: string): Doc {
    DStr(s)
  }

  /** A printer, a reader and what the trip through both does to a value. */
  ghost predicate Codec<T(!new)>(show: T -> string, doc: T -> Doc, read: JsonVal -> T, after: T -> T) {
    forall x :: DocWf(doc(x)) && show(x) == DocText(doc(x)) && read(DocValue(doc(x))) == after(x)
  }

  /** Lists of anything that makes the trip make it too. */
  lemma ListCodec<T(!new)>(xs: seq<T>, show: T -> string, doc: T -> Doc, read: JsonVal -> T, after: T -> T)
    requires Codec(show, doc, read, after)
    ensures DocWf(ArrDoc(MapSeq(xs, doc))) && DocText(ArrDoc(MapSeq(xs, doc))) == ArrayText(MapSeq(xs, show))
    ensures MapSeq(DocValue(ArrDoc(MapSeq(xs, doc))).AsArray(), read) == MapSeq(xs, after)
  {
    ArrDocText(MapSeq(xs, doc), MapSeq(xs, show));
  }

  function Same<T>(x: T): T { x }

  lemma StringCodec()
    ensures Codec(Quote, StringDoc, StringFromJson, Same)
  {
  }

  lemma SameSeq(xs: seq<string>)
    ensures MapSeq(xs, Same) == xs
  {
  }

  function MessageFields(m: Message): seq<(string, Doc)> {
    [("sender", DStr(m.sender)), ("receiver", DStr(m.receiver)), ("timestamp", DNum(m.timestamp)), ("body", DStr(m.body))]
  }

  function MessageDoc(m: Message): Doc {
    ObjDoc(MessageFields(m))
  }

  function RoundMessage(m: Message): Message {
    m.(timestamp := ToDouble(m.timestamp))
  }

  lemma MessageRead(m: Message, val: JsonVal)
    requires Matches(val, MessageFields(m))
    ensures MessageFromJson(val) == RoundMessage(m)
  {
    MatchAt(val, MessageFields(m), 0, "sender");
    MatchAt(val, MessageFields(m), 1, "receiver");
    TimeAt(val, MessageFields(m), 2, m.timestamp);
    MatchAt(val, MessageFields(m), 3, "body");
  }

  lemma MessageKeys(m: Message)
    ensures DistinctKeys(MessageFields(m))
  {
  }

  lemma MessageTrip(m: Message)
    ensures DocWf(MessageDoc(m)) && MessageJson(m) == DocText(MessageDoc(m))
    ensures MessageFromJson(DocValue(MessageDoc(m))) == RoundMessage(m)
  {
    MessageKeys(m);
    ObjDocOk(MessageFields(m), [("sender", Quote(m.sender)), ("receiver", Quote(m.receiver)),
                                ("timestamp", IntText(m.timestamp)), ("body", Quote(m.body))]);
    MessageRead(m, DocValue(MessageDoc(m)));
  }

  lemma MessageCodec()
    ensures Codec(MessageJson, MessageDoc, MessageFromJson, RoundMessage)
  {
    forall m {
      MessageTrip(m);
    }
  }

  function ReplyFields(r: Reply): seq<(string, Doc)> {
    [("uuid", DStr(r.uuid)), ("user_uuid", DStr(r.author)), ("timestamp", DNum(r.timestamp)), ("body", DStr(r.body))]
  }

  function ReplyDoc(r: Reply): Doc {
    ObjDoc(ReplyFields(r))
  }

  function RoundReply(r: Reply): Reply {
    r.(timestamp := ToDouble(r.timestamp))
  }

  lemma ReplyRead(r: Reply, val: JsonVal)
    requires Matches(val, ReplyFields(r))
    ensures ReplyFromJson(val) == RoundReply(r)
  {
    MatchAt(val, ReplyFields(r), 0, "uuid");
    MatchAt(val, ReplyFields(r), 1, "user_uuid");
    TimeAt(val, ReplyFields(r), 2, r.timestamp);
    MatchAt(val, ReplyFields(r), 3, "body");
  }

  lemma ReplyKeys(r: Reply)
    ensures DistinctKeys(ReplyFields(r))
  {
  }

  lemma ReplyTrip(r: Reply)
    ensures DocWf(ReplyDoc(r)) && ReplyJson(r) == DocText(ReplyDoc(r))
    ensures ReplyFromJson(DocValue(ReplyDoc(r))) == RoundReply(r)
  {
    ReplyKeys(r);
    ObjDocOk(ReplyFields(r), [("uuid", Quote(r.uuid)), ("user_uuid", Quote(r.author)),
                              ("timestamp", IntText(r.timestamp)), ("body", Quote(r.body))]);
    ReplyRead(r, DocValue(ReplyDoc(r)));
  }

  lemma ReplyCodec()
    ensures Codec(ReplyJson, ReplyDoc, ReplyFromJson, RoundReply)
  {
    forall r {
      ReplyTrip(r);
    }
  }

  function ThreadFields(t: Thread): seq<(string, Doc)> {
    [("uuid", DStr(t.uuid)), ("user_uuid", DStr(t.author)), ("timestamp", DNum(t.timestamp)),
     ("title", DStr(t.title)), ("body", DStr(t.body)), ("replies", ArrDoc(MapSeq(t.replies, ReplyDoc)))]
  }

  function ThreadDoc(t: Thread): Doc {
    ObjDoc(ThreadFields(t))
  }

  function RoundThread(t: Thread): Thread {
    t.(timestamp := ToDouble(t.timestamp), replies := MapSeq(t.replies, RoundReply))
  }

  lemma ThreadRead(t: Thread, val: JsonVal)
    requires Matches(val, ThreadFields(t))
    requires MapSeq(DocValue(ArrDoc(MapSeq(t.replies, ReplyDoc))).AsArray(), ReplyFromJson) == MapSeq(t.replies, RoundReply)
    ensures ThreadFromJson(val) == RoundThread(t)
  {
    MatchAt(val, ThreadFields(t), 0, "uuid");
    MatchAt(val, ThreadFields(t), 1, "user_uuid");
    TimeAt(val, ThreadFields(t), 2, t.timestamp);
    MatchAt(val, ThreadFields(t), 3, "title");
    MatchAt(val, ThreadFields(t), 4, "body");
    MatchAt(val, ThreadFields(t), 5, "replies");
  }

  lemma ThreadKeys(t: Thread)
    ensures DistinctKeys(ThreadFields(t))
  {
  }

  lemma ThreadTrip(t: Thread)
    ensures DocWf(ThreadDoc(t)) && ThreadJson(t) == DocText(ThreadDoc(t))
    ensures ThreadFromJson(DocValue(ThreadDoc(t))) == RoundThread(t)
  {
    ReplyCodec();
    ListCodec(t.replies, ReplyJson, ReplyDoc, ReplyFromJson, RoundReply);
    ThreadKeys(t);
    ObjDocOk(ThreadFields(t), [("uuid", Quote(t.uuid)), ("user_uuid", Quote(t.author)),
                               ("timestamp", IntText(t.timestamp)), ("title", Quote(t.title)), ("body", Quote(t.body)),
                               ("replies", ArrayText(MapSeq(t.replies, ReplyJson)))]);
    ThreadRead(t, DocValue(ThreadDoc(t)));
  }

  lemma ThreadCodec()
    ensures Codec(ThreadJson, ThreadDoc, ThreadFromJson, RoundThread)
  {
    forall t {
      ThreadTrip(t);
    }
  }

  function ChannelFields(c: Channel): seq<(string, Doc)> {
    [("uuid", DStr(c.uuid)), ("name", DStr(c.name)), ("description", DStr(c.description)),
     ("threads", ArrDoc(MapSeq(c.threads, ThreadDoc)))]
  }

  function ChannelDoc(c: Channel): Doc {
    ObjDoc(ChannelFields(c))
  }

  function RoundChannel(c: Channel): Channel {
    c.(threads := MapSeq(c.threads, RoundThread))
  }

  lemma ChannelRead(c: Channel, val: JsonVal)
    requires Matches(val, ChannelFields(c))
    requires MapSeq(DocValue(ArrDoc(MapSeq(c.threads, ThreadDoc))).AsArray(), ThreadFromJson) == MapSeq(c.threads, RoundThread)
    ensures ChannelFromJson(val) == RoundChannel(c)
  {
    var fields := ChannelFields(c);
    assert fields[0].0 == "uuid";
    assert fields[1].0 == "name";
    assert fields[2].0 == "description";
    assert fields[3].0 == "threads";
  }

  lemma ChannelKeys(c: Channel)
    ensures DistinctKeys(ChannelFields(c))
  {
  }

  lemma ChannelTrip(c: Channel)
    ensures DocWf(ChannelDoc(c)) && ChannelJson(c) == DocText(ChannelDoc(c))
    ensures ChannelFromJson(DocValue(ChannelDoc(c))) == RoundChannel(c)
  {
    ThreadCodec();
    ListCodec(c.threads, ThreadJson, ThreadDoc, ThreadFromJson, RoundThread);
    ChannelKeys(c);
    ObjDocOk(ChannelFields(c), [("uuid", Quote(c.uuid)), ("name", Quote(c.name)),
                                ("description", Quote(c.description)),
                                ("threads", ArrayText(MapSeq(c.threads, ThreadJson)))]);
    ChannelRead(c, DocValue(ChannelDoc(c)));
  }

  lemma ChannelCodec()
    ensures Codec(ChannelJson, ChannelDoc, ChannelFromJson, RoundChannel)
  {
    forall c {
      ChannelTrip(c);
    }
  }

  function TeamFields(t: Team): seq<(string, Doc)> {
    [("uuid", DStr(t.uuid)), ("name", DStr(t.name)), ("description", DStr(t.description)),
     ("subscribers", ArrDoc(MapSeq(t.subscribers, StringDoc))), ("channels", ArrDoc(MapSeq(t.channels, ChannelDoc)))]
  }

  function TeamDoc(t: Team): Doc {
    ObjDoc(TeamFields(t))
  }

  function RoundTeam(t: Team): Team {
    t.(channels := MapSeq(t.channels, RoundChannel))
  }

  lemma TeamRead(t: Team, val: JsonVal)
    requires Matches(val, TeamFields(t))
    requires MapSeq(DocValue(ArrDoc(MapSeq(t.subscribers, StringDoc))).AsArray(), StringFromJson) == t.subscribers
    requires MapSeq(DocValue(ArrDoc(MapSeq(t.channels, ChannelDoc))).AsArray(), ChannelFromJson) == MapSeq(t.channels, RoundChannel)
    ensures TeamFromJson(val) == RoundTeam(t)
  {
    MatchAt(val, TeamFields(t), 0, "uuid");
    MatchAt(val, TeamFields(t), 1, "name");
    MatchAt(val, TeamFields(t), 2, "description");
    MatchAt(val, TeamFields(t), 3, "subscribers");
    MatchAt(val, TeamFields(t), 4, "channels");
  }

  lemma TeamKeys(t: Team)
    ensures DistinctKeys(TeamFields(t))
  {
  }

  lemma TeamTrip(t: Team)
    ensures DocWf(TeamDoc(t)) && TeamJson(t) == DocText(TeamDoc(t))
    ensures TeamFromJson(DocValue(TeamDoc(t))) == RoundTeam(t)
  {
    StringCodec();
    ListCodec(t.subscribers, Quote, StringDoc, StringFromJson, Same);
    SameSeq(t.subscribers);
    ChannelCodec();
    ListCodec(t.channels, ChannelJson, ChannelDoc, ChannelFromJson, RoundChannel);
    TeamKeys(t);
    ObjDocOk(TeamFields(t), [("uuid", Quote(t.uuid)), ("name", Quote(t.name)), ("description", Quote(t.description)),
                             ("subscribers", ArrayText(MapSeq(t.subscribers, Quote))),
                             ("channels", ArrayText(MapSeq(t.channels, ChannelJson)))]);
    TeamRead(t, DocValue(TeamDoc(t)));
  }

  lemma TeamCodec()
    ensures Codec(TeamJson, TeamDoc, TeamFromJson, RoundTeam)
  {
    forall t {
      TeamTrip(t);
    }
  }

  function ConversationFields(messages: map<string, seq<Message>>, keys: seq<string>): (r: seq<(string, Doc)>)
    requires forall k :: k in keys ==> k in messages
    ensures |r| == |keys|
    ensures forall i :: 0 <= i < |keys| ==> r[i] == (keys[i], ArrDoc(MapSeq(messages[keys[i]], MessageDoc)))
  {
    seq(|keys|, i requires 0 <= i < |keys| => (keys[i], ArrDoc(MapSeq(messages[keys[i]], MessageDoc))))
  }

  function ConversationsDoc(messages: map<string, seq<Message>>): Doc {
    ObjDoc(ConversationFields(messages, Sorted(messages.Keys)))
  }

  function RoundConversations(messages: map<string, seq<Message>>): map<string, seq<Message>> {
    map k | k in messages :: MapSeq(messages[k], RoundMessage)
  }

  lemma ConversationTrip(values: seq<Message>)
    ensures var d := ArrDoc(MapSeq(values, MessageDoc));
            && DocWf(d) && DocText(d) == ArrayText(MapSeq(values, MessageJson))
            && MapSeq(DocValue(d).AsArray(), MessageFromJson) == MapSeq(values, RoundMessage)
  {
    MessageCodec();
    ListCodec(values, MessageJson, MessageDoc, MessageFromJson, RoundMessage);
  }

  /** Reading an object whose members are the keys of a map, in any order, gives the map. */
  lemma ConversationsRead(messages: map<string, seq<Message>>, keys: seq<string>, obj: map<string, JsonVal>)
    requires (forall k :: k in keys <==> k in messages) && obj.Keys == messages.Keys
    requires forall i :: 0 <= i < |keys| ==>
      MapSeq(obj[keys[i]].AsArray(), MessageFromJson) == MapSeq(messages[keys[i]], RoundMessage)
    ensures ConversationsFromJson(Obj(obj)) == RoundConversations(messages)
  {
    var r := ConversationsFromJson(Obj(obj));
    assert r.Keys == messages.Keys;
    forall k | k in messages ensures r[k] == MapSeq(messages[k], RoundMessage) {
      var i :| 0 <= i < |keys| && keys[i] == k;
      assert keys[i] in obj;
    }
  }

  lemma ConversationFieldsOk(messages: map<string, seq<Message>>, keys: seq<string>)
    requires forall k :: k in keys <==> k in messages
    ensures var fields := ConversationFields(messages, keys);
            FieldsWf(fields) && forall i :: 0 <= i < |keys| ==>
              && DocText(fields[i].1) == ArrayText(MapSeq(messages[keys[i]], MessageJson))
              && MapSeq(DocValue(fields[i].1).AsArray(), MessageFromJson) == MapSeq(messages[keys[i]], RoundMessage)
  {
    var fields := ConversationFields(messages, keys);
    forall i | 0 <= i < |keys|
      ensures DocWf(fields[i].1) && DocText(fields[i].1) == ArrayText(MapSeq(messages[keys[i]], MessageJson))
      ensures MapSeq(DocValue(fields[i].1).AsArray(), MessageFromJson) == MapSeq(messages[keys[i]], RoundMessage)
    {
      ConversationTrip(messages[keys[i]]);
    }
  }

  lemma ConversationNames(messages: map<string, seq<Message>>, keys: seq<string>)
    requires forall k :: k in keys <==> k in messages
    ensures FieldNames(ConversationFields(messages, keys)) == messages.Keys
  {
    var fields := ConversationFields(messages, keys);
    forall k | k in messages ensures k in FieldNames(fields) {
      var i :| 0 <= i < |keys| && keys[i] == k;
      assert fields[i].0 == k;
    }
  }

  lemma ConversationsValue(messages: map<string, seq<Message>>, keys: seq<string>)
    requires forall k :: k in keys <==> k in messages
    requires forall i, j :: 0 <= i < j < |keys| ==> keys[i] != keys[j]
    ensures ConversationsFromJson(DocValue(ObjDoc(ConversationFields(messages, keys)))) == RoundConversations(messages)
  {
    var fields := ConversationFields(messages, keys);
    var obj := MembersValue(FieldsDoc(fields), map[]);
    ObjDocValue(fields, obj);
    ConversationObject(messages, keys, obj);
    ConversationsRead(messages, keys, obj);
  }

  lemma ObjDocValue(fields: seq<(string, Doc)>, obj: map<string, JsonVal>)
    requires obj == MembersValue(FieldsDoc(fields), map[])
    ensures DocValue(ObjDoc(fields)) == Obj(obj)
  {
  }

  lemma ConversationObject(messages: map<string, seq<Message>>, keys: seq<string>, obj: map<string, JsonVal>)
    requires forall k :: k in keys <==> k in messages
    requires forall i, j :: 0 <= i < j < |keys| ==> keys[i] != keys[j]
    requires obj == MembersValue(FieldsDoc(ConversationFields(messages, keys)), map[])
    ensures obj.Keys == messages.Keys
    ensures forall i :: 0 <= i < |keys| ==>
              MapSeq(obj[keys[i]].AsArray(), MessageFromJson) == MapSeq(messages[keys[i]], RoundMessage)
  {
    var fields := ConversationFields(messages, keys);
    NamedValues(fields, keys, obj);
    ConversationNames(messages, keys);
    ConversationFieldsOk(messages, keys);
  }

  lemma NamedValues(fields: seq<(string, Doc)>, keys: seq<string>, obj: map<string, JsonVal>)
    requires |fields| == |keys| && forall i :: 0 <= i < |keys| ==> fields[i].0 == keys[i]
    requires forall i, j :: 0 <= i < j < |keys| ==> keys[i] != keys[j]
    requires obj == MembersValue(FieldsDoc(fields), map[])
    ensures obj.Keys == FieldNames(fields)
    ensures forall i :: 0 <= i < |keys| ==> keys[i] in obj && obj[keys[i]] == DocValue(fields[i].1)
  {
    FieldsValue(fields, map[]);
  }

  lemma ConversationsText(messages: map<string, seq<Message>>, keys: seq<string>)
    requires forall k :: k in keys <==> k in messages
    ensures DocWf(ObjDoc(ConversationFields(messages, keys)))
    ensures DocText(ObjDoc(ConversationFields(messages, keys))) == ObjectText(ConversationParts(messages, keys))
  {
    ConversationFieldsOk(messages, keys);
    ObjDocText(ConversationFields(messages, keys), ConversationParts(messages, keys));
  }

  /** The message map comes back key by key, whatever the order in which it was printed. */
  lemma ConversationsTrip(messages: map<string, seq<Message>>)
    ensures DocWf(ConversationsDoc(messages)) && ConversationsJson(messages) == DocText(ConversationsDoc(messages))
    ensures ConversationsFromJson(DocValue(ConversationsDoc(messages))) == RoundConversations(messages)
  {
    var keys := Sorted(messages.Keys);
    ConversationsText(messages, keys);
    forall i, j | 0 <= i < j < |keys| ensures keys[i] != keys[j] {
      SortedDistinct(messages.Keys, i, j);
    }
    ConversationsValue(messages, keys);
  }

  function UserFields(u: User): seq<(string, Doc)> {
    [("uuid", DStr(u.uuid)), ("name", DStr(u.name)), ("connected", DBool(false)),
     ("teams", ArrDoc(MapSeq(u.teams, StringDoc))), ("messages", ConversationsDoc(u.messages))]
  }

  function UserDoc(u: User): Doc {
    ObjDoc(UserFields(u))
  }

  /** A loaded user: offline, with the timestamps of a double. */
  function RoundUser(u: User): User {
    u.(connections := 0, messages := RoundConversations(u.messages))
  }

  lemma UserRead(u: User, val: JsonVal)
    requires Matches(val, UserFields(u))
    requires MapSeq(DocValue(ArrDoc(MapSeq(u.teams, StringDoc))).AsArray(), StringFromJson) == u.teams
    requires ConversationsFromJson(DocValue(ConversationsDoc(u.messages))) == RoundConversations(u.messages)
    ensures UserFromJson(val) == RoundUser(u)
  {
    var fields := UserFields(u);
    assert fields[0].0 == "uuid";
    assert fields[1].0 == "name";
    assert fields[2].0 == "connected";
    assert fields[3].0 == "teams";
    assert fields[4].0 == "messages";
  }

  lemma UserKeys(u: User)
    ensures DistinctKeys(UserFields(u))
  {
  }

  lemma UserTrip(u: User)
    ensures DocWf(UserDoc(u)) && UserJson(u) == DocText(UserDoc(u))
    ensures UserFromJson(DocValue(UserDoc(u))) == RoundUser(u)
  {
    StringCodec();
    ListCodec(u.teams, Quote, StringDoc, StringFromJson, Same);
    SameSeq(u.teams);
    ConversationsTrip(u.messages);
    UserKeys(u);
    ObjDocOk(UserFields(u), [("uuid", Quote(u.uuid)), ("name", Quote(u.name)), ("connected", "false"),
                             ("teams", ArrayText(MapSeq(u.teams, Quote))), ("messages", ConversationsJson(u.messages))]);
    UserRead(u, DocValue(UserDoc(u)));
  }

  lemma UserCodec()
    ensures Codec(UserJson, UserDoc, UserFromJson, RoundUser)
  {
    forall u {
      UserTrip(u);
    }
  }

  // ---------------------------------------------------------------------------
  // The whole database

  function DatabaseFields(db: Database): seq<(string, Doc)> {
    [("users", ArrDoc(MapSeq(db.users, UserDoc))), ("teams", ArrDoc(MapSeq(db.teams, TeamDoc)))]
  }

  function DatabaseDoc(db: Database): Doc {
    ObjDoc(DatabaseFields(db))
  }

  const EMPTY := Database([], [])

  /** The database that a restart finds. */
  function Reloaded(db: Database): Database {
    Database(MapSeq(db.users, RoundUser), MapSeq(db.teams, RoundTeam))
  }

  lemma PlainQuote(v: string)
    requires Plain(v)
    ensures Quote(v) == "\"" + v + "\""
  {
    EscapePlain(v);
  }

  lemma LiteralKeys()
    ensures Quote("users") == "\"users\"" && Quote("teams") == "\"teams\""
  {
    PlainQuote("users");
    PlainQuote("teams");
    assert "\"users\"" == "\"" + "users" + "\"";
    assert "\"teams\"" == "\"" + "teams" + "\"";
  }

  lemma CommasTwo(a: string, b: string)
    ensures Commas([a, b]) == a + "," + b
  {
    assert [a, b][1..] == [b];
  }

  lemma TextsTwo(a: (string, string), b: (string, string))
    ensures MapSeq([a, b], MemberPart) == [MemberPart(a), MemberPart(b)]
  {
  }

  lemma NamedList(name: string, list: string)
    ensures name + ":" + ("[" + list + "]") == name + ":[" + list + "]"
  {
    assert name + ":[" == name + ":" + "[";
    ConcatAssoc(name + ":" + "[", list, "]");
    ConcatAssoc(name + ":", "[", list + "]");
    ConcatAssoc("[", list, "]");
  }

  lemma TwoLists(a: string, b: string)
    ensures "{" + ("\"users\":[" + a + "]" + "," + ("\"teams\":[" + b + "]")) + "}" ==
            "{\"users\":[" + a + "],\"teams\":[" + b + "]}"
  {
    var s1, s2, s3 := "\"users\":[", "\"teams\":[", "]";
    assert "{\"users\":[" == "{" + s1;
    assert "],\"teams\":[" == "]" + ("," + s2);
    assert "]}" == "]" + "}";
    Regroup("{", s1, a, "]", ",", s2, b, "}");
  }

  lemma Regroup(p: string, q: string, a: string, r: string, c: string, t: string, b: string, e: string)
    ensures p + (q + a + r + c + (t + b + r)) + e == p + q + a + (r + (c + t)) + b + (r + e)
  {
    calc {
      p + (q + a + r + c + (t + b + r)) + e;
      { ConcatAssoc(q + a + r + c, t + b, r); }
      p + (q + a + r + c + (t + b) + r) + e;
      { ConcatAssoc(q + a + r + c, t, b); }
      p + (q + a + r + c + t + b + r) + e;
      { ConcatAssoc(p, q + a + r + c + t + b, r); ConcatAssoc(p, q + a + r + c + t, b);
        ConcatAssoc(p, q + a + r + c, t); ConcatAssoc(p, q + a + r, c); ConcatAssoc(p, q + a, r); ConcatAssoc(p, q, a); }
      p + q + a + r + c + t + b + r + e;
      { ConcatAssoc(p + q + a + r + c + t + b, r, e); ConcatAssoc(p + q + a + r, c, t); ConcatAssoc(p + q + a, r, c + t); }
      p + q + a + (r + (c + t)) + b + (r + e);
    }
  }

  lemma SaveTextShape(db: Database)
    ensures SaveText(db) == ObjectText([("users", ArrayText(MapSeq(db.users, UserJson))),
                                        ("teams", ArrayText(MapSeq(db.teams, TeamJson)))])
  {
    LiteralKeys();
    var users, teams := Commas(MapSeq(db.users, UserJson)), Commas(MapSeq(db.teams, TeamJson));
    ListsText(users, teams);
  }

  lemma ListsText(users: string, teams: string)
    requires Quote("users") == "\"users\"" && Quote("teams") == "\"teams\""
    ensures ObjectText([("users", "[" + users + "]"), ("teams", "[" + teams + "]")]) ==
            "{\"users\":[" + users + "],\"teams\":[" + teams + "]}"
  {
    var a, b := ("users", "[" + users + "]"), ("teams", "[" + teams + "]");
    TextsTwo(a, b);
    CommasTwo(MemberPart(a), MemberPart(b));
    NamedList("\"users\"", users);
    NamedList("\"teams\"", teams);
    assert "\"users\":[" == "\"users\"" + ":[";
    assert "\"teams\":[" == "\"teams\"" + ":[";
    TwoLists(users, teams);
  }

  lemma NothingBefore<T>(s: seq<T>)
    ensures [] + s == s
  {
  }

  lemma DatabaseRead(db: Database, v: JsonVal)
    requires Matches(v, DatabaseFields(db))
    requires MapSeq(DocValue(ArrDoc(MapSeq(db.users, UserDoc))).AsArray(), UserFromJson) == MapSeq(db.users, RoundUser)
    requires MapSeq(DocValue(ArrDoc(MapSeq(db.teams, TeamDoc))).AsArray(), TeamFromJson) == MapSeq(db.teams, RoundTeam)
    ensures AppendLoaded(EMPTY, v) == Reloaded(db)
  {
    var fields := DatabaseFields(db);
    assert fields[0].0 == "users";
    assert fields[1].0 == "teams";
    NothingBefore(MapSeq(db.users, RoundUser));
    NothingBefore(MapSeq(db.teams, RoundTeam));
  }

  lemma DatabaseTrip(db: Database)
    ensures DocWf(DatabaseDoc(db)) && SaveText(db) == DocText(DatabaseDoc(db))
    ensures AppendLoaded(EMPTY, DocValue(DatabaseDoc(db))) == Reloaded(db)
  {
    UserCodec();
    ListCodec(db.users, UserJson, UserDoc, UserFromJson, RoundUser);
    TeamCodec();
    ListCodec(db.teams, TeamJson, TeamDoc, TeamFromJson, RoundTeam);
    SaveTextShape(db);
    ObjDocOk(DatabaseFields(db),
             [("users", ArrayText(MapSeq(db.users, UserJson))), ("teams", ArrayText(MapSeq(db.teams, TeamJson)))]);
    DatabaseRead(db, DocValue(DatabaseDoc(db)));
  }

  /** Saving any database and loading the text into an empty one gives the reloaded database. */
  lemma SaveThenLoad(db: Database)
    ensures PValue(SaveText(db), 0).Done?
    ensures LoadText(EMPTY, SaveText(db)) == Reloaded(db)
  {
    DatabaseTrip(db);
    ParseWhole(SaveText(db), DatabaseDoc(db));
  }

  lemma ParseWhole(s: string, d: Doc)
    requires DocWf(d) && s == DocText(d)
    ensures PValue(s, 0) == Done(DocValue(d), |s|)
  {
    assert "" + s + "" == s;
    ParseText(s, "", d, "");
  }
}
