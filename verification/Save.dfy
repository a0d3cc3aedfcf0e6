/**
  Saving and loading the database. The text is written by concatenation and read back through the
  parser; what comes back is the saved database with every connection count zero and every
  timestamp taken through a double.
*/
module Save {
  import opened Text
  import opened Tokens
  import opened Numbers
  import opened Json
  import opened Model
  import opened SortedKeys

  // ---------------------------------------------------------------------------
  // Writing

  /** The escaping of the save file is that of the protocol fields: quotes and backslashes only. */
  method EscapeJson(str: string) returns (out: string)
    ensures out == Quote(str)
  {
    out := "\"";
    for i := 0 to |str|
      invariant out == "\"" + Escape(str[..i])
    {
      EscapeConcat(str[..i], [str[i]]);
      assert str[..i + 1] == str[..i] + [str[i]];
      assert [str[i]][1..] == "" && Escape("") == "";
      if str[i] == '"' {
        out := out + "\\\"";
      } else if str[i] == '\\' {
        out := out + "\\\\";
      } else {
        out := out + [str[i]];
      }
    }
    assert str[..|str|] == str;
    out := out + "\"";
  }

  function Commas(parts: seq<string>): string {
    if parts == [] then ""
    else if |parts| == 1 then parts[0]
    else parts[0] + "," + Commas(parts[1..])
  }

  function ArrayText(parts: seq<string>): string {
    "[" + Commas(parts) + "]"
  }

  function MemberPart(field: (string, string)): string {
    Quote(field.0) + ":" + field.1
  }

  function ObjectText(fields: seq<(string, string)>): string {
    "{" + Commas(MapSeq(fields, MemberPart)) + "}"
  }

  lemma {:induction false} CommasSnoc(parts: seq<string>, last: string)
    ensures Commas(parts + [last]) == if parts == [] then last else Commas(parts) + "," + last
  {
    if parts == [] {
      assert parts + [last] == [last];
    } else {
      assert (parts + [last])[1..] == parts[1..] + [last];
      CommasSnoc(parts[1..], last);
    }
  }

  lemma {:induction false} CommasEmpty(parts: seq<string>)
    requires forall i :: 0 <= i < |parts| ==> parts[i] != ""
    ensures Commas(parts) == "" <==> parts == []
  {
  }

  lemma CommasStep(parts: seq<string>, i: nat)
    requires i < |parts| && forall j :: 0 <= j < |parts| ==> parts[j] != ""
    ensures var done := Commas(parts[..i]);
            Commas(parts[..i + 1]) == (if done != "" then done + "," else done) + parts[i]
  {
    CommasEmpty(parts[..i]);
    CommasSnoc(parts[..i], parts[i]);
    assert parts[..i + 1] == parts[..i] + [parts[i]];
    assert "" + parts[i] == parts[i];
  }

  /** The loop writes a separator when something is already written; no element prints as the empty text. */
  method JoinLoop<T(!new)>(range: seq<T>, mapper: T -> string) returns (out: string)
    requires forall x :: mapper(x) != ""
    ensures out == Commas(MapSeq(range, mapper))
  {
    out := "";
    ghost var parts := MapSeq(range, mapper);
    for i := 0 to |range|
      invariant out == Commas(parts[..i])
    {
      CommasStep(parts, i);
      if out != "" {
        out := out + ",";
      }
      out := out + mapper(range[i]);
    }
    assert parts[..|range|] == parts;
  }

  method JsonArray<T(!new)>(range: seq<T>, mapper: T -> string) returns (out: string)
    requires forall x :: mapper(x) != ""
    ensures out == ArrayText(MapSeq(range, mapper))
  {
    out := JoinLoop(range, mapper);
    out := "[" + out + "]";
  }

  function MessageJson(m: Message): (r: string)
    ensures r != ""
  {
    ObjectText([("sender", Quote(m.sender)), ("receiver", Quote(m.receiver)),
                ("timestamp", IntText(m.timestamp)), ("body", Quote(m.body))])
  }

  function ReplyJson(r: Reply): string {
    ObjectText([("uuid", Quote(r.uuid)), ("user_uuid", Quote(r.author)),
                ("timestamp", IntText(r.timestamp)), ("body", Quote(r.body))])
  }

  function ThreadJson(t: Thread): string {
    ObjectText([("uuid", Quote(t.uuid)), ("user_uuid", Quote(t.author)), ("timestamp", IntText(t.timestamp)),
                ("title", Quote(t.title)), ("body", Quote(t.body)),
                ("replies", ArrayText(MapSeq(t.replies, ReplyJson)))])
  }

  function ChannelJson(c: Channel): string {
    ObjectText([("uuid", Quote(c.uuid)), ("name", Quote(c.name)), ("description", Quote(c.description)),
                ("threads", ArrayText(MapSeq(c.threads, ThreadJson)))])
  }

  function TeamJson(t: Team): (r: string)
    ensures r != ""
  {
    ObjectText([("uuid", Quote(t.uuid)), ("name", Quote(t.name)), ("description", Quote(t.description)),
                ("subscribers", ArrayText(MapSeq(t.subscribers, Quote))),
                ("channels", ArrayText(MapSeq(t.channels, ChannelJson)))])
  }

  function ConversationParts(messages: map<string, seq<Message>>, keys: seq<string>): (r: seq<(string, string)>)
    requires forall k :: k in keys ==> k in messages
    ensures |r| == |keys|
    ensures forall i :: 0 <= i < |keys| ==> r[i] == (keys[i], ArrayText(MapSeq(messages[keys[i]], MessageJson)))
  {
    seq(|keys|, i requires 0 <= i < |keys| => (keys[i], ArrayText(MapSeq(messages[keys[i]], MessageJson))))
  }

  function ConversationsJson(messages: map<string, seq<Message>>): string {
    ObjectText(ConversationParts(messages, Sorted(messages.Keys)))
  }

  method JsonConversation(key: string, values: seq<Message>) returns (out: string)
    ensures out == MemberPart((key, ArrayText(MapSeq(values, MessageJson)))) && out != ""
  {
    var name := EscapeJson(key);
    var list := JsonArray(values, MessageJson);
    out := name + ":" + list;
  }

  /** The map printer: keys ascending, each with its array. */
  method JsonMapOfArrays(messages: map<string, seq<Message>>) returns (out: string)
    ensures out == ConversationsJson(messages)
  {
    var keys := Sorted(messages.Keys);
    ghost var fields := ConversationParts(messages, keys);
    ghost var parts := MapSeq(fields, MemberPart);
    out := "";
    for i := 0 to |keys|
      invariant out == Commas(parts[..i])
    {
      CommasStep(parts, i);
      if out != "" {
        out := out + ",";
      }
      var member := JsonConversation(keys[i], messages[keys[i]]);
      out := out + member;
    }
    assert parts[..|keys|] == parts;
    out := "{" + out + "}";
  }

  function UserJson(u: User): (r: string)
    ensures r != ""
  {
    ObjectText([("uuid", Quote(u.uuid)), ("name", Quote(u.name)), ("connected", "false"),
                ("teams", ArrayText(MapSeq(u.teams, Quote))), ("messages", ConversationsJson(u.messages))])
  }

  function SaveText(db: Database): string {
    "{\"users\":[" + Commas(MapSeq(db.users, UserJson)) + "],\"teams\":[" + Commas(MapSeq(db.teams, TeamJson)) + "]}"
  }

  method SaveDatabase(db: Database) returns (file: string)
    ensures file == SaveText(db)
  {
    var users := JoinLoop(db.users, UserJson);
    var teams := JoinLoop(db.teams, TeamJson);
    file := "{\"users\":[" + users + "],\"teams\":[" + teams + "]}";
  }

  // ---------------------------------------------------------------------------
  // Reading

  function MessageFromJson(v: JsonVal): Message {
    Message(v.Get("sender").AsStr(), v.Get("receiver").AsStr(), v.Get("timestamp").AsNum(), v.Get("body").AsStr())
  }

  function ReplyFromJson(v: JsonVal): Reply {
    Reply(v.Get("uuid").AsStr(), v.Get("user_uuid").AsStr(), v.Get("timestamp").AsNum(), v.Get("body").AsStr())
  }

  method ReadList<T>(vals: seq<JsonVal>, read: JsonVal -> T) returns (r: seq<T>)
    ensures r == MapSeq(vals, read)
  {
    r := [];
    for i := 0 to |vals|
      invariant |r| == i && forall j :: 0 <= j < i ==> r[j] == read(vals[j])
    {
      r := r + [read(vals[i])];
    }
  }

  function ThreadFromJson(v: JsonVal): Thread {
    Thread(v.Get("uuid").AsStr(), v.Get("user_uuid").AsStr(), v.Get("timestamp").AsNum(), v.Get("title").AsStr(),
           v.Get("body").AsStr(), MapSeq(v.Get("replies").AsArray(), ReplyFromJson))
  }

  function ChannelFromJson(v: JsonVal): Channel {
    Channel(v.Get("uuid").AsStr(), v.Get("name").AsStr(), v.Get("description").AsStr(),
            MapSeq(v.Get("threads").AsArray(), ThreadFromJson))
  }

  function StringFromJson(v: JsonVal): string {
    v.AsStr()
  }

  function TeamFromJson(v: JsonVal): Team {
    Team(v.Get("uuid").AsStr(), v.Get("name").AsStr(), v.Get("description").AsStr(),
         MapSeq(v.Get("subscribers").AsArray(), StringFromJson),
         MapSeq(v.Get("channels").AsArray(), ChannelFromJson))
  }

  function ConversationsFromJson(v: JsonVal): map<string, seq<Message>> {
    map k | k in v.AsObject() :: MapSeq(v.AsObject()[k].AsArray(), MessageFromJson)
  }

  function UserFromJson(v: JsonVal): User {
    User(v.Get("uuid").AsStr(), v.Get("name").AsStr(), 0, MapSeq(v.Get("teams").AsArray(), StringFromJson),
         ConversationsFromJson(v.Get("messages")))
  }

  function AppendLoaded(db: Database, root: JsonVal): Database {
    Database(db.users + MapSeq(root.Get("users").AsArray(), UserFromJson),
             db.teams + MapSeq(root.Get("teams").AsArray(), TeamFromJson))
  }

  /** Loading into a database, for a text on which the parser returns. */
  function LoadText(db: Database, content: string): Database
    requires PValue(content, 0) != Diverges
  {
    AppendLoaded(db, PValue(content, 0).value)
  }

  method LoadDatabase(db: Database, content: string) returns (r: Database)
    requires PValue(content, 0) != Diverges
    ensures r == LoadText(db, content)
  {
    var parser := new JsonParser(content);
    var root := parser.ParseValue();
    var users := ReadList(root.Get("users").AsArray(), UserFromJson);
    var teams := ReadList(root.Get("teams").AsArray(), TeamFromJson);
    r := Database(db.users + users, db.teams + teams);
  }
}
