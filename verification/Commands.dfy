/**
  What each command does: the new database, the new session of the requesting client, and the frames
  it queues, in order, each with the set of clients that receive it.
*/
module Commands {
  import opened Text
  import opened Protocol
  import opened Numbers
  import opened Model
  import opened Lookup

  const MAX_NAME_LENGTH: nat := 32
  const MAX_DESCRIPTION_LENGTH: nat := 255
  const MAX_BODY_LENGTH: nat := 512

  datatype Context = Context(team: string, channel: string, thread: string)

  const NO_CONTEXT := Context("", "", "")

  /** A connected client, as the server keeps it under its file descriptor. */
  datatype Client = Client(user: string, ctx: Context, readBuffer: string, writeBuffer: string, pollOut: bool)

  type Clients = map<int, Client>

  /** One queued frame and who gets it. */
  datatype Out = Out(to: set<int>, frame: Frame)

  datatype Effect = Effect(db: Database, user: string, ctx: Context, outs: seq<Out>)

  // ---------------------------------------------------------------------------
  // Audiences

  function To(fd: int, frame: Frame): Out {
    Out({fd}, frame)
  }

  function ToAll(clients: Clients, frame: Frame): Out {
    Out(clients.Keys, frame)
  }

  function Sessions(clients: Clients, user: string): set<int> {
    set fd | fd in clients && clients[fd].user == user
  }

  function SubscriberSessions(clients: Clients, subs: seq<string>): set<int> {
    set fd | fd in clients && clients[fd].user != "" && clients[fd].user in subs
  }

  /** Nothing is sent for an unknown team. */
  function Notify(db: Database, clients: Clients, teamUuid: string, frame: Frame): seq<Out> {
    if teamUuid == "" then []
    else match FindTeam(db, teamUuid)
      case None => []
      case Some(t) => [Out(SubscriberSessions(clients, db.teams[t].subscribers), frame)]
  }

  function ToEach(fd: int, frames: seq<Frame>): (r: seq<Out>)
    ensures |r| == |frames| && forall i :: 0 <= i < |frames| ==> r[i] == To(fd, frames[i])
  {
    seq(|frames|, i requires 0 <= i < |frames| => To(fd, frames[i]))
  }

  // ---------------------------------------------------------------------------
  // Frames

  const OK: Frame := [Word("200"), Word("OK")]
  const BAD_REQUEST: Frame := [Word("400"), Word("BAD_REQUEST")]
  const UNAUTHORIZED: Frame := [Word("401"), Word("UNAUTHORIZED")]
  const FORBIDDEN: Frame := [Word("403"), Word("FORBIDDEN")]
  const ALREADY_EXISTS: Frame := [Word("409"), Word("ALREADY_EXISTS")]

  function NotFound(what: string): Frame {
    [Word("404"), Word("NOT_FOUND"), Field(what)]
  }

  function NotFoundKind(kind: string, what: string): Frame {
    [Word("404"), Word("NOT_FOUND"), Word(kind), Field(what)]
  }

  function Connected(u: User): Part {
    Word(if u.connections > 0 then "1" else "0")
  }

  function Time(t: int): Part {
    Word(IntText(t))
  }

  function UserLine(u: User): Frame {
    LineFrame([Field(u.uuid), Field(u.name), Connected(u)])
  }

  function TeamLine(t: Team): Frame {
    LineFrame([Field(t.uuid), Field(t.name), Field(t.description)])
  }

  function ChannelLine(c: Channel): Frame {
    LineFrame([Field(c.uuid), Field(c.name), Field(c.description)])
  }

  function ThreadLine(t: Thread): Frame {
    LineFrame([Field(t.uuid), Field(t.author), Time(t.timestamp), Field(t.title), Field(t.body)])
  }

  function ReplyLine(threadUuid: string, r: Reply): Frame {
    LineFrame([Field(threadUuid), Field(r.author), Time(r.timestamp), Field(r.body)])
  }

  function MessageLine(m: Message): Frame {
    LineFrame([Field(m.sender), Time(m.timestamp), Field(m.body)])
  }

  function LoggedIn(u: User): Frame {
    [Word("EVENT"), Word("USER_LOGGED_IN"), Field(u.uuid), Field(u.name)]
  }

  function LoggedOut(u: User): Frame {
    [Word("EVENT"), Word("USER_LOGGED_OUT"), Field(u.uuid), Field(u.name)]
  }

  // ---------------------------------------------------------------------------
  // Helpers

  predicate InvalidLength(value: string, max: nat) {
    value == "" || |value| > max
  }

  /** Refuse, or answer without changing anything: one frame to the requester. */
  function Answer(db: Database, me: Client, fd: int, frame: Frame): Effect {
    Effect(db, me.user, me.ctx, [To(fd, frame)])
  }

  function AnswerList(db: Database, me: Client, fd: int, kind: Kind, lines: seq<Frame>): Effect {
    Effect(db, me.user, me.ctx, ToEach(fd, ListBlock(kind, lines)))
  }

  // ---------------------------------------------------------------------------
  // Sessions

  function Login(db: Database, clients: Clients, fd: int, args: seq<string>, id: string): Effect
    requires fd in clients
  {
    var me := clients[fd];
    if |args| < 2 then Answer(db, me, fd, BAD_REQUEST)
    else if me.user != "" then Answer(db, me, fd, UNAUTHORIZED)
    else if InvalidLength(args[1], MAX_NAME_LENGTH) then Answer(db, me, fd, BAD_REQUEST)
    else match FindUserByName(db, args[1])
      case None => Enter(db, clients, fd, db.users + [User(id, args[1], 1, [], map[])], |db.users|)
      case Some(i) =>
        var u := db.users[i];
        Enter(db, clients, fd, db.users[i := u.(connections := u.connections + 1)], i)
  }

  /** The client becomes the `i`th of the users; it is answered first, then everyone hears of it. */
  function Enter(db: Database, clients: Clients, fd: int, users: seq<User>, i: nat): Effect
    requires fd in clients && i < |users|
  {
    var u := users[i];
    Effect(db.(users := users), u.uuid, clients[fd].ctx,
           [To(fd, [Word("200"), Word("OK"), Raw(u.uuid), Raw(u.name)]), ToAll(clients, LoggedIn(u))])
  }

  function Released(u: User): User {
    u.(connections := if u.connections > 0 then u.connections - 1 else 0)
  }

  /** One session less for the user: the new users and, if that was the last one, who to tell about. */
  function Release(db: Database, user: string): (r: (Database, Option<User>)) {
    match FindUser(db, user)
    case None => (db, None)
    case Some(i) =>
      var u := Released(db.users[i]);
      (db.(users := db.users[i := u]), if u.connections > 0 then None else Some(u))
  }

  /** Everyone hears of a user whose last session ended. */
  function Farewell(clients: Clients, gone: Option<User>): seq<Out> {
    if gone.Some? then [ToAll(clients, LoggedOut(gone.value))] else []
  }

  function Logout(db: Database, clients: Clients, fd: int): Effect
    requires fd in clients
  {
    var me := clients[fd];
    if me.user == "" then Answer(db, me, fd, UNAUTHORIZED)
    else
      var (db', gone) := Release(db, me.user);
      Effect(db', "", me.ctx, Farewell(clients, gone) + [To(fd, OK)])
  }

  // ---------------------------------------------------------------------------
  // Users and messages

  function Conversation(u: User, other: string): seq<Message> {
    if other in u.messages then u.messages[other] else []
  }

  function AddMessage(u: User, other: string, m: Message): User {
    u.(messages := u.messages[other := Conversation(u, other) + [m]])
  }

  /** The message is stored with both ends; a message to oneself is stored twice. */
  function StoreMessage(users: seq<User>, s: nat, r: nat, m: Message): seq<User>
    requires s < |users| && r < |users|
  {
    var one := users[s := AddMessage(users[s], users[r].uuid, m)];
    one[r := AddMessage(one[r], users[s].uuid, m)]
  }

  function Send(db: Database, clients: Clients, fd: int, args: seq<string>, now: int): Effect
    requires fd in clients
  {
    var me := clients[fd];
    if |args| < 3 || args[1] == "" || InvalidLength(args[2], MAX_BODY_LENGTH) then Answer(db, me, fd, BAD_REQUEST)
    else match FindUser(db, me.user)
      case None => Answer(db, me, fd, UNAUTHORIZED)
      case Some(s) =>
        match FindUser(db, args[1])
        case None => Answer(db, me, fd, NotFoundKind("USER", args[1]))
        case Some(r) =>
          var sender, receiver := db.users[s].uuid, db.users[r].uuid;
          var m := Message(sender, receiver, now, args[2]);
          Effect(db.(users := StoreMessage(db.users, s, r, m)), me.user, me.ctx,
                 [Out(Sessions(clients, receiver),
                      [Word("EVENT"), Word("PRIVATE_MESSAGE"), Field(sender), Field(args[2])]),
                  To(fd, OK)])
  }

  function MessagesOf(db: Database, clients: Clients, fd: int, args: seq<string>): Effect
    requires fd in clients
  {
    var me := clients[fd];
    if me.user == "" then Answer(db, me, fd, UNAUTHORIZED)
    else if |args| < 2 || args[1] == "" then Answer(db, me, fd, BAD_REQUEST)
    else match FindUser(db, me.user)
      case None => Answer(db, me, fd, UNAUTHORIZED)
      case Some(s) =>
        if FindUser(db, args[1]).None? then Answer(db, me, fd, NotFoundKind("USER", args[1]))
        else AnswerList(db, me, fd, Messages, MapSeq(Conversation(db.users[s], args[1]), MessageLine))
  }

  function ListUsers(db: Database, clients: Clients, fd: int): Effect
    requires fd in clients
  {
    var me := clients[fd];
    if me.user == "" then Answer(db, me, fd, UNAUTHORIZED)
    else AnswerList(db, me, fd, Users, MapSeq(db.users, UserLine))
  }

  function UserInfo(db: Database, clients: Clients, fd: int, args: seq<string>): Effect
    requires fd in clients
  {
    var me := clients[fd];
    if me.user == "" then Answer(db, me, fd, UNAUTHORIZED)
    else if |args| < 2 then Answer(db, me, fd, BAD_REQUEST)
    else match FindUser(db, args[1])
      case None => Answer(db, me, fd, NotFound(args[1]))
      case Some(i) =>
        var u := db.users[i];
        Answer(db, me, fd, [Word("200"), Word("USER"), Field(u.uuid), Field(u.name), Connected(u)])
  }

  // ---------------------------------------------------------------------------
  // Subscriptions

  function SetSubscribers(db: Database, t: nat, subs: seq<string>): Database
    requires t < |db.teams|
  {
    db.(teams := db.teams[t := db.teams[t].(subscribers := subs)])
  }

  function SubscribeTo(db: Database, clients: Clients, fd: int, args: seq<string>): Effect
    requires fd in clients
  {
    var me := clients[fd];
    if me.user == "" then Answer(db, me, fd, UNAUTHORIZED)
    else if |args| < 2 || args[1] == "" then Answer(db, me, fd, BAD_REQUEST)
    else match FindTeam(db, args[1])
      case None => Answer(db, me, fd, NotFoundKind("TEAM", args[1]))
      case Some(t) =>
        var done := [Word("200"), Word("SUBSCRIBE"), Field(me.user), Field(args[1])];
        if me.user in db.teams[t].subscribers then Answer(db, me, fd, done)
        else
          var db' := SetSubscribers(db, t, Subscribe(db.teams[t].subscribers, me.user));
          Effect(db', me.user, me.ctx,
                 Notify(db', clients, args[1], [Word("user_subscribed"), Raw(args[1]), Raw(me.user)]) + [To(fd, done)])
  }

  function UnsubscribeFrom(db: Database, clients: Clients, fd: int, args: seq<string>): Effect
    requires fd in clients
  {
    var me := clients[fd];
    if me.user == "" then Answer(db, me, fd, UNAUTHORIZED)
    else if |args| < 2 || args[1] == "" then Answer(db, me, fd, BAD_REQUEST)
    else match FindTeam(db, args[1])
      case None => Answer(db, me, fd, NotFoundKind("TEAM", args[1]))
      case Some(t) =>
        if me.user !in db.teams[t].subscribers then Answer(db, me, fd, FORBIDDEN)
        else
          var db' := SetSubscribers(db, t, Without(db.teams[t].subscribers, me.user));
          Effect(db', me.user, me.ctx,
                 Notify(db', clients, args[1], [Word("user_unsubscribed"), Raw(args[1]), Raw(me.user)]) +
                 [To(fd, [Word("200"), Word("UNSUBSCRIBE"), Field(me.user), Field(args[1])])])
  }

  function SubscribedTeams(teams: seq<Team>, user: string): seq<Frame> {
    if teams == [] then []
    else (if user in teams[0].subscribers then [TeamLine(teams[0])] else []) + SubscribedTeams(teams[1..], user)
  }

  /** Unknown subscribers are skipped. */
  function SubscriberLines(db: Database, subs: seq<string>): seq<Frame> {
    if subs == [] then []
    else (match FindUser(db, subs[0])
          case None => []
          case Some(i) => [UserLine(db.users[i])]) + SubscriberLines(db, subs[1..])
  }

  function Subscribed(db: Database, clients: Clients, fd: int, args: seq<string>): Effect
    requires fd in clients
  {
    var me := clients[fd];
    if me.user == "" then Answer(db, me, fd, UNAUTHORIZED)
    else if |args| < 2 then AnswerList(db, me, fd, Teams, SubscribedTeams(db.teams, me.user))
    else if |args| > 2 || args[1] == "" then Answer(db, me, fd, BAD_REQUEST)
    else match FindTeam(db, args[1])
      case None => Answer(db, me, fd, NotFoundKind("TEAM", args[1]))
      case Some(t) => AnswerList(db, me, fd, Users, SubscriberLines(db, db.teams[t].subscribers))
  }

  // ---------------------------------------------------------------------------
  // Context

  /** Each level that validates is answered; the context changes only when every level does. */
  function Use(db: Database, clients: Clients, fd: int, args: seq<string>): Effect
    requires fd in clients
  {
    var me := clients[fd];
    if me.user == "" then Answer(db, me, fd, UNAUTHORIZED)
    else if |args| > 4 then Answer(db, me, fd, BAD_REQUEST)
    else if |args| < 2 then Effect(db, me.user, NO_CONTEXT, ToEach(fd, [OK]))
    else match FindTeam(db, args[1])
      case None => Answer(db, me, fd, NotFoundKind("TEAM", args[1]))
      case Some(t) =>
        if me.user !in db.teams[t].subscribers then Answer(db, me, fd, FORBIDDEN)
        else UseChannel(db, me, fd, args, [OK])
  }

  /** The team of the arguments validates; `sent` is what has been answered. */
  function UseChannel(db: Database, me: Client, fd: int, args: seq<string>, sent: seq<Frame>): Effect
    requires 2 <= |args|
  {
    if |args| < 3 then Effect(db, me.user, Context(args[1], "", ""), ToEach(fd, sent))
    else if FindChannel(db, args[1], args[2]).None? then
      Effect(db, me.user, me.ctx, ToEach(fd, sent + [NotFoundKind("CHANNEL", args[2])]))
    else UseThread(db, me, fd, args, sent + [OK])
  }

  function UseThread(db: Database, me: Client, fd: int, args: seq<string>, sent: seq<Frame>): Effect
    requires 3 <= |args|
  {
    if |args| < 4 then Effect(db, me.user, Context(args[1], args[2], ""), ToEach(fd, sent))
    else if FindThread(db, args[2], args[3]).None? then
      Effect(db, me.user, me.ctx, ToEach(fd, sent + [NotFoundKind("THREAD", args[3])]))
    else Effect(db, me.user, Context(args[1], args[2], args[3]), ToEach(fd, sent + [OK]))
  }

  // ---------------------------------------------------------------------------
  // Creation

  function CreateTeam(db: Database, clients: Clients, fd: int, args: seq<string>, id: string): Effect
    requires fd in clients
  {
    var me := clients[fd];
    if |args| < 3 || InvalidLength(args[1], MAX_NAME_LENGTH) || InvalidLength(args[2], MAX_DESCRIPTION_LENGTH) then
      Answer(db, me, fd, BAD_REQUEST)
    else if Index(TeamNames(db.teams), args[1]).Some? then Answer(db, me, fd, ALREADY_EXISTS)
    else
      var subs := if me.user != "" then [me.user] else [];
      Effect(db.(teams := db.teams + [Team(id, args[1], args[2], subs, [])]), me.user, me.ctx,
             [To(fd, [Word("201"), Word("CREATED"), Word("TEAM"), Field(id), Field(args[1]), Field(args[2])]),
              ToAll(clients, [Word("EVENT"), Word("TEAM_CREATED"), Field(id), Field(args[1]), Field(args[2])])])
  }

  function SetChannels(db: Database, t: nat, channels: seq<Channel>): Database
    requires t < |db.teams|
  {
    db.(teams := db.teams[t := db.teams[t].(channels := channels)])
  }

  function SetThreads(db: Database, t: nat, c: nat, threads: seq<Thread>): Database
    requires t < |db.teams| && c < |db.teams[t].channels|
  {
    var channels := db.teams[t].channels;
    SetChannels(db, t, channels[c := channels[c].(threads := threads)])
  }

  function AddReply(db: Database, t: nat, c: nat, h: nat, r: Reply): Database
    requires t < |db.teams| && c < |db.teams[t].channels| && h < |db.teams[t].channels[c].threads|
  {
    var threads := db.teams[t].channels[c].threads;
    SetThreads(db, t, c, threads[h := threads[h].(replies := threads[h].replies + [r])])
  }

  /** The team of the context, if the client may create in it; otherwise the refusal. */
  function AccessibleTeam(db: Database, me: Client): (r: (Option<nat>, Frame))
    ensures r.0.Some? ==> r.0.value < |db.teams| && me.user in db.teams[r.0.value].subscribers
    ensures r.0.Some? ==> FindTeam(db, me.ctx.team) == r.0
  {
    match FindTeam(db, me.ctx.team)
    case None => (None, NotFound(me.ctx.team))
    case Some(t) => if me.user in db.teams[t].subscribers then (Some(t), OK) else (None, FORBIDDEN)
  }

  function CreateChannel(db: Database, clients: Clients, fd: int, args: seq<string>, id: string): Effect
    requires fd in clients
  {
    var me := clients[fd];
    var (team, refusal) := AccessibleTeam(db, me);
    if team.None? then Answer(db, me, fd, refusal)
    else if |args| < 3 || InvalidLength(args[1], MAX_NAME_LENGTH) || InvalidLength(args[2], MAX_DESCRIPTION_LENGTH) then
      Answer(db, me, fd, BAD_REQUEST)
    else
      var channels := db.teams[team.value].channels;
      if Index(ChannelNames(channels), args[1]).Some? then Answer(db, me, fd, ALREADY_EXISTS)
      else
        var db' := SetChannels(db, team.value, channels + [Channel(id, args[1], args[2], [])]);
        Effect(db', me.user, me.ctx,
               [To(fd, [Word("201"), Word("CREATED"), Word("CHANNEL"), Field(id), Field(args[1]), Field(args[2])])] +
               Notify(db', clients, me.ctx.team,
                      [Word("EVENT"), Word("CHANNEL_CREATED"), Field(id), Field(args[1]), Field(args[2])]))
  }

  function CreateThread(db: Database, clients: Clients, fd: int, args: seq<string>, id: string, now: int): Effect
    requires fd in clients
  {
    var me := clients[fd];
    var (team, refusal) := AccessibleTeam(db, me);
    if team.None? then Answer(db, me, fd, refusal)
    else match FindChannel(db, me.ctx.team, me.ctx.channel)
      case None => Answer(db, me, fd, NotFound(me.ctx.channel))
      case Some((t, c)) =>
        if |args| < 3 || InvalidLength(args[1], MAX_NAME_LENGTH) || InvalidLength(args[2], MAX_BODY_LENGTH) then
          Answer(db, me, fd, BAD_REQUEST)
        else
          var threads := db.teams[t].channels[c].threads;
          if Index(ThreadTitles(threads), args[1]).Some? then Answer(db, me, fd, ALREADY_EXISTS)
          else
            var db' := SetThreads(db, t, c, threads + [Thread(id, me.user, now, args[1], args[2], [])]);
            var fields := [Field(id), Field(me.user), Time(now), Field(args[1]), Field(args[2])];
            Effect(db', me.user, me.ctx,
                   [To(fd, [Word("201"), Word("CREATED"), Word("THREAD")] + fields)] +
                   Notify(db', clients, me.ctx.team, [Word("EVENT"), Word("THREAD_CREATED")] + fields))
  }

  function CreateReply(db: Database, clients: Clients, fd: int, args: seq<string>, id: string, now: int): Effect
    requires fd in clients
  {
    var me := clients[fd];
    var (team, refusal) := AccessibleTeam(db, me);
    if team.None? then Answer(db, me, fd, refusal)
    else if FindChannel(db, me.ctx.team, me.ctx.channel).None? then Answer(db, me, fd, NotFound(me.ctx.channel))
    else match FindThread(db, me.ctx.channel, me.ctx.thread)
      case None => Answer(db, me, fd, NotFound(me.ctx.thread))
      case Some((t, c, h)) =>
        if |args| < 2 || InvalidLength(args[1], MAX_BODY_LENGTH) then Answer(db, me, fd, BAD_REQUEST)
        else
          var db' := AddReply(db, t, c, h, Reply(id, me.user, now, args[1]));
          Effect(db', me.user, me.ctx,
                 [To(fd, [Word("201"), Word("CREATED"), Word("REPLY"), Field(me.ctx.thread), Field(me.user), Time(now),
                          Field(args[1])])] +
                 Notify(db', clients, me.ctx.team,
                        [Word("EVENT"), Word("REPLY_CREATED"), Field(me.ctx.team), Field(me.ctx.thread), Field(me.user),
                         Field(args[1])]))
  }

  function Create(db: Database, clients: Clients, fd: int, args: seq<string>, id: string, now: int): Effect
    requires fd in clients
  {
    var me := clients[fd];
    if me.user == "" then Answer(db, me, fd, UNAUTHORIZED)
    else if me.ctx.team == "" then CreateTeam(db, clients, fd, args, id)
    else if me.ctx.channel == "" then CreateChannel(db, clients, fd, args, id)
    else if me.ctx.thread == "" then CreateThread(db, clients, fd, args, id, now)
    else CreateReply(db, clients, fd, args, id, now)
  }

  // ---------------------------------------------------------------------------
  // Listing and information in context

  function ReplyLines(threadUuid: string, replies: seq<Reply>): (r: seq<Frame>)
    ensures |r| == |replies| && forall i :: 0 <= i < |replies| ==> r[i] == ReplyLine(threadUuid, replies[i])
  {
    seq(|replies|, i requires 0 <= i < |replies| => ReplyLine(threadUuid, replies[i]))
  }

  /** No context, or a context whose team exists and has the client as a subscriber. */
  function ContextRefusal(db: Database, me: Client): Option<Frame> {
    if me.user == "" then Some(UNAUTHORIZED)
    else if me.ctx.team == "" then None
    else match FindTeam(db, me.ctx.team)
      case None => Some(NotFoundKind("TEAM", me.ctx.team))
      case Some(t) => if me.user in db.teams[t].subscribers then None else Some(FORBIDDEN)
  }

  function ListHere(db: Database, clients: Clients, fd: int): Effect
    requires fd in clients
  {
    var me := clients[fd];
    var refusal := ContextRefusal(db, me);
    if refusal.Some? then Answer(db, me, fd, refusal.value)
    else if me.ctx.team == "" then AnswerList(db, me, fd, Teams, MapSeq(db.teams, TeamLine))
    else if me.ctx.channel == "" then
      match FindTeam(db, me.ctx.team)
      case None => Answer(db, me, fd, NotFoundKind("TEAM", me.ctx.team))
      case Some(t) => AnswerList(db, me, fd, Channels, MapSeq(db.teams[t].channels, ChannelLine))
    else if me.ctx.thread == "" then
      match FindChannel(db, me.ctx.team, me.ctx.channel)
      case None => Answer(db, me, fd, NotFoundKind("CHANNEL", me.ctx.channel))
      case Some((t, c)) => AnswerList(db, me, fd, Threads, MapSeq(db.teams[t].channels[c].threads, ThreadLine))
    else
      match FindThread(db, me.ctx.channel, me.ctx.thread)
      case None => Answer(db, me, fd, NotFoundKind("THREAD", me.ctx.thread))
      case Some((t, c, h)) =>
        var thread := db.teams[t].channels[c].threads[h];
        AnswerList(db, me, fd, Replies, ReplyLines(thread.uuid, thread.replies))
  }

  function Info(db: Database, clients: Clients, fd: int): Effect
    requires fd in clients
  {
    var me := clients[fd];
    var refusal := ContextRefusal(db, me);
    if refusal.Some? then Answer(db, me, fd, refusal.value)
    else if me.ctx.thread != "" then
      match FindThread(db, me.ctx.channel, me.ctx.thread)
      case None => Answer(db, me, fd, NotFoundKind("THREAD", me.ctx.thread))
      case Some((t, c, h)) =>
        var x := db.teams[t].channels[c].threads[h];
        Answer(db, me, fd, [Word("200"), Word("INFO"), Word("THREAD"), Field(x.uuid), Field(x.author), Time(x.timestamp),
                            Field(x.title), Field(x.body)])
    else if me.ctx.channel != "" then
      match FindChannel(db, me.ctx.team, me.ctx.channel)
      case None => Answer(db, me, fd, NotFoundKind("CHANNEL", me.ctx.channel))
      case Some((t, c)) =>
        var x := db.teams[t].channels[c];
        Answer(db, me, fd, [Word("200"), Word("INFO"), Word("CHANNEL"), Field(x.uuid), Field(x.name), Field(x.description)])
    else if me.ctx.team != "" then
      match FindTeam(db, me.ctx.team)
      case None => Answer(db, me, fd, NotFoundKind("TEAM", me.ctx.team))
      case Some(t) =>
        var x := db.teams[t];
        Answer(db, me, fd, [Word("200"), Word("INFO"), Word("TEAM"), Field(x.uuid), Field(x.name), Field(x.description)])
    else
      match FindUser(db, me.user)
      case None => Answer(db, me, fd, NotFoundKind("USER", me.user))
      case Some(i) =>
        var x := db.users[i];
        Answer(db, me, fd, [Word("200"), Word("INFO"), Word("USER"), Field(x.uuid), Field(x.name), Connected(x)])
  }

  // ---------------------------------------------------------------------------
  // Dispatch

  /** `id` and `now` are the identifier and the time that the command would draw. */
  function Execute(db: Database, clients: Clients, fd: int, args: seq<string>, id: string, now: int): Effect
    requires fd in clients
  {
    if args == [] then Effect(db, clients[fd].user, clients[fd].ctx, [])
    else if args[0] == "/create" then Create(db, clients, fd, args, id, now)
    else if args[0] == "/list" then ListHere(db, clients, fd)
    else if args[0] == "/use" then Use(db, clients, fd, args)
    else if args[0] == "/info" then Info(db, clients, fd)
    else if args[0] == "/subscribe" then SubscribeTo(db, clients, fd, args)
    else if args[0] == "/unsubscribe" then UnsubscribeFrom(db, clients, fd, args)
    else if args[0] == "/subscribed" then Subscribed(db, clients, fd, args)
    else if args[0] == "/login" then Login(db, clients, fd, args, id)
    else if args[0] == "/logout" then Logout(db, clients, fd)
    else if args[0] == "/send" then Send(db, clients, fd, args, now)
    else if args[0] == "/messages" then MessagesOf(db, clients, fd, args)
    else if args[0] == "/user" then UserInfo(db, clients, fd, args)
    else if args[0] == "/users" then ListUsers(db, clients, fd)
    else Effect(db, clients[fd].user, clients[fd].ctx, [])
  }
}
