/** Every frame a command queues is well-formed, and each client's share of them is well-bracketed. */
module FramesKeep {
  import opened Text
  import opened Numbers
  import opened Protocol
  import opened Model
  import opened Lookup
  import opened Commands
  import opened Delivery
  import opened Invariant
  import opened Preservation
  import opened CommandsKeep

  const MAX_TEXT: nat := 512

  predicate Short(s: string) {
    Normal(s) && |s| <= MAX_TEXT
  }

  predicate Compact(p: Part) {
    PartOk(p) && |p.text| <= MAX_TEXT
  }

  predicate IsStatus(w: string) {
    w == "200" || w == "201" || w == "400" || w == "401" || w == "403" || w == "404" || w == "409"
  }

  predicate IsNews(w: string) {
    w == "TEAM_CREATED" || w == "CHANNEL_CREATED" || w == "THREAD_CREATED" || w == "REPLY_CREATED" ||
    w == "USER_LOGGED_IN" || w == "USER_LOGGED_OUT" || w == "PRIVATE_MESSAGE"
  }

  /** A list frame, a status, one of the seven events, or one of the two lower-case ones. */
  predicate Titled(f: Frame)
    requires f != []
  {
    || IsListHead(f[0].text) || IsStatus(f[0].text)
    || (f[0].text == "EVENT" && |f| >= 2 && f[1].Word? && IsNews(f[1].text))
    || f[0].text == "user_subscribed" || f[0].text == "user_unsubscribed"
  }

  /** A well-formed frame of a few short parts, or a 404 answer, which echoes a text of any length. */
  predicate Sound(f: Frame) {
    FrameOk(f) && Titled(f) && (f[0].text == "404" || (|f| <= 8 && forall i :: 0 <= i < |f| ==> |f[i].text| <= MAX_TEXT))
  }

  predicate OutOk(out: Out) {
    Sound(out.frame)
  }

  /** Well-formed frames, none of them part of a list. */
  predicate Quiet(outs: seq<Out>) {
    forall i :: 0 <= i < |outs| ==> OutOk(outs[i]) && !IsListHead(outs[i].frame[0].text)
  }

  /** One list block for one client. */
  ghost predicate Listing(fd: int, outs: seq<Out>) {
    exists k: Kind, lines :: outs == ToEach(fd, ListBlock(k, lines)) && ListOk(lines)
  }

  predicate ListOk(lines: seq<Frame>) {
    forall i :: 0 <= i < |lines| ==> Sound(lines[i]) && lines[i][0] == Word("210")
  }

  /** What a command may queue. */
  ghost predicate OutsOk(fd: int, outs: seq<Out>) {
    Quiet(outs) || Listing(fd, outs)
  }

  // ---------------------------------------------------------------------------
  // From outputs to clients

  lemma {:induction false} QuietFor(f: int, outs: seq<Out>)
    requires Quiet(outs)
    ensures NoList(FramesFor(f, outs))
    ensures forall i :: 0 <= i < |FramesFor(f, outs)| ==> Sound(FramesFor(f, outs)[i])
    decreases |outs|
  {
    if outs != [] {
      assert Quiet(outs[1..]);
      QuietFor(f, outs[1..]);
      assert OutOk(outs[0]);
    }
  }

  lemma {:induction false} ToEachFor(fd: int, frames: seq<Frame>, f: int)
    ensures FramesFor(f, ToEach(fd, frames)) == if f == fd then frames else []
    decreases |frames|
  {
    if frames != [] {
      ToEachFor(fd, frames[1..], f);
      assert ToEach(fd, frames)[1..] == ToEach(fd, frames[1..]);
      assert frames == [frames[0]] + frames[1..];
    } else {
      assert ToEach(fd, frames) == [];
    }
  }

  lemma MarkersOk(k: Kind)
    ensures Sound(BeginFrame(k)) && Sound(EndFrame(k))
  {
  }

  /** Whatever a command queues, each client's share is a run of complete blocks and single frames. */
  lemma ShareBracketed(fd: int, outs: seq<Out>, f: int)
    requires OutsOk(fd, outs)
    ensures Bracketed(FramesFor(f, outs))
    ensures forall i :: 0 <= i < |FramesFor(f, outs)| ==> Sound(FramesFor(f, outs)[i])
  {
    if Quiet(outs) {
      QuietFor(f, outs);
      NoListStaysOutside(FramesFor(f, outs));
    } else {
      var k: Kind, lines :| outs == ToEach(fd, ListBlock(k, lines)) && ListOk(lines);
      ToEachFor(fd, ListBlock(k, lines), f);
      if f == fd {
        assert LinesOnly(lines);
        ListBlockBracketed(k, lines);
        MarkersOk(k);
      }
    }
  }

  // ---------------------------------------------------------------------------
  // Frames

  lemma StatusOk()
    ensures Sound(OK) && Sound(BAD_REQUEST) && Sound(UNAUTHORIZED) && Sound(FORBIDDEN) && Sound(ALREADY_EXISTS)
    ensures !IsListHead(OK[0].text) && !IsListHead(BAD_REQUEST[0].text) && !IsListHead(UNAUTHORIZED[0].text)
    ensures !IsListHead(FORBIDDEN[0].text) && !IsListHead(ALREADY_EXISTS[0].text)
  {
    OkFrame();
    BadRequestFrame();
    UnauthorizedFrame();
    ForbiddenFrame();
    ExistsFrame();
  }

  lemma OkFrame()
    ensures Plainly(OK)
  {
  }

  lemma BadRequestFrame()
    ensures Plainly(BAD_REQUEST)
  {
  }

  lemma UnauthorizedFrame()
    ensures Plainly(UNAUTHORIZED)
  {
  }

  lemma ForbiddenFrame()
    ensures Plainly(FORBIDDEN)
  {
  }

  lemma ExistsFrame()
    ensures Plainly(ALREADY_EXISTS)
  {
  }

  predicate Plainly(f: Frame) {
    Sound(f) && !IsListHead(f[0].text)
  }

  lemma NotFoundOk(what: string)
    requires Normal(what)
    ensures Plainly(NotFound(what))
    ensures Plainly(NotFoundKind("TEAM", what)) && Plainly(NotFoundKind("CHANNEL", what))
    ensures Plainly(NotFoundKind("THREAD", what)) && Plainly(NotFoundKind("USER", what))
  {
    NotFoundPlain(what);
    NotFoundKindOk("TEAM", what);
    NotFoundKindOk("CHANNEL", what);
    NotFoundKindOk("THREAD", what);
    NotFoundKindOk("USER", what);
  }

  lemma NotFoundPlain(what: string)
    requires Normal(what)
    ensures Plainly(NotFound(what))
  {
    NotFoundHeadOk();
  }

  lemma NotFoundHeadOk()
    ensures Compact(Word("404")) && Compact(Word("NOT_FOUND")) && !IsListHead("404")
  {
  }

  lemma NotFoundKindOk(kind: string, what: string)
    requires kind == "TEAM" || kind == "CHANNEL" || kind == "THREAD" || kind == "REPLY" || kind == "USER"
    requires Normal(what)
    ensures Plainly(NotFoundKind(kind, what))
  {
    NotFoundHeadOk();
    KindWordOk(kind);
  }

  lemma {:induction false} NatTextLength(n: nat, k: nat)
    requires 0 < k && n < Pow10(k)
    ensures |NatText(n)| <= k
    decreases k
  {
    if n >= 10 {
      NatTextLength(n / 10, k - 1);
    }
  }

  lemma TimeLength(t: int)
    requires TimeOk(t)
    ensures |IntText(t)| <= 17
  {
    assert Pow10(4) == 10_000;
    assert Pow10(8) == 100_000_000;
    assert Pow10(12) == 1_000_000_000_000;
    assert Pow10(16) == 10_000_000_000_000_000;
    NatTextLength(if t < 0 then -t else t, 16);
  }

  lemma TimePartOk(t: int)
    requires TimeOk(t)
    ensures Compact(Time(t))
  {
    TimeLength(t);
    var s := IntText(t);
    var digits := NatText(if t < 0 then -t else t);
    forall i | 0 <= i < |digits| ensures !IsSpace(digits[i]) {
      assert IsDigit(digits[i]);
    }
    forall i | 0 <= i < |s| ensures !IsSpace(s[i]) {
      if t < 0 && i > 0 { assert s[i] == digits[i - 1]; }
    }
    assert t >= 0 ==> IsDigit(s[0]);
  }

  lemma AnswerOk(db: Database, me: Client, fd: int, frame: Frame)
    requires Plainly(frame)
    ensures OutsOk(fd, Answer(db, me, fd, frame).outs)
  {
    assert Quiet(Answer(db, me, fd, frame).outs);
  }

  /** The answers that echo nothing. */
  lemma PlainAnswersOk(db: Database, me: Client, fd: int)
    ensures OutsOk(fd, Answer(db, me, fd, BAD_REQUEST).outs) && OutsOk(fd, Answer(db, me, fd, UNAUTHORIZED).outs)
    ensures OutsOk(fd, Answer(db, me, fd, FORBIDDEN).outs) && OutsOk(fd, Answer(db, me, fd, ALREADY_EXISTS).outs)
  {
    StatusOk();
    AnswerOk(db, me, fd, BAD_REQUEST);
    AnswerOk(db, me, fd, UNAUTHORIZED);
    AnswerOk(db, me, fd, FORBIDDEN);
    AnswerOk(db, me, fd, ALREADY_EXISTS);
  }

  lemma NotFoundAnswersOk(db: Database, me: Client, fd: int, what: string)
    requires Normal(what)
    ensures OutsOk(fd, Answer(db, me, fd, NotFound(what)).outs)
    ensures OutsOk(fd, Answer(db, me, fd, NotFoundKind("TEAM", what)).outs)
    ensures OutsOk(fd, Answer(db, me, fd, NotFoundKind("USER", what)).outs)
  {
    NotFoundOk(what);
    AnswerOk(db, me, fd, NotFound(what));
    AnswerOk(db, me, fd, NotFoundKind("TEAM", what));
    AnswerOk(db, me, fd, NotFoundKind("USER", what));
  }

  lemma AnswerListOk(db: Database, me: Client, fd: int, kind: Kind, lines: seq<Frame>)
    requires ListOk(lines)
    ensures OutsOk(fd, AnswerList(db, me, fd, kind, lines).outs)
  {
  }

  lemma LoginFramesOk(u: User)
    requires Short(u.uuid) && Short(u.name)
    ensures Plainly([Word("200"), Word("OK"), Raw(u.uuid), Raw(u.name)]) && Plainly(LoggedIn(u)) && Plainly(LoggedOut(u))
  {
    OkFrame();
    assert Compact(OK[0]) && Compact(OK[1]);
    SessionEvents();
  }

  lemma SessionEvents()
    ensures Compact(Word("EVENT")) && Compact(Word("USER_LOGGED_IN")) && Compact(Word("USER_LOGGED_OUT")) && !IsListHead("EVENT")
  {
  }

  lemma UserLineOk(u: User)
    requires UserOk(u)
    ensures Sound(UserLine(u)) && UserLine(u)[0] == Word("210")
  {
  }

  lemma TeamLineOk(users: seq<User>, t: Team)
    requires TeamOk(users, t)
    ensures Sound(TeamLine(t)) && TeamLine(t)[0] == Word("210")
  {
  }

  lemma ChannelLineOk(users: seq<User>, c: Channel)
    requires ChannelOk(users, c)
    ensures Sound(ChannelLine(c)) && ChannelLine(c)[0] == Word("210")
  {
  }

  lemma KnownNormal(users: seq<User>, u: string)
    requires UsersOk(users) && Known(users, u)
    ensures Short(u) && u != ""
  {
    var i :| 0 <= i < |users| && users[i].uuid == u;
    assert UserOk(users[i]);
  }

  lemma ThreadLineOk(users: seq<User>, t: Thread)
    requires UsersOk(users) && ThreadOk(users, t)
    ensures Sound(ThreadLine(t)) && ThreadLine(t)[0] == Word("210")
  {
    KnownNormal(users, t.author);
    TimePartOk(t.timestamp);
  }

  lemma ReplyLineOk(users: seq<User>, threadUuid: string, r: Reply)
    requires UsersOk(users) && Short(threadUuid) && ReplyOk(users, r)
    ensures Sound(ReplyLine(threadUuid, r)) && ReplyLine(threadUuid, r)[0] == Word("210")
  {
    KnownNormal(users, r.author);
    TimePartOk(r.timestamp);
  }

  lemma MessageLineOk(m: Message, a: string, b: string)
    requires Short(a) && Short(b) && MessageOk(m, a, b)
    ensures Sound(MessageLine(m)) && MessageLine(m)[0] == Word("210")
  {
    TimePartOk(m.timestamp);
  }

  // ---------------------------------------------------------------------------
  // Commands

  lemma LoginFrames(db: Database, clients: Clients, fd: int, args: seq<string>, id: string, now: int)
    requires Ready(db, clients, fd, args, id, now)
    ensures OutsOk(fd, Login(db, clients, fd, args, id).outs)
  {
    var me := clients[fd];
    PlainAnswersOk(db, me, fd);
    if |args| >= 2 && me.user == "" && !InvalidLength(args[1], MAX_NAME_LENGTH) {
      match FindUserByName(db, args[1])
      case None => EnterFrames(db, clients, fd, db.users + [User(id, args[1], 1, [], map[])], |db.users|);
      case Some(i) =>
        assert UserOk(db.users[i]);
        EnterFrames(db, clients, fd, db.users[i := db.users[i].(connections := db.users[i].connections + 1)], i);
    }
  }

  lemma EnterFrames(db: Database, clients: Clients, fd: int, users: seq<User>, i: nat)
    requires fd in clients && i < |users| && Short(users[i].uuid) && Short(users[i].name)
    ensures Quiet(Enter(db, clients, fd, users, i).outs)
  {
    LoginFramesOk(users[i]);
  }

  lemma ReleaseFrames(db: Database, user: string)
    requires DbOk(db) && Release(db, user).1.Some?
    ensures Plainly(LoggedOut(Release(db, user).1.value))
  {
    var i := FindUser(db, user).value;
    assert UserOk(db.users[i]);
    LoginFramesOk(Released(db.users[i]));
  }

  lemma LogoutFrames(db: Database, clients: Clients, fd: int)
    requires DbOk(db) && fd in clients
    ensures OutsOk(fd, Logout(db, clients, fd).outs)
  {
    PlainAnswersOk(db, clients[fd], fd);
    if Release(db, clients[fd].user).1.Some? {
      ReleaseFrames(db, clients[fd].user);
    }
  }

  lemma SendFrames(db: Database, clients: Clients, fd: int, args: seq<string>, id: string, now: int)
    requires Ready(db, clients, fd, args, id, now)
    ensures OutsOk(fd, Send(db, clients, fd, args, now).outs)
  {
    var me := clients[fd];
    PlainAnswersOk(db, me, fd);
    if |args| >= 3 {
      NotFoundAnswersOk(db, me, fd, args[1]);
      var s := FindUser(db, me.user);
      if s.Some? {
        assert UserOk(db.users[s.value]);
        if |args[2]| <= MAX_TEXT {
          SendQuiet(Sessions(clients, args[1]), fd, db.users[s.value].uuid, args[2]);
        }
      }
    }
  }

  lemma PrivateMessageOk(sender: string, body: string)
    requires Short(sender) && Short(body)
    ensures Plainly([Word("EVENT"), Word("PRIVATE_MESSAGE"), Field(sender), Field(body)])
  {
  }

  lemma SendQuiet(to: set<int>, fd: int, sender: string, body: string)
    requires Short(sender) && Short(body)
    ensures Quiet([Out(to, [Word("EVENT"), Word("PRIVATE_MESSAGE"), Field(sender), Field(body)]), To(fd, OK)])
  {
    PrivateMessageOk(sender, body);
    OkFrame();
  }

  lemma MessagesFrames(db: Database, clients: Clients, fd: int, args: seq<string>, id: string, now: int)
    requires Ready(db, clients, fd, args, id, now)
    ensures OutsOk(fd, MessagesOf(db, clients, fd, args).outs)
  {
    var me := clients[fd];
    PlainAnswersOk(db, me, fd);
    if |args| >= 2 {
      NotFoundAnswersOk(db, me, fd, args[1]);
      var s := FindUser(db, me.user);
      if s.Some? {
        var u := db.users[s.value];
        var lines := MapSeq(Conversation(u, args[1]), MessageLine);
        forall i | 0 <= i < |lines| ensures Sound(lines[i]) && lines[i][0] == Word("210") {
          assert ConversationOk(u.messages[args[1]], u.uuid, args[1]);
          assert UserOk(u);
          KnownNormal(db.users, args[1]);
          MessageLineOk(Conversation(u, args[1])[i], u.uuid, args[1]);
        }
        AnswerListOk(db, me, fd, Messages, lines);
      }
    }
  }

  lemma UsersFrames(db: Database, clients: Clients, fd: int)
    requires DbOk(db) && fd in clients
    ensures OutsOk(fd, ListUsers(db, clients, fd).outs)
  {
    var me := clients[fd];
    PlainAnswersOk(db, me, fd);
    var lines := MapSeq(db.users, UserLine);
    forall i | 0 <= i < |lines| ensures Sound(lines[i]) && lines[i][0] == Word("210") {
      UserLineOk(db.users[i]);
    }
    AnswerListOk(db, me, fd, Users, lines);
  }

  lemma UserInfoFrames(db: Database, clients: Clients, fd: int, args: seq<string>, id: string, now: int)
    requires Ready(db, clients, fd, args, id, now)
    ensures OutsOk(fd, UserInfo(db, clients, fd, args).outs)
  {
    var me := clients[fd];
    PlainAnswersOk(db, me, fd);
    if |args| >= 2 {
      NotFoundAnswersOk(db, me, fd, args[1]);
      if FindUser(db, args[1]).Some? {
        var u := db.users[FindUser(db, args[1]).value];
        UserStatusOk(u);
        AnswerOk(db, me, fd, [Word("200"), Word("USER"), Field(u.uuid), Field(u.name), Connected(u)]);
      }
    }
  }

  lemma UserStatusOk(u: User)
    requires UserOk(u)
    ensures Plainly([Word("200"), Word("USER"), Field(u.uuid), Field(u.name), Connected(u)])
    ensures Plainly([Word("200"), Word("INFO"), Word("USER"), Field(u.uuid), Field(u.name), Connected(u)])
  {
  }

  lemma NotifyQuiet(db: Database, clients: Clients, team: string, frame: Frame)
    requires Plainly(frame)
    ensures Quiet(Notify(db, clients, team, frame))
  {
  }

  lemma QuietJoin(a: seq<Out>, b: seq<Out>)
    requires Quiet(a) && Quiet(b)
    ensures Quiet(a + b)
  {
  }

  lemma SubscriptionFramesOk(team: string, user: string)
    requires Short(team) && Short(user)
    ensures Plainly([Word("user_subscribed"), Raw(team), Raw(user)]) && Plainly([Word("user_unsubscribed"), Raw(team), Raw(user)])
    ensures Plainly([Word("200"), Word("SUBSCRIBE"), Field(user), Field(team)])
    ensures Plainly([Word("200"), Word("UNSUBSCRIBE"), Field(user), Field(team)])
  {
    SubscriptionEvents();
    SubscriptionAnswers();
  }

  lemma SubscriptionEvents()
    ensures Compact(Word("user_subscribed")) && Compact(Word("user_unsubscribed"))
    ensures !IsListHead("user_subscribed") && !IsListHead("user_unsubscribed")
  {
  }

  lemma SubscriptionAnswers()
    ensures Compact(Word("200")) && Compact(Word("SUBSCRIBE")) && Compact(Word("UNSUBSCRIBE")) && !IsListHead("200")
  {
  }

  lemma TeamIdShort(db: Database, team: string)
    requires DbOk(db) && FindTeam(db, team).Some?
    ensures Short(team)
  {
    assert TeamOk(db.users, db.teams[FindTeam(db, team).value]);
  }

  lemma SubscribeFrames(db: Database, clients: Clients, fd: int, args: seq<string>, id: string, now: int)
    requires Ready(db, clients, fd, args, id, now)
    ensures OutsOk(fd, SubscribeTo(db, clients, fd, args).outs)
  {
    var me := clients[fd];
    PlainAnswersOk(db, me, fd);
    if me.user != "" && |args| >= 2 {
      assert SessionOk(db, me);
      KnownNormal(db.users, me.user);
      NotFoundAnswersOk(db, me, fd, args[1]);
      if FindTeam(db, args[1]).Some? {
        var t := FindTeam(db, args[1]).value;
        TeamIdShort(db, args[1]);
        SubscriptionFramesOk(args[1], me.user);
        var done := [Word("200"), Word("SUBSCRIBE"), Field(me.user), Field(args[1])];
        AnswerOk(db, me, fd, done);
        var db' := SetSubscribers(db, t, Subscribe(db.teams[t].subscribers, me.user));
        var event := [Word("user_subscribed"), Raw(args[1]), Raw(me.user)];
        NotifyQuiet(db', clients, args[1], event);
        QuietJoin(Notify(db', clients, args[1], event), [To(fd, done)]);
      }
    }
  }

  lemma UnsubscribeFrames(db: Database, clients: Clients, fd: int, args: seq<string>, id: string, now: int)
    requires Ready(db, clients, fd, args, id, now)
    ensures OutsOk(fd, UnsubscribeFrom(db, clients, fd, args).outs)
  {
    var me := clients[fd];
    PlainAnswersOk(db, me, fd);
    if me.user != "" && |args| >= 2 {
      assert SessionOk(db, me);
      KnownNormal(db.users, me.user);
      NotFoundAnswersOk(db, me, fd, args[1]);
      if FindTeam(db, args[1]).Some? {
        var t := FindTeam(db, args[1]).value;
        TeamIdShort(db, args[1]);
        SubscriptionFramesOk(args[1], me.user);
        var done := [Word("200"), Word("UNSUBSCRIBE"), Field(me.user), Field(args[1])];
        var db' := SetSubscribers(db, t, Without(db.teams[t].subscribers, me.user));
        var event := [Word("user_unsubscribed"), Raw(args[1]), Raw(me.user)];
        NotifyQuiet(db', clients, args[1], event);
        QuietJoin(Notify(db', clients, args[1], event), [To(fd, done)]);
      }
    }
  }

  lemma {:induction false} SubscribedTeamsOk(users: seq<User>, teams: seq<Team>, user: string)
    requires forall i :: 0 <= i < |teams| ==> TeamOk(users, teams[i])
    ensures ListOk(SubscribedTeams(teams, user))
    decreases |teams|
  {
    if teams != [] {
      TeamLineOk(users, teams[0]);
      SubscribedTeamsOk(users, teams[1..], user);
    }
  }

  lemma {:induction false} SubscriberLinesOk(db: Database, subs: seq<string>)
    requires DbOk(db)
    ensures ListOk(SubscriberLines(db, subs))
    decreases |subs|
  {
    if subs != [] {
      SubscriberLinesOk(db, subs[1..]);
      if FindUser(db, subs[0]).Some? {
        UserLineOk(db.users[FindUser(db, subs[0]).value]);
      }
    }
  }

  lemma SubscribedFrames(db: Database, clients: Clients, fd: int, args: seq<string>, id: string, now: int)
    requires Ready(db, clients, fd, args, id, now)
    ensures OutsOk(fd, Subscribed(db, clients, fd, args).outs)
  {
    var me := clients[fd];
    PlainAnswersOk(db, me, fd);
    SubscribedTeamsOk(db.users, db.teams, me.user);
    AnswerListOk(db, me, fd, Teams, SubscribedTeams(db.teams, me.user));
    if |args| >= 2 {
      NotFoundAnswersOk(db, me, fd, args[1]);
      if FindTeam(db, args[1]).Some? {
        var subs := db.teams[FindTeam(db, args[1]).value].subscribers;
        SubscriberLinesOk(db, subs);
        AnswerListOk(db, me, fd, Users, SubscriberLines(db, subs));
      }
    }
  }

  predicate AllPlainly(frames: seq<Frame>) {
    forall i :: 0 <= i < |frames| ==> Plainly(frames[i])
  }

  lemma EachQuiet(fd: int, frames: seq<Frame>)
    requires AllPlainly(frames)
    ensures Quiet(ToEach(fd, frames))
  {
  }

  lemma UseThreadFrames(db: Database, me: Client, fd: int, args: seq<string>, sent: seq<Frame>)
    requires 3 <= |args| && ArgsOk(args) && AllPlainly(sent)
    ensures Quiet(UseThread(db, me, fd, args, sent).outs)
  {
    EachQuiet(fd, sent);
    if |args| >= 4 {
      OkFrame();
      NotFoundKindOk("THREAD", args[3]);
      EachQuiet(fd, sent + [OK]);
      EachQuiet(fd, sent + [NotFoundKind("THREAD", args[3])]);
    }
  }

  lemma UseChannelFrames(db: Database, me: Client, fd: int, args: seq<string>, sent: seq<Frame>)
    requires 2 <= |args| && ArgsOk(args) && AllPlainly(sent)
    ensures Quiet(UseChannel(db, me, fd, args, sent).outs)
  {
    EachQuiet(fd, sent);
    if |args| >= 3 {
      OkFrame();
      NotFoundKindOk("CHANNEL", args[2]);
      EachQuiet(fd, sent + [NotFoundKind("CHANNEL", args[2])]);
      UseThreadFrames(db, me, fd, args, sent + [OK]);
    }
  }

  lemma UseFrames(db: Database, clients: Clients, fd: int, args: seq<string>)
    requires fd in clients && ArgsOk(args)
    ensures OutsOk(fd, Use(db, clients, fd, args).outs)
  {
    var me := clients[fd];
    PlainAnswersOk(db, me, fd);
    OkFrame();
    EachQuiet(fd, [OK]);
    if |args| >= 2 {
      NotFoundAnswersOk(db, me, fd, args[1]);
      UseChannelFrames(db, me, fd, args, [OK]);
    }
  }

  lemma RefusalOk(db: Database, me: Client)
    requires DbOk(db) && SessionOk(db, me)
    ensures AccessibleTeam(db, me).0.None? ==> Plainly(AccessibleTeam(db, me).1)
    ensures ContextRefusal(db, me).Some? ==> Plainly(ContextRefusal(db, me).value)
  {
    ForbiddenFrame();
    UnauthorizedFrame();
    CtxNormal(db, me.ctx);
    NotFoundPlain(me.ctx.team);
    NotFoundKindOk("TEAM", me.ctx.team);
  }

  lemma CreatedFramesOk(kind: string, event: string, fields: seq<Part>)
    requires kind == "TEAM" || kind == "CHANNEL" || kind == "THREAD" || kind == "REPLY"
    requires event == "TEAM_CREATED" || event == "CHANNEL_CREATED" || event == "THREAD_CREATED" || event == "REPLY_CREATED"
    requires |fields| <= 5 && forall i :: 0 <= i < |fields| ==> Compact(fields[i])
    ensures Plainly([Word("201"), Word("CREATED"), Word(kind)] + fields) && Plainly([Word("EVENT"), Word(event)] + fields)
  {
    KindWordOk(kind);
    EventWordOk(event);
    HeadsOk();
    PartsOkAppend([Word("201"), Word("CREATED"), Word(kind)], fields);
    PartsOkAppend([Word("EVENT"), Word(event)], fields);
  }

  lemma KindWordOk(kind: string)
    requires kind == "TEAM" || kind == "CHANNEL" || kind == "THREAD" || kind == "REPLY" || kind == "USER"
    ensures Compact(Word(kind))
  {
  }

  lemma EventWordOk(event: string)
    requires event == "TEAM_CREATED" || event == "CHANNEL_CREATED" || event == "THREAD_CREATED" || event == "REPLY_CREATED"
    ensures Compact(Word(event))
  {
  }

  lemma HeadsOk()
    ensures Compact(Word("201")) && Compact(Word("CREATED")) && Compact(Word("EVENT"))
    ensures !IsListHead("201") && !IsListHead("EVENT")
  {
  }

  lemma PartsOkAppend(a: seq<Part>, b: seq<Part>)
    requires forall i :: 0 <= i < |a| ==> Compact(a[i])
    requires forall i :: 0 <= i < |b| ==> Compact(b[i])
    ensures forall i :: 0 <= i < |a + b| ==> Compact((a + b)[i])
  {
  }

  lemma CreateTeamFrames(db: Database, clients: Clients, fd: int, args: seq<string>, id: string, now: int)
    requires Ready(db, clients, fd, args, id, now)
    ensures OutsOk(fd, CreateTeam(db, clients, fd, args, id).outs)
  {
    PlainAnswersOk(db, clients[fd], fd);
    if |args| >= 3 && |args[1]| <= MAX_TEXT && |args[2]| <= MAX_TEXT {
      var fields := [Field(id), Field(args[1]), Field(args[2])];
      CreatedFramesOk("TEAM", "TEAM_CREATED", fields);
      var a, b := [Word("201"), Word("CREATED"), Word("TEAM")] + fields, [Word("EVENT"), Word("TEAM_CREATED")] + fields;
      assert a == [Word("201"), Word("CREATED"), Word("TEAM"), Field(id), Field(args[1]), Field(args[2])];
      assert b == [Word("EVENT"), Word("TEAM_CREATED"), Field(id), Field(args[1]), Field(args[2])];
      assert Quiet([To(fd, a), ToAll(clients, b)]);
    }
  }

  lemma CreateChannelFrames(db: Database, clients: Clients, fd: int, args: seq<string>, id: string, now: int)
    requires Ready(db, clients, fd, args, id, now)
    ensures OutsOk(fd, CreateChannel(db, clients, fd, args, id).outs)
  {
    var me := clients[fd];
    assert SessionOk(db, me);
    RefusalOk(db, me);
    PlainAnswersOk(db, me, fd);
    var (team, refusal) := AccessibleTeam(db, me);
    if team.None? {
      AnswerOk(db, me, fd, refusal);
    } else if |args| >= 3 && |args[1]| <= MAX_TEXT && |args[2]| <= MAX_TEXT {
      var fields := [Field(id), Field(args[1]), Field(args[2])];
      CreatedFramesOk("CHANNEL", "CHANNEL_CREATED", fields);
      var a, b := [Word("201"), Word("CREATED"), Word("CHANNEL")] + fields, [Word("EVENT"), Word("CHANNEL_CREATED")] + fields;
      assert a == [Word("201"), Word("CREATED"), Word("CHANNEL"), Field(id), Field(args[1]), Field(args[2])];
      assert b == [Word("EVENT"), Word("CHANNEL_CREATED"), Field(id), Field(args[1]), Field(args[2])];
      var db' := SetChannels(db, team.value, db.teams[team.value].channels + [Channel(id, args[1], args[2], [])]);
      NotifyQuiet(db', clients, me.ctx.team, b);
      QuietJoin([To(fd, a)], Notify(db', clients, me.ctx.team, b));
    }
  }

  lemma CreateThreadFrames(db: Database, clients: Clients, fd: int, args: seq<string>, id: string, now: int)
    requires Ready(db, clients, fd, args, id, now) && clients[fd].user != ""
    ensures OutsOk(fd, CreateThread(db, clients, fd, args, id, now).outs)
  {
    var me := clients[fd];
    assert SessionOk(db, me);
    ContextRefusals(db, me, fd);
    if AccessibleTeam(db, me).0.Some? && FindChannel(db, me.ctx.team, me.ctx.channel).Some?
       && |args| >= 3 && |args[1]| <= MAX_TEXT && |args[2]| <= MAX_TEXT {
      ThreadCreatedFrames(db, clients, fd, args, id, now);
    }
  }

  lemma ThreadCreatedFrames(db: Database, clients: Clients, fd: int, args: seq<string>, id: string, now: int)
    requires Ready(db, clients, fd, args, id, now) && clients[fd].user != "" && |args| >= 3
    requires FindChannel(db, clients[fd].ctx.team, clients[fd].ctx.channel).Some? && |args[1]| <= MAX_TEXT && |args[2]| <= MAX_TEXT
    ensures var me := clients[fd];
            var (t, c) := FindChannel(db, me.ctx.team, me.ctx.channel).value;
            var db' := SetThreads(db, t, c, db.teams[t].channels[c].threads + [Thread(id, me.user, now, args[1], args[2], [])]);
            var fields := [Field(id), Field(me.user), Time(now), Field(args[1]), Field(args[2])];
            Quiet([To(fd, [Word("201"), Word("CREATED"), Word("THREAD")] + fields)] +
                  Notify(db', clients, me.ctx.team, [Word("EVENT"), Word("THREAD_CREATED")] + fields))
  {
    var me := clients[fd];
    assert SessionOk(db, me);
    KnownNormal(db.users, me.user);
    var (t, c) := FindChannel(db, me.ctx.team, me.ctx.channel).value;
    var db' := SetThreads(db, t, c, db.teams[t].channels[c].threads + [Thread(id, me.user, now, args[1], args[2], [])]);
    ThreadCreatedQuiet(db', clients, fd, [Field(id), Field(me.user), Time(now), Field(args[1]), Field(args[2])], now);
  }

  lemma ThreadCreatedQuiet(db': Database, clients: Clients, fd: int, fields: seq<Part>, now: int)
    requires fd in clients && |fields| == 5 && fields[2] == Time(now) && TimeOk(now)
    requires forall i :: 0 <= i < 5 && i != 2 ==> Compact(fields[i])
    ensures Quiet([To(fd, [Word("201"), Word("CREATED"), Word("THREAD")] + fields)] +
                  Notify(db', clients, clients[fd].ctx.team, [Word("EVENT"), Word("THREAD_CREATED")] + fields))
  {
    TimePartOk(now);
    CreatedFramesOk("THREAD", "THREAD_CREATED", fields);
    var a, b := [Word("201"), Word("CREATED"), Word("THREAD")] + fields, [Word("EVENT"), Word("THREAD_CREATED")] + fields;
    NotifyQuiet(db', clients, clients[fd].ctx.team, b);
    QuietJoin([To(fd, a)], Notify(db', clients, clients[fd].ctx.team, b));
  }

  lemma ReplyFramesOk(team: string, thread: string, user: string, now: int, body: string)
    requires Short(team) && Short(thread) && Short(user) && Short(body) && TimeOk(now)
    ensures Plainly([Word("201"), Word("CREATED"), Word("REPLY"), Field(thread), Field(user), Time(now), Field(body)])
    ensures Plainly([Word("EVENT"), Word("REPLY_CREATED"), Field(team), Field(thread), Field(user), Field(body)])
  {
    TimePartOk(now);
  }

  lemma CreateReplyFrames(db: Database, clients: Clients, fd: int, args: seq<string>, id: string, now: int)
    requires Ready(db, clients, fd, args, id, now) && clients[fd].user != ""
    ensures OutsOk(fd, CreateReply(db, clients, fd, args, id, now).outs)
  {
    var me := clients[fd];
    assert SessionOk(db, me);
    ContextRefusals(db, me, fd);
    var thread := FindThread(db, me.ctx.channel, me.ctx.thread);
    if AccessibleTeam(db, me).0.Some? && thread.Some? && |args| >= 2 && |args[1]| <= MAX_TEXT {
      CtxNormal(db, me.ctx);
      KnownNormal(db.users, me.user);
      var (t, c, h) := thread.value;
      ReplyCreatedQuiet(AddReply(db, t, c, h, Reply(id, me.user, now, args[1])), clients, fd, me.ctx.team, me.ctx.thread, me.user, now, args[1]);
    }
  }

  lemma ContextRefusals(db: Database, me: Client, fd: int)
    requires DbOk(db) && SessionOk(db, me)
    ensures OutsOk(fd, Answer(db, me, fd, BAD_REQUEST).outs) && OutsOk(fd, Answer(db, me, fd, ALREADY_EXISTS).outs)
    ensures OutsOk(fd, Answer(db, me, fd, NotFound(me.ctx.channel)).outs) && OutsOk(fd, Answer(db, me, fd, NotFound(me.ctx.thread)).outs)
    ensures AccessibleTeam(db, me).0.None? ==> OutsOk(fd, Answer(db, me, fd, AccessibleTeam(db, me).1).outs)
  {
    RefusalOk(db, me);
    CtxNormal(db, me.ctx);
    NotFoundOk(me.ctx.channel);
    NotFoundOk(me.ctx.thread);
    PlainAnswersOk(db, me, fd);
    AnswerOk(db, me, fd, NotFound(me.ctx.channel));
    AnswerOk(db, me, fd, NotFound(me.ctx.thread));
    if AccessibleTeam(db, me).0.None? {
      AnswerOk(db, me, fd, AccessibleTeam(db, me).1);
    }
  }

  lemma ReplyCreatedQuiet(db': Database, clients: Clients, fd: int, team: string, thread: string, user: string, now: int, body: string)
    requires Short(team) && Short(thread) && Short(user) && Short(body) && TimeOk(now)
    ensures Quiet([To(fd, [Word("201"), Word("CREATED"), Word("REPLY"), Field(thread), Field(user), Time(now), Field(body)])] +
                  Notify(db', clients, team, [Word("EVENT"), Word("REPLY_CREATED"), Field(team), Field(thread), Field(user), Field(body)]))
  {
    ReplyFramesOk(team, thread, user, now, body);
    var a := [Word("201"), Word("CREATED"), Word("REPLY"), Field(thread), Field(user), Time(now), Field(body)];
    var b := [Word("EVENT"), Word("REPLY_CREATED"), Field(team), Field(thread), Field(user), Field(body)];
    NotifyQuiet(db', clients, team, b);
    QuietJoin([To(fd, a)], Notify(db', clients, team, b));
  }

  lemma CreateFrames(db: Database, clients: Clients, fd: int, args: seq<string>, id: string, now: int)
    requires Ready(db, clients, fd, args, id, now)
    ensures OutsOk(fd, Create(db, clients, fd, args, id, now).outs)
  {
    var me := clients[fd];
    if me.user == "" {
      StatusOk();
      AnswerOk(db, me, fd, UNAUTHORIZED);
    } else if me.ctx.team == "" {
      CreateTeamFrames(db, clients, fd, args, id, now);
    } else if me.ctx.channel == "" {
      CreateChannelFrames(db, clients, fd, args, id, now);
    } else if me.ctx.thread == "" {
      CreateThreadFrames(db, clients, fd, args, id, now);
    } else {
      CreateReplyFrames(db, clients, fd, args, id, now);
    }
  }

  lemma TeamLinesOk(db: Database)
    requires DbOk(db)
    ensures ListOk(MapSeq(db.teams, TeamLine))
  {
    var lines := MapSeq(db.teams, TeamLine);
    forall i | 0 <= i < |lines| ensures Sound(lines[i]) && lines[i][0] == Word("210") {
      TeamLineOk(db.users, db.teams[i]);
    }
  }

  lemma ChannelLinesOk(db: Database, t: nat)
    requires DbOk(db) && t < |db.teams|
    ensures ListOk(MapSeq(db.teams[t].channels, ChannelLine))
  {
    assert TeamOk(db.users, db.teams[t]);
    var lines := MapSeq(db.teams[t].channels, ChannelLine);
    forall i | 0 <= i < |lines| ensures Sound(lines[i]) && lines[i][0] == Word("210") {
      ChannelLineOk(db.users, db.teams[t].channels[i]);
    }
  }

  lemma ThreadLinesOk(db: Database, t: nat, c: nat)
    requires DbOk(db) && t < |db.teams| && c < |db.teams[t].channels|
    ensures ListOk(MapSeq(db.teams[t].channels[c].threads, ThreadLine))
  {
    assert TeamOk(db.users, db.teams[t]);
    assert ChannelOk(db.users, db.teams[t].channels[c]);
    var lines := MapSeq(db.teams[t].channels[c].threads, ThreadLine);
    forall i | 0 <= i < |lines| ensures Sound(lines[i]) && lines[i][0] == Word("210") {
      ThreadLineOk(db.users, db.teams[t].channels[c].threads[i]);
    }
  }

  lemma ReplyLinesOk(db: Database, t: nat, c: nat, h: nat)
    requires DbOk(db) && t < |db.teams| && c < |db.teams[t].channels| && h < |db.teams[t].channels[c].threads|
    ensures var thread := db.teams[t].channels[c].threads[h]; ListOk(ReplyLines(thread.uuid, thread.replies))
  {
    assert TeamOk(db.users, db.teams[t]);
    assert ChannelOk(db.users, db.teams[t].channels[c]);
    var thread := db.teams[t].channels[c].threads[h];
    assert ThreadOk(db.users, thread);
    var lines := ReplyLines(thread.uuid, thread.replies);
    forall i | 0 <= i < |lines| ensures Sound(lines[i]) && lines[i][0] == Word("210") {
      ReplyLineOk(db.users, thread.uuid, thread.replies[i]);
    }
  }

  lemma ListFrames(db: Database, clients: Clients, fd: int)
    requires DbOk(db) && fd in clients && SessionOk(db, clients[fd])
    ensures OutsOk(fd, ListHere(db, clients, fd).outs)
  {
    var me := clients[fd];
    RefusalOk(db, me);
    CtxNormal(db, me.ctx);
    var refusal := ContextRefusal(db, me);
    if refusal.Some? {
      AnswerOk(db, me, fd, refusal.value);
    } else if me.ctx.team == "" {
      TeamLinesOk(db);
      AnswerListOk(db, me, fd, Teams, MapSeq(db.teams, TeamLine));
    } else if me.ctx.channel == "" {
      var t := FindTeam(db, me.ctx.team).value;
      ChannelLinesOk(db, t);
      AnswerListOk(db, me, fd, Channels, MapSeq(db.teams[t].channels, ChannelLine));
    } else if me.ctx.thread == "" {
      var (t, c) := FindChannel(db, me.ctx.team, me.ctx.channel).value;
      ThreadLinesOk(db, t, c);
      AnswerListOk(db, me, fd, Threads, MapSeq(db.teams[t].channels[c].threads, ThreadLine));
    } else {
      var (t, c, h) := FindThread(db, me.ctx.channel, me.ctx.thread).value;
      var thread := db.teams[t].channels[c].threads[h];
      ReplyLinesOk(db, t, c, h);
      AnswerListOk(db, me, fd, Replies, ReplyLines(thread.uuid, thread.replies));
    }
  }

  lemma InfoFieldsOk(kind: string, fields: seq<Part>)
    requires kind == "TEAM" || kind == "CHANNEL" || kind == "THREAD"
    requires |fields| <= 5 && forall i :: 0 <= i < |fields| ==> Compact(fields[i])
    ensures Plainly([Word("200"), Word("INFO"), Word(kind)] + fields)
  {
    var a := [Word("200"), Word("INFO"), Word(kind)];
    assert forall i :: 0 <= i < 3 ==> Compact(a[i]);
    forall i | 0 <= i < |a + fields| ensures Compact((a + fields)[i]) {
      if i >= 3 { assert (a + fields)[i] == fields[i - 3]; }
    }
  }

  lemma ThreadInfoOk(db: Database, t: nat, c: nat, h: nat)
    requires DbOk(db) && t < |db.teams| && c < |db.teams[t].channels| && h < |db.teams[t].channels[c].threads|
    ensures var x := db.teams[t].channels[c].threads[h];
            Plainly([Word("200"), Word("INFO"), Word("THREAD"), Field(x.uuid), Field(x.author), Time(x.timestamp),
                     Field(x.title), Field(x.body)])
  {
    assert TeamOk(db.users, db.teams[t]);
    assert ChannelOk(db.users, db.teams[t].channels[c]);
    var x := db.teams[t].channels[c].threads[h];
    assert ThreadOk(db.users, x);
    KnownNormal(db.users, x.author);
    TimePartOk(x.timestamp);
    var fields := [Field(x.uuid), Field(x.author), Time(x.timestamp), Field(x.title), Field(x.body)];
    InfoFieldsOk("THREAD", fields);
    assert [Word("200"), Word("INFO"), Word("THREAD")] + fields ==
           [Word("200"), Word("INFO"), Word("THREAD"), Field(x.uuid), Field(x.author), Time(x.timestamp), Field(x.title), Field(x.body)];
  }

  lemma NamedInfoOk(kind: string, a: string, b: string, c: string)
    requires kind == "TEAM" || kind == "CHANNEL"
    requires Short(a) && Short(b) && Short(c)
    ensures Plainly([Word("200"), Word("INFO"), Word(kind), Field(a), Field(b), Field(c)])
  {
  }

  lemma InfoFrames(db: Database, clients: Clients, fd: int)
    requires DbOk(db) && fd in clients && SessionOk(db, clients[fd])
    ensures OutsOk(fd, Info(db, clients, fd).outs)
  {
    var me := clients[fd];
    RefusalOk(db, me);
    var refusal := ContextRefusal(db, me);
    if refusal.Some? {
      AnswerOk(db, me, fd, refusal.value);
    } else if me.ctx.thread != "" {
      var (t, c, h) := FindThread(db, me.ctx.channel, me.ctx.thread).value;
      ThreadInfoOk(db, t, c, h);
    } else if me.ctx.channel != "" {
      var (t, c) := FindChannel(db, me.ctx.team, me.ctx.channel).value;
      assert TeamOk(db.users, db.teams[t]);
      var x := db.teams[t].channels[c];
      assert ChannelOk(db.users, x);
      NamedInfoOk("CHANNEL", x.uuid, x.name, x.description);
    } else if me.ctx.team != "" {
      var x := db.teams[FindTeam(db, me.ctx.team).value];
      assert TeamOk(db.users, x);
      NamedInfoOk("TEAM", x.uuid, x.name, x.description);
    } else {
      FindUserKnown(db, me.user);
      UserStatusOk(db.users[FindUser(db, me.user).value]);
    }
  }

  /** Every command queues well-formed frames: single frames, or one list block for the requester alone. */
  lemma ExecuteFrames(db: Database, clients: Clients, fd: int, args: seq<string>, id: string, now: int)
    requires Ready(db, clients, fd, args, id, now)
    ensures OutsOk(fd, Execute(db, clients, fd, args, id, now).outs)
  {
    assert SessionOk(db, clients[fd]);
    if args == [] {
    } else if args[0] == "/create" {
      CreateFrames(db, clients, fd, args, id, now);
    } else if args[0] == "/list" {
      ListFrames(db, clients, fd);
    } else if args[0] == "/use" {
      UseFrames(db, clients, fd, args);
    } else if args[0] == "/info" {
      InfoFrames(db, clients, fd);
    } else if args[0] == "/subscribe" {
      SubscribeFrames(db, clients, fd, args, id, now);
    } else if args[0] == "/unsubscribe" {
      UnsubscribeFrames(db, clients, fd, args, id, now);
    } else if args[0] == "/subscribed" {
      SubscribedFrames(db, clients, fd, args, id, now);
    } else if args[0] == "/login" {
      LoginFrames(db, clients, fd, args, id, now);
    } else if args[0] == "/logout" {
      LogoutFrames(db, clients, fd);
    } else if args[0] == "/send" {
      SendFrames(db, clients, fd, args, id, now);
    } else if args[0] == "/messages" {
      MessagesFrames(db, clients, fd, args, id, now);
    } else if args[0] == "/user" {
      UserInfoFrames(db, clients, fd, args, id, now);
    } else if args[0] == "/users" {
      UsersFrames(db, clients, fd);
    }
  }
}
