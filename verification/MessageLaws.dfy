/** What `/send`, `/messages`, `/users` and `/user` do, frame by frame. */
module MessageLaws {
  import opened Text
  import opened Numbers
  import opened Protocol
  import opened Model
  import opened Lookup
  import opened Commands
  import opened Delivery
  import opened Invariant
  import opened Guarantees
  import opened Outcomes

  // ---------------------------------------------------------------------------
  // Sending

  /** The arguments of `/send` are refused: too few, no receiver, no text, or too long a text. */
  predicate BadSend(args: seq<string>) {
    |args| < 3 || args[1] == "" || args[2] == "" || |args[2]| > 512
  }

  /** The arguments are checked first, then the sender, then the receiver; a refusal changes nothing. */
  lemma SendRefused(db: Database, clients: Clients, fd: int, args: seq<string>, id: string, now: int)
    requires fd in clients && args != [] && args[0] == "/send"
    ensures var e, me := Execute(db, clients, fd, args, id, now), clients[fd];
            && (BadSend(args) ==> Only(db, me, fd, e, [[Word("400"), Word("BAD_REQUEST")]]))
            && (!BadSend(args) && !Known(db.users, me.user) ==> Only(db, me, fd, e, [[Word("401"), Word("UNAUTHORIZED")]]))
            && (!BadSend(args) && Known(db.users, me.user) && !Known(db.users, args[1]) ==>
                  Only(db, me, fd, e, [[Word("404"), Word("NOT_FOUND"), Word("USER"), Field(args[1])]]))
  {
    var me := clients[fd];
    Dispatched(db, clients, fd, args, id, now);
    FindUserKnown(db, me.user);
    AnswerTells(db, me, fd, BAD_REQUEST);
    AnswerTells(db, me, fd, UNAUTHORIZED);
    if !BadSend(args) {
      FindUserKnown(db, args[1]);
      AnswerTells(db, me, fd, NotFoundKind("USER", args[1]));
    }
  }

  /** Each conversation holds what it held, and at its end the message, once for each end that it has here. */
  ghost predicate Stored(before: seq<User>, after: seq<User>, s: nat, r: nat, m: Message)
    requires s < |before| && r < |before|
  {
    && |after| == |before|
    && (forall i {:trigger after[i]} :: 0 <= i < |before| ==> after[i] == before[i].(messages := after[i].messages))
    && forall i, k {:trigger Conversation(after[i], k)} :: 0 <= i < |before| ==>
         Conversation(after[i], k) == Conversation(before[i], k) + (if i == s && k == before[r].uuid then [m] else [])
                                                                 + (if i == r && k == before[s].uuid then [m] else [])
  }

  lemma StoreMessageStores(users: seq<User>, s: nat, r: nat, m: Message)
    requires UsersOk(users) && s < |users| && r < |users|
    ensures Stored(users, StoreMessage(users, s, r, m), s, r, m)
  {
    forall i, k | 0 <= i < |users|
      ensures Conversation(StoreMessage(users, s, r, m)[i], k) ==
              Conversation(users[i], k) + (if i == s && k == users[r].uuid then [m] else [])
                                        + (if i == r && k == users[s].uuid then [m] else [])
    {
      StoreMessageEndsBoth(users, s, r, m, i, k);
    }
  }

  /**
    A message is stored at the end of the sender's and of the receiver's conversation (twice when they
    are the same) and nothing else changes; every client of the receiver is told, then the sender is answered.
  */
  lemma SendDelivers(db: Database, clients: Clients, fd: int, args: seq<string>, id: string, now: int, s: nat, r: nat)
    requires DbOk(db) && fd in clients && args != [] && args[0] == "/send" && !BadSend(args)
    requires s < |db.users| && db.users[s].uuid == clients[fd].user
    requires r < |db.users| && db.users[r].uuid == args[1]
    ensures var e, me := Execute(db, clients, fd, args, id, now), clients[fd];
            && Stored(db.users, e.db.users, s, r, Message(me.user, args[1], now, args[2]))
            && e.db.teams == db.teams && e.user == me.user && e.ctx == me.ctx
            && forall f :: FramesFor(f, e.outs) ==
                 (if f in clients && clients[f].user == args[1]
                  then [[Word("EVENT"), Word("PRIVATE_MESSAGE"), Field(me.user), Field(args[2])]] else []) +
                 (if f == fd then [[Word("200"), Word("OK")]] else [])
  {
    var e, me := Execute(db, clients, fd, args, id, now), clients[fd];
    Dispatched(db, clients, fd, args, id, now);
    UserAt(db, s);
    UserAt(db, r);
    StoreMessageStores(db.users, s, r, Message(me.user, args[1], now, args[2]));
    var told := Out(Sessions(clients, args[1]), [Word("EVENT"), Word("PRIVATE_MESSAGE"), Field(me.user), Field(args[2])]);
    forall f ensures FramesFor(f, e.outs) == (if f in clients && clients[f].user == args[1] then [told.frame] else [])
                                             + (if f == fd then [OK] else [])
    {
      TwoFor(f, told, To(fd, OK));
    }
  }

  // ---------------------------------------------------------------------------
  // Reading messages and users

  lemma MessageLines(ms: seq<Message>) returns (lines: seq<Frame>)
    ensures lines == MapSeq(ms, MessageLine) && |lines| == |ms|
    ensures forall i :: 0 <= i < |ms| ==>
              lines[i] == [Word("210"), Field(ms[i].sender), Word(IntText(ms[i].timestamp)), Field(ms[i].body)]
  {
    lines := MapSeq(ms, MessageLine);
  }

  lemma MessagesRefused(db: Database, clients: Clients, fd: int, args: seq<string>, id: string, now: int)
    requires DbOk(db) && fd in clients && args != [] && args[0] == "/messages"
    ensures var e, me := Execute(db, clients, fd, args, id, now), clients[fd];
            && (me.user == "" ==> Only(db, me, fd, e, [[Word("401"), Word("UNAUTHORIZED")]]))
            && (me.user != "" && (|args| < 2 || args[1] == "") ==> Only(db, me, fd, e, [[Word("400"), Word("BAD_REQUEST")]]))
            && (Known(db.users, me.user) && |args| >= 2 && args[1] != "" && !Known(db.users, args[1]) ==>
                  Only(db, me, fd, e, [[Word("404"), Word("NOT_FOUND"), Word("USER"), Field(args[1])]]))
  {
    var me := clients[fd];
    Dispatched(db, clients, fd, args, id, now);
    NobodyIsEmpty(db);
    FindUserKnown(db, me.user);
    AnswerTells(db, me, fd, UNAUTHORIZED);
    AnswerTells(db, me, fd, BAD_REQUEST);
    if |args| >= 2 {
      FindUserKnown(db, args[1]);
      AnswerTells(db, me, fd, NotFoundKind("USER", args[1]));
    }
  }

  lemma ConversationReached(db: Database, clients: Clients, fd: int, args: seq<string>, s: nat, lines: seq<Frame>)
    requires DbOk(db) && fd in clients && |args| >= 2 && Known(db.users, args[1])
    requires s < |db.users| && db.users[s].uuid == clients[fd].user
    requires lines == MapSeq(Conversation(db.users[s], args[1]), MessageLine)
    ensures MessagesOf(db, clients, fd, args) == AnswerList(db, clients[fd], fd, Messages, lines)
  {
    UserAt(db, s);
    FindUserKnown(db, args[1]);
    NobodyIsEmpty(db);
    FindUserKnown(db, "");
  }

  lemma MessagesAnswered(db: Database, clients: Clients, fd: int, args: seq<string>, id: string, now: int, lines: seq<Frame>)
    requires fd in clients && args != [] && args[0] == "/messages"
    requires MessagesOf(db, clients, fd, args) == AnswerList(db, clients[fd], fd, Messages, lines)
    ensures Only(db, clients[fd], fd, Execute(db, clients, fd, args, id, now), BlockOf("MESSAGES", lines))
  {
    Dispatched(db, clients, fd, args, id, now);
    AnswerListTells(db, clients[fd], fd, Messages, lines);
  }

  /** The whole conversation, in order, to the one who asks. */
  lemma MessagesShown(db: Database, clients: Clients, fd: int, args: seq<string>, id: string, now: int, s: nat)
    returns (lines: seq<Frame>)
    requires DbOk(db) && fd in clients && |args| >= 2 && args[0] == "/messages"
    requires s < |db.users| && db.users[s].uuid == clients[fd].user && Known(db.users, args[1])
    ensures Only(db, clients[fd], fd, Execute(db, clients, fd, args, id, now), BlockOf("MESSAGES", lines))
    ensures var ms := if args[1] in db.users[s].messages then db.users[s].messages[args[1]] else [];
            |lines| == |ms| && forall i :: 0 <= i < |ms| ==>
              lines[i] == [Word("210"), Field(ms[i].sender), Word(IntText(ms[i].timestamp)), Field(ms[i].body)]
  {
    lines := MessageLines(Conversation(db.users[s], args[1]));
    ConversationReached(db, clients, fd, args, s, lines);
    MessagesAnswered(db, clients, fd, args, id, now, lines);
  }

  /** Every user in the order of registration, with whether anybody is logged in as that user. */
  lemma UsersShown(db: Database, clients: Clients, fd: int, args: seq<string>, id: string, now: int) returns (lines: seq<Frame>)
    requires fd in clients && args != [] && args[0] == "/users"
    ensures Only(db, clients[fd], fd, Execute(db, clients, fd, args, id, now),
                 if clients[fd].user == "" then [[Word("401"), Word("UNAUTHORIZED")]] else BlockOf("USERS", lines))
    ensures |lines| == |db.users| && forall i :: 0 <= i < |lines| ==>
              lines[i] == [Word("210"), Field(db.users[i].uuid), Field(db.users[i].name),
                           Word(if db.users[i].connections > 0 then "1" else "0")]
  {
    Dispatched(db, clients, fd, args, id, now);
    AnswerTells(db, clients[fd], fd, UNAUTHORIZED);
    lines := MapSeq(db.users, UserLine);
    AnswerListTells(db, clients[fd], fd, Users, lines);
    forall i | 0 <= i < |lines|
      ensures lines[i] == [Word("210"), Field(db.users[i].uuid), Field(db.users[i].name),
                           Word(if db.users[i].connections > 0 then "1" else "0")]
    {
      UserRowIs(db.users[i]);
    }
  }

  /** One user with the status, or a refusal. */
  lemma UserShown(db: Database, clients: Clients, fd: int, args: seq<string>, id: string, now: int)
    requires DbOk(db) && fd in clients && args != [] && args[0] == "/user"
    ensures var e, me := Execute(db, clients, fd, args, id, now), clients[fd];
            && (me.user == "" ==> Only(db, me, fd, e, [[Word("401"), Word("UNAUTHORIZED")]]))
            && (me.user != "" && |args| < 2 ==> Only(db, me, fd, e, [[Word("400"), Word("BAD_REQUEST")]]))
            && (me.user != "" && |args| >= 2 && !Known(db.users, args[1]) ==>
                  Only(db, me, fd, e, [[Word("404"), Word("NOT_FOUND"), Field(args[1])]]))
            && forall i :: me.user != "" && |args| >= 2 && 0 <= i < |db.users| && db.users[i].uuid == args[1] ==>
                 Only(db, me, fd, e, [[Word("200"), Word("USER"), Field(args[1]), Field(db.users[i].name),
                                       Word(if db.users[i].connections > 0 then "1" else "0")]])
  {
    var me := clients[fd];
    Dispatched(db, clients, fd, args, id, now);
    AnswerTells(db, me, fd, UNAUTHORIZED);
    AnswerTells(db, me, fd, BAD_REQUEST);
    if |args| >= 2 {
      FindUserKnown(db, args[1]);
      AnswerTells(db, me, fd, NotFound(args[1]));
      forall i | 0 <= i < |db.users| && db.users[i].uuid == args[1]
        ensures FindUser(db, args[1]) == Some(i)
        ensures Only(db, me, fd, Answer(db, me, fd, [Word("200"), Word("USER"), Field(args[1]), Field(db.users[i].name), Connected(db.users[i])]),
                     [[Word("200"), Word("USER"), Field(args[1]), Field(db.users[i].name), Connected(db.users[i])]])
      {
        UserAt(db, i);
        AnswerTells(db, me, fd, [Word("200"), Word("USER"), Field(args[1]), Field(db.users[i].name), Connected(db.users[i])]);
      }
    }
  }
}
