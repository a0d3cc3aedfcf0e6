/** The invariant over every run of the server, restarts included. */
module Runs {
  import opened Text
  import opened Tokens
  import opened Numbers
  import opened Protocol
  import opened Framing
  import opened Model
  import opened Lookup
  import opened Commands
  import opened Delivery
  import opened Invariant
  import opened Preservation
  import opened CommandsKeep
  import opened FramesKeep
  import opened SaveExact
  import opened ServerState

  datatype Event =
    | Accepted(fd: int)
    | Received(fd: int, chunk: string, ids: seq<string>, times: seq<int>)
    | Written(fd: int, n: nat)
    | HungUp(fd: int)
    | FlagsUpdated
    | Restarted

  /** Identifiers drawn during one read: fresh and different from each other. */
  predicate FreshIds(db: Database, ids: seq<string>) {
    Distinct(ids) && forall i :: 0 <= i < |ids| ==> Fresh(db, ids[i])
  }

  /**
    When an event can happen: accepted descriptors are new, identifiers are fresh, the clock is
    bounded, writes take a part of the buffer, and no line makes the argument parser undefined.
  */
  predicate Enabled(s: State, e: Event) {
    match e
    case Accepted(fd) => fd !in s.clients && fd != s.serverFd
    case Received(fd, chunk, ids, times) =>
      && fd in s.clients && Defined(LinesRead(s, fd, chunk)) && |LinesRead(s, fd, chunk)| == |ids| == |times|
      && FreshIds(s.db, ids) && (forall i :: 0 <= i < |times| ==> TimeOk(times[i]))
    case Written(fd, n) => fd in s.clients && fd in s.log && n <= |s.clients[fd].writeBuffer|
    case HungUp(fd) => fd in s.clients
    case FlagsUpdated => true
    case Restarted => true
  }

  function Step(s: State, e: Event): State
    requires Enabled(s, e)
  {
    match e
    case Accepted(fd) => Accept(s, fd)
    case Received(fd, chunk, ids, times) => Read(s, fd, chunk, ids, times)
    case Written(fd, n) => Write(s, fd, n)
    case HungUp(fd) => Disconnect(s, fd)
    case FlagsUpdated => UpdateFlags(s)
    case Restarted => Restart(s)
  }

  // ---------------------------------------------------------------------------
  // The invariant

  /** What was written and what is still buffered is the wire of everything queued, which is well-bracketed. */
  predicate LogEntryOk(c: Client, l: Log) {
    && l.written + c.writeBuffer == Wire(FrameTexts(l.queued))
    && Bracketed(l.queued)
    && forall i :: 0 <= i < |l.queued| ==> Sound(l.queued[i])
  }

  predicate LogOk(s: State) {
    LogsOk(s.clients, s.log)
  }

  predicate ReadOk(s: State) {
    forall fd :: fd in s.clients ==> '\n' !in s.clients[fd].readBuffer
  }

  /** Everything but the read buffers, which hold whole lines while a read is being handled. */
  predicate CoreInv(s: State) {
    DbOk(s.db) && SessionsOk(s.db, s.clients) && PollOk(s) && LogOk(s)
  }

  predicate Inv(s: State) {
    CoreInv(s) && ReadOk(s)
  }

  /** The same clients for the poll set. */
  predicate SamePoll(a: State, b: State) {
    && b.serverFd == a.serverFd && b.poll == a.poll && b.clients.Keys == a.clients.Keys
    && forall fd :: fd in a.clients ==> b.clients[fd].pollOut == a.clients[fd].pollOut
  }

  lemma SamePollOk(a: State, b: State)
    requires PollOk(a) && SamePoll(a, b)
    ensures PollOk(b)
  {
  }

  /** Sessions depend only on each client's user and context. */
  predicate SameSessions(a: Clients, b: Clients) {
    b.Keys == a.Keys && forall fd :: fd in a ==> b[fd].user == a[fd].user && b[fd].ctx == a[fd].ctx
  }

  lemma SameSessionSets(a: Clients, b: Clients, u: string)
    requires SameSessions(a, b)
    ensures Sessions(b, u) == Sessions(a, u)
  {
    forall fd ensures fd in Sessions(b, u) <==> fd in Sessions(a, u) {
      assert fd in b.Keys <==> fd in a.Keys;
    }
  }

  lemma SameSessionsOk(db: Database, a: Clients, b: Clients)
    requires SessionsOk(db, a) && SameSessions(a, b)
    ensures SessionsOk(db, b)
  {
    forall i | 0 <= i < |db.users| ensures db.users[i].connections == |Sessions(b, db.users[i].uuid)| {
      SameSessionSets(a, b, db.users[i].uuid);
    }
    forall fd | fd in b ensures SessionOk(db, b[fd]) {
      assert SessionOk(db, a[fd]);
    }
  }

  predicate LogsOk(clients: Clients, log: map<int, Log>) {
    log.Keys == clients.Keys &&
    forall fd {:trigger LogEntryOk(clients[fd], log[fd])} :: fd in clients ==> LogEntryOk(clients[fd], log[fd])
  }

  /** Histories depend only on each client's write buffer. */
  lemma SameLogs(a: Clients, b: Clients, log: map<int, Log>)
    requires LogsOk(a, log) && b.Keys == a.Keys && forall fd :: fd in a ==> b[fd].writeBuffer == a[fd].writeBuffer
    ensures LogsOk(b, log)
  {
    forall fd | fd in b ensures LogEntryOk(b[fd], log[fd]) {
      assert LogEntryOk(a[fd], log[fd]);
    }
  }

  // ---------------------------------------------------------------------------
  // Histories

  /** One more batch of frames for a client. */
  lemma LogEntryGrows(c: Client, l: Log, frames: seq<Frame>)
    requires LogEntryOk(c, l) && Bracketed(frames)
    requires forall i :: 0 <= i < |frames| ==> Sound(frames[i])
    ensures LogEntryOk(c.(writeBuffer := c.writeBuffer + Wire(FrameTexts(frames))), l.(queued := l.queued + frames))
  {
    FrameTextsAppend(l.queued, frames);
    WireAppend(FrameTexts(l.queued), FrameTexts(frames));
    ConcatAssoc(l.written, c.writeBuffer, Wire(FrameTexts(frames)));
    BlockScanAppend(Outside, l.queued, frames);
  }

  lemma DeliveredLog(clients: Clients, log: map<int, Log>, fd: int, outs: seq<Out>)
    requires LogsOk(clients, log) && OutsOk(fd, outs)
    ensures LogsOk(Deliver(clients, outs), LogOuts(log, outs))
  {
    forall f | f in clients ensures LogEntryOk(Deliver(clients, outs)[f], LogOuts(log, outs)[f]) {
      DeliverBuffers(clients, outs, f);
      ShareBracketed(fd, outs, f);
      LogEntryGrows(clients[f], log[f], FramesFor(f, outs));
    }
  }

  lemma AppliedLog(clients: Clients, log: map<int, Log>, fd: int, e: Effect)
    requires fd in clients && LogsOk(clients, log) && OutsOk(fd, e.outs)
    ensures LogsOk(Apply(clients, fd, e), LogOuts(log, e.outs))
  {
    var moved := SetSession(clients, fd, e.user, e.ctx);
    SameLogs(clients, moved, log);
    DeliveredLog(moved, log, fd, e.outs);
  }

  // ---------------------------------------------------------------------------
  // One command

  function Applied(s: State, fd: int, e: Effect): State
    requires fd in s.clients
  {
    s.(db := e.db, clients := Apply(s.clients, fd, e), log := LogOuts(s.log, e.outs))
  }

  lemma AppliedPoll(s: State, fd: int, e: Effect)
    requires PollOk(s) && fd in s.clients
    ensures PollOk(Applied(s, fd, e))
  {
    DeliverKeepsSessions(SetSession(s.clients, fd, e.user, e.ctx), e.outs);
    SamePollOk(s, Applied(s, fd, e));
  }

  lemma AppliedKeeps(s: State, fd: int, e: Effect)
    requires CoreInv(s) && fd in s.clients && DbOk(e.db) && SessionsOk(e.db, Apply(s.clients, fd, e)) && OutsOk(fd, e.outs)
    ensures CoreInv(Applied(s, fd, e))
  {
    AppliedLog(s.clients, s.log, fd, e);
    AppliedPoll(s, fd, e);
  }

  lemma CommandKeeps(s: State, fd: int, args: seq<string>, id: string, now: int)
    requires CoreInv(s) && Ready(s.db, s.clients, fd, args, id, now)
    ensures CoreInv(Command(s, fd, args, id, now)) && Grows(s.db, Command(s, fd, args, id, now).db)
  {
    ExecuteKeepsDb(s.db, s.clients, fd, args, id, now);
    ExecuteKeepsSessions(s.db, s.clients, fd, args, id, now);
    ExecuteFrames(s.db, s.clients, fd, args, id, now);
    AppliedKeeps(s, fd, Execute(s.db, s.clients, fd, args, id, now));
  }

  // ---------------------------------------------------------------------------
  // Identifiers stay fresh

  /** The only identifier a command can add is the one it draws. */
  ghost predicate OnlyNewId(db: Database, db': Database, id: string) {
    forall x :: Fresh(db, x) && x != id ==> Fresh(db', x)
  }

  lemma UsersOnlyId(db: Database, users: seq<User>, id: string)
    requires forall i :: 0 <= i < |users| ==> users[i].uuid == id || (i < |db.users| && users[i].uuid == db.users[i].uuid)
    ensures OnlyNewId(db, db.(users := users), id)
  {
  }

  lemma TeamOnlyId(db: Database, t: nat, team: Team, id: string)
    requires t < |db.teams| && team.uuid == db.teams[t].uuid
    requires forall j :: 0 <= j < |team.channels| ==>
      (if j < |db.teams[t].channels| then team.channels[j].uuid == db.teams[t].channels[j].uuid else team.channels[j].uuid == id)
    requires forall j, k :: 0 <= j < |team.channels| && 0 <= k < |team.channels[j].threads| ==>
      team.channels[j].threads[k].uuid == id ||
      (j < |db.teams[t].channels| && k < |db.teams[t].channels[j].threads| &&
       team.channels[j].threads[k].uuid == db.teams[t].channels[j].threads[k].uuid)
    ensures OnlyNewId(db, db.(teams := db.teams[t := team]), id)
  {
    var next := db.(teams := db.teams[t := team]);
    forall x | Fresh(db, x) && x != id ensures Fresh(next, x) {
      forall i, j | 0 <= i < |next.teams| && 0 <= j < |next.teams[i].channels|
        ensures next.teams[i].channels[j].uuid != x
      {
        if i == t { assert team.channels[j].uuid == id || team.channels[j].uuid == db.teams[t].channels[j].uuid; }
      }
      forall i, j, k | 0 <= i < |next.teams| && 0 <= j < |next.teams[i].channels| && 0 <= k < |next.teams[i].channels[j].threads|
        ensures next.teams[i].channels[j].threads[k].uuid != x
      {
        if i == t && team.channels[j].threads[k].uuid != id {
          assert db.teams[t].channels[j].threads[k].uuid != x;
        }
      }
    }
  }

  lemma AddTeamOnlyId(db: Database, team: Team, id: string)
    requires team.uuid == id && team.channels == []
    ensures OnlyNewId(db, db.(teams := db.teams + [team]), id)
  {
    var next := db.(teams := db.teams + [team]);
    forall x | Fresh(db, x) && x != id ensures Fresh(next, x) {
      forall i, j | 0 <= i < |next.teams| && 0 <= j < |next.teams[i].channels|
        ensures next.teams[i].channels[j].uuid != x
      {
        assert next.teams[i] == db.teams[i];
      }
      forall i, j, k | 0 <= i < |next.teams| && 0 <= j < |next.teams[i].channels| && 0 <= k < |next.teams[i].channels[j].threads|
        ensures next.teams[i].channels[j].threads[k].uuid != x
      {
        assert next.teams[i] == db.teams[i];
        assert db.teams[i].channels[j].threads[k].uuid != x;
      }
    }
  }

  lemma CreateOnlyId(db: Database, clients: Clients, fd: int, args: seq<string>, id: string, now: int)
    requires fd in clients
    ensures OnlyNewId(db, Create(db, clients, fd, args, id, now).db, id)
  {
    var me := clients[fd];
    var db' := Create(db, clients, fd, args, id, now).db;
    if db' == db {
    } else if me.ctx.team == "" {
      AddTeamOnlyId(db, Team(id, args[1], args[2], [me.user], []), id);
    } else if me.ctx.channel == "" {
      AddChannelOnlyId(db, FindTeam(db, me.ctx.team).value, Channel(id, args[1], args[2], []));
    } else if me.ctx.thread == "" {
      var (t, c) := FindChannel(db, me.ctx.team, me.ctx.channel).value;
      AddThreadOnlyId(db, t, c, Thread(id, me.user, now, args[1], args[2], []));
    } else {
      var (t, c, h) := FindThread(db, me.ctx.channel, me.ctx.thread).value;
      AddReplyOnlyId(db, t, c, h, Reply(id, me.user, now, args[1]), id);
    }
  }

  lemma AddChannelOnlyId(db: Database, t: nat, channel: Channel)
    requires t < |db.teams| && channel.threads == []
    ensures OnlyNewId(db, SetChannels(db, t, db.teams[t].channels + [channel]), channel.uuid)
  {
    TeamOnlyId(db, t, db.teams[t].(channels := db.teams[t].channels + [channel]), channel.uuid);
  }

  lemma AddThreadOnlyId(db: Database, t: nat, c: nat, thread: Thread)
    requires t < |db.teams| && c < |db.teams[t].channels|
    ensures OnlyNewId(db, SetThreads(db, t, c, db.teams[t].channels[c].threads + [thread]), thread.uuid)
  {
    var x := db.teams[t].channels[c];
    var y := x.(threads := x.threads + [thread]);
    TeamOnlyId(db, t, db.teams[t].(channels := db.teams[t].channels[c := y]), thread.uuid);
  }

  lemma AddReplyOnlyId(db: Database, t: nat, c: nat, h: nat, r: Reply, id: string)
    requires t < |db.teams| && c < |db.teams[t].channels| && h < |db.teams[t].channels[c].threads|
    ensures OnlyNewId(db, AddReply(db, t, c, h, r), id)
  {
    var x := db.teams[t].channels[c];
    var y := x.threads[h].(replies := x.threads[h].replies + [r]);
    TeamOnlyId(db, t, db.teams[t].(channels := db.teams[t].channels[c := x.(threads := x.threads[h := y])]), id);
  }

  lemma SubscribersOnlyId(db: Database, t: nat, subs: seq<string>, id: string)
    requires t < |db.teams|
    ensures OnlyNewId(db, SetSubscribers(db, t, subs), id)
  {
    TeamOnlyId(db, t, db.teams[t].(subscribers := subs), id);
  }

  lemma StoreMessageOnlyId(db: Database, s: nat, r: nat, m: Message, id: string)
    requires s < |db.users| && r < |db.users|
    ensures OnlyNewId(db, db.(users := StoreMessage(db.users, s, r, m)), id)
  {
    UsersOnlyId(db, StoreMessage(db.users, s, r, m), id);
  }

  lemma ExecuteOnlyId(db: Database, clients: Clients, fd: int, args: seq<string>, id: string, now: int)
    requires fd in clients
    ensures OnlyNewId(db, Execute(db, clients, fd, args, id, now).db, id)
  {
    var me := clients[fd];
    if IsQuery(args) {
      QueriesChangeNothing(db, clients, fd, args, id, now);
    } else if args[0] == "/create" {
      CreateOnlyId(db, clients, fd, args, id, now);
    } else if args[0] == "/subscribe" || args[0] == "/unsubscribe" {
      if |args| >= 2 && FindTeam(db, args[1]).Some? {
        var t := FindTeam(db, args[1]).value;
        SubscribersOnlyId(db, t, Subscribe(db.teams[t].subscribers, me.user), id);
        SubscribersOnlyId(db, t, Without(db.teams[t].subscribers, me.user), id);
      }
    } else if args[0] == "/login" {
      if |args| >= 2 {
        UsersOnlyId(db, db.users + [User(id, args[1], 1, [], map[])], id);
        var i := FindUserByName(db, args[1]);
        if i.Some? {
          UsersOnlyId(db, db.users[i.value := db.users[i.value].(connections := db.users[i.value].connections + 1)], id);
        }
      }
    } else if args[0] == "/logout" {
      var i := FindUser(db, me.user);
      if i.Some? {
        UsersOnlyId(db, db.users[i.value := Released(db.users[i.value])], id);
      }
    } else {
      SendOnlyId(db, clients, fd, args, id, now);
    }
  }

  lemma SendOnlyId(db: Database, clients: Clients, fd: int, args: seq<string>, id: string, now: int)
    requires fd in clients
    ensures OnlyNewId(db, Send(db, clients, fd, args, now).db, id)
  {
    if |args| >= 3 {
      var s, r := FindUser(db, clients[fd].user), FindUser(db, args[1]);
      if s.Some? && r.Some? {
        StoreMessageOnlyId(db, s.value, r.value, Message(db.users[s.value].uuid, db.users[r.value].uuid, now, args[2]), id);
      }
    }
  }

  lemma FreshIdsStay(db: Database, db': Database, ids: seq<string>)
    requires ids != [] && FreshIds(db, ids) && OnlyNewId(db, db', ids[0])
    ensures FreshIds(db', ids[1..])
  {
    var rest := ids[1..];
    assert forall i :: 0 <= i < |rest| ==> rest[i] == ids[i + 1];
  }

  // ---------------------------------------------------------------------------
  // One read

  /** The first line of several: the invariant, and identifiers that stay fresh for the others. */
  lemma FirstLineKeeps(s: State, fd: int, line: string, ids: seq<string>, now: int)
    requires CoreInv(s) && fd in s.clients && CommandArgs(line).Args? && ids != [] && FreshIds(s.db, ids) && TimeOk(now)
    ensures var next := Command(s, fd, CommandArgs(line).args, ids[0], now);
            CoreInv(next) && Grows(s.db, next.db) && FreshIds(next.db, ids[1..])
  {
    var args := CommandArgs(line).args;
    ArgsNormal(Words(line));
    CommandKeeps(s, fd, args, ids[0], now);
    ExecuteOnlyId(s.db, s.clients, fd, args, ids[0], now);
    FreshIdsStay(s.db, Command(s, fd, args, ids[0], now).db, ids);
  }

  /** Where a read may start: the invariant, and growth from some earlier database. */
  predicate Reached(from: Database, s: State) {
    CoreInv(s) && Grows(from, s.db)
  }

  lemma NextLineReached(from: Database, s: State, fd: int, line: string, ids: seq<string>, now: int)
    requires Reached(from, s) && fd in s.clients && CommandArgs(line).Args? && ids != [] && FreshIds(s.db, ids) && TimeOk(now)
    ensures var next := Command(s, fd, CommandArgs(line).args, ids[0], now);
            Reached(from, next) && FreshIds(next.db, ids[1..])
  {
    FirstLineKeeps(s, fd, line, ids, now);
    GrowsTrans(from, s.db, Command(s, fd, CommandArgs(line).args, ids[0], now).db);
  }

  /** What a command line keeps, of the state and of the identifiers still to be drawn. */
  ghost predicate LineKeeps(good: (State, seq<string>) -> bool, fd: int) {
    forall s: State, line: string, ids: seq<string>, now: int | fd in s.clients && CommandArgs(line).Args? && ids != [] && TimeOk(now) && good(s, ids) ::
      good(Command(s, fd, CommandArgs(line).args, ids[0], now), ids[1..])
  }

  /** What every command line keeps, all the lines of a read keep. */
  lemma {:induction false} LinesInduction(good: (State, seq<string>) -> bool, s: State, fd: int, lines: seq<string>,
                                          ids: seq<string>, times: seq<int>)
    requires LineKeeps(good, fd) && good(s, ids)
    requires fd in s.clients && |lines| == |ids| == |times| && Defined(lines) && forall i :: 0 <= i < |times| ==> TimeOk(times[i])
    ensures good(RunLines(s, fd, lines, ids, times), [])
    decreases |lines|
  {
    if lines != [] {
      var next := Command(s, fd, CommandArgs(lines[0]).args, ids[0], times[0]);
      assert good(next, ids[1..]);
      LinesInduction(good, next, fd, lines[1..], ids[1..], times[1..]);
    } else {
      assert ids == [];
    }
  }

  lemma RunLinesKeeps(from: Database, s: State, fd: int, lines: seq<string>, ids: seq<string>, times: seq<int>)
    requires Reached(from, s) && fd in s.clients && |lines| == |ids| == |times| && Defined(lines)
    requires FreshIds(s.db, ids) && forall i :: 0 <= i < |times| ==> TimeOk(times[i])
    ensures Reached(from, RunLines(s, fd, lines, ids, times))
  {
    var good := (x: State, xs: seq<string>) => Reached(from, x) && FreshIds(x.db, xs);
    forall x: State, line: string, xs: seq<string>, now: int | fd in x.clients && CommandArgs(line).Args? && xs != [] && TimeOk(now) && good(x, xs)
      ensures good(Command(x, fd, CommandArgs(line).args, xs[0], now), xs[1..])
    {
      NextLineReached(from, x, fd, line, xs, now);
    }
    LinesInduction(good, s, fd, lines, ids, times);
  }

  lemma CommandKeepsReads(s: State, fd: int, args: seq<string>, id: string, now: int)
    requires fd in s.clients
    ensures forall f :: f in s.clients ==> Command(s, fd, args, id, now).clients[f].readBuffer == s.clients[f].readBuffer
  {
    var e := Execute(s.db, s.clients, fd, args, id, now);
    DeliverKeepsSessions(SetSession(s.clients, fd, e.user, e.ctx), e.outs);
  }

  lemma {:induction false} RunLinesKeepsReads(s: State, fd: int, lines: seq<string>, ids: seq<string>, times: seq<int>)
    requires fd in s.clients && |lines| == |ids| == |times| && Defined(lines)
    ensures forall f :: f in s.clients ==> RunLines(s, fd, lines, ids, times).clients[f].readBuffer == s.clients[f].readBuffer
    decreases |lines|
  {
    if lines != [] {
      var args := CommandArgs(lines[0]).args;
      CommandKeepsReads(s, fd, args, ids[0], times[0]);
      RunLinesKeepsReads(Command(s, fd, args, ids[0], times[0]), fd, lines[1..], ids[1..], times[1..]);
    }
  }

  /** Read buffers play no part in the core invariant. */
  lemma SetReadCore(s: State, fd: int, buffer: string)
    requires CoreInv(s) && fd in s.clients
    ensures CoreInv(SetRead(s, fd, buffer))
  {
    var next := SetRead(s, fd, buffer);
    SameSessionsOk(s.db, s.clients, next.clients);
    SameLogs(s.clients, next.clients, s.log);
    SamePollOk(s, next);
  }

  lemma ReadBuffers(s: State, fd: int, chunk: string, ids: seq<string>, times: seq<int>)
    requires ReadOk(s) && fd in s.clients && Defined(LinesRead(s, fd, chunk)) && |LinesRead(s, fd, chunk)| == |ids| == |times|
    ensures ReadOk(Read(s, fd, chunk, ids, times))
  {
    var s1 := SetRead(s, fd, s.clients[fd].readBuffer + chunk);
    RunLinesKeepsReads(s1, fd, LinesRead(s, fd, chunk), ids, times);
  }

  lemma ReadKeeps(s: State, fd: int, chunk: string, ids: seq<string>, times: seq<int>)
    requires Inv(s) && Enabled(s, Received(fd, chunk, ids, times))
    ensures Inv(Read(s, fd, chunk, ids, times)) && Grows(s.db, Read(s, fd, chunk, ids, times).db)
  {
    var buffer, lines := s.clients[fd].readBuffer + chunk, LinesRead(s, fd, chunk);
    var s1 := SetRead(s, fd, buffer);
    SetReadCore(s, fd, buffer);
    GrowsRefl(s.db);
    RunLinesKeeps(s.db, s1, fd, lines, ids, times);
    SetReadCore(RunLines(s1, fd, lines, ids, times), fd, Tail(buffer));
    ReadBuffers(s, fd, chunk, ids, times);
  }

  // ---------------------------------------------------------------------------
  // The other steps

  lemma AcceptSessions(db: Database, clients: Clients, fd: int)
    requires UsersOk(db.users) && SessionsOk(db, clients) && fd !in clients
    ensures SessionsOk(db, clients[fd := NEW_CLIENT])
  {
    var next := clients[fd := NEW_CLIENT];
    forall i | 0 <= i < |db.users| ensures db.users[i].connections == |Sessions(next, db.users[i].uuid)| {
      assert UserOk(db.users[i]);
      assert Sessions(next, db.users[i].uuid) == Sessions(clients, db.users[i].uuid);
    }
  }

  lemma AcceptLog(clients: Clients, log: map<int, Log>, fd: int)
    requires LogsOk(clients, log)
    ensures LogsOk(clients[fd := NEW_CLIENT], log[fd := Log([], "")])
  {
    assert FrameTexts([]) == [];
  }

  lemma AcceptKeeps(s: State, fd: int)
    requires Inv(s) && fd !in s.clients && fd != s.serverFd
    ensures Inv(Accept(s, fd)) && Grows(s.db, Accept(s, fd).db)
  {
    GrowsRefl(s.db);
    AcceptSessions(s.db, s.clients, fd);
    AcceptLog(s.clients, s.log, fd);
    AcceptPoll(s, fd);
  }

  lemma AcceptPoll(s: State, fd: int)
    requires PollOk(s) && fd !in s.clients && fd != s.serverFd
    ensures PollOk(Accept(s, fd))
  {
    var next := Accept(s, fd);
    forall f | f in next.clients ensures exists i :: 0 < i < |next.poll| && next.poll[i].fd == f {
      if f == fd {
        assert next.poll[|s.poll|].fd == fd;
      } else {
        var i :| 0 < i < |s.poll| && s.poll[i].fd == f;
        assert next.poll[i].fd == f;
      }
    }
  }

  lemma WriteLog(c: Client, l: Log, n: nat)
    requires LogEntryOk(c, l) && n <= |c.writeBuffer|
    ensures LogEntryOk(c.(writeBuffer := c.writeBuffer[n..]), l.(written := l.written + c.writeBuffer[..n]))
  {
    assert c.writeBuffer == c.writeBuffer[..n] + c.writeBuffer[n..];
    ConcatAssoc(l.written, c.writeBuffer[..n], c.writeBuffer[n..]);
  }

  lemma WriteKeeps(s: State, fd: int, n: nat)
    requires Inv(s) && fd in s.clients && n <= |s.clients[fd].writeBuffer|
    ensures Inv(Write(s, fd, n)) && Grows(s.db, Write(s, fd, n).db)
  {
    GrowsRefl(s.db);
    WriteSessions(s, fd, n);
    WritePoll(s, fd, n);
    WriteLogs(s.clients, s.log, fd, n);
  }

  lemma WriteSessions(s: State, fd: int, n: nat)
    requires SessionsOk(s.db, s.clients) && fd in s.clients && fd in s.log && n <= |s.clients[fd].writeBuffer|
    ensures SessionsOk(s.db, Write(s, fd, n).clients)
  {
    SameSessionsOk(s.db, s.clients, Write(s, fd, n).clients);
  }

  lemma WritePoll(s: State, fd: int, n: nat)
    requires PollOk(s) && fd in s.clients && fd in s.log && n <= |s.clients[fd].writeBuffer|
    ensures PollOk(Write(s, fd, n))
  {
    SamePollOk(s, Write(s, fd, n));
  }

  lemma WriteLogs(clients: Clients, log: map<int, Log>, fd: int, n: nat)
    requires LogsOk(clients, log) && fd in clients && n <= |clients[fd].writeBuffer|
    ensures var buffer := clients[fd].writeBuffer;
            LogsOk(clients[fd := clients[fd].(writeBuffer := buffer[n..])],
                   log[fd := log[fd].(written := log[fd].written + buffer[..n])])
  {
    WriteLog(clients[fd], log[fd], n);
  }

  lemma CutEntry(poll: seq<PollEntry>, i: nat)
    requires i < |poll| && forall j, k :: 0 <= j < k < |poll| ==> poll[j].fd != poll[k].fd
    ensures Unwatch(poll, poll[i].fd) == poll[..i] + poll[i + 1..]
  {
    PollIndexIs(poll, poll[i].fd, i);
  }

  lemma UnwatchOk(s: State, fd: int)
    requires PollOk(s) && fd in s.clients
    ensures PollOk(s.(clients := s.clients - {fd}, poll := Unwatch(s.poll, fd)))
  {
    var i :| 0 < i < |s.poll| && s.poll[i].fd == fd;
    CutEntry(s.poll, i);
    CutPollOk(s, i);
  }

  lemma CutPollOk(s: State, i: nat)
    requires PollOk(s) && 0 < i < |s.poll|
    ensures PollOk(s.(clients := s.clients - {s.poll[i].fd}, poll := s.poll[..i] + s.poll[i + 1..]))
  {
    var poll, clients := s.poll[..i] + s.poll[i + 1..], s.clients - {s.poll[i].fd};
    CutAt(s.poll, i, poll);
    CutDistinct(s.poll, i, poll);
    CutCovers(s.poll, i, s.clients);
    forall j | 0 < j < |poll| ensures poll[j].fd in clients && poll[j].out == clients[poll[j].fd].pollOut {
      var k := if j < i then j else j + 1;
      assert s.poll[k].fd in s.clients && s.poll[k].fd != s.poll[i].fd;
    }
  }

  lemma CutAt(poll: seq<PollEntry>, i: nat, cut: seq<PollEntry>)
    requires i < |poll| && cut == poll[..i] + poll[i + 1..]
    ensures |cut| == |poll| - 1 && forall j :: 0 <= j < |cut| ==> cut[j] == poll[if j < i then j else j + 1]
  {
  }

  lemma CutDistinct(poll: seq<PollEntry>, i: nat, cut: seq<PollEntry>)
    requires i < |poll| && (forall j, k :: 0 <= j < k < |poll| ==> poll[j].fd != poll[k].fd)
    requires |cut| == |poll| - 1 && forall j :: 0 <= j < |cut| ==> cut[j] == poll[if j < i then j else j + 1]
    ensures forall j, k :: 0 <= j < k < |cut| ==> cut[j].fd != cut[k].fd
  {
    forall j, k | 0 <= j < k < |cut| ensures cut[j].fd != cut[k].fd {
      var x, y := if j < i then j else j + 1, if k < i then k else k + 1;
      assert cut[j] == poll[x] && cut[k] == poll[y] && x < y;
    }
  }

  lemma CutCovers(poll: seq<PollEntry>, i: nat, clients: Clients)
    requires 0 < i < |poll| && forall fd :: fd in clients ==> exists j :: 0 < j < |poll| && poll[j].fd == fd
    ensures var cut := poll[..i] + poll[i + 1..];
            forall fd :: fd in clients - {poll[i].fd} ==> exists j :: 0 < j < |cut| && cut[j].fd == fd
  {
    var cut := poll[..i] + poll[i + 1..];
    forall fd | fd in clients - {poll[i].fd} ensures exists j :: 0 < j < |cut| && cut[j].fd == fd {
      var j :| 0 < j < |poll| && poll[j].fd == fd;
      assert cut[if j < i then j else j - 1] == poll[j];
    }
  }

  /** A client that goes away takes one session of its user with it. */
  lemma DropCounts(db: Database, clients: Clients, fd: int)
    requires DbOk(db) && SessionsOk(db, clients) && fd in clients
    ensures CountsOk(Leave(db, clients[fd]).0.users, clients - {fd})
  {
    var me := clients[fd];
    var rest := clients - {fd};
    if me.user == "" {
      forall i | 0 <= i < |db.users| ensures db.users[i].connections == |Sessions(rest, db.users[i].uuid)| {
        assert UserOk(db.users[i]);
        assert Sessions(rest, db.users[i].uuid) == Sessions(clients, db.users[i].uuid);
      }
    } else {
      assert SessionOk(db, me);
      FindUserKnown(db, me.user);
      var k := FindUser(db, me.user).value;
      var users := db.users[k := Released(db.users[k])];
      LeaveCounts(db.users, k, clients, fd);
      forall i | 0 <= i < |users| ensures users[i].connections == |Sessions(rest, users[i].uuid)| {
        assert UserOk(db.users[i]);
        assert Sessions(rest, users[i].uuid) == Sessions(SetSession(clients, fd, "", me.ctx), users[i].uuid);
      }
    }
  }

  lemma DisconnectSessions(s: State, fd: int)
    requires Inv(s) && fd in s.clients
    ensures var (db, _) := Leave(s.db, s.clients[fd]);
            SessionsOk(db, s.clients - {fd}) && DbOk(db) && Grows(s.db, db)
  {
    var (db, _) := Leave(s.db, s.clients[fd]);
    GrowsRefl(s.db);
    ReleaseKeeps(s.db, s.clients[fd].user);
    DropCounts(s.db, s.clients, fd);
    forall f | f in s.clients - {fd} ensures SessionOk(db, s.clients[f]) {
      assert SessionOk(s.db, s.clients[f]);
      CtxStays(s.db, db, s.clients[f].ctx);
      if s.clients[f].user != "" {
        GrowsKnown(s.db, db, s.clients[f].user);
      }
    }
  }

  function Announcement(s: State, fd: int): seq<Out>
    requires fd in s.clients
  {
    Farewell(s.clients - {fd}, Leave(s.db, s.clients[fd]).1)
  }

  lemma AnnouncementQuiet(s: State, fd: int)
    requires DbOk(s.db) && fd in s.clients
    ensures Quiet(Announcement(s, fd))
  {
    if Leave(s.db, s.clients[fd]).1.Some? {
      ReleaseFrames(s.db, s.clients[fd].user);
    }
  }

  /** What is left after a disconnection, before the others are told. */
  function Without1(s: State, fd: int): State
    requires fd in s.clients
  {
    State(s.serverFd, Leave(s.db, s.clients[fd]).0, s.clients - {fd}, Unwatch(s.poll, fd), s.log - {fd})
  }

  lemma ToldPoll(s: State, outs: seq<Out>)
    requires PollOk(s)
    ensures PollOk(s.(clients := Deliver(s.clients, outs), log := LogOuts(s.log, outs)))
  {
    DeliverKeepsSessions(s.clients, outs);
    SamePollOk(s, s.(clients := Deliver(s.clients, outs), log := LogOuts(s.log, outs)));
  }

  lemma ToldKeeps(s: State, fd: int, outs: seq<Out>)
    requires Inv(s) && Quiet(outs)
    ensures Inv(s.(clients := Deliver(s.clients, outs), log := LogOuts(s.log, outs)))
  {
    DeliveredLog(s.clients, s.log, fd, outs);
    DeliverKeepsSessions(s.clients, outs);
    SameSessionsOk(s.db, s.clients, Deliver(s.clients, outs));
    ToldPoll(s, outs);
  }

  lemma DisconnectKeeps(s: State, fd: int)
    requires Inv(s) && fd in s.clients
    ensures Inv(Disconnect(s, fd)) && Grows(s.db, Disconnect(s, fd).db)
  {
    DisconnectSessions(s, fd);
    UnwatchOk(s, fd);
    AnnouncementQuiet(s, fd);
    var left := Without1(s, fd);
    assert PollOk(left);
    assert LogOk(left);
    ToldKeeps(left, fd, Announcement(s, fd));
  }

  lemma FlagsPoll(s: State)
    requires PollOk(s)
    ensures PollOk(UpdateFlags(s))
  {
    var next := UpdateFlags(s);
    SameFdsCover(s.poll, next.poll, s.clients);
    forall i, j | 0 <= i < j < |next.poll| ensures next.poll[i].fd != next.poll[j].fd {
      assert next.poll[i].fd == s.poll[i].fd && next.poll[j].fd == s.poll[j].fd;
    }
  }

  lemma SameFdsCover(p: seq<PollEntry>, q: seq<PollEntry>, clients: Clients)
    requires |p| == |q| && (forall i :: 0 <= i < |p| ==> q[i].fd == p[i].fd)
    requires forall fd :: fd in clients ==> exists i :: 0 < i < |p| && p[i].fd == fd
    ensures forall fd :: fd in clients ==> exists i :: 0 < i < |q| && q[i].fd == fd
  {
    forall fd | fd in clients ensures exists i :: 0 < i < |q| && q[i].fd == fd {
      var i :| 0 < i < |p| && p[i].fd == fd;
      assert q[i].fd == fd;
    }
  }

  lemma FlagsKeep(s: State)
    requires Inv(s)
    ensures Inv(UpdateFlags(s)) && Grows(s.db, UpdateFlags(s).db)
  {
    GrowsRefl(s.db);
    SameSessionsOk(s.db, s.clients, Flagged(s.clients));
    SameLogs(s.clients, Flagged(s.clients), s.log);
    FlagsPoll(s);
  }

  /** At every wait, output is watched exactly for the clients with pending output. */
  lemma WatchesPending(s: State)
    requires Inv(s)
    ensures var next := UpdateFlags(s);
            forall i :: 0 < i < |next.poll| ==>
              next.poll[i].fd in next.clients && (next.poll[i].out <==> next.clients[next.poll[i].fd].writeBuffer != "")
  {
  }

  // ---------------------------------------------------------------------------
  // Restart

  lemma TimesAreExact(db: Database)
    requires DbOk(db)
    ensures TimesExact(db)
  {
    forall i | 0 <= i < |db.users| ensures UserExact(db.users[i]) {
      forall k | k in db.users[i].messages ensures ConversationExact(db.users[i].messages[k]) {
        var ms := db.users[i].messages[k];
        assert ConversationOk(ms, db.users[i].uuid, k);
        forall j | 0 <= j < |ms| ensures Exact(ms[j].timestamp) {
          assert MessageOk(ms[j], db.users[i].uuid, k);
          SmallTimesExact(ms[j].timestamp);
        }
      }
    }
    forall i | 0 <= i < |db.teams| ensures TeamExact(db.teams[i]) {
      TeamTimesExact(db.users, db.teams[i]);
    }
  }

  lemma TeamTimesExact(users: seq<User>, t: Team)
    requires TeamOk(users, t)
    ensures TeamExact(t)
  {
    forall i | 0 <= i < |t.channels| ensures ChannelExact(t.channels[i]) {
      var c := t.channels[i];
      assert ChannelOk(users, c);
      forall j | 0 <= j < |c.threads| ensures ThreadExact(c.threads[j]) {
        assert ThreadOk(users, c.threads[j]);
        SmallTimesExact(c.threads[j].timestamp);
        forall k | 0 <= k < |c.threads[j].replies| ensures Exact(c.threads[j].replies[k].timestamp) {
          assert ReplyOk(users, c.threads[j].replies[k]);
          SmallTimesExact(c.threads[j].replies[k].timestamp);
        }
      }
    }
  }

  lemma RestartDb(db: Database)
    requires DbOk(db)
    ensures LoadedAfterSave(db) == Reset(db) && DbOk(Reset(db)) && Grows(db, Reset(db))
  {
    TimesAreExact(db);
    RestartKeepsData(db);
    SameStoredOk(db, MapSeq(db.users, Offline));
    assert Reset(db) == db.(users := MapSeq(db.users, Offline));
  }

  lemma RestartKeeps(s: State)
    requires Inv(s)
    ensures Inv(Restart(s)) && Grows(s.db, Restart(s).db) && Restart(s).db == Reset(s.db)
  {
    RestartDb(s.db);
    StartOk(s.serverFd, Reset(s.db));
  }

  // ---------------------------------------------------------------------------
  // Every run

  lemma StepKeeps(s: State, e: Event)
    requires Inv(s) && Enabled(s, e)
    ensures Inv(Step(s, e)) && Grows(s.db, Step(s, e).db)
  {
    match e
    case Accepted(fd) => AcceptKeeps(s, fd);
    case Received(fd, chunk, ids, times) => ReadKeeps(s, fd, chunk, ids, times);
    case Written(fd, n) => WriteKeeps(s, fd, n);
    case HungUp(fd) => DisconnectKeeps(s, fd);
    case FlagsUpdated => FlagsKeep(s);
    case Restarted => RestartKeeps(s);
  }

  /** A run is possible from a state, event by event. */
  predicate Possible(s: State, events: seq<Event>)
    decreases |events|
  {
    events == [] || (Enabled(s, events[0]) && Possible(Step(s, events[0]), events[1..]))
  }

  function RunFrom(s: State, events: seq<Event>): State
    requires Possible(s, events)
    decreases |events|
  {
    if events == [] then s else RunFrom(Step(s, events[0]), events[1..])
  }

  /** The invariant holds after every possible run, and what was stored at its start is still there. */
  lemma {:induction false} RunKeeps(s: State, events: seq<Event>)
    requires Inv(s) && Possible(s, events)
    ensures Inv(RunFrom(s, events)) && Grows(s.db, RunFrom(s, events).db)
    decreases |events|
  {
    if events == [] {
      GrowsRefl(s.db);
    } else {
      StepKeeps(s, events[0]);
      RunKeeps(Step(s, events[0]), events[1..]);
      GrowsTrans(s.db, Step(s, events[0]).db, RunFrom(s, events).db);
    }
  }

  /** A server that starts on a good database is in a good state. */
  lemma StartOk(serverFd: int, db: Database)
    requires DbOk(db) && forall i :: 0 <= i < |db.users| ==> db.users[i].connections == 0
    ensures Inv(Started(serverFd, db))
  {
    var none: Clients := map[];
    forall i | 0 <= i < |db.users| ensures db.users[i].connections == |Sessions(none, db.users[i].uuid)| {
      assert Sessions(none, db.users[i].uuid) == {};
    }
  }
}
