/**
  The server itself: it keeps the database, the clients under their descriptors and the poll set, and
  updates them in place. Every method is proved against the state machine.
*/
module ServerClass {
  import opened Text
  import opened Tokens
  import opened Json
  import opened Protocol
  import opened Framing
  import opened Model
  import opened Lookup
  import opened Commands
  import opened Delivery
  import opened Save
  import opened SaveRoundTrip
  import opened ServerState

  // ---------------------------------------------------------------------------
  // Histories of consecutive outputs

  lemma LogAppend(log: map<int, Log>, a: seq<Out>, b: seq<Out>)
    ensures LogOuts(LogOuts(log, a), b) == LogOuts(log, a + b)
  {
    forall f | f in log ensures LogOuts(LogOuts(log, a), b)[f] == LogOuts(log, a + b)[f] {
      FramesForAppend(f, a, b);
      ConcatAssoc(log[f].queued, FramesFor(f, a), FramesFor(f, b));
    }
  }

  lemma LogNothing(log: map<int, Log>)
    ensures LogOuts(log, []) == log
  {
    forall f | f in log ensures LogOuts(log, [])[f] == log[f] {
      assert log[f].queued + [] == log[f].queued;
    }
  }

  lemma ToEachSnoc(fd: int, frames: seq<Frame>, frame: Frame)
    ensures ToEach(fd, frames + [frame]) == ToEach(fd, frames) + [To(fd, frame)]
  {
  }

  /** A list block up to its `i`th line. */
  function Upto(kind: Kind, lines: seq<Frame>, i: nat): seq<Frame>
    requires i <= |lines|
  {
    [BeginFrame(kind)] + lines[..i]
  }

  lemma NoLineYet(kind: Kind, lines: seq<Frame>)
    ensures Upto(kind, lines, 0) == [BeginFrame(kind)]
  {
  }

  lemma NextLine(kind: Kind, lines: seq<Frame>, i: nat)
    requires i < |lines|
    ensures Upto(kind, lines, i) + [lines[i]] == Upto(kind, lines, i + 1)
  {
  }

  lemma LongerList(kind: Kind, lines: seq<Frame>, line: Frame)
    ensures Upto(kind, lines, |lines|) + [line] == Upto(kind, lines + [line], |lines| + 1)
  {
  }

  lemma {:induction false} SubscribedTeamsAppend(a: seq<Team>, b: seq<Team>, user: string)
    ensures SubscribedTeams(a + b, user) == SubscribedTeams(a, user) + SubscribedTeams(b, user)
  {
    if a == [] {
      assert a + b == b;
    } else {
      assert (a + b)[1..] == a[1..] + b;
      SubscribedTeamsAppend(a[1..], b, user);
    }
  }

  lemma SubscribedTeamsSnoc(teams: seq<Team>, i: nat, user: string)
    requires i < |teams|
    ensures SubscribedTeams(teams[..i + 1], user) ==
            SubscribedTeams(teams[..i], user) + (if user in teams[i].subscribers then [TeamLine(teams[i])] else [])
  {
    assert teams[..i + 1] == teams[..i] + [teams[i]];
    SubscribedTeamsAppend(teams[..i], [teams[i]], user);
    assert [teams[i]][1..] == [];
  }

  lemma {:induction false} SubscriberLinesAppend(db: Database, a: seq<string>, b: seq<string>)
    ensures SubscriberLines(db, a + b) == SubscriberLines(db, a) + SubscriberLines(db, b)
  {
    if a == [] {
      assert a + b == b;
    } else {
      assert (a + b)[1..] == a[1..] + b;
      SubscriberLinesAppend(db, a[1..], b);
    }
  }

  lemma SubscriberLinesSnoc(db: Database, subs: seq<string>, i: nat)
    requires i < |subs|
    ensures SubscriberLines(db, subs[..i + 1]) ==
            SubscriberLines(db, subs[..i]) +
            (match FindUser(db, subs[i]) case None => [] case Some(u) => [UserLine(db.users[u])])
  {
    assert subs[..i + 1] == subs[..i] + [subs[i]];
    SubscriberLinesAppend(db, subs[..i], [subs[i]]);
    assert [subs[i]][1..] == [];
  }

  /** Delivering a frame does not change who the subscribers' clients are. */
  lemma SameAudience(db: Database, a: Clients, b: Clients, team: string, frame: Frame)
    requires b.Keys == a.Keys && forall fd :: fd in a ==> b[fd].user == a[fd].user
    ensures Notify(db, b, team, frame) == Notify(db, a, team, frame)
  {
    if FindTeam(db, team).Some? {
      var subs := db.teams[FindTeam(db, team).value].subscribers;
      forall fd ensures fd in SubscriberSessions(b, subs) <==> fd in SubscriberSessions(a, subs) {
        assert fd in b.Keys <==> fd in a.Keys;
      }
      assert SubscriberSessions(b, subs) == SubscriberSessions(a, subs);
    }
  }

  // ---------------------------------------------------------------------------
  // Command lines in turn

  predicate Follows(s: State, next: State, fd: int, line: string, id: string, now: int) {
    fd in s.clients && CommandArgs(line) != Undefined && next == Command(s, fd, CommandArgs(line).args, id, now)
  }

  predicate FollowsAt(trace: seq<State>, fd: int, lines: seq<string>, ids: seq<string>, times: seq<int>, j: nat)
    requires j < |lines| == |ids| == |times| && |trace| == |lines| + 1
  {
    Follows(trace[j], trace[j + 1], fd, lines[j], ids[j], times[j])
  }

  predicate IsTrace(trace: seq<State>, fd: int, lines: seq<string>, ids: seq<string>, times: seq<int>) {
    && |lines| == |ids| == |times| && |trace| == |lines| + 1
    && forall j :: 0 <= j < |lines| ==> FollowsAt(trace, fd, lines, ids, times, j)
  }

  lemma LongerTrace(trace: seq<State>, fd: int, lines: seq<string>, ids: seq<string>, times: seq<int>, k: nat, next: State)
    requires k < |lines| == |ids| == |times| && IsTrace(trace, fd, lines[..k], ids[..k], times[..k])
    requires Follows(trace[k], next, fd, lines[k], ids[k], times[k])
    ensures IsTrace(trace + [next], fd, lines[..k + 1], ids[..k + 1], times[..k + 1])
  {
    var t, ls, xs, ns := trace + [next], lines[..k + 1], ids[..k + 1], times[..k + 1];
    forall j | 0 <= j < |ls| ensures FollowsAt(t, fd, ls, xs, ns, j) {
      if j < k {
        assert FollowsAt(trace, fd, lines[..k], ids[..k], times[..k], j);
      }
    }
  }

  /** A trace of the command lines ends where running them ends. */
  lemma {:induction false} TraceIsRun(trace: seq<State>, fd: int, lines: seq<string>, ids: seq<string>, times: seq<int>)
    requires IsTrace(trace, fd, lines, ids, times) && Defined(lines) && fd in trace[0].clients
    ensures RunLines(trace[0], fd, lines, ids, times) == trace[|lines|]
    decreases |lines|
  {
    if lines != [] {
      assert FollowsAt(trace, fd, lines, ids, times, 0);
      ShorterTrace(trace, fd, lines, ids, times);
      TraceIsRun(trace[1..], fd, lines[1..], ids[1..], times[1..]);
    }
  }

  lemma ShorterTrace(trace: seq<State>, fd: int, lines: seq<string>, ids: seq<string>, times: seq<int>)
    requires IsTrace(trace, fd, lines, ids, times) && lines != []
    ensures IsTrace(trace[1..], fd, lines[1..], ids[1..], times[1..])
  {
    forall j | 0 <= j < |lines| - 1 ensures FollowsAt(trace[1..], fd, lines[1..], ids[1..], times[1..], j) {
      assert FollowsAt(trace, fd, lines, ids, times, j + 1);
    }
  }

  /** The command lines from one newline to the next. */
  lemma NextCommandLine(s: string, from: nat, end: nat)
    requires from <= end < |s| && end == from + FindNewline(s[from..])
    ensures var line := StripCr(s[from..end]);
            var rest := CommandLines(Framing.Lines(s[end + 1..]));
            CommandLines(Framing.Lines(s[from..])) == if line == "" then rest else [line] + rest
    ensures Tail(s[from..]) == Tail(s[end + 1..])
  {
    CutLine(s, from, end);
    LinesStep(s[from..end], s[end + 1..]);
    var rest := Framing.Lines(s[end + 1..]);
    assert ([s[from..end]] + rest)[1..] == rest;
  }

  lemma TakeLine(lines: seq<string>, k: nat, line: string, rest: seq<string>)
    requires k <= |lines| && lines[k..] == [line] + rest
    ensures k < |lines| && lines[k] == line && lines[k + 1..] == rest
  {
    assert lines[k..][0] == line && lines[k..][1..] == rest;
  }

  /** Behind `pos`, the buffer holds the command lines from the `k`th on. */
  predicate Remains(buffer: string, pos: nat, lines: seq<string>, k: nat) {
    && pos <= |buffer| && k <= |lines|
    && CommandLines(Framing.Lines(buffer[pos..])) == lines[k..]
    && Tail(buffer[pos..]) == Tail(buffer)
  }

  lemma AllRemains(buffer: string)
    ensures Remains(buffer, 0, CommandLines(Framing.Lines(buffer)), 0)
  {
    assert buffer[0..] == buffer;
  }

  lemma LessRemains(buffer: string, pos: nat, end: nat, next: nat, lines: seq<string>, k: nat)
    requires Remains(buffer, pos, lines, k) && pos <= end < |buffer| && end == pos + FindNewline(buffer[pos..])
    requires next == end + 1
    ensures var line := StripCr(buffer[pos..end]);
            && (line != "" ==> k < |lines| && lines[k] == line)
            && Remains(buffer, next, lines, if line == "" then k else k + 1)
  {
    NextCommandLine(buffer, pos, end);
    var line := StripCr(buffer[pos..end]);
    if line != "" {
      TakeLine(lines, k, line, CommandLines(Framing.Lines(buffer[end + 1..])));
    }
  }

  lemma NoneRemains(buffer: string, pos: nat, lines: seq<string>, k: nat)
    requires Remains(buffer, pos, lines, k) && pos + FindNewline(buffer[pos..]) >= |buffer|
    ensures k == |lines| && buffer[pos..] == Tail(buffer)
  {
    NoLineLeft(buffer, pos);
    NoLines(buffer[pos..]);
  }

  /** The state `s` is `k` command lines after `s0`. */
  predicate AfterLines(trace: seq<State>, fd: int, lines: seq<string>, ids: seq<string>, times: seq<int>, k: nat, s0: State, s: State)
  {
    && k <= |lines| == |ids| == |times| && IsTrace(trace, fd, lines[..k], ids[..k], times[..k])
    && trace[0] == s0 && trace[k] == s
  }

  lemma AfterNext(trace: seq<State>, fd: int, lines: seq<string>, ids: seq<string>, times: seq<int>, k: nat, s0: State, s: State,
                    next: State)
    requires AfterLines(trace, fd, lines, ids, times, k, s0, s) && k < |lines|
    requires Follows(s, next, fd, lines[k], ids[k], times[k])
    ensures AfterLines(trace + [next], fd, lines, ids, times, k + 1, s0, next)
  {
    LongerTrace(trace, fd, lines, ids, times, k, next);
  }

  lemma AfterEnd(trace: seq<State>, fd: int, lines: seq<string>, ids: seq<string>, times: seq<int>, s0: State, s: State)
    requires |lines| == |ids| == |times| && AfterLines(trace, fd, lines, ids, times, |lines|, s0, s)
    requires Defined(lines) && fd in s0.clients
    ensures s == RunLines(s0, fd, lines, ids, times)
  {
    assert lines[..|lines|] == lines && ids[..|lines|] == ids && times[..|lines|] == times;
    TraceIsRun(trace, fd, lines, ids, times);
  }

  // ---------------------------------------------------------------------------
  // Poll flags

  predicate DistinctFds(poll: seq<PollEntry>) {
    forall i, j :: 0 <= i < j < |poll| ==> poll[i].fd != poll[j].fd
  }

  /** The flags of all clients but those in `todo` are up to date. */
  predicate FlagsDone(c0: Clients, p0: seq<PollEntry>, c: Clients, p: seq<PollEntry>, todo: set<int>) {
    && todo <= c.Keys == c0.Keys && |p| == |p0| && DistinctFds(p0)
    && (forall fd :: fd in c0 ==> c[fd] == if fd in todo then c0[fd] else Flagged(c0)[fd])
    && (forall i :: 0 <= i < |p0| ==> p[i] == if p0[i].fd in todo then p0[i] else FlaggedPoll(c0, p0)[i])
    && (forall i :: 0 <= i < |p0| && p0[i].fd in c0 ==> p0[i].out == c0[p0[i].fd].pollOut)
  }

  lemma FlagDone(c0: Clients, p0: seq<PollEntry>, c: Clients, p: seq<PollEntry>, todo: set<int>, fd: int,
                 c': Clients, p': seq<PollEntry>)
    requires FlagsDone(c0, p0, c, p, todo) && fd in todo
    requires c' == c[fd := c[fd].(pollOut := Pending(c[fd]))] && |p'| == |p|
    requires forall i :: 0 <= i < |p| ==> p'[i] == if p[i].fd == fd then PollEntry(fd, Pending(c[fd])) else p[i]
    ensures FlagsDone(c0, p0, c', p', todo - {fd})
  {
    forall i | 0 <= i < |p0| ensures p'[i] == if p0[i].fd in todo - {fd} then p0[i] else FlaggedPoll(c0, p0)[i] {
      assert p[i].fd == p0[i].fd;
    }
  }

  /** What the flag update of a client still to do may rely on. */
  lemma FlagReady(c0: Clients, p0: seq<PollEntry>, c: Clients, p: seq<PollEntry>, todo: set<int>, fd: int)
    requires FlagsDone(c0, p0, c, p, todo) && fd in todo
    ensures fd in c && DistinctFds(p) && forall i :: 0 <= i < |p| && p[i].fd == fd ==> p[i].out == c[fd].pollOut
  {
    assert forall i :: 0 <= i < |p0| ==> p[i].fd == p0[i].fd;
  }

  lemma NoFlagDone(s: State)
    requires PollOk(s)
    ensures FlagsDone(s.clients, s.poll, s.clients, s.poll, s.clients.Keys)
  {
  }

  lemma AllFlagsDone(c0: Clients, p0: seq<PollEntry>, c: Clients, p: seq<PollEntry>)
    requires FlagsDone(c0, p0, c, p, {})
    ensures c == Flagged(c0) && p == FlaggedPoll(c0, p0)
  {
    SameClients(c, Flagged(c0));
  }

  lemma SameClients(a: Clients, b: Clients)
    requires a.Keys == b.Keys && forall fd :: fd in a ==> a[fd] == b[fd]
    ensures a == b
  {
    assert forall fd :: fd in a.Keys <==> fd in b.Keys;
    assert forall fd :: fd in a.Keys ==> a[fd] == b[fd];
  }

  /** The frame has reached everyone it is for but those in `todo`. */
  predicate PostedBut(c0: Clients, c: Clients, out: Out, todo: set<int>) {
    && todo <= c.Keys == c0.Keys
    && forall fd :: fd in c0 ==> c[fd] == if fd in todo then c0[fd] else Post(c0, out)[fd]
  }

  lemma PostedNext(c0: Clients, c: Clients, out: Out, todo: set<int>, fd: int)
    requires PostedBut(c0, c, out, todo) && fd in todo
    ensures PostedBut(c0, if fd in out.to then c[fd := Append(c[fd], out.frame)] else c, out, todo - {fd})
  {
  }

  lemma SomeLeft(todo: set<int>)
    ensures todo == {} || exists fd :: fd in todo
  {
    if forall fd :: fd !in todo {
      assert todo == {};
    }
  }

  lemma Smaller(todo: set<int>, fd: int)
    requires fd in todo
    ensures |todo - {fd}| < |todo|
  {
  }

  /** The scan for a taken name. */
  method HasKey(keys: seq<string>, key: string) returns (r: bool)
    ensures r == Index(keys, key).Some?
  {
    for i := 0 to |keys|
      invariant forall j :: 0 <= j < i ==> keys[j] != key
    {
      if keys[i] == key {
        IndexIs(keys, key, i);
        return true;
      }
    }
    return false;
  }

  method Unsubscribed(subs: seq<string>, user: string) returns (r: seq<string>)
    ensures r == Without(subs, user)
  {
    var list := new string[|subs|](i requires 0 <= i < |subs| => subs[i]);
    assert list[..] == subs;
    var removed, kept := RemoveSubscriber(list, user);
    r := list[..kept];
  }

  /** A frame's text, part by part. */
  method Compose(frame: Frame) returns (text: string)
    ensures text == FrameText(frame)
  {
    text := "";
    var i := |frame|;
    while i > 0
      invariant 0 <= i <= |frame|
      invariant text == FrameText(frame[i..])
    {
      i := i - 1;
      var part := frame[i].text;
      match frame[i] {
        case Word(_) =>
        case Field(t) => part := QuoteProtocolField(t);
        case Raw(t) => part := "\"" + t + "\"";
      }
      assert frame[i..][1..] == frame[i + 1..];
      text := if i == |frame| - 1 then part else part + (" " + text);
    }
    assert frame[0..] == frame;
  }

  class Server {
    const serverFd: int
    var db: Database
    var clients: Clients
    var poll: seq<PollEntry>
    ghost var log: map<int, Log>

    ghost function Abs(): State
      reads this
    {
      State(serverFd, db, clients, poll, log)
    }

    /** The state that an effect of client `fd` makes of `s`. */
    ghost predicate Has(s: State, fd: int, e: Effect)
      requires fd in s.clients
      reads this
    {
      && serverFd == s.serverFd && poll == s.poll && db == e.db
      && clients == Apply(s.clients, fd, e) && log == LogOuts(s.log, e.outs)
    }

    constructor (serverFd: int, db: Database)
      ensures Abs() == Started(serverFd, db)
    {
      this.serverFd := serverFd;
      this.db := db;
      clients, poll, log := map[], [PollEntry(serverFd, false)], map[];
    }

    // -------------------------------------------------------------------------
    // Output

    method SendToClient(frame: Frame, fd: int)
      requires fd in clients
      modifies this`clients, this`log
      ensures clients == Post(old(clients), To(fd, frame)) && log == LogOuts(old(log), [To(fd, frame)])
    {
      var text := Compose(frame);
      clients := clients[fd := clients[fd].(writeBuffer := clients[fd].writeBuffer + (text + "\r\n"))];
      log := LogOuts(log, [To(fd, frame)]);
    }

    /** The loop over all clients, in any order, of those that `to` selects. */
    method SendToAllOf(frame: Frame, to: set<int>)
      modifies this`clients, this`log
      ensures clients == Post(old(clients), Out(to, frame)) && log == LogOuts(old(log), [Out(to, frame)])
    {
      var text := Compose(frame);
      var todo := clients.Keys;
      ghost var out := Out(to, frame);
      while todo != {}
        invariant PostedBut(old(clients), clients, out, todo) && log == old(log)
        decreases |todo|
      {
        SomeLeft(todo);
        var fd :| fd in todo;
        PostedNext(old(clients), clients, out, todo, fd);
        Smaller(todo, fd);
        if fd in to {
          clients := clients[fd := clients[fd].(writeBuffer := clients[fd].writeBuffer + (text + "\r\n"))];
        }
        todo := todo - {fd};
      }
      log := LogOuts(log, [out]);
      SameClients(clients, Post(old(clients), out));
    }

    method Broadcast(frame: Frame)
      modifies this`clients, this`log
      ensures clients == Post(old(clients), ToAll(old(clients), frame))
      ensures log == LogOuts(old(log), [ToAll(old(clients), frame)])
    {
      SendToAllOf(frame, clients.Keys);
    }

    method SendToUser(user: string, frame: Frame)
      modifies this`clients, this`log
      ensures clients == Post(old(clients), Out(Sessions(old(clients), user), frame))
      ensures log == LogOuts(old(log), [Out(Sessions(old(clients), user), frame)])
    {
      SendToAllOf(frame, Sessions(clients, user));
    }

    method NotifySubscribers(team: string, frame: Frame)
      modifies this`clients, this`log
      ensures clients == Deliver(old(clients), Notify(db, old(clients), team, frame))
      ensures log == LogOuts(old(log), Notify(db, old(clients), team, frame))
    {
      LogNothing(log);
      if team == "" {
        return;
      }
      var t := SearchTeam(db, team);
      if t.None? {
        return;
      }
      var to := SubscriberSessions(clients, db.teams[t.value].subscribers);
      DeliverOne(clients, Out(to, frame));
      SendToAllOf(frame, to);
    }

    /** One frame to the requester and nothing else. */
    method Reply(fd: int, frame: Frame)
      requires fd in clients
      modifies this`clients, this`log
      ensures Has(old(Abs()), fd, Answer(db, old(clients)[fd], fd, frame))
    {
      SameSession(clients, fd);
      DeliverOne(clients, To(fd, frame));
      SendToClient(frame, fd);
    }

    /** Another frame to the requester behind those already sent. */
    method SendNext(fd: int, frame: Frame, ghost start: State, ghost sent: seq<Frame>)
      requires fd in clients && clients == Deliver(start.clients, ToEach(fd, sent)) && log == LogOuts(start.log, ToEach(fd, sent))
      modifies this`clients, this`log
      ensures fd in clients && clients == Deliver(start.clients, ToEach(fd, sent + [frame]))
      ensures log == LogOuts(start.log, ToEach(fd, sent + [frame]))
    {
      ToEachSnoc(fd, sent, frame);
      DeliverSnoc(start.clients, ToEach(fd, sent), To(fd, frame));
      LogAppend(start.log, ToEach(fd, sent), [To(fd, frame)]);
      SendToClient(frame, fd);
    }

    method BeginList(fd: int, kind: Kind)
      requires fd in clients
      modifies this`clients, this`log
      ensures fd in clients && clients == Deliver(old(clients), ToEach(fd, [BeginFrame(kind)]))
      ensures log == LogOuts(old(log), ToEach(fd, [BeginFrame(kind)]))
    {
      ghost var start := Abs();
      LogNothing(log);
      assert ToEach(fd, []) == [];
      assert [] + [BeginFrame(kind)] == [BeginFrame(kind)];
      SendNext(fd, BeginFrame(kind), start, []);
    }

    /** One more line of an open list. */
    method SendLine(fd: int, kind: Kind, line: Frame, ghost start: State, ghost lines: seq<Frame>)
      requires fd in clients && clients == Deliver(start.clients, ToEach(fd, Upto(kind, lines, |lines|)))
      requires log == LogOuts(start.log, ToEach(fd, Upto(kind, lines, |lines|)))
      modifies this`clients, this`log
      ensures fd in clients && clients == Deliver(start.clients, ToEach(fd, Upto(kind, lines + [line], |lines + [line]|)))
      ensures log == LogOuts(start.log, ToEach(fd, Upto(kind, lines + [line], |lines + [line]|)))
    {
      LongerList(kind, lines, line);
      SendNext(fd, line, start, Upto(kind, lines, |lines|));
    }

    method EndList(fd: int, kind: Kind, ghost start: State, ghost lines: seq<Frame>)
      requires fd in clients && fd in start.clients && serverFd == start.serverFd && poll == start.poll
      requires clients == Deliver(start.clients, ToEach(fd, Upto(kind, lines, |lines|)))
      requires log == LogOuts(start.log, ToEach(fd, Upto(kind, lines, |lines|)))
      modifies this`clients, this`log
      ensures Has(start, fd, AnswerList(db, start.clients[fd], fd, kind, lines))
    {
      assert Upto(kind, lines, |lines|) + [EndFrame(kind)] == ListBlock(kind, lines);
      SameSession(start.clients, fd);
      SendNext(fd, EndFrame(kind), start, Upto(kind, lines, |lines|));
    }

    /** A list block with one line for each element. */
    method SendList<T(!new)>(fd: int, kind: Kind, xs: seq<T>, line: T -> Frame)
      requires fd in clients
      modifies this`clients, this`log
      ensures Has(old(Abs()), fd, AnswerList(db, old(clients)[fd], fd, kind, MapSeq(xs, line)))
    {
      ghost var start, lines := Abs(), MapSeq(xs, line);
      BeginList(fd, kind);
      NoLineYet(kind, lines);
      for i := 0 to |xs|
        invariant fd in clients && clients == Deliver(start.clients, ToEach(fd, Upto(kind, lines, i)))
        invariant log == LogOuts(start.log, ToEach(fd, Upto(kind, lines, i)))
      {
        NextLine(kind, lines, i);
        SendNext(fd, line(xs[i]), start, Upto(kind, lines, i));
      }
      EndList(fd, kind, start, lines);
    }

    // -------------------------------------------------------------------------
    // Sessions

    /** The client becomes user `i`: the answer to it, then the announcement to all. */
    method EnterUser(fd: int, i: nat, ghost start: State)
      requires fd in clients && serverFd == start.serverFd && poll == start.poll && clients == start.clients && log == start.log
      requires i < |db.users| && db.teams == start.db.teams
      modifies this`clients, this`log
      ensures Has(start, fd, Enter(start.db, start.clients, fd, db.users, i))
    {
      var u := db.users[i];
      ghost var first := To(fd, [Word("200"), Word("OK"), Raw(u.uuid), Raw(u.name)]);
      ghost var second := ToAll(clients, LoggedIn(u));
      ghost var seated := SetSession(clients, fd, u.uuid, clients[fd].ctx);
      DeliverOne(seated, first);
      DeliverSnoc(seated, [first], second);
      LogAppend(log, [first], [second]);
      assert [first] + [second] == [first, second];
      clients := clients[fd := clients[fd].(user := u.uuid)];
      SendToClient([Word("200"), Word("OK"), Raw(u.uuid), Raw(u.name)], fd);
      Broadcast(LoggedIn(u));
    }

    method Login(fd: int, args: seq<string>, id: string)
      requires fd in clients
      modifies this`db, this`clients, this`log
      ensures Has(old(Abs()), fd, Commands.Login(old(db), old(clients), fd, args, id))
    {
      if |args| < 2 {
        Reply(fd, BAD_REQUEST);
        return;
      }
      if clients[fd].user != "" {
        Reply(fd, UNAUTHORIZED);
        return;
      }
      if InvalidLength(args[1], MAX_NAME_LENGTH) {
        Reply(fd, BAD_REQUEST);
        return;
      }
      ghost var start := Abs();
      var known := SearchUserByName(db, args[1]);
      if known.None? {
        var i := |db.users|;
        db := db.(users := db.users + [User(id, args[1], 1, [], map[])]);
        EnterUser(fd, i, start);
      } else {
        var u := db.users[known.value];
        db := db.(users := db.users[known.value := u.(connections := u.connections + 1)]);
        EnterUser(fd, known.value, start);
      }
    }

    /** One session less, and whom to announce. */
    method ReleaseUser(user: string) returns (gone: Option<User>)
      modifies this`db
      ensures (db, gone) == Release(old(db), user)
    {
      var i := SearchUser(db, user);
      if i.None? {
        return None;
      }
      var u := Released(db.users[i.value]);
      db := db.(users := db.users[i.value := u]);
      gone := if u.connections > 0 then None else Some(u);
    }

    method Announce(gone: Option<User>)
      modifies this`clients, this`log
      ensures clients == Deliver(old(clients), Farewell(old(clients), gone))
      ensures log == LogOuts(old(log), Farewell(old(clients), gone))
    {
      LogNothing(log);
      if gone.Some? {
        DeliverOne(clients, ToAll(clients, LoggedOut(gone.value)));
        Broadcast(LoggedOut(gone.value));
      }
    }

    method Logout(fd: int)
      requires fd in clients
      modifies this`db, this`clients, this`log
      ensures Has(old(Abs()), fd, Commands.Logout(old(db), old(clients), fd))
    {
      if clients[fd].user == "" {
        Reply(fd, UNAUTHORIZED);
        return;
      }
      ghost var was := clients;
      var gone := ReleaseUser(clients[fd].user);
      ghost var outs := Farewell(clients, gone);
      SessionCommutes(was, outs, fd, "", was[fd].ctx);
      DeliverKeepsSessions(was, outs);
      DeliverSnoc(SetSession(was, fd, "", was[fd].ctx), outs, To(fd, OK));
      LogAppend(log, outs, [To(fd, OK)]);
      Announce(gone);
      clients := clients[fd := clients[fd].(user := "")];
      SendToClient(OK, fd);
    }

    // -------------------------------------------------------------------------
    // Users and messages

    method AddMessageTo(i: nat, other: string, m: Message)
      requires i < |db.users|
      modifies this`db
      ensures db == old(db).(users := old(db).users[i := AddMessage(old(db).users[i], other, m)])
    {
      var u := db.users[i];
      var stored := if other in u.messages then u.messages[other] else [];
      db := db.(users := db.users[i := u.(messages := u.messages[other := stored + [m]])]);
    }

    method Send(fd: int, args: seq<string>, now: int)
      requires fd in clients
      modifies this`db, this`clients, this`log
      ensures Has(old(Abs()), fd, Commands.Send(old(db), old(clients), fd, args, now))
    {
      if |args| < 3 || args[1] == "" || InvalidLength(args[2], MAX_BODY_LENGTH) {
        Reply(fd, BAD_REQUEST);
        return;
      }
      var s := SearchUser(db, clients[fd].user);
      if s.None? {
        Reply(fd, UNAUTHORIZED);
        return;
      }
      var r := SearchUser(db, args[1]);
      if r.None? {
        Reply(fd, NotFoundKind("USER", args[1]));
        return;
      }
      var sender, receiver := db.users[s.value].uuid, db.users[r.value].uuid;
      var m := Message(sender, receiver, now, args[2]);
      AddMessageTo(s.value, receiver, m);
      AddMessageTo(r.value, sender, m);
      DeliverMessage(fd, receiver, [Word("EVENT"), Word("PRIVATE_MESSAGE"), Field(sender), Field(args[2])]);
    }

    /** Tell the receiver, then answer. */
    method DeliverMessage(fd: int, receiver: string, event: Frame)
      requires fd in clients
      modifies this`clients, this`log
      ensures Has(old(Abs()), fd, Effect(db, old(clients)[fd].user, old(clients)[fd].ctx,
                                         [Out(Sessions(old(clients), receiver), event), To(fd, OK)]))
    {
      ghost var first := Out(Sessions(clients, receiver), event);
      SameSession(clients, fd);
      DeliverOne(clients, first);
      DeliverSnoc(clients, [first], To(fd, OK));
      LogAppend(log, [first], [To(fd, OK)]);
      assert [first] + [To(fd, OK)] == [first, To(fd, OK)];
      SendToUser(receiver, event);
      SendToClient(OK, fd);
    }

    method ListMessages(fd: int, args: seq<string>)
      requires fd in clients
      modifies this`clients, this`log
      ensures Has(old(Abs()), fd, Commands.MessagesOf(db, old(clients), fd, args))
    {
      if clients[fd].user == "" {
        Reply(fd, UNAUTHORIZED);
        return;
      }
      if |args| < 2 || args[1] == "" {
        Reply(fd, BAD_REQUEST);
        return;
      }
      var s := SearchUser(db, clients[fd].user);
      if s.None? {
        Reply(fd, UNAUTHORIZED);
        return;
      }
      var r := SearchUser(db, args[1]);
      if r.None? {
        Reply(fd, NotFoundKind("USER", args[1]));
        return;
      }
      SendList(fd, Messages, Conversation(db.users[s.value], args[1]), MessageLine);
    }

    method ShowUser(fd: int, args: seq<string>)
      requires fd in clients
      modifies this`clients, this`log
      ensures Has(old(Abs()), fd, Commands.UserInfo(db, old(clients), fd, args))
    {
      if clients[fd].user == "" {
        Reply(fd, UNAUTHORIZED);
        return;
      }
      if |args| < 2 {
        Reply(fd, BAD_REQUEST);
        return;
      }
      var i := SearchUser(db, args[1]);
      if i.None? {
        Reply(fd, NotFound(args[1]));
        return;
      }
      var u := db.users[i.value];
      Reply(fd, [Word("200"), Word("USER"), Field(u.uuid), Field(u.name), Connected(u)]);
    }

    method ListAllUsers(fd: int)
      requires fd in clients
      modifies this`clients, this`log
      ensures Has(old(Abs()), fd, Commands.ListUsers(db, old(clients), fd))
    {
      if clients[fd].user == "" {
        Reply(fd, UNAUTHORIZED);
        return;
      }
      SendList(fd, Users, db.users, UserLine);
    }

    // -------------------------------------------------------------------------
    // Subscriptions

    /** Tell the team, then answer. */
    method NotifyThenAnswer(fd: int, team: string, event: Frame, answer: Frame, ghost start: State)
      requires fd in clients && serverFd == start.serverFd && poll == start.poll && clients == start.clients && log == start.log
      modifies this`clients, this`log
      ensures Has(start, fd, Effect(db, start.clients[fd].user, start.clients[fd].ctx,
                                    Notify(db, start.clients, team, event) + [To(fd, answer)]))
    {
      ghost var outs := Notify(db, clients, team, event);
      SameSession(clients, fd);
      DeliverSnoc(clients, outs, To(fd, answer));
      LogAppend(log, outs, [To(fd, answer)]);
      NotifySubscribers(team, event);
      SendToClient(answer, fd);
    }

    method SubscribeTeam(fd: int, args: seq<string>)
      requires fd in clients
      modifies this`db, this`clients, this`log
      ensures Has(old(Abs()), fd, Commands.SubscribeTo(old(db), old(clients), fd, args))
    {
      var user := clients[fd].user;
      if user == "" {
        Reply(fd, UNAUTHORIZED);
        return;
      }
      if |args| < 2 || args[1] == "" {
        Reply(fd, BAD_REQUEST);
        return;
      }
      var team := SearchTeam(db, args[1]);
      if team.None? {
        Reply(fd, NotFoundKind("TEAM", args[1]));
        return;
      }
      var done := [Word("200"), Word("SUBSCRIBE"), Field(user), Field(args[1])];
      if user in db.teams[team.value].subscribers {
        Reply(fd, done);
        return;
      }
      ghost var start := Abs();
      var added, subs := AddSubscriber(db.teams[team.value].subscribers, user);
      db := SetSubscribers(db, team.value, subs);
      NotifyThenAnswer(fd, args[1], [Word("user_subscribed"), Raw(args[1]), Raw(user)], done, start);
    }

    method UnsubscribeTeam(fd: int, args: seq<string>)
      requires fd in clients
      modifies this`db, this`clients, this`log
      ensures Has(old(Abs()), fd, Commands.UnsubscribeFrom(old(db), old(clients), fd, args))
    {
      var user := clients[fd].user;
      if user == "" {
        Reply(fd, UNAUTHORIZED);
        return;
      }
      if |args| < 2 || args[1] == "" {
        Reply(fd, BAD_REQUEST);
        return;
      }
      var team := SearchTeam(db, args[1]);
      if team.None? {
        Reply(fd, NotFoundKind("TEAM", args[1]));
        return;
      }
      var subscribers := db.teams[team.value].subscribers;
      if user !in subscribers {
        Reply(fd, FORBIDDEN);
        return;
      }
      ghost var start := Abs();
      var subs := Unsubscribed(subscribers, user);
      db := SetSubscribers(db, team.value, subs);
      NotifyThenAnswer(fd, args[1], [Word("user_unsubscribed"), Raw(args[1]), Raw(user)],
                       [Word("200"), Word("UNSUBSCRIBE"), Field(user), Field(args[1])], start);
    }

    method SendSubscribedTeams(fd: int, user: string)
      requires fd in clients
      modifies this`clients, this`log
      ensures Has(old(Abs()), fd, AnswerList(db, old(clients)[fd], fd, Teams, SubscribedTeams(db.teams, user)))
    {
      ghost var start := Abs();
      BeginList(fd, Teams);
      ghost var lines: seq<Frame> := [];
      NoLineYet(Teams, lines);
      for i := 0 to |db.teams|
        invariant fd in clients && db == start.db && lines == SubscribedTeams(db.teams[..i], user)
        invariant clients == Deliver(start.clients, ToEach(fd, Upto(Teams, lines, |lines|)))
        invariant log == LogOuts(start.log, ToEach(fd, Upto(Teams, lines, |lines|)))
      {
        SubscribedTeamsSnoc(db.teams, i, user);
        if user in db.teams[i].subscribers {
          var line := TeamLine(db.teams[i]);
          SendLine(fd, Teams, line, start, lines);
          lines := lines + [line];
        }
      }
      assert db.teams[..|db.teams|] == db.teams;
      EndList(fd, Teams, start, lines);
    }

    method SendSubscribers(fd: int, subs: seq<string>)
      requires fd in clients
      modifies this`clients, this`log
      ensures Has(old(Abs()), fd, AnswerList(db, old(clients)[fd], fd, Users, SubscriberLines(db, subs)))
    {
      ghost var start := Abs();
      BeginList(fd, Users);
      ghost var lines: seq<Frame> := [];
      NoLineYet(Users, lines);
      for i := 0 to |subs|
        invariant fd in clients && db == start.db && lines == SubscriberLines(db, subs[..i])
        invariant clients == Deliver(start.clients, ToEach(fd, Upto(Users, lines, |lines|)))
        invariant log == LogOuts(start.log, ToEach(fd, Upto(Users, lines, |lines|)))
      {
        SubscriberLinesSnoc(db, subs, i);
        var user := SearchUser(db, subs[i]);
        if user.Some? {
          var line := UserLine(db.users[user.value]);
          SendLine(fd, Users, line, start, lines);
          lines := lines + [line];
        }
      }
      assert subs[..|subs|] == subs;
      EndList(fd, Users, start, lines);
    }

    method ShowSubscribed(fd: int, args: seq<string>)
      requires fd in clients
      modifies this`clients, this`log
      ensures Has(old(Abs()), fd, Commands.Subscribed(db, old(clients), fd, args))
    {
      if clients[fd].user == "" {
        Reply(fd, UNAUTHORIZED);
        return;
      }
      if |args| < 2 {
        SendSubscribedTeams(fd, clients[fd].user);
        return;
      }
      if |args| > 2 || args[1] == "" {
        Reply(fd, BAD_REQUEST);
        return;
      }
      var team := SearchTeam(db, args[1]);
      if team.None? {
        Reply(fd, NotFoundKind("TEAM", args[1]));
        return;
      }
      SendSubscribers(fd, db.teams[team.value].subscribers);
    }

    // -------------------------------------------------------------------------
    // Context

    /** Only answers to the requester so far. */
    ghost predicate Answered(fd: int, start: State, sent: seq<Frame>)
      reads this
    {
      && fd in clients && fd in start.clients && serverFd == start.serverFd && poll == start.poll && db == start.db
      && clients == Deliver(start.clients, ToEach(fd, sent)) && log == LogOuts(start.log, ToEach(fd, sent))
    }

    method AnswerNext(fd: int, frame: Frame, ghost start: State, ghost sent: seq<Frame>)
      requires Answered(fd, start, sent)
      modifies this`clients, this`log
      ensures Answered(fd, start, sent + [frame])
    {
      SendNext(fd, frame, start, sent);
    }

    /** Install the context after the answers. */
    method Commit(fd: int, ctx: Context, ghost start: State, ghost sent: seq<Frame>)
      requires Answered(fd, start, sent)
      modifies this`clients
      ensures Has(start, fd, Effect(db, start.clients[fd].user, ctx, ToEach(fd, sent)))
    {
      DeliverKeepsSessions(start.clients, ToEach(fd, sent));
      SessionCommutes(start.clients, ToEach(fd, sent), fd, start.clients[fd].user, ctx);
      clients := clients[fd := clients[fd].(ctx := ctx)];
    }

    /** A level that does not validate: the refusal, and the context stays. */
    method Refuse(fd: int, refusal: Frame, ghost start: State, ghost sent: seq<Frame>)
      requires Answered(fd, start, sent)
      modifies this`clients, this`log
      ensures Has(start, fd, Effect(db, start.clients[fd].user, start.clients[fd].ctx, ToEach(fd, sent + [refusal])))
    {
      AnswerNext(fd, refusal, start, sent);
      SameSession(start.clients, fd);
    }

    method UseContext(fd: int, args: seq<string>)
      requires fd in clients
      modifies this`clients, this`log
      ensures Has(old(Abs()), fd, Commands.Use(db, old(clients), fd, args))
    {
      if clients[fd].user == "" {
        Reply(fd, UNAUTHORIZED);
        return;
      }
      if |args| > 4 {
        Reply(fd, BAD_REQUEST);
        return;
      }
      var found := UseTeam(fd, args);
      if found {
        ValidateChannel(fd, args, old(Abs()), [OK]);
      }
    }

    /** The first level; a context without a team is installed at once. */
    method UseTeam(fd: int, args: seq<string>) returns (found: bool)
      requires fd in clients && clients[fd].user != "" && |args| <= 4
      modifies this`clients, this`log
      ensures found ==> 2 <= |args| && Answered(fd, old(Abs()), [OK])
      ensures found ==> Commands.Use(db, old(clients), fd, args) == Commands.UseChannel(db, old(clients)[fd], fd, args, [OK])
      ensures !found ==> Has(old(Abs()), fd, Commands.Use(db, old(clients), fd, args))
    {
      ghost var start := Abs();
      LogNothing(log);
      assert ToEach(fd, []) == [];
      assert [] + [OK] == [OK];
      if |args| < 2 {
        AnswerNext(fd, OK, start, []);
        Commit(fd, NO_CONTEXT, start, [OK]);
        return false;
      }
      var team := SearchTeam(db, args[1]);
      if team.None? {
        Reply(fd, NotFoundKind("TEAM", args[1]));
        return false;
      }
      if clients[fd].user !in db.teams[team.value].subscribers {
        Reply(fd, FORBIDDEN);
        return false;
      }
      AnswerNext(fd, OK, start, []);
      return true;
    }

    method ValidateChannel(fd: int, args: seq<string>, ghost start: State, ghost sent: seq<Frame>)
      requires Answered(fd, start, sent) && 2 <= |args|
      modifies this`clients, this`log
      ensures Has(start, fd, Commands.UseChannel(db, start.clients[fd], fd, args, sent))
    {
      if |args| < 3 {
        Commit(fd, Context(args[1], "", ""), start, sent);
        return;
      }
      var channel := SearchChannel(db, args[1], args[2]);
      if channel.None? {
        Refuse(fd, NotFoundKind("CHANNEL", args[2]), start, sent);
        return;
      }
      AnswerNext(fd, OK, start, sent);
      ValidateThread(fd, args, start, sent + [OK]);
    }

    method ValidateThread(fd: int, args: seq<string>, ghost start: State, ghost sent: seq<Frame>)
      requires Answered(fd, start, sent) && 3 <= |args|
      modifies this`clients, this`log
      ensures Has(start, fd, Commands.UseThread(db, start.clients[fd], fd, args, sent))
    {
      if |args| < 4 {
        Commit(fd, Context(args[1], args[2], ""), start, sent);
        return;
      }
      var thread := SearchThread(db, args[2], args[3]);
      if thread.None? {
        Refuse(fd, NotFoundKind("THREAD", args[3]), start, sent);
        return;
      }
      AnswerNext(fd, OK, start, sent);
      Commit(fd, Context(args[1], args[2], args[3]), start, sent + [OK]);
    }

    // -------------------------------------------------------------------------
    // Creation

    /** Answer the creator, then tell the team. */
    method AnswerThenNotify(fd: int, team: string, answer: Frame, event: Frame, ghost start: State)
      requires fd in clients && serverFd == start.serverFd && poll == start.poll && clients == start.clients && log == start.log
      modifies this`clients, this`log
      ensures Has(start, fd, Effect(db, start.clients[fd].user, start.clients[fd].ctx,
                                    [To(fd, answer)] + Notify(db, start.clients, team, event)))
    {
      ghost var first, outs := To(fd, answer), Notify(db, clients, team, event);
      SameSession(clients, fd);
      DeliverOne(clients, first);
      DeliverAppend(clients, [first], outs);
      LogAppend(log, [first], outs);
      SameAudience(db, clients, Post(clients, first), team, event);
      SendToClient(answer, fd);
      NotifySubscribers(team, event);
    }

    method CreateTeam(fd: int, args: seq<string>, id: string)
      requires fd in clients
      modifies this`db, this`clients, this`log
      ensures Has(old(Abs()), fd, Commands.CreateTeam(old(db), old(clients), fd, args, id))
    {
      if |args| < 3 || InvalidLength(args[1], MAX_NAME_LENGTH) || InvalidLength(args[2], MAX_DESCRIPTION_LENGTH) {
        Reply(fd, BAD_REQUEST);
        return;
      }
      var taken := HasKey(TeamNames(db.teams), args[1]);
      if taken {
        Reply(fd, ALREADY_EXISTS);
        return;
      }
      var user := clients[fd].user;
      var team := Team(id, args[1], args[2], if user != "" then [user] else [], []);
      db := db.(teams := db.teams + [team]);
      ghost var first := To(fd, [Word("201"), Word("CREATED"), Word("TEAM"), Field(id), Field(args[1]), Field(args[2])]);
      ghost var second := ToAll(clients, [Word("EVENT"), Word("TEAM_CREATED"), Field(id), Field(args[1]), Field(args[2])]);
      SameSession(clients, fd);
      DeliverOne(clients, first);
      DeliverSnoc(clients, [first], second);
      LogAppend(log, [first], [second]);
      assert [first] + [second] == [first, second];
      SendToClient([Word("201"), Word("CREATED"), Word("TEAM"), Field(id), Field(args[1]), Field(args[2])], fd);
      Broadcast([Word("EVENT"), Word("TEAM_CREATED"), Field(id), Field(args[1]), Field(args[2])]);
    }

    /** The team of the context, or the refusal already sent. */
    method FindAccessibleTeam(fd: int) returns (team: Option<nat>)
      requires fd in clients
      modifies this`clients, this`log
      ensures team == AccessibleTeam(db, old(clients)[fd]).0
      ensures team.Some? ==> clients == old(clients) && log == old(log)
      ensures team.None? ==> Has(old(Abs()), fd, Answer(db, old(clients)[fd], fd, AccessibleTeam(db, old(clients)[fd]).1))
    {
      team := SearchTeam(db, clients[fd].ctx.team);
      if team.None? {
        Reply(fd, NotFound(clients[fd].ctx.team));
      } else if clients[fd].user !in db.teams[team.value].subscribers {
        Reply(fd, FORBIDDEN);
        team := None;
      }
    }

    method CreateChannel(fd: int, args: seq<string>, id: string)
      requires fd in clients
      modifies this`db, this`clients, this`log
      ensures Has(old(Abs()), fd, Commands.CreateChannel(old(db), old(clients), fd, args, id))
    {
      var team := FindAccessibleTeam(fd);
      if team.None? {
        return;
      }
      if |args| < 3 || InvalidLength(args[1], MAX_NAME_LENGTH) || InvalidLength(args[2], MAX_DESCRIPTION_LENGTH) {
        Reply(fd, BAD_REQUEST);
        return;
      }
      var channels := db.teams[team.value].channels;
      var taken := HasKey(ChannelNames(channels), args[1]);
      if taken {
        Reply(fd, ALREADY_EXISTS);
        return;
      }
      ghost var start := Abs();
      db := SetChannels(db, team.value, channels + [Channel(id, args[1], args[2], [])]);
      AnswerThenNotify(fd, clients[fd].ctx.team,
                       [Word("201"), Word("CREATED"), Word("CHANNEL"), Field(id), Field(args[1]), Field(args[2])],
                       [Word("EVENT"), Word("CHANNEL_CREATED"), Field(id), Field(args[1]), Field(args[2])], start);
    }

    method CreateThread(fd: int, args: seq<string>, id: string, now: int)
      requires fd in clients
      modifies this`db, this`clients, this`log
      ensures Has(old(Abs()), fd, Commands.CreateThread(old(db), old(clients), fd, args, id, now))
    {
      var team := FindAccessibleTeam(fd);
      if team.None? {
        return;
      }
      var me := clients[fd];
      var channel := SearchChannel(db, me.ctx.team, me.ctx.channel);
      if channel.None? {
        Reply(fd, NotFound(me.ctx.channel));
        return;
      }
      if |args| < 3 || InvalidLength(args[1], MAX_NAME_LENGTH) || InvalidLength(args[2], MAX_BODY_LENGTH) {
        Reply(fd, BAD_REQUEST);
        return;
      }
      var (t, c) := channel.value;
      var threads := db.teams[t].channels[c].threads;
      var taken := HasKey(ThreadTitles(threads), args[1]);
      if taken {
        Reply(fd, ALREADY_EXISTS);
        return;
      }
      ghost var start := Abs();
      db := SetThreads(db, t, c, threads + [Thread(id, me.user, now, args[1], args[2], [])]);
      var fields := [Field(id), Field(me.user), Time(now), Field(args[1]), Field(args[2])];
      AnswerThenNotify(fd, me.ctx.team, [Word("201"), Word("CREATED"), Word("THREAD")] + fields,
                       [Word("EVENT"), Word("THREAD_CREATED")] + fields, start);
    }

    method CreateReply(fd: int, args: seq<string>, id: string, now: int)
      requires fd in clients
      modifies this`db, this`clients, this`log
      ensures Has(old(Abs()), fd, Commands.CreateReply(old(db), old(clients), fd, args, id, now))
    {
      var team := FindAccessibleTeam(fd);
      if team.None? {
        return;
      }
      var me := clients[fd];
      var channel := SearchChannel(db, me.ctx.team, me.ctx.channel);
      if channel.None? {
        Reply(fd, NotFound(me.ctx.channel));
        return;
      }
      var thread := SearchThread(db, me.ctx.channel, me.ctx.thread);
      if thread.None? {
        Reply(fd, NotFound(me.ctx.thread));
        return;
      }
      if |args| < 2 || InvalidLength(args[1], MAX_BODY_LENGTH) {
        Reply(fd, BAD_REQUEST);
        return;
      }
      var (t, c, h) := thread.value;
      ghost var start := Abs();
      db := AddReply(db, t, c, h, Model.Reply(id, me.user, now, args[1]));
      AnswerThenNotify(fd, me.ctx.team,
                       [Word("201"), Word("CREATED"), Word("REPLY"), Field(me.ctx.thread), Field(me.user), Time(now), Field(args[1])],
                       [Word("EVENT"), Word("REPLY_CREATED"), Field(me.ctx.team), Field(me.ctx.thread), Field(me.user), Field(args[1])],
                       start);
    }

    method Create(fd: int, args: seq<string>, id: string, now: int)
      requires fd in clients
      modifies this`db, this`clients, this`log
      ensures Has(old(Abs()), fd, Commands.Create(old(db), old(clients), fd, args, id, now))
    {
      var me := clients[fd];
      if me.user == "" {
        Reply(fd, UNAUTHORIZED);
      } else if me.ctx.team == "" {
        CreateTeam(fd, args, id);
      } else if me.ctx.channel == "" {
        CreateChannel(fd, args, id);
      } else if me.ctx.thread == "" {
        CreateThread(fd, args, id, now);
      } else {
        CreateReply(fd, args, id, now);
      }
    }

    // -------------------------------------------------------------------------
    // Listing and information

    /** The refusal that a context earns, if any, already sent. */
    method CheckContext(fd: int) returns (refused: bool)
      requires fd in clients
      modifies this`clients, this`log
      ensures refused == ContextRefusal(db, old(clients)[fd]).Some?
      ensures !refused ==> clients == old(clients) && log == old(log)
      ensures refused ==> Has(old(Abs()), fd, Answer(db, old(clients)[fd], fd, ContextRefusal(db, old(clients)[fd]).value))
    {
      var me := clients[fd];
      if me.user == "" {
        Reply(fd, UNAUTHORIZED);
        return true;
      }
      if me.ctx.team != "" {
        var team := SearchTeam(db, me.ctx.team);
        if team.None? {
          Reply(fd, NotFoundKind("TEAM", me.ctx.team));
          return true;
        }
        if me.user !in db.teams[team.value].subscribers {
          Reply(fd, FORBIDDEN);
          return true;
        }
      }
      return false;
    }

    method ListInContext(fd: int)
      requires fd in clients
      modifies this`clients, this`log
      ensures Has(old(Abs()), fd, Commands.ListHere(db, old(clients), fd))
    {
      var refused := CheckContext(fd);
      if refused {
        return;
      }
      var ctx := clients[fd].ctx;
      if ctx.channel != "" && ctx.thread != "" && ctx.team != "" {
        var thread := SearchThread(db, ctx.channel, ctx.thread);
        if thread.None? {
          Reply(fd, NotFoundKind("THREAD", ctx.thread));
        } else {
          var x := db.teams[thread.value.0].channels[thread.value.1].threads[thread.value.2];
          assert MapSeq(x.replies, r => ReplyLine(x.uuid, r)) == ReplyLines(x.uuid, x.replies);
          SendList(fd, Replies, x.replies, r => ReplyLine(x.uuid, r));
        }
      } else if ctx.channel != "" && ctx.team != "" {
        var channel := SearchChannel(db, ctx.team, ctx.channel);
        if channel.None? {
          Reply(fd, NotFoundKind("CHANNEL", ctx.channel));
        } else {
          SendList(fd, Threads, db.teams[channel.value.0].channels[channel.value.1].threads, ThreadLine);
        }
      } else if ctx.team != "" {
        // the context check has already found the team
        var team := SearchTeam(db, ctx.team);
        SendList(fd, Channels, db.teams[team.value].channels, ChannelLine);
      } else {
        SendList(fd, Teams, db.teams, TeamLine);
      }
    }

    method ShowInfo(fd: int)
      requires fd in clients
      modifies this`clients, this`log
      ensures Has(old(Abs()), fd, Commands.Info(db, old(clients), fd))
    {
      var refused := CheckContext(fd);
      if refused {
        return;
      }
      var me := clients[fd];
      if me.ctx.thread != "" {
        var thread := SearchThread(db, me.ctx.channel, me.ctx.thread);
        if thread.None? {
          Reply(fd, NotFoundKind("THREAD", me.ctx.thread));
        } else {
          var x := db.teams[thread.value.0].channels[thread.value.1].threads[thread.value.2];
          Reply(fd, [Word("200"), Word("INFO"), Word("THREAD"), Field(x.uuid), Field(x.author), Time(x.timestamp),
                     Field(x.title), Field(x.body)]);
        }
      } else if me.ctx.channel != "" {
        var channel := SearchChannel(db, me.ctx.team, me.ctx.channel);
        if channel.None? {
          Reply(fd, NotFoundKind("CHANNEL", me.ctx.channel));
        } else {
          var x := db.teams[channel.value.0].channels[channel.value.1];
          Reply(fd, [Word("200"), Word("INFO"), Word("CHANNEL"), Field(x.uuid), Field(x.name), Field(x.description)]);
        }
      } else if me.ctx.team != "" {
        // the context check has already found the team
        var team := SearchTeam(db, me.ctx.team);
        var x := db.teams[team.value];
        Reply(fd, [Word("200"), Word("INFO"), Word("TEAM"), Field(x.uuid), Field(x.name), Field(x.description)]);
      } else {
        var user := SearchUser(db, me.user);
        if user.None? {
          Reply(fd, NotFoundKind("USER", me.user));
        } else {
          var x := db.users[user.value];
          Reply(fd, [Word("200"), Word("INFO"), Word("USER"), Field(x.uuid), Field(x.name), Connected(x)]);
        }
      }
    }

    // -------------------------------------------------------------------------
    // Dispatch

    method RunCommand(fd: int, args: seq<string>, id: string, now: int)
      requires fd in clients && args != []
      modifies this`db, this`clients, this`log
      ensures Has(old(Abs()), fd, Execute(old(db), old(clients), fd, args, id, now))
    {
      match args[0]
      case "/create" => Create(fd, args, id, now);
      case "/list" => ListInContext(fd);
      case "/use" => UseContext(fd, args);
      case "/info" => ShowInfo(fd);
      case "/subscribe" => SubscribeTeam(fd, args);
      case "/unsubscribe" => UnsubscribeTeam(fd, args);
      case "/subscribed" => ShowSubscribed(fd, args);
      case "/login" => Login(fd, args, id);
      case "/logout" => Logout(fd);
      case "/send" => Send(fd, args, now);
      case "/messages" => ListMessages(fd, args);
      case "/user" => ShowUser(fd, args);
      case "/users" => ListAllUsers(fd);
      case _ =>
        SameSession(clients, fd);
        LogNothing(log);
    }

    method HandleCommand(rawCommand: string, fd: int, id: string, now: int)
      requires fd in clients && CommandArgs(rawCommand) != Undefined
      modifies this`db, this`clients, this`log
      ensures Abs() == Command(old(Abs()), fd, CommandArgs(rawCommand).args, id, now)
    {
      var arguments := ParseArgs(rawCommand);
      if arguments == [] {
        SameSession(clients, fd);
        LogNothing(log);
        return;
      }
      RunCommand(fd, arguments, id, now);
    }

    // -------------------------------------------------------------------------
    // Connections

    method AcceptClient(fd: int)
      modifies this`clients, this`poll, this`log
      ensures Abs() == Accept(old(Abs()), fd)
    {
      poll := poll + [PollEntry(fd, false)];
      clients := clients[fd := NEW_CLIENT];
      log := log[fd := Log([], "")];
    }

    /** The line up to the newline: an empty one is skipped, any other is the next command line. */
    method ParseLine(fd: int, readBuffer: string, parsePos: nat, newlinePos: nat, ids: seq<string>, times: seq<int>, k: nat,
                     ghost next: nat, ghost lines: seq<string>, ghost trace: seq<State>, ghost s0: State)
      returns (k': nat, ghost trace': seq<State>)
      requires Remains(readBuffer, parsePos, lines, k) && fd in clients && Defined(lines)
      requires parsePos <= newlinePos < |readBuffer| && newlinePos == parsePos + FindNewline(readBuffer[parsePos..])
      requires next == newlinePos + 1
      requires AfterLines(trace, fd, lines, ids, times, k, s0, Abs())
      modifies this`db, this`clients, this`log
      ensures Remains(readBuffer, next, lines, k') && fd in clients
      ensures AfterLines(trace', fd, lines, ids, times, k', s0, Abs())
    {
      var line := StripCr(readBuffer[parsePos..newlinePos]);
      LessRemains(readBuffer, parsePos, newlinePos, next, lines, k);
      k', trace' := k, trace;
      if line != "" {
        HandleCommand(line, fd, ids[k], times[k]);
        AfterNext(trace, fd, lines, ids, times, k, s0, old(Abs()), Abs());
        k', trace' := k + 1, trace + [Abs()];
      }
    }

    /** The parse loop: the command lines in turn, and the position behind the last line. */
    method ParseLoop(fd: int, readBuffer: string, ids: seq<string>, times: seq<int>) returns (parsePos: nat)
      requires fd in clients
      requires var lines := CommandLines(Framing.Lines(readBuffer)); Defined(lines) && |lines| == |ids| == |times|
      modifies this`db, this`clients, this`log
      ensures Abs() == RunLines(old(Abs()), fd, CommandLines(Framing.Lines(readBuffer)), ids, times)
      ensures parsePos <= |readBuffer| && readBuffer[parsePos..] == Tail(readBuffer)
    {
      ghost var lines := CommandLines(Framing.Lines(readBuffer));
      ghost var trace := [Abs()];
      var k := 0;
      parsePos := 0;
      AllRemains(readBuffer);
      var newlinePos := FindNewlineFrom(readBuffer, parsePos);
      while newlinePos < |readBuffer|
        invariant parsePos <= newlinePos <= |readBuffer| && newlinePos == parsePos + FindNewline(readBuffer[parsePos..])
        invariant Remains(readBuffer, parsePos, lines, k)
        invariant AfterLines(trace, fd, lines, ids, times, k, old(Abs()), Abs()) && fd in clients
        decreases |readBuffer| - parsePos
      {
        var next := newlinePos + 1;
        k, trace := ParseLine(fd, readBuffer, parsePos, newlinePos, ids, times, k, next, lines, trace, old(Abs()));
        parsePos := next;
        newlinePos := FindNewlineFrom(readBuffer, parsePos);
      }
      NoneRemains(readBuffer, parsePos, lines, k);
      AfterEnd(trace, fd, lines, ids, times, old(Abs()), Abs());
    }

    /** Handle every complete line of the client's read buffer, then drop what was handled. */
    method ParseCommands(fd: int, ids: seq<string>, times: seq<int>)
      requires fd in clients
      requires var lines := CommandLines(Framing.Lines(clients[fd].readBuffer)); Defined(lines) && |lines| == |ids| == |times|
      modifies this`db, this`clients, this`log
      ensures var buffer := old(clients)[fd].readBuffer;
              Abs() == SetRead(RunLines(old(Abs()), fd, CommandLines(Framing.Lines(buffer)), ids, times), fd, Tail(buffer))
    {
      var readBuffer := clients[fd].readBuffer;
      var parsePos := ParseLoop(fd, readBuffer, ids, times);
      clients := clients[fd := clients[fd].(readBuffer := readBuffer[parsePos..])];
    }

    /** A chunk of input: appended, then parsed. */
    method HandleRead(fd: int, chunk: string, ids: seq<string>, times: seq<int>)
      requires fd in clients && Defined(LinesRead(Abs(), fd, chunk)) && |LinesRead(Abs(), fd, chunk)| == |ids| == |times|
      modifies this`db, this`clients, this`log
      ensures Abs() == Read(old(Abs()), fd, chunk, ids, times)
    {
      clients := clients[fd := clients[fd].(readBuffer := clients[fd].readBuffer + chunk)];
      ParseCommands(fd, ids, times);
    }

    /** The socket takes the first `n` bytes. */
    method HandleWrite(fd: int, n: nat)
      requires fd in clients && fd in log && n <= |clients[fd].writeBuffer|
      modifies this`clients, this`log
      ensures Abs() == Write(old(Abs()), fd, n)
    {
      var buffer := clients[fd].writeBuffer;
      log := log[fd := log[fd].(written := log[fd].written + buffer[..n])];
      clients := clients[fd := clients[fd].(writeBuffer := buffer[n..])];
    }

    method FindEntry(fd: int) returns (r: Option<nat>)
      ensures r == PollIndex(poll, fd)
    {
      for i := 0 to |poll|
        invariant forall j :: 0 <= j < i ==> poll[j].fd != fd
      {
        if poll[i].fd == fd {
          PollIndexIs(poll, fd, i);
          return Some(i);
        }
      }
      return None;
    }

    method RemoveFileDescriptor(fd: int)
      modifies this`poll
      ensures poll == Unwatch(old(poll), fd)
    {
      var i := FindEntry(fd);
      if i.Some? {
        poll := poll[..i.value] + poll[i.value + 1..];
      }
    }

    method UpdateWatchedEvents(fd: int, out: bool)
      modifies this`poll
      ensures poll == Watch(old(poll), fd, out)
    {
      var i := FindEntry(fd);
      if i.Some? {
        poll := poll[i.value := PollEntry(fd, out)];
      }
    }

    method DisconnectClient(fd: int)
      requires fd in clients
      modifies this
      ensures Abs() == Disconnect(old(Abs()), fd)
    {
      var gone: Option<User> := None;
      if clients[fd].user != "" {
        gone := ReleaseUser(clients[fd].user);
      }
      RemoveFileDescriptor(fd);
      clients := clients - {fd};
      log := log - {fd};
      Announce(gone);
    }

    /** One client's flag, and its poll entry if the flag changes. */
    method UpdateFlag(fd: int)
      requires fd in clients && DistinctFds(poll)
      requires forall i :: 0 <= i < |poll| && poll[i].fd == fd ==> poll[i].out == clients[fd].pollOut
      modifies this`clients, this`poll
      ensures clients == old(clients)[fd := old(clients)[fd].(pollOut := Pending(old(clients)[fd]))]
      ensures |poll| == |old(poll)|
      ensures forall i :: 0 <= i < |poll| ==>
                poll[i] == if old(poll)[i].fd == fd then PollEntry(fd, Pending(old(clients)[fd])) else old(poll)[i]
    {
      var needPollOut := clients[fd].writeBuffer != "";
      if needPollOut == clients[fd].pollOut {
        assert clients == clients[fd := clients[fd].(pollOut := needPollOut)];
        return;
      }
      clients := clients[fd := clients[fd].(pollOut := needPollOut)];
      UpdateWatchedEvents(fd, needPollOut);
    }

    method UpdateFlagOf(fd: int, ghost c0: Clients, ghost p0: seq<PollEntry>, ghost todo: set<int>)
      requires FlagsDone(c0, p0, clients, poll, todo) && fd in todo
      modifies this`clients, this`poll
      ensures FlagsDone(c0, p0, clients, poll, todo - {fd})
    {
      FlagReady(c0, p0, clients, poll, todo, fd);
      UpdateFlag(fd);
      FlagDone(c0, p0, old(clients), old(poll), todo, fd, clients, poll);
    }

    /** Ask for writability exactly where output is pending; the clients are visited in any order. */
    method UpdatePollFlags()
      requires PollOk(Abs())
      modifies this`clients, this`poll
      ensures Abs() == UpdateFlags(old(Abs()))
    {
      var todo := clients.Keys;
      NoFlagDone(Abs());
      while todo != {}
        invariant FlagsDone(old(clients), old(poll), clients, poll, todo)
        decreases |todo|
      {
        SomeLeft(todo);
        var fd :| fd in todo;
        UpdateFlagOf(fd, old(clients), old(poll), todo);
        Smaller(todo, fd);
        todo := todo - {fd};
      }
      AllFlagsDone(old(clients), old(poll), clients, poll);
    }

    // -------------------------------------------------------------------------
    // Stopping and starting

    method SaveState() returns (file: string)
      ensures file == SaveText(db)
    {
      file := SaveDatabase(db);
    }

    /** A new process that loads the file into its empty database. */
    constructor Load(serverFd: int, file: string)
      requires PValue(file, 0) != Diverges
      ensures Abs() == Started(serverFd, LoadText(EMPTY, file))
    {
      this.serverFd := serverFd;
      clients, poll, log := map[], [PollEntry(serverFd, false)], map[];
      db := EMPTY;
      new;
      db := LoadDatabase(EMPTY, file);
    }
  }

  /** Stopping a server and starting one on the file it leaves is the restart step. */
  method StopAndStart(server: Server) returns (next: Server)
    ensures next.Abs() == Restart(server.Abs())
  {
    SaveThenLoad(server.db);
    var file := server.SaveState();
    next := new Server.Load(server.serverFd, file);
  }
}
