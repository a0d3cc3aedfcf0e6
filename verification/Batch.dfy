/** One turn of the server's loop: the events one wait reports, and to whom they are applied. */
module Batch {
  import opened Text
  import opened ServerState
  import opened Runs
  import opened ServerClass

  /** What the system reports for one watched descriptor. */
  datatype Revents = Revents(input: bool, output: bool, hangup: bool) {
    predicate Any() {
      input || output || hangup
    }
  }

  datatype PollEvent = PollEvent(fd: int, revents: Revents)

  datatype ReadResult = Again | Eof | Data(chunk: string, ids: seq<string>, times: seq<int>)

  /** What the sockets give when an event is handled: a new descriptor, what a read returns, how much a write takes. */
  datatype Arrival = Arrival(accepted: int, read: ReadResult, written: nat)

  /** The entries with something to report, in the order of the poll set. */
  function Collected(poll: seq<PollEntry>, revents: seq<Revents>): seq<PollEvent>
    requires |poll| == |revents|
  {
    if poll == [] then [] else Report(poll[0], revents[0]) + Collected(poll[1..], revents[1..])
  }

  function Report(entry: PollEntry, revents: Revents): seq<PollEvent> {
    if revents.Any() then [PollEvent(entry.fd, revents)] else []
  }

  lemma {:induction false} CollectedAppend(p: seq<PollEntry>, q: seq<PollEntry>, a: seq<Revents>, b: seq<Revents>)
    requires |p| == |a| && |q| == |b|
    ensures Collected(p + q, a + b) == Collected(p, a) + Collected(q, b)
  {
    if p == [] {
      assert p + q == q && a + b == b;
    } else {
      var ps, rs := p + q, a + b;
      assert ps[1..] == p[1..] + q && rs[1..] == a[1..] + b && ps[0] == p[0] && rs[0] == a[0];
      CollectedAppend(p[1..], q, a[1..], b);
      ConcatAssoc(Report(p[0], a[0]), Collected(p[1..], a[1..]), Collected(q, b));
    }
  }

  method WaitForEvents(poll: seq<PollEntry>, revents: seq<Revents>) returns (events: seq<PollEvent>)
    requires |poll| == |revents|
    ensures events == Collected(poll, revents)
  {
    events := [];
    for i := 0 to |poll|
      invariant events == Collected(poll[..i], revents[..i])
    {
      assert poll[..i + 1] == poll[..i] + [poll[i]] && revents[..i + 1] == revents[..i] + [revents[i]];
      CollectedAppend(poll[..i], [poll[i]], revents[..i], [revents[i]]);
      assert Collected([poll[i]], [revents[i]]) == Report(poll[i], revents[i]);
      if revents[i].Any() {
        events := events + [PollEvent(poll[i].fd, revents[i])];
      }
    }
    assert poll[..|poll|] == poll && revents[..|poll|] == revents;
  }

  /** What handling one reported event does, as steps of the state machine. */
  function EventsOf(s: State, p: PollEvent, a: Arrival): seq<Event> {
    if p.fd == s.serverFd then
      if p.revents.input then [Accepted(a.accepted)] else []
    else if p.fd !in s.clients then []
    else if p.revents.hangup then [HungUp(p.fd)]
    else if p.revents.input && a.read.Eof? then [HungUp(p.fd)]
    else
      (if p.revents.input && a.read.Data? then [Received(p.fd, a.read.chunk, a.read.ids, a.read.times)] else []) +
      (if p.revents.output && a.written > 0 then [Written(p.fd, a.written)] else [])
  }

  predicate BatchPossible(s: State, batch: seq<PollEvent>, arrivals: seq<Arrival>)
    requires |batch| == |arrivals|
    decreases |batch|
  {
    batch == [] ||
    (&& Possible(s, EventsOf(s, batch[0], arrivals[0]))
     && BatchPossible(RunFrom(s, EventsOf(s, batch[0], arrivals[0])), batch[1..], arrivals[1..]))
  }

  function BatchEvents(s: State, batch: seq<PollEvent>, arrivals: seq<Arrival>): seq<Event>
    requires |batch| == |arrivals| && BatchPossible(s, batch, arrivals)
    decreases |batch|
  {
    if batch == [] then []
    else
      var events := EventsOf(s, batch[0], arrivals[0]);
      events + BatchEvents(RunFrom(s, events), batch[1..], arrivals[1..])
  }

  lemma {:induction false} RunAppend(s: State, a: seq<Event>, b: seq<Event>)
    requires Possible(s, a) && Possible(RunFrom(s, a), b)
    ensures Possible(s, a + b) && RunFrom(s, a + b) == RunFrom(RunFrom(s, a), b)
    decreases |a|
  {
    if a == [] {
      assert a + b == b;
    } else {
      assert (a + b)[0] == a[0] && (a + b)[1..] == a[1..] + b;
      RunAppend(Step(s, a[0]), a[1..], b);
    }
  }

  function AfterBatch(s: State, batch: seq<PollEvent>, arrivals: seq<Arrival>): State
    requires |batch| == |arrivals| && BatchPossible(s, batch, arrivals)
    decreases |batch|
  {
    if batch == [] then s
    else AfterBatch(RunFrom(s, EventsOf(s, batch[0], arrivals[0])), batch[1..], arrivals[1..])
  }

  lemma {:induction false} AfterBatchIsRun(s: State, batch: seq<PollEvent>, arrivals: seq<Arrival>)
    requires |batch| == |arrivals| && BatchPossible(s, batch, arrivals)
    ensures Possible(s, BatchEvents(s, batch, arrivals))
    ensures AfterBatch(s, batch, arrivals) == RunFrom(s, BatchEvents(s, batch, arrivals))
    decreases |batch|
  {
    if batch != [] {
      var events := EventsOf(s, batch[0], arrivals[0]);
      var next := RunFrom(s, events);
      AfterBatchIsRun(next, batch[1..], arrivals[1..]);
      RunAppend(s, events, BatchEvents(next, batch[1..], arrivals[1..]));
    }
  }

  // ---------------------------------------------------------------------------
  // To whom the events of a batch are applied

  /** A step on a connection from `known`. */
  predicate On(e: Event, known: set<int>) {
    (e.Received? || e.Written? || e.HungUp?) && e.fd in known
  }

  predicate AllOn(events: seq<Event>, known: set<int>) {
    forall i :: 0 <= i < |events| ==> On(events[i], known)
  }

  predicate ClientEvents(batch: seq<PollEvent>, serverFd: int, known: set<int>) {
    forall i :: 0 <= i < |batch| ==> batch[i].fd != serverFd && batch[i].fd in known
  }

  lemma {:induction false} KeepsServerFd(s: State, events: seq<Event>)
    requires Possible(s, events)
    ensures RunFrom(s, events).serverFd == s.serverFd
    decreases |events|
  {
    if events != [] {
      StepKeepsServerFd(s, events[0]);
      KeepsServerFd(Step(s, events[0]), events[1..]);
    }
  }

  lemma {:induction false} LinesKeepServerFd(s: State, fd: int, lines: seq<string>, ids: seq<string>, times: seq<int>)
    requires fd in s.clients && |lines| == |ids| == |times| && Defined(lines)
    ensures RunLines(s, fd, lines, ids, times).serverFd == s.serverFd
    decreases |lines|
  {
    if lines != [] {
      LinesKeepServerFd(Command(s, fd, Tokens.CommandArgs(lines[0]).args, ids[0], times[0]), fd, lines[1..], ids[1..], times[1..]);
    }
  }

  lemma StepKeepsServerFd(s: State, e: Event)
    requires Enabled(s, e)
    ensures Step(s, e).serverFd == s.serverFd
  {
    match e
    case Received(fd, chunk, ids, times) =>
      LinesKeepServerFd(SetRead(s, fd, s.clients[fd].readBuffer + chunk), fd, LinesRead(s, fd, chunk), ids, times);
    case _ =>
  }

  lemma {:induction false} ClientBatch(s: State, batch: seq<PollEvent>, arrivals: seq<Arrival>, known: set<int>)
    requires |batch| == |arrivals| && BatchPossible(s, batch, arrivals) && ClientEvents(batch, s.serverFd, known)
    ensures AllOn(BatchEvents(s, batch, arrivals), known)
    decreases |batch|
  {
    if batch != [] {
      var events := EventsOf(s, batch[0], arrivals[0]);
      KeepsServerFd(s, events);
      ClientBatch(RunFrom(s, events), batch[1..], arrivals[1..], known);
    }
  }

  lemma {:induction false} CollectedFrom(poll: seq<PollEntry>, revents: seq<Revents>, serverFd: int, known: set<int>)
    requires |poll| == |revents| && forall i :: 0 <= i < |poll| ==> poll[i].fd != serverFd && poll[i].fd in known
    ensures ClientEvents(Collected(poll, revents), serverFd, known)
  {
    if poll != [] {
      assert forall i :: 0 <= i < |poll| - 1 ==> poll[1..][i] == poll[i + 1];
      CollectedFrom(poll[1..], revents[1..], serverFd, known);
    }
  }

  /**
    The events of one wait: first the new connection, if there is one, under a descriptor that no client
    had, then only steps on connections that were there at the wait.
  */
  lemma BatchOnKnown(s: State, revents: seq<Revents>, arrivals: seq<Arrival>)
    requires PollOk(s) && |revents| == |s.poll| && |arrivals| == |Collected(s.poll, revents)|
    requires BatchPossible(s, Collected(s.poll, revents), arrivals)
    ensures var events := BatchEvents(s, Collected(s.poll, revents), arrivals);
            if revents[0].input then
              && events != [] && events[0].Accepted? && events[0].fd !in s.clients && events[0].fd != s.serverFd
              && AllOn(events[1..], s.clients.Keys)
            else AllOn(events, s.clients.Keys)
  {
    var batch, known := Collected(s.poll, revents), s.clients.Keys;
    var rest := Collected(s.poll[1..], revents[1..]);
    assert forall i :: 0 <= i < |s.poll| - 1 ==> s.poll[1..][i] == s.poll[i + 1];
    CollectedFrom(s.poll[1..], revents[1..], s.serverFd, known);
    if revents[0].Any() {
      assert batch[0] == PollEvent(s.serverFd, revents[0]) && batch[1..] == rest;
      var events := EventsOf(s, batch[0], arrivals[0]);
      assert Possible(s, events);
      KeepsServerFd(s, events);
      ClientBatch(RunFrom(s, events), rest, arrivals[1..], known);
      if revents[0].input {
        assert BatchEvents(s, batch, arrivals)[1..] == BatchEvents(RunFrom(s, events), rest, arrivals[1..]);
      }
    } else {
      assert batch == rest;
      ClientBatch(s, rest, arrivals, known);
    }
  }

  // ---------------------------------------------------------------------------
  // Connections over a batch

  /** If `f` is connected in `b`, it is the connection it was in `a`: the history has only grown. */
  predicate SameConnection(a: State, b: State, f: int) {
    f in b.clients ==>
      && f in a.clients && f in a.log && f in b.log
      && a.log[f].queued <= b.log[f].queued && a.log[f].written <= b.log[f].written
  }

  lemma {:induction false} LinesSameConnection(s: State, fd: int, lines: seq<string>, ids: seq<string>, times: seq<int>, f: int)
    requires fd in s.clients && |lines| == |ids| == |times| && Defined(lines) && s.log.Keys == s.clients.Keys
    ensures SameConnection(s, RunLines(s, fd, lines, ids, times), f)
    decreases |lines|
  {
    if lines != [] {
      var next := Command(s, fd, Tokens.CommandArgs(lines[0]).args, ids[0], times[0]);
      LinesSameConnection(next, fd, lines[1..], ids[1..], times[1..], f);
    }
  }

  lemma StepSameConnection(s: State, e: Event, f: int)
    requires Inv(s) && Enabled(s, e) && !e.Restarted? && e != Accepted(f)
    ensures SameConnection(s, Step(s, e), f)
  {
    match e
    case Received(fd, chunk, ids, times) =>
      LinesSameConnection(SetRead(s, fd, s.clients[fd].readBuffer + chunk), fd, LinesRead(s, fd, chunk), ids, times, f);
    case _ =>
  }

  lemma {:induction false} RunSameConnection(s: State, events: seq<Event>, f: int)
    requires Inv(s) && Possible(s, events)
    requires forall i :: 0 <= i < |events| ==> !events[i].Restarted? && events[i] != Accepted(f)
    ensures SameConnection(s, RunFrom(s, events), f)
    decreases |events|
  {
    if events != [] {
      StepKeeps(s, events[0]);
      StepSameConnection(s, events[0], f);
      RunSameConnection(Step(s, events[0]), events[1..], f);
    }
  }

  lemma {:induction false} PossiblePart(s: State, a: seq<Event>, b: seq<Event>)
    requires Possible(s, a + b)
    ensures Possible(s, a)
    decreases |a|
  {
    if a != [] {
      assert (a + b)[0] == a[0] && (a + b)[1..] == a[1..] + b;
      PossiblePart(Step(s, a[0]), a[1..], b);
    }
  }

  /** At every point of a batch, a descriptor connected at the wait is still that connection or gone. */
  lemma BatchKeepsConnections(s: State, revents: seq<Revents>, arrivals: seq<Arrival>, a: seq<Event>, b: seq<Event>, f: int)
    requires Inv(s) && |revents| == |s.poll| && |arrivals| == |Collected(s.poll, revents)|
    requires BatchPossible(s, Collected(s.poll, revents), arrivals)
    requires BatchEvents(s, Collected(s.poll, revents), arrivals) == a + b && f in s.clients
    ensures Possible(s, a) && SameConnection(s, RunFrom(s, a), f)
  {
    var batch := Collected(s.poll, revents);
    AfterBatchIsRun(s, batch, arrivals);
    PossiblePart(s, a, b);
    BatchOnKnown(s, revents, arrivals);
    PrefixAvoids(a, b, s.clients.Keys, f);
    RunSameConnection(s, a, f);
  }

  lemma PrefixAvoids(a: seq<Event>, b: seq<Event>, known: set<int>, f: int)
    requires f in known
    requires var events := a + b;
             AllOn(events, known) || (events != [] && events[0].Accepted? && events[0].fd !in known && AllOn(events[1..], known))
    ensures forall i :: 0 <= i < |a| ==> !a[i].Restarted? && a[i] != Accepted(f)
  {
    var events := a + b;
    forall i | 0 <= i < |a| ensures !a[i].Restarted? && a[i] != Accepted(f) {
      assert a[i] == events[i];
      if !AllOn(events, known) && i > 0 {
        assert On(events[1..][i - 1], known);
      }
    }
  }

  // ---------------------------------------------------------------------------
  // The loop body

  lemma RunOne(s: State, e: Event)
    requires Possible(s, [e])
    ensures Enabled(s, e) && RunFrom(s, [e]) == Step(s, e)
  {
    assert [e][1..] == [];
  }

  lemma RunTwo(s: State, e: Event, e': Event)
    requires Possible(s, [e, e'])
    ensures Enabled(s, e) && Enabled(Step(s, e), e') && RunFrom(s, [e, e']) == Step(Step(s, e), e')
  {
    assert [e, e'][1..] == [e'];
    RunOne(Step(s, e), e');
  }

  method ProcessEvent(server: Server, p: PollEvent, a: Arrival)
    requires Possible(server.Abs(), EventsOf(server.Abs(), p, a))
    modifies server
    ensures server.Abs() == RunFrom(old(server.Abs()), EventsOf(old(server.Abs()), p, a))
  {
    if p.fd == server.serverFd {
      if p.revents.input {
        RunOne(server.Abs(), Accepted(a.accepted));
        server.AcceptClient(a.accepted);
      }
      return;
    }
    if p.fd !in server.clients {
      return;
    }
    ProcessClientEvent(server, p, a);
  }

  method ProcessClientEvent(server: Server, p: PollEvent, a: Arrival)
    requires p.fd != server.serverFd && p.fd in server.clients
    requires Possible(server.Abs(), EventsOf(server.Abs(), p, a))
    modifies server
    ensures server.Abs() == RunFrom(old(server.Abs()), EventsOf(old(server.Abs()), p, a))
  {
    if p.revents.hangup {
      RunOne(server.Abs(), HungUp(p.fd));
      server.DisconnectClient(p.fd);
      return;
    }
    ghost var s := server.Abs();
    ghost var read := Received(p.fd, if a.read.Data? then a.read.chunk else "", if a.read.Data? then a.read.ids else [],
                               if a.read.Data? then a.read.times else []);
    ghost var wrote := Written(p.fd, a.written);
    var hasInput, hasOutput := p.revents.input && a.read.Data?, p.revents.output && a.written > 0;
    if p.revents.input && a.read.Eof? {
      RunOne(s, HungUp(p.fd));
      server.DisconnectClient(p.fd);
      return;
    }
    if hasInput && hasOutput {
      assert EventsOf(s, p, a) == [read, wrote];
      RunTwo(s, read, wrote);
    } else if hasInput {
      assert EventsOf(s, p, a) == [read];
      RunOne(s, read);
    } else if hasOutput {
      assert EventsOf(s, p, a) == [wrote];
      RunOne(s, wrote);
    }
    if hasInput {
      server.HandleRead(p.fd, a.read.chunk, a.read.ids, a.read.times);
    }
    if hasOutput {
      server.HandleWrite(p.fd, a.written);
    }
  }

  /** One turn of the loop: flags, wait, then the reported events in order. */
  method Turn(server: Server, revents: seq<Revents>, arrivals: seq<Arrival>)
    requires Inv(server.Abs()) && |revents| == |server.poll|
    requires var s := UpdateFlags(server.Abs());
             |arrivals| == |Collected(s.poll, revents)| && BatchPossible(s, Collected(s.poll, revents), arrivals)
    modifies server
    ensures var s := UpdateFlags(old(server.Abs()));
            server.Abs() == AfterBatch(s, Collected(s.poll, revents), arrivals) && Inv(server.Abs())
  {
    ghost var s := UpdateFlags(server.Abs());
    FlagsKeep(server.Abs());
    server.UpdatePollFlags();
    var events := WaitForEvents(server.poll, revents);
    AfterBatchIsRun(s, events, arrivals);
    RunKeeps(s, BatchEvents(s, events, arrivals));
    ProcessEvents(server, events, arrivals);
  }

  method ProcessEvents(server: Server, events: seq<PollEvent>, arrivals: seq<Arrival>)
    requires |events| == |arrivals| && BatchPossible(server.Abs(), events, arrivals)
    modifies server
    ensures server.Abs() == AfterBatch(old(server.Abs()), events, arrivals)
  {
    var i := 0;
    while i < |events|
      invariant 0 <= i <= |events|
      invariant BatchPossible(server.Abs(), events[i..], arrivals[i..])
      invariant AfterBatch(server.Abs(), events[i..], arrivals[i..]) == AfterBatch(old(server.Abs()), events, arrivals)
    {
      assert events[i..][1..] == events[i + 1..] && arrivals[i..][1..] == arrivals[i + 1..];
      ProcessEvent(server, events[i], arrivals[i]);
      i := i + 1;
    }
  }
}
