/** Every descriptor that a wait reports is served, in the way and the order that it was reported. */
module Service {
  import opened Text
  import opened ServerState
  import opened Runs
  import opened Batch

  // ---------------------------------------------------------------------------
  // What a wait reports

  /** Increasing positions of exactly the entries with something to report. */
  predicate Positions(revents: seq<Revents>, at: seq<nat>) {
    && (forall i, j :: 0 <= i < j < |at| ==> at[i] < at[j])
    && (forall i :: 0 <= i < |at| ==> at[i] < |revents|)
    && forall k :: 0 <= k < |revents| ==> (k in at <==> revents[k].input || revents[k].output || revents[k].hangup)
  }

  lemma PositionsSnoc(revents: seq<Revents>, at: seq<nat>, last: Revents)
    requires Positions(revents, at)
    ensures Positions(revents + [last], if last.input || last.output || last.hangup then at + [|revents|] else at)
  {
    var more := revents + [last];
    assert more[|revents|] == last && forall k :: 0 <= k < |revents| ==> more[k] == revents[k];
    assert |revents| !in at;
  }

  lemma CollectedSnoc(poll: seq<PollEntry>, revents: seq<Revents>, entry: PollEntry, last: Revents)
    requires |poll| == |revents|
    ensures Collected(poll + [entry], revents + [last]) ==
            Collected(poll, revents) + if last.input || last.output || last.hangup then [PollEvent(entry.fd, last)] else []
  {
    CollectedAppend(poll, [entry], revents, [last]);
    assert Collected([entry], [last]) == Report(entry, last);
  }

  /** What is reported are the entries at these positions, in the order of the poll set. */
  predicate Reports(poll: seq<PollEntry>, revents: seq<Revents>, at: seq<nat>)
    requires |poll| == |revents|
  {
    && Positions(revents, at) && |Collected(poll, revents)| == |at|
    && forall i :: 0 <= i < |at| ==> Collected(poll, revents)[i] == PollEvent(poll[at[i]].fd, revents[at[i]])
  }

  lemma ReportsSnoc(poll: seq<PollEntry>, revents: seq<Revents>, at: seq<nat>, entry: PollEntry, last: Revents,
                    more: seq<PollEntry>, answers: seq<Revents>) returns (next: seq<nat>)
    requires |poll| == |revents| && Reports(poll, revents, at) && more == poll + [entry] && answers == revents + [last]
    ensures Reports(more, answers, next)
  {
    PositionsSnoc(revents, at, last);
    CollectedSnoc(poll, revents, entry, last);
    next := if last.input || last.output || last.hangup then at + [|poll|] else at;
  }

  /** A wait reports exactly the entries with something to report. */
  lemma {:induction false} ReportedExactly(poll: seq<PollEntry>, revents: seq<Revents>) returns (at: seq<nat>)
    requires |poll| == |revents|
    ensures Reports(poll, revents, at)
    decreases |poll|
  {
    if poll == [] {
      at := [];
    } else {
      var n := |poll| - 1;
      at := ReportedExactly(poll[..n], revents[..n]);
      at := ReportsSnoc(poll[..n], revents[..n], at, poll[n], revents[n], poll, revents);
    }
  }

  // ---------------------------------------------------------------------------
  // What is done for one descriptor

  predicate Touches(e: Event, fd: int) {
    (e.Received? || e.Written? || e.HungUp?) && e.fd == fd
  }

  function OnFd(events: seq<Event>, fd: int): seq<Event> {
    if events == [] then [] else (if Touches(events[0], fd) then [events[0]] else []) + OnFd(events[1..], fd)
  }

  lemma {:induction false} OnFdAppend(a: seq<Event>, b: seq<Event>, fd: int)
    ensures OnFd(a + b, fd) == OnFd(a, fd) + OnFd(b, fd)
    decreases |a|
  {
    if a == [] {
      assert a + b == b;
    } else {
      assert (a + b)[0] == a[0] && (a + b)[1..] == a[1..] + b;
      OnFdAppend(a[1..], b, fd);
      ConcatAssoc(if Touches(a[0], fd) then [a[0]] else [], OnFd(a[1..], fd), OnFd(b, fd));
    }
  }

  lemma {:induction false} AllOnFd(events: seq<Event>, fd: int)
    requires forall i :: 0 <= i < |events| ==> Touches(events[i], fd)
    ensures OnFd(events, fd) == events
    decreases |events|
  {
    if events != [] {
      AllOnFd(events[1..], fd);
    }
  }

  lemma {:induction false} NoneOnFd(events: seq<Event>, fd: int)
    requires forall i :: 0 <= i < |events| ==> !Touches(events[i], fd)
    ensures OnFd(events, fd) == []
    decreases |events|
  {
    if events != [] {
      NoneOnFd(events[1..], fd);
    }
  }

  /** A hangup or the end of the stream closes the connection; otherwise what came is read, then what fits is written. */
  function Served(p: PollEvent, a: Arrival): seq<Event> {
    if p.revents.hangup || (p.revents.input && a.read.Eof?) then [HungUp(p.fd)]
    else (if p.revents.input && a.read.Data? then [Received(p.fd, a.read.chunk, a.read.ids, a.read.times)] else [])
         + (if p.revents.output && a.written > 0 then [Written(p.fd, a.written)] else [])
  }

  lemma EventsTouch(s: State, p: PollEvent, a: Arrival)
    ensures forall i :: 0 <= i < |EventsOf(s, p, a)| ==>
              !EventsOf(s, p, a)[i].Restarted? && (Touches(EventsOf(s, p, a)[i], p.fd) || EventsOf(s, p, a)[i].Accepted?)
    ensures p.fd != s.serverFd ==> forall i :: 0 <= i < |EventsOf(s, p, a)| ==> Touches(EventsOf(s, p, a)[i], p.fd)
  {
  }

  // ---------------------------------------------------------------------------
  // Nobody else is disconnected

  lemma StepKeepsOthers(s: State, e: Event, fd: int)
    requires Enabled(s, e) && fd in s.clients && e != HungUp(fd) && !e.Restarted?
    ensures fd in Step(s, e).clients
  {
  }

  lemma {:induction false} RunKeepsOthers(s: State, events: seq<Event>, fd: int)
    requires Possible(s, events) && fd in s.clients
    requires forall i :: 0 <= i < |events| ==> events[i] != HungUp(fd) && !events[i].Restarted?
    ensures fd in RunFrom(s, events).clients
    decreases |events|
  {
    if events != [] {
      StepKeepsOthers(s, events[0], fd);
      RunKeepsOthers(Step(s, events[0]), events[1..], fd);
    }
  }

  lemma {:induction false} NoneFor(s: State, batch: seq<PollEvent>, arrivals: seq<Arrival>, fd: int)
    requires |batch| == |arrivals| && BatchPossible(s, batch, arrivals)
    requires forall i :: 0 <= i < |batch| ==> batch[i].fd != fd
    ensures OnFd(BatchEvents(s, batch, arrivals), fd) == []
    decreases |batch|
  {
    if batch != [] {
      var events := EventsOf(s, batch[0], arrivals[0]);
      var next := RunFrom(s, events);
      EventsTouch(s, batch[0], arrivals[0]);
      NoneOnFd(events, fd);
      NoneFor(next, batch[1..], arrivals[1..], fd);
      OnFdAppend(events, BatchEvents(next, batch[1..], arrivals[1..]), fd);
    }
  }

  /** Of all the steps of a batch, those on one reported client are exactly what its report calls for. */
  lemma {:induction false} ServedExactly(s: State, batch: seq<PollEvent>, arrivals: seq<Arrival>, j: nat)
    requires |batch| == |arrivals| && BatchPossible(s, batch, arrivals) && j < |batch|
    requires forall i, k :: 0 <= i < k < |batch| ==> batch[i].fd != batch[k].fd
    requires batch[j].fd in s.clients && batch[j].fd != s.serverFd
    ensures OnFd(BatchEvents(s, batch, arrivals), batch[j].fd) == Served(batch[j], arrivals[j])
    decreases |batch|
  {
    var fd, events := batch[j].fd, EventsOf(s, batch[0], arrivals[0]);
    var next := RunFrom(s, events);
    OnFdAppend(events, BatchEvents(next, batch[1..], arrivals[1..]), fd);
    EventsTouch(s, batch[0], arrivals[0]);
    if j == 0 {
      AllOnFd(events, fd);
      NoneFor(next, batch[1..], arrivals[1..], fd);
    } else {
      assert batch[0].fd != batch[j].fd;
      NoneOnFd(events, fd);
      RunKeepsOthers(s, events, fd);
      KeepsServerFd(s, events);
      ServedExactly(next, batch[1..], arrivals[1..], j - 1);
    }
  }

  /** One turn of the loop: the server's descriptor gives the new connection, and every reported client is served. */
  lemma TurnServes(s: State, revents: seq<Revents>, arrivals: seq<Arrival>, j: nat)
    requires PollOk(s) && |revents| == |s.poll| && |arrivals| == |Collected(s.poll, revents)|
    requires BatchPossible(s, Collected(s.poll, revents), arrivals) && j < |arrivals|
    ensures var p, events := Collected(s.poll, revents)[j], BatchEvents(s, Collected(s.poll, revents), arrivals);
            if p.fd == s.serverFd then
              p.revents.input ==> events != [] && events[0] == Accepted(arrivals[j].accepted)
            else p.fd in s.clients && OnFd(events, p.fd) == Served(p, arrivals[j])
  {
    var batch := Collected(s.poll, revents);
    var at := ReportedExactly(s.poll, revents);
    forall i, k | 0 <= i < k < |batch| ensures batch[i].fd != batch[k].fd {
      assert at[i] < at[k] < |s.poll|;
    }
    if batch[j].fd == s.serverFd {
      assert at[j] == 0 && j == 0;
    } else {
      ServedExactly(s, batch, arrivals, j);
    }
  }
}
