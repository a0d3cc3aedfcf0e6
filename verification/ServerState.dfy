/** The server as a state machine: connections, reads, commands, partial writes, disconnections, restarts. */
module ServerState {
  import opened Text
  import opened Tokens
  import opened Protocol
  import opened Framing
  import opened Model
  import opened Commands
  import opened Delivery
  import opened SaveExact

  /** A watched descriptor: always for input, and for output when `out` is set. */
  datatype PollEntry = PollEntry(fd: int, out: bool)

  /** The history of one connection: every frame queued for it and every byte written to it. */
  datatype Log = Log(queued: seq<Frame>, written: string)

  datatype State = State(serverFd: int, db: Database, clients: Clients, poll: seq<PollEntry>, log: map<int, Log>)

  const NEW_CLIENT := Client("", NO_CONTEXT, "", "", false)

  function Started(serverFd: int, db: Database): State {
    State(serverFd, db, map[], [PollEntry(serverFd, false)], map[])
  }

  // ---------------------------------------------------------------------------
  // The poll set

  function PollIndex(poll: seq<PollEntry>, fd: int): (r: Option<nat>)
    ensures r.Some? ==> r.value < |poll| && poll[r.value].fd == fd
    ensures r.Some? ==> forall j :: 0 <= j < r.value ==> poll[j].fd != fd
    ensures r.None? ==> forall j :: 0 <= j < |poll| ==> poll[j].fd != fd
  {
    if poll == [] then None
    else if poll[0].fd == fd then Some(0)
    else match PollIndex(poll[1..], fd)
      case None => None
      case Some(i) =>
        assert forall j :: 1 <= j < |poll| ==> poll[j] == poll[1..][j - 1];
        Some(i + 1)
  }

  lemma PollIndexIs(poll: seq<PollEntry>, fd: int, i: nat)
    requires i < |poll| && poll[i].fd == fd && forall j :: 0 <= j < i ==> poll[j].fd != fd
    ensures PollIndex(poll, fd) == Some(i)
  {
  }

  function Watch(poll: seq<PollEntry>, fd: int, out: bool): (r: seq<PollEntry>) {
    match PollIndex(poll, fd)
    case None => poll
    case Some(i) => poll[i := PollEntry(fd, out)]
  }

  function Unwatch(poll: seq<PollEntry>, fd: int): seq<PollEntry> {
    match PollIndex(poll, fd)
    case None => poll
    case Some(i) => poll[..i] + poll[i + 1..]
  }

  /** The server's descriptor first, every client exactly once, watched as the client's flag says. */
  predicate PollOk(s: State) {
    && s.poll != [] && s.poll[0] == PollEntry(s.serverFd, false) && s.serverFd !in s.clients
    && (forall i, j :: 0 <= i < j < |s.poll| ==> s.poll[i].fd != s.poll[j].fd)
    && (forall i :: 0 < i < |s.poll| ==> s.poll[i].fd in s.clients && s.poll[i].out == s.clients[s.poll[i].fd].pollOut)
    && (forall fd :: fd in s.clients ==> exists i :: 0 < i < |s.poll| && s.poll[i].fd == fd)
  }

  // ---------------------------------------------------------------------------
  // Steps

  function Accept(s: State, fd: int): State {
    s.(clients := s.clients[fd := NEW_CLIENT], poll := s.poll + [PollEntry(fd, false)], log := s.log[fd := Log([], "")])
  }

  function LogOuts(log: map<int, Log>, outs: seq<Out>): (r: map<int, Log>)
    ensures r.Keys == log.Keys
    ensures forall f :: f in log ==> r[f] == log[f].(queued := log[f].queued + FramesFor(f, outs))
  {
    map f | f in log :: log[f].(queued := log[f].queued + FramesFor(f, outs))
  }

  function Command(s: State, fd: int, args: seq<string>, id: string, now: int): (r: State)
    requires fd in s.clients
    ensures r.clients.Keys == s.clients.Keys
  {
    var e := Execute(s.db, s.clients, fd, args, id, now);
    s.(db := e.db, clients := Apply(s.clients, fd, e), log := LogOuts(s.log, e.outs))
  }

  predicate Defined(lines: seq<string>) {
    forall i :: 0 <= i < |lines| ==> CommandArgs(lines[i]) != Undefined
  }

  /** The command lines of one read, each with the identifier and the time it may draw. */
  function RunLines(s: State, fd: int, lines: seq<string>, ids: seq<string>, times: seq<int>): (r: State)
    requires fd in s.clients && |lines| == |ids| == |times| && Defined(lines)
    ensures r.clients.Keys == s.clients.Keys
    decreases |lines|
  {
    if lines == [] then s
    else
      RunLines(Command(s, fd, CommandArgs(lines[0]).args, ids[0], times[0]), fd, lines[1..], ids[1..], times[1..])
  }

  function SetRead(s: State, fd: int, buffer: string): (r: State)
    requires fd in s.clients
    ensures r.clients.Keys == s.clients.Keys
  {
    s.(clients := s.clients[fd := s.clients[fd].(readBuffer := buffer)])
  }

  function LinesRead(s: State, fd: int, chunk: string): seq<string>
    requires fd in s.clients
  {
    CommandLines(Framing.Lines(s.clients[fd].readBuffer + chunk))
  }

  function Read(s: State, fd: int, chunk: string, ids: seq<string>, times: seq<int>): State
    requires fd in s.clients && Defined(LinesRead(s, fd, chunk)) && |LinesRead(s, fd, chunk)| == |ids| == |times|
  {
    var buffer := s.clients[fd].readBuffer + chunk;
    SetRead(RunLines(SetRead(s, fd, buffer), fd, LinesRead(s, fd, chunk), ids, times), fd, Tail(buffer))
  }

  function Write(s: State, fd: int, n: nat): State
    requires fd in s.clients && fd in s.log && n <= |s.clients[fd].writeBuffer|
  {
    var buffer := s.clients[fd].writeBuffer;
    s.(clients := s.clients[fd := s.clients[fd].(writeBuffer := buffer[n..])],
       log := s.log[fd := s.log[fd].(written := s.log[fd].written + buffer[..n])])
  }

  /** The database without one session of the client's user, and who to announce. */
  function Leave(db: Database, c: Client): (Database, Option<User>) {
    if c.user == "" then (db, None) else Release(db, c.user)
  }

  function Disconnect(s: State, fd: int): State
    requires fd in s.clients
  {
    var (db, gone) := Leave(s.db, s.clients[fd]);
    var clients, log := s.clients - {fd}, s.log - {fd};
    var outs := Farewell(clients, gone);
    State(s.serverFd, db, Deliver(clients, outs), Unwatch(s.poll, fd), LogOuts(log, outs))
  }

  function Pending(c: Client): bool {
    c.writeBuffer != ""
  }

  function Flagged(clients: Clients): (r: Clients)
    ensures r.Keys == clients.Keys
    ensures forall fd :: fd in clients ==> r[fd] == clients[fd].(pollOut := Pending(clients[fd]))
  {
    map fd | fd in clients :: clients[fd].(pollOut := Pending(clients[fd]))
  }

  function FlaggedPoll(clients: Clients, poll: seq<PollEntry>): (r: seq<PollEntry>)
    ensures |r| == |poll|
    ensures forall i :: 0 <= i < |poll| ==>
              r[i] == if poll[i].fd in clients then PollEntry(poll[i].fd, Pending(clients[poll[i].fd])) else poll[i]
  {
    seq(|poll|, i requires 0 <= i < |poll| =>
      if poll[i].fd in clients then PollEntry(poll[i].fd, Pending(clients[poll[i].fd])) else poll[i])
  }

  function UpdateFlags(s: State): State {
    s.(clients := Flagged(s.clients), poll := FlaggedPoll(s.clients, s.poll))
  }

  /** Stop, save, start again and load. */
  function Restart(s: State): State {
    Started(s.serverFd, LoadedAfterSave(s.db))
  }
}
