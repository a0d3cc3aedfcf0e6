/** Both directions of a connection, from what one side queues to what the other side handles. */
module EndToEnd {
  import opened Text
  import opened Tokens
  import opened Protocol
  import opened Framing
  import opened Router
  import opened ClientCommands
  import opened Transport
  import opened Model
  import opened Delivery
  import opened Invariant
  import opened FramesKeep
  import opened ServerState
  import opened Runs

  // ---------------------------------------------------------------------------
  // Server to client

  /**
    A client to which these bytes have come: it has routed exactly the `k` frames whose bytes are
    complete, in order, holds the rest, and its router is in the list context of the block that these
    frames leave open.
  */
  predicate Delivered(queued: seq<Frame>, arrived: string, r: Reader, k: nat) {
    && r.Running? && k <= |queued| && r.routed == FrameTexts(queued[..k])
    && arrived == Wire(FrameTexts(queued[..k])) + r.buffer
    && (k < |queued| ==> |arrived| < |Wire(FrameTexts(queued[..k + 1]))|)
    && ContextAfter("", queued[..k]) == ContextOf(BlockScan(Outside, queued[..k]))
  }

  lemma QueuedAreNewlineFree(frames: seq<Frame>)
    requires forall i :: 0 <= i < |frames| ==> FrameOk(frames[i])
    ensures NewlineFree(FrameTexts(frames))
  {
    forall i | 0 <= i < |frames| ensures '\n' !in FrameTexts(frames)[i] {
      assert FrameOk(frames[i]);
      FrameHasNoNewline(frames[i]);
    }
  }

  lemma {:induction false} EscapeLength(v: string)
    ensures |Escape(v)| <= 2 * |v|
  {
    if v != "" {
      EscapeLength(v[1..]);
    }
  }

  lemma {:induction false} FrameLength(f: Frame, max: nat)
    requires forall i :: 0 <= i < |f| ==> |f[i].text| <= max
    ensures |FrameText(f)| <= |f| * (2 * max + 3)
    decreases |f|
  {
    if f != [] {
      EscapeLength(f[0].text);
      if |f| > 1 {
        FrameLength(f[1..], max);
        assert |f| * (2 * max + 3) == (|f| - 1) * (2 * max + 3) + (2 * max + 3);
      }
    }
  }

  /** Only a 404 answer, which echoes an argument, can exceed the client's limit. */
  predicate EchoesWithinLimit(queued: seq<Frame>) {
    forall i :: 0 <= i < |queued| && queued[i] != [] && queued[i][0].text == "404" ==>
      |FrameText(queued[i])| < MAX_SERVER_FRAME_SIZE
  }

  lemma QueuedWithinLimit(queued: seq<Frame>)
    requires (forall i :: 0 <= i < |queued| ==> Sound(queued[i])) && EchoesWithinLimit(queued)
    ensures WithinLimit(FrameTexts(queued))
  {
    forall i | 0 <= i < |queued| ensures |FrameText(queued[i])| < MAX_SERVER_FRAME_SIZE {
      assert Sound(queued[i]);
      if queued[i][0].text != "404" {
        FrameLength(queued[i], MAX_TEXT);
      }
    }
  }

  /** The bytes of a list of queued frames, as far as they have come. */
  lemma QueueDelivered(queued: seq<Frame>, chunks: seq<string>, stop: seq<string> -> bool) returns (k: nat)
    requires Bracketed(queued) && (forall i :: 0 <= i < |queued| ==> FrameOk(queued[i]))
    requires Concat(chunks) <= Wire(FrameTexts(queued)) && WithinLimit(FrameTexts(queued))
    requires forall j :: 0 < j <= |queued| ==> !stop(FrameTexts(queued)[..j])
    ensures Delivered(queued, Concat(chunks), FeedAll(Running([], ""), chunks, stop), k)
    ensures Concat(chunks) == Wire(FrameTexts(queued)) ==> k == |queued|
  {
    var texts := FrameTexts(queued);
    QueuedAreNewlineFree(queued);
    var part;
    k, part := ReaderAfterPrefix(texts, Concat(chunks), chunks, stop);
    assert texts[..k] == FrameTexts(queued[..k]);
    if k < |queued| {
      NextFrame(texts, k);
      assert texts[..k + 1] == FrameTexts(queued[..k + 1]);
      WirePartIsShorter(texts, k + 1);
    }
    PrefixNotBroken(queued, k);
    RouterFollowsBlocks(Outside, queued[..k]);
  }

  /**
    In any good state, whatever part of the bytes written to a client has arrived and however it was
    cut into reads, the client has routed exactly the queued frames whose bytes are complete.
  */
  lemma ClientRoutesPrefix(s: State, fd: int, chunks: seq<string>, stop: seq<string> -> bool) returns (k: nat)
    requires Inv(s) && fd in s.clients && Concat(chunks) <= s.log[fd].written
    requires EchoesWithinLimit(s.log[fd].queued)
    requires forall j :: 0 < j <= |s.log[fd].queued| ==> !stop(FrameTexts(s.log[fd].queued)[..j])
    ensures Delivered(s.log[fd].queued, Concat(chunks), FeedAll(Running([], ""), chunks, stop), k)
    ensures Concat(chunks) == s.log[fd].written && s.clients[fd].writeBuffer == "" ==> k == |s.log[fd].queued|
  {
    assert LogEntryOk(s.clients[fd], s.log[fd]);
    QueuedWithinLimit(s.log[fd].queued);
    k := QueueDelivered(s.log[fd].queued, chunks, stop);
    assert s.log[fd].written + "" == s.log[fd].written;
  }

  lemma PrefixNotBroken(frames: seq<Frame>, k: nat)
    requires Bracketed(frames) && k <= |frames|
    ensures BlockScan(Outside, frames[..k]) != Broken
  {
    assert frames == frames[..k] + frames[k..];
    BlockScanAppend(Outside, frames[..k], frames[k..]);
    if BlockScan(Outside, frames[..k]) == Broken {
      BrokenStays(frames[k..]);
    }
  }

  /** What a client does with the tokens of a queued frame: its two lower-case events and the list markers are dropped. */
  predicate ReachesHandler(tokens: seq<string>, target: Routed)
    requires tokens != []
  {
    if tokens[0] == "210" then target.ListLine? && target.tokens == tokens
    else if tokens[0] == "EVENT" then |tokens| >= 2 && target == Handled(tokens[1], tokens)
    else if tokens[0] == "210-BEGIN" || tokens[0] == "210-END" || tokens[0] == "user_subscribed" || tokens[0] == "user_unsubscribed"
    then target == Dropped
    else target == Handled(tokens[0], tokens)
  }

  lemma StatusHandled(tokens: seq<string>, context: string)
    requires tokens != [] && IsStatus(tokens[0])
    ensures Target(context, Some(tokens)) == Handled(tokens[0], tokens) && ReachesHandler(tokens, Handled(tokens[0], tokens))
  {
  }

  lemma NewsHandled(tokens: seq<string>, context: string)
    requires |tokens| >= 2 && tokens[0] == "EVENT" && IsNews(tokens[1])
    ensures Target(context, Some(tokens)) == Handled(tokens[1], tokens) && ReachesHandler(tokens, Handled(tokens[1], tokens))
  {
  }

  lemma LowerCaseDropped(tokens: seq<string>, context: string)
    requires tokens != [] && (tokens[0] == "user_subscribed" || tokens[0] == "user_unsubscribed")
    ensures Target(context, Some(tokens)) == Dropped && ReachesHandler(tokens, Dropped)
  {
  }

  lemma FrameReaches(f: Frame, context: string)
    requires Sound(f) && (f[0].text == "210" ==> Target(context, Some(PartTexts(f))).ListLine?)
    ensures ReachesHandler(PartTexts(f), Target(context, Some(PartTexts(f))))
  {
    var tokens := PartTexts(f);
    if IsStatus(tokens[0]) {
      StatusHandled(tokens, context);
    } else if tokens[0] == "EVENT" {
      NewsHandled(tokens, context);
    } else if tokens[0] == "user_subscribed" || tokens[0] == "user_unsubscribed" {
      LowerCaseDropped(tokens, context);
    }
  }

  /**
    Every plain frame queued for a client arrives token by token, and is handled under its status or its
    event, or by the handler of its list; only list markers and the two subscription events are dropped.
  */
  lemma QueuedFrameHandled(s: State, fd: int, i: nat)
    requires Inv(s) && fd in s.clients && i < |s.log[fd].queued| && PlainFrame(s.log[fd].queued[i])
    ensures var queued := s.log[fd].queued;
            var tokens := PartTexts(queued[i]);
            var target := Target(ContextAfter("", queued[..i]), Some(tokens));
            var block := BlockScan(Outside, queued[..i]);
            && Tokenise(FrameText(queued[i])) == Some(tokens) && tokens != [] && ReachesHandler(tokens, target)
            && (tokens[0] == "210" <==> target.ListLine?)
            && (tokens[0] == "210" ==> block.Inside? && target.context == KindName(block.kind))
  {
    var queued := s.log[fd].queued;
    assert LogEntryOk(s.clients[fd], s.log[fd]);
    PlainFrameTokens(queued[i]);
    ListLineRouted(queued, i);
    FrameReaches(queued[i], ContextAfter("", queued[..i]));
  }

  /** The same over every run from a start on a good database. */
  lemma RunRoutesPrefix(serverFd: int, db: Database, events: seq<Event>, fd: int, chunks: seq<string>, stop: seq<string> -> bool)
    returns (k: nat)
    requires DbOk(db) && (forall i :: 0 <= i < |db.users| ==> db.users[i].connections == 0)
    requires Possible(Started(serverFd, db), events)
    requires var s := RunFrom(Started(serverFd, db), events);
             && fd in s.clients && fd in s.log && Concat(chunks) <= s.log[fd].written
             && EchoesWithinLimit(s.log[fd].queued)
             && forall j :: 0 < j <= |s.log[fd].queued| ==> !stop(FrameTexts(s.log[fd].queued)[..j])
    ensures var s := RunFrom(Started(serverFd, db), events);
            && Delivered(s.log[fd].queued, Concat(chunks), FeedAll(Running([], ""), chunks, stop), k)
            && (Concat(chunks) == s.log[fd].written && s.clients[fd].writeBuffer == "" ==> k == |s.log[fd].queued|)
  {
    StartOk(serverFd, db);
    RunKeeps(Started(serverFd, db), events);
    k := ClientRoutesPrefix(RunFrom(Started(serverFd, db), events), fd, chunks, stop);
  }

  // ---------------------------------------------------------------------------
  // Client to server

  /** The frames that a client sends for a list of typed lines. */
  function SentFrames(lines: seq<string>): seq<string> {
    if lines == [] then []
    else (match DispatchLine(lines[0])
          case Sent(_, frame) => [frame]
          case _ => []) + SentFrames(lines[1..])
  }

  /** A frame that came out of validation. */
  ghost predicate IsSent(frame: string) {
    exists line: string :: DispatchLine(line).Sent? && DispatchLine(line).frame == frame
  }

  lemma TrimmedPart(line: string)
    requires '\n' !in line
    ensures '\n' !in TrimLeft(line)
  {
  }

  lemma {:induction false} SentFramesOk(lines: seq<string>)
    requires NewlineFree(lines)
    ensures NewlineFree(SentFrames(lines))
    ensures forall i :: 0 <= i < |SentFrames(lines)| ==> SentFrames(lines)[i] != "" && IsSent(SentFrames(lines)[i])
  {
    if lines != [] {
      SentFramesOk(lines[1..]);
      if DispatchLine(lines[0]).Sent? {
        SentFrame(lines[0]);
        TrimmedPart(lines[0]);
      }
    }
  }

  /** What the server reads out of a frame that the client sent: the command, then the validated arguments. */
  lemma SentFrameArgs(frame: string)
    requires IsSent(frame)
    ensures Tokenise(frame).Some? && Tokenise(frame).value != [] && Supported(Tokenise(frame).value[0])
    ensures CommandArgs(frame) == if "\"" in Openers(Words(frame)) then Undefined else Args(Tokenise(frame).value)
  {
    var line :| DispatchLine(line).Sent? && DispatchLine(line).frame == frame;
    SentFrame(line);
  }

  lemma {:induction false} SentFramesAppend(a: seq<string>, b: seq<string>)
    ensures SentFrames(a + b) == SentFrames(a) + SentFrames(b)
  {
    if a == [] {
      assert a + b == b;
    } else {
      assert (a + b)[1..] == a[1..] + b;
      SentFramesAppend(a[1..], b);
    }
  }

  lemma NextTyped(lines: seq<string>, i: nat)
    requires i < |lines|
    ensures Wire(SentFrames(lines[..i + 1])) ==
            Wire(SentFrames(lines[..i])) +
            (match DispatchLine(lines[i]) case Sent(_, frame) => frame + "\r\n" case _ => "")
  {
    assert lines[..i + 1] == lines[..i] + [lines[i]];
    SentFramesAppend(lines[..i], [lines[i]]);
    assert [lines[i]][1..] == [];
    WireAppend(SentFrames(lines[..i]), SentFrames([lines[i]]));
    match DispatchLine(lines[i])
    case Sent(_, frame) =>
      assert SentFrames([lines[i]]) == [frame];
      assert Wire([frame]) == frame + "\r\n" + Wire([]);
    case _ =>
  }

  /** Typing lines into a client: each is dispatched, and what passes validation is queued and flushed. */
  method TypeLines(client: TcpClient, lines: seq<string>)
    requires client.Valid()
    modifies client
    ensures client.Valid() && old(client.written) <= client.written <= client.queued
    ensures client.queued == old(client.queued) + Wire(SentFrames(lines))
  {
    assert lines[..0] == [];
    for i := 0 to |lines|
      invariant client.Valid() && old(client.written) <= client.written
      invariant client.queued == old(client.queued) + Wire(SentFrames(lines[..i]))
    {
      NextTyped(lines, i);
      var r := DispatchCommandLine(lines[i]);
      if r.Sent? {
        ConcatAssoc(old(client.queued), Wire(SentFrames(lines[..i])), r.frame + "\r\n");
        var blocked := client.SendCommandFrame(r.frame);
      }
    }
    assert lines[..|lines|] == lines;
  }

  /** The command frames whose bytes are complete, and no others. */
  predicate Arrived(frames: seq<string>, arrived: string, k: nat) {
    && k <= |frames| && Wire(frames[..k]) <= arrived
    && (k < |frames| ==> |arrived| < |Wire(frames[..k + 1])|)
    && (arrived == Wire(frames) ==> k == |frames|)
  }

  /**
    Whatever part of the bytes a client has written arrives and however it is cut into reads, the
    server's command lines are exactly the completely arrived frames sent for the typed lines.
  */
  lemma ServerHandlesSent(client: TcpClient, lines: seq<string>, chunks: seq<string>) returns (k: nat)
    requires client.Valid() && client.queued == Wire(SentFrames(lines)) && NewlineFree(lines)
    requires Concat(chunks) <= client.written
    ensures Arrived(SentFrames(lines), Concat(chunks), k) && LinesOverReads("", chunks) == SentFrames(lines)[..k]
  {
    assert Concat(chunks) <= client.queued;
    k := SentArrive(lines, chunks);
  }

  lemma SentArrive(lines: seq<string>, chunks: seq<string>) returns (k: nat)
    requires NewlineFree(lines) && Concat(chunks) <= Wire(SentFrames(lines))
    ensures Arrived(SentFrames(lines), Concat(chunks), k) && LinesOverReads("", chunks) == SentFrames(lines)[..k]
  {
    SentFramesOk(lines);
    k := CommandsDelivered(SentFrames(lines), Concat(chunks), chunks);
    if k < |SentFrames(lines)| {
      WirePartIsShorter(SentFrames(lines), k + 1);
    }
  }

  lemma WirePartIsShorter(frames: seq<string>, k: nat)
    requires k <= |frames|
    ensures |Wire(frames[..k])| <= |Wire(frames)|
  {
    assert frames == frames[..k] + frames[k..];
    WireAppend(frames[..k], frames[k..]);
  }

  // ---------------------------------------------------------------------------
  // The server's reads over a whole run

  function ChunksFor(fd: int, events: seq<Event>): seq<string> {
    if events == [] then []
    else (if events[0].Received? && events[0].fd == fd then [events[0].chunk] else []) + ChunksFor(fd, events[1..])
  }

  /** The command lines handled for one connection over a run. */
  function LinesFor(s: State, fd: int, events: seq<Event>): seq<string>
    requires Possible(s, events)
    decreases |events|
  {
    if events == [] then []
    else (if events[0].Received? && events[0].fd == fd then LinesRead(s, fd, events[0].chunk) else []) +
         LinesFor(Step(s, events[0]), fd, events[1..])
  }

  /** Events that leave the connection in place. */
  predicate Stays(fd: int, events: seq<Event>) {
    forall i :: 0 <= i < |events| ==> events[i] != Accepted(fd) && events[i] != HungUp(fd) && !events[i].Restarted?
  }

  /** A step leaves a connection's read buffer alone, unless it is a read of that connection. */
  lemma StepReadBuffer(s: State, e: Event, fd: int)
    requires Enabled(s, e) && fd in s.clients && e != Accepted(fd) && e != HungUp(fd) && !e.Restarted?
    ensures fd in Step(s, e).clients
    ensures Step(s, e).clients[fd].readBuffer ==
            if e.Received? && e.fd == fd then Tail(s.clients[fd].readBuffer + e.chunk) else s.clients[fd].readBuffer
  {
    match e
    case Received(f, chunk, ids, times) =>
      RunLinesKeepsReads(SetRead(s, f, s.clients[f].readBuffer + chunk), f, LinesRead(s, f, chunk), ids, times);
    case HungUp(f) => DeliverKeepsSessions(s.clients - {f}, Announcement(s, f));
    case _ =>
  }

  /** Interleaved with anything, the command lines handled for a connection depend only on its own bytes. */
  lemma {:induction false} LinesForConnection(s: State, fd: int, events: seq<Event>)
    requires Possible(s, events) && fd in s.clients && Stays(fd, events)
    ensures LinesFor(s, fd, events) == LinesOverReads(s.clients[fd].readBuffer, ChunksFor(fd, events))
    decreases |events|
  {
    if events != [] {
      var e, rest := events[0], events[1..];
      StepReadBuffer(s, e, fd);
      assert Stays(fd, rest);
      LinesForConnection(Step(s, e), fd, rest);
      if e.Received? && e.fd == fd {
        LinesOverReadsStep(s.clients[fd].readBuffer, e.chunk, ChunksFor(fd, rest));
      } else {
        assert [] + ChunksFor(fd, rest) == ChunksFor(fd, rest);
      }
    }
  }

  lemma LinesOverReadsStep(buffer: string, chunk: string, rest: seq<string>)
    ensures LinesOverReads(buffer, [chunk] + rest) ==
            CommandLines(Framing.Lines(buffer + chunk)) + LinesOverReads(Tail(buffer + chunk), rest)
  {
    assert ([chunk] + rest)[1..] == rest;
  }

  lemma {:induction false} LinesForDefined(s: State, fd: int, events: seq<Event>)
    requires Possible(s, events)
    ensures Defined(LinesFor(s, fd, events))
    decreases |events|
  {
    if events != [] {
      LinesForDefined(Step(s, events[0]), fd, events[1..]);
    }
  }

  /** A handled frame is read as its command and the arguments it was validated with. */
  predicate ReadAsSent(frame: string) {
    && Tokenise(frame).Some? && Tokenise(frame).value != [] && Supported(Tokenise(frame).value[0])
    && CommandArgs(frame) == Args(Tokenise(frame).value)
  }

  lemma HandledAsSent(frames: seq<string>, k: nat)
    requires k <= |frames| && Defined(frames[..k]) && forall i :: 0 <= i < |frames| ==> IsSent(frames[i])
    ensures forall i :: 0 <= i < k ==> ReadAsSent(frames[i])
  {
    forall i | 0 <= i < k ensures ReadAsSent(frames[i]) {
      assert frames[..k][i] == frames[i];
      SentFrameArgs(frames[i]);
    }
  }

  /**
    From accepting a connection on, in any run, the server handles for it exactly the completely
    arrived frames that its client sent, in order, each as the command and the arguments it was
    validated with.
  */
  lemma RunHandlesSent(s: State, fd: int, events: seq<Event>, client: TcpClient, lines: seq<string>) returns (k: nat)
    requires Enabled(s, Accepted(fd)) && Possible(Accept(s, fd), events) && Stays(fd, events)
    requires client.Valid() && client.queued == Wire(SentFrames(lines)) && NewlineFree(lines)
    requires Concat(ChunksFor(fd, events)) <= client.written
    ensures Arrived(SentFrames(lines), Concat(ChunksFor(fd, events)), k)
    ensures LinesFor(Accept(s, fd), fd, events) == SentFrames(lines)[..k]
    ensures forall i :: 0 <= i < k ==> ReadAsSent(SentFrames(lines)[i])
  {
    LinesForConnection(Accept(s, fd), fd, events);
    LinesForDefined(Accept(s, fd), fd, events);
    k := ServerHandlesSent(client, lines, ChunksFor(fd, events));
    SentFramesOk(lines);
    HandledAsSent(SentFrames(lines), k);
  }
}
