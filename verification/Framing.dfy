/**
  Cutting byte streams into frames at both ends of a connection. Arbitrary read chunks and partial
  writes must not change which frames are delivered.
*/
module Framing {
  import opened Text

  const MAX_SERVER_FRAME_SIZE: nat := 65536

  /** `find('\n', 0)`, with the length of the text for npos. */
  function FindNewline(s: string): (n: nat)
    ensures n <= |s| && '\n' !in s[..n]
    ensures n < |s| ==> s[n] == '\n'
  {
    if s == "" || s[0] == '\n' then 0
    else
      var m := FindNewline(s[1..]);
      assert s[..m + 1] == [s[0]] + s[1..][..m];
      m + 1
  }

  lemma {:induction false} FindNewlineIs(a: string, b: string)
    requires '\n' !in a && (b == "" || b[0] == '\n')
    ensures FindNewline(a + b) == |a|
  {
    if a == "" {
      assert a + b == b;
    } else {
      assert (a + b)[1..] == a[1..] + b;
      FindNewlineIs(a[1..], b);
    }
  }

  method FindNewlineFrom(s: string, from: nat) returns (n: nat)
    requires from <= |s|
    ensures n == from + FindNewline(s[from..])
  {
    n := from;
    while n < |s| && s[n] != '\n'
      invariant from <= n <= |s|
      invariant '\n' !in s[from..n]
    {
      assert s[from..n + 1] == s[from..n] + [s[n]];
      n := n + 1;
    }
    assert s[from..] == s[from..n] + s[n..];
    FindNewlineIs(s[from..n], s[n..]);
  }

  /** The line that a search from `from` found. */
  lemma CutLine(s: string, from: nat, end: nat)
    requires from <= end < |s| && end == from + FindNewline(s[from..])
    ensures s[from..] == s[from..end] + "\n" + s[end + 1..]
    ensures '\n' !in s[from..end]
  {
    assert s[from..end] == s[from..][..end - from];
    assert s[from..][end - from] == '\n' == s[end];
  }

  lemma NoLineLeft(s: string, from: nat)
    requires from <= |s| && from + FindNewline(s[from..]) == |s|
    ensures '\n' !in s[from..]
  {
    assert s[from..][..|s| - from] == s[from..];
  }

  function StripCr(line: string): (r: string) {
    if line != "" && line[|line| - 1] == '\r' then line[..|line| - 1] else line
  }

  /** The complete lines of a buffer, and what follows the last of them. */
  function Lines(s: string): (ls: seq<string>)
    decreases |s|
  {
    var n := FindNewline(s);
    if n == |s| then [] else [s[..n]] + Lines(s[n + 1..])
  }

  function Tail(s: string): (r: string)
    ensures '\n' !in r
    decreases |s|
  {
    var n := FindNewline(s);
    if n == |s| then
      assert s[..n] == s;
      s
    else Tail(s[n + 1..])
  }

  lemma LinesStep(line: string, s: string)
    requires '\n' !in line
    ensures Lines(line + "\n" + s) == [line] + Lines(s)
    ensures Tail(line + "\n" + s) == Tail(s)
  {
    var t := line + ("\n" + s);
    assert t == line + "\n" + s;
    FindNewlineIs(line, "\n" + s);
    assert t[..|line|] == line && t[|line| + 1..] == s;
  }

  lemma NoLines(s: string)
    requires '\n' !in s
    ensures Lines(s) == [] && Tail(s) == s && FindNewline(s) == |s|
  {
    FindNewlineIs(s, "");
    assert s + "" == s;
  }

  /** Cutting a stream in two anywhere leaves the same lines and the same remainder. */
  lemma {:induction false} LinesAppend(a: string, b: string)
    ensures Lines(a + b) == Lines(a) + Lines(Tail(a) + b)
    ensures Tail(a + b) == Tail(Tail(a) + b)
    decreases |a|
  {
    var n := FindNewline(a);
    if n == |a| {
      assert a[..n] == a;
      NoLines(a);
      assert [] + Lines(a + b) == Lines(a + b);
    } else {
      var line, rest := a[..n], a[n + 1..];
      assert a == line + "\n" + rest;
      ConcatAssoc(line + "\n", rest, b);
      LinesStep(line, rest + b);
      LinesStep(line, rest);
      LinesAppend(rest, b);
      ConcatAssoc([line], Lines(rest), Lines(Tail(rest) + b));
    }
  }

  // ---------------------------------------------------------------------------
  // The client's read path

  /** Still reading; stopped after a frame that asks to disconnect; or failed on an oversized frame. */
  datatype Reader =
    | Running(routed: seq<string>, buffer: string)
    | Closed(routed: seq<string>)
    | Failed(routed: seq<string>)

  /** Between reads a running reader holds one incomplete frame within the limit. */
  predicate Stable(r: Reader) {
    r.Running? ==> '\n' !in r.buffer && |r.buffer| <= MAX_SERVER_FRAME_SIZE
  }

  function Drain(routed: seq<string>, buffer: string, stop: seq<string> -> bool): (r: Reader)
    ensures Stable(r)
    ensures routed <= r.routed
    decreases |buffer|
  {
    var n := FindNewline(buffer);
    if n > MAX_SERVER_FRAME_SIZE then Failed(routed)
    else if n == |buffer| then
      assert buffer[..n] == buffer;
      Running(routed, buffer)
    else
      var routed' := routed + [StripCr(buffer[..n])];
      if stop(routed') then Closed(routed') else Drain(routed', buffer[n + 1..], stop)
  }

  function Feed(r: Reader, chunk: string, stop: seq<string> -> bool): (r': Reader)
    ensures Stable(r) ==> Stable(r')
    ensures r.routed <= r'.routed
  {
    if r.Running? then Drain(r.routed, r.buffer + chunk, stop) else r
  }

  function FeedAll(r: Reader, chunks: seq<string>, stop: seq<string> -> bool): Reader
    decreases |chunks|
  {
    if chunks == [] then r else FeedAll(Feed(r, chunks[0], stop), chunks[1..], stop)
  }

  function Concat(chunks: seq<string>): string {
    if chunks == [] then "" else chunks[0] + Concat(chunks[1..])
  }

  lemma DrainLine(routed: seq<string>, line: string, rest: string, stop: seq<string> -> bool)
    requires '\n' !in line
    ensures Drain(routed, line + "\n" + rest, stop) ==
            if |line| > MAX_SERVER_FRAME_SIZE then Failed(routed)
            else if stop(routed + [StripCr(line)]) then Closed(routed + [StripCr(line)])
            else Drain(routed + [StripCr(line)], rest, stop)
  {
    var s := line + ("\n" + rest);
    assert s == line + "\n" + rest;
    FindNewlineIs(line, "\n" + rest);
    assert s[..|line|] == line && s[|line| + 1..] == rest;
  }

  /** One turn of the extraction loop. */
  lemma DrainStep(routed: seq<string>, s: string, from: nat, end: nat, next: nat, more: seq<string>, stop: seq<string> -> bool)
    requires from <= end < |s| && end == from + FindNewline(s[from..]) && next == end + 1
    requires more == routed + [StripCr(s[from..end])]
    ensures Drain(routed, s[from..], stop) ==
            if end - from > MAX_SERVER_FRAME_SIZE then Failed(routed)
            else if stop(more) then Closed(more)
            else Drain(more, s[next..], stop)
  {
    CutLine(s, from, end);
    DrainLine(routed, s[from..end], s[end + 1..], stop);
  }

  lemma DrainPart(routed: seq<string>, part: string, stop: seq<string> -> bool)
    requires '\n' !in part
    ensures Drain(routed, part, stop) ==
            if |part| > MAX_SERVER_FRAME_SIZE then Failed(routed) else Running(routed, part)
  {
    NoLines(part);
  }

  /** Frames, stop and failure of a stream do not depend on where it is cut. */
  lemma {:induction false} DrainAppend(routed: seq<string>, a: string, b: string, stop: seq<string> -> bool)
    ensures Drain(routed, a + b, stop) == Feed(Drain(routed, a, stop), b, stop)
    decreases |a|
  {
    var n := FindNewline(a);
    if n == |a| {
      assert a[..n] == a;
      if n > MAX_SERVER_FRAME_SIZE {
        var m := FindNewline(a + b);
        assert m >= n;
      }
    } else {
      FindNewlineIs(a[..n], a[n..] + b);
      assert a + b == a[..n] + (a[n..] + b);
      assert FindNewline(a + b) == n;
      if n <= MAX_SERVER_FRAME_SIZE {
        var routed' := routed + [StripCr(a[..n])];
        assert (a + b)[..n] == a[..n] && (a + b)[n + 1..] == a[n + 1..] + b;
        if !stop(routed') {
          DrainAppend(routed', a[n + 1..], b, stop);
        }
      }
    }
  }

  lemma StableDrain(r: Reader, stop: seq<string> -> bool)
    requires Stable(r)
    ensures Feed(r, "", stop) == r
  {
    if r.Running? {
      DrainPart(r.routed, r.buffer, stop);
      assert r.buffer + "" == r.buffer;
    }
  }

  /** Every sequence of reads ends where one read of the whole stream ends. */
  lemma {:induction false} FeedAllIsOneFeed(r: Reader, chunks: seq<string>, stop: seq<string> -> bool)
    requires Stable(r)
    ensures FeedAll(r, chunks, stop) == Feed(r, Concat(chunks), stop)
    decreases |chunks|
  {
    if chunks == [] {
      StableDrain(r, stop);
    } else {
      var rest := Concat(chunks[1..]);
      FeedAllIsOneFeed(Feed(r, chunks[0], stop), chunks[1..], stop);
      if r.Running? {
        DrainAppend(r.routed, r.buffer + chunks[0], rest, stop);
        assert r.buffer + chunks[0] + rest == r.buffer + (chunks[0] + rest);
      }
    }
  }

  datatype Status = Continue | Stop | Oversize

  /** The client's receive buffer and the frames it has handed to the router. */
  class ServerReader {
    const stop: seq<string> -> bool
    var buffer: string
    var routed: seq<string>

    ghost function State(status: Status): (r: Reader)
      reads this
    {
      match status
      case Continue => Running(routed, buffer)
      case Stop => Closed(routed)
      case Oversize => Failed(routed)
    }

    constructor (stop: seq<string> -> bool)
      ensures this.stop == stop && State(Continue) == Running([], "")
    {
      this.stop := stop;
      buffer, routed := "", [];
    }

    method HandleReadable(chunk: string) returns (status: Status)
      modifies this
      ensures State(status) == Feed(old(State(Continue)), chunk, stop)
      ensures status == Continue ==> '\n' !in buffer && |buffer| <= MAX_SERVER_FRAME_SIZE
    {
      buffer := buffer + chunk;
      var parseOffset := 0;
      assert buffer[0..] == buffer;
      var lineEnd := FindNewlineFrom(buffer, parseOffset);
      while lineEnd < |buffer|
        invariant 0 <= parseOffset <= lineEnd <= |buffer|
        invariant lineEnd == parseOffset + FindNewline(buffer[parseOffset..])
        invariant buffer == old(buffer) + chunk
        invariant Drain(routed, buffer[parseOffset..], stop) == Feed(old(State(Continue)), chunk, stop)
        decreases |buffer| - parseOffset
      {
        var frameLength := lineEnd - parseOffset;
        var next, more := lineEnd + 1, routed + [StripCr(buffer[parseOffset..lineEnd])];
        DrainStep(routed, buffer, parseOffset, lineEnd, next, more, stop);
        if frameLength > MAX_SERVER_FRAME_SIZE {
          return Oversize;
        }
        routed, parseOffset := more, next;
        if stop(routed) {
          return Stop;
        }
        lineEnd := FindNewlineFrom(buffer, parseOffset);
      }
      NoLineLeft(buffer, parseOffset);
      buffer := buffer[parseOffset..];
      DrainPart(routed, buffer, stop);
      if |buffer| > MAX_SERVER_FRAME_SIZE {
        return Oversize;
      }
      return Continue;
    }
  }

  // ---------------------------------------------------------------------------
  // Frames on the wire

  function Wire(frames: seq<string>): string {
    if frames == [] then "" else frames[0] + "\r\n" + Wire(frames[1..])
  }

  lemma {:induction false} WireAppend(a: seq<string>, b: seq<string>)
    ensures Wire(a + b) == Wire(a) + Wire(b)
  {
    if a == [] {
      assert a + b == b;
    } else {
      assert (a + b)[1..] == a[1..] + b;
      WireAppend(a[1..], b);
    }
  }

  predicate NewlineFree(frames: seq<string>) {
    forall i :: 0 <= i < |frames| ==> '\n' !in frames[i]
  }

  lemma ShortPrefix(frame: string, rest: string, p: string)
    requires p <= frame + "\r\n" + rest && |p| < |frame + "\r\n"|
    ensures p < frame + "\r\n" && ('\n' !in frame ==> '\n' !in p)
  {
    var head := frame + "\r\n";
    assert p == (head + rest)[..|p|] == head[..|p|];
    assert forall i :: 0 <= i < |p| ==> p[i] == (frame + "\r")[i];
  }

  lemma LongPrefix(head: string, rest: string, p: string)
    requires p <= head + rest && |p| >= |head|
    ensures p == head + p[|head|..] && p[|head|..] <= rest
  {
    var all := head + rest;
    assert p[..|head|] == all[..|head|];
    assert all[|head|..] == rest && p[|head|..] == all[|head|..|p|];
  }

  lemma WireFirst(frames: seq<string>, k: nat)
    requires 0 < k <= |frames|
    ensures Wire(frames[..k]) == frames[0] + "\r\n" + Wire(frames[1..][..k - 1])
  {
    assert frames[..k][1..] == frames[1..][..k - 1];
  }

  /** Any prefix of a wire is some whole frames followed by a proper part of the next one. */
  lemma {:induction false} WirePrefix(frames: seq<string>, p: string) returns (k: nat, part: string)
    requires p <= Wire(frames)
    ensures k <= |frames| && p == Wire(frames[..k]) + part
    ensures k == |frames| ==> part == ""
    ensures k < |frames| ==> part < frames[k] + "\r\n"
    ensures NewlineFree(frames) ==> '\n' !in part
  {
    if frames == [] {
      k, part := 0, "";
    } else {
      var head, more := frames[0] + "\r\n", frames[1..];
      if |p| < |head| {
        k, part := 0, p;
        ShortPrefix(frames[0], Wire(more), p);
      } else {
        LongPrefix(head, Wire(more), p);
        var j;
        j, part := WirePrefix(more, p[|head|..]);
        k := j + 1;
        WireFirst(frames, k);
        ConcatAssoc(head, Wire(more[..j]), part);
      }
    }
  }

  lemma NextFrame(frames: seq<string>, k: nat)
    requires k < |frames|
    ensures Wire(frames[..k + 1]) == Wire(frames[..k]) + (frames[k] + "\r\n")
  {
    assert frames[..k + 1] == frames[..k] + [frames[k]];
    WireAppend(frames[..k], [frames[k]]);
    assert Wire([frames[k]]) == frames[k] + "\r\n" + Wire([]);
  }

  predicate WithinLimit(frames: seq<string>) {
    forall i :: 0 <= i < |frames| ==> |frames[i]| < MAX_SERVER_FRAME_SIZE
  }

  lemma DrainFrame(routed: seq<string>, frame: string, rest: string, stop: seq<string> -> bool)
    requires '\n' !in frame && |frame| < MAX_SERVER_FRAME_SIZE
    ensures Drain(routed, frame + "\r\n" + rest, stop) ==
            if stop(routed + [frame]) then Closed(routed + [frame]) else Drain(routed + [frame], rest, stop)
  {
    assert frame + "\r\n" + rest == (frame + "\r") + "\n" + rest;
    DrainLine(routed, frame + "\r", rest, stop);
    assert StripCr(frame + "\r") == frame;
  }

  lemma {:induction false} DrainWire(routed: seq<string>, frames: seq<string>, part: string, stop: seq<string> -> bool)
    requires NewlineFree(frames) && WithinLimit(frames)
    requires '\n' !in part && |part| <= MAX_SERVER_FRAME_SIZE
    requires forall k :: 0 < k <= |frames| ==> !stop(routed + frames[..k])
    ensures Drain(routed, Wire(frames) + part, stop) == Running(routed + frames, part)
    decreases |frames|
  {
    if frames == [] {
      DrainPart(routed, part, stop);
      assert Wire(frames) + part == part;
      assert routed + frames == routed;
    } else {
      var f, rest := frames[0], frames[1..];
      ConcatAssoc(f + "\r\n", Wire(rest), part);
      DrainFrame(routed, f, Wire(rest) + part, stop);
      assert frames == [f] + rest;
      ConcatAssoc(routed, [f], rest);
      assert frames[..1] == [f];
      assert !stop(routed + frames[..1]);
      forall k | 0 < k <= |rest| ensures !stop(routed + [f] + rest[..k]) {
        assert frames[..k + 1] == [f] + rest[..k];
        ConcatAssoc(routed, [f], rest[..k]);
      }
      DrainWire(routed + [f], rest, part, stop);
    }
  }

  /** Bytes of whole frames and of part of the next one: where the reader stands after them. */
  lemma ReaderAfterPrefix(frames: seq<string>, p: string, chunks: seq<string>, stop: seq<string> -> bool)
    returns (k: nat, part: string)
    requires NewlineFree(frames) && WithinLimit(frames)
    requires p <= Wire(frames) && Concat(chunks) == p
    requires forall j :: 0 < j <= |frames| ==> !stop(frames[..j])
    ensures k <= |frames| && p == Wire(frames[..k]) + part
    ensures k == |frames| ==> part == ""
    ensures k < |frames| ==> part < frames[k] + "\r\n"
    ensures FeedAll(Running([], ""), chunks, stop) == Running(frames[..k], part)
  {
    k, part := WirePrefix(frames, p);
    FeedAllIsOneFeed(Running([], ""), chunks, stop);
    assert "" + p == p;
    forall j | 0 < j <= |frames[..k]| ensures !stop([] + frames[..k][..j]) {
      assert [] + frames[..k][..j] == frames[..j];
    }
    DrainWire([], frames[..k], part, stop);
    assert [] + frames[..k] == frames[..k];
  }

  /**
    End to end over an in-order channel: whatever prefix of the queued bytes has been written and
    however it is cut into reads, a client that is not told to stop has routed exactly the frames
    whose bytes are complete, in order, and holds the rest.
  */
  lemma FramesDelivered(frames: seq<string>, p: string, chunks: seq<string>, stop: seq<string> -> bool)
    requires NewlineFree(frames) && WithinLimit(frames)
    requires p <= Wire(frames) && Concat(chunks) == p
    requires forall j :: 0 < j <= |frames| ==> !stop(frames[..j])
    ensures var r := FeedAll(Running([], ""), chunks, stop);
            && r.Running? && r.routed <= frames
            && p == Wire(r.routed) + r.buffer
            && (r.routed == frames || |p| < |Wire(frames[..|r.routed| + 1])|)
  {
    var k, part := ReaderAfterPrefix(frames, p, chunks, stop);
    if k < |frames| {
      NextFrame(frames, k);
    } else {
      assert frames[..k] == frames;
    }
  }

  // ---------------------------------------------------------------------------
  // The server's read path

  /** The command lines of a list of raw lines: line ends stripped, empty lines skipped. */
  function CommandLines(lines: seq<string>): (cs: seq<string>) {
    if lines == [] then []
    else if StripCr(lines[0]) == "" then CommandLines(lines[1..])
    else [StripCr(lines[0])] + CommandLines(lines[1..])
  }

  lemma {:induction false} CommandLinesAppend(a: seq<string>, b: seq<string>)
    ensures CommandLines(a + b) == CommandLines(a) + CommandLines(b)
  {
    if a == [] {
      assert a + b == b;
    } else {
      assert (a + b)[1..] == a[1..] + b;
      CommandLinesAppend(a[1..], b);
    }
  }

  /** The command lines a server handles over a list of reads, from a given leftover. */
  function LinesOverReads(buffer: string, chunks: seq<string>): seq<string>
    decreases |chunks|
  {
    if chunks == [] then []
    else CommandLines(Lines(buffer + chunks[0])) + LinesOverReads(Tail(buffer + chunks[0]), chunks[1..])
  }

  lemma {:induction false} LinesOverReadsIsOne(buffer: string, chunks: seq<string>)
    requires '\n' !in buffer
    ensures LinesOverReads(buffer, chunks) == CommandLines(Lines(buffer + Concat(chunks)))
    decreases |chunks|
  {
    if chunks == [] {
      NoLines(buffer);
      assert buffer + "" == buffer;
    } else {
      var a, rest := buffer + chunks[0], Concat(chunks[1..]);
      LinesOverReadsIsOne(Tail(a), chunks[1..]);
      LinesAppend(a, rest);
      CommandLinesAppend(Lines(a), Lines(Tail(a) + rest));
      assert a + rest == buffer + (chunks[0] + rest);
    }
  }

  lemma {:induction false} LinesOfWire(frames: seq<string>, part: string)
    requires NewlineFree(frames) && '\n' !in part
    requires forall i :: 0 <= i < |frames| ==> frames[i] != ""
    ensures CommandLines(Lines(Wire(frames) + part)) == frames
    decreases |frames|
  {
    if frames == [] {
      NoLines(part);
      assert Wire(frames) + part == part;
    } else {
      var line, rest := frames[0] + "\r", Wire(frames[1..]) + part;
      assert Wire(frames) + part == line + "\n" + rest;
      LinesStep(line, rest);
      LinesOfWire(frames[1..], part);
      assert StripCr(line) == frames[0];
      assert ([line] + Lines(rest))[1..] == Lines(rest);
    }
  }

  /** The other direction: the server handles exactly the command frames that arrived complete. */
  lemma CommandsDelivered(frames: seq<string>, p: string, chunks: seq<string>) returns (k: nat)
    requires NewlineFree(frames) && (forall i :: 0 <= i < |frames| ==> frames[i] != "")
    requires p <= Wire(frames) && Concat(chunks) == p
    ensures k <= |frames| && LinesOverReads("", chunks) == frames[..k]
    ensures Wire(frames[..k]) <= p && (k < |frames| ==> |p| < |Wire(frames[..k + 1])|)
  {
    var part;
    k, part := WirePrefix(frames, p);
    LinesOverReadsIsOne("", chunks);
    LinesOfWire(frames[..k], part);
    assert "" + p == p;
    if k < |frames| {
      NextFrame(frames, k);
    }
  }
}
