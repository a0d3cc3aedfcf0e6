/** Queued frames reaching the clients' write buffers. */
module Delivery {
  import opened Text
  import opened Protocol
  import opened Framing
  import opened Commands

  function Append(c: Client, frame: Frame): Client {
    c.(writeBuffer := c.writeBuffer + (FrameText(frame) + "\r\n"))
  }

  /** One frame to a set of clients; who is visited first makes no difference. */
  function Post(clients: Clients, out: Out): (r: Clients)
    ensures r.Keys == clients.Keys
    ensures forall fd :: fd in clients ==> r[fd] == if fd in out.to then Append(clients[fd], out.frame) else clients[fd]
  {
    map fd | fd in clients :: if fd in out.to then Append(clients[fd], out.frame) else clients[fd]
  }

  function Deliver(clients: Clients, outs: seq<Out>): (r: Clients)
    ensures r.Keys == clients.Keys
    decreases |outs|
  {
    if outs == [] then clients else Deliver(Post(clients, outs[0]), outs[1..])
  }

  function SetSession(clients: Clients, fd: int, user: string, ctx: Context): (r: Clients)
    requires fd in clients
    ensures r.Keys == clients.Keys
  {
    clients[fd := clients[fd].(user := user, ctx := ctx)]
  }

  /** The clients after a command of client `fd`. */
  function Apply(clients: Clients, fd: int, e: Effect): (r: Clients)
    requires fd in clients
    ensures r.Keys == clients.Keys
  {
    Deliver(SetSession(clients, fd, e.user, e.ctx), e.outs)
  }

  /** The frames of a list of outputs that go to one client. */
  function FramesFor(fd: int, outs: seq<Out>): seq<Frame> {
    if outs == [] then []
    else (if fd in outs[0].to then [outs[0].frame] else []) + FramesFor(fd, outs[1..])
  }

  function FrameTexts(frames: seq<Frame>): (r: seq<string>)
    ensures |r| == |frames| && forall i :: 0 <= i < |frames| ==> r[i] == FrameText(frames[i])
  {
    seq(|frames|, i requires 0 <= i < |frames| => FrameText(frames[i]))
  }

  lemma FrameTextsAppend(a: seq<Frame>, b: seq<Frame>)
    ensures FrameTexts(a + b) == FrameTexts(a) + FrameTexts(b)
  {
  }

  lemma {:induction false} DeliverAppend(clients: Clients, a: seq<Out>, b: seq<Out>)
    ensures Deliver(clients, a + b) == Deliver(Deliver(clients, a), b)
    decreases |a|
  {
    if a == [] {
      assert a + b == b;
    } else {
      assert (a + b)[1..] == a[1..] + b;
      DeliverAppend(Post(clients, a[0]), a[1..], b);
    }
  }

  lemma DeliverOne(clients: Clients, out: Out)
    ensures Deliver(clients, [out]) == Post(clients, out)
  {
    assert [out][1..] == [];
  }

  lemma DeliverSnoc(clients: Clients, outs: seq<Out>, out: Out)
    ensures Deliver(clients, outs + [out]) == Post(Deliver(clients, outs), out)
  {
    DeliverAppend(clients, outs, [out]);
    DeliverOne(Deliver(clients, outs), out);
  }

  lemma {:induction false} FramesForAppend(fd: int, a: seq<Out>, b: seq<Out>)
    ensures FramesFor(fd, a + b) == FramesFor(fd, a) + FramesFor(fd, b)
    decreases |a|
  {
    if a == [] {
      assert a + b == b;
    } else {
      assert (a + b)[1..] == a[1..] + b;
      FramesForAppend(fd, a[1..], b);
    }
  }

  /** Each client's buffer grows by exactly its own frames, in order; sessions and read buffers do not change. */
  lemma {:induction false} DeliverBuffers(clients: Clients, outs: seq<Out>, fd: int)
    requires fd in clients
    ensures Deliver(clients, outs)[fd] ==
            clients[fd].(writeBuffer := clients[fd].writeBuffer + Wire(FrameTexts(FramesFor(fd, outs))))
    decreases |outs|
  {
    if outs == [] {
      assert FrameTexts([]) == [];
      assert clients[fd].writeBuffer + "" == clients[fd].writeBuffer;
    } else {
      var next := Post(clients, outs[0]);
      DeliverBuffers(next, outs[1..], fd);
      var rest := FrameTexts(FramesFor(fd, outs[1..]));
      if fd in outs[0].to {
        var text := FrameText(outs[0].frame);
        FrameTextsAppend([outs[0].frame], FramesFor(fd, outs[1..]));
        assert FrameTexts([outs[0].frame]) == [text];
        assert ([text] + rest)[1..] == rest;
        ConcatAssoc(clients[fd].writeBuffer, text + "\r\n", Wire(rest));
      } else {
        assert FramesFor(fd, outs) == FramesFor(fd, outs[1..]);
      }
    }
  }

  /** Delivery leaves sessions alone. */
  lemma DeliverKeepsSessions(clients: Clients, outs: seq<Out>)
    ensures forall fd :: fd in clients ==>
              Deliver(clients, outs)[fd].user == clients[fd].user && Deliver(clients, outs)[fd].ctx == clients[fd].ctx
    ensures forall fd :: fd in clients ==>
              Deliver(clients, outs)[fd].readBuffer == clients[fd].readBuffer && Deliver(clients, outs)[fd].pollOut == clients[fd].pollOut
  {
    forall fd | fd in clients
      ensures Deliver(clients, outs)[fd].user == clients[fd].user && Deliver(clients, outs)[fd].ctx == clients[fd].ctx
      ensures Deliver(clients, outs)[fd].readBuffer == clients[fd].readBuffer && Deliver(clients, outs)[fd].pollOut == clients[fd].pollOut
    {
      DeliverBuffers(clients, outs, fd);
    }
  }

  /** Changing a session before or after delivering is the same. */
  lemma {:induction false} SessionCommutes(clients: Clients, outs: seq<Out>, fd: int, user: string, ctx: Context)
    requires fd in clients
    ensures SetSession(Deliver(clients, outs), fd, user, ctx) == Deliver(SetSession(clients, fd, user, ctx), outs)
    decreases |outs|
  {
    if outs != [] {
      SessionCommutes(Post(clients, outs[0]), outs[1..], fd, user, ctx);
      assert SetSession(Post(clients, outs[0]), fd, user, ctx) == Post(SetSession(clients, fd, user, ctx), outs[0]);
    }
  }

  lemma SameSession(clients: Clients, fd: int)
    requires fd in clients
    ensures SetSession(clients, fd, clients[fd].user, clients[fd].ctx) == clients
  {
  }
}
