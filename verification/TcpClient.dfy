/** The client's outgoing byte queue under arbitrary short writes. */
module Transport {

  class TcpClient {
    var pendingWrites: string
    var pendingOffset: nat
    ghost var queued: string   // every byte ever queued
    ghost var written: string  // every byte the socket has accepted

    ghost predicate Valid()
      reads this
    {
      && pendingOffset <= |pendingWrites|
      && written + pendingWrites[pendingOffset..] == queued
    }

    constructor ()
      ensures Valid() && queued == written == ""
    {
      pendingWrites, pendingOffset := "", 0;
      queued, written := "", "";
    }

    method SendAll(data: string)
      requires Valid()
      modifies this
      ensures Valid() && queued == old(queued) + data && written == old(written)
    {
      ghost var unsent := pendingWrites[pendingOffset..];
      pendingWrites := pendingWrites + data;
      queued := queued + data;
      assert pendingWrites[pendingOffset..] == unsent + data;
    }

    /**
      Each write accepts some number of the offered bytes; zero means that it would block. The result
      is true when bytes are left.
    */
    method FlushPendingWrites() returns (blocked: bool)
      requires Valid()
      modifies this
      ensures Valid() && queued == old(queued) && old(written) <= written <= queued
      ensures blocked <==> written != queued
      ensures !blocked ==> pendingWrites == "" && pendingOffset == 0
    {
      while pendingOffset < |pendingWrites|
        invariant Valid() && queued == old(queued) && old(written) <= written
      {
        var bytesWritten: nat :| bytesWritten <= |pendingWrites| - pendingOffset;
        if bytesWritten == 0 {
          assert |written| < |queued|;
          return true;
        }
        ghost var sent := pendingWrites[pendingOffset..pendingOffset + bytesWritten];
        assert pendingWrites[pendingOffset..] == sent + pendingWrites[pendingOffset + bytesWritten..];
        pendingOffset := pendingOffset + bytesWritten;
        written := written + sent;
      }
      assert pendingWrites[pendingOffset..] == "";
      pendingWrites, pendingOffset := "", 0;
      return false;
    }

    method HasPendingWrites() returns (r: bool)
      requires Valid()
      ensures r <==> written != queued
      ensures written <= queued
    {
      r := pendingOffset < |pendingWrites|;
      assert |queued| == |written| + |pendingWrites| - pendingOffset;
      if !r {
        assert pendingWrites[pendingOffset..] == "";
      }
    }

    method SendCommandFrame(frame: string) returns (blocked: bool)
      requires Valid()
      modifies this
      ensures Valid() && queued == old(queued) + (frame + "\r\n") && old(written) <= written <= queued
      ensures blocked <==> written != queued
    {
      SendAll(frame + "\r\n");
      blocked := FlushPendingWrites();
    }
  }
}
