/** The client's message router and the list context it carries from frame to frame. */
module Router {
  import opened Text
  import opened Tokens
  import opened Protocol

  const LIST_CONTEXTS: set<string> := {"USERS", "TEAMS", "CHANNELS", "THREADS", "REPLIES", "MESSAGES"}

  const HANDLED: set<string> := {
    "TEAM_CREATED", "CHANNEL_CREATED", "THREAD_CREATED", "REPLY_CREATED", "USER_LOGGED_IN", "USER_LOGGED_OUT",
    "PRIVATE_MESSAGE", "200", "201", "400", "401", "403", "404", "409"
  }

  /** What a frame is handed to: a list handler with its tokens, a message handler, or nothing. */
  datatype Routed = Dropped | ListLine(context: string, tokens: seq<string>) | Handled(command: string, tokens: seq<string>)

  function NextContext(context: string, tokens: Option<seq<string>>): string {
    if tokens.None? || tokens.value == [] then context
    else if tokens.value[0] == "210-BEGIN" then
      if |tokens.value| >= 2 then tokens.value[1] else context
    else if tokens.value[0] == "210-END" then ""
    else context
  }

  function Target(context: string, tokens: Option<seq<string>>): Routed {
    if tokens.None? || tokens.value == [] || tokens.value[0] == "210-BEGIN" || tokens.value[0] == "210-END" then Dropped
    else if tokens.value[0] == "210" then
      if context in LIST_CONTEXTS then ListLine(context, tokens.value) else Dropped
    else if tokens.value[0] == "EVENT" then
      if |tokens.value| >= 2 && tokens.value[1] in HANDLED then Handled(tokens.value[1], tokens.value) else Dropped
    else if tokens.value[0] in HANDLED then Handled(tokens.value[0], tokens.value)
    else Dropped
  }

  class ServerMessageRouter {
    var listContext: string

    constructor ()
      ensures listContext == ""
    {
      listContext := "";
    }

    method RouteFrame(frame: string) returns (target: Routed)
      modifies this
      ensures listContext == NextContext(old(listContext), Tokenise(frame))
      ensures target == Target(old(listContext), Tokenise(frame))
    {
      var tokensResult := ParseTokens(frame);
      if tokensResult.None? {
        return Dropped;
      }
      var tokens := tokensResult.value;
      if tokens == [] {
        return Dropped;
      }
      var first := tokens[0];
      if first == "210-BEGIN" {
        if |tokens| >= 2 {
          listContext := tokens[1];
        }
        return Dropped;
      }
      if first == "210-END" {
        listContext := "";
        return Dropped;
      }
      if first == "210" {
        if listContext in LIST_CONTEXTS {
          return ListLine(listContext, tokens);
        }
        return Dropped;
      }
      var command := first;
      if command == "EVENT" {
        if |tokens| < 2 {
          return Dropped;
        }
        command := tokens[1];
      }
      if command !in HANDLED {
        return Dropped;
      }
      return Handled(command, tokens);
    }
  }

  // ---------------------------------------------------------------------------
  // The router over a whole history of frames

  function ContextAfter(context: string, frames: seq<Frame>): string
    decreases |frames|
  {
    if frames == [] then context
    else ContextAfter(NextContext(context, Tokenise(FrameText(frames[0]))), frames[1..])
  }

  function ContextOf(b: Block): string {
    if b.Inside? then KindName(b.kind) else ""
  }

  predicate FramesOk(frames: seq<Frame>) {
    forall i :: 0 <= i < |frames| ==> FrameOk(frames[i])
  }

  lemma MarkerTokens(w: string, k: Kind)
    requires Bare(w).Valid()
    ensures Tokenise(FrameText([Word(w), Word(KindName(k))])) == Some([w, KindName(k)])
  {
    var f := [Word(w), Word(KindName(k))];
    PlainFrameTokens(f);
    assert PartTexts(f) == [w, KindName(k)];
  }

  lemma HeadTokenOf(f: Frame)
    requires FrameOk(f)
    ensures var t := Tokenise(FrameText(f)); t.None? || (t.value != [] && t.value[0] == f[0].text)
  {
    FrameHead(f);
  }

  /** One frame moves the router's context exactly as it moves the block structure. */
  lemma RouterStep(b: Block, f: Frame)
    requires FrameOk(f) && b != Broken && BlockStep(b, f) != Broken
    ensures NextContext(ContextOf(b), Tokenise(FrameText(f))) == ContextOf(BlockStep(b, f))
  {
    HeadTokenOf(f);
    var next := BlockStep(b, f);
    if b == Outside && next.Inside? {
      assert f == BeginFrame(next.kind);
      MarkerTokens("210-BEGIN", next.kind);
    } else if b.Inside? && next == Outside {
      MarkerTokens("210-END", b.kind);
    }
  }

  /** After any well-bracketed history the router's list context is the kind of the open block, or empty. */
  lemma {:induction false} RouterFollowsBlocks(b: Block, frames: seq<Frame>)
    requires FramesOk(frames) && b != Broken && BlockScan(b, frames) != Broken
    ensures ContextAfter(ContextOf(b), frames) == ContextOf(BlockScan(b, frames))
    decreases |frames|
  {
    if frames != [] {
      if BlockStep(b, frames[0]) == Broken {
        BrokenStays(frames[1..]);
      }
      RouterStep(b, frames[0]);
      RouterFollowsBlocks(BlockStep(b, frames[0]), frames[1..]);
    }
  }

  lemma KindIsListed(k: Kind)
    ensures KindName(k) in LIST_CONTEXTS
  {
  }

  /**
    In a well-bracketed history every list line that the tokeniser accepts goes to the list handler of
    its block's kind, and no other frame goes to a list handler.
  */
  lemma ListLineRouted(frames: seq<Frame>, i: nat)
    requires FramesOk(frames) && Bracketed(frames) && i < |frames|
    ensures var context := ContextAfter("", frames[..i]);
            var tokens := Tokenise(FrameText(frames[i]));
            var block := BlockScan(Outside, frames[..i]);
            && (frames[i][0].text == "210" && tokens.Some? ==>
                  block.Inside? && Target(context, tokens) == ListLine(KindName(block.kind), tokens.value))
            && (frames[i][0].text != "210" ==> !Target(context, tokens).ListLine?)
  {
    var before, here, after := frames[..i], frames[i], frames[i + 1..];
    assert frames == before + ([here] + after);
    BlockScanAppend(Outside, before, [here] + after);
    var b := BlockScan(Outside, before);
    if b == Broken {
      BrokenStays([here] + after);
    }
    assert ([here] + after)[1..] == after;
    assert BlockScan(b, [here] + after) == BlockScan(BlockStep(b, here), after);
    if BlockStep(b, here) == Broken {
      BrokenStays(after);
    }
    RouterFollowsBlocks(Outside, before);
    HeadTokenOf(here);
    if b.Inside? {
      KindIsListed(b.kind);
    }
  }
}
