/** Server frames as lists of parts, their text, and what the client's tokeniser finds in it. */
module Protocol {
  import opened Text
  import opened Tokens

  /** A bare word, an escaped quoted field, or text put between quotes as it is. */
  datatype Part = Word(text: string) | Field(text: string) | Raw(text: string)

  type Frame = seq<Part>

  function PartText(p: Part): string {
    match p
    case Word(w) => w
    case Field(t) => Quote(t)
    case Raw(t) => "\"" + t + "\""
  }

  /** The frame without its line end. */
  function FrameText(f: Frame): string {
    if f == [] then ""
    else if |f| == 1 then PartText(f[0])
    else PartText(f[0]) + (" " + FrameText(f[1..]))
  }

  /** Parts are separated by single spaces. */
  lemma {:induction false} FrameTextSnoc(f: Frame, p: Part)
    ensures FrameText(f + [p]) == if f == [] then PartText(p) else FrameText(f) + (" " + PartText(p))
    decreases |f|
  {
    if f == [] {
      assert [] + [p] == [p];
    } else {
      assert (f + [p])[1..] == f[1..] + [p] && (f + [p])[0] == f[0];
      FrameTextSnoc(f[1..], p);
      if |f| > 1 {
        ConcatAssoc(PartText(f[0]), " " + FrameText(f[1..]), " " + PartText(p));
        ConcatAssoc(" ", FrameText(f[1..]), " " + PartText(p));
      }
    }
  }

  predicate PartOk(p: Part) {
    match p
    case Word(w) => Bare(w).Valid()
    case Field(t) => Normal(t)
    case Raw(t) => Normal(t)
  }

  /** Starts with a bare word, and no field holds a line break or a run of spaces. */
  predicate FrameOk(f: Frame) {
    f != [] && f[0].Word? && forall i :: 0 <= i < |f| ==> PartOk(f[i])
  }

  lemma {:induction false} EscapeKeepsNewlines(v: string)
    requires '\n' !in v
    ensures '\n' !in Escape(v)
  {
    if v != "" {
      EscapeKeepsNewlines(v[1..]);
    }
  }

  lemma PartHasNoNewline(p: Part)
    requires PartOk(p)
    ensures '\n' !in PartText(p)
  {
    match p
    case Word(w) =>
      NoSpaceIsNormal(w);
      NormalHasNoNewline(w);
    case Field(t) =>
      NormalHasNoNewline(t);
      EscapeKeepsNewlines(t);
    case Raw(t) => NormalHasNoNewline(t);
  }

  lemma {:induction false} FrameHasNoNewline(f: Frame)
    requires forall i :: 0 <= i < |f| ==> PartOk(f[i])
    ensures '\n' !in FrameText(f)
    decreases |f|
  {
    if f != [] {
      PartHasNoNewline(f[0]);
      if |f| > 1 {
        FrameHasNoNewline(f[1..]);
      }
    }
  }

  /** Whatever its fields hold, a frame is tokenised after its first word as that word. */
  lemma FrameHead(f: Frame)
    requires FrameOk(f)
    ensures var rest := if |f| == 1 then "" else " " + FrameText(f[1..]);
            Tokenise(FrameText(f)) == Prepend(f[0].text, Tokenise(rest))
  {
    var w := f[0].text;
    var rest := if |f| == 1 then "" else " " + FrameText(f[1..]);
    assert FrameText(f) == w + rest;
    WordsOfWord(w, rest);
    assert ([w] + Words(rest))[1..] == Words(rest);
  }

  // ---------------------------------------------------------------------------
  // Frames whose fields need no escaping

  predicate PlainFrame(f: Frame) {
    forall i :: 0 <= i < |f| ==> f[i].Word? || Plain(f[i].text)
  }

  function PartToken(p: Part): Token {
    match p
    case Word(w) => Bare(w)
    case Field(t) => Quoted(t)
    case Raw(t) => Quoted(t)
  }

  function PartItems(f: Frame, gap: string): seq<Item> {
    if f == [] then [] else [Item(gap, PartToken(f[0]))] + PartItems(f[1..], " ")
  }

  function PartTexts(f: Frame): (r: seq<string>)
    ensures |r| == |f| && forall i :: 0 <= i < |f| ==> r[i] == f[i].text
  {
    seq(|f|, i requires 0 <= i < |f| => f[i].text)
  }

  lemma {:induction false} PlainFrameItems(f: Frame, gap: string)
    requires PlainFrame(f) && (forall i :: 0 <= i < |f| ==> PartOk(f[i])) && AllSpace(gap)
    ensures f != [] ==> Render(PartItems(f, gap), "") == gap + FrameText(f)
    ensures Separated(PartItems(f, gap), "")
    decreases |f|
  {
    if f != [] {
      PartSource(f[0]);
      PlainFrameItems(f[1..], " ");
      RenderStep(f, gap);
      SeparatedStep(Item(gap, PartToken(f[0])), PartItems(f[1..], " "));
    }
  }

  lemma SeparatedStep(item: Item, rest: seq<Item>)
    requires AllSpace(item.gap) && item.token.Valid() && Separated(rest, "") && (rest != [] ==> rest[0].gap == " ")
    ensures Separated([item] + rest, "")
  {
    assert ([item] + rest)[1..] == rest;
  }

  lemma {:induction false} PlainFrameValues(f: Frame, gap: string)
    requires PlainFrame(f) && forall i :: 0 <= i < |f| ==> PartOk(f[i])
    ensures Values(PartItems(f, gap)) == PartTexts(f)
    decreases |f|
  {
    if f != [] {
      PartSource(f[0]);
      PlainFrameValues(f[1..], " ");
      assert Values(PartItems(f, gap)) == [f[0].text] + Values(PartItems(f[1..], " "));
      assert PartTexts(f) == [f[0].text] + PartTexts(f[1..]);
    }
  }

  lemma PartSource(p: Part)
    requires PartOk(p) && (p.Word? || Plain(p.text))
    ensures PartText(p) == PartToken(p).Source()
    ensures PartToken(p).Valid() && PartToken(p).Value() == p.text
  {
    if !p.Word? {
      EscapePlain(p.text);
      NormalIsFixed(p.text);
    }
  }

  lemma RenderStep(f: Frame, gap: string)
    requires f != [] && PartText(f[0]) == PartToken(f[0]).Source()
    requires |f| > 1 ==> Render(PartItems(f[1..], " "), "") == " " + FrameText(f[1..])
    ensures Render(PartItems(f, gap), "") == gap + FrameText(f)
  {
    var items := PartItems(f, gap);
    assert items[1..] == PartItems(f[1..], " ");
    if |f| > 1 {
      ConcatAssoc(gap, PartText(f[0]), " " + FrameText(f[1..]));
    } else {
      assert items[1..] == [];
    }
  }

  /** A frame of plain fields reaches the client token by token as it was composed. */
  lemma PlainFrameTokens(f: Frame)
    requires FrameOk(f) && PlainFrame(f)
    ensures Tokenise(FrameText(f)) == Some(PartTexts(f))
  {
    PlainFrameItems(f, "");
    PlainFrameValues(f, "");
    assert "" + FrameText(f) == FrameText(f);
    RenderedTokens(PartItems(f, ""), "");
  }

  // ---------------------------------------------------------------------------
  // List blocks

  datatype Kind = Users | Teams | Channels | Threads | Replies | Messages

  function KindName(k: Kind): (w: string)
    ensures Bare(w).Valid()
  {
    match k
    case Users => "USERS"
    case Teams => "TEAMS"
    case Channels => "CHANNELS"
    case Threads => "THREADS"
    case Replies => "REPLIES"
    case Messages => "MESSAGES"
  }

  function BeginFrame(k: Kind): Frame {
    [Word("210-BEGIN"), Word(KindName(k))]
  }

  function EndFrame(k: Kind): Frame {
    [Word("210-END"), Word(KindName(k))]
  }

  function LineFrame(fields: seq<Part>): Frame {
    [Word("210")] + fields
  }

  predicate IsListHead(w: string) {
    w == "210-BEGIN" || w == "210-END" || w == "210"
  }

  /** Where a client stands in the list blocks of the frames sent so far. */
  datatype Block = Outside | Inside(kind: Kind) | Broken

  function BlockStep(b: Block, f: Frame): Block {
    if f == [] || !f[0].Word? then Broken
    else
      match b
      case Broken => Broken
      case Outside =>
        if !IsListHead(f[0].text) then Outside
        else if f == BeginFrame(Users) then Inside(Users)
        else if f == BeginFrame(Teams) then Inside(Teams)
        else if f == BeginFrame(Channels) then Inside(Channels)
        else if f == BeginFrame(Threads) then Inside(Threads)
        else if f == BeginFrame(Replies) then Inside(Replies)
        else if f == BeginFrame(Messages) then Inside(Messages)
        else Broken
      case Inside(k) =>
        if f[0].text == "210" then b else if f == EndFrame(k) then Outside else Broken
  }

  function BlockScan(b: Block, frames: seq<Frame>): Block
    decreases |frames|
  {
    if frames == [] then b else BlockScan(BlockStep(b, frames[0]), frames[1..])
  }

  /** Every list line lies in a block of its kind, blocks do not nest, and nothing else stands inside one. */
  predicate Bracketed(frames: seq<Frame>) {
    BlockScan(Outside, frames) == Outside
  }

  lemma {:induction false} BlockScanAppend(b: Block, xs: seq<Frame>, ys: seq<Frame>)
    ensures BlockScan(b, xs + ys) == BlockScan(BlockScan(b, xs), ys)
    decreases |xs|
  {
    if xs == [] {
      assert xs + ys == ys;
    } else {
      assert (xs + ys)[1..] == xs[1..] + ys;
      BlockScanAppend(BlockStep(b, xs[0]), xs[1..], ys);
    }
  }

  lemma {:induction false} BrokenStays(frames: seq<Frame>)
    ensures BlockScan(Broken, frames) == Broken
  {
    if frames != [] {
      BrokenStays(frames[1..]);
    }
  }

  /** Frames that are not part of any list. */
  predicate NoList(frames: seq<Frame>) {
    forall i :: 0 <= i < |frames| ==> frames[i] != [] && frames[i][0].Word? && !IsListHead(frames[i][0].text)
  }

  lemma {:induction false} NoListStaysOutside(frames: seq<Frame>)
    requires NoList(frames)
    ensures Bracketed(frames)
  {
    if frames != [] {
      NoListStaysOutside(frames[1..]);
    }
  }

  predicate LinesOnly(frames: seq<Frame>) {
    forall i :: 0 <= i < |frames| ==> frames[i] != [] && frames[i][0] == Word("210")
  }

  lemma {:induction false} LinesStayInside(k: Kind, frames: seq<Frame>)
    requires LinesOnly(frames)
    ensures BlockScan(Inside(k), frames) == Inside(k)
  {
    if frames != [] {
      LinesStayInside(k, frames[1..]);
    }
  }

  function ListBlock(k: Kind, lines: seq<Frame>): seq<Frame> {
    [BeginFrame(k)] + lines + [EndFrame(k)]
  }

  lemma ListBlockBracketed(k: Kind, lines: seq<Frame>)
    requires LinesOnly(lines)
    ensures Bracketed(ListBlock(k, lines))
  {
    BlockScanAppend(Outside, [BeginFrame(k)] + lines, [EndFrame(k)]);
    BlockScanAppend(Outside, [BeginFrame(k)], lines);
    assert BlockScan(Outside, [BeginFrame(k)]) == Inside(k) by { BeginOpens(k); }
    LinesStayInside(k, lines);
    assert [EndFrame(k)][1..] == [];
  }

  lemma BeginOpens(k: Kind)
    ensures BlockScan(Outside, [BeginFrame(k)]) == Inside(k)
  {
    assert [BeginFrame(k)][1..] == [];
    assert BeginFrame(k)[0].text == "210-BEGIN";
    assert BeginFrame(k)[1].text == KindName(k);
    assert BlockStep(Outside, BeginFrame(k)) == Inside(k);
  }
}
