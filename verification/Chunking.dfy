/**
  Structure-aware, token-safe chunking of extracted pages.

  A page arrives as paragraphs of lines; a line carries its words and whether the heading
  pattern matches it. The chunker turns the lines into one stream of blocks and cuts that
  stream into overlapping windows.
 */
module Chunking {
  import opened Sequences
  import opened Tokens

  datatype Line = Line(words: Text, heading: bool)

  datatype Page = Page(number: int, paragraphs: seq<seq<Line>>)

  datatype Block = Block(page: int, text: Text, tokens: nat, heading: bool)

  datatype Draft = Draft(page: int, pageEnd: int, text: Text, tokenCount: nat, index: nat)

  datatype Limits = Limits(targetMin: nat, targetMax: nat, maxTokens: nat, minTokens: nat, overlap: nat)

  /** Why a window closes, in the order in which the loop looks. */
  datatype Reason = SizeReached | BeforeHeading | PageTurned | Overflowing | StreamEnds

  /** A half-open range of the block stream, and why it was closed. */
  datatype Window = Window(start: nat, end: nat, reason: Reason)

  // ---------------------------------------------------------------- pages to blocks

  function LineBlocks(page: int, line: Line, maxTokens: nat): seq<Block> {
    var parts := Pieces(line.words, maxTokens);
    seq(|parts|, i requires 0 <= i < |parts| =>
      Block(page, parts[i], EstimateTokens(parts[i]), line.heading && i == 0))
  }

  function BlocksOfLine(page: int, maxTokens: nat): Line -> seq<Block> {
    line => LineBlocks(page, line, maxTokens)
  }

  function PageBlocks(page: Page, maxTokens: nat): seq<Block> {
    FlatMap(BlocksOfLine(page.number, maxTokens), Flatten(page.paragraphs))
  }

  function BlocksOfPage(maxTokens: nat): Page -> seq<Block> {
    page => PageBlocks(page, maxTokens)
  }

  /** The block stream of a document. */
  function PagesBlocks(pages: seq<Page>, maxTokens: nat): seq<Block> {
    FlatMap(BlocksOfPage(maxTokens), pages)
  }

  const BlockText: Block -> Text := (b: Block) => b.text
  const LineText: Line -> Text := (line: Line) => line.words
  const PageText: Page -> Text := (page: Page) => FlatMap(LineText, Flatten(page.paragraphs))

  function BlockWords(blocks: seq<Block>): Text {
    FlatMap(BlockText, blocks)
  }

  /** Every word of the document, in reading order. */
  function PagesWords(pages: seq<Page>): Text {
    FlatMap(PageText, pages)
  }

  function BlockTokens(blocks: seq<Block>): nat {
    if blocks == [] then 0 else blocks[0].tokens + BlockTokens(blocks[1..])
  }

  ghost predicate SafeBlock(b: Block, maxTokens: nat) {
    b.text != [] && b.tokens == EstimateTokens(b.text) <= maxTokens
  }

  lemma {:induction false} BlockSplit(a: seq<Block>, b: seq<Block>)
    ensures BlockWords(a + b) == BlockWords(a) + BlockWords(b)
    ensures BlockTokens(a + b) == BlockTokens(a) + BlockTokens(b)
  {
    FlatMapAppend(BlockText, a, b);
    if a == [] {
      assert a + b == b;
    } else {
      BlockSplit(a[1..], b);
      assert (a + b)[1..] == a[1..] + b;
    }
  }

  lemma {:induction false} TextsToWords(blocks: seq<Block>, parts: seq<Text>)
    requires |blocks| == |parts| && forall i :: 0 <= i < |parts| ==> blocks[i].text == parts[i]
    ensures BlockWords(blocks) == Flatten(parts)
  {
    if parts != [] {
      TextsToWords(blocks[1..], parts[1..]);
    }
  }

  lemma LineBlocksFacts(page: int, line: Line, maxTokens: nat)
    requires maxTokens >= 1
    ensures BlockWords(LineBlocks(page, line, maxTokens)) == line.words
    ensures forall b :: b in LineBlocks(page, line, maxTokens) ==> SafeBlock(b, maxTokens)
  {
    var parts := Pieces(line.words, maxTokens);
    PiecesFacts(line.words, maxTokens);
    TextsToWords(LineBlocks(page, line, maxTokens), parts);
    assert forall b :: b in LineBlocks(page, line, maxTokens) ==> b.text in parts;
  }

  lemma PageBlocksFacts(page: Page, maxTokens: nat)
    requires maxTokens >= 1
    ensures BlockWords(PageBlocks(page, maxTokens)) == PageText(page)
    ensures forall b :: b in PageBlocks(page, maxTokens) ==> SafeBlock(b, maxTokens)
  {
    var lines, f := Flatten(page.paragraphs), BlocksOfLine(page.number, maxTokens);
    forall line | line in lines
      ensures FlatMap(BlockText, f(line)) == LineText(line)
    {
      LineBlocksFacts(page.number, line, maxTokens);
    }
    FlatMapCompose(f, BlockText, LineText, lines);
    forall b | b in PageBlocks(page, maxTokens)
      ensures SafeBlock(b, maxTokens)
    {
      var line := FlatMapMember(f, lines, b);
      LineBlocksFacts(page.number, line, maxTokens);
    }
  }

  /** Turning pages into blocks loses no word, and every block is non-empty and within the bound. */
  lemma PagesBlocksFacts(pages: seq<Page>, maxTokens: nat)
    requires maxTokens >= 1
    ensures BlockWords(PagesBlocks(pages, maxTokens)) == PagesWords(pages)
    ensures forall b :: b in PagesBlocks(pages, maxTokens) ==> SafeBlock(b, maxTokens)
  {
    var f := BlocksOfPage(maxTokens);
    forall page | page in pages
      ensures FlatMap(BlockText, f(page)) == PageText(page)
    {
      PageBlocksFacts(page, maxTokens);
    }
    FlatMapCompose(f, BlockText, PageText, pages);
    forall b | b in PagesBlocks(pages, maxTokens)
      ensures SafeBlock(b, maxTokens)
    {
      var page := FlatMapMember(f, pages, b);
      PageBlocksFacts(page, maxTokens);
    }
  }

  /** `_blocks_from_text`: only the first part of a split heading stays a heading. */
  method BlocksFromText(page: int, line: Line, maxTokens: nat) returns (blocks: seq<Block>)
    requires maxTokens >= 1 && line.words != []
    ensures blocks == LineBlocks(page, line, maxTokens)
    ensures blocks != [] && forall i :: 0 <= i < |blocks| ==> blocks[i].page == page && blocks[i].heading == (line.heading && i == 0)
  {
    var tokens := EstimateTokens(line.words);
    if tokens <= maxTokens {
      return [Block(page, line.words, tokens, line.heading)];
    }
    var parts := SplitTextByTokens(line.words, maxTokens);
    blocks := [];
    for i := 0 to |parts|
      invariant blocks == LineBlocks(page, line, maxTokens)[..i]
    {
      blocks := blocks + [Block(page, parts[i], EstimateTokens(parts[i]), line.heading && i == 0)];
    }
  }

  lemma EmptyLine(page: int, line: Line, maxTokens: nat)
    ensures line.words == [] ==> LineBlocks(page, line, maxTokens) == []
  {
  }

  /** `_split_page_blocks`: one or more blocks for each line that has words. */
  method SplitPageBlocks(page: Page, maxTokens: nat) returns (blocks: seq<Block>)
    requires maxTokens >= 1
    ensures blocks == PageBlocks(page, maxTokens)
  {
    hide LineBlocks;
    ghost var f := BlocksOfLine(page.number, maxTokens);
    blocks := [];
    for p := 0 to |page.paragraphs|
      invariant blocks == FlatMap(f, Flatten(page.paragraphs[..p]))
    {
      var lines := page.paragraphs[p];
      ghost var before := blocks;
      for i := 0 to |lines|
        invariant blocks == before + FlatMap(f, lines[..i])
      {
        FlatMapSnoc(f, lines[..i], lines[i]);
        assert lines[..i + 1] == lines[..i] + [lines[i]];
        EmptyLine(page.number, lines[i], maxTokens);
        if lines[i].words != [] {
          var more := BlocksFromText(page.number, lines[i], maxTokens);
          blocks := blocks + more;
        }
      }
      assert lines[..|lines|] == lines;
      assert page.paragraphs[..p + 1] == page.paragraphs[..p] + [lines];
      FlattenSnoc(page.paragraphs[..p], lines);
      FlatMapAppend(f, Flatten(page.paragraphs[..p]), lines);
    }
    assert page.paragraphs[..|page.paragraphs|] == page.paragraphs;
  }

  // ---------------------------------------------------------------- windows over the stream

  /** Tokens counted for the blocks of a window, block by block. */
  function SpanTokens(stream: seq<Block>, start: nat, end: nat): nat
    requires start <= end <= |stream|
  {
    BlockTokens(stream[start..end])
  }

  /** Where the carried-over tail begins: the shortest suffix reaching the overlap, or everything. */
  function TailStart(blocks: seq<Block>, target: nat): (at: nat)
    requires blocks != []
    ensures at < |blocks|
    decreases |blocks|
  {
    var last := |blocks| - 1;
    if blocks[last].tokens >= target || last == 0 then last
    else TailStart(blocks[..last], target - blocks[last].tokens)
  }

  lemma TailStartStep(blocks: seq<Block>, target: nat)
    requires blocks != []
    ensures var last := |blocks| - 1;
      TailStart(blocks, target) ==
        if blocks[last].tokens >= target || last == 0 then last else TailStart(blocks[..last], target - blocks[last].tokens)
  {
  }

  lemma LastTokens(blocks: seq<Block>)
    requires blocks != []
    ensures BlockTokens(blocks[|blocks| - 1..]) == blocks[|blocks| - 1].tokens
  {
    assert blocks[|blocks| - 1..][1..] == [];
  }

  /** The tail reaches the overlap unless it is everything, and no shorter tail reaches it. */
  lemma {:induction false} TailStartMeaning(blocks: seq<Block>, target: nat)
    requires blocks != []
    ensures var at := TailStart(blocks, target);
      && (at == 0 || BlockTokens(blocks[at..]) >= target)
      && (at < |blocks| - 1 ==> BlockTokens(blocks[at + 1..]) < target)
    decreases |blocks|
  {
    hide *;
    var last := |blocks| - 1;
    TailStartStep(blocks, target);
    LastTokens(blocks);
    if blocks[last].tokens < target && last > 0 {
      TailStartMeaning(blocks[..last], target - blocks[last].tokens);
      var at := TailStart(blocks[..last], target - blocks[last].tokens);
      TokensSnoc(blocks, at);
      if at + 1 < last {
        TokensSnoc(blocks, at + 1);
      }
    }
  }

  lemma TokensSnoc(blocks: seq<Block>, at: nat)
    requires at < |blocks|
    ensures BlockTokens(blocks[at..]) == BlockTokens(blocks[..|blocks| - 1][at..]) + blocks[|blocks| - 1].tokens
  {
    hide BlockWords;
    var last := |blocks| - 1;
    BlockSplit(blocks[..last][at..], [blocks[last]]);
    assert blocks[at..] == blocks[..last][at..] + [blocks[last]];
    assert BlockTokens([blocks[last]]) == blocks[last].tokens;
  }

  lemma TokensGrow(blocks: seq<Block>, block: Block)
    ensures BlockTokens(blocks + [block]) == BlockTokens(blocks) + block.tokens
  {
    BlockSplit(blocks, [block]);
    assert BlockTokens([block]) == block.tokens;
  }

  ghost predicate InBounds(stream: seq<Block>, w: Window) {
    w.start < w.end <= |stream|
  }

  /** The start of the window that follows `w`. */
  function NextStart(stream: seq<Block>, cfg: Limits, w: Window): (start: nat)
    ensures InBounds(stream, w) ==> w.start <= start < w.end
  {
    if w.start < w.end <= |stream| then w.start + TailStart(stream[w.start..w.end], Max(1, cfg.overlap)) else 0
  }

  /**
    Whether the window `start..end` closes for that reason: its target is reached, or it ends in a heading past the
    lower target; the next block is a heading and the window is large enough; or the page changes before a heading;
    the next block would take it over the maximum; nothing follows.
   */
  ghost predicate Closes(stream: seq<Block>, cfg: Limits, start: nat, end: nat, reason: Reason) {
    start < end <= |stream| &&
    var tokens := SpanTokens(stream, start, end);
    match reason
    case SizeReached => tokens >= cfg.targetMax || (tokens >= cfg.targetMin && stream[end - 1].heading)
    case BeforeHeading => end < |stream| && stream[end].heading && tokens >= cfg.minTokens
    case PageTurned => end < |stream| && stream[end].heading && stream[end - 1].page != stream[end].page
    case Overflowing => end < |stream| && tokens + stream[end].tokens > cfg.maxTokens
    case StreamEnds => end == |stream|
  }

  /** The position of a reason among the looks between two blocks. */
  function Rank(reason: Reason): nat {
    match reason
    case SizeReached => 0
    case BeforeHeading => 1
    case PageTurned => 2
    case Overflowing => 3
    case StreamEnds => 4
  }

  /** A point of the run: so many blocks taken in, and so many reasons looked at since the last of them. */
  datatype Moment = Moment(taken: nat, looks: nat)

  predicate Before(a: Moment, b: Moment) {
    a.taken < b.taken || (a.taken == b.taken && a.looks < b.looks)
  }

  function Look(end: nat, reason: Reason): Moment {
    Moment(end, Rank(reason))
  }

  /** No look strictly between the two moments closes a window opened at `start`. */
  ghost predicate Silent(stream: seq<Block>, cfg: Limits, start: nat, from: Moment, to: Moment) {
    forall e, r :: Closes(stream, cfg, start, e, r) && Before(from, Look(e, r)) ==> !Before(Look(e, r), to)
  }

  ghost function LastMoment(ws: seq<Window>): Moment {
    if ws == [] then Moment(0, 0) else Look(ws[|ws| - 1].end, ws[|ws| - 1].reason)
  }

  ghost function LastEnd(ws: seq<Window>): nat {
    if ws == [] then 0 else ws[|ws| - 1].end
  }

  ghost function OpenAt(stream: seq<Block>, cfg: Limits, ws: seq<Window>): nat {
    if ws == [] then 0 else NextStart(stream, cfg, ws[|ws| - 1])
  }

  /** Each window is in the stream and opens at the overlap tail of the one before it. */
  ghost predicate Shaped(stream: seq<Block>, cfg: Limits, ws: seq<Window>) {
    && (forall k :: 0 <= k < |ws| ==> InBounds(stream, ws[k]))
    && (ws != [] ==> ws[0].start == 0)
    && (forall k :: 1 <= k < |ws| ==>
      ws[k - 1].end <= ws[k].end && ws[k].start == NextStart(stream, cfg, ws[k - 1]))
  }

  /** The window closes at the first look past `from` that closes a window opened where it is. */
  ghost predicate ClosesFirst(stream: seq<Block>, cfg: Limits, w: Window, from: Moment) {
    && Closes(stream, cfg, w.start, w.end, w.reason)
    && Before(from, Look(w.end, w.reason))
    && Silent(stream, cfg, w.start, from, Look(w.end, w.reason))
  }

  /** Each window closes at the first look past the one that closed the window before it. */
  ghost predicate InTurn(stream: seq<Block>, cfg: Limits, ws: seq<Window>) {
    forall k :: 0 <= k < |ws| ==> ClosesFirst(stream, cfg, ws[k], LastMoment(ws[..k]))
  }

  /** The windows of a finished run: the last one closes because nothing follows. */
  ghost predicate Windowed(stream: seq<Block>, cfg: Limits, ws: seq<Window>) {
    && Shaped(stream, cfg, ws)
    && InTurn(stream, cfg, ws)
    && (stream == [] <==> ws == [])
    && (ws != [] ==> ws[|ws| - 1].reason == StreamEnds)
  }

  /** A run half way: closed windows `ws`, an open one from `lo` up to `hi`, and `looks` reasons looked at since. */
  ghost predicate Midway(stream: seq<Block>, cfg: Limits, ws: seq<Window>, lo: nat, hi: nat, looks: nat) {
    && Shaped(stream, cfg, ws)
    && InTurn(stream, cfg, ws)
    && LastEnd(ws) <= hi <= |stream|
    && lo == OpenAt(stream, cfg, ws)
    && (if hi == 0 then lo == 0 else lo < hi)
    && (ws != [] ==> Before(LastMoment(ws), Moment(hi, looks)))
    && Silent(stream, cfg, lo, LastMoment(ws), Moment(hi, looks))
  }

  lemma InTurnSnoc(stream: seq<Block>, cfg: Limits, ws: seq<Window>, w: Window)
    requires InTurn(stream, cfg, ws) && ClosesFirst(stream, cfg, w, LastMoment(ws))
    ensures InTurn(stream, cfg, ws + [w])
  {
    hide ClosesFirst;
    var ws' := ws + [w];
    forall k | 0 <= k < |ws'|
      ensures ClosesFirst(stream, cfg, ws'[k], LastMoment(ws'[..k]))
    {
      assert ws'[..k] == ws[..k];
      if k == |ws| {
        assert ws[..k] == ws;
      }
    }
  }

  lemma ShapedSnoc(stream: seq<Block>, cfg: Limits, ws: seq<Window>, w: Window)
    requires Shaped(stream, cfg, ws) && InBounds(stream, w)
    requires w.start == OpenAt(stream, cfg, ws) && LastEnd(ws) <= w.end
    ensures Shaped(stream, cfg, ws + [w])
  {
    hide NextStart;
  }

  /** A look that finds its reason closes the open window, and the next one opens at its overlap tail. */
  lemma CloseWindow(stream: seq<Block>, cfg: Limits, ws: seq<Window>, lo: nat, hi: nat, reason: Reason)
    requires Midway(stream, cfg, ws, lo, hi, Rank(reason)) && Closes(stream, cfg, lo, hi, reason)
    ensures var w := Window(lo, hi, reason);
      Midway(stream, cfg, ws + [w], NextStart(stream, cfg, w), hi, Rank(reason) + 1)
  {
    hide InTurn, Shaped, TailStart, SpanTokens;
    ShapedSnoc(stream, cfg, ws, Window(lo, hi, reason));
    InTurnSnoc(stream, cfg, ws, Window(lo, hi, reason));
  }

  /** A look that does not find its reason leaves the window open. */
  lemma PassReason(stream: seq<Block>, cfg: Limits, ws: seq<Window>, lo: nat, hi: nat, reason: Reason)
    requires Midway(stream, cfg, ws, lo, hi, Rank(reason)) && !Closes(stream, cfg, lo, hi, reason)
    ensures Midway(stream, cfg, ws, lo, hi, Rank(reason) + 1)
  {
    hide InTurn, Shaped, NextStart, Closes;
  }

  /** After all four looks the next block is taken in. */
  lemma GrowWindow(stream: seq<Block>, cfg: Limits, ws: seq<Window>, lo: nat, hi: nat)
    requires Midway(stream, cfg, ws, lo, hi, Rank(StreamEnds)) && hi < |stream|
    ensures Midway(stream, cfg, ws, lo, hi + 1, 0)
  {
    hide InTurn, Shaped, NextStart, SpanTokens;
  }

  lemma FirstIsUnique(stream: seq<Block>, cfg: Limits, w: Window, w': Window, from: Moment)
    requires ClosesFirst(stream, cfg, w, from) && ClosesFirst(stream, cfg, w', from) && w.start == w'.start
    ensures w == w'
  {
    hide Closes;
    assert !Before(Look(w.end, w.reason), Look(w'.end, w'.reason));
    assert !Before(Look(w'.end, w'.reason), Look(w.end, w.reason));
  }

  /** What a finished run says of its window `k`. */
  lemma WindowAt(stream: seq<Block>, cfg: Limits, ws: seq<Window>, k: nat)
    requires Windowed(stream, cfg, ws) && k < |ws|
    ensures ws[k].start == OpenAt(stream, cfg, ws[..k])
    ensures ClosesFirst(stream, cfg, ws[k], LastMoment(ws[..k]))
  {
    hide NextStart, ClosesFirst, LastMoment;
    assert k > 0 ==> ws[..k][k - 1] == ws[k - 1];
  }

  lemma {:induction false} SamePrefix(stream: seq<Block>, cfg: Limits, ws: seq<Window>, ws': seq<Window>, k: nat)
    requires Windowed(stream, cfg, ws) && Windowed(stream, cfg, ws') && k <= |ws| && k <= |ws'|
    ensures ws[..k] == ws'[..k]
  {
    hide *;
    if k > 0 {
      SamePrefix(stream, cfg, ws, ws', k - 1);
      WindowAt(stream, cfg, ws, k - 1);
      WindowAt(stream, cfg, ws', k - 1);
      FirstIsUnique(stream, cfg, ws[k - 1], ws'[k - 1], LastMoment(ws[..k - 1]));
      assert ws[..k] == ws[..k - 1] + [ws[k - 1]] && ws'[..k] == ws'[..k - 1] + [ws'[k - 1]];
    }
  }

  /** No window closes after the stream has ended. */
  lemma NothingAfterTheEnd(stream: seq<Block>, cfg: Limits, w: Window, from: Moment)
    requires ClosesFirst(stream, cfg, w, from)
    ensures !(from == Look(|stream|, StreamEnds))
  {
    hide Silent, SpanTokens;
  }

  lemma EndsTheRun(stream: seq<Block>, cfg: Limits, ws: seq<Window>, k: nat)
    requires Windowed(stream, cfg, ws) && k < |ws|
    ensures ws[k].reason == StreamEnds <==> k == |ws| - 1
  {
    if k < |ws| - 1 {
      WindowAt(stream, cfg, ws, k);
      WindowAt(stream, cfg, ws, k + 1);
      hide Windowed, Silent, SpanTokens;
      assert ws[..k + 1][k] == ws[k];
      NothingAfterTheEnd(stream, cfg, ws[k + 1], LastMoment(ws[..k + 1]));
    }
  }

  /** The block stream and the limits leave no choice: a finished run has exactly one sequence of windows. */
  lemma WindowsDetermined(stream: seq<Block>, cfg: Limits, ws: seq<Window>, ws': seq<Window>)
    requires Windowed(stream, cfg, ws) && Windowed(stream, cfg, ws')
    ensures ws == ws'
  {
    hide Shaped, InTurn;
    var n := Min(|ws|, |ws'|);
    SamePrefix(stream, cfg, ws, ws', n);
    if n > 0 {
      assert ws[n - 1] == ws[..n][n - 1] && ws'[n - 1] == ws'[..n][n - 1];
      EndsTheRun(stream, cfg, ws, n - 1);
      EndsTheRun(stream, cfg, ws', n - 1);
    }
  }

  /** All blocks lie in the windows of a finished run. */
  lemma RunReachesTheEnd(stream: seq<Block>, cfg: Limits, ws: seq<Window>)
    requires Windowed(stream, cfg, ws)
    ensures LastEnd(ws) == |stream|
  {
    hide Silent, SpanTokens, Shaped;
    if ws != [] {
      assert ClosesFirst(stream, cfg, ws[|ws| - 1], LastMoment(ws[..|ws| - 1]));
    }
  }

  /**
    Windows follow each other without a gap, and neighbours share at least one block: as few as reach the overlap,
    or the whole window when it falls short.
   */
  lemma WindowsOverlap(stream: seq<Block>, cfg: Limits, ws: seq<Window>, k: nat)
    requires Shaped(stream, cfg, ws) && 0 < k < |ws|
    ensures ws[k - 1].start <= ws[k].start < ws[k - 1].end <= ws[k].end <= |stream|
    ensures ws[k].start == ws[k - 1].start || SpanTokens(stream, ws[k].start, ws[k - 1].end) >= cfg.overlap
    ensures ws[k].start + 1 < ws[k - 1].end ==> SpanTokens(stream, ws[k].start + 1, ws[k - 1].end) < Max(1, cfg.overlap)
  {
    hide BlockTokens, TailStart;
    var w := ws[k - 1];
    assert InBounds(stream, w) && InBounds(stream, ws[k]);
    var blocks := stream[w.start..w.end];
    TailStartMeaning(blocks, Max(1, cfg.overlap));
    assert forall a: nat :: a <= |blocks| ==> blocks[a..] == stream[w.start + a..w.end];
  }

  lemma ShapedPrefix(stream: seq<Block>, cfg: Limits, ws: seq<Window>)
    requires Shaped(stream, cfg, ws) && ws != []
    ensures Shaped(stream, cfg, ws[..|ws| - 1])
    ensures InBounds(stream, ws[|ws| - 1])
  {
  }

  // ---------------------------------------------------------------- windows to chunks

  ghost function WindowText(stream: seq<Block>, w: Window): Text {
    if w.start < w.end <= |stream| then BlockWords(stream[w.start..w.end]) else []
  }

  /** The pieces of a text as numbered drafts. */
  function PieceDrafts(text: Text, maxTokens: nat, page: int, pageEnd: int, first: nat): seq<Draft> {
    var parts := Pieces(text, maxTokens);
    seq(|parts|, i requires 0 <= i < |parts| => Draft(page, pageEnd, parts[i], EstimateTokens(parts[i]), first + i))
  }

  /** The chunks one flush appends: one for the window, or its pieces when the joined text is too long. */
  function Emit(blocks: seq<Block>, maxTokens: nat, first: nat): seq<Draft>
    requires blocks != []
  {
    PieceDrafts(BlockWords(blocks), maxTokens, blocks[0].page, blocks[|blocks| - 1].page, first)
  }

  /** What a flush appends, piece by piece. */
  lemma EmitPieces(blocks: seq<Block>, maxTokens: nat, first: nat)
    requires blocks != []
    ensures var parts, emitted := Pieces(BlockWords(blocks), maxTokens), Emit(blocks, maxTokens, first);
      && |emitted| == |parts|
      && forall i :: 0 <= i < |parts| ==>
        emitted[i] == Draft(blocks[0].page, blocks[|blocks| - 1].page, parts[i], EstimateTokens(parts[i]), first + i)
  {
    hide Pieces, BlockWords, EstimateTokens;
  }

  lemma FittingIsOnePiece(text: Text, maxTokens: nat)
    requires text != [] && EstimateTokens(text) <= maxTokens
    ensures Pieces(text, maxTokens) == [text]
  {
  }

  ghost function EmitAll(stream: seq<Block>, ws: seq<Window>, maxTokens: nat): seq<Draft>
    decreases |ws|
  {
    if ws == [] then [] else
      var w, before := ws[|ws| - 1], EmitAll(stream, ws[..|ws| - 1], maxTokens);
      if w.start < w.end <= |stream| then before + Emit(stream[w.start..w.end], maxTokens, |before|) else before
  }

  /** Appending a short remainder to the last chunk instead of starting a new one. */
  function Merge(chunks: seq<Draft>, tail: seq<Block>): seq<Draft>
    requires chunks != [] && tail != []
  {
    var last := chunks[|chunks| - 1];
    var text := last.text + BlockWords(tail);
    chunks[|chunks| - 1 := last.(text := text, tokenCount := EstimateTokens(text), pageEnd := tail[|tail| - 1].page)]
  }

  function MergeFits(chunks: seq<Draft>, tail: seq<Block>, cfg: Limits): bool {
    && chunks != []
    && BlockTokens(tail) < cfg.minTokens
    && EstimateTokens(chunks[|chunks| - 1].text + BlockWords(tail)) <= cfg.maxTokens
  }

  /** The chunks of a finished run, as a function of its windows. */
  ghost function Finish(stream: seq<Block>, cfg: Limits, ws: seq<Window>): seq<Draft> {
    if ws == [] then [] else
      var w, before := ws[|ws| - 1], EmitAll(stream, ws[..|ws| - 1], cfg.maxTokens);
      if w.start < w.end <= |stream| && MergeFits(before, stream[w.start..w.end], cfg)
      then Merge(before, stream[w.start..w.end])
      else EmitAll(stream, ws, cfg.maxTokens)
  }

  function ChunkTexts(chunks: seq<Draft>): seq<Text> {
    seq(|chunks|, i requires 0 <= i < |chunks| => chunks[i].text)
  }

  ghost function WindowTexts(stream: seq<Block>, ws: seq<Window>): seq<Text> {
    seq(|ws|, i requires 0 <= i < |ws| => WindowText(stream, ws[i]))
  }

  ghost predicate SafeDraft(d: Draft, maxTokens: nat) {
    d.text != [] && d.tokenCount == EstimateTokens(d.text) <= maxTokens
  }

  ghost predicate SafeDrafts(chunks: seq<Draft>, maxTokens: nat) {
    forall i :: 0 <= i < |chunks| ==> SafeDraft(chunks[i], maxTokens) && chunks[i].index == i
  }

  lemma {:induction false} BlocksHaveWords(blocks: seq<Block>)
    requires blocks != [] && forall b :: b in blocks ==> b.text != []
    ensures BlockWords(blocks) != []
  {
    assert blocks[0] in blocks;
  }

  lemma PieceDraftsFacts(text: Text, maxTokens: nat, page: int, pageEnd: int, first: nat)
    requires maxTokens >= 1
    ensures var drafts := PieceDrafts(text, maxTokens, page, pageEnd, first);
      && (forall i :: 0 <= i < |drafts| ==> SafeDraft(drafts[i], maxTokens) && drafts[i].index == first + i)
      && Flatten(ChunkTexts(drafts)) == text
      && (|drafts| >= 2 <==> EstimateTokens(text) > maxTokens)
      && (drafts == [] <==> text == [])
  {
    var parts := Pieces(text, maxTokens);
    PiecesFacts(text, maxTokens);
    var drafts := PieceDrafts(text, maxTokens, page, pageEnd, first);
    assert ChunkTexts(drafts) == parts;
    assert forall i :: 0 <= i < |drafts| ==> drafts[i].text in parts;
  }

  /** `split_oversized_text`: a text cut into safe drafts, numbered from `startIndex`. */
  method SplitOversizedText(text: Text, maxTokens: nat, page: int, pageEnd: int, startIndex: nat)
    returns (drafts: seq<Draft>)
    requires maxTokens >= 1
    ensures drafts == PieceDrafts(text, maxTokens, page, pageEnd, startIndex)
    ensures forall i :: 0 <= i < |drafts| ==> SafeDraft(drafts[i], maxTokens) && drafts[i].index == startIndex + i
    ensures Flatten(ChunkTexts(drafts)) == text
  {
    hide Pieces, EstimateTokens;
    PieceDraftsFacts(text, maxTokens, page, pageEnd, startIndex);
    ghost var all := PieceDrafts(text, maxTokens, page, pageEnd, startIndex);
    var parts := SplitTextByTokens(text, maxTokens);
    drafts := [];
    for i := 0 to |parts|
      invariant drafts == all[..i]
    {
      drafts := drafts + [Draft(page, pageEnd, parts[i], EstimateTokens(parts[i]), startIndex + i)];
    }
  }

  /**
    The running sum of block tokens can stay within the bound while the joined text does not:
    two blocks of nine words count 11 tokens each but 23 together, so under a bound of 22 the
    flush has to split again.
   */
  lemma RunningSumUnderestimates(a: Block, b: Block)
    requires |a.text| == |b.text| == 9 && SafeBlock(a, 22) && SafeBlock(b, 22)
    ensures BlockTokens([a, b]) == 22 && |Emit([a, b], 22, 0)| >= 2
  {
    TokensGrow([a], b);
    BlockSplit([a], [b]);
    assert [a] + [b] == [a, b];
    assert BlockWords([a]) == a.text + [] && BlockWords([b]) == b.text + [];
    PieceDraftsFacts(BlockWords([a, b]), 22, a.page, b.page, 0);
  }

  lemma EmitFacts(blocks: seq<Block>, maxTokens: nat, first: nat)
    requires maxTokens >= 1 && blocks != []
    requires forall b :: b in blocks ==> SafeBlock(b, maxTokens)
    ensures var chunks := Emit(blocks, maxTokens, first);
      && chunks != []
      && (forall i :: 0 <= i < |chunks| ==> SafeDraft(chunks[i], maxTokens) && chunks[i].index == first + i)
      && Flatten(ChunkTexts(chunks)) == BlockWords(blocks)
      && (|chunks| == 1 <==> EstimateTokens(BlockWords(blocks)) <= maxTokens)
  {
    hide PieceDrafts;
    PieceDraftsFacts(BlockWords(blocks), maxTokens, blocks[0].page, blocks[|blocks| - 1].page, first);
    BlocksHaveWords(blocks);
  }

  lemma WindowTextsSnoc(stream: seq<Block>, ws: seq<Window>)
    requires ws != []
    ensures Flatten(WindowTexts(stream, ws))
         == Flatten(WindowTexts(stream, ws[..|ws| - 1])) + WindowText(stream, ws[|ws| - 1])
  {
    FlattenSnoc(WindowTexts(stream, ws[..|ws| - 1]), WindowText(stream, ws[|ws| - 1]));
    assert WindowTexts(stream, ws) == WindowTexts(stream, ws[..|ws| - 1]) + [WindowText(stream, ws[|ws| - 1])];
  }

  lemma ChunkTextsAppend(a: seq<Draft>, b: seq<Draft>)
    ensures Flatten(ChunkTexts(a + b)) == Flatten(ChunkTexts(a)) + Flatten(ChunkTexts(b))
  {
    FlattenAppend(ChunkTexts(a), ChunkTexts(b));
    assert ChunkTexts(a + b) == ChunkTexts(a) + ChunkTexts(b);
  }

  lemma {:induction false} EmitAllFacts(stream: seq<Block>, cfg: Limits, ws: seq<Window>)
    requires cfg.maxTokens >= 1 && Shaped(stream, cfg, ws)
    requires forall b :: b in stream ==> SafeBlock(b, cfg.maxTokens)
    ensures SafeDrafts(EmitAll(stream, ws, cfg.maxTokens), cfg.maxTokens)
    ensures Flatten(ChunkTexts(EmitAll(stream, ws, cfg.maxTokens))) == Flatten(WindowTexts(stream, ws))
    ensures ws != [] ==> EmitAll(stream, ws, cfg.maxTokens) != []
    decreases |ws|
  {
    if ws != [] {
      var w, before := ws[|ws| - 1], EmitAll(stream, ws[..|ws| - 1], cfg.maxTokens);
      ShapedPrefix(stream, cfg, ws);
      EmitAllFacts(stream, cfg, ws[..|ws| - 1]);
      var blocks := stream[w.start..w.end];
      assert forall b :: b in blocks ==> b in stream;
      EmitFacts(blocks, cfg.maxTokens, |before|);
      ChunkTextsAppend(before, Emit(blocks, cfg.maxTokens, |before|));
      WindowTextsSnoc(stream, ws);
    }
  }

  lemma MergeFacts(chunks: seq<Draft>, tail: seq<Block>, cfg: Limits)
    requires chunks != [] && tail != [] && MergeFits(chunks, tail, cfg)
    requires SafeDrafts(chunks, cfg.maxTokens)
    ensures SafeDrafts(Merge(chunks, tail), cfg.maxTokens)
    ensures Flatten(ChunkTexts(Merge(chunks, tail))) == Flatten(ChunkTexts(chunks)) + BlockWords(tail)
  {
    var last := chunks[|chunks| - 1];
    assert SafeDraft(last, cfg.maxTokens);
    var init := ChunkTexts(chunks[..|chunks| - 1]);
    FlattenSnoc(init, last.text);
    FlattenSnoc(init, last.text + BlockWords(tail));
    assert ChunkTexts(chunks) == init + [last.text];
    assert ChunkTexts(Merge(chunks, tail)) == init + [last.text + BlockWords(tail)];
  }

  /**
    Every chunk of a finished run is non-empty, within the token bound and counted right,
    chunks are numbered 0..n-1, and their texts spell out the windows one after the other.
   */
  lemma FinishFacts(stream: seq<Block>, cfg: Limits, ws: seq<Window>)
    requires cfg.maxTokens >= 1 && Shaped(stream, cfg, ws)
    requires forall b :: b in stream ==> SafeBlock(b, cfg.maxTokens)
    ensures SafeDrafts(Finish(stream, cfg, ws), cfg.maxTokens)
    ensures Flatten(ChunkTexts(Finish(stream, cfg, ws))) == Flatten(WindowTexts(stream, ws))
  {
    EmitAllFacts(stream, cfg, ws);
    if ws != [] {
      var w, before := ws[|ws| - 1], EmitAll(stream, ws[..|ws| - 1], cfg.maxTokens);
      ShapedPrefix(stream, cfg, ws);
      EmitAllFacts(stream, cfg, ws[..|ws| - 1]);
      if MergeFits(before, stream[w.start..w.end], cfg) {
        MergeFacts(before, stream[w.start..w.end], cfg);
        WindowTextsSnoc(stream, ws);
      }
    }
  }

  lemma EmitAllSnoc(stream: seq<Block>, ws: seq<Window>, w: Window, maxTokens: nat)
    requires w.start < w.end <= |stream|
    ensures var before := EmitAll(stream, ws, maxTokens);
      EmitAll(stream, ws + [w], maxTokens) == before + Emit(stream[w.start..w.end], maxTokens, |before|)
  {
    hide Emit;
    assert (ws + [w])[..|ws|] == ws;
  }

  /** The last window of a run is flushed like the others, or merged when it is short and fits. */
  lemma FinishLast(stream: seq<Block>, cfg: Limits, ws: seq<Window>, w: Window)
    requires w.start < w.end <= |stream|
    ensures var before := EmitAll(stream, ws, cfg.maxTokens);
      Finish(stream, cfg, ws + [w]) ==
        if MergeFits(before, stream[w.start..w.end], cfg) then Merge(before, stream[w.start..w.end])
        else EmitAll(stream, ws + [w], cfg.maxTokens)
  {
    hide MergeFits, Merge, Emit;
    assert (ws + [w])[..|ws|] == ws;
  }

  lemma FinishedRun(stream: seq<Block>, cfg: Limits, ws: seq<Window>, lo: nat, hi: nat)
    requires Midway(stream, cfg, ws, lo, hi, Rank(StreamEnds)) && hi == |stream| && stream != []
    ensures lo < hi && Windowed(stream, cfg, ws + [Window(lo, hi, StreamEnds)])
  {
    hide Shaped, InTurn, Silent, SpanTokens, NextStart;
    CloseWindow(stream, cfg, ws, lo, hi, StreamEnds);
  }

  /** No word is lost or reordered: the stream can be read off the concatenated windows. */
  lemma {:induction false} WindowsKeepWords(stream: seq<Block>, cfg: Limits, ws: seq<Window>)
    requires Shaped(stream, cfg, ws)
    ensures LastEnd(ws) <= |stream|
    ensures Subsequence(BlockWords(stream[..LastEnd(ws)]), Flatten(WindowTexts(stream, ws)))
    decreases |ws|
  {
    if ws == [] {
      assert Embeds<Word>([], Flatten(WindowTexts(stream, ws)), []);
    } else {
      var w, before := ws[|ws| - 1], ws[..|ws| - 1];
      var e := LastEnd(before);
      ShapedPrefix(stream, cfg, ws);
      WindowsKeepWords(stream, cfg, before);
      if before != [] {
        WindowsOverlap(stream, cfg, ws, |ws| - 1);
      }
      WindowTextsSnoc(stream, ws);
      SplitAt(stream, 0, e, w.end);
      SplitAt(stream, w.start, e, w.end);
      SubsequenceExtend(BlockWords(stream[..e]), Flatten(WindowTexts(stream, before)),
        BlockWords(stream[w.start..e]), BlockWords(stream[e..w.end]));
    }
  }

  lemma SplitAt(stream: seq<Block>, a: nat, b: nat, c: nat)
    requires a <= b <= c <= |stream|
    ensures BlockWords(stream[a..c]) == BlockWords(stream[a..b]) + BlockWords(stream[b..c])
  {
    assert stream[a..c] == stream[a..b] + stream[b..c];
    BlockSplit(stream[a..b], stream[b..c]);
  }

  // ---------------------------------------------------------------- the chunker as it runs

  /** `_overlap_tail`: walk back from the end until the overlap is reached. */
  method OverlapTail(blocks: seq<Block>, overlap: nat) returns (tail: seq<Block>)
    requires blocks != []
    ensures tail == blocks[TailStart(blocks, Max(1, overlap))..]
  {
    var target := Max(1, overlap);
    var i := |blocks|;
    var running := 0;
    tail := [];
    assert blocks[..i] == blocks;
    while i > 0
      invariant 0 <= i <= |blocks| && tail == blocks[i..]
      invariant running < target
      invariant i > 0 ==> TailStart(blocks[..i], target - running) == TailStart(blocks, target)
      invariant i == 0 ==> TailStart(blocks, target) == 0
    {
      i := i - 1;
      tail := [blocks[i]] + tail;
      running := running + blocks[i].tokens;
      assert blocks[..i + 1][..i] == blocks[..i];
      if running >= target {
        break;
      }
    }
  }

  /** The loop state of the chunker; `Flush` is its inner function. */
  class ChunkBuilder {
    const cfg: Limits
    var chunks: seq<Draft>
    var current: seq<Block>
    var currentTokens: nat
    var chunkIndex: nat

    ghost const stream: seq<Block>
    ghost var windows: seq<Window>
    ghost var lo: nat
    ghost var hi: nat
    ghost var looks: nat

    ghost predicate Valid()
      reads this
    {
      && cfg.maxTokens >= 1
      && (forall b :: b in stream ==> SafeBlock(b, cfg.maxTokens))
      && Midway(stream, cfg, windows, lo, hi, looks)
      && current == stream[lo..hi]
      && currentTokens == BlockTokens(current)
      && chunks == EmitAll(stream, windows, cfg.maxTokens)
      && chunkIndex == |chunks|
    }

    constructor (cfg: Limits, ghost stream: seq<Block>)
      requires cfg.maxTokens >= 1
      requires forall b :: b in stream ==> SafeBlock(b, cfg.maxTokens)
      ensures Valid() && hi == 0 && looks == 1
      ensures this.cfg == cfg && this.stream == stream
    {
      this.cfg := cfg;
      this.stream := stream;
      chunks, current, currentTokens, chunkIndex := [], [], 0, 0;
      windows, lo, hi, looks := [], 0, 0, 1;
    }

    /** The chunks of one flush: a single one, or its parts when the joined text is too long. */
    method Append(page: int, pageEnd: int, text: Text)
      requires cfg.maxTokens >= 1 && chunkIndex == |chunks| && text != []
      requires current != [] && text == BlockWords(current)
      requires page == current[0].page && pageEnd == current[|current| - 1].page
      modifies `chunks, `chunkIndex
      ensures chunks == old(chunks) + Emit(current, cfg.maxTokens, |old(chunks)|) && chunkIndex == |chunks|
    {
      hide Emit, Pieces, EstimateTokens, BlockWords;
      ghost var emitted := Emit(current, cfg.maxTokens, |chunks|);
      EmitPieces(current, cfg.maxTokens, |chunks|);
      var tokenCount := EstimateTokens(text);
      if tokenCount > cfg.maxTokens {
        var parts := SplitTextByTokens(text, cfg.maxTokens);
        for i := 0 to |parts|
          invariant chunks == old(chunks) + emitted[..i] && chunkIndex == |chunks|
        {
          assert emitted[..i + 1] == emitted[..i] + [emitted[i]];
          chunks := chunks + [Draft(page, pageEnd, parts[i], EstimateTokens(parts[i]), chunkIndex)];
          chunkIndex := chunkIndex + 1;
        }
        assert emitted[..|parts|] == emitted;
      } else {
        FittingIsOnePiece(text, cfg.maxTokens);
        assert emitted == [emitted[0]];
        chunks := chunks + [Draft(page, pageEnd, text, tokenCount, chunkIndex)];
        chunkIndex := chunkIndex + 1;
      }
    }

    method Flush(ghost reason: Reason)
      requires Valid()
      requires current != [] ==> looks == Rank(reason) && Closes(stream, cfg, lo, hi, reason)
      modifies this
      ensures Valid() && hi == old(hi)
      ensures old(current) == [] ==> windows == old(windows) && chunks == old(chunks) && looks == old(looks)
      ensures old(current) != [] ==>
        windows == old(windows) + [Window(old(lo), old(hi), reason)] && looks == old(looks) + 1
    {
      hide Shaped, InTurn, Silent, Closes, TailStart, Emit, EmitAll, BlockWords, BlockTokens;
      if current == [] {
        return;
      }
      var text := BlockWords(current);
      assert forall b :: b in current ==> b in stream;
      BlocksHaveWords(current);
      if text == [] {
        assert false;
      }
      CloseWindow(stream, cfg, windows, lo, hi, reason);
      ghost var w := Window(lo, hi, reason);
      EmitAllSnoc(stream, windows, w, cfg.maxTokens);
      Append(current[0].page, current[|current| - 1].page, text);
      var tail := OverlapTail(current, cfg.overlap);
      current := tail;
      currentTokens := BlockTokens(tail);
      windows, looks := windows + [w], looks + 1;
      lo := NextStart(stream, cfg, w);
    }

    /** A look that does not flush. */
    ghost method Pass(reason: Reason)
      requires Valid() && looks == Rank(reason) && !Closes(stream, cfg, lo, hi, reason)
      modifies `looks
      ensures Valid() && looks == old(looks) + 1
    {
      hide Midway, Closes, EmitAll, SafeBlock, BlockTokens;
      PassReason(stream, cfg, windows, lo, hi, reason);
      looks := looks + 1;
    }

    /** The two looks at a heading that comes next. */
    method CloseBeforeHeading(block: Block)
      requires Valid() && looks == Rank(BeforeHeading) && hi < |stream| && block == stream[hi]
      modifies this
      ensures Valid() && hi == old(hi) && looks == Rank(Overflowing)
    {
      hide Shaped, InTurn, Silent, EmitAll, NextStart, SafeBlock;
      if block.heading {
        if current != [] && currentTokens >= cfg.minTokens {
          Flush(BeforeHeading);
        } else {
          Pass(BeforeHeading);
        }
        if current != [] && current[|current| - 1].page != block.page {
          Flush(PageTurned);
        } else {
          Pass(PageTurned);
        }
      } else {
        Pass(BeforeHeading);
        Pass(PageTurned);
      }
    }

    /** The looks before a block is taken in; each of them may flush. */
    method CloseBefore(block: Block)
      requires Valid() && looks == Rank(BeforeHeading) && hi < |stream| && block == stream[hi]
      modifies this
      ensures Valid() && hi == old(hi) && looks == Rank(StreamEnds)
    {
      hide Shaped, InTurn, Silent, EmitAll, NextStart, SafeBlock;
      CloseBeforeHeading(block);
      var prospective := currentTokens + block.tokens;
      if current != [] && prospective > cfg.maxTokens {
        Flush(Overflowing);
      } else {
        Pass(Overflowing);
      }
    }

    method Absorb(block: Block)
      requires Valid() && looks == Rank(StreamEnds) && hi < |stream| && block == stream[hi]
      modifies `current, `currentTokens, `hi, `looks
      ensures Valid() && hi == old(hi) + 1 && looks == Rank(SizeReached)
      ensures current == old(current) + [block]
    {
      hide Shaped, InTurn, Silent, EmitAll, NextStart, BlockTokens, SafeBlock;
      GrowWindow(stream, cfg, windows, lo, hi);
      TokensGrow(current, block);
      assert stream[lo..hi + 1] == current + [block];
      current := current + [block];
      currentTokens := currentTokens + block.tokens;
      hi, looks := hi + 1, 0;
    }

    /** The body of the loop over the blocks. */
    method Take(block: Block)
      requires Valid() && looks == Rank(BeforeHeading) && hi < |stream| && block == stream[hi]
      modifies this
      ensures Valid() && looks == Rank(BeforeHeading) && hi == old(hi) + 1
    {
      hide Shaped, InTurn, Silent, EmitAll, NextStart, BlockWords, EstimateTokens;
      CloseBefore(block);
      assert SafeBlock(block, cfg.maxTokens);
      if block.tokens > cfg.maxTokens {
        assert false;
      }
      Absorb(block);
      if currentTokens >= cfg.targetMax || (currentTokens >= cfg.targetMin && block.heading) {
        Flush(SizeReached);
      } else {
        Pass(SizeReached);
      }
    }

    /** The end of the run: merge a short remainder into the last chunk, or flush it. */
    method Close()
      requires Valid() && looks == Rank(BeforeHeading) && hi == |stream| && stream != []
      modifies this
      ensures Windowed(stream, cfg, windows) && chunks == Finish(stream, cfg, windows)
    {
      hide Midway, Windowed, SpanTokens, Merge, Finish, EmitAll, SafeBlock, EstimateTokens, BlockWords;
      Pass(BeforeHeading);
      Pass(PageTurned);
      Pass(Overflowing);
      FinishedRun(stream, cfg, windows, lo, hi);
      FinishLast(stream, cfg, windows, Window(lo, hi, StreamEnds));
      if current != [] {
        var merges := false;
        if chunks != [] && currentTokens < cfg.minTokens {
          var merged := chunks[|chunks| - 1].text + BlockWords(current);
          merges := EstimateTokens(merged) <= cfg.maxTokens;
        }
        if merges {
          chunks := Merge(chunks, current);
          windows := windows + [Window(lo, hi, StreamEnds)];
        } else {
          Flush(StreamEnds);
        }
      }
    }
  }

  method CollectBlocks(pages: seq<Page>, maxTokens: nat) returns (blocks: seq<Block>)
    requires maxTokens >= 1
    ensures blocks == PagesBlocks(pages, maxTokens)
  {
    hide PageBlocks;
    blocks := [];
    for p := 0 to |pages|
      invariant blocks == PagesBlocks(pages[..p], maxTokens)
    {
      var more := SplitPageBlocks(pages[p], maxTokens);
      FlatMapSnoc(BlocksOfPage(maxTokens), pages[..p], pages[p]);
      assert pages[..p + 1] == pages[..p] + [pages[p]];
      blocks := blocks + more;
    }
    assert pages[..|pages|] == pages;
  }

  lemma EmptyRun(cfg: Limits)
    ensures Windowed([], cfg, []) && Finish([], cfg, []) == []
  {
  }

  /**
    `chunk_pages`. The ghost result names the windows of the run; every promise about the chunks
    is stated outright and also follows from the windows alone.
   */
  method ChunkPages(pages: seq<Page>, cfg: Limits) returns (chunks: seq<Draft>, ghost windows: seq<Window>)
    requires cfg.maxTokens >= 1
    ensures Windowed(PagesBlocks(pages, cfg.maxTokens), cfg, windows)
    ensures chunks == Finish(PagesBlocks(pages, cfg.maxTokens), cfg, windows)
    ensures Subsequence(PagesWords(pages), Flatten(ChunkTexts(chunks)))
    ensures SafeDrafts(chunks, cfg.maxTokens)
  {
    hide Shaped, InTurn, Finish, PageBlocks, Subsequence, SafeDrafts, SafeBlock, WindowTexts, PagesWords;
    ghost var stream := PagesBlocks(pages, cfg.maxTokens);
    PagesBlocksFacts(pages, cfg.maxTokens);
    var blocks := CollectBlocks(pages, cfg.maxTokens);
    if blocks == [] {
      windows, chunks := [], [];
      EmptyRun(cfg);
    } else {
      var builder := new ChunkBuilder(cfg, blocks);
      for i := 0 to |blocks|
        invariant builder.Valid() && builder.looks == Rank(BeforeHeading) && builder.hi == i
        invariant builder.stream == blocks && builder.cfg == cfg
      {
        builder.Take(blocks[i]);
      }
      builder.Close();
      chunks, windows := builder.chunks, builder.windows;
    }
    RunReachesTheEnd(stream, cfg, windows);
    FinishFacts(stream, cfg, windows);
    WindowsKeepWords(stream, cfg, windows);
    assert stream[..LastEnd(windows)] == stream;
  }
}
