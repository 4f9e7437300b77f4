/** Where chunks come from: which pages they span, which windows they show, and what becomes of a short remainder. */
module ChunkProvenance {
  import opened Sequences
  import opened Tokens
  import opened Chunking

  // ---------------------------------------------------------------- pages

  ghost predicate PagesAscend(pages: seq<Page>) {
    forall i, j :: 0 <= i < j < |pages| ==> pages[i].number <= pages[j].number
  }

  ghost predicate BlocksAscend(stream: seq<Block>) {
    forall i, j :: 0 <= i < j < |stream| ==> stream[i].page <= stream[j].page
  }

  /** A block bears the number of the page it was read from. */
  lemma BlockPage(page: Page, maxTokens: nat, b: Block)
    requires b in PageBlocks(page, maxTokens)
    ensures b.page == page.number
  {
    var line := FlatMapMember(BlocksOfLine(page.number, maxTokens), Flatten(page.paragraphs), b);
    assert b in LineBlocks(page.number, line, maxTokens);
  }

  lemma {:induction false} StreamAscends(pages: seq<Page>, maxTokens: nat)
    requires PagesAscend(pages)
    ensures BlocksAscend(PagesBlocks(pages, maxTokens))
  {
    if pages != [] {
      hide PageBlocks;
      StreamAscends(pages[1..], maxTokens);
      var first, rest := PageBlocks(pages[0], maxTokens), PagesBlocks(pages[1..], maxTokens);
      assert PagesBlocks(pages, maxTokens) == first + rest;
      forall b | b in first
        ensures b.page == pages[0].number
      {
        BlockPage(pages[0], maxTokens, b);
      }
      forall b | b in rest
        ensures pages[0].number <= b.page
      {
        var page := FlatMapMember(BlocksOfPage(maxTokens), pages[1..], b);
        BlockPage(page, maxTokens, b);
      }
    }
  }

  /** Chunks begin on the first page and end on the last one, and their page ranges move forward. */
  ghost predicate SpansPages(chunks: seq<Draft>, first: int, last: int) {
    && chunks != [] && chunks[0].page == first && chunks[|chunks| - 1].pageEnd == last
    && (forall i :: 0 <= i < |chunks| ==> chunks[i].page <= chunks[i].pageEnd)
    && (forall i, j :: 0 <= i < j < |chunks| ==> chunks[i].page <= chunks[j].page && chunks[i].pageEnd <= chunks[j].pageEnd)
  }

  lemma AppendSpans(chunks: seq<Draft>, more: seq<Draft>, first: int, mid: int, from: int, last: int)
    requires chunks == [] || (SpansPages(chunks, first, mid) && chunks[|chunks| - 1].page <= from && mid <= last)
    requires chunks == [] ==> from == first
    requires more != [] && from <= last && forall i :: 0 <= i < |more| ==> more[i].page == from && more[i].pageEnd == last
    ensures SpansPages(chunks + more, first, last)
    ensures (chunks + more)[|chunks + more| - 1].page == from
  {
    assert forall i :: 0 <= i < |chunks| ==> chunks[i].page <= from && chunks[i].pageEnd <= last by {
      if chunks != [] {
        assert forall i :: 0 <= i < |chunks| - 1 ==> chunks[i].page <= chunks[|chunks| - 1].page && chunks[i].pageEnd <= mid;
      }
    }
  }

  /** What a flush of window `w` appends: chunks of its pages, one if its joined text is within the bound. */
  lemma EmitOfWindow(stream: seq<Block>, w: Window, maxTokens: nat, first: nat)
    requires maxTokens >= 1 && InBounds(stream, w) && forall b :: b in stream ==> SafeBlock(b, maxTokens)
    ensures var more := Emit(stream[w.start..w.end], maxTokens, first);
      && more != []
      && (forall i :: 0 <= i < |more| ==> more[i].page == stream[w.start].page && more[i].pageEnd == stream[w.end - 1].page)
    ensures EstimateTokens(WindowText(stream, w)) <= maxTokens ==>
      Emit(stream[w.start..w.end], maxTokens, first) == [ChunkOfWindow(stream, w, first)]
  {
    hide SafeBlock, Emit, Pieces, EstimateTokens, BlockWords;
    var blocks := stream[w.start..w.end];
    assert forall b :: b in blocks ==> b in stream;
    EmitFacts(blocks, maxTokens, first);
    EmitPieces(blocks, maxTokens, first);
    BlocksHaveText(blocks, maxTokens);
    if EstimateTokens(WindowText(stream, w)) <= maxTokens {
      FittingIsOnePiece(BlockWords(blocks), maxTokens);
    }
  }

  ghost function ChunkOfWindow(stream: seq<Block>, w: Window, index: nat): Draft
    requires InBounds(stream, w)
  {
    var text := WindowText(stream, w);
    Draft(stream[w.start].page, stream[w.end - 1].page, text, EstimateTokens(text), index)
  }

  lemma {:induction false} EmitAllSpans(stream: seq<Block>, cfg: Limits, ws: seq<Window>)
    requires cfg.maxTokens >= 1 && Shaped(stream, cfg, ws) && ws != [] && BlocksAscend(stream)
    requires forall b :: b in stream ==> SafeBlock(b, cfg.maxTokens)
    ensures var w, chunks := ws[|ws| - 1], EmitAll(stream, ws, cfg.maxTokens);
      && InBounds(stream, w)
      && SpansPages(chunks, stream[0].page, stream[w.end - 1].page)
      && chunks[|chunks| - 1].page == stream[w.start].page
    decreases |ws|
  {
    hide SafeBlock, SpanTokens, NextStart, Emit, EmitAll, WindowText, EstimateTokens;
    var w, before := ws[|ws| - 1], ws[..|ws| - 1];
    ShapedPrefix(stream, cfg, ws);
    var chunks := EmitAll(stream, before, cfg.maxTokens);
    EmitOfWindow(stream, w, cfg.maxTokens, |chunks|);
    assert ws == before + [w];
    EmitAllSnoc(stream, before, w, cfg.maxTokens);
    NothingEmitted(stream, cfg.maxTokens);
    var mid := 0;
    if before != [] {
      EmitAllSpans(stream, cfg, before);
      WindowsOverlap(stream, cfg, ws, |ws| - 1);
      mid := stream[before[|before| - 1].end - 1].page;
    }
    AppendSpans(chunks, Emit(stream[w.start..w.end], cfg.maxTokens, |chunks|),
      stream[0].page, mid, stream[w.start].page, stream[w.end - 1].page);
  }

  lemma NothingEmitted(stream: seq<Block>, maxTokens: nat)
    ensures EmitAll(stream, [], maxTokens) == []
  {
  }

  lemma MergeSpans(chunks: seq<Draft>, tail: seq<Block>, first: int, mid: int)
    requires SpansPages(chunks, first, mid) && tail != [] && mid <= tail[|tail| - 1].page
    ensures SpansPages(Merge(chunks, tail), first, tail[|tail| - 1].page)
  {
    hide BlockWords, EstimateTokens;
  }

  /** The chunks of a finished run span the pages of the document, in order. */
  lemma FinishSpans(stream: seq<Block>, cfg: Limits, ws: seq<Window>)
    requires cfg.maxTokens >= 1 && Windowed(stream, cfg, ws) && stream != [] && BlocksAscend(stream)
    requires forall b :: b in stream ==> SafeBlock(b, cfg.maxTokens)
    ensures SpansPages(Finish(stream, cfg, ws), stream[0].page, stream[|stream| - 1].page)
  {
    hide SafeBlock, SpansPages, SpanTokens, NextStart, Emit, Merge, InTurn, MergeFits;
    RunReachesTheEnd(stream, cfg, ws);
    EmitAllSpans(stream, cfg, ws);
    var w, before := ws[|ws| - 1], ws[..|ws| - 1];
    var chunks, tail := EmitAll(stream, before, cfg.maxTokens), stream[w.start..w.end];
    if MergeFits(chunks, tail, cfg) {
      MergedOntoSomething(stream, ws, tail, cfg);
      ShapedPrefix(stream, cfg, ws);
      EmitAllSpans(stream, cfg, before);
      MergeSpans(chunks, tail, stream[0].page, stream[before[|before| - 1].end - 1].page);
    }
  }

  lemma MergedOntoSomething(stream: seq<Block>, ws: seq<Window>, tail: seq<Block>, cfg: Limits)
    requires ws != [] && MergeFits(EmitAll(stream, ws[..|ws| - 1], cfg.maxTokens), tail, cfg)
    ensures |ws| > 1
  {
    hide Emit;
  }

  // ---------------------------------------------------------------- where windows close

  /**
    Inside a window, past the end of the one before it, nothing asked for an end: the target was not reached, nor the
    lower one in a heading; a heading came next only after little text of its own page; and the next block still fitted.
   */
  lemma WindowInterior(stream: seq<Block>, cfg: Limits, ws: seq<Window>, k: nat, p: nat)
    requires Windowed(stream, cfg, ws) && k < |ws| && ws[k].start < p < ws[k].end && LastEnd(ws[..k]) < p
    ensures p < |stream|
    ensures var tokens := SpanTokens(stream, ws[k].start, p);
      && tokens < cfg.targetMax && (stream[p - 1].heading ==> tokens < cfg.targetMin)
      && (stream[p].heading ==> tokens < cfg.minTokens && stream[p - 1].page == stream[p].page)
      && tokens + stream[p].tokens <= cfg.maxTokens
  {
    WindowAt(stream, cfg, ws, k);
    hide Windowed, SpanTokens;
    var w, from := ws[k], LastMoment(ws[..k]);
    forall reason
      ensures !Closes(stream, cfg, w.start, p, reason)
    {
      assert Before(from, Look(p, reason)) && Before(Look(p, reason), Look(w.end, w.reason));
    }
    assert !Closes(stream, cfg, w.start, p, SizeReached) && !Closes(stream, cfg, w.start, p, BeforeHeading);
    assert !Closes(stream, cfg, w.start, p, PageTurned) && !Closes(stream, cfg, w.start, p, Overflowing);
  }

  /** A look that closes whatever is open. */
  ghost predicate ClosesAnyWindow(stream: seq<Block>, cfg: Limits, p: nat, reason: Reason) {
    forall start: nat :: start < p ==> Closes(stream, cfg, start, p, reason)
  }

  lemma {:induction false} SomeWindowCloses(stream: seq<Block>, cfg: Limits, ws: seq<Window>, p: nat, reason: Reason, k: nat)
    returns (at: nat)
    requires Windowed(stream, cfg, ws) && 0 < p <= |stream| && k < |ws|
    requires ClosesAnyWindow(stream, cfg, p, reason) && Before(LastMoment(ws[..k]), Look(p, reason))
    ensures at < |ws| && ws[at].end == p && ws[at].reason == reason
    decreases |ws| - k
  {
    WindowAt(stream, cfg, ws, k);
    OpensBefore(stream, cfg, ws, k);
    EndsTheRun(stream, cfg, ws, k);
    hide Windowed, SpanTokens, ClosesAnyWindow, LastEnd;
    var w := ws[k];
    if Before(Look(w.end, w.reason), Look(p, reason)) {
      assert ws[..k + 1][k] == w;
      at := SomeWindowCloses(stream, cfg, ws, p, reason, k + 1);
    } else {
      assert Closes(stream, cfg, w.start, p, reason) by { ClosesIt(stream, cfg, w.start, p, reason); }
      at := k;
    }
  }

  lemma ClosesIt(stream: seq<Block>, cfg: Limits, start: nat, p: nat, reason: Reason)
    requires ClosesAnyWindow(stream, cfg, p, reason) && start < p
    ensures Closes(stream, cfg, start, p, reason)
  {
  }

  /** A window opens before the end of the one before it. */
  lemma OpensBefore(stream: seq<Block>, cfg: Limits, ws: seq<Window>, k: nat)
    requires Windowed(stream, cfg, ws) && k < |ws|
    ensures ws[k].start == 0 || ws[k].start < LastMoment(ws[..k]).taken
  {
    if k > 0 {
      hide InTurn;
      WindowsOverlap(stream, cfg, ws, k);
      assert ws[..k][k - 1] == ws[k - 1];
    }
  }

  /** A heading on a new page always begins apart: some window ends right before it, for that reason. */
  lemma PageBreakCloses(stream: seq<Block>, cfg: Limits, ws: seq<Window>, p: nat) returns (at: nat)
    requires Windowed(stream, cfg, ws) && 0 < p < |stream| && stream[p].heading && stream[p - 1].page != stream[p].page
    ensures at < |ws| && ws[at].end == p && ws[at].reason == PageTurned
  {
    hide SpanTokens, Shaped, InTurn;
    assert ClosesAnyWindow(stream, cfg, p, PageTurned);
    assert ws[..0] == [];
    at := SomeWindowCloses(stream, cfg, ws, p, PageTurned, 0);
  }

  // ---------------------------------------------------------------- windows and their chunks

  /** A window whose joined text is within the bound is one chunk, and that chunk is the window. */
  lemma {:induction false} OneChunkEach(stream: seq<Block>, cfg: Limits, ws: seq<Window>)
    requires cfg.maxTokens >= 1 && Shaped(stream, cfg, ws)
    requires forall b :: b in stream ==> SafeBlock(b, cfg.maxTokens)
    requires forall w :: w in ws ==> EstimateTokens(WindowText(stream, w)) <= cfg.maxTokens
    ensures var chunks := EmitAll(stream, ws, cfg.maxTokens);
      && |chunks| == |ws|
      && forall k :: 0 <= k < |ws| ==> InBounds(stream, ws[k]) && chunks[k] == ChunkOfWindow(stream, ws[k], k)
    decreases |ws|
  {
    hide SafeBlock, NextStart, EstimateTokens, Emit, EmitAll, WindowText, SpanTokens;
    if ws != [] {
      var w, before := ws[|ws| - 1], ws[..|ws| - 1];
      ShapedPrefix(stream, cfg, ws);
      OneChunkEach(stream, cfg, before);
      assert ws == before + [w] && w in ws;
      EmitOfWindow(stream, w, cfg.maxTokens, |before|);
      EmitAllSnoc(stream, before, w, cfg.maxTokens);
    } else {
      NothingEmitted(stream, cfg.maxTokens);
    }
  }

  lemma BlocksHaveText(blocks: seq<Block>, maxTokens: nat)
    requires blocks != [] && forall b :: b in blocks ==> SafeBlock(b, maxTokens)
    ensures BlockWords(blocks) != []
  {
    BlocksHaveWords(blocks);
  }

  /** The remainder adds no chunk exactly when there is one before it, it is short, and both together fit. */
  lemma RemainderMerged(stream: seq<Block>, cfg: Limits, ws: seq<Window>)
    requires cfg.maxTokens >= 1 && Windowed(stream, cfg, ws) && stream != []
    requires forall b :: b in stream ==> SafeBlock(b, cfg.maxTokens)
    ensures var w, before := ws[|ws| - 1], EmitAll(stream, ws[..|ws| - 1], cfg.maxTokens);
      && InBounds(stream, w)
      && (|Finish(stream, cfg, ws)| == |before| <==>
          |ws| > 1 && SpanTokens(stream, w.start, w.end) < cfg.minTokens &&
          before != [] && EstimateTokens(before[|before| - 1].text + WindowText(stream, w)) <= cfg.maxTokens)
      && (|ws| > 1 ==> before != [])
  {
    hide SafeBlock, Emit, EstimateTokens, InTurn, BlockTokens, BlockWords, NextStart;
    var w, before := ws[|ws| - 1], ws[..|ws| - 1];
    ShapedPrefix(stream, cfg, ws);
    EmitAllFacts(stream, cfg, before);
    var blocks := stream[w.start..w.end];
    assert forall b :: b in blocks ==> b in stream;
    EmitFacts(blocks, cfg.maxTokens, |EmitAll(stream, before, cfg.maxTokens)|);
  }
}
