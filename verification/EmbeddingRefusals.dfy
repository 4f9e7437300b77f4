/** What a refusal means for one chunk: cut, tried again later, or given up. */
module EmbeddingRefusals {
  import opened Wrappers
  import opened Tokens
  import opened EmbeddingErrors
  import opened EmbeddingStore
  import opened EmbeddingIsolation
  import Chunking

  function InputLimit(caps: Caps): nat {
    Min(caps.recommended, caps.maxInput)
  }

  /** A chunk of that many tokens can be cut after a refusal. */
  predicate Cuttable(tokens: nat, caps: Caps) {
    tokens > 64 || tokens > Max(32, InputLimit(caps))
  }

  /**
    A refused chunk is really cut exactly when it has more than 64 tokens or more than the limit in use, which counts
    as at least 32. Its pieces have at most half its tokens, or at most 64, and a chunk within the limit is cut into
    two or three.
   */
  lemma CutWhenRefused(c: Chunk, caps: Caps)
    ensures var drafts, tokens := DraftsFor(c, caps), EstimateTokens(c.text);
      && (|drafts| >= 2 <==> Cuttable(tokens, caps))
      && (forall i :: 0 <= i < |drafts| ==> drafts[i].tokenCount <= Max(64, tokens / 2) && drafts[i].tokenCount <= Max(32, InputLimit(caps)))
      && (tokens <= InputLimit(caps) ==> |drafts| <= 3)
      && (forall i :: 0 <= i < |drafts| ==> drafts[i].page == c.page && drafts[i].pageEnd == c.pageEnd)
  {
    var bound := SaferMax(c.text, caps);
    hide Estimate;
    Chunking.PieceDraftsFacts(c.text, bound, c.page, c.pageEnd, c.index);
    BoundHalves(EstimateTokens(c.text), c.text, caps);
    if EstimateTokens(c.text) <= InputLimit(caps) {
      ThreePieces(c.text, caps);
    }
  }

  lemma BoundHalves(tokens: nat, text: Text, caps: Caps)
    requires tokens == EstimateTokens(text)
    ensures tokens > SaferMax(text, caps) <==> Cuttable(tokens, caps)
    ensures Cuttable(tokens, caps) ==> SaferMax(text, caps) <= Max(64, tokens / 2)
    ensures SaferMax(text, caps) <= Max(32, InputLimit(caps))
    ensures !Cuttable(tokens, caps) ==> tokens <= 64
  {
    hide EstimateTokens;
  }

  lemma ThreePieces(text: Text, caps: Caps)
    requires EstimateTokens(text) <= InputLimit(caps)
    ensures |Pieces(text, SaferMax(text, caps))| <= 3
  {
    var size := WordsPerPiece(SaferMax(text, caps));
    if EstimateTokens(text) > SaferMax(text, caps) {
      assert |text| <= 3 * size;
      CutInThree(text, size);
    }
  }

  /** What splitting leaves of a chunk: pending pieces no larger than half of it, or a chunk given up for good. */
  lemma SplitFate(s: Store, id: Id, caps: Caps)
    requires ValidStore(s) && id in s.rows
    ensures var c, s' := s.rows[id], SplitSingle(s, id, caps);
      && id in s'.rows && s'.rows[id].attempts == c.attempts + 1
      && s'.rows[id].page == c.page && s'.rows[id].pageEnd == c.pageEnd && s'.rows[id].index == c.index
      && s'.rows[id].status == (if Cuttable(EstimateTokens(c.text), caps) then Pending else Failed)
    ensures var c, s' := s.rows[id], SplitSingle(s, id, caps);
      if Cuttable(EstimateTokens(c.text), caps) then
        forall k :: k in s'.rows && (k == id || k !in s.rows) ==>
          && s'.rows[k].status == Pending && s'.rows[k].tokenCount <= Max(64, EstimateTokens(c.text) / 2)
          && s'.rows[k].page == c.page && s'.rows[k].pageEnd == c.pageEnd
      else s'.rows.Keys == s.rows.Keys && s'.rows[id].text == c.text
  {
    hide EstimateTokens, DraftsFor, AddSiblings, Cuttable;
    var c := s.rows[id];
    CutWhenRefused(c, caps);
    if |DraftsFor(c, caps)| >= 2 {
      SplitRows(s, id, caps);
      hide SplitSingle;
      PieceFates(s.rows, SplitSingle(s, id, caps).rows, id, DraftsFor(c, caps), s.nextId, Max(64, EstimateTokens(c.text) / 2));
    }
  }

  lemma PieceFates(rows: Rows, rows': Rows, id: Id, drafts: seq<Chunking.Draft>, base: Id, bound: nat)
    requires IsSplit(rows, rows', id, drafts, base)
    requires forall i :: 0 <= i < |drafts| ==>
      drafts[i].tokenCount <= bound && drafts[i].page == rows[id].page && drafts[i].pageEnd == rows[id].pageEnd
    ensures forall k :: k in rows' && (k == id || k !in rows) ==>
      && rows'[k].status == Pending && rows'[k].tokenCount <= bound
      && rows'[k].page == rows[id].page && rows'[k].pageEnd == rows[id].pageEnd
      && rows'[k].attempts == if k == id then rows[id].attempts + 1 else 0
  {
  }

  /** A chunk that stays for a later batch: pending until its third attempt. */
  predicate TriedOnce(c: Chunk, c': Chunk) {
    && c'.attempts == c.attempts + 1 && c'.text == c.text && c'.tokenCount == c.tokenCount
    && c'.status == if c.attempts < 2 then Pending else Failed
  }

  predicate GivenUp(c: Chunk, c': Chunk) {
    c'.attempts == c.attempts + 1 && c'.text == c.text && c'.status == Failed
  }

  /**
    The fate of a chunk sent alone, by the answer: embedded with the vector; tried again later after a transient
    refusal or a wrong number of vectors; cut or given up when it is too long; given up for any other refusal.
   */
  lemma SingleFate(w: World, id: Id, caps: Caps, provider: Provider, depth: nat)
    requires Ready(w.store, [id])
    ensures var reply := Sent(w, [id], provider).1;
      var rows' := Isolate(w, [id], caps, provider, depth).store.rows;
      var c := w.store.rows[id];
      && id in rows'
      && (reply.Vectors? && |reply.vs| == 1 ==> rows'[id].status == Embedded && rows'[id].vector == Some(reply.vs[0]))
      && (reply.Vectors? && |reply.vs| != 1 ==> TriedOnce(c, rows'[id]))
      && (reply.Refused? && Classify(reply.error) == Transient ==> TriedOnce(c, rows'[id]))
      && (reply.Refused? && Classify(reply.error) in {Rejected, Unknown} ==> GivenUp(c, rows'[id]))
      && (reply.Refused? && Classify(reply.error) == Oversized ==>
        rows'[id].status == if Cuttable(EstimateTokens(c.text), caps) then Pending else Failed)
  {
    hide IsOversized, IsTransient, IsNonRetryable, SplitSingle, Cuttable, EstimateTokens, CallEmbed, TextsOf;
    var (sent, reply) := Sent(w, [id], provider);
    SentFrame(w, [id], provider);
    IsolateStep(w, [id], caps, provider, depth);
    SplitFate(sent.store, id, caps);
    assert id in [id];
    if reply.Refused? {
      assert Classify(reply.error) in {Oversized, Rejected, Transient, Unknown};
    } else if |reply.vs| == 1 {
      assert [id][IndexOf([id], id)] == id;
    }
  }

  /** Size and transient refusals of a group are not held against its chunks at once, any other is. */
  predicate HeldBack(verdict: Class, c: Chunk, c': Chunk) {
    if verdict in {Oversized, Transient} then TriedOnce(c, c') else GivenUp(c, c')
  }

  /** A refused group that is not bisected: every chunk of it is tried again later, or every one is given up. */
  lemma GroupFate(w: World, ids: seq<Id>, caps: Caps, provider: Provider, depth: nat)
    requires Ready(w.store, ids) && |ids| > 1
    ensures var reply := Sent(w, ids, provider).1;
      var rows' := Isolate(w, ids, caps, provider, depth).store.rows;
      reply.Refused? && (depth >= 5 || Classify(reply.error) == Unknown) ==>
        forall id :: id in ids ==> id in rows' && HeldBack(Classify(reply.error), w.store.rows[id], rows'[id])
  {
    hide IsOversized, IsTransient, IsNonRetryable, SplitSingle, CallEmbed, TextsOf;
    var (sent, reply) := Sent(w, ids, provider);
    SentFrame(w, ids, provider);
    IsolateStep(w, ids, caps, provider, depth);
  }

  /** A provider that never refuses three requests in a row transiently never costs a chunk an attempt that way. */
  lemma HiccupsAreMasked(provider: Provider, clock: nat, texts: seq<Text>)
    requires exists n: nat :: clock <= n < clock + 3 && !TransientAt(provider, n, texts)
    ensures var (reply, _) := CallEmbed(provider, clock, texts, 1);
      !(reply.Refused? && IsTransient(reply.error))
  {
    hide IsTransient;
  }
}
