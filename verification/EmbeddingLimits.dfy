/**
  Loading a batch, splitting what is over the provider's input limit, and loading again: when every chunk of what is
  then sent is within the limit.
 */
module EmbeddingLimits {
  import opened Wrappers
  import opened Sequences
  import opened Tokens
  import opened EmbeddingStore
  import Chunking

  /** The recorded token count of every chunk is the estimate of its text, as the chunker and every split leave it. */
  predicate Counted(rows: Rows) {
    forall k :: k in rows ==> rows[k].tokenCount == EstimateTokens(rows[k].text)
  }

  predicate OverLimit(c: Chunk, caps: Caps) {
    c.tokenCount > caps.maxInput || EstimateTokens(c.text) > caps.maxInput
  }

  predicate AnyOver(rows: Rows, ids: seq<Id>, caps: Caps) {
    exists id :: id in ids && id in rows && OverLimit(rows[id], caps)
  }

  /** What `_load_pending_batch` returns: the open chunks of lowest index, at most `size` of them. */
  ghost predicate IsLoaded(rows: Rows, size: nat, ids: seq<Id>) {
    && Distinct(ids) && |ids| <= size
    && (forall id :: id in ids ==> id in rows && Open(rows[id]))
    && (forall i, j :: 0 <= i < j < |ids| ==> rows[ids[i]].index <= rows[ids[j]].index)
    && (forall k, i :: k in rows && Open(rows[k]) && k !in ids && 0 <= i < |ids| ==> rows[ids[i]].index <= rows[k].index)
    && (|ids| == size || forall k :: k in rows && Open(rows[k]) ==> k in ids)
  }

  /** The loop of `_ensure_token_safe`: split each chunk that is over the limit. */
  function SplitOver(s: Store, ids: seq<Id>, caps: Caps): Store {
    if ids == [] then s else
      var before, id := SplitOver(s, ids[..|ids| - 1], caps), ids[|ids| - 1];
      if id in before.rows && OverLimit(before.rows[id], caps) then SplitSingle(before, id, caps) else before
  }

  /** One turn of the job up to sending: load, split what is over the limit, and load again after any split. */
  ghost predicate Turn(s: Store, caps: Caps, s': Store, sent: seq<Id>) {
    exists batch :: TurnWith(s, caps, batch, s', sent)
  }

  ghost predicate TurnWith(s: Store, caps: Caps, batch: seq<Id>, s': Store, sent: seq<Id>) {
    && IsLoaded(s.rows, caps.batchSize, batch) && s' == SplitOver(s, batch, caps)
    && if AnyOver(s.rows, batch, caps) then IsLoaded(s'.rows, caps.batchSize, sent) else sent == batch
  }

  // ---------------------------------------------------------------- splitting under a limit of at least 32

  /** From a limit of 32 on, a chunk over it is always cut, and every piece is within it. */
  lemma OverLimitIsCut(c: Chunk, caps: Caps)
    requires caps.maxInput >= 32 && EstimateTokens(c.text) > caps.maxInput
    ensures var drafts := DraftsFor(c, caps);
      && |drafts| >= 2
      && forall i :: 0 <= i < |drafts| ==> drafts[i].tokenCount == EstimateTokens(drafts[i].text) <= caps.maxInput
  {
    hide EstimateTokens;
    assert SaferMax(c.text, caps) <= caps.maxInput;
    Chunking.PieceDraftsFacts(c.text, SaferMax(c.text, caps), c.page, c.pageEnd, c.index);
  }

  /** Counts stay right through every split, whatever the limit. */
  lemma SplitKeepsCounted(s: Store, id: Id, caps: Caps)
    requires ValidStore(s) && id in s.rows && Counted(s.rows)
    ensures Counted(SplitSingle(s, id, caps).rows)
  {
    var drafts := DraftsFor(s.rows[id], caps);
    Chunking.PieceDraftsFacts(s.rows[id].text, SaferMax(s.rows[id].text, caps), s.rows[id].page, s.rows[id].pageEnd, s.rows[id].index);
    hide DraftsFor, EstimateTokens, AddSiblings;
    if |drafts| >= 2 {
      SplitRows(s, id, caps);
      hide SplitSingle;
    }
  }

  lemma {:induction false} SplitOverKeepsCounted(s: Store, ids: seq<Id>, caps: Caps)
    requires ValidStore(s) && Counted(s.rows)
    ensures ValidStore(SplitOver(s, ids, caps)) && Counted(SplitOver(s, ids, caps).rows)
  {
    hide SplitSingle, Counted;
    if ids != [] {
      var before, id := SplitOver(s, ids[..|ids| - 1], caps), ids[|ids| - 1];
      SplitOverKeepsCounted(s, ids[..|ids| - 1], caps);
      if id in before.rows {
        SplitFrame(before, id, caps);
        SplitKeepsCounted(before, id, caps);
      }
    }
  }

  lemma SplitOverNext(s: Store, ids: seq<Id>, i: nat, caps: Caps)
    requires i < |ids|
    ensures var before := SplitOver(s, ids[..i], caps);
      SplitOver(s, ids[..i + 1], caps) ==
        if ids[i] in before.rows && OverLimit(before.rows[ids[i]], caps) then SplitSingle(before, ids[i], caps) else before
  {
    hide SplitSingle;
    assert ids[..i + 1][..i] == ids[..i];
  }

  lemma AnyOverNext(rows: Rows, ids: seq<Id>, i: nat, caps: Caps)
    requires i < |ids|
    ensures AnyOver(rows, ids[..i + 1], caps) <==>
      AnyOver(rows, ids[..i], caps) || (ids[i] in rows && OverLimit(rows[ids[i]], caps))
  {
    hide OverLimit;
    assert ids[..i + 1] == ids[..i] + [ids[i]];
  }

  /** The batch and every row added since it was loaded. */
  predicate Member(k: Id, batch: seq<Id>, base: Id) {
    k in batch || k >= base
  }

  /**
    Half way through the loop: the first `i` chunks of the batch and their new siblings are open and within the limit,
    the rest is as it was, and every open chunk outside stands behind all of them.
   */
  ghost predicate Splitting(s0: Store, s: Store, batch: seq<Id>, i: nat, caps: Caps)
    requires i <= |batch|
  {
    && ValidStore(s) && Counted(s.rows)
    && (forall k :: k in s0.rows ==> k in s.rows)
    && (forall k :: k in s0.rows && k !in batch[..i] ==> SameButIndex(s0.rows[k], s.rows[k]))
    && (forall k :: k in s.rows && k !in s0.rows ==> k >= s0.nextId)
    && (forall k :: k in s.rows && (k in batch[..i] || k >= s0.nextId) ==> Open(s.rows[k]) && !OverLimit(s.rows[k], caps))
    && Front(s.rows, batch, s0.nextId)
  }

  ghost predicate Front(rows: Rows, batch: seq<Id>, base: Id) {
    forall m, j :: m in rows && j in rows && Member(m, batch, base) && !Member(j, batch, base) && Open(rows[j]) ==>
      rows[m].index < rows[j].index
  }

  lemma DistinctIndexes(rows: Rows, words: Text, a: Id, b: Id)
    requires Reads(rows, words) && a in rows && b in rows && rows[a].index == rows[b].index
    ensures a == b
  {
    hide Flatten, TextsOf;
    var order :| Ordered(rows, order) && Flatten(TextsOf(rows, order)) == words;
    assert order[rows[a].index] == a && order[rows[b].index] == b;
  }

  lemma SplittingStart(s: Store, batch: seq<Id>, caps: Caps, words: Text)
    requires ValidStore(s) && Counted(s.rows) && Reads(s.rows, words) && IsLoaded(s.rows, caps.batchSize, batch)
    ensures Splitting(s, s, batch, 0, caps)
  {
    hide Reads, EstimateTokens;
    forall m, j | m in s.rows && j in s.rows && Member(m, batch, s.nextId) && !Member(j, batch, s.nextId) && Open(s.rows[j])
      ensures s.rows[m].index < s.rows[j].index
    {
      var i :| 0 <= i < |batch| && batch[i] == m;
      assert s.rows[batch[i]].index <= s.rows[j].index;
      if s.rows[m].index == s.rows[j].index {
        DistinctIndexes(s.rows, words, m, j);
      }
    }
  }

  lemma FrontAfterSplit(rows: Rows, rows': Rows, id: Id, drafts: seq<Chunking.Draft>, next: Id, batch: seq<Id>, base: Id)
    requires IsSplit(rows, rows', id, drafts, next) && Front(rows, batch, base) && Member(id, batch, base) && base <= next
    ensures Front(rows', batch, base)
  {
    forall m, j | m in rows' && j in rows' && Member(m, batch, base) && !Member(j, batch, base) && Open(rows'[j])
      ensures rows'[m].index < rows'[j].index
    {
      assert j in rows && j != id;
      assert rows[id].index < rows[j].index;
      if m in rows {
        assert rows[m].index < rows[j].index;
      }
    }
  }

  /** After a split a row is an old one, moved at most, or a piece: open and within the limit. */
  lemma PiecesWithin(rows: Rows, rows': Rows, id: Id, drafts: seq<Chunking.Draft>, next: Id, caps: Caps, k: Id)
    requires IsSplit(rows, rows', id, drafts, next) && k in rows'
    requires forall i :: 0 <= i < |drafts| ==> drafts[i].tokenCount == EstimateTokens(drafts[i].text) <= caps.maxInput
    ensures if k in rows && k != id then SameButIndex(rows[k], rows'[k])
      else (k == id || k >= next) && Open(rows'[k]) && !OverLimit(rows'[k], caps)
  {
    hide EstimateTokens;
  }

  /** What a split of `id` does to the rows, seen from the outside. */
  ghost predicate Cut(rows: Rows, rows': Rows, id: Id, next: Id, caps: Caps) {
    && (forall k :: k in rows ==> k in rows')
    && (forall k :: k in rows && k != id ==> SameButIndex(rows[k], rows'[k]))
    && (forall k :: k in rows' && (k !in rows || k == id) ==>
      (k == id || k >= next) && Open(rows'[k]) && !OverLimit(rows'[k], caps))
  }

  lemma SplitIsCut(rows: Rows, rows': Rows, id: Id, drafts: seq<Chunking.Draft>, next: Id, caps: Caps)
    requires IsSplit(rows, rows', id, drafts, next)
    requires forall i :: 0 <= i < |drafts| ==> drafts[i].tokenCount == EstimateTokens(drafts[i].text) <= caps.maxInput
    ensures Cut(rows, rows', id, next, caps)
  {
    assert forall k :: k in rows ==> k in rows';
    forall k | k in rows'
      ensures if k in rows && k != id then SameButIndex(rows[k], rows'[k])
        else (k == id || k >= next) && Open(rows'[k]) && !OverLimit(rows'[k], caps)
    {
      PiecesWithin(rows, rows', id, drafts, next, caps, k);
    }
  }

  lemma StepSplits(s0: Store, s: Store, s': Store, batch: seq<Id>, i: nat, caps: Caps)
    requires ValidStore(s0) && s0.nextId <= s.nextId && i < |batch|
    requires batch[i] in s0.rows && Splitting(s0, s, batch, i, caps)
    requires Cut(s.rows, s'.rows, batch[i], s.nextId, caps) && ValidStore(s') && Counted(s'.rows)
    requires Front(s'.rows, batch, s0.nextId)
    ensures Splitting(s0, s', batch, i + 1, caps)
  {
    var id := batch[i];
    assert batch[..i + 1] == batch[..i] + [id];
    hide Front, Counted, OverLimit;
    forall k | k in s0.rows && k !in batch[..i + 1]
      ensures SameButIndex(s0.rows[k], s'.rows[k])
    {
      assert SameButIndex(s0.rows[k], s.rows[k]) && SameButIndex(s.rows[k], s'.rows[k]);
    }
    forall k | k in s'.rows && (k in batch[..i + 1] || k >= s0.nextId)
      ensures Open(s'.rows[k]) && !OverLimit(s'.rows[k], caps)
    {
      if k in s.rows && k != id {
        assert k in batch[..i] || k >= s0.nextId;
        assert SameButIndex(s.rows[k], s'.rows[k]);
        SameLimit(s.rows[k], s'.rows[k], caps);
      }
    }
  }

  lemma SameLimit(c: Chunk, c': Chunk, caps: Caps)
    requires SameButIndex(c, c')
    ensures OverLimit(c, caps) <==> OverLimit(c', caps)
  {
  }

  lemma SplittingStep(s0: Store, s: Store, batch: seq<Id>, i: nat, caps: Caps)
    requires caps.maxInput >= 32 && ValidStore(s0) && s0.nextId <= s.nextId && Distinct(batch) && i < |batch|
    requires batch[i] in s0.rows && Open(s0.rows[batch[i]]) && Splitting(s0, s, batch, i, caps)
    ensures batch[i] in s.rows
    ensures var s' := if OverLimit(s.rows[batch[i]], caps) then SplitSingle(s, batch[i], caps) else s;
      Splitting(s0, s', batch, i + 1, caps) && s0.nextId <= s'.nextId
  {
    var id := batch[i];
    hide EstimateTokens, Front;
    StillOpen(s0, s, batch, i, caps);
    if OverLimit(s.rows[id], caps) {
      OverLimitIsCut(s.rows[id], caps);
      SplitKeepsCounted(s, id, caps);
      SplitRows(s, id, caps);
      var drafts, s' := DraftsFor(s.rows[id], caps), SplitSingle(s, id, caps);
      SplitFrame(s, id, caps);
      FrontKept(s0, s, batch, i, caps);
      hide Splitting, DraftsFor, SplitSingle, IsSplit, Cut;
      FrontAfterSplit(s.rows, s'.rows, id, drafts, s.nextId, batch, s0.nextId);
      SplitIsCut(s.rows, s'.rows, id, drafts, s.nextId, caps);
      StepSplits(s0, s, s', batch, i, caps);
    } else {
      assert batch[..i + 1] == batch[..i] + [id];
    }
  }

  lemma FrontKept(s0: Store, s: Store, batch: seq<Id>, i: nat, caps: Caps)
    requires i <= |batch| && Splitting(s0, s, batch, i, caps)
    ensures Front(s.rows, batch, s0.nextId)
  {
  }

  lemma StillOpen(s0: Store, s: Store, batch: seq<Id>, i: nat, caps: Caps)
    requires i < |batch| && Splitting(s0, s, batch, i, caps) && Distinct(batch) && batch[i] in s0.rows && Open(s0.rows[batch[i]])
    ensures batch[i] in s.rows && Open(s.rows[batch[i]]) && SameButIndex(s0.rows[batch[i]], s.rows[batch[i]])
    ensures s.rows[batch[i]].tokenCount == EstimateTokens(s.rows[batch[i]].text) && ValidStore(s)
  {
    assert batch[i] !in batch[..i];
  }

  /** The whole loop. */
  lemma {:induction false} SplittingEnds(s: Store, batch: seq<Id>, i: nat, caps: Caps, words: Text)
    requires caps.maxInput >= 32 && ValidStore(s) && Counted(s.rows) && Reads(s.rows, words)
    requires IsLoaded(s.rows, caps.batchSize, batch) && i <= |batch|
    ensures Splitting(s, SplitOver(s, batch[..i], caps), batch, i, caps)
    ensures s.nextId <= SplitOver(s, batch[..i], caps).nextId
  {
    hide Splitting, Counted, SplitSingle, Reads;
    if i == 0 {
      SplittingStart(s, batch, caps, words);
    } else {
      SplittingEnds(s, batch, i - 1, caps, words);
      assert batch[..i][..i - 1] == batch[..i - 1];
      SplittingStep(s, SplitOver(s, batch[..i - 1], caps), batch, i - 1, caps);
    }
  }

  /** An open chunk from outside is only loaded after the whole batch. */
  lemma BatchComesFirst(rows: Rows, batch: seq<Id>, base: Id, size: nat, sent: seq<Id>, j: Id)
    requires Distinct(batch) && Front(rows, batch, base) && forall m :: m in batch ==> m in rows && Open(rows[m])
    requires IsLoaded(rows, size, sent) && j in sent && !Member(j, batch, base)
    ensures |batch| < size
  {
    forall m | m in batch
      ensures m in sent
    {
      assert rows[m].index < rows[j].index;
      if m !in sent {
        LoadedLowest(rows, size, sent, j, m);
      }
    }
    assert j in Elements(sent) && j !in Elements(batch);
    assert Elements(batch) <= Elements(sent);
    SmallerSet(Elements(batch), Elements(sent));
    DistinctCount(batch);
    DistinctCount(sent);
  }

  lemma LoadedLowest(rows: Rows, size: nat, sent: seq<Id>, j: Id, m: Id)
    requires IsLoaded(rows, size, sent) && j in sent && m in rows && Open(rows[m]) && m !in sent
    ensures rows[j].index <= rows[m].index
  {
    var p :| 0 <= p < |sent| && sent[p] == j;
    assert rows[sent[p]].index <= rows[m].index;
  }

  lemma MembersOpen(s0: Store, s: Store, batch: seq<Id>, caps: Caps)
    requires Splitting(s0, s, batch, |batch|, caps) && forall m :: m in batch ==> m in s0.rows
    ensures forall m :: m in batch ==> m in s.rows && Open(s.rows[m])
    ensures forall k :: k in s.rows && Member(k, batch, s0.nextId) ==> !OverLimit(s.rows[k], caps)
    ensures forall k :: k in s.rows && !Member(k, batch, s0.nextId) ==> k in s0.rows && SameButIndex(s0.rows[k], s.rows[k])
  {
    assert batch[..|batch|] == batch;
  }

  /** The second load finds only chunks of the first batch and their pieces. */
  lemma ReloadStaysInside(s0: Store, s: Store, batch: seq<Id>, caps: Caps, sent: seq<Id>, j: Id)
    requires ValidStore(s0) && IsLoaded(s0.rows, caps.batchSize, batch) && Splitting(s0, s, batch, |batch|, caps)
    requires IsLoaded(s.rows, caps.batchSize, sent) && j in sent
    ensures Member(j, batch, s0.nextId)
  {
    MembersOpen(s0, s, batch, caps);
    FrontKept(s0, s, batch, |batch|, caps);
    hide EstimateTokens, Counted, Splitting, Front;
    if !Member(j, batch, s0.nextId) {
      BatchComesFirst(s.rows, batch, s0.nextId, caps.batchSize, sent, j);
    }
  }

  lemma SmallerSet(a: set<Id>, b: set<Id>)
    requires a < b
    ensures |a| < |b|
  {
    assert b == a + (b - a);
  }

  ghost predicate AllWithin(rows: Rows, ids: seq<Id>, caps: Caps) {
    forall id :: id in ids && id in rows ==> !OverLimit(rows[id], caps)
  }

  /** From a limit of 32 on, whatever is sent is within it, and no chunk was given up on the way. */
  lemma SentIsWithin(s: Store, caps: Caps, batch: seq<Id>, s': Store, sent: seq<Id>, words: Text)
    requires caps.maxInput >= 32 && ValidStore(s) && Counted(s.rows) && Reads(s.rows, words)
    requires TurnWith(s, caps, batch, s', sent)
    ensures AllWithin(s'.rows, sent, caps) && Counted(s'.rows) && ValidStore(s')
    ensures forall k :: k in s'.rows && !Open(s'.rows[k]) ==> k in s.rows && SameButIndex(s.rows[k], s'.rows[k])
  {
    hide Reads, EstimateTokens, SplitSingle;
    SplittingEnds(s, batch, |batch|, caps, words);
    assert batch[..|batch|] == batch;
    if AnyOver(s.rows, batch, caps) {
      MembersOpen(s, s', batch, caps);
      hide Counted, Splitting;
      forall id | id in sent
        ensures !OverLimit(s'.rows[id], caps)
      {
        ReloadStaysInside(s, s', batch, caps, sent, id);
      }
    } else {
      NothingOver(s, batch, |batch|, caps);
    }
  }

  lemma {:induction false} NothingOver(s: Store, batch: seq<Id>, i: nat, caps: Caps)
    requires !AnyOver(s.rows, batch, caps) && i <= |batch|
    ensures SplitOver(s, batch[..i], caps) == s
  {
    hide SplitSingle;
    if i > 0 {
      NothingOver(s, batch, i - 1, caps);
      assert batch[..i][..i - 1] == batch[..i - 1];
      assert batch[i - 1] in batch;
    }
  }

  // ---------------------------------------------------------------- below 32

  function UncutWord(i: nat): Word {
    ""
  }

  function LongText(): Text {
    seq(25, UncutWord)
  }

  /** Two chunks of 25 words, 32 tokens each. */
  function LongRows(): Rows {
    map[0 := Chunk(0, LongText(), 32, 0, 0, Pending, 0, None), 1 := Chunk(1, LongText(), 32, 0, 0, Pending, 0, None)]
  }

  function SmallCaps(maxInput: nat): Caps {
    Caps(maxInput, maxInput, 1, 64)
  }

  /** Caps with that limit, as the settings of a provider may give them. */
  predicate Allowed(caps: Caps, maxInput: nat) {
    caps.maxInput == maxInput && 1 <= caps.recommended <= maxInput && caps.batchSize >= 1
  }

  ghost predicate Sound(s: Store) {
    ValidStore(s) && Counted(s.rows) && exists words :: Reads(s.rows, words)
  }

  lemma LongTextIsNotCut(maxInput: nat)
    requires 1 <= maxInput < 32
    ensures EstimateTokens(LongText()) == 32
    ensures |DraftsFor(LongRows()[0], SmallCaps(maxInput))| <= 1
  {
    assert |LongText()| == 25;
    assert SaferMax(LongText(), SmallCaps(maxInput)) == 32;
    Chunking.PieceDraftsFacts(LongText(), 32, 0, 0, 0);
  }

  lemma LongStoreIsSound()
    ensures Sound(Store(LongRows(), 2))
  {
    assert |LongText()| == 25;
    var rows, order: seq<Id> := LongRows(), [0, 1];
    assert Ordered(rows, order);
    assert Reads(rows, Flatten(TextsOf(rows, order)));
  }

  lemma LongLoads(rows: Rows, sent: seq<Id>, id: Id)
    requires sent == [id] && id in rows && Open(rows[id])
    requires forall k :: k in rows && Open(rows[k]) ==> rows[id].index <= rows[k].index
    ensures IsLoaded(rows, 1, sent)
  {
  }

  /** Below 32 the bound for pieces stays at 32, so a chunk of 32 tokens is given up and the next one is sent unchecked. */
  lemma SmallLimitFails(maxInput: nat)
    requires 1 <= maxInput < 32
    ensures var s, caps := Store(LongRows(), 2), SmallCaps(maxInput);
      && Sound(s) && Allowed(caps, maxInput)
      && exists s' :: Turn(s, caps, s', [1]) && !AllWithin(s'.rows, [1], caps)
  {
    var s, caps := Store(LongRows(), 2), SmallCaps(maxInput);
    LongStoreIsSound();
    LongTextIsNotCut(maxInput);
    hide LongText, EstimateTokens, DraftsFor, Sound, IsLoaded;
    var batch, sent: seq<Id> := [0], [1];
    assert OverLimit(s.rows[0], caps) && AnyOver(s.rows, batch, caps);
    var s' := SplitOver(s, batch, caps);
    assert batch[..|batch| - 1] == [] && SplitOver(s, [], caps) == s;
    assert s' == SplitSingle(s, 0, caps);
    assert s'.rows == s.rows[0 := GiveUp(s.rows[0])];
    LongLoads(s.rows, batch, 0);
    LongLoads(s'.rows, sent, 1);
    assert TurnWith(s, caps, batch, s', sent);
    assert OverLimit(s'.rows[1], caps) && 1 in sent;
  }

  /** Every batch sent is within the limit, for every sound store and all allowed settings with that limit. */
  ghost predicate SendsWithin(maxInput: nat) {
    forall s, caps, s', sent :: Sound(s) && Allowed(caps, maxInput) && Turn(s, caps, s', sent) ==> AllWithin(s'.rows, sent, caps)
  }

  /** The promise to check the limit before sending is kept exactly by the limits of at least 32 tokens. */
  lemma WithinIffAtLeast32(maxInput: nat)
    requires maxInput >= 1
    ensures SendsWithin(maxInput) <==> maxInput >= 32
  {
    hide AllWithin, TurnWith, Counted, Reads;
    if maxInput < 32 {
      SmallLimitFails(maxInput);
    } else {
      forall s, caps, s', sent | Sound(s) && Allowed(caps, maxInput) && Turn(s, caps, s', sent)
        ensures AllWithin(s'.rows, sent, caps)
      {
        var words :| Reads(s.rows, words);
        var batch :| TurnWith(s, caps, batch, s', sent);
        SentIsWithin(s, caps, batch, s', sent, words);
      }
    }
  }
}
