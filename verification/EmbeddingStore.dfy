/**
  The chunk rows of one document, as the embedding pipeline reads and writes them, and what
  each write does to three things: the layout (indexes and words), the statuses, and the work
  that is left.
 */
module EmbeddingStore {
  import opened Wrappers
  import opened Sequences
  import opened Tokens
  import Chunking

  type Id = nat
  type Vector = seq<real>

  datatype Status = Pending | Embedding | Embedded | Failed

  datatype Chunk = Chunk(
    index: nat, text: Text, tokenCount: nat, page: int, pageEnd: int,
    status: Status, attempts: nat, vector: Option<Vector>)

  type Rows = map<Id, Chunk>

  datatype Store = Store(rows: Rows, nextId: Id)

  datatype Caps = Caps(maxInput: nat, recommended: nat, batchSize: nat, jobBatchBudget: nat)

  const MaxAttempts: nat := 3

  predicate Open(c: Chunk) {
    c.status == Pending || c.status == Embedding
  }

  /** A vector is stored exactly for embedded chunks. */
  predicate Consistent(c: Chunk) {
    c.status == Embedded <==> c.vector.Some?
  }

  ghost predicate ValidStore(s: Store) {
    forall id :: id in s.rows ==> id < s.nextId
  }

  /** A batch that may be sent: known, distinct, open rows. */
  ghost predicate Ready(s: Store, ids: seq<Id>) {
    && ValidStore(s)
    && Distinct(ids)
    && (forall id :: id in ids ==> id in s.rows && Open(s.rows[id]))
  }

  // ---------------------------------------------------------------- writes

  function TextsOf(rows: Rows, ids: seq<Id>): seq<Text> {
    seq(|ids|, i requires 0 <= i < |ids| => if ids[i] in rows then rows[ids[i]].text else [])
  }

  function SetEmbedding(s: Store, ids: seq<Id>): Store {
    s.(rows := map k | k in s.rows :: if k in ids then s.rows[k].(status := Embedding) else s.rows[k])
  }

  /** One failed attempt: given up when forced or exhausted, else left for a later batch. */
  function FailOnce(c: Chunk, force: bool): Chunk {
    c.(attempts := c.attempts + 1,
       status := if force || c.attempts + 1 >= MaxAttempts then Failed else Pending)
  }

  function MarkFailed(s: Store, ids: seq<Id>, force: bool): Store {
    s.(rows := map k | k in s.rows :: if k in ids then FailOnce(s.rows[k], force) else s.rows[k])
  }

  function Store1(c: Chunk, v: Vector): Chunk {
    c.(vector := Some(v), status := Embedded, attempts := c.attempts + 1)
  }

  function IndexOf(ids: seq<Id>, id: Id): (i: nat)
    requires id in ids
    ensures i < |ids| && ids[i] == id
  {
    if ids[0] == id then 0 else 1 + IndexOf(ids[1..], id)
  }

  /** Each chunk of the batch receives the vector at its own position. */
  function MarkEmbedded(s: Store, ids: seq<Id>, vs: seq<Vector>): Store
    requires |vs| == |ids|
  {
    s.(rows := map k | k in s.rows :: if k in ids then Store1(s.rows[k], vs[IndexOf(ids, k)]) else s.rows[k])
  }

  /** The bound for cutting a rejected chunk: about half its size, at least 32 tokens. */
  function SaferMax(text: Text, caps: Caps): (bound: nat)
    ensures bound >= 32
  {
    var maxTokens := Min(caps.recommended, caps.maxInput);
    var halved := if EstimateTokens(text) > maxTokens then Max(64, maxTokens / 2) else Max(64, EstimateTokens(text) / 2);
    Max(32, Min(halved, maxTokens))
  }

  function DraftsFor(c: Chunk, caps: Caps): seq<Chunking.Draft> {
    Chunking.PieceDrafts(c.text, SaferMax(c.text, caps), c.page, c.pageEnd, c.index)
  }

  function Shift(rows: Rows, after: nat, extra: nat): Rows {
    map k | k in rows :: if rows[k].index > after then rows[k].(index := rows[k].index + extra) else rows[k]
  }

  function Shrunk(c: Chunk, first: Chunking.Draft): Chunk {
    c.(text := first.text, tokenCount := first.tokenCount, page := first.page, pageEnd := first.pageEnd,
       status := Pending, vector := None, attempts := c.attempts + 1)
  }

  function Sibling(draft: Chunking.Draft, index: nat): Chunk {
    Chunk(index, draft.text, draft.tokenCount, draft.page, draft.pageEnd, Pending, 0, None)
  }

  /** The rows with the first `n` siblings of a split added under fresh ids. */
  function AddSiblings(rows: Rows, drafts: seq<Chunking.Draft>, base: Id, index: nat, n: nat): Rows
    requires n < |drafts|
  {
    if n == 0 then rows
    else AddSiblings(rows, drafts, base, index, n - 1)[base + n - 1 := Sibling(drafts[n], index + n)]
  }

  function GiveUp(c: Chunk): Chunk {
    c.(status := Failed, attempts := c.attempts + 1)
  }

  /** Replace an oversized chunk by smaller siblings, or give it up when it cannot be cut. */
  function SplitSingle(s: Store, id: Id, caps: Caps): Store {
    if id !in s.rows then s else
      var c := s.rows[id];
      var drafts := DraftsFor(c, caps);
      if |drafts| <= 1 then s.(rows := s.rows[id := GiveUp(c)])
      else
        var extra := |drafts| - 1;
        var shrunk := Shift(s.rows, c.index, extra)[id := Shrunk(c, drafts[0])];
        Store(AddSiblings(shrunk, drafts, s.nextId, c.index, extra), s.nextId + extra)
  }

  lemma {:induction false} AddSiblingsRows(rows: Rows, drafts: seq<Chunking.Draft>, base: Id, index: nat, n: nat)
    requires n < |drafts| && forall k :: k in rows ==> k < base
    ensures var rows' := AddSiblings(rows, drafts, base, index, n);
      && (forall k :: k in rows' <==> k in rows || base <= k < base + n)
      && (forall k :: k in rows ==> rows'[k] == rows[k])
      && (forall k :: base <= k < base + n ==> rows'[k] == Sibling(drafts[k - base + 1], index + (k - base + 1)))
  {
    if n > 0 {
      AddSiblingsRows(rows, drafts, base, index, n - 1);
    }
  }

  /** Row by row, what replacing `id` by `drafts` leaves; siblings take ids from `base` on. */
  ghost predicate IsSplit(rows: Rows, rows': Rows, id: Id, drafts: seq<Chunking.Draft>, base: Id) {
    && id in rows && |drafts| >= 2
    && (forall k :: k in rows ==> k < base)
    && (forall k :: k in rows' <==> k in rows || base <= k < base + |drafts| - 1)
    && (forall k :: k in rows && k != id ==>
      rows'[k] == if rows[k].index > rows[id].index then rows[k].(index := rows[k].index + |drafts| - 1) else rows[k])
    && rows'[id] == Shrunk(rows[id], drafts[0])
    && (forall k :: base <= k < base + |drafts| - 1 ==>
      rows'[k] == Sibling(drafts[k - base + 1], rows[id].index + (k - base + 1)))
  }

  lemma SplitRows(s: Store, id: Id, caps: Caps)
    requires ValidStore(s) && id in s.rows && |DraftsFor(s.rows[id], caps)| >= 2
    ensures var drafts, s' := DraftsFor(s.rows[id], caps), SplitSingle(s, id, caps);
      IsSplit(s.rows, s'.rows, id, drafts, s.nextId) && s'.nextId == s.nextId + |drafts| - 1
  {
    hide DraftsFor, AddSiblings;
    var c, drafts := s.rows[id], DraftsFor(s.rows[id], caps);
    var shrunk := Shift(s.rows, c.index, |drafts| - 1)[id := Shrunk(c, drafts[0])];
    assert shrunk.Keys == s.rows.Keys;
    AddSiblingsRows(shrunk, drafts, s.nextId, c.index, |drafts| - 1);
    assert SplitSingle(s, id, caps).rows == AddSiblings(shrunk, drafts, s.nextId, c.index, |drafts| - 1);
  }

  lemma {:induction false} IndexOfDistinct(ids: seq<Id>, i: nat)
    requires Distinct(ids) && i < |ids|
    ensures IndexOf(ids, ids[i]) == i
  {
    if i > 0 {
      assert ids[0] != ids[i];
      IndexOfDistinct(ids[1..], i - 1);
    }
  }

  // ---------------------------------------------------------------- frame

  ghost predicate SameButIndex(a: Chunk, b: Chunk) {
    b == a.(index := b.index)
  }

  /** Only the rows of the batch change, apart from index shifts; new rows are untouched siblings. */
  ghost predicate Framed(s: Store, s': Store, ids: seq<Id>) {
    && ValidStore(s')
    && s.nextId <= s'.nextId
    && (forall k :: k in s.rows ==> k in s'.rows)
    && (forall k :: k in s.rows && k !in ids ==> SameButIndex(s.rows[k], s'.rows[k]))
    && (forall k :: k in s'.rows && k !in s.rows ==>
      s'.rows[k].status == Pending && s'.rows[k].vector == None && k >= s.nextId)
  }

  /** The batch is done with: no row is left in flight, and vectors still match statuses. */
  ghost predicate Settles(s: Store, s': Store, ids: seq<Id>) {
    forall id :: id in ids && id in s.rows && id in s'.rows ==>
      s'.rows[id].status != Embedding && (Consistent(s.rows[id]) ==> Consistent(s'.rows[id]))
  }

  lemma FramedCompose(s: Store, s1: Store, s2: Store, a: seq<Id>, b: seq<Id>)
    requires Framed(s, s1, a) && Framed(s1, s2, b)
    requires ValidStore(s) && forall id :: id in b ==> id in s.rows
    ensures Framed(s, s2, a + b)
  {
    forall k | k in s2.rows && k !in s.rows
      ensures s2.rows[k].status == Pending && s2.rows[k].vector == None && k >= s.nextId
    {
      if k in s1.rows {
        assert SameButIndex(s1.rows[k], s2.rows[k]);
      }
    }
    forall k | k in s.rows && k !in a + b
      ensures SameButIndex(s.rows[k], s2.rows[k])
    {
      assert k !in a && k !in b;
      assert SameButIndex(s.rows[k], s1.rows[k]) && SameButIndex(s1.rows[k], s2.rows[k]);
    }
  }

  lemma SettlesCompose(s: Store, s1: Store, s2: Store, a: seq<Id>, b: seq<Id>)
    requires Framed(s, s1, a) && Framed(s1, s2, b) && Settles(s, s1, a) && Settles(s1, s2, b)
    requires Ready(s, a + b)
    ensures Settles(s, s2, a + b)
  {
    forall id | id in a + b
      ensures s2.rows[id].status != Embedding && (Consistent(s.rows[id]) ==> Consistent(s2.rows[id]))
    {
      if id in b {
        DisjointHalves(a, b, id);
        assert SameButIndex(s.rows[id], s1.rows[id]);
      } else {
        assert SameButIndex(s1.rows[id], s2.rows[id]);
      }
    }
  }

  lemma DisjointHalves(a: seq<Id>, b: seq<Id>, id: Id)
    requires Distinct(a + b) && id in b
    ensures id !in a
  {
    var j :| 0 <= j < |b| && b[j] == id;
    forall i | 0 <= i < |a|
      ensures a[i] != id
    {
      assert (a + b)[i] != (a + b)[|a| + j];
    }
  }

  lemma ReadyHalves(s: Store, a: seq<Id>, b: seq<Id>)
    requires Ready(s, a + b)
    ensures Ready(s, a) && Ready(s, b)
  {
    assert a == (a + b)[..|a|] && b == (a + b)[|a|..];
  }

  /** The first half done, the second half is still ready to be sent. */
  lemma ReadyRest(s: Store, s1: Store, a: seq<Id>, b: seq<Id>)
    requires Ready(s, a + b) && Framed(s, s1, a)
    ensures Ready(s1, b)
    ensures forall id :: id in b ==> id !in a && SameButIndex(s.rows[id], s1.rows[id])
  {
    ReadyHalves(s, a, b);
    forall id | id in b
      ensures id !in a && id in s.rows && id in s1.rows && SameButIndex(s.rows[id], s1.rows[id])
    {
      assert id in a + b;
      DisjointHalves(a, b, id);
    }
  }

  lemma SplitFrame(s: Store, id: Id, caps: Caps)
    requires ValidStore(s) && id in s.rows
    ensures Framed(s, SplitSingle(s, id, caps), [id])
    ensures SplitSingle(s, id, caps).rows[id].status in {Pending, Failed}
    ensures SplitSingle(s, id, caps).rows[id].vector in {None, s.rows[id].vector}
  {
    var s' := SplitSingle(s, id, caps);
    if |DraftsFor(s.rows[id], caps)| >= 2 {
      SplitRows(s, id, caps);
      hide DraftsFor, SplitSingle;
      assert Framed(s, s', [id]);
    } else {
      hide DraftsFor, AddSiblings;
      assert Framed(s, s', [id]);
    }
  }

  // ---------------------------------------------------------------- layout

  /** `order` lists all rows, each at the position its index names. */
  ghost predicate Ordered(rows: Rows, order: seq<Id>) {
    && (forall i :: 0 <= i < |order| ==> order[i] in rows && rows[order[i]].index == i)
    && (forall id :: id in rows ==> rows[id].index < |order| && order[rows[id].index] == id)
  }

  /** Indexes are exactly 0..n-1 without repeats, and the texts in that order spell `words`. */
  ghost predicate Reads(rows: Rows, words: Text) {
    exists order :: Ordered(rows, order) && Flatten(TextsOf(rows, order)) == words
  }

  lemma SameLayout(rows: Rows, rows': Rows, words: Text)
    requires Reads(rows, words)
    requires rows.Keys == rows'.Keys
    requires forall k :: k in rows ==> rows[k].index == rows'[k].index && rows[k].text == rows'[k].text
    ensures Reads(rows', words)
  {
    var order :| Ordered(rows, order) && Flatten(TextsOf(rows, order)) == words;
    assert Ordered(rows', order);
    assert TextsOf(rows', order) == TextsOf(rows, order);
  }

  function FreshIds(base: Id, n: nat): seq<Id> {
    seq(n, i => base + i)
  }

  lemma SplitOrdered(rows: Rows, rows': Rows, id: Id, drafts: seq<Chunking.Draft>, base: Id, order: seq<Id>)
    requires IsSplit(rows, rows', id, drafts, base) && Ordered(rows, order)
    ensures rows[id].index < |order|
    ensures Ordered(rows', order[..rows[id].index + 1] + FreshIds(base, |drafts| - 1) + order[rows[id].index + 1..])
  {
    var p, n := rows[id].index, |drafts| - 1;
    var order' := order[..p + 1] + FreshIds(base, n) + order[p + 1..];
    assert id in rows && |drafts| >= 2;
    hide IsSplit, Ordered, FreshIds;
    OrderBounds(rows, order, id);
    forall i | 0 <= i < |order'|
      ensures order'[i] in rows' && rows'[order'[i]].index == i
    {
      if i <= p {
        assert order'[i] == order[i];
        OldPosition(rows, rows', id, drafts, base, order, i);
      } else if i <= p + n {
        NewPosition(rows, rows', id, drafts, base, i - p - 1);
        assert order'[i] == FreshIds(base, n)[i - p - 1];
      } else {
        assert order'[i] == order[i - n];
        OldPosition(rows, rows', id, drafts, base, order, i - n);
      }
    }
    forall k | k in rows'
      ensures rows'[k].index < |order'| && order'[rows'[k].index] == k
    {
      SplitOrigin(rows, rows', id, drafts, base, k);
      if k in rows {
        OrderBounds(rows, order, k);
        OldPosition(rows, rows', id, drafts, base, order, rows[k].index);
      } else {
        NewPosition(rows, rows', id, drafts, base, k - base);
        assert order'[rows'[k].index] == FreshIds(base, n)[k - base];
      }
    }
    assert Ordered(rows', order') by { OrderedByPositions(rows', order'); }
  }

  lemma OrderedByPositions(rows: Rows, order: seq<Id>)
    requires forall i :: 0 <= i < |order| ==> order[i] in rows && rows[order[i]].index == i
    requires forall k :: k in rows ==> rows[k].index < |order| && order[rows[k].index] == k
    ensures Ordered(rows, order)
  {
  }

  lemma OrderBounds(rows: Rows, order: seq<Id>, id: Id)
    requires Ordered(rows, order) && id in rows
    ensures rows[id].index < |order| && order[rows[id].index] == id
  {
  }

  /** A row that was there moves up exactly when it stood behind the split one. */
  lemma OldPosition(rows: Rows, rows': Rows, id: Id, drafts: seq<Chunking.Draft>, base: Id, order: seq<Id>, i: nat)
    requires IsSplit(rows, rows', id, drafts, base) && Ordered(rows, order) && i < |order|
    ensures order[i] in rows && order[i] in rows'
    ensures rows[order[i]].index == i
    ensures rows'[order[i]].index == if i <= rows[id].index then i else i + |drafts| - 1
  {
    assert order[i] != id ==> i != rows[id].index;
  }

  lemma NewPosition(rows: Rows, rows': Rows, id: Id, drafts: seq<Chunking.Draft>, base: Id, j: nat)
    requires IsSplit(rows, rows', id, drafts, base) && j < |drafts| - 1
    ensures base + j in rows' && base + j !in rows && rows'[base + j].index == rows[id].index + j + 1
    ensures |FreshIds(base, |drafts| - 1)| == |drafts| - 1 && FreshIds(base, |drafts| - 1)[j] == base + j
  {
  }

  lemma SplitOrigin(rows: Rows, rows': Rows, id: Id, drafts: seq<Chunking.Draft>, base: Id, k: Id)
    requires IsSplit(rows, rows', id, drafts, base) && k in rows'
    ensures k in rows || base <= k < base + |drafts| - 1
  {
  }

  lemma SplitTexts(rows: Rows, rows': Rows, id: Id, drafts: seq<Chunking.Draft>, base: Id, order: seq<Id>)
    requires IsSplit(rows, rows', id, drafts, base) && Ordered(rows, order)
    ensures var p := rows[id].index;
      TextsOf(rows', order[..p + 1] + FreshIds(base, |drafts| - 1) + order[p + 1..])
      == TextsOf(rows, order[..p]) + Chunking.ChunkTexts(drafts) + TextsOf(rows, order[p + 1..])
  {
    var p, added := rows[id].index, FreshIds(base, |drafts| - 1);
    var texts := Chunking.ChunkTexts(drafts);
    assert |texts| == |drafts| >= 2;
    hide *;
    OrderBounds(rows, order, id);
    var before, after := order[..p], order[p + 1..];
    OthersKeepTexts(rows, rows', id, drafts, base, order, 0, p);
    OthersKeepTexts(rows, rows', id, drafts, base, order, p + 1, |order|);
    assert order[0..p] == before && order[p + 1..|order|] == after;
    PiecesHaveTexts(rows, rows', id, drafts, base);
    JoinTexts(rows', before, id, added, after);
    assert order[..p + 1] == before + [id];
    assert texts == [texts[0]] + texts[1..];
  }

  lemma JoinTexts(rows: Rows, before: seq<Id>, id: Id, added: seq<Id>, after: seq<Id>)
    ensures TextsOf(rows, before + [id] + added + after)
         == TextsOf(rows, before) + (TextsOf(rows, [id]) + TextsOf(rows, added)) + TextsOf(rows, after)
  {
    hide TextsOf;
    TextsAppend(rows, before, [id]);
    TextsAppend(rows, before + [id], added);
    TextsAppend(rows, before + [id] + added, after);
  }

  lemma OthersKeepTexts(
    rows: Rows, rows': Rows, id: Id, drafts: seq<Chunking.Draft>, base: Id, order: seq<Id>, lo: nat, hi: nat)
    requires IsSplit(rows, rows', id, drafts, base) && Ordered(rows, order) && lo <= hi <= |order|
    requires hi <= rows[id].index || rows[id].index < lo
    ensures TextsOf(rows', order[lo..hi]) == TextsOf(rows, order[lo..hi])
  {
    forall i | lo <= i < hi
      ensures order[i] in rows && order[i] != id && rows'[order[i]].text == rows[order[i]].text
    {
    }
  }

  lemma PiecesHaveTexts(rows: Rows, rows': Rows, id: Id, drafts: seq<Chunking.Draft>, base: Id)
    requires IsSplit(rows, rows', id, drafts, base)
    ensures TextsOf(rows', [id]) == [Chunking.ChunkTexts(drafts)[0]]
    ensures TextsOf(rows', FreshIds(base, |drafts| - 1)) == Chunking.ChunkTexts(drafts)[1..]
  {
  }

  lemma TextsAppend(rows: Rows, a: seq<Id>, b: seq<Id>)
    ensures TextsOf(rows, a + b) == TextsOf(rows, a) + TextsOf(rows, b)
  {
  }

  /** Swapping one text for pieces that spell it leaves the reading unchanged. */
  lemma SwapTexts(before: seq<Text>, text: Text, pieces: seq<Text>, after: seq<Text>)
    requires Flatten(pieces) == text
    ensures Flatten(before + pieces + after) == Flatten(before + [text] + after)
  {
    FlattenAppend(before + [text], after);
    FlattenSnoc(before, text);
    FlattenAppend(before + pieces, after);
    FlattenAppend(before, pieces);
  }

  lemma SplitReads(rows: Rows, rows': Rows, id: Id, drafts: seq<Chunking.Draft>, base: Id, words: Text)
    requires IsSplit(rows, rows', id, drafts, base) && Reads(rows, words)
    requires Flatten(Chunking.ChunkTexts(drafts)) == rows[id].text
    ensures Reads(rows', words)
  {
    assert id in rows;
    hide TextsOf, IsSplit, Ordered, Flatten, Chunking.ChunkTexts;
    var order :| Ordered(rows, order) && Flatten(TextsOf(rows, order)) == words;
    SplitOrdered(rows, rows', id, drafts, base, order);
    OrderTexts(rows, order, id);
    SplitTexts(rows, rows', id, drafts, base, order);
    var p := rows[id].index;
    SwapTexts(TextsOf(rows, order[..p]), rows[id].text, Chunking.ChunkTexts(drafts), TextsOf(rows, order[p + 1..]));
  }

  lemma OrderTexts(rows: Rows, order: seq<Id>, id: Id)
    requires Ordered(rows, order) && id in rows
    ensures rows[id].index < |order|
    ensures TextsOf(rows, order)
         == TextsOf(rows, order[..rows[id].index]) + [rows[id].text] + TextsOf(rows, order[rows[id].index + 1..])
  {
  }

  /** Splitting a chunk conserves the document: indexes stay 0..n-1 and the words do not move. */
  lemma SplitConserves(s: Store, id: Id, caps: Caps, words: Text)
    requires ValidStore(s) && id in s.rows && Reads(s.rows, words)
    ensures Reads(SplitSingle(s, id, caps).rows, words)
  {
    hide DraftsFor, AddSiblings, IsSplit;
    var drafts := DraftsFor(s.rows[id], caps);
    if |drafts| <= 1 {
      SameLayout(s.rows, SplitSingle(s, id, caps).rows, words);
    } else {
      SplitRows(s, id, caps);
      DraftsSpellText(s.rows[id], caps);
      SplitReads(s.rows, SplitSingle(s, id, caps).rows, id, drafts, s.nextId, words);
    }
  }

  lemma DraftsSpellText(c: Chunk, caps: Caps)
    ensures Flatten(Chunking.ChunkTexts(DraftsFor(c, caps))) == c.text
    ensures forall i :: 0 <= i < |DraftsFor(c, caps)| ==> DraftsFor(c, caps)[i].text != []
  {
    Chunking.PieceDraftsFacts(c.text, SaferMax(c.text, caps), c.page, c.pageEnd, c.index);
  }

  // ---------------------------------------------------------------- remaining work

  /** The work an open chunk still stands for. */
  function Weight(c: Chunk): nat {
    if !Open(c) then 0
    else (if c.text == [] then 1 else 8 * |c.text| - 7) + Max(0, MaxAttempts - c.attempts)
  }

  function WeightAt(rows: Rows, id: Id): nat {
    if id in rows then Weight(rows[id]) else 0
  }

  function WeightBelow(rows: Rows, n: nat): nat {
    if n == 0 then 0 else WeightBelow(rows, n - 1) + WeightAt(rows, n - 1)
  }

  /** The measure of the drain: a weight for every chunk that is still open. */
  function Work(s: Store): nat {
    WeightBelow(s.rows, s.nextId)
  }

  lemma {:induction false} WeightBelowLe(rows: Rows, rows': Rows, n: nat)
    requires forall k :: 0 <= k < n ==> WeightAt(rows', k) <= WeightAt(rows, k)
    ensures WeightBelow(rows', n) <= WeightBelow(rows, n)
    ensures (exists k :: 0 <= k < n && WeightAt(rows', k) < WeightAt(rows, k)) ==> WeightBelow(rows', n) < WeightBelow(rows, n)
  {
    if n > 0 {
      WeightBelowLe(rows, rows', n - 1);
    }
  }

  lemma {:induction false} WeightBelowUpdate(rows: Rows, rows': Rows, n: nat, id: Id)
    requires id < n && forall k :: 0 <= k < n && k != id ==> WeightAt(rows', k) == WeightAt(rows, k)
    ensures WeightBelow(rows', n) + WeightAt(rows, id) == WeightBelow(rows, n) + WeightAt(rows', id)
  {
    if id == n - 1 {
      WeightBelowSame(rows, rows', n - 1);
    } else {
      WeightBelowUpdate(rows, rows', n - 1, id);
    }
  }

  lemma {:induction false} WeightBelowSame(rows: Rows, rows': Rows, n: nat)
    requires forall k :: 0 <= k < n ==> WeightAt(rows', k) == WeightAt(rows, k)
    ensures WeightBelow(rows', n) == WeightBelow(rows, n)
  {
    if n > 0 {
      WeightBelowSame(rows, rows', n - 1);
    }
  }

  /** No work left means no open chunk, and the other way round. */
  lemma {:induction false} NoWorkLeft(rows: Rows, n: nat)
    ensures WeightBelow(rows, n) == 0 <==> forall k :: 0 <= k < n && k in rows ==> !Open(rows[k])
  {
    if n > 0 {
      NoWorkLeft(rows, n - 1);
    }
  }

  function WordsIn(drafts: seq<Chunking.Draft>): nat {
    if drafts == [] then 0 else WordsIn(drafts[..|drafts| - 1]) + |drafts[|drafts| - 1].text|
  }

  lemma {:induction false} WordsInTexts(drafts: seq<Chunking.Draft>)
    ensures WordsIn(drafts) == |Flatten(Chunking.ChunkTexts(drafts))|
  {
    if drafts != [] {
      var init := drafts[..|drafts| - 1];
      WordsInTexts(init);
      FlattenSnoc(Chunking.ChunkTexts(init), drafts[|drafts| - 1].text);
      assert Chunking.ChunkTexts(drafts) == Chunking.ChunkTexts(init) + [drafts[|drafts| - 1].text];
    }
  }

  /** A fresh sibling of w words weighs 8w - 4. */
  lemma {:induction false} SiblingWork(rows: Rows, base: Id, index: nat, drafts: seq<Chunking.Draft>, n: nat)
    requires n < |drafts|
    requires forall i :: 0 <= i < |drafts| ==> drafts[i].text != []
    requires forall k :: base <= k < base + n ==> k in rows && rows[k] == Sibling(drafts[k - base + 1], index + (k - base + 1))
    ensures WeightBelow(rows, base + n) + 4 * n + 8 * |drafts[0].text|
         == WeightBelow(rows, base) + 8 * WordsIn(drafts[..n + 1])
  {
    if n == 0 {
      assert drafts[..1][..0] == [];
    } else {
      SiblingWork(rows, base, index, drafts, n - 1);
      assert drafts[..n + 1][..n] == drafts[..n];
    }
  }

  lemma SplitWork(rows: Rows, rows': Rows, id: Id, drafts: seq<Chunking.Draft>, base: Id)
    requires IsSplit(rows, rows', id, drafts, base) && Open(rows[id])
    requires Flatten(Chunking.ChunkTexts(drafts)) == rows[id].text
    requires forall i :: 0 <= i < |drafts| ==> drafts[i].text != []
    ensures WeightBelow(rows', base + |drafts| - 1) < WeightBelow(rows, base)
  {
    SplitWeights(rows, rows', id, drafts, base);
    hide IsSplit, WeightAt;
    WeightBelowUpdate(rows, rows', base, id);
    WordsInTexts(drafts);
    assert drafts[..|drafts|] == drafts;
    SiblingWork(rows', base, rows[id].index, drafts, |drafts| - 1);
  }

  lemma SplitWeights(rows: Rows, rows': Rows, id: Id, drafts: seq<Chunking.Draft>, base: Id)
    requires IsSplit(rows, rows', id, drafts, base) && Open(rows[id]) && drafts[0].text != []
    ensures |drafts| >= 2 && id < base
    ensures forall k :: 0 <= k < base && k != id ==> WeightAt(rows', k) == WeightAt(rows, k)
    ensures WeightAt(rows', id) <= 8 * |drafts[0].text| - 7 + Max(0, MaxAttempts - rows[id].attempts)
    ensures WeightAt(rows, id) == (if rows[id].text == [] then 1 else 8 * |rows[id].text| - 7) + Max(0, MaxAttempts - rows[id].attempts)
    ensures forall k :: base <= k < base + |drafts| - 1 ==>
      k in rows' && rows'[k] == Sibling(drafts[k - base + 1], rows[id].index + (k - base + 1))
  {
  }

  /** Splitting or giving up a chunk strictly lowers the remaining work. */
  lemma SplitLowersWork(s: Store, id: Id, caps: Caps)
    requires ValidStore(s) && id in s.rows && Open(s.rows[id])
    ensures Work(SplitSingle(s, id, caps)) < Work(s)
  {
    hide DraftsFor, AddSiblings, IsSplit;
    var c, drafts, s' := s.rows[id], DraftsFor(s.rows[id], caps), SplitSingle(s, id, caps);
    if |drafts| >= 2 {
      SplitRows(s, id, caps);
      DraftsSpellText(c, caps);
      SplitWork(s.rows, s'.rows, id, drafts, s.nextId);
    } else {
      WeightBelowUpdate(s.rows, s'.rows, s.nextId, id);
    }
  }
}
