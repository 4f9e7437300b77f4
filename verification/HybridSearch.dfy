/** Hybrid search: page, chunk and document hits tallied under keys, sorted and cut to the limit. */
module HybridSearch {
  import opened Wrappers
  import opened Sequences
  import opened Fusion
  import opened Tokens

  type Id = nat

  datatype PageHit = PageHit(document: Id, page: nat)

  datatype ChunkHit = ChunkHit(document: Id, chunk: Id)

  /** What the texts `chunk:…`, `page:…:…` and `doc:…` of the source stand for. */
  datatype Key = ChunkKey(chunk: Id) | PageKey(document: Id, page: nat) | DocumentKey(document: Id)

  /** `_fusion_key`. */
  function FusionKey(document: Id, chunk: Option<Id>, page: Option<nat>): Key {
    if chunk.Some? then ChunkKey(chunk.value)
    else if page.Some? then PageKey(document, page.value)
    else DocumentKey(document)
  }

  function PageKeys(hits: seq<PageHit>): seq<Key> {
    seq(|hits|, i requires 0 <= i < |hits| => FusionKey(hits[i].document, None, Some(hits[i].page)))
  }

  function ChunkKeys(hits: seq<ChunkHit>): seq<Key> {
    seq(|hits|, i requires 0 <= i < |hits| => FusionKey(hits[i].document, Some(hits[i].chunk), None))
  }

  function DocumentKeys(hits: seq<Id>): seq<Key> {
    seq(|hits|, i requires 0 <= i < |hits| => FusionKey(hits[i], None, None))
  }

  predicate AllDivided(k: int, pages: seq<Key>, chunks: seq<Key>, documents: seq<Key>) {
    Divides(k, |pages|) && Divides(k, |chunks|) && Divides(k, |documents|)
  }

  /** Page and chunk hits count in full, document hits by half. */
  function HybridScore(pages: seq<Key>, chunks: seq<Key>, documents: seq<Key>, k: int, key: Key): real
    requires AllDivided(k, pages, chunks, documents)
  {
    Share(pages, k, key) + Share(chunks, k, key) + Share(documents, k, key) / 2.0
  }

  /** The three searches name their hits by different kinds of keys, so no entry ever collects from two of them. */
  lemma NeverFused(pages: seq<PageHit>, chunks: seq<ChunkHit>, documents: seq<Id>, k: int, key: Key)
    requires AllDivided(k, PageKeys(pages), ChunkKeys(chunks), DocumentKeys(documents))
    ensures HybridScore(PageKeys(pages), ChunkKeys(chunks), DocumentKeys(documents), k, key) ==
      match key
      case PageKey(_, _) => Share(PageKeys(pages), k, key)
      case ChunkKey(_) => Share(ChunkKeys(chunks), k, key)
      case DocumentKey(_) => Share(DocumentKeys(documents), k, key) / 2.0
  {
    if !key.PageKey? {
      ShareOfAbsent(PageKeys(pages), k, key);
    }
    if !key.ChunkKey? {
      ShareOfAbsent(ChunkKeys(chunks), k, key);
    }
    if !key.DocumentKey? {
      ShareOfAbsent(DocumentKeys(documents), k, key);
    }
  }

  /** So with hits that do not repeat, the score of a hit only says at which rank its own search found it. */
  lemma ScoreIsRank(pages: seq<PageHit>, chunks: seq<ChunkHit>, documents: seq<Id>, k: int, i: nat)
    requires AllDivided(k, PageKeys(pages), ChunkKeys(chunks), DocumentKeys(documents))
    requires Distinct(PageKeys(pages)) && Distinct(ChunkKeys(chunks)) && Distinct(DocumentKeys(documents))
    ensures i < |pages| ==>
      HybridScore(PageKeys(pages), ChunkKeys(chunks), DocumentKeys(documents), k, PageKeys(pages)[i]) == Weight(k, i + 1)
    ensures i < |chunks| ==>
      HybridScore(PageKeys(pages), ChunkKeys(chunks), DocumentKeys(documents), k, ChunkKeys(chunks)[i]) == Weight(k, i + 1)
    ensures i < |documents| ==>
      HybridScore(PageKeys(pages), ChunkKeys(chunks), DocumentKeys(documents), k, DocumentKeys(documents)[i]) == Weight(k, i + 1) / 2.0
  {
    hide Weight, HybridScore;
    if i < |pages| {
      NeverFused(pages, chunks, documents, k, PageKeys(pages)[i]);
      ShareOfPosition(PageKeys(pages), k, i);
    }
    if i < |chunks| {
      NeverFused(pages, chunks, documents, k, ChunkKeys(chunks)[i]);
      ShareOfPosition(ChunkKeys(chunks), k, i);
    }
    if i < |documents| {
      NeverFused(pages, chunks, documents, k, DocumentKeys(documents)[i]);
      ShareOfPosition(DocumentKeys(documents), k, i);
    }
  }

  // ---------------------------------------------------------------- the three loops

  /** The entries after the given hits. */
  ghost predicate Tallied(
    pages: seq<Key>, chunks: seq<Key>, documents: seq<Key>, k: int, order: seq<Key>, scores: map<Key, real>)
    requires AllDivided(k, pages, chunks, documents)
  {
    && order == FirstSeen(pages + chunks + documents)
    && (forall key :: key in order <==> key in scores)
    && (forall key :: key in scores <==> key in pages || key in chunks || key in documents)
    && (forall key :: key in scores ==> scores[key] == HybridScore(pages, chunks, documents, k, key))
  }

  lemma Untallied(pages: seq<Key>, chunks: seq<Key>, documents: seq<Key>, k: int, key: Key)
    requires AllDivided(k, pages, chunks, documents) && key !in pages && key !in chunks && key !in documents
    ensures HybridScore(pages, chunks, documents, k, key) == 0.0
  {
    ShareOfAbsent(pages, k, key);
    ShareOfAbsent(chunks, k, key);
    ShareOfAbsent(documents, k, key);
  }

  lemma TallyOne(
    pages: seq<Key>, chunks: seq<Key>, documents: seq<Key>, k: int, order: seq<Key>, scores: map<Key, real>,
    pages': seq<Key>, chunks': seq<Key>, documents': seq<Key>, x: Key, weight: real)
    requires AllDivided(k, pages, chunks, documents) && AllDivided(k, pages', chunks', documents')
    requires Tallied(pages, chunks, documents, k, order, scores)
    requires pages' + chunks' + documents' == pages + chunks + documents + [x]
    requires forall key ::
      HybridScore(pages', chunks', documents', k, key) ==
      HybridScore(pages, chunks, documents, k, key) + (if key == x then weight else 0.0)
    ensures Tallied(pages', chunks', documents', k, Noted(order, scores, x), Added(scores, x, weight))
  {
    hide HybridScore, FirstSeen;
    FirstSeenSnoc(pages + chunks + documents, x);
    SameKeys(pages, chunks, documents, pages', chunks', documents', x);
    if x !in scores {
      Untallied(pages, chunks, documents, k, x);
    }
  }

  lemma SameKeys(
    pages: seq<Key>, chunks: seq<Key>, documents: seq<Key>, pages': seq<Key>, chunks': seq<Key>, documents': seq<Key>, x: Key)
    requires pages' + chunks' + documents' == pages + chunks + documents + [x]
    ensures forall key ::
      (key in pages' || key in chunks' || key in documents') <==> key == x || key in pages || key in chunks || key in documents
  {
    forall key
      ensures (key in pages' || key in chunks' || key in documents') <==> key == x || key in pages || key in chunks || key in documents
    {
      assert key in pages' + chunks' + documents' <==> key in pages + chunks + documents + [x];
    }
  }

  lemma TallyPage(pages: seq<Key>, k: int, order: seq<Key>, scores: map<Key, real>, x: Key)
    requires Divides(k, |pages| + 1) && Tallied(pages, [], [], k, order, scores)
    ensures Tallied(pages + [x], [], [], k, Noted(order, scores, x), Added(scores, x, Weight(k, |pages| + 1)))
  {
    hide Weight, Tallied, Share;
    forall key
      ensures HybridScore(pages + [x], [], [], k, key) ==
        HybridScore(pages, [], [], k, key) + (if key == x then Weight(k, |pages| + 1) else 0.0)
    {
      ShareSnoc(pages, k, x, key);
    }
    assert pages + [x] + [] + [] == pages + [] + [] + [x];
    TallyOne(pages, [], [], k, order, scores, pages + [x], [], [], x, Weight(k, |pages| + 1));
  }

  lemma TallyChunk(pages: seq<Key>, chunks: seq<Key>, k: int, order: seq<Key>, scores: map<Key, real>, x: Key)
    requires Divides(k, |pages|) && Divides(k, |chunks| + 1) && Tallied(pages, chunks, [], k, order, scores)
    ensures Tallied(pages, chunks + [x], [], k, Noted(order, scores, x), Added(scores, x, Weight(k, |chunks| + 1)))
  {
    hide Weight, Tallied, Share;
    forall key
      ensures HybridScore(pages, chunks + [x], [], k, key) ==
        HybridScore(pages, chunks, [], k, key) + (if key == x then Weight(k, |chunks| + 1) else 0.0)
    {
      ShareSnoc(chunks, k, x, key);
    }
    assert pages + (chunks + [x]) + [] == pages + chunks + [] + [x];
    TallyOne(pages, chunks, [], k, order, scores, pages, chunks + [x], [], x, Weight(k, |chunks| + 1));
  }

  lemma TallyDocument(
    pages: seq<Key>, chunks: seq<Key>, documents: seq<Key>, k: int, order: seq<Key>, scores: map<Key, real>, x: Key)
    requires Divides(k, |pages|) && Divides(k, |chunks|) && Divides(k, |documents| + 1)
    requires Tallied(pages, chunks, documents, k, order, scores)
    ensures Tallied(pages, chunks, documents + [x], k, Noted(order, scores, x), Added(scores, x, Weight(k, |documents| + 1) / 2.0))
  {
    hide Weight, Tallied, Share;
    forall key
      ensures HybridScore(pages, chunks, documents + [x], k, key) ==
        HybridScore(pages, chunks, documents, k, key) + (if key == x then Weight(k, |documents| + 1) / 2.0 else 0.0)
    {
      ShareSnoc(documents, k, x, key);
    }
    assert pages + chunks + (documents + [x]) == pages + chunks + documents + [x];
    TallyOne(pages, chunks, documents, k, order, scores, pages, chunks, documents + [x], x, Weight(k, |documents| + 1) / 2.0);
  }

  lemma NextPage(pages: seq<Key>, i: nat, k: int, order: seq<Key>, scores: map<Key, real>)
    requires i < |pages| && Divides(k, |pages|) && Tallied(pages[..i], [], [], k, order, scores)
    ensures Tallied(pages[..i + 1], [], [], k, Noted(order, scores, pages[i]), Added(scores, pages[i], Weight(k, i + 1)))
  {
    hide Weight, Tallied, Noted, Added;
    TallyPage(pages[..i], k, order, scores, pages[i]);
    assert pages[..i + 1] == pages[..i] + [pages[i]];
  }

  lemma NextChunk(pages: seq<Key>, chunks: seq<Key>, i: nat, k: int, order: seq<Key>, scores: map<Key, real>)
    requires i < |chunks| && Divides(k, |pages|) && Divides(k, |chunks|) && Tallied(pages, chunks[..i], [], k, order, scores)
    ensures Tallied(pages, chunks[..i + 1], [], k, Noted(order, scores, chunks[i]), Added(scores, chunks[i], Weight(k, i + 1)))
  {
    hide Weight, Tallied, Noted, Added;
    TallyChunk(pages, chunks[..i], k, order, scores, chunks[i]);
    assert chunks[..i + 1] == chunks[..i] + [chunks[i]];
  }

  lemma NextDocument(pages: seq<Key>, chunks: seq<Key>, documents: seq<Key>, i: nat, k: int, order: seq<Key>, scores: map<Key, real>)
    requires i < |documents| && AllDivided(k, pages, chunks, documents) && Tallied(pages, chunks, documents[..i], k, order, scores)
    ensures Tallied(pages, chunks, documents[..i + 1], k,
      Noted(order, scores, documents[i]), Added(scores, documents[i], Weight(k, i + 1) / 2.0))
  {
    hide Weight, Tallied, Noted, Added;
    TallyDocument(pages, chunks, documents[..i], k, order, scores, documents[i]);
    assert documents[..i + 1] == documents[..i] + [documents[i]];
  }

  /** Every key of the hits once, with its score, best score first, equal scores in the order of their first hits. */
  ghost predicate RanksAll(pages: seq<Key>, chunks: seq<Key>, documents: seq<Key>, k: int, ranked: seq<Scored<Key>>)
    requires AllDivided(k, pages, chunks, documents)
  {
    && Descending(ranked) && DistinctIds(ranked)
    && (forall i :: 0 <= i < |ranked| ==> ranked[i].1 == HybridScore(pages, chunks, documents, k, ranked[i].0))
    && (forall i :: 0 <= i < |ranked| ==> ranked[i].0 in pages || ranked[i].0 in chunks || ranked[i].0 in documents)
    && (forall key :: key in pages || key in chunks || key in documents ==>
        (key, HybridScore(pages, chunks, documents, k, key)) in ranked)
    && (forall score: real :: WithScore(ranked, score) == WithScore(InEntryOrder(pages, chunks, documents, k), score))
  }

  /** Every key with its score, in the order in which the dictionary first saw it; ties of the result stay in it. */
  function InEntryOrder(pages: seq<Key>, chunks: seq<Key>, documents: seq<Key>, k: int): seq<Scored<Key>>
    requires AllDivided(k, pages, chunks, documents)
  {
    var order := FirstSeen(pages + chunks + documents);
    seq(|order|, i requires 0 <= i < |order| => (order[i], HybridScore(pages, chunks, documents, k, order[i])))
  }

  lemma TalliedRanks(pages: seq<Key>, chunks: seq<Key>, documents: seq<Key>, k: int, order: seq<Key>, scores: map<Key, real>)
    requires AllDivided(k, pages, chunks, documents) && Tallied(pages, chunks, documents, k, order, scores)
    ensures RanksAll(pages, chunks, documents, k, SortDescending(Items(order, scores)))
  {
    hide SortDescending, HybridScore, Descending, WithScore;
    var items := Items(order, scores);
    assert items == InEntryOrder(pages, chunks, documents, k);
    SortMeaning(items);
    hide InEntryOrder, FirstSeen;
    var ranked := SortDescending(items);
    SortDescends(items);
    SortPermutes(items);
    SortKeepsDistinct(items);
    forall i | 0 <= i < |ranked|
      ensures ranked[i].0 in scores && ranked[i].1 == scores[ranked[i].0]
    {
      assert ranked[i] in items;
    }
    forall key | key in scores
      ensures (key, scores[key]) in ranked
    {
      var i :| 0 <= i < |order| && order[i] == key;
      assert items[i] in ranked;
    }
  }

  method TallyPages(pages: seq<Key>, k: int) returns (order: seq<Key>, scores: map<Key, real>)
    requires Divides(k, |pages|)
    ensures Tallied(pages, [], [], k, order, scores)
  {
    order, scores := [], map[];
    assert pages[..0] == [] && Tallied([], [], [], k, order, scores);
    hide Tallied, Weight, Noted, Added;
    for i := 0 to |pages|
      invariant Tallied(pages[..i], [], [], k, order, scores)
    {
      NextPage(pages, i, k, order, scores);
      order, scores := Noted(order, scores, pages[i]), Added(scores, pages[i], Weight(k, i + 1));
    }
    assert pages[..|pages|] == pages;
  }

  method TallyChunks(pages: seq<Key>, chunks: seq<Key>, k: int, order0: seq<Key>, scores0: map<Key, real>)
    returns (order: seq<Key>, scores: map<Key, real>)
    requires Divides(k, |pages|) && Divides(k, |chunks|) && Tallied(pages, [], [], k, order0, scores0)
    ensures Tallied(pages, chunks, [], k, order, scores)
  {
    hide Tallied, Weight, Noted, Added;
    order, scores := order0, scores0;
    assert chunks[..0] == [];
    for i := 0 to |chunks|
      invariant Tallied(pages, chunks[..i], [], k, order, scores)
    {
      NextChunk(pages, chunks, i, k, order, scores);
      order, scores := Noted(order, scores, chunks[i]), Added(scores, chunks[i], Weight(k, i + 1));
    }
    assert chunks[..|chunks|] == chunks;
  }

  method TallyDocuments(
    pages: seq<Key>, chunks: seq<Key>, documents: seq<Key>, k: int, order0: seq<Key>, scores0: map<Key, real>)
    returns (order: seq<Key>, scores: map<Key, real>)
    requires AllDivided(k, pages, chunks, documents) && Tallied(pages, chunks, [], k, order0, scores0)
    ensures Tallied(pages, chunks, documents, k, order, scores)
  {
    hide Tallied, Weight, Noted, Added;
    order, scores := order0, scores0;
    assert documents[..0] == [];
    for i := 0 to |documents|
      invariant Tallied(pages, chunks, documents[..i], k, order, scores)
    {
      NextDocument(pages, chunks, documents, i, k, order, scores);
      order, scores := Noted(order, scores, documents[i]), Added(scores, documents[i], Weight(k, i + 1) / 2.0);
    }
    assert documents[..|documents|] == documents;
  }

  predicate IsBest(hits: seq<Scored<Key>>, ranked: seq<Scored<Key>>, limit: int) {
    hits == ranked[..Min(|ranked|, Max(1, Min(limit, 200)))]
  }

  /** `hybrid_search` after its three searches: the best hits of all, at least one and at most two hundred if there are so many. */
  method Search(pageHits: seq<PageHit>, chunkHits: seq<ChunkHit>, documentHits: seq<Id>, k: int, limit: int)
    returns (hits: seq<Scored<Key>>)
    requires AllDivided(k, PageKeys(pageHits), ChunkKeys(chunkHits), DocumentKeys(documentHits))
    ensures pageHits == [] && chunkHits == [] ==> hits == []
    ensures pageHits != [] || chunkHits != [] ==> exists ranked: seq<Scored<Key>> ::
      RanksAll(PageKeys(pageHits), ChunkKeys(chunkHits), DocumentKeys(documentHits), k, ranked) && IsBest(hits, ranked, limit)
  {
    if pageHits == [] && chunkHits == [] {
      return [];
    }
    hide RanksAll, SortDescending, Tallied;
    var pages, chunks, documents := PageKeys(pageHits), ChunkKeys(chunkHits), DocumentKeys(documentHits);
    var order, scores := TallyPages(pages, k);
    order, scores := TallyChunks(pages, chunks, k, order, scores);
    order, scores := TallyDocuments(pages, chunks, documents, k, order, scores);
    assert forall key :: key in order ==> key in scores by { ItemsThere(pages, chunks, documents, k, order, scores); }
    TalliedRanks(pages, chunks, documents, k, order, scores);
    var ranked := SortDescending(Items(order, scores));
    hits := ranked[..Min(|ranked|, Max(1, Min(limit, 200)))];
    assert IsBest(hits, ranked, limit);
  }

  lemma ItemsThere(pages: seq<Key>, chunks: seq<Key>, documents: seq<Key>, k: int, order: seq<Key>, scores: map<Key, real>)
    requires AllDivided(k, pages, chunks, documents) && Tallied(pages, chunks, documents, k, order, scores)
    ensures forall key :: key in order ==> key in scores
  {
  }
}
