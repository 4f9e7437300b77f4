/**
  What becomes of every chunk over a whole run with a provider that refuses exactly the requests with a poison text:
  clean texts end embedded with their own vector, poison texts end failed.
 */
module EmbeddingFate {
  import opened Wrappers
  import opened Tokens
  import opened EmbeddingErrors
  import opened EmbeddingStore
  import opened EmbeddingIsolation
  import opened EmbeddingLimits

  /** A chunk that ends failed has kept its text, and token counts are still right. */
  ghost predicate Faithful(s: Store, s': Store, ids: seq<Id>) {
    && (Counted(s.rows) ==> Counted(s'.rows))
    && forall id :: id in ids && id in s.rows && id in s'.rows && s'.rows[id].status == Failed ==>
      s'.rows[id].text == s.rows[id].text
  }

  lemma SplitFaithful(s: Store, id: Id, caps: Caps)
    requires ValidStore(s) && id in s.rows
    ensures Faithful(s, SplitSingle(s, id, caps), [id])
  {
    if Counted(s.rows) {
      SplitKeepsCounted(s, id, caps);
    }
    hide Counted, DraftsFor;
    if |DraftsFor(s.rows[id], caps)| >= 2 {
      SplitRows(s, id, caps);
    }
  }

  lemma LeafFaithful(s: Store, ids: seq<Id>, caps: Caps, reply: Reply)
    requires Ready(s, ids) && ids != []
    ensures reply.Vectors? ==> Faithful(s, Accept(s, ids, reply.vs), ids)
    ensures reply.Refused? ==> Faithful(s, Refuse(s, ids, caps, reply.error), ids)
  {
    hide SplitSingle, EstimateTokens;
    if reply.Refused? && IsOversized(reply.error) && |ids| == 1 {
      SplitFaithful(s, ids[0], caps);
      assert ids == [ids[0]];
    }
  }

  lemma FaithfulCompose(s: Store, s1: Store, s2: Store, a: seq<Id>, b: seq<Id>)
    requires Ready(s, a + b) && Framed(s, s1, a) && Framed(s1, s2, b) && Faithful(s, s1, a) && Faithful(s1, s2, b)
    ensures Faithful(s, s2, a + b)
  {
    ReadyRest(s, s1, a, b);
    hide Counted;
    forall id | id in a + b && id in s2.rows && s2.rows[id].status == Failed
      ensures s2.rows[id].text == s.rows[id].text
    {
      if id in b {
        assert SameButIndex(s.rows[id], s1.rows[id]);
      } else {
        assert SameButIndex(s1.rows[id], s2.rows[id]);
      }
    }
  }

  lemma SentFaithful(s: Store, ids: seq<Id>, s': Store)
    requires Ready(s, ids) && Faithful(SetEmbedding(s, ids), s', ids)
    ensures Faithful(s, s', ids)
  {
    hide EstimateTokens;
  }

  /** Isolation is faithful whatever the provider answers. */
  lemma {:induction false} IsolateFaithful(w: World, ids: seq<Id>, caps: Caps, provider: Provider, depth: nat)
    requires Ready(w.store, ids)
    ensures Faithful(w.store, Isolate(w, ids, caps, provider, depth).store, ids)
    decreases |ids|
  {
    hide Framed, Settles, Ready, Accept, Refuse, Faithful, Isolate, Bisects, CutOff;
    EmptyIsolation(w, caps, provider, depth);
    NothingUnfaithful(w.store);
    if ids != [] {
      var (sent, reply) := Sent(w, ids, provider);
      SentFrame(w, ids, provider);
      IsolateStep(w, ids, caps, provider, depth);
      LeafFaithful(sent.store, ids, caps, reply);
      if reply.Refused? && Bisects(reply.error, |ids|, depth) {
        var a, b := ids[..|ids| / 2], ids[|ids| / 2..];
        SplitInTwo(ids, |ids| / 2, reply.error, depth);
        assert ids == a + b;
        ReadyHalves(sent.store, a, b);
        IsolateFaithful(sent, a, caps, provider, depth + 1);
        IsolateFrame(sent, a, caps, provider, depth + 1);
        var left := Isolate(sent, a, caps, provider, depth + 1);
        ReadyRest(sent.store, left.store, a, b);
        IsolateFaithful(left, b, caps, provider, depth + 1);
        IsolateFrame(left, b, caps, provider, depth + 1);
        FaithfulCompose(sent.store, left.store, Isolate(left, b, caps, provider, depth + 1).store, a, b);
      }
      SentFaithful(w.store, ids, Isolate(w, ids, caps, provider, depth).store);
    }
  }

  lemma SplitInTwo(ids: seq<Id>, mid: nat, e: ProviderError, depth: nat)
    requires Bisects(e, |ids|, depth) && mid == |ids| / 2
    ensures 0 < mid < |ids|
  {
  }

  lemma NothingUnfaithful(s: Store)
    ensures Faithful(s, s, [])
  {
  }

  // ---------------------------------------------------------------- verdicts over a run

  /** The settings and the provider for which isolation and the check of the limit are both exact. */
  ghost predicate Isolable(provider: Provider, caps: Caps, poison: Text -> bool, embed: Text -> Vector) {
    RefusesPoison(provider, poison, embed) && 1 <= caps.batchSize <= 32 && caps.maxInput >= 32
  }

  function Closed(rows: Rows): set<Id> {
    set k | k in rows && !Open(rows[k])
  }

  ghost predicate RightlyJudged(c: Chunk, poison: Text -> bool, embed: Text -> Vector) {
    && (c.status == Embedded ==> !poison(c.text) && c.vector == Some(embed(c.text)))
    && (c.status == Failed ==> poison(c.text))
  }

  /** All chunks but those set aside have been judged rightly so far. */
  ghost predicate Judged(rows: Rows, aside: set<Id>, poison: Text -> bool, embed: Text -> Vector) {
    forall k :: k in rows && k !in aside ==> RightlyJudged(rows[k], poison, embed)
  }

  lemma StartsJudged(rows: Rows, poison: Text -> bool, embed: Text -> Vector)
    ensures Judged(rows, Closed(rows), poison, embed)
  {
    forall k | k in rows && k !in Closed(rows)
      ensures RightlyJudged(rows[k], poison, embed)
    {
      assert Open(rows[k]);
    }
  }

  /** A batch of at most 32 chunks is judged rightly. */
  lemma BatchJudged(
    w: World, ids: seq<Id>, caps: Caps, provider: Provider, aside: set<Id>, poison: Text -> bool, embed: Text -> Vector)
    requires Ready(w.store, ids) && |ids| <= 32 && RefusesPoison(provider, poison, embed)
    requires Judged(w.store.rows, aside, poison, embed)
    ensures Judged(Isolate(w, ids, caps, provider, 0).store.rows, aside, poison, embed)
  {
    hide Isolate, RefusesPoison;
    PowFive();
    PoisonVerdicts(w, ids, caps, provider, 0, poison, embed);
    IsolateFrame(w, ids, caps, provider, 0);
    IsolateFaithful(w, ids, caps, provider, 0);
    JudgedAfter(w.store, Isolate(w, ids, caps, provider, 0).store, ids, aside, poison, embed);
  }

  lemma JudgedAfter(
    s: Store, s': Store, ids: seq<Id>, aside: set<Id>, poison: Text -> bool, embed: Text -> Vector)
    requires Ready(s, ids) && Framed(s, s', ids) && Faithful(s, s', ids) && Verdicts(s, s', ids, poison, embed)
    requires Judged(s.rows, aside, poison, embed)
    ensures Judged(s'.rows, aside, poison, embed)
  {
    hide Counted;
    forall k | k in s'.rows && k !in aside
      ensures RightlyJudged(s'.rows[k], poison, embed)
    {
      if k in ids {
        assert Verdict(s.rows[k], s'.rows[k], poison, embed);
      } else if k in s.rows {
        assert SameButIndex(s.rows[k], s'.rows[k]) && RightlyJudged(s.rows[k], poison, embed);
      }
    }
  }

  /** Splitting before sending judges nobody when the limit is at least 32: no chunk is given up. */
  lemma SplittingJudgesNobody(
    s: Store, caps: Caps, batch: seq<Id>, s': Store, sent: seq<Id>, words: Text, aside: set<Id>,
    poison: Text -> bool, embed: Text -> Vector)
    requires caps.maxInput >= 32 && ValidStore(s) && Counted(s.rows) && Reads(s.rows, words)
    requires TurnWith(s, caps, batch, s', sent) && Judged(s.rows, aside, poison, embed)
    ensures Judged(s'.rows, aside, poison, embed)
  {
    hide Counted, TurnWith, Reads;
    SentIsWithin(s, caps, batch, s', sent, words);
    forall k | k in s'.rows && k !in aside
      ensures RightlyJudged(s'.rows[k], poison, embed)
    {
      if !Open(s'.rows[k]) {
        assert SameButIndex(s.rows[k], s'.rows[k]) && RightlyJudged(s.rows[k], poison, embed);
      }
    }
  }

  /** What one turn up to sending keeps, as far as it held before. */
  lemma TurnKeeps(
    s: Store, caps: Caps, batch: seq<Id>, s': Store, sent: seq<Id>, words: Text, provider: Provider, aside: set<Id>,
    poison: Text -> bool, embed: Text -> Vector)
    requires ValidStore(s) && Counted(s.rows) && Reads(s.rows, words) && TurnWith(s, caps, batch, s', sent)
    ensures Counted(s'.rows) && |sent| <= caps.batchSize
    ensures caps.maxInput >= 32 ==> AllWithin(s'.rows, sent, caps)
    ensures Isolable(provider, caps, poison, embed) && Judged(s.rows, aside, poison, embed) ==> Judged(s'.rows, aside, poison, embed)
  {
    SplitOverKeepsCounted(s, batch, caps);
    hide Reads, Counted, Judged, RefusesPoison, AllWithin;
    if caps.maxInput >= 32 {
      SentIsWithin(s, caps, batch, s', sent, words);
      if Judged(s.rows, aside, poison, embed) {
        SplittingJudgesNobody(s, caps, batch, s', sent, words, aside, poison, embed);
      }
    }
  }

  /** Once nothing is open, the judgement decides: embedded with the text's own vector exactly when the text is clean. */
  lemma JudgedIsExact(rows: Rows, aside: set<Id>, poison: Text -> bool, embed: Text -> Vector, k: Id)
    requires Judged(rows, aside, poison, embed) && k in rows && k !in aside && !Open(rows[k])
    ensures rows[k].status == Embedded && rows[k].vector == Some(embed(rows[k].text)) <==> !poison(rows[k].text)
    ensures rows[k].status == Failed <==> poison(rows[k].text)
  {
    assert RightlyJudged(rows[k], poison, embed);
  }
}
