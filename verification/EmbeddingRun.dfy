/**
  The embedding job: batches until nothing is pending, a budget is spent or the job is cancelled,
  with every batch committed, and continuation jobs for what is left.
 */
module EmbeddingRun {
  import opened Wrappers
  import opened Sequences
  import opened Tokens
  import opened EmbeddingErrors
  import opened EmbeddingStore
  import opened EmbeddingIsolation
  import opened EmbeddingLimits
  import opened EmbeddingFate
  import Chunking

  datatype ProcessingStatus = Waiting | Processing | Ready_ | Partial | Broken

  datatype Outcome = Outcome(embedded: nat, failed: nat)

  datatype RunResult = RunResult(
    embedded: nat, failed: nat, pending: nat, batches: nat, cancelled: bool, continued: bool)

  /** Effective limits: positive provider settings, or the defaults. */
  function Positive(value: Option<int>, default: nat): (n: nat)
    requires default >= 1
    ensures n >= 1
  {
    if value.Some? && value.value > 0 then value.value else default
  }

  function ResolveCapabilities(
    maxInput: Option<int>, recommended: Option<int>, maxBatch: Option<int>, batch: Option<int>): (caps: Caps)
    ensures 1 <= caps.recommended <= caps.maxInput
    ensures 1 <= caps.batchSize <= Positive(maxBatch, 32)
    ensures maxInput.Some? && maxInput.value > 0 ==> caps.maxInput == maxInput.value
    ensures recommended.Some? && 0 < recommended.value <= caps.maxInput ==> caps.recommended == recommended.value
    ensures batch.Some? && 0 < batch.value <= Positive(maxBatch, 32) ==> caps.batchSize == batch.value
    ensures maxInput == None && recommended == None && maxBatch == None && batch == None ==> caps == Caps(8192, 512, 16, 64)
    ensures caps.jobBatchBudget >= 1
  {
    var input := Positive(maxInput, 8192);
    Caps(input, Min(Positive(recommended, 512), input), Max(1, Min(Positive(batch, 16), Positive(maxBatch, 32))), 64)
  }

  // ---------------------------------------------------------------- counting

  function WithStatus(rows: Rows, status: Status): set<Id> {
    set k | k in rows && rows[k].status == status
  }

  function CountStatus(rows: Rows, status: Status): nat {
    |WithStatus(rows, status)|
  }

  function PendingCount(rows: Rows): nat {
    CountStatus(rows, Pending) + CountStatus(rows, Embedding)
  }

  lemma DisjointUnionSize(a: set<Id>, b: set<Id>)
    requires a !! b
    ensures |a + b| == |a| + |b|
  {
  }

  lemma StatusSets(rows: Rows)
    ensures var a, b, c, d := WithStatus(rows, Pending), WithStatus(rows, Embedding), WithStatus(rows, Embedded), WithStatus(rows, Failed);
      rows.Keys == ((a + b) + c) + d && a !! b && (a + b) !! c && (a + b + c) !! d
  {
  }

  /** The four statuses partition the rows. */
  lemma StatusesPartition(rows: Rows)
    ensures CountStatus(rows, Pending) + CountStatus(rows, Embedding) + CountStatus(rows, Embedded)
          + CountStatus(rows, Failed) == |rows|
  {
    hide WithStatus;
    var a, b, c, d := WithStatus(rows, Pending), WithStatus(rows, Embedding), WithStatus(rows, Embedded), WithStatus(rows, Failed);
    StatusSets(rows);
    DisjointUnionSize(a, b);
    DisjointUnionSize(a + b, c);
    DisjointUnionSize(a + b + c, d);
    assert |rows| == |rows.Keys|;
  }

  lemma NothingPending(rows: Rows)
    ensures PendingCount(rows) == 0 <==> forall k :: k in rows ==> !Open(rows[k])
  {
    var a, b := WithStatus(rows, Pending), WithStatus(rows, Embedding);
    assert PendingCount(rows) == 0 <==> a == {} && b == {};
    if a == {} && b == {} {
      forall k | k in rows
        ensures !Open(rows[k])
      {
        assert k !in a && k !in b;
      }
    } else if a != {} {
      var k :| k in a;
      assert Open(rows[k]);
    } else {
      var k :| k in b;
      assert Open(rows[k]);
    }
  }

  /** How many chunks of a batch have a status. */
  function Tally(rows: Rows, ids: seq<Id>, status: Status): nat {
    if ids == [] then 0 else
      var last := ids[|ids| - 1];
      Tally(rows, ids[..|ids| - 1], status) + if last in rows && rows[last].status == status then 1 else 0
  }

  function AmongWithStatus(rows: Rows, ids: seq<Id>, status: Status): set<Id> {
    set id | id in ids && id in rows && rows[id].status == status
  }

  lemma {:induction false} TallyAppend(rows: Rows, a: seq<Id>, b: seq<Id>, status: Status)
    ensures Tally(rows, a + b, status) == Tally(rows, a, status) + Tally(rows, b, status)
  {
    if b == [] {
      assert a + b == a;
    } else {
      TallyAppend(rows, a, b[..|b| - 1], status);
      assert (a + b)[..|a + b| - 1] == a + b[..|b| - 1];
    }
  }

  lemma {:induction false} TallySame(rows: Rows, rows': Rows, ids: seq<Id>, status: Status)
    requires forall id :: id in ids ==> id in rows && id in rows' && rows[id].status == rows'[id].status
    ensures Tally(rows, ids, status) == Tally(rows', ids, status)
  {
    if ids != [] {
      TallySame(rows, rows', ids[..|ids| - 1], status);
    }
  }

  lemma {:induction false} TallyAll(rows: Rows, ids: seq<Id>, status: Status)
    requires forall id :: id in ids ==> id in rows
    ensures (forall id :: id in ids ==> rows[id].status == status) ==> Tally(rows, ids, status) == |ids|
    ensures (forall id :: id in ids ==> rows[id].status != status) ==> Tally(rows, ids, status) == 0
  {
    if ids != [] {
      TallyAll(rows, ids[..|ids| - 1], status);
      assert ids[|ids| - 1] in ids;
    }
  }

  lemma {:induction false} TallyIsCount(rows: Rows, ids: seq<Id>, status: Status)
    requires Distinct(ids)
    ensures Tally(rows, ids, status) == |AmongWithStatus(rows, ids, status)|
  {
    if ids == [] {
      assert AmongWithStatus(rows, ids, status) == {};
    } else {
      var init, last := ids[..|ids| - 1], ids[|ids| - 1];
      TallyIsCount(rows, init, status);
      assert last !in init;
      assert forall id :: id in ids <==> id in init || id == last;
      if last in rows && rows[last].status == status {
        assert AmongWithStatus(rows, ids, status) == AmongWithStatus(rows, init, status) + {last};
      } else {
        assert AmongWithStatus(rows, ids, status) == AmongWithStatus(rows, init, status);
      }
    }
  }

  // ---------------------------------------------------------------- effects of a batch

  /** What a committed state promises: nothing in flight, a vector exactly for embedded chunks. */
  ghost predicate Committed(s: Store) {
    ValidStore(s) && forall k :: k in s.rows ==> s.rows[k].status != Embedding && Consistent(s.rows[k])
  }

  /** Embedded chunks are left alone: same text, vector and attempts; only the index may move. */
  ghost predicate KeepsEmbedded(rows: Rows, rows': Rows) {
    forall k :: k in rows && rows[k].status == Embedded ==> k in rows' && SameButIndex(rows[k], rows'[k])
  }

  lemma FrameCommits(s: Store, s': Store, ids: seq<Id>)
    requires Ready(s, ids) && Framed(s, s', ids) && Settles(s, s', ids) && Committed(s)
    ensures Committed(s') && KeepsEmbedded(s.rows, s'.rows)
  {
    forall k | k in s'.rows
      ensures s'.rows[k].status != Embedding && Consistent(s'.rows[k])
    {
      if k in s.rows && k !in ids {
        assert SameButIndex(s.rows[k], s'.rows[k]);
      }
    }
  }

  lemma FrameCounts(s: Store, s': Store, ids: seq<Id>, status: Status)
    requires Ready(s, ids) && Framed(s, s', ids) && status in {Embedded, Failed}
    ensures CountStatus(s'.rows, status) == CountStatus(s.rows, status) + Tally(s'.rows, ids, status)
  {
    TallyIsCount(s'.rows, ids, status);
    var before, gained := WithStatus(s.rows, status), AmongWithStatus(s'.rows, ids, status);
    forall k
      ensures k in WithStatus(s'.rows, status) <==> k in before + gained
    {
      if k in s.rows && k !in ids {
        assert SameButIndex(s.rows[k], s'.rows[k]);
      }
    }
    assert WithStatus(s'.rows, status) == before + gained;
    assert before !! gained;
    hide WithStatus, AmongWithStatus;
    DisjointUnionSize(before, gained);
  }

  /** One committed batch, whatever the provider answers. */
  lemma BatchEffects(w: World, ids: seq<Id>, caps: Caps, provider: Provider, words: Text)
    requires Ready(w.store, ids) && Committed(w.store) && Reads(w.store.rows, words)
    ensures var s' := Isolate(w, ids, caps, provider, 0).store;
      && Committed(s') && KeepsEmbedded(w.store.rows, s'.rows) && Reads(s'.rows, words)
      && (ids != [] ==> Work(s') < Work(w.store))
      && CountStatus(s'.rows, Embedded) == CountStatus(w.store.rows, Embedded) + Tally(s'.rows, ids, Embedded)
      && CountStatus(s'.rows, Failed) == CountStatus(w.store.rows, Failed) + Tally(s'.rows, ids, Failed)
  {
    hide *;
    IsolateFrame(w, ids, caps, provider, 0);
    IsolateConserves(w, ids, caps, provider, 0, words);
    IsolateLowersWork(w, ids, caps, provider, 0);
    FrameCommits(w.store, Isolate(w, ids, caps, provider, 0).store, ids);
    assert Embedded in {Embedded, Failed} && Failed in {Embedded, Failed};
    FrameCounts(w.store, Isolate(w, ids, caps, provider, 0).store, ids, Embedded);
    FrameCounts(w.store, Isolate(w, ids, caps, provider, 0).store, ids, Failed);
  }

  /** One split of a committed, open chunk. */
  lemma SplitEffects(s: Store, id: Id, caps: Caps, words: Text)
    requires Committed(s) && id in s.rows && Open(s.rows[id]) && Reads(s.rows, words)
    ensures var s' := SplitSingle(s, id, caps);
      && Committed(s') && KeepsEmbedded(s.rows, s'.rows) && Reads(s'.rows, words)
      && Work(s') < Work(s)
      && CountStatus(s'.rows, Embedded) == CountStatus(s.rows, Embedded)
      && CountStatus(s'.rows, Failed) >= CountStatus(s.rows, Failed)
      && Framed(s, s', [id])
  {
    hide SplitSingle, Reads, Work;
    SplitFrame(s, id, caps);
    SplitConserves(s, id, caps, words);
    SplitLowersWork(s, id, caps);
    var s' := SplitSingle(s, id, caps);
    assert Settles(s, s', [id]);
    FrameCommits(s, s', [id]);
    FrameCounts(s, s', [id], Embedded);
    FrameCounts(s, s', [id], Failed);
    TallyAll(s'.rows, [id], Embedded);
  }

  lemma KeepsCompose(a: Rows, b: Rows, c: Rows)
    requires KeepsEmbedded(a, b) && KeepsEmbedded(b, c)
    ensures KeepsEmbedded(a, c)
  {
  }

  lemma {:induction false} LeastIndex(rows: Rows, open: set<Id>)
    requires open != {} && forall k :: k in open ==> k in rows
    ensures exists k :: k in open && forall j :: j in open ==> rows[k].index <= rows[j].index
  {
    var x :| x in open;
    if open != {x} {
      var rest := open - {x};
      LeastIndex(rows, rest);
      var y :| y in rest && forall j :: j in rest ==> rows[y].index <= rows[j].index;
      var k := if rows[x].index <= rows[y].index then x else y;
      assert forall j :: j in open ==> j == x || j in rest;
      assert k in open && forall j :: j in open ==> rows[k].index <= rows[j].index;
    } else {
      assert x in open && forall j :: j in open ==> rows[x].index <= rows[j].index;
    }
  }

  // ---------------------------------------------------------------- the job as it runs

  /**
    What a run is watched for: whether chunks were rightly counted at the start, which texts are poison, what the
    others embed to, and which chunks do not matter.
   */
  datatype View = View(counted: bool, aside: set<Id>, poison: Text -> bool, embed: Text -> Vector) {
    ghost predicate Judges(rows: Rows) {
      Judged(rows, aside, poison, embed)
    }
  }

  /**
    What any stretch of a job keeps, given what it reports: a committed document with the same words and all embedded
    chunks, as many more embedded chunks as reported and at least as many more failed ones, exactly as many when the
    input limit is at least 32 and chunks are rightly counted; then no batch over the limit is sent either.
   */
  ghost predicate Kept(
    w: World, over: nat, w': World, over': nat, out: Outcome, caps: Caps, provider: Provider, words: Text, view: View)
  {
    var rows, rows' := w.store.rows, w'.store.rows;
    && Committed(w'.store) && Reads(rows', words) && KeepsEmbedded(rows, rows')
    && CountStatus(rows', Embedded) == CountStatus(rows, Embedded) + out.embedded
    && CountStatus(rows', Failed) >= CountStatus(rows, Failed) + out.failed
    && Work(w'.store) <= Work(w.store)
    && (view.counted ==> Counted(rows'))
    && (view.counted && caps.maxInput >= 32 ==> over' == over && CountStatus(rows', Failed) == CountStatus(rows, Failed) + out.failed)
    && (view.counted && Isolable(provider, caps, view.poison, view.embed) && view.Judges(rows) ==> view.Judges(rows'))
  }

  lemma KeptAtFirst(w: World, over: nat, caps: Caps, provider: Provider, words: Text, view: View)
    requires Committed(w.store) && Reads(w.store.rows, words) && (view.counted ==> Counted(w.store.rows))
    ensures Kept(w, over, w, over, Outcome(0, 0), caps, provider, words, view)
  {
    hide Committed, Reads, KeepsEmbedded, CountStatus, Work, Counted, Isolable, View.Judges;
    KeepsRefl(w.store.rows);
  }

  lemma KeptAgain(
    w: World, over: nat, w': World, over': nat, out: Outcome, caps: Caps, provider: Provider, words: Text, view: View)
    requires Kept(w, over, w', over', out, caps, provider, words, view)
    ensures Committed(w'.store) && Reads(w'.store.rows, words) && (view.counted ==> Counted(w'.store.rows))
    ensures Work(w'.store) <= Work(w.store) && KeepsEmbedded(w.store.rows, w'.store.rows)
  {
  }

  lemma KeptOn(
    w: World, over: nat, w1: World, over1: nat, a: Outcome, w2: World, over2: nat, b: Outcome,
    caps: Caps, provider: Provider, words: Text, view: View)
    requires Kept(w, over, w1, over1, a, caps, provider, words, view) && Kept(w1, over1, w2, over2, b, caps, provider, words, view)
    ensures Kept(w, over, w2, over2, Outcome(a.embedded + b.embedded, a.failed + b.failed), caps, provider, words, view)
    ensures Committed(w2.store) && Reads(w2.store.rows, words) && Work(w1.store) <= Work(w.store)
    ensures view.counted ==> Counted(w2.store.rows)
  {
    hide Committed, Reads, KeepsEmbedded, CountStatus, Work, Counted, Isolable, View.Judges;
    KeepsCompose(w.store.rows, w1.store.rows, w2.store.rows);
  }

  /** One turn: the open chunks of lowest index, split where they are over the limit, loaded again, and sent. */
  ghost predicate TurnEnds(w: World, caps: Caps, provider: Provider, w': World, split: Store, ids: seq<Id>) {
    Turn(w.store, caps, split, ids) && w' == Isolate(w.(store := split), ids, caps, provider, 0)
  }

  ghost predicate TurnOutcome(w: World, caps: Caps, provider: Provider, w': World) {
    exists split, ids :: TurnEnds(w, caps, provider, w', split, ids)
  }

  /** The states before and after each turn of a job. */
  ghost predicate IsTrace(trace: seq<World>, caps: Caps, provider: Provider) {
    trace != [] && forall n :: 0 <= n < |trace| - 1 ==> TurnOutcome(trace[n], caps, provider, trace[n + 1])
  }

  /** The turns that made a request. */
  ghost function BatchesIn(trace: seq<World>): nat {
    if |trace| < 2 then 0
    else BatchesIn(trace[..|trace| - 1]) + if trace[|trace| - 1].clock > trace[|trace| - 2].clock then 1 else 0
  }

  lemma TraceStarts(w: World, caps: Caps, provider: Provider)
    ensures IsTrace([w], caps, provider) && BatchesIn([w]) == 0
  {
  }

  lemma TraceGrows(trace: seq<World>, caps: Caps, provider: Provider, w: World)
    requires trace != [] && IsTrace(trace, caps, provider) && TurnOutcome(trace[|trace| - 1], caps, provider, w)
    ensures IsTrace(trace + [w], caps, provider) && (trace + [w])[0] == trace[0]
    ensures BatchesIn(trace + [w]) == BatchesIn(trace) + if w.clock > trace[|trace| - 1].clock then 1 else 0
  {
    hide TurnOutcome;
    assert (trace + [w])[..|trace|] == trace;
  }

  /** Isolating a batch makes at least one request. */
  lemma {:induction false} IsolationAsks(w: World, ids: seq<Id>, caps: Caps, provider: Provider, depth: nat)
    ensures if ids == [] then Isolate(w, ids, caps, provider, depth) == w
            else Isolate(w, ids, caps, provider, depth).clock > w.clock
    decreases |ids|
  {
    if ids != [] {
      hide Accept, Refuse, CallEmbed, Classify, TextsOf;
      var (sent, reply) := Sent(w, ids, provider);
      IsolateStep(w, ids, caps, provider, depth);
      if reply.Refused? && Bisects(reply.error, |ids|, depth) {
        hide Bisects;
        var left := Isolate(sent, ids[..|ids| / 2], caps, provider, depth + 1);
        IsolationAsks(sent, ids[..|ids| / 2], caps, provider, depth + 1);
        IsolationAsks(left, ids[|ids| / 2..], caps, provider, depth + 1);
      }
    }
  }

  lemma NothingLoaded(s: Store, caps: Caps)
    requires IsLoaded(s.rows, caps.batchSize, [])
    ensures Turn(s, caps, s, []) && AllWithin(s.rows, [], caps)
  {
    assert SplitOver(s, [], caps) == s;
    assert TurnWith(s, caps, [], s, []);
  }

  lemma WithinTheLimit(rows: Rows, batch: seq<Id>, caps: Caps)
    requires forall id :: id in batch ==> id in rows
    ensures !AnyOver(rows, batch, caps) <==>
      forall id :: id in batch ==> rows[id].tokenCount <= caps.maxInput && EstimateTokens(rows[id].text) <= caps.maxInput
  {
    hide EstimateTokens;
    assert forall id :: id in batch ==> (rows[id].tokenCount <= caps.maxInput && EstimateTokens(rows[id].text) <= caps.maxInput <==> !OverLimit(rows[id], caps));
  }

  /** From a limit of 32 on, splitting before sending fails no chunk. */
  lemma NoneGivenUp(s: Store, caps: Caps, batch: seq<Id>, s': Store, sent: seq<Id>, words: Text)
    requires caps.maxInput >= 32 && ValidStore(s) && Counted(s.rows) && Reads(s.rows, words)
    requires TurnWith(s, caps, batch, s', sent)
    ensures CountStatus(s'.rows, Failed) <= CountStatus(s.rows, Failed)
  {
    hide TurnWith, Reads, Counted, ValidStore;
    SentIsWithin(s, caps, batch, s', sent, words);
    SubsetSize(WithStatus(s'.rows, Failed), WithStatus(s.rows, Failed));
  }

  lemma TurnSize(s: Store, caps: Caps, batch: seq<Id>, s': Store, sent: seq<Id>)
    requires TurnWith(s, caps, batch, s', sent)
    ensures |sent| <= caps.batchSize
  {
  }

  lemma SubsetSize(a: set<Id>, b: set<Id>)
    requires a <= b
    ensures |a| <= |b|
  {
    assert b == a + (b - a);
  }

  class EmbeddingJob {
    const caps: Caps
    const provider: Provider

    var rows: Rows
    var nextId: Id
    var clock: nat
    ghost var groups: nat
    ghost var cutOffs: nat
    /** Batches sent with a chunk over the input limit. */
    ghost var overLimit: nat

    var chunksTotal: nat
    var chunksEmbedded: nat
    var chunksFailed: nat
    var hasEmbeddings: bool
    var status: ProcessingStatus

    function Stored(): Store
      reads this
    {
      Store(rows, nextId)
    }

    ghost function Now(): World
      reads this
    {
      World(Stored(), clock, groups, cutOffs)
    }

    /** The progress fields of the document agree with its rows. */
    ghost predicate ProgressShown()
      reads this
    {
      && chunksTotal == |rows|
      && chunksEmbedded == CountStatus(rows, Embedded)
      && chunksFailed == CountStatus(rows, Failed)
      && chunksTotal == chunksEmbedded + chunksFailed + PendingCount(rows)
    }

    constructor (caps: Caps, provider: Provider, rows: Rows, nextId: Id, status: ProcessingStatus)
      ensures this.caps == caps && this.provider == provider
      ensures Stored() == Store(rows, nextId) && clock == 0
    {
      this.caps, this.provider := caps, provider;
      this.rows, this.nextId, clock, groups, cutOffs, overLimit := rows, nextId, 0, 0, 0, 0;
      chunksTotal, chunksEmbedded, chunksFailed, hasEmbeddings := 0, 0, 0, false;
      this.status := status;
    }

    /** `_call_embed_with_retries`. */
    method CallEmbedWithRetries(texts: seq<Text>) returns (reply: Reply)
      modifies `clock
      ensures (reply, clock) == CallEmbed(provider, old(clock), texts, 1)
    {
      var attempt := 1;
      while true
        invariant 1 <= attempt <= AdapterAttempts
        invariant CallEmbed(provider, old(clock), texts, 1) == CallEmbed(provider, clock, texts, attempt)
        decreases AdapterAttempts - attempt
      {
        reply := provider(clock, texts);
        clock := clock + 1;
        if reply.Vectors? || IsOversized(reply.error) || IsNonRetryable(reply.error) {
          return;
        }
        if !IsTransient(reply.error) || attempt >= AdapterAttempts {
          return;
        }
        attempt := attempt + 1;
      }
    }

    /** `_mark_chunks_failed`. */
    method MarkChunksFailed(ids: seq<Id>, force: bool) returns (failed: nat)
      requires Distinct(ids) && forall id :: id in ids ==> id in rows
      modifies `rows
      ensures Stored() == MarkFailed(old(Stored()), ids, force)
      ensures failed == Tally(rows, ids, Failed)
    {
      for i := 0 to |ids|
        invariant Stored() == MarkFailed(old(Stored()), ids[..i], force)
        invariant forall j :: i <= j < |ids| ==> rows[ids[j]] == old(rows)[ids[j]]
      {
        var c := rows[ids[i]];
        var attempts := c.attempts + 1;
        if force || attempts >= MaxAttempts {
          rows := rows[ids[i] := c.(attempts := attempts, status := Failed)];
        } else {
          rows := rows[ids[i] := c.(attempts := attempts, status := Pending)];
        }
        assert ids[..i + 1] == ids[..i] + [ids[i]];
      }
      assert ids[..|ids|] == ids;
      failed := Tally(rows, ids, Failed);
    }

    /** Writing the vectors of an accepted request, position by position. */
    method StoreVectors(ids: seq<Id>, vs: seq<Vector>)
      requires Distinct(ids) && |vs| == |ids| && forall id :: id in ids ==> id in rows
      modifies `rows
      ensures Stored() == MarkEmbedded(old(Stored()), ids, vs)
    {
      for i := 0 to |ids|
        invariant rows.Keys == old(rows).Keys
        invariant forall j :: 0 <= j < i ==> rows[ids[j]] == Store1(old(rows)[ids[j]], vs[j])
        invariant forall j :: i <= j < |ids| ==> rows[ids[j]] == old(rows)[ids[j]]
        invariant forall k :: k in rows && k !in ids ==> rows[k] == old(rows)[k]
      {
        var c := rows[ids[i]];
        rows := rows[ids[i] := c.(vector := Some(vs[i]), status := Embedded, attempts := c.attempts + 1)];
      }
      forall k | k in rows && k in ids
        ensures rows[k] == Store1(old(rows)[k], vs[IndexOf(ids, k)])
      {
        var i := IndexOf(ids, k);
        assert rows[ids[i]] == Store1(old(rows)[ids[i]], vs[i]);
      }
      assert rows == MarkEmbedded(old(Stored()), ids, vs).rows;
    }

    /** Make room after an index, one later chunk at a time. */
    method ShiftLater(after: nat, extra: nat)
      modifies `rows
      ensures rows == Shift(old(rows), after, extra)
    {
      var later := set k | k in rows && rows[k].index > after;
      ghost var all := later;
      while later != {}
        invariant later <= all && rows.Keys == old(rows).Keys
        invariant forall k :: k in later ==> rows[k] == old(rows)[k]
        invariant forall k :: k in rows && k !in later ==>
          rows[k] == if k in all then old(rows)[k].(index := old(rows)[k].index + extra) else old(rows)[k]
        decreases |later|
      {
        var k :| k in later;
        rows := rows[k := rows[k].(index := rows[k].index + extra)];
        later := later - {k};
      }
    }

    /** `_split_single_chunk`. */
    method SplitSingleChunk(id: Id) returns (failed: nat)
      requires id in rows
      modifies `rows, `nextId
      ensures Stored() == SplitSingle(old(Stored()), id, caps)
      ensures failed == if |DraftsFor(old(rows[id]), caps)| <= 1 then 1 else 0
    {
      hide Chunking.PieceDrafts, SaferMax, Flatten, Shift, Shrunk, Sibling;
      var c := rows[id];
      var drafts := Chunking.SplitOversizedText(c.text, SaferMax(c.text, caps), c.page, c.pageEnd, c.index);
      assert drafts == DraftsFor(c, caps);
      if |drafts| <= 1 {
        rows := rows[id := c.(status := Failed, attempts := c.attempts + 1)];
        return 1;
      }
      ShiftLater(c.index, |drafts| - 1);
      rows := rows[id := Shrunk(c, drafts[0])];
      ghost var shrunk := rows;
      var base := nextId;
      for i := 1 to |drafts|
        invariant nextId == base + i - 1
        invariant rows == AddSiblings(shrunk, drafts, base, c.index, i - 1)
      {
        rows := rows[nextId := Sibling(drafts[i], c.index + i)];
        nextId := nextId + 1;
      }
      failed := 0;
    }

    /** The two recursive calls on the halves of a refused group. */
    method BisectBatch(ids: seq<Id>, depth: nat) returns (out: Outcome)
      requires Ready(Stored(), ids) && |ids| > 1
      modifies `rows, `nextId, `clock, `groups, `cutOffs
      ensures Now() == Isolate(Isolate(old(Now()), ids[..|ids| / 2], caps, provider, depth + 1),
                               ids[|ids| / 2..], caps, provider, depth + 1)
      ensures out == Outcome(Tally(rows, ids, Embedded), Tally(rows, ids, Failed))
      decreases |ids|, 0
    {
      hide Isolate, Framed, Settles, Ready, Tally;
      var mid := |ids| / 2;
      ghost var a, b, before := ids[..mid], ids[mid..], Now();
      assert ids == a + b;
      ReadyHalves(Stored(), a, b);
      var left := EmbedBatchWithIsolation(ids[..mid], depth + 1);
      IsolateFrame(before, a, caps, provider, depth + 1);
      ReadyRest(before.store, Stored(), a, b);
      ghost var between := Now();
      var right := EmbedBatchWithIsolation(ids[mid..], depth + 1);
      IsolateFrame(between, b, caps, provider, depth + 1);
      HalfTallies(between.store, Stored(), a, b, before.store);
      out := Outcome(left.embedded + right.embedded, left.failed + right.failed);
    }

    /** The branches of `_embed_batch_with_isolation` for a refused request. */
    method HandleRefusal(ids: seq<Id>, e: ProviderError, depth: nat) returns (out: Outcome)
      requires Ready(Stored(), ids) && ids != []
      modifies `rows, `nextId, `clock, `groups, `cutOffs
      ensures Bisects(e, |ids|, depth) ==>
        Now() == Isolate(Isolate(old(Now()), ids[..|ids| / 2], caps, provider, depth + 1),
                         ids[|ids| / 2..], caps, provider, depth + 1)
      ensures !Bisects(e, |ids|, depth) ==>
        && Stored() == Refuse(old(Stored()), ids, caps, e) && clock == old(clock) && groups == old(groups)
        && cutOffs == if CutOff(e, |ids|, depth) then old(cutOffs) + 1 else old(cutOffs)
      ensures out == Outcome(Tally(rows, ids, Embedded), Tally(rows, ids, Failed))
      decreases |ids|, 1
    {
      hide Isolate, SplitSingle, IsNonRetryable, IsTransient, Tally, MarkFailed;
      if IsOversized(e) && |ids| == 1 {
        assert ids == [ids[0]];
        out := SplitOnly(ids[0]);
        return;
      }
      if (IsOversized(e) || IsTransient(e)) && |ids| > 1 {
        if depth >= MaxIsolationDepth {
          cutOffs := cutOffs + 1;
          out := GiveBack(ids, false);
          return;
        }
        out := BisectBatch(ids, depth);
        return;
      }
      if IsNonRetryable(e) && |ids| > 1 && depth < MaxIsolationDepth {
        out := BisectBatch(ids, depth);
        return;
      }
      if CutOff(e, |ids|, depth) {
        cutOffs := cutOffs + 1;
      }
      OversizedIsNonRetryable(e);
      out := GiveBack(ids, IsNonRetryable(e) || (!IsTransient(e) && !IsOversized(e)));
    }

    /** The end of `_embed_batch_with_isolation`, for an accepted request. */
    method HandleVectors(ids: seq<Id>, vs: seq<Vector>) returns (out: Outcome)
      requires Ready(Stored(), ids)
      modifies `rows
      ensures Stored() == Accept(old(Stored()), ids, vs)
      ensures out == Outcome(Tally(rows, ids, Embedded), Tally(rows, ids, Failed))
    {
      if |vs| != |ids| {
        out := GiveBack(ids, false);
        return;
      }
      StoreVectors(ids, vs);
      TallyAll(rows, ids, Embedded);
      TallyAll(rows, ids, Failed);
      out := Outcome(|ids|, 0);
    }

    /** `_embed_batch_with_isolation`. Only open chunks may be sent. */
    method EmbedBatchWithIsolation(ids: seq<Id>, depth: nat) returns (out: Outcome)
      requires Ready(Stored(), ids)
      modifies `rows, `nextId, `clock, `groups, `cutOffs
      ensures Now() == Isolate(old(Now()), ids, caps, provider, depth)
      ensures out == Outcome(Tally(rows, ids, Embedded), Tally(rows, ids, Failed))
      decreases |ids|, 2
    {
      hide Isolate, CallEmbed, Framed, Settles, Ready, Bisects, CutOff, Refuse, Accept, TextsOf, Tally;
      EmptyIsolation(Now(), caps, provider, depth);
      if ids == [] {
        TallyAll(rows, ids, Embedded);
        TallyAll(rows, ids, Failed);
        return Outcome(0, 0);
      }
      IsolateStep(Now(), ids, caps, provider, depth);
      SentFrame(Now(), ids, provider);
      rows := SetEmbedding(Stored(), ids).rows;
      var reply := CallEmbedWithRetries(TextsOf(rows, ids));
      groups := groups + 1;
      assert Stored() == Sent(old(Now()), ids, provider).0.store;
      if reply.Refused? {
        out := HandleRefusal(ids, reply.error, depth);
      } else {
        out := HandleVectors(ids, reply.vs);
      }
    }

    /** Failing a group, with its outcome. */
    method GiveBack(ids: seq<Id>, force: bool) returns (out: Outcome)
      requires Distinct(ids) && forall id :: id in ids ==> id in rows
      modifies `rows
      ensures Stored() == MarkFailed(old(Stored()), ids, force)
      ensures out == Outcome(Tally(rows, ids, Embedded), Tally(rows, ids, Failed))
    {
      var failed := MarkChunksFailed(ids, force);
      TallyAll(rows, ids, Embedded);
      out := Outcome(0, failed);
    }

    /** Splitting a single chunk, with its outcome. */
    method SplitOnly(id: Id) returns (out: Outcome)
      requires id in rows && ValidStore(Stored())
      modifies `rows, `nextId
      ensures Stored() == SplitSingle(old(Stored()), id, caps)
      ensures out == Outcome(Tally(rows, [id], Embedded), Tally(rows, [id], Failed))
    {
      SplitFrame(Stored(), id, caps);
      SplitStatus(Stored(), id, caps);
      var failed := SplitSingleChunk(id);
      hide SplitSingle, DraftsFor;
      TallyAll(rows, [id], Embedded);
      TallyAll(rows, [id], Failed);
      out := Outcome(0, failed);
    }

    /** `_load_pending_batch`: the open chunks of lowest index, at most one batch of them. */
    method LoadPendingBatch() returns (ids: seq<Id>)
      requires ValidStore(Stored())
      ensures Ready(Stored(), ids) && IsLoaded(rows, caps.batchSize, ids)
    {
      hide Ready, Open, Loading, IsLoaded;
      var open := set k | k in rows && Open(rows[k]);
      ids := [];
      LoadNothing(Stored(), caps.batchSize, open);
      while open != {} && |ids| < caps.batchSize
        invariant Ready(Stored(), ids) && Loading(rows, caps.batchSize, open, ids)
        invariant open <= rows.Keys && |ids| <= caps.batchSize
        decreases |open|
      {
        LeastIndex(rows, open);
        var k :| k in open && forall j :: j in open ==> rows[k].index <= rows[j].index;
        LoadNext(Stored(), caps.batchSize, open, ids, k);
        ids := ids + [k];
        open := open - {k};
      }
      LoadEnds(Stored(), caps.batchSize, open, ids);
    }

    /** `_ensure_token_safe`: split what is too long, and load a fresh batch after any split. */
    method EnsureTokenSafe(batch: seq<Id>, ghost words: Text) returns (safe: seq<Id>)
      requires Ready(Stored(), batch) && Committed(Stored()) && Reads(rows, words)
      modifies `rows, `nextId
      ensures Committed(Stored()) && Reads(rows, words) && KeepsEmbedded(old(rows), rows)
      ensures Ready(Stored(), safe)
      ensures CountStatus(rows, Embedded) == old(CountStatus(rows, Embedded))
      ensures CountStatus(rows, Failed) >= old(CountStatus(rows, Failed))
      ensures Work(Stored()) <= old(Work(Stored()))
      ensures safe == batch || Work(Stored()) < old(Work(Stored()))
      ensures Work(Stored()) == old(Work(Stored())) <==>
        forall id :: id in batch ==> old(rows)[id].tokenCount <= caps.maxInput && EstimateTokens(old(rows)[id].text) <= caps.maxInput
      ensures Stored() == SplitOver(old(Stored()), batch, caps)
      ensures if AnyOver(old(rows), batch, caps) then IsLoaded(rows, caps.batchSize, safe) else safe == batch
    {
      hide Reads, Work, CountStatus, Framed, DraftsFor, SplitSingle, SplitOver, AnyOver, IsLoaded, EstimateTokens;
      SplitNothing(Stored(), caps);
      assert batch[..0] == [];
      safe := [];
      var changed := false;
      for i := 0 to |batch|
        invariant Committed(Stored()) && Reads(rows, words) && KeepsEmbedded(old(rows), rows)
        invariant Ready(Stored(), batch[i..])
        invariant CountStatus(rows, Embedded) == old(CountStatus(rows, Embedded))
        invariant CountStatus(rows, Failed) >= old(CountStatus(rows, Failed))
        invariant if changed then Work(Stored()) < old(Work(Stored()))
                  else Stored() == old(Stored()) && safe == batch[..i]
        invariant Stored() == SplitOver(old(Stored()), batch[..i], caps)
        invariant changed <==> AnyOver(old(rows), batch[..i], caps)
        invariant forall id :: id in batch[i..] ==> id in old(rows) && id in rows && SameButIndex(old(rows)[id], rows[id])
      {
        var id := batch[i];
        assert batch[i..] == [id] + batch[i + 1..];
        SplitOverNext(old(Stored()), batch, i, caps);
        AnyOverNext(old(rows), batch, i, caps);
        SameLimit(old(rows)[id], rows[id], caps);
        ReadyHalves(Stored(), [id], batch[i + 1..]);
        if rows[id].tokenCount <= caps.maxInput && EstimateTokens(rows[id].text) <= caps.maxInput {
          safe := safe + [id];
        } else {
          changed := true;
          ghost var before := Stored();
          SplitEffects(before, id, caps, words);
          var _ := SplitSingleChunk(id);
          ReadyRest(before, Stored(), [id], batch[i + 1..]);
          KeepsCompose(old(rows), before.rows, rows);
        }
      }
      assert batch[..|batch|] == batch;
      WithinTheLimit(old(rows), batch, caps);
      if changed {
        safe := LoadPendingBatch();
      }
    }

    /** `_refresh_document_progress`. */
    method RefreshProgress()
      modifies `chunksTotal, `chunksEmbedded, `chunksFailed
      ensures ProgressShown()
    {
      hide CountStatus;
      StatusesPartition(rows);
      chunksTotal := CountStatus(rows, Pending) + CountStatus(rows, Embedding)
                   + CountStatus(rows, Embedded) + CountStatus(rows, Failed);
      chunksEmbedded := CountStatus(rows, Embedded);
      chunksFailed := CountStatus(rows, Failed);
    }

    /** `_finalize_document`. */
    method FinalizeDocument(embedded: nat, failed: nat, pending: nat, cancelled: bool, continued: bool)
      modifies `chunksTotal, `chunksEmbedded, `chunksFailed, `hasEmbeddings, `status
      ensures ProgressShown()
      ensures cancelled || continued ==> hasEmbeddings == old(hasEmbeddings) && status == old(status)
      ensures !cancelled && !continued && pending > 0 ==>
        && (hasEmbeddings <==> failed > 0 && embedded > 0)
        && status == if failed == 0 || (embedded == 0 && old(status) == Broken) then old(status) else Partial
      ensures !cancelled && !continued && pending == 0 ==>
        && (hasEmbeddings <==> embedded > 0)
        && (failed > 0 && embedded > 0 ==> status == Partial)
        && (failed > 0 && embedded == 0 ==> status == if old(status) == Broken then Broken else Partial)
        && (failed == 0 && embedded > 0 ==> status == if old(status) == Broken then Broken else Ready_)
        && (failed == 0 && embedded == 0 ==> status == old(status))
    {
      RefreshProgress();
      if cancelled || continued {
        return;
      }
      if pending > 0 && failed == 0 {
        hasEmbeddings := false;
        return;
      }
      if failed > 0 && embedded > 0 {
        hasEmbeddings := true;
        status := Partial;
      } else if failed > 0 && embedded == 0 {
        hasEmbeddings := false;
        if status != Broken {
          status := Partial;
        }
      } else if embedded > 0 {
        hasEmbeddings := true;
        if status == Partial || status != Broken {
          status := Ready_;
        }
      } else {
        hasEmbeddings := false;
      }
    }

    /** The first half of a turn: load a batch, split what is over the limit, and load again after any split. */
    method LoadSafeBatch(ghost words: Text, ghost view: View) returns (loaded: bool, batch: seq<Id>)
      requires caps.batchSize >= 1 && Committed(Stored()) && Reads(rows, words) && (view.counted ==> Counted(rows))
      modifies `rows, `nextId
      ensures Kept(old(Now()), overLimit, Now(), overLimit, Outcome(0, 0), caps, provider, words, view)
      ensures Turn(old(Stored()), caps, Stored(), batch)
      ensures Ready(Stored(), batch) && |batch| <= caps.batchSize
      ensures view.counted && caps.maxInput >= 32 ==> AllWithin(rows, batch, caps)
      ensures !loaded ==> batch == [] && rows == old(rows) && nextId == old(nextId) && PendingCount(rows) == 0
      ensures loaded && batch == [] ==> Work(Stored()) < old(Work(Stored()))
    {
      hide Reads, Work, CountStatus, Committed, KeepsEmbedded, Counted, IsLoaded, SplitOver, AnyOver, AllWithin, RefusesPoison, Judged, ValidStore;
      KeepsRefl(rows);
      CommittedIsValid(Stored());
      ghost var before := Stored();
      batch := LoadPendingBatch();
      loaded := batch != [];
      if !loaded {
        EmptyLoad(rows, caps.batchSize);
        NothingLoaded(Stored(), caps);
        KeptAtFirst(Now(), overLimit, caps, provider, words, view);
        return;
      }
      ghost var first := batch;
      batch := EnsureTokenSafe(batch, words);
      assert TurnWith(before, caps, first, Stored(), batch);
      TurnSize(before, caps, first, Stored(), batch);
      if view.counted {
        TurnKeeps(before, caps, first, Stored(), batch, words, provider, view.aside, view.poison, view.embed);
        if caps.maxInput >= 32 {
          NoneGivenUp(before, caps, first, Stored(), batch, words);
        }
      }
    }

    /** One turn of the loop: load a batch, split what is over the limit, send what is then to be sent. */
    method TakeTurn(ghost words: Text, ghost view: View) returns (loaded: bool, sent: bool, out: Outcome)
      requires caps.batchSize >= 1 && Committed(Stored()) && Reads(rows, words) && (view.counted ==> Counted(rows))
      modifies `rows, `nextId, `clock, `groups, `cutOffs, `overLimit, `chunksTotal, `chunksEmbedded, `chunksFailed
      ensures Kept(old(Now()), old(overLimit), Now(), overLimit, out, caps, provider, words, view)
      ensures TurnOutcome(old(Now()), caps, provider, Now())
      ensures sent <==> clock > old(clock)
      ensures if loaded then Work(Stored()) < old(Work(Stored())) else Now() == old(Now()) && PendingCount(rows) == 0
      ensures !sent ==> out == Outcome(0, 0)
      ensures sent ==> ProgressShown()
    {
      hide Kept, Turn, Reads, Work, CountStatus, Committed, Counted, AllWithin, Ready, Isolate;
      sent, out := false, Outcome(0, 0);
      ghost var before := Now();
      var batch;
      loaded, batch := LoadSafeBatch(words, view);
      ghost var split, over := Now(), overLimit;
      KeptAgain(before, over, split, over, out, caps, provider, words, view);
      EmptyIsolation(split, caps, provider, 0);
      if batch == [] {
        assert TurnEnds(before, caps, provider, Now(), split.store, batch);
        return;
      }
      sent := true;
      out := EmbedCommitted(batch, words, view);
      KeptOn(before, over, split, over, Outcome(0, 0), Now(), overLimit, out, caps, provider, words, view);
      assert TurnEnds(before, caps, provider, Now(), split.store, batch);
      RefreshProgress();
    }

    /**
      The loop of `process_document_embeddings`. `cancelled(n)` and `timeUp(n)` say what the cancellation query and the
      clock answer on the n-th turn. The ghost result holds the state before each turn and after the last one.
     */
    method RunBatches(cancelled: nat -> bool, timeUp: nat -> bool, ghost words: Text, ghost view: View)
      returns (out: Outcome, batches: nat, wasCancelled: bool, continued: bool, ghost trace: seq<World>)
      requires caps.batchSize >= 1
      requires Committed(Stored()) && Reads(rows, words) && (view.counted ==> Counted(rows))
      modifies `rows, `nextId, `clock, `groups, `cutOffs, `overLimit, `chunksTotal, `chunksEmbedded, `chunksFailed
      ensures Kept(old(Now()), old(overLimit), Now(), overLimit, out, caps, provider, words, view)
      ensures IsTrace(trace, caps, provider) && trace[0] == old(Now()) && trace[|trace| - 1] == Now()
      ensures batches == BatchesIn(trace) <= caps.jobBatchBudget
      ensures forall n :: 0 <= n < |trace| - 1 ==> !cancelled(n) && !timeUp(n)
      ensures wasCancelled <==> cancelled(|trace| - 1)
      ensures continued <==>
        !cancelled(|trace| - 1) && (batches >= caps.jobBatchBudget || timeUp(|trace| - 1)) && PendingCount(rows) > 0
      ensures !wasCancelled && !continued ==> PendingCount(rows) == 0
      ensures |trace| > 1 ==> Work(Stored()) < old(Work(Stored()))
    {
      hide Kept, Reads, Work, CountStatus, Committed, IsTrace, BatchesIn, TurnOutcome;
      out := Outcome(0, 0);
      var turn: nat := 0;
      batches := 0;
      wasCancelled, continued := false, false;
      trace := [Now()];
      TraceStarts(Now(), caps, provider);
      KeptAtFirst(Now(), overLimit, caps, provider, words, view);
      while true
        invariant Committed(Stored()) && Reads(rows, words) && (view.counted ==> Counted(rows))
        invariant Kept(old(Now()), old(overLimit), Now(), overLimit, out, caps, provider, words, view)
        invariant |trace| == turn + 1 && trace[0] == old(Now()) && trace[turn] == Now()
        invariant IsTrace(trace, caps, provider) && batches == BatchesIn(trace) <= caps.jobBatchBudget
        invariant forall n :: 0 <= n < turn ==> !cancelled(n) && !timeUp(n)
        invariant turn > 0 ==> Work(Stored()) < old(Work(Stored()))
        invariant !wasCancelled && !continued
        decreases Work(Stored())
      {
        if cancelled(turn) {
          wasCancelled := true;
          break;
        }
        if batches >= caps.jobBatchBudget || timeUp(turn) {
          if PendingCount(rows) > 0 {
            continued := true;
          }
          break;
        }
        ghost var before, over := Now(), overLimit;
        var loaded, sent, gained := TakeTurn(words, view);
        KeptOn(old(Now()), old(overLimit), before, over, out, Now(), overLimit, gained, caps, provider, words, view);
        if !loaded {
          break;
        }
        TraceGrows(trace, caps, provider, Now());
        trace := trace + [Now()];
        turn := turn + 1;
        out := Outcome(out.embedded + gained.embedded, out.failed + gained.failed);
        if !sent {
          continue;
        }
        batches := batches + 1;
      }
    }

    /**
      `process_document_embeddings`, from the first progress refresh on. A turn is taken only while the job is neither
      cancelled nor out of time or batches, a cancellation is seen before anything else, and a job that has run out
      continues exactly when chunks are open.
     */
    method ProcessDocument(cancelled: nat -> bool, timeUp: nat -> bool, ghost words: Text, ghost view: View)
      returns (r: RunResult, ghost trace: seq<World>)
      requires caps.batchSize >= 1
      requires Committed(Stored()) && Reads(rows, words) && (view.counted ==> Counted(rows))
      modifies this
      ensures Kept(old(Now()), old(overLimit), Now(), overLimit, Outcome(r.embedded, r.failed), caps, provider, words, view)
      ensures ProgressShown()
      ensures r.pending == PendingCount(rows)
      ensures IsTrace(trace, caps, provider) && trace[0] == old(Now()) && trace[|trace| - 1] == Now()
      ensures r.batches == BatchesIn(trace) <= caps.jobBatchBudget
      ensures forall n :: 0 <= n < |trace| - 1 ==> !cancelled(n) && !timeUp(n)
      ensures r.cancelled <==> cancelled(|trace| - 1)
      ensures r.continued <==>
        !cancelled(|trace| - 1) && (r.batches >= caps.jobBatchBudget || timeUp(|trace| - 1)) && r.pending > 0
      ensures r.cancelled || r.continued ==> hasEmbeddings == old(hasEmbeddings) && status == old(status)
      ensures !r.cancelled && !r.continued ==> r.pending == 0 && (hasEmbeddings <==> chunksEmbedded > 0)
      ensures |trace| > 1 ==> Work(Stored()) < old(Work(Stored()))
    {
      hide Kept, Reads, Work, CountStatus, Committed, IsTrace, BatchesIn;
      RefreshProgress();
      var out, batches, wasCancelled, continued;
      out, batches, wasCancelled, continued, trace := RunBatches(cancelled, timeUp, words, view);
      var pending := PendingCount(rows);
      FinalizeDocument(CountStatus(rows, Embedded), CountStatus(rows, Failed), pending, wasCancelled, continued);
      r := RunResult(out.embedded, out.failed, pending, batches, wasCancelled, continued);
    }

    /**
      A chain of continuation jobs, never cancelled, drains the document for every provider: each
      job that leaves a continuation has lowered the remaining work. It rests on a job reaching
      its first batch before its time budget is spent. With chunks that carry their own token counts no batch sent is
      over an input limit of at least 32. If the provider refuses exactly the requests with a poison text, batches are
      of at most 32 chunks and the limit is at least 32, every chunk that was open or came out of a split ends embedded
      with the vector of its own text exactly when that text is clean, and failed exactly when it is poison.
     */
    method Drain(timeUp: (nat, nat) -> bool, ghost words: Text, ghost poison: Text -> bool, ghost embed: Text -> Vector)
      returns (jobs: nat)
      requires caps.batchSize >= 1 && caps.jobBatchBudget >= 1
      requires forall job :: !timeUp(job, 0)
      requires Committed(Stored()) && Reads(rows, words)
      modifies this
      ensures Committed(Stored()) && Reads(rows, words) && KeepsEmbedded(old(rows), rows)
      ensures forall k :: k in rows ==> rows[k].status in {Embedded, Failed}
      ensures ProgressShown() && (hasEmbeddings <==> chunksEmbedded > 0)
      ensures Counted(old(rows)) && caps.maxInput >= 32 ==> overLimit == old(overLimit)
      ensures Counted(old(rows)) && Isolable(provider, caps, poison, embed) ==>
        forall k :: k in rows && k !in Closed(old(rows)) ==>
          && (rows[k].status == Embedded && rows[k].vector == Some(embed(rows[k].text)) <==> !poison(rows[k].text))
          && (rows[k].status == Failed <==> poison(rows[k].text))
    {
      hide Reads, Work, CountStatus, Committed, KeepsEmbedded, Counted, RefusesPoison, Judged;
      ghost var view := View(Counted(rows), Closed(rows), poison, embed);
      StartsJudged(rows, poison, embed);
      jobs := 0;
      ghost var out := Outcome(0, 0);
      KeptAtFirst(Now(), overLimit, caps, provider, words, view);
      while true
        invariant Committed(Stored()) && Reads(rows, words) && (view.counted ==> Counted(rows))
        invariant Kept(old(Now()), old(overLimit), Now(), overLimit, out, caps, provider, words, view)
        decreases Work(Stored())
      {
        ghost var before, over := Now(), overLimit;
        var job: nat := jobs;
        var r, _ := ProcessDocument(n => false, (n: nat) => timeUp(job, n), words, view);
        KeptOn(old(Now()), old(overLimit), before, over, out, Now(), overLimit, Outcome(r.embedded, r.failed), caps, provider, words, view);
        out := Outcome(out.embedded + r.embedded, out.failed + r.failed);
        jobs := jobs + 1;
        if !r.continued {
          break;
        }
      }
      NothingPending(rows);
      if view.counted && Isolable(provider, caps, poison, embed) {
        forall k | k in rows && k !in Closed(old(rows))
          ensures rows[k].status == Embedded && rows[k].vector == Some(embed(rows[k].text)) <==> !poison(rows[k].text)
          ensures rows[k].status == Failed <==> poison(rows[k].text)
        {
          JudgedIsExact(rows, view.aside, poison, embed, k);
        }
      }
    }

    /** `reset_chunk_embeddings`: every chunk is pending again, with its layout unchanged. */
    method ResetEmbeddings(ghost words: Text)
      requires Committed(Stored()) && Reads(rows, words)
      modifies `rows
      ensures Committed(Stored()) && Reads(rows, words)
      ensures rows.Keys == old(rows).Keys
      ensures forall k :: k in rows ==>
        rows[k] == old(rows)[k].(status := Pending, vector := None, attempts := 0)
    {
      rows := map k | k in rows :: rows[k].(status := Pending, vector := None, attempts := 0);
      hide Reads;
      SameLayout(old(rows), rows, words);
    }

    /** One top-level batch of the job, with what it does to the committed state. */
    method EmbedCommitted(batch: seq<Id>, ghost words: Text, ghost view: View) returns (out: Outcome)
      requires batch != [] && Ready(Stored(), batch) && Committed(Stored()) && Reads(rows, words)
      requires view.counted ==> Counted(rows) && (caps.maxInput >= 32 ==> AllWithin(rows, batch, caps))
      requires |batch| <= caps.batchSize
      modifies `rows, `nextId, `clock, `groups, `cutOffs, `overLimit
      ensures Kept(old(Now()), old(overLimit), Now(), overLimit, out, caps, provider, words, view)
      ensures Work(Stored()) < old(Work(Stored()))
      ensures Now() == Isolate(old(Now()), batch, caps, provider, 0) && clock > old(clock)
    {
      hide Reads, Work, CountStatus, Committed, KeepsEmbedded, Isolate, Tally, Ready, Counted, Judged, RefusesPoison, AllWithin;
      BatchEffects(Now(), batch, caps, provider, words);
      BatchCounted(Now(), batch, caps, provider);
      IsolationAsks(Now(), batch, caps, provider, 0);
      if RefusesPoison(provider, view.poison, view.embed) && |batch| <= 32 && view.Judges(rows) {
        BatchJudged(Now(), batch, caps, provider, view.aside, view.poison, view.embed);
      }
      overLimit := if AllWithin(rows, batch, caps) then overLimit else overLimit + 1;
      out := EmbedBatchWithIsolation(batch, 0);
    }
  }

  lemma BatchCounted(w: World, ids: seq<Id>, caps: Caps, provider: Provider)
    requires Ready(w.store, ids)
    ensures Counted(w.store.rows) ==> Counted(Isolate(w, ids, caps, provider, 0).store.rows)
  {
    hide Isolate, Counted, Ready;
    IsolateFaithful(w, ids, caps, provider, 0);
  }

  lemma SplitNothing(s: Store, caps: Caps)
    ensures SplitOver(s, [], caps) == s && !AnyOver(s.rows, [], caps)
  {
  }

  /** Half way through loading: `open` are the open chunks not taken yet, none before a taken one. */
  ghost predicate Loading(rows: Rows, size: nat, open: set<Id>, ids: seq<Id>) {
    && |ids| <= size
    && (forall k :: k in open <==> k in rows && Open(rows[k]) && k !in ids)
    && (forall id :: id in ids ==> id in rows)
    && (forall i, j :: 0 <= i < j < |ids| ==> rows[ids[i]].index <= rows[ids[j]].index)
    && (forall k, i :: k in open && 0 <= i < |ids| ==> rows[ids[i]].index <= rows[k].index)
  }

  lemma EmptyLoad(rows: Rows, size: nat)
    requires size >= 1 && IsLoaded(rows, size, [])
    ensures PendingCount(rows) == 0
  {
    NothingPending(rows);
  }

  lemma LoadNothing(s: Store, size: nat, open: set<Id>)
    requires ValidStore(s) && forall k :: k in open <==> k in s.rows && Open(s.rows[k])
    ensures Ready(s, []) && Loading(s.rows, size, open, []) && open <= s.rows.Keys
  {
  }

  lemma LoadNext(s: Store, size: nat, open: set<Id>, ids: seq<Id>, k: Id)
    requires Ready(s, ids) && Loading(s.rows, size, open, ids) && |ids| < size
    requires open <= s.rows.Keys && k in open && forall j :: j in open ==> s.rows[k].index <= s.rows[j].index
    ensures Ready(s, ids + [k]) && Loading(s.rows, size, open - {k}, ids + [k])
  {
    ReadySnoc(s, ids, k);
    hide Ready, Open;
  }

  lemma LoadEnds(s: Store, size: nat, open: set<Id>, ids: seq<Id>)
    requires Ready(s, ids) && Loading(s.rows, size, open, ids) && (open == {} || |ids| == size)
    ensures IsLoaded(s.rows, size, ids)
  {
  }

  lemma ReadySnoc(s: Store, ids: seq<Id>, k: Id)
    requires Ready(s, ids) && k in s.rows && Open(s.rows[k]) && k !in ids
    ensures Ready(s, ids + [k])
  {
  }

  lemma KeepsRefl(rows: Rows)
    ensures KeepsEmbedded(rows, rows)
  {
  }

  lemma CommittedIsValid(s: Store)
    requires Committed(s)
    ensures ValidStore(s)
  {
  }

  lemma OversizedIsNonRetryable(e: ProviderError)
    ensures IsNonRetryable(e) || (!IsTransient(e) && !IsOversized(e)) <==> !IsTransient(e)
    ensures IsOversized(e) ==> IsNonRetryable(e)
  {
  }

  lemma SplitStatus(s: Store, id: Id, caps: Caps)
    requires ValidStore(s) && id in s.rows
    ensures id in SplitSingle(s, id, caps).rows
    ensures SplitSingle(s, id, caps).rows[id].status == if |DraftsFor(s.rows[id], caps)| <= 1 then Failed else Pending
  {
    hide DraftsFor, AddSiblings;
    if |DraftsFor(s.rows[id], caps)| >= 2 {
      SplitRows(s, id, caps);
    }
  }

  /** The second half of a group leaves the statuses of the first half alone. */
  lemma HalfTallies(s1: Store, s2: Store, a: seq<Id>, b: seq<Id>, s: Store)
    requires Ready(s, a + b) && Framed(s, s1, a) && Framed(s1, s2, b)
    ensures forall st :: Tally(s2.rows, a + b, st) == Tally(s1.rows, a, st) + Tally(s2.rows, b, st)
  {
    forall st
      ensures Tally(s2.rows, a + b, st) == Tally(s1.rows, a, st) + Tally(s2.rows, b, st)
    {
      forall id | id in a
        ensures id in s1.rows && id in s2.rows && s1.rows[id].status == s2.rows[id].status
      {
        assert id in a + b;
        if id in b {
          DisjointHalves(a, b, id);
          assert false;
        }
        assert SameButIndex(s1.rows[id], s2.rows[id]);
      }
      TallySame(s1.rows, s2.rows, a, st);
      TallyAppend(s2.rows, a, b, st);
    }
  }
}
