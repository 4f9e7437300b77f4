/**
  Sending a batch to the embedding provider and, when it is refused, bisecting it to isolate
  the chunks that cause the refusal.

  The provider is an arbitrary function of the request number and the texts, so it may answer
  the same texts differently every time.
 */
module EmbeddingIsolation {
  import opened Wrappers
  import opened Tokens
  import opened EmbeddingErrors
  import opened EmbeddingStore

  const MaxIsolationDepth: nat := 5
  const AdapterAttempts: nat := 3

  datatype Reply = Vectors(vs: seq<Vector>) | Refused(error: ProviderError)

  type Provider = (nat, seq<Text>) -> Reply

  /**
    The rows, the number of requests made so far, and two counters the code does not keep:
    groups sent, and groups of several chunks failed whole because the depth limit was reached.
   */
  datatype World = World(store: Store, clock: nat, groups: nat, cutOffs: nat)

  predicate TransientAt(provider: Provider, n: nat, texts: seq<Text>) {
    provider(n, texts).Refused? && IsTransient(provider(n, texts).error)
  }

  /**
    One group request: it is repeated after every transient refusal and only then, up to three attempts, and the last
    answer counts.
   */
  function CallEmbed(provider: Provider, clock: nat, texts: seq<Text>, attempt: nat): (r: (Reply, nat))
    requires 1 <= attempt <= AdapterAttempts
    ensures clock < r.1 <= clock + 1 + AdapterAttempts - attempt
    ensures r.0 == provider(r.1 - 1, texts)
    ensures forall n: nat :: clock <= n < r.1 - 1 ==> TransientAt(provider, n, texts)
    ensures TransientAt(provider, r.1 - 1, texts) ==> r.1 == clock + 1 + AdapterAttempts - attempt
    decreases AdapterAttempts - attempt
  {
    var reply := provider(clock, texts);
    if reply.Refused? && IsTransient(reply.error) && attempt < AdapterAttempts
    then CallEmbed(provider, clock + 1, texts, attempt + 1)
    else (reply, clock + 1)
  }

  /** Whether a refused group is cut in two rather than failed or split. */
  predicate Bisects(e: ProviderError, size: nat, depth: nat) {
    size > 1 && depth < MaxIsolationDepth && (IsOversized(e) || IsTransient(e) || IsNonRetryable(e))
  }

  predicate CutOff(e: ProviderError, size: nat, depth: nat) {
    size > 1 && depth >= MaxIsolationDepth && (IsOversized(e) || IsTransient(e) || IsNonRetryable(e))
  }

  /** Giving up at once: not for transient refusals, nor for a size refusal of a group at the limit. */
  predicate ForceFailed(e: ProviderError, size: nat) {
    !IsTransient(e) && !(IsOversized(e) && size > 1)
  }

  /** What a refusal that is not bisected does to the rows. */
  function Refuse(s: Store, ids: seq<Id>, caps: Caps, e: ProviderError): Store {
    if IsOversized(e) && |ids| == 1 then SplitSingle(s, ids[0], caps)
    else MarkFailed(s, ids, ForceFailed(e, |ids|))
  }

  function Accept(s: Store, ids: seq<Id>, vs: seq<Vector>): Store {
    if |vs| != |ids| then MarkFailed(s, ids, false) else MarkEmbedded(s, ids, vs)
  }

  /** The world after the group has been marked in flight and sent. */
  function Sent(w: World, ids: seq<Id>, provider: Provider): (r: (World, Reply)) {
    var s := SetEmbedding(w.store, ids);
    var (reply, clock) := CallEmbed(provider, w.clock, TextsOf(s.rows, ids), 1);
    (World(s, clock, w.groups + 1, w.cutOffs), reply)
  }

  /** The whole isolation of a batch, as a function of the world it starts in. */
  function Isolate(w: World, ids: seq<Id>, caps: Caps, provider: Provider, depth: nat): World
    decreases |ids|
  {
    if ids == [] then w else
      var (sent, reply) := Sent(w, ids, provider);
      match reply
      case Vectors(vs) => sent.(store := Accept(sent.store, ids, vs))
      case Refused(e) =>
        if Bisects(e, |ids|, depth) then
          var mid := |ids| / 2;
          Isolate(Isolate(sent, ids[..mid], caps, provider, depth + 1), ids[mid..], caps, provider, depth + 1)
        else
          sent.(store := Refuse(sent.store, ids, caps, e),
                cutOffs := if CutOff(e, |ids|, depth) then sent.cutOffs + 1 else sent.cutOffs)
  }

  lemma EmptyIsolation(w: World, caps: Caps, provider: Provider, depth: nat)
    ensures Isolate(w, [], caps, provider, depth) == w
  {
  }

  lemma IsolateStep(w: World, ids: seq<Id>, caps: Caps, provider: Provider, depth: nat)
    requires ids != []
    ensures var (sent, reply) := Sent(w, ids, provider);
      var w' := Isolate(w, ids, caps, provider, depth);
      && (reply.Vectors? ==> w' == sent.(store := Accept(sent.store, ids, reply.vs)))
      && (reply.Refused? && Bisects(reply.error, |ids|, depth) ==>
        w' == Isolate(Isolate(sent, ids[..|ids| / 2], caps, provider, depth + 1), ids[|ids| / 2..], caps, provider, depth + 1))
      && (reply.Refused? && !Bisects(reply.error, |ids|, depth) ==>
        && w'.store == Refuse(sent.store, ids, caps, reply.error)
        && w'.groups == sent.groups && w'.clock == sent.clock
        && w'.cutOffs == if CutOff(reply.error, |ids|, depth) then sent.cutOffs + 1 else sent.cutOffs)
  {
  }

  // ---------------------------------------------------------------- frame and settlement

  lemma SentFrame(w: World, ids: seq<Id>, provider: Provider)
    requires Ready(w.store, ids)
    ensures var s := Sent(w, ids, provider).0.store;
      && Framed(w.store, s, ids) && Ready(s, ids)
      && (forall id :: id in ids ==> s.rows[id] == w.store.rows[id].(status := Embedding))
      && TextsOf(s.rows, ids) == TextsOf(w.store.rows, ids)
  {
  }

  lemma AcceptFrame(s: Store, ids: seq<Id>, vs: seq<Vector>)
    requires Ready(s, ids)
    ensures Framed(s, Accept(s, ids, vs), ids) && Settles(s, Accept(s, ids, vs), ids)
  {
  }

  lemma RefuseFrame(s: Store, ids: seq<Id>, caps: Caps, e: ProviderError)
    requires Ready(s, ids) && ids != []
    ensures Framed(s, Refuse(s, ids, caps, e), ids) && Settles(s, Refuse(s, ids, caps, e), ids)
  {
    hide SplitSingle;
    if IsOversized(e) && |ids| == 1 {
      SplitFrame(s, ids[0], caps);
      assert ids == [ids[0]];
    }
  }

  lemma AfterSending(s: Store, sent: Store, s': Store, ids: seq<Id>)
    requires Ready(s, ids) && sent == SetEmbedding(s, ids)
    requires Framed(sent, s', ids) && Settles(sent, s', ids)
    ensures Framed(s, s', ids) && Settles(s, s', ids)
  {
  }

  /** An isolation run touches only its own batch, and leaves none of it in flight. */
  lemma {:induction false} IsolateFrame(w: World, ids: seq<Id>, caps: Caps, provider: Provider, depth: nat)
    requires Ready(w.store, ids)
    ensures var s' := Isolate(w, ids, caps, provider, depth).store;
      Framed(w.store, s', ids) && Settles(w.store, s', ids)
    decreases |ids|
  {
    if ids != [] {
      var (sent, reply) := Sent(w, ids, provider);
      SentFrame(w, ids, provider);
      hide Framed, Settles, Ready, Accept, Refuse;
      match reply
      case Vectors(vs) => AcceptFrame(sent.store, ids, vs);
      case Refused(e) =>
        if Bisects(e, |ids|, depth) {
          var mid := |ids| / 2;
          var a, b := ids[..mid], ids[mid..];
          assert ids == a + b;
          ReadyHalves(sent.store, a, b);
          IsolateFrame(sent, a, caps, provider, depth + 1);
          var left := Isolate(sent, a, caps, provider, depth + 1);
          ReadyRest(sent.store, left.store, a, b);
          IsolateFrame(left, b, caps, provider, depth + 1);
          var right := Isolate(left, b, caps, provider, depth + 1);
          ComposeHalves(sent.store, left.store, right.store, a, b);
        } else {
          RefuseFrame(sent.store, ids, caps, e);
        }
      AfterSending(w.store, sent.store, Isolate(w, ids, caps, provider, depth).store, ids);
    }
  }

  lemma ComposeHalves(s: Store, s1: Store, s2: Store, a: seq<Id>, b: seq<Id>)
    requires Ready(s, a + b) && Framed(s, s1, a) && Framed(s1, s2, b) && Settles(s, s1, a) && Settles(s1, s2, b)
    ensures Framed(s, s2, a + b) && Settles(s, s2, a + b)
  {
    SettlesCompose(s, s1, s2, a, b);
    FramedCompose(s, s1, s2, a, b);
  }

  // ---------------------------------------------------------------- conservation and progress

  lemma LeafConserves(s: Store, ids: seq<Id>, caps: Caps, reply: Reply, words: Text)
    requires Ready(s, ids) && ids != [] && Reads(s.rows, words)
    ensures reply.Vectors? ==> Reads(Accept(s, ids, reply.vs).rows, words)
    ensures reply.Refused? ==> Reads(Refuse(s, ids, caps, reply.error).rows, words)
  {
    hide SplitSingle, Reads;
    if reply.Refused? && IsOversized(reply.error) && |ids| == 1 {
      SplitConserves(s, ids[0], caps, words);
    } else if reply.Refused? {
      SameLayout(s.rows, Refuse(s, ids, caps, reply.error).rows, words);
    } else {
      SameLayout(s.rows, Accept(s, ids, reply.vs).rows, words);
    }
  }

  /** Whatever the provider answers, isolation conserves the document. */
  lemma {:induction false} IsolateConserves(
    w: World, ids: seq<Id>, caps: Caps, provider: Provider, depth: nat, words: Text)
    requires Ready(w.store, ids) && Reads(w.store.rows, words)
    ensures Reads(Isolate(w, ids, caps, provider, depth).store.rows, words)
    decreases |ids|
  {
    if ids != [] {
      var (sent, reply) := Sent(w, ids, provider);
      SentFrame(w, ids, provider);
      SameLayout(w.store.rows, sent.store.rows, words);
      hide Framed, Settles, Ready, Accept, Refuse, Reads;
      LeafConserves(sent.store, ids, caps, reply, words);
      if reply.Refused? && Bisects(reply.error, |ids|, depth) {
        var a, b := ids[..|ids| / 2], ids[|ids| / 2..];
        assert ids == a + b;
        ReadyHalves(sent.store, a, b);
        IsolateConserves(sent, a, caps, provider, depth + 1, words);
        IsolateFrame(sent, a, caps, provider, depth + 1);
        var left := Isolate(sent, a, caps, provider, depth + 1);
        ReadyRest(sent.store, left.store, a, b);
        IsolateConserves(left, b, caps, provider, depth + 1, words);
      }
    }
  }

  lemma SendingKeepsWork(s: Store, ids: seq<Id>)
    requires Ready(s, ids)
    ensures Work(SetEmbedding(s, ids)) == Work(s)
  {
    WeightBelowSame(s.rows, SetEmbedding(s, ids).rows, s.nextId);
  }

  lemma LeafLowersWork(s: Store, ids: seq<Id>, caps: Caps, reply: Reply)
    requires Ready(s, ids) && ids != []
    ensures reply.Vectors? ==> Work(Accept(s, ids, reply.vs)) < Work(s)
    ensures reply.Refused? ==> Work(Refuse(s, ids, caps, reply.error)) < Work(s)
  {
    hide SplitSingle;
    if reply.Refused? && IsOversized(reply.error) && |ids| == 1 {
      SplitLowersWork(s, ids[0], caps);
    } else {
      var s' := if reply.Vectors? then Accept(s, ids, reply.vs) else Refuse(s, ids, caps, reply.error);
      assert WeightAt(s'.rows, ids[0]) < WeightAt(s.rows, ids[0]);
      WeightBelowLe(s.rows, s'.rows, s.nextId);
    }
  }

  /** Every non-empty batch strictly lowers the remaining work, whatever the provider answers. */
  lemma {:induction false} IsolateLowersWork(w: World, ids: seq<Id>, caps: Caps, provider: Provider, depth: nat)
    requires Ready(w.store, ids)
    ensures var s' := Isolate(w, ids, caps, provider, depth).store;
      if ids == [] then s' == w.store else Work(s') < Work(w.store)
    decreases |ids|
  {
    if ids != [] {
      var (sent, reply) := Sent(w, ids, provider);
      SentFrame(w, ids, provider);
      SendingKeepsWork(w.store, ids);
      hide Framed, Settles, Ready, Accept, Refuse, Work;
      LeafLowersWork(sent.store, ids, caps, reply);
      if reply.Refused? && Bisects(reply.error, |ids|, depth) {
        var a, b := ids[..|ids| / 2], ids[|ids| / 2..];
        assert ids == a + b;
        ReadyHalves(sent.store, a, b);
        IsolateLowersWork(sent, a, caps, provider, depth + 1);
        IsolateFrame(sent, a, caps, provider, depth + 1);
        var left := Isolate(sent, a, caps, provider, depth + 1);
        ReadyRest(sent.store, left.store, a, b);
        IsolateLowersWork(left, b, caps, provider, depth + 1);
      }
    }
  }

  // ---------------------------------------------------------------- poison

  ghost predicate HasPoison(texts: seq<Text>, poison: Text -> bool) {
    exists t :: t in texts && poison(t)
  }

  /**
    A provider that refuses a request, with an error the code reacts to by isolating, exactly
    when it contains a poison text, and otherwise embeds each text on its own.
   */
  ghost predicate RefusesPoison(provider: Provider, poison: Text -> bool, embed: Text -> Vector) {
    forall n: nat, texts: seq<Text> :: texts != [] ==>
      if HasPoison(texts, poison) then
        provider(n, texts).Refused? && Classify(provider(n, texts).error) != Unknown
      else
        provider(n, texts) == Vectors(seq(|texts|, i requires 0 <= i < |texts| => embed(texts[i])))
  }

  function Pow2(n: nat): (p: nat)
    ensures p >= 1
  {
    if n == 0 then 1 else 2 * Pow2(n - 1)
  }

  /** The fate of one chunk: clean ones end embedded with their own vector, poison ones do not. */
  ghost predicate Verdict(c: Chunk, c': Chunk, poison: Text -> bool, embed: Text -> Vector) {
    if poison(c.text) then c'.status in {Pending, Failed}
    else c' == Store1(c, embed(c.text)).(index := c'.index)
  }

  ghost predicate Verdicts(s: Store, s': Store, ids: seq<Id>, poison: Text -> bool, embed: Text -> Vector) {
    forall id :: id in ids && id in s.rows && id in s'.rows ==> Verdict(s.rows[id], s'.rows[id], poison, embed)
  }

  lemma CallVerdict(provider: Provider, clock: nat, texts: seq<Text>, attempt: nat,
                    poison: Text -> bool, embed: Text -> Vector)
    requires RefusesPoison(provider, poison, embed) && texts != [] && 1 <= attempt <= AdapterAttempts
    ensures var reply := CallEmbed(provider, clock, texts, attempt).0;
      if HasPoison(texts, poison) then reply.Refused? && Classify(reply.error) != Unknown
      else reply == Vectors(seq(|texts|, i requires 0 <= i < |texts| => embed(texts[i])))
    decreases AdapterAttempts - attempt
  {
    hide Classify, HasPoison;
  }

  lemma AcceptVerdicts(s: Store, ids: seq<Id>, vs: seq<Vector>, poison: Text -> bool, embed: Text -> Vector)
    requires Ready(s, ids) && |vs| == |ids|
    requires forall i :: 0 <= i < |ids| ==> vs[i] == embed(s.rows[ids[i]].text) && !poison(s.rows[ids[i]].text)
    ensures Verdicts(s, Accept(s, ids, vs), ids, poison, embed)
  {
    forall id | id in ids
      ensures Verdict(s.rows[id], Accept(s, ids, vs).rows[id], poison, embed)
    {
      assert ids[IndexOf(ids, id)] == id;
    }
  }

  lemma RefuseVerdict(s: Store, id: Id, caps: Caps, e: ProviderError, poison: Text -> bool, embed: Text -> Vector)
    requires Ready(s, [id]) && poison(s.rows[id].text)
    ensures Verdicts(s, Refuse(s, [id], caps, e), [id], poison, embed)
  {
    hide SplitSingle;
    SplitFrame(s, id, caps);
  }

  lemma VerdictsCompose(s: Store, s1: Store, s2: Store, a: seq<Id>, b: seq<Id>, poison: Text -> bool, embed: Text -> Vector)
    requires Ready(s, a + b) && Framed(s, s1, a) && Framed(s1, s2, b)
    requires Verdicts(s, s1, a, poison, embed) && Verdicts(s1, s2, b, poison, embed)
    ensures Verdicts(s, s2, a + b, poison, embed)
  {
    ReadyRest(s, s1, a, b);
    forall id | id in a + b
      ensures Verdict(s.rows[id], s2.rows[id], poison, embed)
    {
      if id in b {
        assert SameButIndex(s.rows[id], s1.rows[id]);
      } else {
        assert SameButIndex(s1.rows[id], s2.rows[id]);
      }
    }
  }

  lemma CleanTexts(s: Store, ids: seq<Id>, poison: Text -> bool)
    requires Ready(s, ids) && !HasPoison(TextsOf(s.rows, ids), poison)
    ensures forall i :: 0 <= i < |ids| ==> !poison(s.rows[ids[i]].text) && TextsOf(s.rows, ids)[i] == s.rows[ids[i]].text
  {
    forall i | 0 <= i < |ids|
      ensures !poison(s.rows[ids[i]].text)
    {
      assert TextsOf(s.rows, ids)[i] in TextsOf(s.rows, ids);
    }
  }

  lemma SinglePoison(s: Store, ids: seq<Id>, poison: Text -> bool)
    requires Ready(s, ids) && |ids| == 1 && HasPoison(TextsOf(s.rows, ids), poison)
    ensures poison(s.rows[ids[0]].text)
  {
  }

  lemma SentVerdicts(s: Store, sent: Store, s': Store, ids: seq<Id>, poison: Text -> bool, embed: Text -> Vector)
    requires Ready(s, ids) && sent == SetEmbedding(s, ids) && Verdicts(sent, s', ids, poison, embed)
    ensures Verdicts(s, s', ids, poison, embed)
  {
  }

  /** A classified refusal is bisected until the group is a single chunk or the depth is used up. */
  lemma ClassifiedRefusal(e: ProviderError, size: nat, depth: nat)
    requires Classify(e) != Unknown
    ensures Bisects(e, size, depth) <==> size > 1 && depth < MaxIsolationDepth
    ensures CutOff(e, size, depth) <==> size > 1 && depth >= MaxIsolationDepth
  {
  }

  lemma PowZero()
    ensures Pow2(0) == 1
  {
  }

  lemma HalvesFit(n: nat, depth: nat)
    requires depth < MaxIsolationDepth && n > 1
    ensures n <= Pow2(MaxIsolationDepth - depth) ==> n - n / 2 <= Pow2(MaxIsolationDepth - (depth + 1))
    ensures n > Pow2(MaxIsolationDepth - depth) ==> 2 <= n - n / 2 && n - n / 2 > Pow2(MaxIsolationDepth - (depth + 1))
  {
  }

  /** What sending a group tells about it. */
  lemma SendVerdict(w: World, ids: seq<Id>, provider: Provider, poison: Text -> bool, embed: Text -> Vector)
    requires Ready(w.store, ids) && RefusesPoison(provider, poison, embed) && ids != []
    ensures var (sent, reply) := Sent(w, ids, provider);
      && sent.store == SetEmbedding(w.store, ids) && Ready(sent.store, ids)
      && sent.groups == w.groups + 1 && sent.cutOffs == w.cutOffs
      && (reply.Refused? <==> HasPoison(TextsOf(sent.store.rows, ids), poison))
      && (reply.Refused? ==> Classify(reply.error) != Unknown)
      && (reply.Vectors? ==> |reply.vs| == |ids|)
      && (reply.Vectors? ==> forall i :: 0 <= i < |ids| ==>
        reply.vs[i] == embed(sent.store.rows[ids[i]].text) && !poison(sent.store.rows[ids[i]].text))
  {
    var (sent, reply) := Sent(w, ids, provider);
    SentFrame(w, ids, provider);
    var texts := TextsOf(sent.store.rows, ids);
    CallVerdict(provider, w.clock, texts, 1, poison, embed);
    hide RefusesPoison, CallEmbed, Classify, SetEmbedding;
    if reply.Vectors? {
      CleanTexts(sent.store, ids, poison);
    }
  }

  lemma NoVerdicts(s: Store, poison: Text -> bool, embed: Text -> Vector)
    ensures Verdicts(s, s, [], poison, embed)
  {
  }

  lemma {:induction false} PoisonVerdicts(
    w: World, ids: seq<Id>, caps: Caps, provider: Provider, depth: nat, poison: Text -> bool, embed: Text -> Vector)
    requires Ready(w.store, ids) && RefusesPoison(provider, poison, embed)
    requires depth <= MaxIsolationDepth && |ids| <= Pow2(MaxIsolationDepth - depth)
    ensures Verdicts(w.store, Isolate(w, ids, caps, provider, depth).store, ids, poison, embed)
    decreases |ids|
  {
    hide RefusesPoison, Framed, Settles, Refuse, Accept, Verdicts, Ready, Sent, HasPoison, SetEmbedding, Bisects, CutOff, Classify, Pow2, Isolate;
    EmptyIsolation(w, caps, provider, depth);
    NoVerdicts(w.store, poison, embed);
    if ids != [] {
      var (sent, reply) := Sent(w, ids, provider);
      IsolateStep(w, ids, caps, provider, depth);
      SendVerdict(w, ids, provider, poison, embed);
      if reply.Refused? {
        ClassifiedRefusal(reply.error, |ids|, depth);
      }
      if reply.Refused? && Bisects(reply.error, |ids|, depth) {
        var a, b := ids[..|ids| / 2], ids[|ids| / 2..];
        HalvesFit(|ids|, depth);
        assert ids == a + b;
        ReadyHalves(sent.store, a, b);
        PoisonVerdicts(sent, a, caps, provider, depth + 1, poison, embed);
        IsolateFrame(sent, a, caps, provider, depth + 1);
        var left := Isolate(sent, a, caps, provider, depth + 1);
        ReadyRest(sent.store, left.store, a, b);
        PoisonVerdicts(left, b, caps, provider, depth + 1, poison, embed);
        IsolateFrame(left, b, caps, provider, depth + 1);
        VerdictsCompose(sent.store, left.store, Isolate(left, b, caps, provider, depth + 1).store, a, b, poison, embed);
      } else {
        PowZero();
        LeafVerdicts(sent.store, ids, caps, reply, poison, embed);
      }
      SentVerdicts(w.store, sent.store, Isolate(w, ids, caps, provider, depth).store, ids, poison, embed);
    }
  }

  lemma {:induction false} PoisonCounts(
    w: World, ids: seq<Id>, caps: Caps, provider: Provider, depth: nat, poison: Text -> bool, embed: Text -> Vector)
    requires Ready(w.store, ids) && RefusesPoison(provider, poison, embed)
    requires depth <= MaxIsolationDepth && |ids| <= Pow2(MaxIsolationDepth - depth)
    ensures var w' := Isolate(w, ids, caps, provider, depth);
      w'.cutOffs == w.cutOffs && w'.groups <= w.groups + (if ids == [] then 0 else 2 * |ids| - 1)
    decreases |ids|
  {
    hide RefusesPoison, Framed, Settles, Refuse, Accept, Ready, Sent, HasPoison, SetEmbedding, Bisects, CutOff, Classify, Pow2, Isolate;
    EmptyIsolation(w, caps, provider, depth);
    if ids != [] {
      var (sent, reply) := Sent(w, ids, provider);
      IsolateStep(w, ids, caps, provider, depth);
      SendVerdict(w, ids, provider, poison, embed);
      if reply.Refused? {
        ClassifiedRefusal(reply.error, |ids|, depth);
      }
      if reply.Refused? && Bisects(reply.error, |ids|, depth) {
        var a, b := ids[..|ids| / 2], ids[|ids| / 2..];
        HalvesFit(|ids|, depth);
        assert ids == a + b;
        ReadyHalves(sent.store, a, b);
        PoisonCounts(sent, a, caps, provider, depth + 1, poison, embed);
        IsolateFrame(sent, a, caps, provider, depth + 1);
        var left := Isolate(sent, a, caps, provider, depth + 1);
        ReadyRest(sent.store, left.store, a, b);
        PoisonCounts(left, b, caps, provider, depth + 1, poison, embed);
      } else {
        PowZero();
      }
    }
  }

  /**
    Poison isolation is exact for a group that the remaining depth can bisect down to single
    chunks: every clean chunk ends embedded with its own vector, no poison chunk does, the depth
    limit never fails a group whole, and a group of n chunks costs at most 2n-1 group requests.
   */
  lemma PoisonIsolation(
    w: World, ids: seq<Id>, caps: Caps, provider: Provider, depth: nat, poison: Text -> bool, embed: Text -> Vector)
    requires Ready(w.store, ids) && RefusesPoison(provider, poison, embed)
    requires depth <= MaxIsolationDepth && |ids| <= Pow2(MaxIsolationDepth - depth)
    ensures var w' := Isolate(w, ids, caps, provider, depth);
      && Verdicts(w.store, w'.store, ids, poison, embed)
      && w'.cutOffs == w.cutOffs
      && w'.groups <= w.groups + (if ids == [] then 0 else 2 * |ids| - 1)
  {
    hide *;
    PoisonVerdicts(w, ids, caps, provider, depth, poison, embed);
    PoisonCounts(w, ids, caps, provider, depth, poison, embed);
  }

  lemma LeafVerdicts(s: Store, ids: seq<Id>, caps: Caps, reply: Reply, poison: Text -> bool, embed: Text -> Vector)
    requires Ready(s, ids)
    requires reply.Refused? ==> |ids| == 1 && HasPoison(TextsOf(s.rows, ids), poison)
    requires reply.Vectors? ==> |reply.vs| == |ids|
    requires reply.Vectors? ==> forall i :: 0 <= i < |ids| ==>
      reply.vs[i] == embed(s.rows[ids[i]].text) && !poison(s.rows[ids[i]].text)
    ensures reply.Vectors? ==> Verdicts(s, Accept(s, ids, reply.vs), ids, poison, embed)
    ensures reply.Refused? ==> Verdicts(s, Refuse(s, ids, caps, reply.error), ids, poison, embed)
  {
    if reply.Vectors? {
      AcceptVerdicts(s, ids, reply.vs, poison, embed);
    } else {
      assert ids == [ids[0]];
      SinglePoison(s, ids, poison);
      RefuseVerdict(s, ids[0], caps, reply.error, poison, embed);
    }
  }

  lemma WholeGroupFails(s: Store, ids: seq<Id>, caps: Caps, e: ProviderError, id: Id)
    requires Ready(s, ids) && |ids| >= 2 && id in ids
    ensures id in Refuse(s, ids, caps, e).rows && Refuse(s, ids, caps, e).rows[id].status in {Pending, Failed}
  {
  }

  lemma LastIsPoison(s: Store, ids: seq<Id>, poison: Text -> bool)
    requires Ready(s, ids) && ids != [] && poison(s.rows[ids[|ids| - 1]].text)
    ensures HasPoison(TextsOf(s.rows, ids), poison)
  {
    assert TextsOf(s.rows, ids)[|ids| - 1] in TextsOf(s.rows, ids);
  }

  ghost predicate PoisonLast(s: Store, ids: seq<Id>, poison: Text -> bool) {
    ids != [] && ids[|ids| - 1] in s.rows && poison(s.rows[ids[|ids| - 1]].text)
  }

  lemma PoisonStaysLast(s: Store, s1: Store, a: seq<Id>, b: seq<Id>, poison: Text -> bool)
    requires Ready(s, a + b) && Framed(s, s1, a) && b != [] && PoisonLast(s, a + b, poison)
    ensures PoisonLast(s1, b, poison)
  {
    ReadyRest(s, s1, a, b);
    assert (a + b)[|a + b| - 1] == b[|b| - 1];
    assert SameButIndex(s.rows[b[|b| - 1]], s1.rows[b[|b| - 1]]);
  }

  lemma SendPoisonLast(w: World, ids: seq<Id>, provider: Provider, poison: Text -> bool, embed: Text -> Vector)
    requires Ready(w.store, ids) && RefusesPoison(provider, poison, embed) && PoisonLast(w.store, ids, poison)
    ensures var (sent, reply) := Sent(w, ids, provider);
      Ready(sent.store, ids) && PoisonLast(sent.store, ids, poison) && reply.Refused? && Classify(reply.error) != Unknown
  {
    var (sent, reply) := Sent(w, ids, provider);
    SendVerdict(w, ids, provider, poison, embed);
    hide RefusesPoison, CallEmbed, Classify, HasPoison;
    LastIsPoison(sent.store, ids, poison);
  }

  /**
    The bound is tight: in a larger group whose last chunk is poison, the clean chunk next to
    it is failed or left pending, because the depth limit is reached with both still together.
   */
  lemma {:induction false} LargerGroupsLoseClean(
    w: World, ids: seq<Id>, caps: Caps, provider: Provider, depth: nat, poison: Text -> bool, embed: Text -> Vector)
    requires Ready(w.store, ids) && RefusesPoison(provider, poison, embed)
    requires depth <= MaxIsolationDepth && |ids| > Pow2(MaxIsolationDepth - depth)
    requires PoisonLast(w.store, ids, poison)
    ensures var rows', id := Isolate(w, ids, caps, provider, depth).store.rows, ids[|ids| - 2];
      id in rows' && rows'[id].status in {Pending, Failed}
    decreases |ids|
  {
    hide RefusesPoison, Framed, Refuse, Accept, Ready, Sent, PoisonLast, Bisects, CutOff, Classify, Pow2;
    var (sent, reply) := Sent(w, ids, provider);
    SendPoisonLast(w, ids, provider, poison, embed);
    var e := reply.error;
    ClassifiedRefusal(e, |ids|, depth);
    if Bisects(e, |ids|, depth) {
      var a, b := ids[..|ids| / 2], ids[|ids| / 2..];
      HalvesFit(|ids|, depth);
      assert ids == a + b;
      ReadyHalves(sent.store, a, b);
      IsolateFrame(sent, a, caps, provider, depth + 1);
      var left := Isolate(sent, a, caps, provider, depth + 1);
      ReadyRest(sent.store, left.store, a, b);
      PoisonStaysLast(sent.store, left.store, a, b, poison);
      LargerGroupsLoseClean(left, b, caps, provider, depth + 1, poison, embed);
      assert ids[|ids| - 2] == b[|b| - 2];
    } else {
      WholeGroupFails(sent.store, ids, caps, e, ids[|ids| - 2]);
    }
  }

  /** Isolation of a fresh batch of `n` chunks is exact, whatever the rows and the poison texts. */
  ghost predicate ExactFor(n: nat) {
    forall w: World, ids: seq<Id>, caps: Caps, provider: Provider, poison: Text -> bool, embed: Text -> Vector ::
      |ids| == n && Ready(w.store, ids) && RefusesPoison(provider, poison, embed) ==>
        Verdicts(w.store, Isolate(w, ids, caps, provider, 0).store, ids, poison, embed)
  }

  lemma PowFive()
    ensures Pow2(MaxIsolationDepth) == 32
  {
    assert Pow2(2) == 4;
    assert Pow2(4) == 16;
  }

  const BadWord: Text := ["bad"]
  const GoodWord: Text := ["good"]
  const Timeout: ProviderError := ProviderError(Some(503), false, false, false, false)

  /** `n` one-word chunks of which only chunk `bad` is poison. */
  function SampleRows(n: nat, bad: nat): Rows {
    if n == 0 then map[]
    else SampleRows(n - 1, bad)[n - 1 := Chunk(n - 1, if n - 1 == bad then BadWord else GoodWord, 1, 1, 1, Pending, 0, None)]
  }

  lemma {:induction false} SampleRowsFacts(n: nat, bad: nat)
    ensures forall k :: k in SampleRows(n, bad) <==> 0 <= k < n
    ensures forall k :: 0 <= k < n ==>
      (Open(SampleRows(n, bad)[k]) && SampleRows(n, bad)[k].text == if k == bad then BadWord else GoodWord)
  {
    if n > 0 {
      SampleRowsFacts(n - 1, bad);
    }
  }

  ghost function SamplePoison(): Text -> bool {
    t => t == BadWord
  }

  ghost function SampleEmbed(): Text -> Vector {
    t => []
  }

  ghost function SampleProvider(): Provider {
    (k: nat, texts: seq<Text>) =>
      if BadWord in texts then Refused(Timeout)
      else Vectors(seq(|texts|, i requires 0 <= i < |texts| => SampleEmbed()(texts[i])))
  }

  lemma SampleRefuses()
    ensures RefusesPoison(SampleProvider(), SamplePoison(), SampleEmbed())
  {
    forall n: nat, texts: seq<Text> | texts != []
      ensures if HasPoison(texts, SamplePoison()) then
          SampleProvider()(n, texts).Refused? && Classify(SampleProvider()(n, texts).error) != Unknown
        else
          SampleProvider()(n, texts) == Vectors(seq(|texts|, i requires 0 <= i < |texts| => SampleEmbed()(texts[i])))
    {
      assert HasPoison(texts, SamplePoison()) <==> BadWord in texts;
      assert Classify(Timeout) == Transient;
    }
  }

  /** A batch of more than 32 chunks in which a clean chunk is not embedded. */
  lemma LargeBatchCounterexample(n: nat)
    requires n > 32
    ensures !ExactFor(n)
  {
    var poison, embed, provider := SamplePoison(), SampleEmbed(), SampleProvider();
    var ids, caps := seq(n, (i: nat) => i), Caps(8192, 512, n, 64);
    var w := World(Store(SampleRows(n, n - 1), n), 0, 0, 0);
    SampleRowsFacts(n, n - 1);
    SampleRefuses();
    PowFive();
    assert ids[n - 1] == n - 1 && ids[n - 2] == n - 2;
    assert Ready(w.store, ids);
    hide SampleProvider, RefusesPoison, Isolate, Ready, SampleRows;
    LargerGroupsLoseClean(w, ids, caps, provider, 0, poison, embed);
    assert n - 2 in ids;
    assert !Verdicts(w.store, Isolate(w, ids, caps, provider, 0).store, ids, poison, embed);
  }

  /** Isolation is exact for every batch of a given size exactly when that size is at most 32. */
  lemma ExactIffAtMost32(n: nat)
    ensures ExactFor(n) <==> n <= 32
  {
    hide Isolate, Ready, RefusesPoison, Verdicts, Pow2;
    PowFive();
    if n > 32 {
      LargeBatchCounterexample(n);
    } else {
      forall w: World, ids: seq<Id>, caps: Caps, provider: Provider, poison: Text -> bool, embed: Text -> Vector
        | |ids| == n && Ready(w.store, ids) && RefusesPoison(provider, poison, embed)
        ensures Verdicts(w.store, Isolate(w, ids, caps, provider, 0).store, ids, poison, embed)
      {
        PoisonIsolation(w, ids, caps, provider, 0, poison, embed);
      }
    }
  }
}
