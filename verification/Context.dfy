/** Fitting evidence and history into the context window of the chat model. */
module Context {
  import opened Wrappers
  import opened Sequences
  import opened Fusion
  import opened Tokens

  /** The tokenizer as a black box, and the label that names a passage by position, chunk and title. */
  datatype Estimator = Estimator(tokens: string -> nat, heading: (nat, ChunkId, string) -> string)

  /** Labels are never empty, so each costs at least one token. */
  ghost predicate LabelsCost(e: Estimator) {
    forall n: nat, chunk: ChunkId, title: string :: e.tokens(e.heading(n, chunk, title)) >= 1
  }

  function LabelCost(e: Estimator, before: nat, item: Retrieved): nat {
    e.tokens(e.heading(before + 1, item.chunk.id, item.title))
  }

  function Cost(e: Estimator, before: nat, item: Retrieved): nat {
    var recorded := item.chunk.tokenCount;
    (if recorded.Some? && recorded.value != 0 then recorded.value else e.tokens(item.chunk.text)) + LabelCost(e, before, item)
  }

  /** What a selection costs, each passage at its position. */
  function Accounted(e: Estimator, selected: seq<Retrieved>): nat {
    if selected == [] then 0
    else Accounted(e, selected[..|selected| - 1]) + Cost(e, |selected| - 1, selected[|selected| - 1])
  }

  lemma AccountedSnoc(e: Estimator, selected: seq<Retrieved>, item: Retrieved)
    ensures Accounted(e, selected + [item]) == Accounted(e, selected) + Cost(e, |selected|, item)
  {
    assert (selected + [item])[..|selected + [item]| - 1] == selected;
  }

  /** What the passages cost when they are put into the request: each text and its label. */
  function RequestTokens(e: Estimator, selected: seq<Retrieved>): nat {
    if selected == [] then 0 else
      var last := selected[|selected| - 1];
      RequestTokens(e, selected[..|selected| - 1]) + e.tokens(last.chunk.text) + e.tokens(e.heading(|selected|, last.chunk.id, last.title))
  }

  /** The recorded count of a chunk is missing, zero, or the count of its text. */
  predicate RightlyRecorded(e: Estimator, item: Retrieved) {
    item.chunk.tokenCount in {None, Some(0), Some(e.tokens(item.chunk.text))}
  }

  /** Accounting is exact when the recorded counts are right: text by text, with the labels that positions give. */
  lemma {:induction false} AccountedIsRequest(e: Estimator, selected: seq<Retrieved>)
    requires forall item :: item in selected ==> RightlyRecorded(e, item)
    ensures Accounted(e, selected) == RequestTokens(e, selected)
  {
    if selected != [] {
      AccountedIsRequest(e, selected[..|selected| - 1]);
      assert RightlyRecorded(e, selected[|selected| - 1]);
    }
  }

  // ---------------------------------------------------------------- choosing passages

  /** Position `p` was passed over when `c` passages had been chosen. */
  predicate PassedOver(picks: seq<nat>, p: nat, c: nat) {
    c <= |picks| && (c > 0 ==> picks[c - 1] < p) && (c < |picks| ==> p < picks[c])
  }

  ghost predicate NothingSkippedFits(
    e: Estimator, ranked: seq<Retrieved>, upTo: nat, maxChunks: int, budget: int, selected: seq<Retrieved>, picks: seq<nat>)
    requires |picks| == |selected| && upTo <= |ranked|
  {
    forall p: nat, c: nat :: p < upTo && PassedOver(picks, p, c) ==>
      c >= maxChunks || Accounted(e, selected[..c]) + Cost(e, c, ranked[p]) > budget
  }

  /**
    The passages were taken in rank order within limit and budget, and each one passed over came too late or did not
    fit at that moment.
   */
  ghost predicate GreedyChoice(e: Estimator, ranked: seq<Retrieved>, maxChunks: int, budget: int, selected: seq<Retrieved>) {
    && |selected| <= Max(0, maxChunks) && (selected != [] ==> Accounted(e, selected) <= budget)
    && exists picks :: Embeds(selected, ranked, picks) && NothingSkippedFits(e, ranked, |ranked|, maxChunks, budget, selected, picks)
  }

  /** The loop after `i` passages of the ranking. */
  ghost predicate Choosing(
    e: Estimator, ranked: seq<Retrieved>, i: nat, maxChunks: int, budget: int, selected: seq<Retrieved>, picks: seq<nat>, used: nat)
    requires i <= |ranked|
  {
    && Embeds(selected, ranked[..i], picks) && NothingSkippedFits(e, ranked, i, maxChunks, budget, selected, picks)
    && used == Accounted(e, selected) && (selected != [] ==> used <= budget) && |selected| <= Max(0, maxChunks)
  }

  lemma ChoosingStart(e: Estimator, ranked: seq<Retrieved>, maxChunks: int, budget: int)
    ensures Choosing(e, ranked, 0, maxChunks, budget, [], [], 0)
  {
  }

  lemma PickNext(
    e: Estimator, ranked: seq<Retrieved>, i: nat, maxChunks: int, budget: int, selected: seq<Retrieved>, picks: seq<nat>, used: nat)
    requires i < |ranked| && Choosing(e, ranked, i, maxChunks, budget, selected, picks, used)
    requires |selected| < maxChunks && used + Cost(e, |selected|, ranked[i]) <= budget
    ensures Choosing(e, ranked, i + 1, maxChunks, budget, selected + [ranked[i]], picks + [i], used + Cost(e, |selected|, ranked[i]))
  {
    hide Cost;
    var selected', picks' := selected + [ranked[i]], picks + [i];
    AccountedSnoc(e, selected, ranked[i]);
    hide Accounted;
    forall p: nat, c: nat | p < i + 1 && PassedOver(picks', p, c)
      ensures c >= maxChunks || Accounted(e, selected'[..c]) + Cost(e, c, ranked[p]) > budget
    {
      assert c <= |picks| && selected'[..c] == selected[..c];
      assert PassedOver(picks, p, c);
    }
  }

  lemma SkipNext(
    e: Estimator, ranked: seq<Retrieved>, i: nat, maxChunks: int, budget: int, selected: seq<Retrieved>, picks: seq<nat>, used: nat)
    requires i < |ranked| && Choosing(e, ranked, i, maxChunks, budget, selected, picks, used)
    requires |selected| >= maxChunks || used + Cost(e, |selected|, ranked[i]) > budget
    ensures Choosing(e, ranked, i + 1, maxChunks, budget, selected, picks, used)
  {
    hide Cost, Accounted;
    assert selected[..|selected|] == selected;
    assert forall c: nat :: PassedOver(picks, i, c) ==> c == |picks|;
  }

  lemma {:induction false} StopEarly(
    e: Estimator, ranked: seq<Retrieved>, i: nat, maxChunks: int, budget: int, selected: seq<Retrieved>, picks: seq<nat>, used: nat)
    requires i <= |ranked| && Choosing(e, ranked, i, maxChunks, budget, selected, picks, used)
    requires |selected| >= maxChunks || i == |ranked|
    ensures GreedyChoice(e, ranked, maxChunks, budget, selected)
    decreases |ranked| - i
  {
    if i < |ranked| {
      hide Choosing, GreedyChoice;
      SkipNext(e, ranked, i, maxChunks, budget, selected, picks, used);
      StopEarly(e, ranked, i + 1, maxChunks, budget, selected, picks, used);
    } else {
      assert ranked[..i] == ranked;
    }
  }

  /** `_fit_chunks_to_budget`. */
  method FitChunks(e: Estimator, ranked: seq<Retrieved>, maxChunks: int, budget: int) returns (selected: seq<Retrieved>)
    ensures GreedyChoice(e, ranked, maxChunks, budget, selected)
  {
    selected := [];
    var used: nat := 0;
    ghost var picks: seq<nat> := [];
    ghost var seen := 0;
    hide *;
    ChoosingStart(e, ranked, maxChunks, budget);
    for i := 0 to |ranked|
      invariant seen == i && Choosing(e, ranked, i, maxChunks, budget, selected, picks, used)
    {
      if |selected| >= maxChunks {
        break;
      }
      var item := ranked[i];
      var cost := Cost(e, |selected|, item);
      if used + cost > budget {
        SkipNext(e, ranked, i, maxChunks, budget, selected, picks, used);
        seen := seen + 1;
        continue;
      }
      PickNext(e, ranked, i, maxChunks, budget, selected, picks, used);
      selected, picks := selected + [item], picks + [i];
      used, seen := used + cost, seen + 1;
    }
    StopEarly(e, ranked, seen, maxChunks, budget, selected, picks, used);
  }

  /** The keyword and the semantic hits, fused when there are both. */
  ghost predicate IsRanking(keyword: seq<Retrieved>, semantic: seq<Retrieved>, ranked: seq<Retrieved>) {
    if semantic != [] && keyword != [] then exists order: seq<Scored<ChunkId>> :: FusedFrom([semantic, keyword], 60, order, ranked)
    else ranked == if semantic != [] then semantic else keyword
  }

  function AtLeast(hits: seq<Retrieved>, minimum: Option<real>): seq<Retrieved> {
    if hits == [] || minimum.None? then hits
    else AtLeast(hits[..|hits| - 1], minimum) + (if hits[|hits| - 1].score >= minimum.value then [hits[|hits| - 1]] else [])
  }

  /** Exactly the hits that score at least the minimum are kept, in their order. */
  lemma {:induction false} AtLeastMeaning(hits: seq<Retrieved>, minimum: Option<real>)
    ensures var kept := AtLeast(hits, minimum);
      && Subsequence(kept, hits)
      && (forall h :: h in kept <==> h in hits && (minimum.Some? ==> h.score >= minimum.value))
      && (minimum.None? ==> kept == hits)
  {
    if hits == [] || minimum.None? {
      assert Embeds(hits, hits, seq(|hits|, i => i));
    } else {
      var front, last := hits[..|hits| - 1], hits[|hits| - 1];
      AtLeastMeaning(front, minimum);
      assert hits == front + [last];
      var kept := AtLeast(front, minimum);
      var picks: seq<nat> :| Embeds(kept, front, picks);
      if last.score >= minimum.value {
        assert Embeds(kept + [last], hits, picks + [|front|]);
      } else {
        assert Embeds(kept, hits, picks);
        assert AtLeast(hits, minimum) == kept + [] == kept;
      }
    }
  }

  /** `hybrid_retrieve` after the two searches. */
  method Retrieve(
    e: Estimator, keyword: seq<Retrieved>, semantic: seq<Retrieved>, minimum: Option<real>, maxChunks: int, budget: int)
    returns (selected: seq<Retrieved>)
    ensures exists ranked ::
      IsRanking(keyword, AtLeast(semantic, minimum), ranked) && GreedyChoice(e, ranked, maxChunks, budget, selected)
  {
    hide GreedyChoice, Accounted, AtLeast, FusedFrom;
    var close := AtLeast(semantic, minimum);
    var ranking := keyword;
    if close != [] && keyword != [] {
      ranking := FusePassages([close, keyword], 60);
    } else if close != [] {
      ranking := close;
    }
    selected := FitChunks(e, ranking, maxChunks, budget);
    assert IsRanking(keyword, close, ranking);
  }

  // ---------------------------------------------------------------- history

  function TokensOf(e: Estimator, messages: seq<string>): nat {
    if messages == [] then 0 else TokensOf(e, messages[..|messages| - 1]) + e.tokens(messages[|messages| - 1])
  }

  lemma TokensOfSnoc(e: Estimator, messages: seq<string>, m: string)
    ensures TokensOf(e, messages + [m]) == TokensOf(e, messages) + e.tokens(m)
  {
    assert (messages + [m])[..|messages + [m]| - 1] == messages;
  }

  lemma {:induction false} PrefixCostsLess(e: Estimator, messages: seq<string>, n: nat)
    requires n <= |messages|
    ensures TokensOf(e, messages[..n]) <= TokensOf(e, messages)
  {
    if n == |messages| {
      assert messages[..n] == messages;
    } else {
      assert messages[..|messages| - 1][..n] == messages[..n];
      PrefixCostsLess(e, messages[..|messages| - 1], n);
    }
  }

  ghost predicate IsHistory(e: Estimator, conversation: seq<string>, limit: int, kept: seq<string>) {
    && kept <= conversation && TokensOf(e, kept) <= Max(0, limit)
    && forall n: nat :: |kept| < n <= |conversation| ==> TokensOf(e, conversation[..n]) > limit
  }

  /** The history loop of `ask`: the longest prefix of the conversation that stays within the limit. */
  method KeepHistory(e: Estimator, conversation: seq<string>, limit: int) returns (kept: seq<string>)
    ensures IsHistory(e, conversation, limit, kept)
  {
    var used, n := 0, 0;
    for i := 0 to |conversation|
      invariant n == i && used == TokensOf(e, conversation[..i]) && used <= Max(0, limit)
    {
      hide TokensOf;
      assert conversation[..i + 1] == conversation[..i] + [conversation[i]];
      TokensOfSnoc(e, conversation[..i], conversation[i]);
      if used + e.tokens(conversation[i]) > limit {
        forall m: nat | i < m <= |conversation|
          ensures TokensOf(e, conversation[..m]) > limit
        {
          assert conversation[..m][..i + 1] == conversation[..i + 1];
          PrefixCostsLess(e, conversation[..m], i + 1);
        }
        break;
      }
      used, n := used + e.tokens(conversation[i]), n + 1;
    }
    kept := conversation[..n];
  }

  // ---------------------------------------------------------------- the window

  const SAFETY_MARGIN := 256

  /** The limits of a profile; nothing keeps them from being negative. */
  datatype Profile = Profile(retrievedChunks: int, maxContext: int, maxOutput: int, historyTokens: int)

  /** `effective_context_window`: the profile's limit, capped by the provider's window when that is known. */
  function EffectiveWindow(profile: Profile, provider: Option<int>): (window: int)
    ensures window >= 0 && window <= Max(0, profile.maxContext)
    ensures provider.Some? && provider.value > 0 ==> window <= provider.value
    ensures window == 0 || window == profile.maxContext || provider == Some(window)
    ensures profile.maxContext > 0 ==> window > 0
  {
    if provider.None? || provider.value <= 0 then Max(0, profile.maxContext)
    else Max(0, Min(profile.maxContext, provider.value))
  }

  /** `compute_budget`: what is left for evidence. */
  function RagBudget(window: int, fixed: int, conversation: int, reserve: int): int {
    Max(0, window - (fixed + conversation + reserve + SAFETY_MARGIN))
  }

  /** What the chat model is called with. */
  datatype Call = Call(history: seq<string>, evidence: seq<Retrieved>)

  function Total(e: Estimator, profile: Profile, fixed: nat, call: Call): int {
    fixed + TokensOf(e, call.history) + Accounted(e, call.evidence) + profile.maxOutput + SAFETY_MARGIN
  }

  lemma SomethingCosts(e: Estimator, selected: seq<Retrieved>)
    requires LabelsCost(e) && selected != []
    ensures Accounted(e, selected) >= 1
  {
  }

  /** The budget for evidence in `ask`. */
  function AskBudget(e: Estimator, profile: Profile, provider: Option<int>, fixed: nat, conversation: seq<string>): int {
    RagBudget(EffectiveWindow(profile, provider), fixed, Min(TokensOf(e, conversation), profile.historyTokens), profile.maxOutput)
  }

  /** What the two searches found for a question, and the least score of a semantic hit. */
  datatype Hits = Hits(keyword: seq<Retrieved>, semantic: seq<Retrieved>, minimum: Option<real>)

  /** The outcomes of `ask`: no call without evidence, else a call with the greedy evidence and the kept history. */
  ghost predicate AskOutcome(
    e: Estimator, profile: Profile, provider: Option<int>, fixed: nat, conversation: seq<string>, hits: Hits,
    ranked: seq<Retrieved>, call: Option<Call>)
  {
    && IsRanking(hits.keyword, AtLeast(hits.semantic, hits.minimum), ranked)
    && GreedyChoice(e, ranked, profile.retrievedChunks, AskBudget(e, profile, provider, fixed, conversation),
        if call.Some? then call.value.evidence else [])
    && (call.Some? ==> call.value.evidence != [] && IsHistory(e, conversation, profile.historyTokens, call.value.history))
  }

  /** `ask` up to the call of the model. */
  method Ask(e: Estimator, profile: Profile, provider: Option<int>, fixed: nat, conversation: seq<string>, hits: Hits)
    returns (call: Option<Call>)
    ensures exists ranked :: AskOutcome(e, profile, provider, fixed, conversation, hits, ranked, call)
  {
    hide IsRanking, AtLeast, GreedyChoice, IsHistory;
    var window := EffectiveWindow(profile, provider);
    var budget := RagBudget(window, fixed, Min(TokensOf(e, conversation), profile.historyTokens), profile.maxOutput);
    var retrieved := Retrieve(e, hits.keyword, hits.semantic, hits.minimum, profile.retrievedChunks, budget);
    ghost var ranked :| IsRanking(hits.keyword, AtLeast(hits.semantic, hits.minimum), ranked)
                        && GreedyChoice(e, ranked, profile.retrievedChunks, budget, retrieved);
    if retrieved == [] {
      assert AskOutcome(e, profile, provider, fixed, conversation, hits, ranked, None);
      return None;
    }
    var history := KeepHistory(e, conversation, profile.historyTokens);
    call := Some(Call(history, retrieved));
    assert AskOutcome(e, profile, provider, fixed, conversation, hits, ranked, call);
  }

  /**
    Whatever the model is called with fits the window together with the output reserve and the safety margin when the
    history limit is not negative; a negative limit overdraws by at most its size. The evidence is read off the
    ranking in order, within the limit of the profile.
   */
  lemma AskFits(
    e: Estimator, profile: Profile, provider: Option<int>, fixed: nat, conversation: seq<string>, hits: Hits,
    ranked: seq<Retrieved>, call: Call)
    requires LabelsCost(e) && AskOutcome(e, profile, provider, fixed, conversation, hits, ranked, Some(call))
    ensures Total(e, profile, fixed, call) <= EffectiveWindow(profile, provider) + Max(0, -profile.historyTokens)
    ensures profile.historyTokens >= 0 ==> Total(e, profile, fixed, call) <= EffectiveWindow(profile, provider)
    ensures Subsequence(call.evidence, ranked) && |call.evidence| <= Max(0, profile.retrievedChunks)
    ensures call.history <= conversation && TokensOf(e, call.history) <= Max(0, profile.historyTokens)
    ensures forall n: nat :: |call.history| < n <= |conversation| ==> TokensOf(e, conversation[..n]) > profile.historyTokens
  {
    hide IsRanking, LabelsCost;
    SomethingCosts(e, call.evidence);
    PrefixCostsLess(e, conversation, |call.history|);
    assert conversation[..|call.history|] == call.history;
  }

  /**
    No passage is left out without need: one that was passed over while places were free would have exceeded the window
    together with what was chosen before it, even with no more of the history counted than the conversation and the
    limit have.
   */
  lemma NothingNeedlesslyLeft(
    e: Estimator, profile: Profile, provider: Option<int>, fixed: nat, conversation: seq<string>, hits: Hits,
    ranked: seq<Retrieved>, call: Option<Call>) returns (picks: seq<nat>, kept: int)
    requires AskOutcome(e, profile, provider, fixed, conversation, hits, ranked, call)
    ensures kept <= TokensOf(e, conversation) && kept <= profile.historyTokens
    ensures var evidence := if call.Some? then call.value.evidence else [];
      && Embeds(evidence, ranked, picks)
      && forall p: nat, c: nat :: p < |ranked| && PassedOver(picks, p, c) && c < profile.retrievedChunks ==>
        fixed + kept + Accounted(e, evidence[..c] + [ranked[p]]) + profile.maxOutput + SAFETY_MARGIN > EffectiveWindow(profile, provider)
  {
    hide IsRanking, Cost, Accounted, EffectiveWindow;
    kept := Min(TokensOf(e, conversation), profile.historyTokens);
    var evidence, budget := if call.Some? then call.value.evidence else [], AskBudget(e, profile, provider, fixed, conversation);
    picks :| Embeds(evidence, ranked, picks) && NothingSkippedFits(e, ranked, |ranked|, profile.retrievedChunks, budget, evidence, picks);
    forall p: nat, c: nat | p < |ranked| && PassedOver(picks, p, c) && c < profile.retrievedChunks
      ensures fixed + kept + Accounted(e, evidence[..c] + [ranked[p]]) + profile.maxOutput + SAFETY_MARGIN > EffectiveWindow(profile, provider)
    {
      AccountedSnoc(e, evidence[..c], ranked[p]);
    }
  }

  /** A passage that fills the budget of a profile with a negative history limit is sent, and exceeds the window. */
  lemma OverdrawnCall(
    e: Estimator, profile: Profile, provider: Option<int>, fixed: nat, conversation: seq<string>, item: Retrieved,
    ranked: seq<Retrieved>, call: Option<Call>)
    requires profile.historyTokens < 0 && profile.retrievedChunks >= 1
    requires Cost(e, 0, item) == AskBudget(e, profile, provider, fixed, conversation) >= 1
    requires AskOutcome(e, profile, provider, fixed, conversation, Hits([item], [], None), ranked, call)
    ensures call.Some? && Total(e, profile, fixed, call.value) > EffectiveWindow(profile, provider)
  {
    hide Cost, EffectiveWindow, TokensOf, GreedyChoice;
    assert ranked == [item];
    OnlyChoice(e, item, profile.retrievedChunks, AskBudget(e, profile, provider, fixed, conversation),
      if call.Some? then call.value.evidence else []);
    assert [item][..0] == [];
  }

  /** A single passage that fits is the only choice. */
  lemma OnlyChoice(e: Estimator, item: Retrieved, maxChunks: int, budget: int, selected: seq<Retrieved>)
    requires GreedyChoice(e, [item], maxChunks, budget, selected) && maxChunks >= 1 && Cost(e, 0, item) <= budget
    ensures selected == [item]
  {
    hide Cost;
    if selected == [] {
      FirstPassedOver(e, [item], maxChunks, budget);
    } else {
      var picks :| Embeds(selected, [item], picks);
      EmbedsNotLonger(selected, [item], picks);
    }
  }

  /** Nothing is chosen only when the first passage does not fit, or none may be chosen. */
  lemma FirstPassedOver(e: Estimator, ranked: seq<Retrieved>, maxChunks: int, budget: int)
    requires GreedyChoice(e, ranked, maxChunks, budget, []) && ranked != []
    ensures maxChunks <= 0 || Cost(e, 0, ranked[0]) > budget
  {
    hide Cost;
    var none: seq<Retrieved> := [];
    var picks :| Embeds(none, ranked, picks) && NothingSkippedFits(e, ranked, |ranked|, maxChunks, budget, none, picks);
    assert PassedOver(picks, 0, 0) && none[..0] == [];
  }

  lemma OneItemIsChosen(e: Estimator, item: Retrieved, maxChunks: int, budget: int)
    requires maxChunks >= 1 && Cost(e, 0, item) <= budget
    ensures GreedyChoice(e, [item], maxChunks, budget, [item])
  {
    hide Cost;
    AccountedSnoc(e, [], item);
    assert [] + [item] == [item];
    var picks: seq<nat> := [0];
    assert Embeds([item], [item], picks);
    assert NothingSkippedFits(e, [item], 1, maxChunks, budget, [item], picks);
  }

  /** A passage that fits can be made to fill the budget by its recorded count alone. */
  lemma FillingItem(e: Estimator, item: Retrieved, budget: int) returns (filling: Retrieved)
    requires Cost(e, 0, item) <= budget
    ensures Cost(e, 0, filling) == budget
  {
    if budget == LabelCost(e, 0, item) {
      filling := item;
    } else {
      filling := item.(chunk := item.chunk.(tokenCount := Some(budget - LabelCost(e, 0, item))));
    }
  }

  /** No hits, and no outcome for them, make the model be called with more than the window holds. */
  ghost predicate NeverOverdraws(e: Estimator, profile: Profile, provider: Option<int>, fixed: nat, conversation: seq<string>) {
    forall hits, ranked, call: Call :: AskOutcome(e, profile, provider, fixed, conversation, hits, ranked, Some(call)) ==>
      Total(e, profile, fixed, call) <= EffectiveWindow(profile, provider)
  }

  /**
    For a given profile, question and conversation the window is kept whatever the searches find exactly when the
    history limit is not negative, or no passage may be sent, or no passage fits the budget together with its label.
   */
  lemma BoundIsExact(e: Estimator, profile: Profile, provider: Option<int>, fixed: nat, conversation: seq<string>)
    requires LabelsCost(e)
    ensures NeverOverdraws(e, profile, provider, fixed, conversation) <==>
      || profile.historyTokens >= 0
      || profile.retrievedChunks < 1
      || forall item :: Cost(e, 0, item) > AskBudget(e, profile, provider, fixed, conversation)
  {
    var budget := AskBudget(e, profile, provider, fixed, conversation);
    hide AskBudget, Total, EffectiveWindow, Cost;
    if profile.historyTokens < 0 && profile.retrievedChunks >= 1 && exists item :: Cost(e, 0, item) <= budget {
      var item :| Cost(e, 0, item) <= budget;
      var filling := FillingItem(e, item, budget);
      LabelledCosts(e, filling);
      OneItemIsChosen(e, filling, profile.retrievedChunks, budget);
      var call := Call([], [filling]);
      NoHistory(e, conversation, profile.historyTokens);
      assert AskOutcome(e, profile, provider, fixed, conversation, Hits([filling], [], None), [filling], Some(call));
      OverdrawnCall(e, profile, provider, fixed, conversation, filling, [filling], Some(call));
    } else {
      forall hits, ranked, call: Call | AskOutcome(e, profile, provider, fixed, conversation, hits, ranked, Some(call))
        ensures Total(e, profile, fixed, call) <= EffectiveWindow(profile, provider)
      {
        AskFits(e, profile, provider, fixed, conversation, hits, ranked, call);
        FirstFits(e, ranked, profile.retrievedChunks, budget, call.evidence);
      }
    }
  }

  lemma LabelledCosts(e: Estimator, item: Retrieved)
    requires LabelsCost(e)
    ensures Cost(e, 0, item) >= 1
  {
  }

  lemma NoHistory(e: Estimator, conversation: seq<string>, limit: int)
    requires limit < 0
    ensures IsHistory(e, conversation, limit, [])
  {
  }

  /** The first passage chosen fits the budget on its own. */
  lemma {:induction false} FirstFits(e: Estimator, ranked: seq<Retrieved>, maxChunks: int, budget: int, selected: seq<Retrieved>)
    requires GreedyChoice(e, ranked, maxChunks, budget, selected) && selected != []
    ensures maxChunks >= 1 && Cost(e, 0, selected[0]) <= budget
  {
    FirstIsAccounted(e, selected);
  }

  lemma {:induction false} FirstIsAccounted(e: Estimator, selected: seq<Retrieved>)
    requires selected != []
    ensures Cost(e, 0, selected[0]) <= Accounted(e, selected)
  {
    if |selected| > 1 {
      FirstIsAccounted(e, selected[..|selected| - 1]);
    }
  }
}
