/**
  Token estimation and token-bounded splitting, in the branch that runs without a tokenizer.
  A text is the sequence of its whitespace-separated words: the estimator and the splitter
  look at nothing else.
 */
module Tokens {
  import opened Sequences

  type Word = string
  type Text = seq<Word>

  function Max(a: int, b: int): int {
    if a < b then b else a
  }

  function Min(a: int, b: int): int {
    if a < b then a else b
  }

  /** 1.3 tokens a word, rounded down, and never zero for a text that has words. */
  function Estimate(words: nat): nat {
    if words == 0 then 0 else Max(1, words * 13 / 10)
  }

  function EstimateTokens(text: Text): nat {
    Estimate(|text|)
  }

  function WordsPerPiece(maxTokens: nat): nat {
    Max(1, maxTokens * 10 / 13)
  }

  /** The estimator never decreases, and rounding makes joining texts cost more, never less. */
  lemma EstimateSuperadditive(a: nat, b: nat)
    ensures Estimate(a) + Estimate(b) <= Estimate(a + b)
    ensures a <= b ==> Estimate(a) <= Estimate(b)
  {
  }

  /** A full piece always fits, so a text over the bound has more words than one piece. */
  lemma PieceFits(maxTokens: nat, words: nat)
    requires maxTokens >= 1
    ensures words <= WordsPerPiece(maxTokens) ==> Estimate(words) <= maxTokens
  {
  }

  /** Two words more than a full piece never fit: pieces are as long as the bound allows, up to one word. */
  lemma PieceIsFull(maxTokens: nat)
    ensures Estimate(WordsPerPiece(maxTokens) + 2) > maxTokens
  {
  }

  /** The text cut into runs of `size` words; only the last one may be shorter. */
  function Cut(text: Text, size: nat): (pieces: seq<Text>)
    requires size >= 1
  {
    if text == [] then []
    else if |text| <= size then [text]
    else [text[..size]] + Cut(text[size..], size)
  }

  /** What splitting under a token bound yields: the text itself when it fits, else full pieces. */
  function Pieces(text: Text, maxTokens: nat): (pieces: seq<Text>)
  {
    if text == [] then []
    else if EstimateTokens(text) <= maxTokens then [text]
    else Cut(text, WordsPerPiece(maxTokens))
  }

  lemma {:induction false} CutFacts(text: Text, size: nat)
    requires size >= 1
    ensures Flatten(Cut(text, size)) == text
    ensures forall p :: p in Cut(text, size) ==> 1 <= |p| <= size
    ensures |text| > size ==> |Cut(text, size)| >= 2
    ensures forall i :: 0 <= i < |Cut(text, size)| - 1 ==> |Cut(text, size)[i]| == size
  {
    if |text| > size {
      CutFacts(text[size..], size);
      assert Flatten(Cut(text, size)) == text[..size] + Flatten(Cut(text[size..], size)) by {
        assert Cut(text, size)[1..] == Cut(text[size..], size);
      }
      assert Cut(text[size..], size) != [];
    } else if text != [] {
      assert Flatten([text]) == text + Flatten<Word>([]);
    }
  }

  /**
    Splitting keeps every word in its place, no piece is empty or over the bound, and a text
    is really split exactly when its estimate is over the bound.
   */
  lemma PiecesFacts(text: Text, maxTokens: nat)
    requires maxTokens >= 1
    ensures Flatten(Pieces(text, maxTokens)) == text
    ensures forall p :: p in Pieces(text, maxTokens) ==> p != [] && EstimateTokens(p) <= maxTokens
    ensures |Pieces(text, maxTokens)| >= 2 <==> EstimateTokens(text) > maxTokens
    ensures Pieces(text, maxTokens) == [] <==> text == []
  {
    var size := WordsPerPiece(maxTokens);
    CutFacts(text, size);
    PieceFits(maxTokens, |text|);
    forall p | p in Cut(text, size)
      ensures EstimateTokens(p) <= maxTokens
    {
      PieceFits(maxTokens, |p|);
    }
    if text != [] && EstimateTokens(text) <= maxTokens {
      assert Flatten([text]) == text + Flatten<Word>([]);
    }
  }

  /** Pieces are not cut shorter than the bound asks for: two words more would take any but the last over it. */
  lemma PiecesAreFull(text: Text, maxTokens: nat)
    ensures var pieces := Pieces(text, maxTokens);
      forall i :: 0 <= i < |pieces| - 1 ==> |pieces[i]| == |pieces[0]| && Estimate(|pieces[i]| + 2) > maxTokens
  {
    hide EstimateTokens, Estimate, Flatten, Cut;
    CutFacts(text, WordsPerPiece(maxTokens));
    PieceIsFull(maxTokens);
  }

  lemma CutInThree(text: Text, size: nat)
    requires size >= 1 && |text| <= 3 * size
    ensures |Cut(text, size)| <= 3
  {
    if |text| > size && |text| - size > size {
      var rest := text[size..][size..];
      assert |Cut(rest, size)| <= 1;
    }
  }

  /** The pieces still to be cut when the scan stands at `start`. */
  function CutFrom(text: Text, size: nat, start: nat): seq<Text>
    requires size >= 1
  {
    if start < |text| then Cut(text[start..], size) else []
  }

  lemma CutStep(text: Text, size: nat, start: nat)
    requires size >= 1 && start < |text|
    ensures CutFrom(text, size, start)
         == [text[start..Min(start + size, |text|)]] + CutFrom(text, size, start + size)
  {
    var rest := text[start..];
    if |rest| > size {
      assert rest[..size] == text[start..start + size];
      assert rest[size..] == text[start + size..];
    } else {
      assert rest == text[start..Min(start + size, |text|)];
    }
  }

  /** The scan over `range(0, len(words), size)`. */
  method CutByWords(text: Text, size: nat) returns (cut: seq<Text>)
    requires size >= 1
    ensures cut == Cut(text, size)
  {
    cut := [];
    var start := 0;
    ghost var pieces := Cut(text, size);
    assert text[0..] == text;
    assert CutFrom(text, size, 0) == pieces;
    while start < |text|
      invariant pieces == cut + CutFrom(text, size, start)
    {
      var piece := text[start..Min(start + size, |text|)];
      CutStep(text, size, start);
      assert pieces == cut + [piece] + CutFrom(text, size, start + size);
      cut := cut + [piece];
      start := start + size;
    }
  }

  /**
    The splitter as it runs: cut by word count, then harden the pieces that are still over the
    bound. The hardening branch, which falls back to windows of characters, cannot be reached.
   */
  method SplitTextByTokens(text: Text, maxTokens: nat) returns (parts: seq<Text>)
    requires maxTokens >= 1
    ensures parts == Pieces(text, maxTokens)
    ensures Flatten(parts) == text
    ensures forall p :: p in parts ==> p != [] && EstimateTokens(p) <= maxTokens
  {
    hide Flatten, Estimate, Cut;
    PiecesFacts(text, maxTokens);
    if text == [] {
      return [];
    }
    if EstimateTokens(text) <= maxTokens {
      return [text];
    }
    var cut := CutByWords(text, WordsPerPiece(maxTokens));
    assert cut == Pieces(text, maxTokens);
    parts := [];
    for i := 0 to |cut|
      invariant parts == cut[..i]
    {
      assert cut[i] in Pieces(text, maxTokens);
      if EstimateTokens(cut[i]) <= maxTokens {
        parts := parts + [cut[i]];
      } else {
        assert false;
      }
    }
  }
}
