/** Sampling a long text: windows cut by character position and measured by the word-count estimator. */
module Windows {
  import Tokens

  // ---------------------------------------------------------------- words and strips

  /** Whitespace as the source's `strip` and `split` know it. */
  predicate IsSpace(c: char) {
    var n := c as int;
    || 9 <= n <= 13 || 28 <= n <= 32 || n == 0x85 || n == 0xA0 || n == 0x1680 || 0x2000 <= n <= 0x200A
    || n == 0x2028 || n == 0x2029 || n == 0x202F || n == 0x205F || n == 0x3000
  }

  /** A word starts where a non-space follows a space or the beginning. */
  predicate StartsWord(s: string, i: nat)
    requires i < |s|
  {
    !IsSpace(s[i]) && (i == 0 || IsSpace(s[i - 1]))
  }

  function Words(s: string): nat {
    if s == "" then 0 else Words(s[..|s| - 1]) + (if StartsWord(s, |s| - 1) then 1 else 0)
  }

  function WithoutTrailing(s: string): string {
    if s != "" && IsSpace(s[|s| - 1]) then WithoutTrailing(s[..|s| - 1]) else s
  }

  function WithoutLeading(s: string): string {
    if s != "" && IsSpace(s[0]) then WithoutLeading(s[1..]) else s
  }

  function Strip(s: string): string {
    WithoutTrailing(WithoutLeading(s))
  }

  /** `estimate_tokens` without a tokenizer. */
  function EstimateText(s: string): nat {
    Tokens.Estimate(Words(Strip(s)))
  }

  /** One more character in front adds at most the word that it starts. */
  lemma {:induction false} WordsPrepended(c: char, s: string)
    ensures Words([c] + s) == Words(s) + (if !IsSpace(c) && (s == "" || IsSpace(s[0])) then 1 else 0)
  {
    if s == "" {
      assert [c] + s == [c];
      assert Words([c]) == Words([c][..0]) + (if StartsWord([c], 0) then 1 else 0);
    } else {
      var front := s[..|s| - 1];
      WordsPrepended(c, front);
      assert ([c] + s)[..|[c] + s| - 1] == [c] + front;
      assert StartsWord([c] + s, |s|) <==> !IsSpace(s[|s| - 1]) && IsSpace(([c] + s)[|s| - 1]);
    }
  }

  lemma {:induction false} TrailingHasNoWords(s: string)
    ensures Words(WithoutTrailing(s)) == Words(s)
    ensures WithoutTrailing(s) <= s
  {
    if s != "" && IsSpace(s[|s| - 1]) {
      TrailingHasNoWords(s[..|s| - 1]);
    }
  }

  lemma {:induction false} LeadingHasNoWords(s: string)
    ensures Words(WithoutLeading(s)) == Words(s)
    ensures |WithoutLeading(s)| <= |s| && WithoutLeading(s) == s[|s| - |WithoutLeading(s)|..]
  {
    if s != "" && IsSpace(s[0]) {
      LeadingHasNoWords(s[1..]);
      WordsPrepended(s[0], s[1..]);
      assert s == [s[0]] + s[1..];
    }
  }

  /** Stripping never changes an estimate. */
  lemma StripKeepsEstimate(s: string)
    ensures Words(Strip(s)) == Words(s) && EstimateText(s) == Tokens.Estimate(Words(s))
    ensures EstimateText(WithoutTrailing(s)) == EstimateText(WithoutLeading(s)) == EstimateText(Strip(s)) == EstimateText(s)
  {
    forall t: string
      ensures Words(Strip(t)) == Words(t)
    {
      LeadingHasNoWords(t);
      TrailingHasNoWords(WithoutLeading(t));
    }
    TrailingHasNoWords(s);
    LeadingHasNoWords(s);
  }

  lemma {:induction false} PrefixHasFewerWords(s: string, n: nat)
    requires n <= |s|
    ensures Words(s[..n]) <= Words(s)
  {
    if n == |s| {
      assert s[..n] == s;
    } else {
      assert s[..|s| - 1][..n] == s[..n];
      PrefixHasFewerWords(s[..|s| - 1], n);
    }
  }

  lemma {:induction false} SuffixHasFewerWords(s: string, n: nat)
    requires n <= |s|
    ensures Words(s[n..]) <= Words(s)
  {
    if n == 0 {
      assert s[n..] == s;
    } else {
      assert s == [s[0]] + s[1..];
      WordsPrepended(s[0], s[1..]);
      assert s[1..][n - 1..] == s[n..];
      SuffixHasFewerWords(s[1..], n - 1);
    }
  }

  // ---------------------------------------------------------------- the two binary searches

  /** The first `n` characters, or the last `n`. */
  function Piece(s: string, fromStart: bool, n: nat): string
    requires n <= |s|
  {
    if fromStart then s[..n] else s[|s| - n..]
  }

  /** The cut is stripped on its open side. */
  function Trimmed(s: string, fromStart: bool): string {
    if fromStart then WithoutTrailing(s) else WithoutLeading(s)
  }

  lemma PieceHasFewerWords(s: string, fromStart: bool, m: nat, n: nat)
    requires m <= n <= |s|
    ensures Words(Piece(s, fromStart, m)) <= Words(Piece(s, fromStart, n))
  {
    hide Words;
    var long := Piece(s, fromStart, n);
    if fromStart {
      assert Piece(s, fromStart, m) == long[..m];
      PrefixHasFewerWords(long, m);
    } else {
      assert Piece(s, fromStart, m) == long[n - m..];
      SuffixHasFewerWords(long, n - m);
    }
  }

  /** Whichever end the piece is cut from, its estimate never falls with its length. */
  lemma PieceGrows(s: string, fromStart: bool, m: nat, n: nat)
    requires m <= n <= |s|
    ensures EstimateText(Piece(s, fromStart, m)) <= EstimateText(Piece(s, fromStart, n))
  {
    hide *;
    var short, long := Piece(s, fromStart, m), Piece(s, fromStart, n);
    PieceHasFewerWords(s, fromStart, m, n);
    StripKeepsEstimate(short);
    StripKeepsEstimate(long);
    Tokens.EstimateSuperadditive(Words(short), Words(long));
  }

  /** No longer piece fits. */
  ghost predicate LongestWithin(s: string, fromStart: bool, budget: int, n: nat) {
    && n <= |s| && EstimateText(Piece(s, fromStart, n)) <= budget
    && forall m: nat :: n < m <= |s| ==> EstimateText(Piece(s, fromStart, m)) > budget
  }

  /** The text itself when it fits, else its longest piece within the budget, trimmed. */
  ghost predicate IsTaken(s: string, fromStart: bool, budget: int, r: string) {
    if EstimateText(s) <= budget then r == s
    else if budget < 0 then r == ""
    else exists n: nat :: LongestWithin(s, fromStart, budget, n) && r == Trimmed(Piece(s, fromStart, n), fromStart)
  }

  lemma WholeIsTaken(s: string, fromStart: bool, budget: int)
    requires EstimateText(s) <= budget
    ensures IsTaken(s, fromStart, budget, s)
  {
  }

  lemma TakenFits(s: string, fromStart: bool, budget: int, r: string)
    requires IsTaken(s, fromStart, budget, r) && budget >= 0
    ensures EstimateText(r) <= budget
  {
    if EstimateText(s) > budget {
      var n: nat :| LongestWithin(s, fromStart, budget, n) && r == Trimmed(Piece(s, fromStart, n), fromStart);
      StripKeepsEstimate(Piece(s, fromStart, n));
    }
  }

  /** The search: pieces shorter than `lo` fit, pieces longer than `hi` do not, `best` is the longest tried that fits. */
  ghost predicate Searching(s: string, fromStart: bool, budget: int, lo: int, hi: int, best: string) {
    && 0 <= lo <= hi + 1 <= |s| + 1
    && (if lo == 0 then best == "" else
        EstimateText(Piece(s, fromStart, lo - 1)) <= budget && best == Trimmed(Piece(s, fromStart, lo - 1), fromStart))
    && forall m: nat :: hi < m <= |s| ==> EstimateText(Piece(s, fromStart, m)) > budget
  }

  lemma SearchStarts(s: string, fromStart: bool, budget: int)
    ensures Searching(s, fromStart, budget, 0, |s|, "")
  {
    hide EstimateText, Trimmed, Piece;
  }

  lemma SearchStep(s: string, fromStart: bool, budget: int, lo: int, hi: int, best: string, mid: nat)
    requires Searching(s, fromStart, budget, lo, hi, best) && lo <= mid <= hi
    ensures var candidate := Trimmed(Piece(s, fromStart, mid), fromStart);
      if EstimateText(candidate) <= budget then Searching(s, fromStart, budget, mid + 1, hi, candidate)
      else Searching(s, fromStart, budget, lo, mid - 1, best)
  {
    hide EstimateText, Trimmed, Piece;
    TrimKeepsEstimate(Piece(s, fromStart, mid), fromStart);
    forall m: nat | mid <= m <= |s|
      ensures EstimateText(Piece(s, fromStart, mid)) <= EstimateText(Piece(s, fromStart, m))
    {
      PieceGrows(s, fromStart, mid, m);
    }
  }

  lemma SearchEnds(s: string, fromStart: bool, budget: int, lo: int, hi: int, best: string)
    requires Searching(s, fromStart, budget, lo, hi, best) && lo > hi && EstimateText(s) > budget
    ensures IsTaken(s, fromStart, budget, best)
  {
    hide EstimateText, Trimmed, Piece;
    EmptyPieceIsFree(s, fromStart);
    if lo > 0 {
      assert LongestWithin(s, fromStart, budget, lo - 1);
    }
  }

  /** `_take_tokens_from_start` and `_take_tokens_from_end`: a binary search over the length of the piece. */
  method TakeTokens(text: string, fromStart: bool, budget: int) returns (best: string)
    ensures IsTaken(text, fromStart, budget, best)
  {
    hide *;
    if EstimateText(text) <= budget {
      WholeIsTaken(text, fromStart, budget);
      return text;
    }
    var lo, hi := 0, |text|;
    best := "";
    SearchStarts(text, fromStart, budget);
    while lo <= hi
      invariant 0 <= lo <= hi + 1 <= |text| + 1 && Searching(text, fromStart, budget, lo, hi, best)
    {
      var mid := (lo + hi) / 2;
      SearchStep(text, fromStart, budget, lo, hi, best, mid);
      var candidate := Trimmed(Piece(text, fromStart, mid), fromStart);
      if EstimateText(candidate) <= budget {
        best, lo := candidate, mid + 1;
      } else {
        hi := mid - 1;
      }
    }
    SearchEnds(text, fromStart, budget, lo, hi, best);
  }

  lemma TrimKeepsEstimate(s: string, fromStart: bool)
    ensures EstimateText(Trimmed(s, fromStart)) == EstimateText(s)
  {
    StripKeepsEstimate(s);
  }

  lemma EmptyPieceIsFree(s: string, fromStart: bool)
    ensures EstimateText(Piece(s, fromStart, 0)) == 0
  {
    assert Piece(s, fromStart, 0) == "";
  }

  // ---------------------------------------------------------------- the window around a position

  /** The least widening: 64 characters, or a twentieth of the text. */
  function Unit(s: string): nat {
    Tokens.Max(64, |s| / 20)
  }

  /** The text up to `w` characters to either side of the centre. */
  function Around(s: string, center: nat, w: nat): (r: string)
    requires center <= |s|
    ensures |r| <= 2 * w
  {
    s[Tokens.Max(0, center - w)..Tokens.Min(|s|, center + w)]
  }

  /** How much wider the next stretch is: by a quarter of this one, and by the unit at least. */
  function Step(s: string, stretch: string): nat {
    Tokens.Max(Unit(s), |stretch| / 4)
  }

  /** The widths tried, one after the other. */
  function Width(s: string, center: nat, n: nat): nat
    requires center <= |s|
  {
    if n == 0 then Unit(s) else
      var v := Width(s, center, n - 1);
      v + Step(s, Around(s, center, v))
  }

  /** The `n`-th width is the first whose stretch reaches the budget. */
  ghost predicate FirstToReach(s: string, center: nat, budget: int, n: nat)
    requires center <= |s|
  {
    && EstimateText(Around(s, center, Width(s, center, n))) >= budget
    && (n > 0 ==> EstimateText(Around(s, center, Width(s, center, n - 1))) < budget)
  }

  /**
    The text itself when it fits, else what fits of the beginning of the first stretch around the centre that reaches
    the budget.
   */
  ghost predicate IsTakenAround(s: string, center: nat, budget: int, r: string)
    requires center <= |s|
  {
    if s == "" || EstimateText(s) <= budget then r == s
    else exists n: nat :: FirstToReach(s, center, budget, n) && IsTaken(Around(s, center, Width(s, center, n)), true, budget, r)
  }

  lemma WiderIsLonger(s: string, center: nat, v: nat, w: nat)
    requires center <= |s| && v <= w
    ensures |Around(s, center, v)| <= |Around(s, center, w)|
  {
  }

  /** A stretch is at most two widths long, so a step is the unit or half the width at most. */
  lemma StepBounds(s: string, center: nat, w: nat)
    requires center <= |s|
    ensures 64 <= Unit(s) <= Step(s, Around(s, center, w)) <= Tokens.Max(Unit(s), w / 2)
    ensures w == Unit(s) ==> Step(s, Around(s, center, w)) == Unit(s)
  {
    hide Around;
  }

  function NextHalf(half: nat, length: nat): nat {
    Tokens.Max(half, if length / 4 != 0 then length / 4 else 1)
  }

  /** The step the loop holds ready is that of the longest stretch so far, which is the last one. */
  lemma StepGrows(s: string, before: string, stretch: string)
    requires |before| <= |stretch|
    ensures NextHalf(Step(s, before), |stretch|) == Step(s, stretch)
  {
  }

  lemma WidthStep(s: string, center: nat, n: nat)
    requires center <= |s|
    ensures Width(s, center, n + 1) == Width(s, center, n) + Step(s, Around(s, center, Width(s, center, n)))
  {
    hide Step, Around;
  }

  lemma FirstWidth(s: string, center: nat)
    requires center <= |s|
    ensures Width(s, center, 0) == Unit(s) == Tokens.Max(64, |s| / 20)
  {
  }

  lemma ReachedWidth(s: string, center: nat, budget: int, n: nat)
    requires center <= |s| && EstimateText(s) > budget
    requires n > 0 ==> EstimateText(Around(s, center, Width(s, center, n - 1))) < budget
    requires EstimateText(Around(s, center, Width(s, center, n))) >= budget || Around(s, center, Width(s, center, n)) == s
    ensures FirstToReach(s, center, budget, n)
  {
    hide EstimateText, Around, Width;
  }

  /** The bounds of the stretch of a width. */
  predicate Bounds(s: string, center: nat, w: nat, lo: nat, hi: nat) {
    lo == Tokens.Max(0, center - w) && hi == Tokens.Min(|s|, center + w)
  }

  lemma StretchAt(s: string, center: nat, w: nat, lo: nat, hi: nat)
    requires center <= |s| && Bounds(s, center, w, lo, hi)
    ensures lo <= center <= hi <= |s| && s[lo..hi] == Around(s, center, w)
    ensures lo == 0 && hi == |s| ==> Around(s, center, w) == s
  {
  }

  lemma BoundsWiden(s: string, center: nat, w: nat, lo: nat, hi: nat, half: nat)
    requires center <= |s| && Bounds(s, center, w, lo, hi) && half > 0 && (lo > 0 || hi < |s|)
    ensures var lo', hi' := Tokens.Max(0, lo - half), Tokens.Min(|s|, hi + half);
      && 0 <= lo' <= center <= hi' <= |s| && Bounds(s, center, w + half, lo', hi')
      && lo' + (|s| - hi') < lo + (|s| - hi)
  {
  }

  /** What the loop holds after `n` widenings. */
  ghost predicate Widened(s: string, center: nat, n: nat, lo: nat, hi: nat, best: string, half: nat) {
    && lo <= center <= hi <= |s| && best == s[lo..hi]
    && Bounds(s, center, Width(s, center, n), lo, hi)
    && half == Step(s, best) > 0
  }

  lemma WidenedAtFirst(s: string, center: nat)
    requires center <= |s|
    ensures var half := Tokens.Max(64, |s| / 20);
      var lo, hi := Tokens.Max(0, center - half), Tokens.Min(|s|, center + half);
      && 0 <= lo <= hi <= |s| && Widened(s, center, 0, lo, hi, s[lo..hi], half)
  {
    FirstWidth(s, center);
    StepBounds(s, center, Unit(s));
    hide Step, Width;
    StretchAt(s, center, Unit(s), Tokens.Max(0, center - Unit(s)), Tokens.Min(|s|, center + Unit(s)));
  }

  lemma WidenedAgain(s: string, center: nat, n: nat, lo: nat, hi: nat, best: string, half: nat)
    requires center <= |s| && Widened(s, center, n, lo, hi, best, half) && (lo > 0 || hi < |s|)
    ensures var lo', hi' := Tokens.Max(0, lo - half), Tokens.Min(|s|, hi + half);
      && 0 <= lo' <= hi' <= |s| && lo' + (|s| - hi') < lo + (|s| - hi)
      && Widened(s, center, n + 1, lo', hi', s[lo'..hi'], NextHalf(half, hi' - lo'))
  {
    hide Step, Width, Bounds, Around, NextHalf;
    var w := Width(s, center, n);
    StretchAt(s, center, w, lo, hi);
    WidthStep(s, center, n);
    BoundsWiden(s, center, w, lo, hi, half);
    var lo', hi' := Tokens.Max(0, lo - half), Tokens.Min(|s|, hi + half);
    StretchAt(s, center, w + half, lo', hi');
    WiderIsLonger(s, center, w, w + half);
    StepGrows(s, best, s[lo'..hi']);
    StepBounds(s, center, w + half);
  }

  lemma WidenedIsAround(s: string, center: nat, n: nat, lo: nat, hi: nat, best: string, half: nat)
    requires center <= |s| && Widened(s, center, n, lo, hi, best, half)
    ensures best == Around(s, center, Width(s, center, n)) && (lo == 0 && hi == |s| ==> best == s)
    ensures lo <= hi <= |s|
  {
    hide Step, Width, Around, Bounds;
    StretchAt(s, center, Width(s, center, n), lo, hi);
  }

  /** The body of the loop of `_take_tokens_around`. */
  method WidenOnce(text: string, center: nat, ghost n: nat, lo: nat, hi: nat, best: string, half: nat)
    returns (lo': nat, hi': nat, best': string, half': nat)
    requires center <= |text| && Widened(text, center, n, lo, hi, best, half) && (lo > 0 || hi < |text|)
    ensures Widened(text, center, n + 1, lo', hi', best', half')
    ensures hi' <= |text| && lo' + (|text| - hi') < lo + (|text| - hi)
  {
    hide *;
    WidenedAgain(text, center, n, lo, hi, best, half);
    lo', hi' := Tokens.Max(0, lo - half), Tokens.Min(|text|, hi + half);
    best' := text[lo'..hi'];
    half' := NextHalf(half, hi' - lo');
  }

  /** The loop of `_take_tokens_around`. */
  method Widen(text: string, center: nat, budget: int) returns (best: string, ghost n: nat)
    requires center <= |text| && EstimateText(text) > budget
    ensures best == Around(text, center, Width(text, center, n)) && FirstToReach(text, center, budget, n)
  {
    hide EstimateText, Widened, Width, FirstToReach, Around;
    WidenedAtFirst(text, center);
    var half: nat := Tokens.Max(64, |text| / 20);
    var lo: nat, hi: nat := Tokens.Max(0, center - half), Tokens.Min(|text|, center + half);
    best, n := text[lo..hi], 0;
    while EstimateText(best) < budget && (lo > 0 || hi < |text|)
      invariant hi <= |text| && Widened(text, center, n, lo, hi, best, half)
      invariant n > 0 ==> EstimateText(Around(text, center, Width(text, center, n - 1))) < budget
      decreases lo + (|text| - hi)
    {
      WidenedIsAround(text, center, n, lo, hi, best, half);
      lo, hi, best, half := WidenOnce(text, center, n, lo, hi, best, half);
      n := n + 1;
    }
    WidenedIsAround(text, center, n, lo, hi, best, half);
    ReachedWidth(text, center, budget, n);
  }

  /** `_take_tokens_around`: widening until the budget is reached or the whole text is taken. */
  method TakeAround(text: string, center: nat, budget: int) returns (r: string)
    requires center <= |text|
    ensures IsTakenAround(text, center, budget, r)
  {
    hide EstimateText, IsTaken, Width, FirstToReach, Around;
    if text == "" {
      return "";
    }
    if EstimateText(text) <= budget {
      return text;
    }
    ghost var n;
    r, n := Widen(text, center, budget);
    assert EstimateText(r) >= budget by { ReachesBudget(text, center, budget, n); }
    r := WithinBudget(r, budget);
  }

  lemma ReachesBudget(s: string, center: nat, budget: int, n: nat)
    requires center <= |s| && FirstToReach(s, center, budget, n)
    ensures EstimateText(Around(s, center, Width(s, center, n))) >= budget
  {
    hide EstimateText, Around, Width;
  }

  /** The last lines of `_take_tokens_around`: cut back what overshot. */
  method WithinBudget(best: string, budget: int) returns (r: string)
    requires EstimateText(best) >= budget
    ensures IsTaken(best, true, budget, r)
  {
    hide EstimateText, IsTaken;
    r := best;
    if EstimateText(best) > budget {
      r := TakeTokens(best, true, budget);
    } else {
      WholeIsTaken(best, true, budget);
    }
  }

  lemma TakenAroundFits(s: string, center: nat, budget: int, r: string)
    requires center <= |s| && IsTakenAround(s, center, budget, r) && budget >= 0
    ensures EstimateText(r) <= budget
  {
    hide IsTaken, FirstToReach;
    if s != "" && EstimateText(s) > budget {
      var n: nat :| FirstToReach(s, center, budget, n) && IsTaken(Around(s, center, Width(s, center, n)), true, budget, r);
      TakenFits(Around(s, center, Width(s, center, n)), true, budget, r);
    }
  }

  lemma SliceOfSlice(s: string, a: nat, b: nat, c: nat, d: nat)
    requires a <= b <= c <= d <= |s|
    ensures s[b..c] == s[a..d][..c - a][b - a..]
  {
    var front := s[a..d][..c - a];
    assert |front| == c - a && forall i :: 0 <= i < c - a ==> front[i] == s[a + i];
  }

  lemma AroundGrows(s: string, center: nat, v: nat, w: nat)
    requires center <= |s| && v <= w
    ensures EstimateText(Around(s, center, v)) <= EstimateText(Around(s, center, w))
  {
    hide EstimateText, Words;
    var narrow, wide := Around(s, center, v), Around(s, center, w);
    var start := Tokens.Max(0, center - w);
    var from, to := Tokens.Max(0, center - v) - start, Tokens.Min(|s|, center + v) - start;
    SliceOfSlice(s, start, start + from, start + to, Tokens.Min(|s|, center + w));
    PrefixHasFewerWords(wide, to);
    SuffixHasFewerWords(wide[..to], from);
    StripKeepsEstimate(narrow);
    StripKeepsEstimate(wide);
    Tokens.EstimateSuperadditive(Words(narrow), Words(wide));
  }

  lemma {:induction false} WidthsGrow(s: string, center: nat, m: nat, n: nat)
    requires center <= |s| && m <= n
    ensures Width(s, center, m) <= Width(s, center, n)
  {
    hide Width;
    if m < n {
      WidthsGrow(s, center, m, n - 1);
      WidthStep(s, center, n - 1);
    }
  }

  lemma TakenIsUnique(s: string, fromStart: bool, budget: int, r: string, r': string)
    requires IsTaken(s, fromStart, budget, r) && IsTaken(s, fromStart, budget, r')
    ensures r == r'
  {
    hide EstimateText, Piece, Trimmed;
    if EstimateText(s) > budget && budget >= 0 {
      var n: nat :| LongestWithin(s, fromStart, budget, n) && r == Trimmed(Piece(s, fromStart, n), fromStart);
      var m: nat :| LongestWithin(s, fromStart, budget, m) && r' == Trimmed(Piece(s, fromStart, m), fromStart);
      assert n == m;
    }
  }

  /** Only one text can be taken around a centre. */
  lemma TakenAroundIsUnique(s: string, center: nat, budget: int, r: string, r': string)
    requires center <= |s| && IsTakenAround(s, center, budget, r) && IsTakenAround(s, center, budget, r')
    ensures r == r'
  {
    if s != "" && EstimateText(s) > budget {
      var n: nat :| FirstToReach(s, center, budget, n) && IsTaken(Around(s, center, Width(s, center, n)), true, budget, r);
      var m: nat :| FirstToReach(s, center, budget, m) && IsTaken(Around(s, center, Width(s, center, m)), true, budget, r');
      hide IsTaken, EstimateText, Around, Width;
      if n < m {
        NoLaterReach(s, center, budget, n, m);
      } else if m < n {
        NoLaterReach(s, center, budget, m, n);
      }
      TakenIsUnique(Around(s, center, Width(s, center, n)), true, budget, r, r');
    }
  }

  lemma NoLaterReach(s: string, center: nat, budget: int, m: nat, n: nat)
    requires center <= |s| && FirstToReach(s, center, budget, m) && m < n
    ensures !FirstToReach(s, center, budget, n)
  {
    hide EstimateText, Around, Width;
    WidthsGrow(s, center, m, n - 1);
    AroundGrows(s, center, Width(s, center, m), Width(s, center, n - 1));
  }

  lemma BelowBudget(s: string, center: nat, budget: int, n: nat)
    requires center <= |s| && FirstToReach(s, center, budget, n) && n > 0
    ensures EstimateText(Around(s, center, Width(s, center, n - 1))) < budget
  {
    hide EstimateText, Around, Width;
  }

  /**
    The window lies at the centre: it begins no more than `w` characters before it, where `w` is the least widening or
    widens some `v`, whose stretch is still below the budget, by a quarter of that stretch and by the unit at least.
   */
  lemma TakenNearCentre(s: string, center: nat, budget: int, r: string) returns (v: nat, w: nat)
    requires center <= |s| && IsTakenAround(s, center, budget, r) && s != "" && EstimateText(s) > budget >= 0
    ensures r <= Around(s, center, w)
    ensures w == Unit(s) || (v < w <= v + Tokens.Max(Unit(s), v / 2) && EstimateText(Around(s, center, v)) < budget)
    ensures w == Unit(s) || w == v + Tokens.Max(Unit(s), |Around(s, center, v)| / 4)
    ensures Unit(s) == Tokens.Max(64, |s| / 20)
  {
    var n: nat :| FirstToReach(s, center, budget, n) && IsTaken(Around(s, center, Width(s, center, n)), true, budget, r);
    hide IsTaken, EstimateText, Around, Width, Unit;
    FirstWidth(s, center);
    w := Width(s, center, n);
    v := if n > 0 then Width(s, center, n - 1) else 0;
    if n > 0 {
      WidthStep(s, center, n - 1);
      StepBounds(s, center, v);
      BelowBudget(s, center, budget, n);
    }
    TakenIsPrefix(Around(s, center, w), budget, r);
  }

  lemma TakenIsPrefix(s: string, budget: int, r: string)
    requires IsTaken(s, true, budget, r)
    ensures r <= s
  {
    hide EstimateText;
    if EstimateText(s) > budget && budget >= 0 {
      var n: nat :| LongestWithin(s, true, budget, n) && r == Trimmed(Piece(s, true, n), true);
      TrailingHasNoWords(s[..n]);
    }
  }

  // ---------------------------------------------------------------- the four windows

  datatype Section = Beginning | EarlyMiddle | LateMiddle | Ending

  /** 30, 20, 20 percent, and what is left; never less than one token each. */
  function Share(section: Section, budget: int): int {
    match section
    case Beginning => Tokens.Max(1, budget * 3 / 10)
    case EarlyMiddle => Tokens.Max(1, budget / 5)
    case LateMiddle => Tokens.Max(1, budget / 5)
    case Ending =>
      Tokens.Max(1, budget - (Tokens.Max(1, budget * 3 / 10) + Tokens.Max(1, budget / 5) + Tokens.Max(1, budget / 5)))
  }

  function TotalShare(budget: int): int {
    Share(Beginning, budget) + Share(EarlyMiddle, budget) + Share(LateMiddle, budget) + Share(Ending, budget)
  }

  /** The shares add up to the budget, unless it is below four tokens and cannot give one to each. */
  lemma SharesSpendBudget(budget: int)
    ensures if budget >= 4 then TotalShare(budget) == budget else TotalShare(budget) == 4
    ensures budget >= 5 ==>
      && Share(Beginning, budget) * 10 <= budget * 3 < Share(Beginning, budget) * 10 + 10
      && Share(EarlyMiddle, budget) == Share(LateMiddle, budget) && Share(EarlyMiddle, budget) * 5 <= budget < Share(EarlyMiddle, budget) * 5 + 5
  {
  }

  function Join(pages: seq<string>): string {
    if pages == [] then "" else if |pages| == 1 then pages[0] else pages[0] + "\n\n" + Join(pages[1..])
  }

  function TokensIn(sections: seq<(Section, string)>): nat {
    if sections == [] then 0
    else TokensIn(sections[..|sections| - 1]) + EstimateText(sections[|sections| - 1].1)
  }

  /** One window of the text before it is stripped and labelled. */
  ghost predicate IsWindow(text: string, section: Section, budget: int, chunk: string) {
    match section
    case Beginning => IsTaken(text, true, Share(section, budget), chunk)
    case EarlyMiddle => IsTakenAround(text, |text| * 33 / 100, Share(section, budget), chunk)
    case LateMiddle => IsTakenAround(text, |text| * 66 / 100, Share(section, budget), chunk)
    case Ending => IsTaken(text, false, Share(section, budget), chunk)
  }

  lemma WindowFits(text: string, section: Section, budget: int, chunk: string)
    requires IsWindow(text, section, budget, chunk)
    ensures EstimateText(Strip(chunk)) <= Share(section, budget)
  {
    hide IsTaken, IsTakenAround, EstimateText;
    StripKeepsEstimate(chunk);
    match section
    case Beginning => TakenFits(text, true, Share(section, budget), chunk);
    case Ending => TakenFits(text, false, Share(section, budget), chunk);
    case EarlyMiddle => TakenAroundFits(text, |text| * 33 / 100, Share(section, budget), chunk);
    case LateMiddle => TakenAroundFits(text, |text| * 66 / 100, Share(section, budget), chunk);
  }

  method TakeWindow(text: string, section: Section, budget: int) returns (chunk: string)
    ensures IsWindow(text, section, budget, chunk)
  {
    hide IsTaken, IsTakenAround, Share;
    match section
    case Beginning => chunk := TakeTokens(text, true, Share(section, budget));
    case Ending => chunk := TakeTokens(text, false, Share(section, budget));
    case EarlyMiddle => chunk := TakeAround(text, |text| * 33 / 100, Share(section, budget));
    case LateMiddle => chunk := TakeAround(text, |text| * 66 / 100, Share(section, budget));
  }

  const SECTIONS := [Beginning, EarlyMiddle, LateMiddle, Ending]

  /** The first windows, one for each section in order. */
  ghost predicate AreWindows(text: string, budget: int, chunks: seq<string>) {
    |chunks| <= |SECTIONS| && forall i :: 0 <= i < |chunks| ==> IsWindow(text, SECTIONS[i], budget, chunks[i])
  }

  /** The windows stripped and labelled; blank ones leave no section. */
  function Labelled(chunks: seq<string>): seq<(Section, string)>
    requires |chunks| <= |SECTIONS|
  {
    if chunks == [] then []
    else
      var last := Strip(chunks[|chunks| - 1]);
      Labelled(chunks[..|chunks| - 1]) + (if last == "" then [] else [(SECTIONS[|chunks| - 1], last)])
  }

  function ShareUpTo(n: nat, budget: int): int
    requires n <= |SECTIONS|
  {
    if n == 0 then 0 else ShareUpTo(n - 1, budget) + Share(SECTIONS[n - 1], budget)
  }

  /** Windows stay within their shares, whichever of them are blank. */
  lemma {:induction false} WindowsFit(text: string, budget: int, chunks: seq<string>)
    requires AreWindows(text, budget, chunks)
    ensures TokensIn(Labelled(chunks)) <= ShareUpTo(|chunks|, budget)
  {
    hide IsWindow, EstimateText, Strip, Share, Labelled;
    if chunks == [] {
      NothingLabelled();
    } else {
      var n := |chunks| - 1;
      WindowsFit(text, budget, chunks[..n]);
      WindowFits(text, SECTIONS[n], budget, chunks[n]);
      ShareAtLeastOne(SECTIONS[n], budget);
      LabelOne(chunks, n);
    }
  }

  lemma NothingLabelled()
    ensures TokensIn(Labelled([])) == 0
  {
  }

  lemma LabelOne(chunks: seq<string>, n: nat)
    requires |chunks| == n + 1 <= |SECTIONS|
    ensures TokensIn(Labelled(chunks)) <= TokensIn(Labelled(chunks[..n])) + EstimateText(Strip(chunks[n]))
  {
    hide EstimateText, Strip;
    var last := Strip(chunks[n]);
    var front := Labelled(chunks[..n]);
    var longer := front + [(SECTIONS[n], last)];
    assert longer[..|longer| - 1] == front;
    assert Labelled(chunks) == if last == "" then front + [] else longer;
    assert front + [] == front;
  }

  lemma ShareAtLeastOne(section: Section, budget: int)
    ensures Share(section, budget) >= 1
  {
  }

  /**
    `_sample_windows`: the four windows in order, blank ones left out. Labels aside they stay within the budget when it
    is at least four tokens.
   */
  method SampleWindows(pages: seq<string>, budget: int) returns (sections: seq<(Section, string)>)
    ensures exists chunks: seq<string> ::
      |chunks| == |SECTIONS| && AreWindows(Join(pages), budget, chunks) && sections == Labelled(chunks)
    ensures TokensIn(sections) <= Tokens.Max(4, budget)
  {
    hide Join, IsWindow, Strip, Share, ShareUpTo, EstimateText, TokensIn;
    var text := Join(pages);
    sections := [];
    ghost var chunks: seq<string> := [];
    for i := 0 to |SECTIONS|
      invariant |chunks| == i && AreWindows(text, budget, chunks) && sections == Labelled(chunks)
    {
      var chunk := TakeWindow(text, SECTIONS[i], budget);
      assert (chunks + [chunk])[..i] == chunks;
      chunks := chunks + [chunk];
      if Strip(chunk) != "" {
        sections := sections + [(SECTIONS[i], Strip(chunk))];
      }
    }
    WindowsFit(text, budget, chunks);
    AllShares(budget);
    SharesSpendBudget(budget);
  }

  /** The pages and the budget leave no choice of windows. */
  lemma {:induction false} WindowsDetermined(text: string, budget: int, chunks: seq<string>, chunks': seq<string>)
    requires AreWindows(text, budget, chunks) && AreWindows(text, budget, chunks') && |chunks| == |chunks'|
    ensures chunks == chunks'
  {
    forall i | 0 <= i < |chunks|
      ensures chunks[i] == chunks'[i]
    {
      hide IsTaken, IsTakenAround, Share, EstimateText;
      var section := SECTIONS[i];
      var share := Share(section, budget);
      assert IsWindow(text, section, budget, chunks[i]) && IsWindow(text, section, budget, chunks'[i]);
      match section
      case Beginning => TakenIsUnique(text, true, share, chunks[i], chunks'[i]);
      case Ending => TakenIsUnique(text, false, share, chunks[i], chunks'[i]);
      case EarlyMiddle => TakenAroundIsUnique(text, |text| * 33 / 100, share, chunks[i], chunks'[i]);
      case LateMiddle => TakenAroundIsUnique(text, |text| * 66 / 100, share, chunks[i], chunks'[i]);
    }
  }

  lemma AllShares(budget: int)
    ensures ShareUpTo(4, budget) == TotalShare(budget)
  {
    assert ShareUpTo(1, budget) == Share(Beginning, budget);
    assert ShareUpTo(2, budget) == ShareUpTo(1, budget) + Share(EarlyMiddle, budget);
    assert ShareUpTo(3, budget) == ShareUpTo(2, budget) + Share(LateMiddle, budget);
  }
}
