/** Facts about sequences that the chunking and embedding models share. */
module Sequences {

  /** The concatenation of a sequence of sequences. */
  function Flatten<T>(parts: seq<seq<T>>): (flat: seq<T>)
  {
    if parts == [] then [] else parts[0] + Flatten(parts[1..])
  }

  lemma {:induction false} FlattenAppend<T>(xs: seq<seq<T>>, ys: seq<seq<T>>)
    ensures Flatten(xs + ys) == Flatten(xs) + Flatten(ys)
  {
    if xs == [] {
      assert xs + ys == ys;
    } else {
      FlattenAppend(xs[1..], ys);
      assert (xs + ys)[1..] == xs[1..] + ys;
      assert Flatten(xs + ys) == xs[0] + Flatten(xs[1..] + ys);
    }
  }

  lemma FlattenSnoc<T>(xs: seq<seq<T>>, y: seq<T>)
    ensures Flatten(xs + [y]) == Flatten(xs) + y
  {
    FlattenAppend(xs, [y]);
    assert Flatten([y]) == y + Flatten<T>([]);
  }

  /** The concatenation of `f(x)` over the elements of a sequence. */
  function FlatMap<A, B>(f: A -> seq<B>, xs: seq<A>): (flat: seq<B>)
  {
    if xs == [] then [] else f(xs[0]) + FlatMap(f, xs[1..])
  }

  lemma {:induction false} FlatMapAppend<A, B>(f: A -> seq<B>, xs: seq<A>, ys: seq<A>)
    ensures FlatMap(f, xs + ys) == FlatMap(f, xs) + FlatMap(f, ys)
  {
    if xs == [] {
      assert xs + ys == ys;
    } else {
      FlatMapAppend(f, xs[1..], ys);
      assert (xs + ys)[1..] == xs[1..] + ys;
      assert FlatMap(f, xs + ys) == f(xs[0]) + FlatMap(f, xs[1..] + ys);
    }
  }

  lemma FlatMapSnoc<A, B>(f: A -> seq<B>, xs: seq<A>, y: A)
    ensures FlatMap(f, xs + [y]) == FlatMap(f, xs) + f(y)
  {
    FlatMapAppend(f, xs, [y]);
    assert FlatMap(f, [y]) == f(y) + FlatMap(f, []);
  }

  /** Mapping twice is mapping once with the composition `h`. */
  lemma {:induction false} FlatMapCompose<A, B, C>(f: A -> seq<B>, g: B -> seq<C>, h: A -> seq<C>, xs: seq<A>)
    requires forall x :: x in xs ==> FlatMap(g, f(x)) == h(x)
    ensures FlatMap(g, FlatMap(f, xs)) == FlatMap(h, xs)
  {
    if xs != [] {
      FlatMapCompose(f, g, h, xs[1..]);
      FlatMapAppend(g, f(xs[0]), FlatMap(f, xs[1..]));
      assert xs[0] in xs;
    }
  }

  lemma {:induction false} FlatMapMember<A, B>(f: A -> seq<B>, xs: seq<A>, b: B) returns (x: A)
    requires b in FlatMap(f, xs)
    ensures x in xs && b in f(x)
  {
    if b in f(xs[0]) {
      x := xs[0];
    } else {
      x := FlatMapMember(f, xs[1..], b);
    }
  }

  predicate Distinct<T(==)>(s: seq<T>) {
    forall i, j :: 0 <= i < j < |s| ==> s[i] != s[j]
  }

  function Elements<T>(s: seq<T>): set<T> {
    set x | x in s
  }

  lemma {:induction false} DistinctCount<T>(s: seq<T>)
    requires Distinct(s)
    ensures |Elements(s)| == |s|
  {
    if s == [] {
    } else {
      var front := s[..|s| - 1];
      DistinctCount(front);
      assert s == front + [s[|s| - 1]];
      assert Elements(s) == Elements(front) + {s[|s| - 1]};
    }
  }

  /** `embedding` picks positions of `ys`, in increasing order, that spell out `xs`. */
  ghost predicate Embeds<T>(xs: seq<T>, ys: seq<T>, embedding: seq<nat>) {
    && |embedding| == |xs|
    && (forall i :: 0 <= i < |xs| ==> embedding[i] < |ys| && ys[embedding[i]] == xs[i])
    && (forall i, j :: 0 <= i < j < |xs| ==> embedding[i] < embedding[j])
  }

  lemma {:induction false} EmbedsNotBelow<T>(xs: seq<T>, ys: seq<T>, embedding: seq<nat>, i: nat)
    requires Embeds(xs, ys, embedding) && i < |xs|
    ensures embedding[i] >= i
  {
    if i > 0 {
      EmbedsNotBelow(xs, ys, embedding, i - 1);
    }
  }

  lemma EmbedsNotLonger<T>(xs: seq<T>, ys: seq<T>, embedding: seq<nat>)
    requires Embeds(xs, ys, embedding)
    ensures |xs| <= |ys|
  {
    if xs != [] {
      EmbedsNotBelow(xs, ys, embedding, |xs| - 1);
    }
  }

  /** `xs` can be read off `ys` by skipping elements, without reordering any. */
  ghost predicate Subsequence<T>(xs: seq<T>, ys: seq<T>) {
    exists embedding :: Embeds(xs, ys, embedding)
  }

  /** Inserting `gap` before a common tail keeps the left side a subsequence. */
  lemma SubsequenceExtend<T>(xs: seq<T>, ys: seq<T>, gap: seq<T>, tail: seq<T>)
    requires Subsequence(xs, ys)
    ensures Subsequence(xs + tail, ys + (gap + tail))
  {
    var e :| Embeds(xs, ys, e);
    var offset := |ys| + |gap|;
    var e' := e + seq(|tail|, i requires 0 <= i < |tail| => offset + i);
    assert Embeds(xs + tail, ys + (gap + tail), e');
  }
}
