/** Reciprocal rank fusion with exact scores: the scoring loops, their order, and what the scores mean. */
module Fusion {
  import opened Wrappers
  import opened Sequences

  // ---------------------------------------------------------------- scores

  /** The weight of rank `rank`, counted from 1. */
  function Weight(k: int, rank: nat): real
    requires k + rank != 0
  {
    1.0 / ((k + rank) as real)
  }

  /** No rank of a list of that length makes the source divide by zero. */
  predicate Divides(k: int, length: nat) {
    k >= 0 || k + length < 0
  }

  /** What one list adds to the score of an item: the weight of every position that holds it. */
  function Share<T(==, !new)>(list: seq<T>, k: int, id: T): real
    requires Divides(k, |list|)
  {
    if list == [] then 0.0
    else
      Share(list[..|list| - 1], k, id) + (if list[|list| - 1] == id then Weight(k, |list|) else 0.0)
  }

  ghost predicate AllDivide<T(!new)>(k: int, lists: seq<seq<T>>) {
    forall l :: 0 <= l < |lists| ==> Divides(k, |lists[l]|)
  }

  function Score<T(==, !new)>(lists: seq<seq<T>>, k: int, id: T): real
    requires AllDivide(k, lists)
  {
    if lists == [] then 0.0 else Score(lists[..|lists| - 1], k, id) + Share(lists[|lists| - 1], k, id)
  }

  lemma {:induction false} ScoreAppend<T(!new)>(a: seq<seq<T>>, b: seq<seq<T>>, k: int, id: T)
    requires AllDivide(k, a + b)
    ensures AllDivide(k, a) && AllDivide(k, b)
    ensures Score(a + b, k, id) == Score(a, k, id) + Score(b, k, id)
    decreases |b|
  {
    assert forall l :: 0 <= l < |a| ==> (a + b)[l] == a[l];
    assert forall l :: 0 <= l < |b| ==> (a + b)[|a| + l] == b[l];
    if b == [] {
      assert a + b == a;
    } else {
      var front := b[..|b| - 1];
      assert (a + b)[..|a + b| - 1] == a + front;
      ScoreAppend(a, front, k, id);
    }
  }

  lemma ScoreWithout<T(!new)>(lists: seq<seq<T>>, k: int, id: T, i: nat)
    requires i < |lists| && AllDivide(k, lists)
    ensures AllDivide(k, lists[..i] + lists[i + 1..])
    ensures Score(lists, k, id) == Score(lists[..i] + lists[i + 1..], k, id) + Share(lists[i], k, id)
    ensures multiset(lists[..i] + lists[i + 1..]) == multiset(lists) - multiset{lists[i]}
  {
    var before, after := lists[..i], lists[i + 1..];
    assert lists == before + ([lists[i]] + after);
    ScoreAppend(before, [lists[i]] + after, k, id);
    ScoreAppend([lists[i]], after, k, id);
    var none: seq<seq<T>> := [];
    assert [lists[i]][..0] == none;
    assert forall l :: 0 <= l < |before + after| ==> (before + after)[l] == lists[if l < i then l else l + 1];
    ScoreAppend(before, after, k, id);
  }

  lemma SameListsDivide<T(!new)>(a: seq<seq<T>>, b: seq<seq<T>>, k: int)
    requires multiset(a) == multiset(b) && AllDivide(k, a)
    ensures AllDivide(k, b)
  {
    forall l | 0 <= l < |b|
      ensures Divides(k, |b[l]|)
    {
      assert b[l] in multiset(a);
    }
  }

  /** The order in which the lists are fused does not change any score. */
  lemma {:induction false} ListOrderIrrelevant<T(!new)>(a: seq<seq<T>>, b: seq<seq<T>>, k: int, id: T)
    requires multiset(a) == multiset(b) && AllDivide(k, a)
    ensures AllDivide(k, b) && Score(a, k, id) == Score(b, k, id)
    decreases |a|
  {
    SameListsDivide(a, b, k);
    hide *;
    if a == [] {
      assert |multiset(b)| == 0;
    } else {
      assert a[0] in multiset(b);
      var i :| 0 <= i < |b| && b[i] == a[0];
      ScoreWithout(a, k, id, 0);
      ScoreWithout(b, k, id, i);
      ListOrderIrrelevant(a[..0] + a[1..], b[..i] + b[i + 1..], k, id);
    }
  }

  /** In a list without repeats an item's share is the weight of its one position, or nothing. */
  lemma {:induction false} ShareOfPosition<T(!new)>(list: seq<T>, k: int, i: nat)
    requires Divides(k, |list|) && Distinct(list) && i < |list|
    ensures Share(list, k, list[i]) == Weight(k, i + 1) == 1.0 / ((k + i + 1) as real)
  {
    var front := list[..|list| - 1];
    if i == |list| - 1 {
      ShareOfAbsent(front, k, list[i]);
    } else {
      ShareOfPosition(front, k, i);
    }
  }

  lemma {:induction false} ShareOfAbsent<T(!new)>(list: seq<T>, k: int, id: T)
    requires Divides(k, |list|) && id !in list
    ensures Share(list, k, id) == 0.0
  {
    if list != [] {
      ShareOfAbsent(list[..|list| - 1], k, id);
    }
  }

  lemma {:induction false} ShareNotNegative<T(!new)>(list: seq<T>, k: int, id: T)
    requires k >= 0
    ensures Divides(k, |list|) && Share(list, k, id) >= 0.0
  {
    if list != [] {
      ShareNotNegative(list[..|list| - 1], k, id);
    }
  }

  lemma HeavierAhead(k: int, i: nat, j: nat)
    requires k >= 0 && 1 <= i < j
    ensures Weight(k, i) > Weight(k, j) > 0.0
  {
    var x, y := (k + i) as real, (k + j) as real;
    assert 0.0 < x < y;
    assert (1.0 / x) * x == 1.0 && (1.0 / y) * y == 1.0;
    if 1.0 / x <= 1.0 / y {
      assert (1.0 / x) * y <= (1.0 / y) * y;
      assert (1.0 / x) * x < (1.0 / x) * y;
    }
  }

  /** `a` stands before `b` in the list whenever `b` occurs in it. */
  ghost predicate Ahead<T(!new)>(list: seq<T>, a: T, b: T) {
    Distinct(list) && (b in list ==> exists i, j :: 0 <= i < j < |list| && list[i] == a && list[j] == b)
  }

  lemma AheadShares<T(!new)>(list: seq<T>, k: int, a: T, b: T)
    requires k >= 0 && Ahead(list, a, b)
    ensures Divides(k, |list|) && Share(list, k, a) >= Share(list, k, b)
    ensures b in list ==> Share(list, k, a) > Share(list, k, b)
  {
    ShareNotNegative(list, k, a);
    if b in list {
      var i, j :| 0 <= i < j < |list| && list[i] == a && list[j] == b;
      ShareOfPosition(list, k, i);
      ShareOfPosition(list, k, j);
      HeavierAhead(k, i + 1, j + 1);
    } else {
      ShareOfAbsent(list, k, b);
    }
  }

  /** An item that is ahead of another in every list that ranks the other scores strictly higher. */
  lemma {:induction false} AheadScoresHigher<T(!new)>(lists: seq<seq<T>>, k: int, a: T, b: T)
    requires k >= 0 && forall l :: 0 <= l < |lists| ==> Ahead(lists[l], a, b)
    ensures AllDivide(k, lists) && Score(lists, k, a) >= Score(lists, k, b)
    ensures (exists l :: 0 <= l < |lists| && b in lists[l]) ==> Score(lists, k, a) > Score(lists, k, b)
  {
    if lists != [] {
      AheadScoresHigher(lists[..|lists| - 1], k, a, b);
      AheadShares(lists[|lists| - 1], k, a, b);
    }
  }

  // ---------------------------------------------------------------- order

  type Scored<T> = (T, real)

  /** The stable descending sort: equal scores keep their order. */
  function SortDescending<T(==, !new)>(items: seq<Scored<T>>): seq<Scored<T>> {
    if items == [] then [] else InsertDescending(SortDescending(items[..|items| - 1]), items[|items| - 1])
  }

  function InsertDescending<T(==, !new)>(sorted: seq<Scored<T>>, x: Scored<T>): seq<Scored<T>> {
    if sorted == [] || sorted[|sorted| - 1].1 >= x.1 then sorted + [x]
    else InsertDescending(sorted[..|sorted| - 1], x) + [sorted[|sorted| - 1]]
  }

  predicate Descending<T(==, !new)>(items: seq<Scored<T>>) {
    forall i, j :: 0 <= i < j < |items| ==> items[i].1 >= items[j].1
  }

  function WithScore<T(==, !new)>(items: seq<Scored<T>>, score: real): seq<Scored<T>> {
    if items == [] then []
    else WithScore(items[..|items| - 1], score) + (if items[|items| - 1].1 == score then [items[|items| - 1]] else [])
  }

  lemma {:induction false} InsertPermutes<T(!new)>(sorted: seq<Scored<T>>, x: Scored<T>)
    ensures multiset(InsertDescending(sorted, x)) == multiset(sorted) + multiset{x}
  {
    if sorted == [] || sorted[|sorted| - 1].1 >= x.1 {
    } else {
      var front, last := sorted[..|sorted| - 1], sorted[|sorted| - 1];
      InsertPermutes(front, x);
      assert sorted == front + [last];
    }
  }

  lemma {:induction false} InsertDescends<T(!new)>(sorted: seq<Scored<T>>, x: Scored<T>)
    requires Descending(sorted)
    ensures Descending(InsertDescending(sorted, x))
  {
    if sorted == [] || sorted[|sorted| - 1].1 >= x.1 {
    } else {
      var front, last := sorted[..|sorted| - 1], sorted[|sorted| - 1];
      var s := InsertDescending(front, x);
      InsertDescends(front, x);
      InsertPermutes(front, x);
      hide InsertDescending;
      forall i | 0 <= i < |s|
        ensures s[i].1 >= last.1
      {
        assert s[i] in multiset(front) + multiset{x};
      }
    }
  }

  lemma {:induction false} InsertIsStable<T(!new)>(sorted: seq<Scored<T>>, x: Scored<T>, score: real)
    ensures WithScore(InsertDescending(sorted, x), score) == WithScore(sorted, score) + (if x.1 == score then [x] else [])
  {
    if sorted == [] || sorted[|sorted| - 1].1 >= x.1 {
      assert (sorted + [x])[..|sorted + [x]| - 1] == sorted;
    } else {
      var front, last := sorted[..|sorted| - 1], sorted[|sorted| - 1];
      var s := InsertDescending(front, x);
      InsertIsStable(front, x, score);
      assert (s + [last])[..|s + [last]| - 1] == s;
      assert !(last.1 == score && x.1 == score);
    }
  }

  lemma {:induction false} SortPermutes<T(!new)>(items: seq<Scored<T>>)
    ensures multiset(SortDescending(items)) == multiset(items)
    ensures forall x :: x in SortDescending(items) <==> x in items
  {
    hide InsertDescending;
    if items != [] {
      var front, last := items[..|items| - 1], items[|items| - 1];
      SortPermutes(front);
      InsertPermutes(SortDescending(front), last);
      assert items == front + [last];
    }
    assert forall x :: x in SortDescending(items) <==> x in multiset(items);
  }

  lemma {:induction false} SortDescends<T(!new)>(items: seq<Scored<T>>)
    ensures Descending(SortDescending(items))
  {
    if items != [] {
      SortDescends(items[..|items| - 1]);
      InsertDescends(SortDescending(items[..|items| - 1]), items[|items| - 1]);
    }
  }

  lemma {:induction false} SortIsStable<T(!new)>(items: seq<Scored<T>>, score: real)
    ensures WithScore(SortDescending(items), score) == WithScore(items, score)
  {
    if items != [] {
      SortIsStable(items[..|items| - 1], score);
      InsertIsStable(SortDescending(items[..|items| - 1]), items[|items| - 1], score);
    }
  }

  /** The sort is a descending permutation that leaves items of equal score in their order. */
  lemma SortMeaning<T(!new)>(items: seq<Scored<T>>)
    ensures Descending(SortDescending(items)) && multiset(SortDescending(items)) == multiset(items)
    ensures forall score: real :: WithScore(SortDescending(items), score) == WithScore(items, score)
  {
    hide *;
    SortDescends(items);
    SortPermutes(items);
    forall score: real
      ensures WithScore(SortDescending(items), score) == WithScore(items, score)
    {
      SortIsStable(items, score);
    }
  }

  // ---------------------------------------------------------------- the scoring loops

  /** The ids in the order in which a dictionary first saw them. */
  function FirstSeen<T(==, !new)>(ids: seq<T>): (order: seq<T>)
    ensures Distinct(order) && forall id :: id in order <==> id in ids
  {
    if ids == [] then []
    else
      var order := FirstSeen(ids[..|ids| - 1]);
      if ids[|ids| - 1] in order then order else order + [ids[|ids| - 1]]
  }

  /** The dictionary after the complete lists `done` and the first entries `part` of the next one. */
  ghost predicate Counted<T(!new)>(done: seq<seq<T>>, part: seq<T>, k: int, order: seq<T>, scores: map<T, real>)
    requires AllDivide(k, done) && Divides(k, |part|)
  {
    && order == FirstSeen(Flatten(done) + part)
    && (forall id :: id in order <==> id in scores)
    && (forall id :: id in scores ==> scores[id] == Score(done, k, id) + Share(part, k, id))
  }

  function Added<T(==, !new)>(scores: map<T, real>, id: T, weight: real): map<T, real> {
    scores[id := (if id in scores then scores[id] else 0.0) + weight]
  }

  function Noted<T(==, !new)>(order: seq<T>, scores: map<T, real>, id: T): seq<T> {
    if id in scores then order else order + [id]
  }

  lemma {:induction false} ScoreOfUnseen<T(!new)>(lists: seq<seq<T>>, k: int, id: T)
    requires AllDivide(k, lists) && id !in Flatten(lists)
    ensures Score(lists, k, id) == 0.0
  {
    if lists != [] {
      var front, last := lists[..|lists| - 1], lists[|lists| - 1];
      assert lists == front + [last];
      FlattenSnoc(front, last);
      ScoreOfUnseen(front, k, id);
      ShareOfAbsent(last, k, id);
    }
  }

  lemma ShareSnoc<T(!new)>(list: seq<T>, k: int, x: T, id: T)
    requires Divides(k, |list| + 1)
    ensures Share(list + [x], k, id) == Share(list, k, id) + (if x == id then Weight(k, |list| + 1) else 0.0)
  {
    hide Weight;
    assert (list + [x])[..|list + [x]| - 1] == list;
  }

  lemma ScoreSnoc<T(!new)>(lists: seq<seq<T>>, k: int, list: seq<T>, id: T)
    requires AllDivide(k, lists) && Divides(k, |list|)
    ensures AllDivide(k, lists + [list]) && Score(lists + [list], k, id) == Score(lists, k, id) + Share(list, k, id)
  {
    hide Share;
    assert (lists + [list])[..|lists + [list]| - 1] == lists;
  }

  lemma FirstSeenSnoc<T(!new)>(ids: seq<T>, x: T)
    ensures FirstSeen(ids + [x]) == if x in ids then FirstSeen(ids) else FirstSeen(ids) + [x]
  {
    assert (ids + [x])[..|ids + [x]| - 1] == ids;
  }

  lemma CountOne<T(!new)>(done: seq<seq<T>>, part: seq<T>, k: int, order: seq<T>, scores: map<T, real>, x: T)
    requires AllDivide(k, done) && Divides(k, |part| + 1) && Counted(done, part, k, order, scores)
    ensures Counted(done, part + [x], k, Noted(order, scores, x), Added(scores, x, Weight(k, |part| + 1)))
  {
    hide Score, Share, Weight, FirstSeen, AllDivide;
    var scores' := Added(scores, x, Weight(k, |part| + 1));
    var ids := Flatten(done) + part;
    assert Flatten(done) + (part + [x]) == ids + [x];
    FirstSeenSnoc(ids, x);
    if x !in ids {
      ScoreOfUnseen(done, k, x);
      ShareOfAbsent(part, k, x);
    }
    forall id | id in scores'
      ensures scores'[id] == Score(done, k, id) + Share(part + [x], k, id)
    {
      ShareSnoc(part, k, x, id);
    }
  }

  lemma DividesSnoc<T(!new)>(k: int, lists: seq<seq<T>>, list: seq<T>)
    requires AllDivide(k, lists) && Divides(k, |list|)
    ensures AllDivide(k, lists + [list])
  {
  }

  lemma CountList<T(!new)>(done: seq<seq<T>>, part: seq<T>, k: int, order: seq<T>, scores: map<T, real>)
    requires AllDivide(k, done) && Divides(k, |part|) && Counted(done, part, k, order, scores)
    ensures AllDivide(k, done + [part]) && Counted(done + [part], [], k, order, scores)
  {
    hide Score, Share, FirstSeen, AllDivide;
    FlattenSnoc(done, part);
    assert Flatten(done) + part + [] == Flatten(done) + part;
    DividesSnoc(k, done, part);
    forall id | id in scores
      ensures scores[id] == Score(done + [part], k, id) + Share([], k, id)
    {
      ScoreSnoc(done, k, part, id);
      ShareOfAbsent([], k, id);
    }
  }

  /** The dictionary's items in its own order. */
  function Items<T(==, !new)>(order: seq<T>, scores: map<T, real>): seq<Scored<T>>
    requires forall id :: id in order ==> id in scores
  {
    seq(|order|, i requires 0 <= i < |order| => (order[i], scores[order[i]]))
  }

  /** Every id of the lists with its score, in the order in which the lists first name it. */
  function InFirstSeenOrder<T(==, !new)>(lists: seq<seq<T>>, k: int): seq<Scored<T>>
    requires AllDivide(k, lists)
  {
    var order := FirstSeen(Flatten(lists));
    seq(|order|, i requires 0 <= i < |order| => (order[i], Score(lists, k, order[i])))
  }

  lemma ItemsAreScores<T(!new)>(lists: seq<seq<T>>, k: int, order: seq<T>, scores: map<T, real>)
    requires AllDivide(k, lists) && Counted(lists, [], k, order, scores)
    ensures Items(order, scores) == InFirstSeenOrder(lists, k)
  {
    assert Flatten(lists) + [] == Flatten(lists);
  }

  /** A fused ranking of the lists: every id of theirs once, with its score, best score first. */
  ghost predicate IsFusion<T(!new)>(lists: seq<seq<T>>, k: int, ranked: seq<Scored<T>>)
    requires AllDivide(k, lists)
  {
    && Descending(ranked)
    && DistinctIds(ranked)
    && (forall id :: id in Flatten(lists) ==> (id, Score(lists, k, id)) in ranked)
    && (forall i :: 0 <= i < |ranked| ==> ranked[i].0 in Flatten(lists))
    && (forall i :: 0 <= i < |ranked| ==> ranked[i].1 == Score(lists, k, ranked[i].0))
  }

  lemma SortedIsFusion<T(!new)>(lists: seq<seq<T>>, k: int)
    requires AllDivide(k, lists)
    ensures IsFusion(lists, k, SortDescending(InFirstSeenOrder(lists, k)))
  {
    var items := InFirstSeenOrder(lists, k);
    var ranked := SortDescending(items);
    var order := FirstSeen(Flatten(lists));
    hide SortDescending, Score, FirstSeen, Descending, AllDivide;
    SortDescends(items);
    SortPermutes(items);
    SortKeepsDistinct(items);
    forall i | 0 <= i < |ranked|
      ensures ranked[i].0 in order && ranked[i].1 == Score(lists, k, ranked[i].0)
    {
      assert ranked[i] in items;
    }
    forall id | id in Flatten(lists)
      ensures (id, Score(lists, k, id)) in ranked
    {
      var i :| 0 <= i < |order| && order[i] == id;
      assert items[i] in ranked;
    }
  }

  predicate DistinctIds<T(==, !new)>(items: seq<Scored<T>>) {
    forall i, j :: 0 <= i < j < |items| ==> items[i].0 != items[j].0
  }

  lemma {:induction false} InsertKeepsDistinct<T(!new)>(sorted: seq<Scored<T>>, x: Scored<T>)
    requires DistinctIds(sorted) && forall y :: y in sorted ==> y.0 != x.0
    ensures DistinctIds(InsertDescending(sorted, x))
  {
    if sorted == [] || sorted[|sorted| - 1].1 >= x.1 {
    } else {
      var front, last := sorted[..|sorted| - 1], sorted[|sorted| - 1];
      var s := InsertDescending(front, x);
      InsertKeepsDistinct(front, x);
      InsertPermutes(front, x);
      hide InsertDescending;
      forall i | 0 <= i < |s|
        ensures s[i].0 != last.0
      {
        assert s[i] in multiset(front) + multiset{x};
      }
    }
  }

  lemma {:induction false} SortKeepsDistinct<T(!new)>(items: seq<Scored<T>>)
    requires DistinctIds(items)
    ensures DistinctIds(SortDescending(items))
  {
    if items != [] {
      var front, last := items[..|items| - 1], items[|items| - 1];
      var s := SortDescending(front);
      SortKeepsDistinct(front);
      SortPermutes(front);
      forall y | y in s
        ensures y.0 != last.0
      {
        assert y in front;
      }
      InsertKeepsDistinct(s, last);
    }
  }

  /** Items of equal score stand in the order in which the lists first named them. */
  ghost predicate TiesInOrder<T(!new)>(lists: seq<seq<T>>, k: int, ranked: seq<Scored<T>>)
    requires AllDivide(k, lists)
  {
    forall score: real :: WithScore(ranked, score) == WithScore(InFirstSeenOrder(lists, k), score)
  }

  /** The nested loops that fill the dictionary. */
  method CountLists<T(==, !new)>(lists: seq<seq<T>>, k: int) returns (order: seq<T>, scores: map<T, real>)
    requires AllDivide(k, lists)
    ensures Counted(lists, [], k, order, scores)
  {
    order, scores := [], map[];
    assert Counted([], [], k, order, scores);
    hide Counted, Score;
    for i := 0 to |lists|
      invariant AllDivide(k, lists[..i]) && Counted(lists[..i], [], k, order, scores)
    {
      var list := lists[i];
      assert list[..0] == [];
      for j := 0 to |list|
        invariant Counted(lists[..i], list[..j], k, order, scores)
      {
        CountOne(lists[..i], list[..j], k, order, scores, list[j]);
        assert list[..j + 1] == list[..j] + [list[j]];
        order, scores := Noted(order, scores, list[j]), Added(scores, list[j], Weight(k, j + 1));
      }
      assert list[..|list|] == list;
      CountList(lists[..i], list, k, order, scores);
      assert lists[..i + 1] == lists[..i] + [list];
    }
    assert lists[..|lists|] == lists;
  }

  /**
    `reciprocal_rank_fusion`: the dictionary loops compute the sums, and the sorted result is a fusion in which ties
    stay in the order in which the lists first named them.
   */
  method ReciprocalRankFusion<T(==, !new)>(lists: seq<seq<T>>, k: int) returns (ranked: seq<Scored<T>>)
    requires AllDivide(k, lists)
    ensures IsFusion(lists, k, ranked) && TiesInOrder(lists, k, ranked)
  {
    var order, scores := CountLists(lists, k);
    assert Items(order, scores) == InFirstSeenOrder(lists, k) by {
      ItemsAreScores(lists, k, order, scores);
    }
    SortedIsFusion(lists, k);
    SortMeaning(InFirstSeenOrder(lists, k));
    assert TiesInOrder(lists, k, SortDescending(InFirstSeenOrder(lists, k)));
    hide *;
    ranked := SortDescending(Items(order, scores));
  }

  /** In a fusion, an item ahead of another in every list that ranks the other comes before it. */
  lemma AheadComesFirst<T(!new)>(lists: seq<seq<T>>, k: int, ranked: seq<Scored<T>>, i: nat, j: nat)
    requires k >= 0 && AllDivide(k, lists) && IsFusion(lists, k, ranked) && i < |ranked| && j < |ranked|
    requires forall l :: 0 <= l < |lists| ==> Ahead(lists[l], ranked[i].0, ranked[j].0)
    requires i != j
    ensures i < j
  {
    var a, b := ranked[i].0, ranked[j].0;
    assert b in Flatten(lists);
    var list := InSomeList(lists, b);
    AheadScoresHigher(lists, k, a, b);
  }

  lemma {:induction false} InSomeList<T(!new)>(lists: seq<seq<T>>, id: T) returns (l: nat)
    requires id in Flatten(lists)
    ensures l < |lists| && id in lists[l]
  {
    if id in lists[0] {
      l := 0;
    } else {
      l := InSomeList(lists[1..], id);
      l := l + 1;
    }
  }

  // ---------------------------------------------------------------- fusing retrieved passages

  type ChunkId = nat

  datatype Chunk = Chunk(id: ChunkId, tokenCount: Option<nat>, text: string)

  datatype Retrieved = Retrieved(chunk: Chunk, title: string, score: real, source: string)

  function Ids(list: seq<Retrieved>): (ids: seq<ChunkId>)
    ensures |ids| == |list| && forall i :: 0 <= i < |list| ==> ids[i] == list[i].chunk.id
  {
    seq(|list|, i requires 0 <= i < |list| => list[i].chunk.id)
  }

  function IdLists(lists: seq<seq<Retrieved>>): (ids: seq<seq<ChunkId>>)
    ensures |ids| == |lists| && forall l :: 0 <= l < |lists| ==> ids[l] == Ids(lists[l])
  {
    seq(|lists|, l requires 0 <= l < |lists| => Ids(lists[l]))
  }

  /** The last passage of that chunk among the items. */
  function LastOf(items: seq<Retrieved>, id: ChunkId): (last: Option<Retrieved>)
    ensures last.Some? ==> last.value in items && last.value.chunk.id == id
  {
    if items == [] then None
    else if items[|items| - 1].chunk.id == id then Some(items[|items| - 1])
    else LastOf(items[..|items| - 1], id)
  }

  /** `merged` after the loops: of several passages of one chunk the last one met is kept. */
  ghost predicate Merged(items: seq<Retrieved>, merged: map<ChunkId, Retrieved>) {
    forall id :: if id in merged then LastOf(items, id) == Some(merged[id]) else LastOf(items, id) == None
  }

  lemma MergeOne(items: seq<Retrieved>, merged: map<ChunkId, Retrieved>, x: Retrieved)
    requires Merged(items, merged)
    ensures Merged(items + [x], merged[x.chunk.id := x])
  {
    assert (items + [x])[..|items + [x]| - 1] == items;
  }

  lemma {:induction false} SeenIsMerged(items: seq<Retrieved>, id: ChunkId)
    ensures id in Ids(items) <==> LastOf(items, id).Some?
  {
    if items != [] {
      var front := items[..|items| - 1];
      SeenIsMerged(front, id);
      assert Ids(items) == Ids(front) + [items[|items| - 1].chunk.id];
    }
  }

  lemma {:induction false} FlattenIds(lists: seq<seq<Retrieved>>)
    ensures Flatten(IdLists(lists)) == Ids(Flatten(lists))
  {
    if lists != [] {
      FlattenIds(lists[1..]);
      assert IdLists(lists)[1..] == IdLists(lists[1..]);
      assert Ids(lists[0] + Flatten(lists[1..])) == Ids(lists[0]) + Ids(Flatten(lists[1..]));
    }
  }

  function Fused(ranked: seq<Scored<ChunkId>>, merged: map<ChunkId, Retrieved>): seq<Retrieved>
    requires forall i :: 0 <= i < |ranked| ==> ranked[i].0 in merged
  {
    seq(|ranked|, i requires 0 <= i < |ranked| => merged[ranked[i].0].(score := ranked[i].1))
  }

  ghost predicate FusedFrom(lists: seq<seq<Retrieved>>, k: int, ranked: seq<Scored<ChunkId>>, result: seq<Retrieved>)
    requires AllDivide(k, IdLists(lists))
  {
    && IsFusion(IdLists(lists), k, ranked) && TiesInOrder(IdLists(lists), k, ranked) && |result| == |ranked|
    && forall i :: 0 <= i < |result| ==>
      && LastOf(Flatten(lists), ranked[i].0).Some?
      && result[i] == LastOf(Flatten(lists), ranked[i].0).value.(score := ranked[i].1)
  }

  /**
    `_reciprocal_rank_fusion`: the same scores over passages; each chunk appears once, as the last passage of it that
    the lists contain, with the fused score in place of its own.
   */
  method FusePassages(lists: seq<seq<Retrieved>>, k: int) returns (result: seq<Retrieved>)
    requires AllDivide(k, IdLists(lists))
    ensures exists ranked: seq<Scored<ChunkId>> :: FusedFrom(lists, k, ranked, result)
  {
    var merged: map<ChunkId, Retrieved> := map[];
    for i := 0 to |lists|
      invariant Merged(Flatten(lists[..i]), merged)
    {
      hide Merged, LastOf;
      var list := lists[i];
      assert Flatten(lists[..i]) + list[..0] == Flatten(lists[..i]);
      for j := 0 to |list|
        invariant Merged(Flatten(lists[..i]) + list[..j], merged)
      {
        MergeOne(Flatten(lists[..i]) + list[..j], merged, list[j]);
        assert Flatten(lists[..i]) + list[..j + 1] == Flatten(lists[..i]) + list[..j] + [list[j]];
        merged := merged[list[j].chunk.id := list[j]];
      }
      assert list[..|list|] == list;
      FlattenSnoc(lists[..i], list);
      assert lists[..i + 1] == lists[..i] + [list];
    }
    assert lists[..|lists|] == lists;
    var ranked := ReciprocalRankFusion(IdLists(lists), k);
    FlattenIds(lists);
    forall i | 0 <= i < |ranked|
      ensures ranked[i].0 in merged
    {
      SeenIsMerged(Flatten(lists), ranked[i].0);
    }
    hide IsFusion, TiesInOrder, Flatten, LastOf;
    result := Fused(ranked, merged);
    assert FusedFrom(lists, k, ranked, result);
  }
}
