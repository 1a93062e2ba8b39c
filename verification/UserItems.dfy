/** One user's interactions: deduplicated, capped and listed by id, then paired. */
module UserItems {
  import opened Arithmetic
  import opened Orders
  import opened Interactions
  import opened PairReduction

  // ----- deduplication ---------------------------------------------------------------------

  /** Python's tuple comparison on (weight, timestamp). */
  predicate Exceeds(a: Best, b: Best) {
    a.weight > b.weight || (a.weight == b.weight && a.timestamp > b.timestamp)
  }

  /** One dictionary update of the deduplication loop; `id` picks the key of a rating. */
  function Improve(m: map<int, Best>, id: int, b: Best): map<int, Best> {
    if id !in m || Exceeds(b, m[id]) then m[id := b] else m
  }

  function Deduped(inter: seq<Rating>): map<int, Best> {
    if inter == [] then map[]
    else
      var n := |inter| - 1;
      Improve(Deduped(inter[..n]), inter[n].item, Best(inter[n].weight, inter[n].timestamp))
  }

  /** The dictionary holds, for every item seen, its greatest (weight, timestamp). */
  lemma {:induction false} DedupedMeaning(inter: seq<Rating>)
    ensures forall r :: r in inter ==>
              r.item in Deduped(inter) && !Exceeds(Best(r.weight, r.timestamp), Deduped(inter)[r.item])
    ensures forall i :: i in Deduped(inter) ==>
              exists r :: r in inter && r.item == i && Best(r.weight, r.timestamp) == Deduped(inter)[i]
  {
    if inter != [] {
      var n := |inter| - 1;
      var m, d, last := Deduped(inter[..n]), Deduped(inter), inter[n];
      DedupedMeaning(inter[..n]);
      assert inter == inter[..n] + [last];
      forall i | i in d ensures exists r :: r in inter && r.item == i && Best(r.weight, r.timestamp) == d[i] {
        if i in m && d[i] == m[i] {
          var r :| r in inter[..n] && r.item == i && Best(r.weight, r.timestamp) == m[i];
          assert r in inter;
        } else {
          assert last in inter;
        }
      }
    }
  }

  // ----- the cap and the final listing ------------------------------------------------------

  predicate StrongerFirst(a: Ranked, b: Ranked) {
    || a.weight > b.weight
    || (a.weight == b.weight && a.timestamp > b.timestamp)
    || (a.weight == b.weight && a.timestamp == b.timestamp && a.id < b.id)
  }

  predicate SmallerId(a: Weighted, b: Weighted) {
    a.id < b.id
  }

  function RankedSet(d: map<int, Best>): (r: set<Ranked>) {
    set i | i in d :: Ranked(i, d[i].weight, d[i].timestamp)
  }

  lemma {:induction false} StrongerTotal(S: set<Ranked>)
    ensures TotalOn(StrongerFirst, S)
  {
  }

  /** The interactions that survive the cap; a cap of zero or less keeps all. */
  ghost function Capped(cap: int, S: set<Ranked>): set<Ranked> {
    StrongerTotal(S);
    if cap > 0 then Elems(TopK(StrongerFirst, cap, S)) else S
  }

  ghost function Project(S: set<Ranked>): set<Weighted> {
    set x | x in S :: Weighted(x.id, x.weight)
  }

  lemma {:induction false} ProjectTotal(d: map<int, Best>, S: set<Ranked>)
    requires S <= RankedSet(d)
    ensures TotalOn(SmallerId, Project(S))
  {
  }

  lemma {:induction false} CappedSubset(cap: int, S: set<Ranked>)
    ensures Capped(cap, S) <= S
  {
    StrongerTotal(S);
  }

  ghost function Normalized(cap: int, inter: seq<Rating>): (r: seq<Weighted>)
    ensures Sorted(SmallerId, r)
  {
    var d := Deduped(inter);
    CappedSubset(cap, RankedSet(d));
    ProjectTotal(d, Capped(cap, RankedSet(d)));
    SortSet(SmallerId, Project(Capped(cap, RankedSet(d))))
  }

  /** Every kept entry carries the weight of one of the user's own ratings of that item. */
  lemma {:induction false} NormalizedFrom(cap: int, inter: seq<Rating>, w: Weighted)
    requires w in Normalized(cap, inter)
    ensures exists r :: r in inter && r.item == w.id && r.weight == w.weight
  {
    var d := Deduped(inter);
    CappedSubset(cap, RankedSet(d));
    ProjectTotal(d, Capped(cap, RankedSet(d)));
    assert w in Elems(Normalized(cap, inter));
    assert w in Project(Capped(cap, RankedSet(d)));
    var x :| x in Capped(cap, RankedSet(d)) && w == Weighted(x.id, x.weight);
    assert x in RankedSet(d);
    DedupedMeaning(inter);
  }

  // ----- what the listing is, in ratings --------------------------------------------------------

  /** The user's best rating of item i weighs w and is from time t. */
  ghost predicate BestRating(inter: seq<Rating>, i: int, w: real, t: int) {
    && (exists r :: r in inter && r.item == i && r.weight == w && r.timestamp == t)
    && (forall r :: r in inter && r.item == i ==> r.weight < w || (r.weight == w && r.timestamp <= t))
  }

  lemma {:induction false} DedupedBest(inter: seq<Rating>, i: int)
    ensures i in Deduped(inter) <==> exists r :: r in inter && r.item == i
    ensures i in Deduped(inter) ==> BestRating(inter, i, Deduped(inter)[i].weight, Deduped(inter)[i].timestamp)
  {
    hide Deduped;
    DedupedMeaning(inter);
  }

  /** Item a was rated more strongly than item b: heavier, then later, then the smaller id. */
  ghost predicate RatedStronger(inter: seq<Rating>, a: int, b: int) {
    exists w, t, v, u :: BestRating(inter, a, w, t) && BestRating(inter, b, v, u) &&
      (w > v || (w == v && (t > u || (t == u && a < b))))
  }

  /** The listing holds, by ascending id, the user's items with the weight of the best rating of
      each: all of them, or the `cap` most strongly rated ones. */
  lemma {:induction false} ListingMeaning(cap: int, inter: seq<Rating>)
    ensures forall j, k :: 0 <= j < k < |Normalized(cap, inter)| ==>
              Normalized(cap, inter)[j].id < Normalized(cap, inter)[k].id
    ensures forall w :: w in Normalized(cap, inter) ==> exists t :: BestRating(inter, w.id, w.weight, t)
    ensures cap > 0 ==> |Normalized(cap, inter)| <= cap
    ensures forall i, r :: r in inter && r.item == i && !Has(Normalized(cap, inter), i) ==>
              cap > 0 && |Normalized(cap, inter)| == cap &&
              forall w :: w in Normalized(cap, inter) ==> RatedStronger(inter, w.id, i)
  {
    hide Deduped, RatedStronger, BestRating, Normalized, Sorted, StrongerFirst, Capped;
    var s := Normalized(cap, inter);
    var d := Deduped(inter);
    ListingIs(cap, inter);
    forall j, k | 0 <= j < k < |s| ensures s[j].id < s[k].id {
      ListedInOrder(s, j, k);
    }
    forall w | w in s ensures exists t :: BestRating(inter, w.id, w.weight, t) {
      DedupedBest(inter, w.id);
    }
    CappedSize(cap, d);
    forall i, r | r in inter && r.item == i && !Has(s, i)
      ensures cap > 0 && |s| == cap && forall w :: w in s ==> RatedStronger(inter, w.id, i) {
      DedupedBest(inter, i);
      LeftOut(cap, d, Ranked(i, d[i].weight, d[i].timestamp));
      forall w | w in s ensures RatedStronger(inter, w.id, i) {
        DedupedBest(inter, w.id);
        StrongerMeans(inter, Ranked(w.id, d[w.id].weight, d[w.id].timestamp),
                      Ranked(i, d[i].weight, d[i].timestamp));
      }
    }
  }

  lemma {:induction false} ListedInOrder(s: seq<Weighted>, j: nat, k: nat)
    requires Sorted(SmallerId, s) && j < k < |s|
    ensures s[j].id < s[k].id
  {
    assert SmallerId(s[j], s[k]);
  }

  lemma {:induction false} StrongerMeans(inter: seq<Rating>, x: Ranked, y: Ranked)
    requires StrongerFirst(x, y) && BestRating(inter, x.id, x.weight, x.timestamp)
    requires BestRating(inter, y.id, y.weight, y.timestamp)
    ensures RatedStronger(inter, x.id, y.id)
  {
    hide BestRating;
  }

  /** The listing against the capped set: the same items, each with its own weight. */
  lemma {:induction false} ListingIs(cap: int, inter: seq<Rating>)
    ensures var d := Deduped(inter);
            var s := Normalized(cap, inter);
            && |s| == |Capped(cap, RankedSet(d))|
            && (forall w :: w in s ==>
                  w.id in d && w.weight == d[w.id].weight &&
                  Ranked(w.id, w.weight, d[w.id].timestamp) in Capped(cap, RankedSet(d)))
            && (forall i :: i in d && Ranked(i, d[i].weight, d[i].timestamp) in Capped(cap, RankedSet(d)) ==> Has(s, i))
  {
    hide Capped, Sorted;
    var d := Deduped(inter);
    var S := Capped(cap, RankedSet(d));
    CappedSubset(cap, RankedSet(d));
    ProjectTotal(d, S);
    var s := Normalized(cap, inter);
    ProjectCard(d, S);
    forall w | w in s
      ensures w.id in d && w.weight == d[w.id].weight && Ranked(w.id, w.weight, d[w.id].timestamp) in S {
      assert w in Elems(s);
      var x :| x in S && w == Weighted(x.id, x.weight);
      assert x in RankedSet(d);
    }
    forall i | i in d && Ranked(i, d[i].weight, d[i].timestamp) in S ensures Has(s, i) {
      assert Weighted(i, d[i].weight) in Project(S);
      assert Weighted(i, d[i].weight) in Elems(s);
      var k :| 0 <= k < |s| && s[k] == Weighted(i, d[i].weight);
      assert s[k].id == i;
    }
  }

  lemma {:induction false} ProjectCard(d: map<int, Best>, S: set<Ranked>)
    requires S <= RankedSet(d)
    ensures |Project(S)| == |S|
  {
    if S != {} {
      var x :| x in S;
      ProjectCard(d, S - {x});
      assert Project(S) == Project(S - {x}) + {Weighted(x.id, x.weight)};
      assert Weighted(x.id, x.weight) !in Project(S - {x});
    }
  }

  lemma {:induction false} CappedSize(cap: int, d: map<int, Best>)
    ensures cap > 0 ==> |Capped(cap, RankedSet(d))| <= cap
  {
    hide StrongerFirst;
    var S := RankedSet(d);
    StrongerTotal(S);
    if cap > 0 {
      var top := TopK(StrongerFirst, cap, S);
      SortedNoDup(StrongerFirst, top);
      ElemsCard(top);
    }
  }

  lemma {:induction false} LeftOut(cap: int, d: map<int, Best>, y: Ranked)
    requires y in RankedSet(d) && y !in Capped(cap, RankedSet(d))
    ensures cap > 0 && |Capped(cap, RankedSet(d))| == cap
    ensures forall x :: x in Capped(cap, RankedSet(d)) ==> StrongerFirst(x, y)
  {
    hide StrongerFirst, Sorted;
    var S := RankedSet(d);
    StrongerTotal(S);
    var top := TopK(StrongerFirst, cap, S);
    SortedNoDup(StrongerFirst, top);
    ElemsCard(top);
    assert y !in top;
    if |top| < cap {
      SubsetCard(Elems(top) + {y}, S);
    }
  }

  method NormalizeUserInteractions(cap: int, inter: seq<Rating>) returns (out: seq<Weighted>)
    ensures out == Normalized(cap, inter)
  {
    var deduped: map<int, Best> := map[];
    for i := 0 to |inter|
      invariant deduped == Deduped(inter[..i])
    {
      assert inter[..i + 1][..i] == inter[..i];
      var b := Best(inter[i].weight, inter[i].timestamp);
      if inter[i].item !in deduped || Exceeds(b, deduped[inter[i].item]) {
        deduped := deduped[inter[i].item := b];
      }
    }
    assert inter[..|inter|] == inter;
    var S := RankedSet(deduped);
    StrongerTotal(S);
    var entries := Enumerate(S);
    var ranked := SortDistinct(StrongerFirst, entries);
    SortedIsTopK(StrongerFirst, S, SortSet(StrongerFirst, S));
    TopKUnique(StrongerFirst, |S|, S, ranked, SortSet(StrongerFirst, S));
    if cap > 0 && |ranked| > cap {
      ranked := ranked[..cap];
    }
    assert Elems(ranked) == Capped(cap, S);
    out := ListById(deduped, ranked, Capped(cap, S));
  }

  method ListById(d: map<int, Best>, ranked: seq<Ranked>, ghost S: set<Ranked>) returns (out: seq<Weighted>)
    requires NoDup(ranked) && Elems(ranked) == S && S <= RankedSet(d)
    ensures TotalOn(SmallerId, Project(S)) && out == SortSet(SmallerId, Project(S))
  {
    ProjectTotal(d, S);
    var listed := seq(|ranked|, i requires 0 <= i < |ranked| => Weighted(ranked[i].id, ranked[i].weight));
    forall i, j | 0 <= i < j < |listed| ensures listed[i] != listed[j] {
      assert ranked[i] in Elems(ranked) && ranked[j] in Elems(ranked);
      assert ranked[i] != ranked[j];
    }
    assert Elems(listed) == Project(S) by {
      forall w ensures w in Elems(listed) <==> w in Project(S) {
        if w in Elems(listed) {
          var i :| 0 <= i < |listed| && listed[i] == w;
          assert ranked[i] in Elems(ranked);
        }
        if w in Project(S) {
          var x :| x in S && w == Weighted(x.id, x.weight);
          assert x in Elems(ranked);
          var i :| 0 <= i < |ranked| && ranked[i] == x;
          assert listed[i] == w;
        }
      }
    }
    out := SortDistinct(SmallerId, listed);
    SortedIsTopK(SmallerId, Project(S), SortSet(SmallerId, Project(S)));
    ElemsCard(listed);
    TopKUnique(SmallerId, |listed|, Project(S), out, SortSet(SmallerId, Project(S)));
  }

  // ----- pairs -----------------------------------------------------------------------------

  function PairOf(x: Weighted, y: Weighted): PairRow {
    PairRow(x.id, y.id, Times(x.weight, y.weight))
  }

  /** One item against every later one. */
  function PairsWith(x: Weighted, ys: seq<Weighted>): (r: seq<PairRow>)
  {
    if ys == [] then [] else [PairOf(x, ys[0])] + PairsWith(x, ys[1..])
  }

  /** itertools.combinations(s, 2), as pair rows. */
  function Combinations(s: seq<Weighted>): (r: seq<PairRow>)
  {
    if s == [] then [] else PairsWith(s[0], s[1..]) + Combinations(s[1..])
  }

  predicate Has(s: seq<Weighted>, id: int) {
    exists i :: 0 <= i < |s| && s[i].id == id
  }

  /** The weight an id carries in a listing, zero if it is absent. */
  function WeightAt(s: seq<Weighted>, id: int): real {
    if s == [] then 0.0 else if s[0].id == id then s[0].weight else WeightAt(s[1..], id)
  }

  lemma {:induction false} WeightAtOf(s: seq<Weighted>, id: int)
    ensures Has(s, id) ==> Weighted(id, WeightAt(s, id)) in s
    ensures !Has(s, id) ==> WeightAt(s, id) == 0.0
  {
    if s != [] {
      WeightAtOf(s[1..], id);
      assert s == [s[0]] + s[1..];
      if s[0].id != id && Has(s, id) {
        var i :| 0 <= i < |s| && s[i].id == id;
        assert s[1..][i - 1].id == id;
      }
    }
  }

  lemma {:induction false} SameIdSameEntry(r: seq<Weighted>, x: Weighted, y: Weighted)
    requires Sorted(SmallerId, r) && x in r && y in r && x.id == y.id
    ensures x == y
  {
    var i :| 0 <= i < |r| && r[i] == x;
    var j :| 0 <= j < |r| && r[j] == y;
    assert i < j ==> SmallerId(r[i], r[j]);
    assert j < i ==> SmallerId(r[j], r[i]);
  }

  lemma {:induction false} RowsConcat(a: seq<PairRow>, b: seq<PairRow>, l: int, r: int)
    ensures RowCount(a + b, l, r) == RowCount(a, l, r) + RowCount(b, l, r)
    ensures RowSum(a + b, l, r) == RowSum(a, l, r) + RowSum(b, l, r)
  {
    if b == [] {
      assert a + b == a;
    } else {
      var n := |b| - 1;
      assert (a + b)[..|a + b| - 1] == a + b[..n];
      RowsConcat(a, b[..n], l, r);
    }
  }

  lemma {:induction false} PairsWithMeaning(x: Weighted, ys: seq<Weighted>, l: int, r: int)
    requires Sorted(SmallerId, [x] + ys)
    ensures RowCount(PairsWith(x, ys), l, r) == if x.id == l && Has(ys, r) then 1 else 0
    ensures RowSum(PairsWith(x, ys), l, r) == if x.id == l then Times(x.weight, WeightAt(ys, r)) else 0.0
  {
    if ys != [] {
      var t := ys[1..];
      var first := [PairOf(x, ys[0])];
      var u := [x] + ys;
      forall i, j | 0 <= i < j < |[x] + t| ensures SmallerId(([x] + t)[i], ([x] + t)[j]) {
        assert SmallerId(u[if i == 0 then 0 else i + 1], u[j + 1]);
      }
      PairsWithMeaning(x, t, l, r);
      RowsConcat(first, PairsWith(x, t), l, r);
      RowsAppend([], first[0], l, r);
      assert [] + first == first;
      assert Has(ys, r) <==> ys[0].id == r || Has(t, r) by {
        if Has(t, r) { var i :| 0 <= i < |t| && t[i].id == r; assert ys[i + 1].id == r; }
        if Has(ys, r) && ys[0].id != r { var i :| 0 <= i < |ys| && ys[i].id == r; assert t[i - 1].id == r; }
      }
      if ys[0].id == r {
        forall i | 0 <= i < |t| ensures t[i].id != r {
          assert SmallerId(u[1], u[i + 2]);
        }
        WeightAtOf(t, r);
      }
    }
  }

  lemma {:induction false} HasTail(s: seq<Weighted>, id: int)
    requires s != []
    ensures Has(s, id) <==> s[0].id == id || Has(s[1..], id)
  {
    if Has(s[1..], id) { var i :| 0 <= i < |s[1..]| && s[1..][i].id == id; assert s[i + 1].id == id; }
    if Has(s, id) && s[0].id != id { var i :| 0 <= i < |s| && s[i].id == id; assert s[1..][i - 1].id == id; }
  }

  lemma {:induction false} HeadNotInTail(s: seq<Weighted>, id: int)
    requires s != [] && Sorted(SmallerId, s) && id <= s[0].id
    ensures !Has(s[1..], id) && WeightAt(s[1..], id) == 0.0
  {
    forall i | 0 <= i < |s[1..]| ensures s[1..][i].id != id {
      assert SmallerId(s[0], s[i + 1]);
    }
    WeightAtOf(s[1..], id);
  }

  /** A user adds one row to a pair exactly when both ids survive in their listing. */
  lemma {:induction false} CombinationsCount(s: seq<Weighted>, l: int, r: int)
    requires Sorted(SmallerId, s) && l < r
    ensures RowCount(Combinations(s), l, r) == if Has(s, l) && Has(s, r) then 1 else 0
  {
    if s != [] {
      var t := s[1..];
      assert s == [s[0]] + t;
      CombinationsCount(t, l, r);
      PairsWithMeaning(s[0], t, l, r);
      RowsConcat(PairsWith(s[0], t), Combinations(t), l, r);
      HasTail(s, l);
      HasTail(s, r);
      if s[0].id == l {
        HeadNotInTail(s, l);
      } else if s[0].id == r {
        HeadNotInTail(s, l);
      }
    }
  }

  /** The row's weight is the product of the two weights; absent ids weigh zero. */
  lemma {:induction false} CombinationsSum(s: seq<Weighted>, l: int, r: int)
    requires Sorted(SmallerId, s) && l < r
    ensures RowSum(Combinations(s), l, r) == Times(WeightAt(s, l), WeightAt(s, r))
  {
    if s != [] {
      var t := s[1..];
      assert s == [s[0]] + t;
      CombinationsSum(t, l, r);
      PairsWithMeaning(s[0], t, l, r);
      RowsConcat(PairsWith(s[0], t), Combinations(t), l, r);
      if s[0].id == l {
        HeadNotInTail(s, l);
        assert WeightAt(s, r) == WeightAt(t, r);
      } else if s[0].id == r {
        HeadNotInTail(s, l);
        assert WeightAt(s, l) == 0.0;
      }
    }
  }

  lemma {:induction false} CombinationsOriented(s: seq<Weighted>, q: PairRow)
    requires Sorted(SmallerId, s) && q in Combinations(s)
    ensures q.left < q.right
  {
    if s != [] {
      if q in PairsWith(s[0], s[1..]) {
        PairsWithOriented(s[0], s[1..], q);
      } else {
        CombinationsOriented(s[1..], q);
      }
    }
  }

  lemma {:induction false} PairsWithOriented(x: Weighted, ys: seq<Weighted>, q: PairRow)
    requires q in PairsWith(x, ys)
    ensures exists i :: 0 <= i < |ys| && q == PairOf(x, ys[i])
  {
    if q != PairsWith(x, ys)[0] {
      PairsWithOriented(x, ys[1..], q);
      var i :| 0 <= i < |ys[1..]| && q == PairOf(x, ys[1..][i]);
      assert ys[i + 1] == ys[1..][i];
    }
  }
}
