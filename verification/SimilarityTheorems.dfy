/** What the item-similarity output means: the naive counts behind every score, the
    independence from sharding, buffering and reading mode, and the cosine bound. */
module SimilarityTheorems {
  import opened Arithmetic
  import opened Orders
  import opened PairReduction
  import opened Interactions
  import opened UserItems
  import opened ItemSimilarity

  // ----- the naive counts -------------------------------------------------------------------

  /** The users whose normalised listing holds both items. */
  ghost function UsersHoldingBoth(cap: int, groups: seq<Group>, a: int, b: int): nat {
    if groups == [] then 0
    else
      var n := |groups| - 1;
      var s := Normalized(cap, groups[n].ratings);
      UsersHoldingBoth(cap, groups[..n], a, b) + (if Has(s, a) && Has(s, b) then 1 else 0)
  }

  ghost function WeightProducts(cap: int, groups: seq<Group>, a: int, b: int): real {
    if groups == [] then 0.0
    else
      var n := |groups| - 1;
      var s := Normalized(cap, groups[n].ratings);
      WeightProducts(cap, groups[..n], a, b) + Times(WeightAt(s, a), WeightAt(s, b))
  }

  lemma {:induction false} OrientedMeaning(cap: int, groups: seq<Group>, l: int, r: int)
    requires l < r
    ensures RowCount(PairRows(cap, groups), l, r) == UsersHoldingBoth(cap, groups, l, r)
    ensures RowSum(PairRows(cap, groups), l, r) == WeightProducts(cap, groups, l, r)
  {
    hide Normalized, Combinations, Times;
    if groups != [] {
      var n := |groups| - 1;
      var s := Normalized(cap, groups[n].ratings);
      OrientedMeaning(cap, groups[..n], l, r);
      RowsConcat(PairRows(cap, groups[..n]), Combinations(s), l, r);
      CombinationsCount(s, l, r);
      CombinationsSum(s, l, r);
    }
  }

  lemma {:induction false} HoldingSymmetric(cap: int, groups: seq<Group>, a: int, b: int)
    ensures UsersHoldingBoth(cap, groups, a, b) == UsersHoldingBoth(cap, groups, b, a)
    ensures WeightProducts(cap, groups, a, b) == WeightProducts(cap, groups, b, a)
  {
    hide Normalized;
    if groups != [] {
      var s := Normalized(cap, groups[|groups| - 1].ratings);
      HoldingSymmetric(cap, groups[..|groups| - 1], a, b);
      TimesCommutes(WeightAt(s, a), WeightAt(s, b));
    }
  }

  /** The co-occurrence of a pair is the number of users holding both items, and its sum is
      the sum of the users' weight products. */
  lemma {:induction false} PairMeaning(cap: int, groups: seq<Group>, a: int, b: int)
    requires a != b
    ensures Cooccurrence(PairRows(cap, groups), a, b) == UsersHoldingBoth(cap, groups, a, b)
    ensures Dot(PairRows(cap, groups), a, b) == WeightProducts(cap, groups, a, b)
  {
    OrientedMeaning(cap, groups, Min(a, b), Max(a, b));
    HoldingSymmetric(cap, groups, a, b);
  }

  // ----- sharding, buffering and reading mode are invisible -----------------------------------

  lemma {:induction false} OutputDeterminate(c1: Config, c2: Config, norms: map<int, real>, rows: seq<PairRow>,
          o1: seq<OutputRow>, o2: seq<OutputRow>)
    requires c2 == c1.(shardCount := c2.shardCount, shardBufferRows := c2.shardBufferRows)
    requires IsOutput(c1, norms, rows, o1) && IsOutput(c2, norms, rows, o2)
    ensures forall o :: o in o1 ==> o in o2
  {
    forall a ensures NeighborSet(c1, norms, rows, a) == NeighborSet(c2, norms, rows, a)
             ensures NeighborList(c1, norms, rows, a) == NeighborList(c2, norms, rows, a) {
      assert forall b :: Kept(c1, norms, rows, a, b) == Kept(c2, norms, rows, a, b);
      assert NeighborSet(c1, norms, rows, a) == NeighborSet(c2, norms, rows, a);
    }
    forall o | o in o1 ensures o in o2 {
      assert NeighborSet(c2, norms, rows, o.item) != {};
      var p :| p in o2 && p.item == o.item;
      assert p == o;
    }
  }

  /** Two runs that differ only in shard count, buffer size or reading mode give the same
      rows, provided the streaming mode is only used on a stream grouped by user. */
  lemma {:induction false} ShardingInvisible(c1: BuilderConfig, c2: BuilderConfig, csv: seq<CsvRow>, o1: seq<OutputRow>,
          o2: seq<OutputRow>)
    requires c2 == c1.(sortedByUser := c2.sortedByUser, reduction := c1.reduction.(
                       shardCount := c2.reduction.shardCount, shardBufferRows := c2.reduction.shardBufferRows))
    requires c1.sortedByUser != c2.sortedByUser ==>
               Grouped(OnlyItems(Events(c1, csv), ValidItems(c1.minItemUsers, Events(c1, csv))))
    requires IsSimilarityOutput(c1, csv, o1) && IsSimilarityOutput(c2, csv, o2)
    ensures forall o :: o in o1 <==> o in o2
    ensures |o1| == |o2|
  {
    hide IsOutput, PairRows, RunsOf, GroupsOf, Grouped, OnlyItems, Norms, ValidItems, PositiveRatings;
    var events := Events(c1, csv);
    RunsAgreeIffGrouped(OnlyItems(events, ValidItems(c1.minItemUsers, events)));
    var rows := PairRows(c1.maxUserItems, UserGroups(c1, events));
    assert rows == PairRows(c2.maxUserItems, UserGroups(c2, Events(c2, csv)));
    OutputDeterminate(c1.reduction, c2.reduction, Norms(events), rows, o1, o2);
    OutputDeterminate(c2.reduction, c1.reduction, Norms(events), rows, o2, o1);
    OutputDistinct(c1.reduction, Norms(events), rows, o1);
    OutputDistinct(c2.reduction, Norms(events), rows, o2);
    assert Elems(o1) == Elems(o2);
  }

  lemma {:induction false} OutputDistinct(cfg: Config, norms: map<int, real>, rows: seq<PairRow>, o: seq<OutputRow>)
    requires IsOutput(cfg, norms, rows, o)
    ensures |Elems(o)| == |o|
  {
    assert NoDup(o);
    ElemsCard(o);
  }

  // ----- the cosine bound ---------------------------------------------------------------------

  ghost function OwnSquares(cap: int, groups: seq<Group>, a: int): real {
    if groups == [] then 0.0
    else
      var n := |groups| - 1;
      var w := WeightAt(Normalized(cap, groups[n].ratings), a);
      OwnSquares(cap, groups[..n], a) + Times(w, w)
  }

  lemma {:induction false} CauchySchwarz(cap: int, groups: seq<Group>, a: int, b: int)
    ensures Times(WeightProducts(cap, groups, a, b), WeightProducts(cap, groups, a, b))
            <= Times(OwnSquares(cap, groups, a), OwnSquares(cap, groups, b))
  {
    hide Normalized;
    if groups != [] {
      var n := |groups| - 1;
      var s := Normalized(cap, groups[n].ratings);
      CauchySchwarz(cap, groups[..n], a, b);
      OwnSquaresBelowNorm(cap, groups[..n], a);
      OwnSquaresBelowNorm(cap, groups[..n], b);
      CauchyStep(OwnSquares(cap, groups[..n], a), OwnSquares(cap, groups[..n], b),
                 WeightProducts(cap, groups[..n], a, b), WeightAt(s, a), WeightAt(s, b));
    }
  }

  /** Deduplication and the cap only lower an item's square sum. */
  lemma {:induction false} OwnSquaresBelowNorm(cap: int, groups: seq<Group>, a: int)
    ensures 0.0 <= OwnSquares(cap, groups, a) <= GroupSquares(groups, a)
  {
    hide Normalized;
    if groups != [] {
      var n := |groups| - 1;
      var s := Normalized(cap, groups[n].ratings);
      OwnSquaresBelowNorm(cap, groups[..n], a);
      WeightAtOf(s, a);
      if Has(s, a) {
        NormalizedFrom(cap, groups[n].ratings, Weighted(a, WeightAt(s, a)));
        var r :| r in groups[n].ratings && r.item == a && r.weight == WeightAt(s, a);
        OneSquare(groups[n].ratings, r);
      } else {
        assert Times(WeightAt(s, a), WeightAt(s, a)) == 0.0;
      }
    }
  }

  lemma {:induction false} PositiveWhenHeld(cap: int, groups: seq<Group>, a: int, b: int)
    requires forall g, e :: g in groups && e in g.ratings ==> e.weight > 0.0
    ensures WeightProducts(cap, groups, a, b) >= 0.0
    ensures UsersHoldingBoth(cap, groups, a, b) > 0 ==> WeightProducts(cap, groups, a, b) > 0.0
  {
    hide Normalized;
    if groups != [] {
      var n := |groups| - 1;
      var s := Normalized(cap, groups[n].ratings);
      assert groups[n] in groups;
      PositiveWhenHeld(cap, groups[..n], a, b);
      PositiveWeight(cap, groups[n].ratings, a);
      PositiveWeight(cap, groups[n].ratings, b);
      TimesMonotone(0.0, 0.0, WeightAt(s, a), WeightAt(s, b));
    }
  }

  lemma {:induction false} PositiveWeight(cap: int, ratings: seq<Rating>, a: int)
    requires forall e :: e in ratings ==> e.weight > 0.0
    ensures var s := Normalized(cap, ratings);
            if Has(s, a) then WeightAt(s, a) > 0.0 else WeightAt(s, a) == 0.0
  {
    hide Normalized;
    var s := Normalized(cap, ratings);
    WeightAtOf(s, a);
    if Has(s, a) {
      NormalizedFrom(cap, ratings, Weighted(a, WeightAt(s, a)));
    }
  }

  lemma {:induction false} RunRatings(events: seq<Rating>, g: Group, e: Rating)
    requires (g in RunsOf(events) || g in GroupsOf(events)) && e in g.ratings
    ensures e in events
  {
    if events != [] {
      var n := |events| - 1;
      assert events == events[..n] + [events[n]];
      if e != events[n] {
        if g in RunsOf(events) {
          var r := RunsOf(events[..n]);
          if g !in r {
            var p := r[|r| - 1];
            assert p in r && e in p.ratings;
            RunRatings(events[..n], p, e);
          } else {
            RunRatings(events[..n], g, e);
          }
        } else {
          var r := GroupsOf(events[..n]);
          var k := GroupIndex(r, events[n].user);
          if g !in r {
            assert r[k] in r && e in r[k].ratings;
            RunRatings(events[..n], r[k], e);
          } else {
            RunRatings(events[..n], g, e);
          }
        }
      }
    }
  }

  /** An item some user still holds after the validity filter is a valid item. */
  lemma {:induction false} HeldItemsOccur(cap: int, groups: seq<Group>, a: int, b: int)
    requires UsersHoldingBoth(cap, groups, a, b) > 0
    ensures exists g, e :: g in groups && e in g.ratings && e.item == a
  {
    hide Normalized;
    var n := |groups| - 1;
    var s := Normalized(cap, groups[n].ratings);
    if Has(s, a) && Has(s, b) {
      WeightAtOf(s, a);
      NormalizedFrom(cap, groups[n].ratings, Weighted(a, WeightAt(s, a)));
      assert groups[n] in groups;
    } else {
      HeldItemsOccur(cap, groups[..n], a, b);
      var g, e :| g in groups[..n] && e in g.ratings && e.item == a;
      assert g in groups;
    }
  }

  lemma {:induction false} HeldItemsValid(cfg: BuilderConfig, events: seq<Rating>, a: int, b: int)
    requires UsersHoldingBoth(cfg.maxUserItems, UserGroups(cfg, events), a, b) > 0
    ensures IsValidItem(cfg.minItemUsers, events, a) && a in ValidItems(cfg.minItemUsers, events)
  {
    HeldItemsOccur(cfg.maxUserItems, UserGroups(cfg, events), a, b);
    var g, e :| g in UserGroups(cfg, events) && e in g.ratings && e.item == a;
    RunRatings(OnlyItems(events, ValidItems(cfg.minItemUsers, events)), g, e);
  }

  lemma {:induction false} ItemSquares(cfg: BuilderConfig, events: seq<Rating>, a: int)
    requires a in ValidItems(cfg.minItemUsers, events)
    ensures 0.0 <= OwnSquares(cfg.maxUserItems, UserGroups(cfg, events), a) <= SumSquares(events, a)
  {
    var valid := ValidItems(cfg.minItemUsers, events);
    OwnSquaresBelowNorm(cfg.maxUserItems, UserGroups(cfg, events), a);
    RunsConserveSquares(OnlyItems(events, valid), a);
    GroupsConserveSquares(OnlyItems(events, valid), a);
    OnlyItemsSquares(events, valid, a);
  }

  /** The squared weight sum of two items stays below the product of their norms, and is
      positive as soon as one user holds both. */
  lemma {:induction false} PairBound(cfg: BuilderConfig, csv: seq<CsvRow>, a: int, b: int)
    requires UsersHoldingBoth(cfg.maxUserItems, UserGroups(cfg, Events(cfg, csv)), a, b) > 0
    ensures var events := Events(cfg, csv);
            var p := WeightProducts(cfg.maxUserItems, UserGroups(cfg, events), a, b);
            p > 0.0 && Times(p, p) <= Times(SumSquares(events, a), SumSquares(events, b))
  {
    hide Normalized, PairRows, RunsOf, GroupsOf;
    var events := Events(cfg, csv);
    var cap, groups := cfg.maxUserItems, UserGroups(cfg, events);
    HoldingSymmetric(cap, groups, a, b);
    HeldItemsValid(cfg, events, a, b);
    HeldItemsValid(cfg, events, b, a);
    CauchySchwarz(cap, groups, a, b);
    ItemSquares(cfg, events, a);
    ItemSquares(cfg, events, b);
    TimesMonotone(OwnSquares(cap, groups, a), OwnSquares(cap, groups, b), SumSquares(events, a), SumSquares(events, b));
    forall g, e | g in groups && e in g.ratings ensures e.weight > 0.0 {
      RunRatings(OnlyItems(events, ValidItems(cfg.minItemUsers, events)), g, e);
    }
    PositiveWhenHeld(cap, groups, a, b);
  }

  /** For every kept pair the squared sum is at most the product of the norms, so in ideal
      reals the score lies in (0, 1], although the norms count every rating while the pairs
      are deduplicated and capped. The root is only asked to be a root at this product. */
  lemma {:induction false} CosineBound(cfg: BuilderConfig, csv: seq<CsvRow>, a: int, b: int, rows: seq<PairRow>,
          norms: map<int, real>)
    requires ValidConfig(cfg.reduction)
    requires rows == PairRows(cfg.maxUserItems, UserGroups(cfg, Events(cfg, csv))) && norms == Norms(Events(cfg, csv))
    requires Kept(cfg.reduction, norms, rows, a, b)
    requires var d := Denominator(cfg.reduction, norms, a, b);
             Times(d, d) == Times(NormSq(norms, a), NormSq(norms, b))
    ensures Times(Dot(rows, a, b), Dot(rows, a, b)) <= Times(NormSq(norms, a), NormSq(norms, b))
    ensures 0.0 < Dot(rows, a, b) / Denominator(cfg.reduction, norms, a, b) <= 1.0
  {
    hide Normalized, PairRows, Times, UserGroups, Norms, SumSquares, WeightProducts, UsersHoldingBoth;
    var events := Events(cfg, csv);
    PairMeaning(cfg.maxUserItems, UserGroups(cfg, events), a, b);
    PairBound(cfg, csv, a, b);
    NormsMeaning(events, a);
    NormsMeaning(events, b);
    RootBound(Dot(rows, a, b), Denominator(cfg.reduction, norms, a, b), Times(NormSq(norms, a), NormSq(norms, b)));
  }
}
