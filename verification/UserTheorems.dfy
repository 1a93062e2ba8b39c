/** What the user-similarity output means: independence from sharding, the coverage promise of
    the anchors, and when the cosine bound holds. */
module UserTheorems {
  import opened Arithmetic
  import opened Orders
  import opened PairReduction
  import opened Interactions
  import opened UserItems
  import opened ItemSimilarity
  import opened SimilarityTheorems
  import opened StratifiedSample
  import opened ItemPairs
  import opened CoverageAnchors
  import opened UserSimilarity

  /** Two runs that differ only in shard count and buffer size give the same rows. */
  lemma {:induction false} UserShardingInvisible(c1: UserBuilderConfig, c2: UserBuilderConfig, csv: seq<CsvRow>,
          o1: seq<OutputRow>, o2: seq<OutputRow>)
    requires c2 == c1.(reduction := c1.reduction.(
                       shardCount := c2.reduction.shardCount, shardBufferRows := c2.reduction.shardBufferRows))
    requires IsUserOutput(c1, csv, o1) && IsUserOutput(c2, csv, o2)
    ensures forall o :: o in o1 <==> o in o2
    ensures |o1| == |o2|
  {
    hide IsOutput;
    var events := UserEvents(c1, csv);
    var rows := UserPairRows(c1, events);
    SameRows(c1, c2, events, GroupsOf(KeptRatings(c1, events)));
    OutputDeterminate(c1.reduction, c2.reduction, Norms(Turned(events)), rows, o1, o2);
    OutputDeterminate(c2.reduction, c1.reduction, Norms(Turned(events)), rows, o2, o1);
    OutputDistinct(c1.reduction, Norms(Turned(events)), rows, o1);
    OutputDistinct(c2.reduction, Norms(Turned(events)), rows, o2);
    assert Elems(o1) == Elems(o2);
  }

  lemma {:induction false} SameRows(c1: UserBuilderConfig, c2: UserBuilderConfig, events: seq<Rating>,
          groups: seq<Group>)
    requires c2 == c1.(reduction := c2.reduction)
    ensures RowsOfItems(c1, events, groups) == RowsOfItems(c2, events, groups)
  {
    hide ItemRows, IsAnchor;
    if groups != [] {
      SameRows(c1, c2, events, groups[..|groups| - 1]);
      assert AnchorSet(c1, events, groups[|groups| - 1].user) == AnchorSet(c2, events, groups[|groups| - 1].user);
    }
  }

  // ----- coverage ---------------------------------------------------------------------------------

  lemma {:induction false} KeptHolds(events: seq<Rating>, users: set<int>, e: Rating)
    requires e in events && e.item in users
    ensures e in OnlyItems(events, users)
  {
    var n := |events| - 1;
    assert events == events[..n] + [events[n]];
    if events[n] != e {
      KeptHolds(events[..n], users, e);
    }
  }

  /** A user who anchors an item is in its sample or among its extras. */
  lemma {:induction false} AnchorSelected(cfg: SampleConfig, all: set<Participant>, anchors: set<int>, x: Participant)
    requires DistinctUsers(all) && x in all && x.user in anchors && |all| >= cfg.minItemUsers
    requires |all| >= 2 && (cfg.maxItemUsers <= 0 || cfg.maxItemUsers >= 2)
    ensures var p := Selected(cfg, all, anchors);
            |p.base| >= 2 && p.base <= p.cover && (x in p.base || x in p.extra)
  {
    hide Sample, DistinctUsers;
    SampleCard(all, cfg.maxItemUsers);
    SampleCard(all, cfg.coveragePairSampleSize);
    var p := Selected(cfg, all, anchors);
    if cfg.maxItemUsers > 0 && cfg.coveragePairSampleSize > |p.base| && p.extra != {} {
      assert |p.base| == cfg.maxItemUsers by { SubsetCard(p.base, all); }
      SampleGrows(all, cfg.maxItemUsers, cfg.coveragePairSampleSize);
    }
  }

  lemma {:induction false} AnotherMember(S: set<Participant>, x: Participant) returns (y: Participant)
    requires |S| >= 2
    ensures y in S && y != x
  {
    var a, b := TwoOf(S);
    y := if a == x then b else a;
  }

  lemma {:induction false} PairedByAnchor(cfg: SampleConfig, item: int, inter: seq<Rating>, anchors: set<int>, u: int)
    requires u in anchors && exists e :: e in inter && e.item == u
    requires |RankedUsers(cfg, item, Deduped(inter))| >= Max(2, cfg.minItemUsers)
    requires cfg.maxItemUsers <= 0 || cfg.maxItemUsers >= 2
    ensures exists v :: v != u && RowCount(ItemRows(cfg, item, inter, anchors), Min(u, v), Max(u, v)) >= 1
  {
    hide Selected, ItemRows, DistinctUsers, Deduped;
    var d := Deduped(inter);
    var all := RankedUsers(cfg, item, d);
    DedupedMeaning(inter);
    var x := Participant(u, d[u].weight, d[u].timestamp, cfg.rank(item, u));
    assert x in all;
    var p := Selected(cfg, all, anchors);
    AnchorSelected(cfg, all, anchors, x);
    var y := AnotherMember(p.base, x);
    BasePlain(cfg, all, anchors);
    assert x.user != y.user by { DifferentUsers(all, x, y); }
    var v := y.user;
    assert ParticipantsOf(cfg, item, inter, anchors) == p;
    PairMultiplicity(cfg, item, inter, anchors, Min(u, v), Max(u, v));
    assert Within(p.base, v) && Within(p.cover, v);
    assert Within(p.base, u) || Within(p.extra, u);
  }

  /** No valid user is erased by the cap: each of their anchor items with enough users pairs
      them with somebody. */
  lemma {:induction false} AnchoredUsersPaired(cfg: UserBuilderConfig, events: seq<Rating>, user: int, item: int)
    requires cfg.anchorItemsPerUser > 0 && cfg.sample.maxItemUsers >= 2
    requires user in ValidUsers(cfg, events) &&
             item in AnchorItems(events, cfg.sample.rank, cfg.anchorItemsPerUser, user)
    ensures exists g :: g in GroupsOf(KeptRatings(cfg, events)) && g.user == item &&
              (|RankedUsers(cfg.sample, item, Deduped(g.ratings))| >= Max(2, cfg.sample.minItemUsers) ==>
                 exists v :: v != user && RowCount(RowsOfItem(cfg, events, g), Min(user, v), Max(user, v)) >= 1)
  {
    hide ItemRows, AnchorItems, RankedUsers, Deduped, GroupsOf;
    EveryUserAnchored(events, cfg.sample.rank, cfg.anchorItemsPerUser, user);
    var e :| e in events && e.user == user && e.item == item;
    var i :| 0 <= i < |events| && events[i] == e;
    assert Turned(events)[i] == Turn(e);
    KeptHolds(Turned(events), ValidUsers(cfg, events), Turn(e));
    GroupHolds(KeptRatings(cfg, events), Turn(e));
    var g :| g in GroupsOf(KeptRatings(cfg, events)) && g.user == item && Turn(e) in g.ratings;
    if |RankedUsers(cfg.sample, item, Deduped(g.ratings))| >= Max(2, cfg.sample.minItemUsers) {
      assert Turn(e).item == user;
      PairedByAnchor(cfg.sample, item, g.ratings, AnchorSet(cfg, events, item), user);
    }
  }

  // ----- the cosine bound ----------------------------------------------------------------------------

  /** No item can give a pair two rows: there are no anchors, or too few extras are sampled. */
  predicate OneRowBuilder(cfg: UserBuilderConfig) {
    cfg.anchorItemsPerUser <= 0 || OneRowConfig(cfg.sample)
  }

  lemma {:induction false} AnchorsOff(cfg: UserBuilderConfig, events: seq<Rating>, item: int)
    requires cfg.anchorItemsPerUser <= 0
    ensures AnchorSet(cfg, events, item) == {}
  {
  }

  /** What user u brings to the pair {l, r} at one item: their weight if the item joins the pair. */
  ghost function Share(cfg: SampleConfig, item: int, inter: seq<Rating>, anchors: set<int>, l: int, r: int,
          u: int): real
  {
    if RowCount(ItemRows(cfg, item, inter, anchors), l, r) > 0 && u in Deduped(inter)
    then Deduped(inter)[u].weight else 0.0
  }

  lemma {:induction false} ListedWeight(cfg: SampleConfig, item: int, d: map<int, Best>, S: set<Participant>, u: int)
    requires DistinctUsers(S) && S <= RankedUsers(cfg, item, d)
    ensures Within(S, u) ==> u in d && WeightAt(Listing(S), u) == d[u].weight
    ensures !Within(S, u) ==> WeightAt(Listing(S), u) == 0.0
  {
    hide Listing;
    if Within(S, u) {
      var p :| p in S && p.user == u;
      ListingHas(S, p);
    } else {
      ListingWithin(S, u);
      WeightAtOf(Listing(S), u);
    }
  }

  /** The summed weight products of a pair at one item, by the same three ways as its rows. */
  lemma {:induction false} PairSum(cfg: SampleConfig, item: int, inter: seq<Rating>, anchors: set<int>, l: int, r: int)
    requires l < r
    ensures var p := ParticipantsOf(cfg, item, inter, anchors);
            RowSum(ItemRows(cfg, item, inter, anchors), l, r) ==
            if |p.base| < 2 then 0.0
            else Times(WeightAt(Listing(p.base), l), WeightAt(Listing(p.base), r)) +
                 Times(WeightAt(Listing(p.extra), l), WeightAt(Listing(p.cover), r)) +
                 Times(WeightAt(Listing(p.extra), r), WeightAt(Listing(p.cover), l))
  {
    hide Listing, Selected, ParticipantsOf, Sorted, Times;
    var p := ParticipantsOf(cfg, item, inter, anchors);
    ListingSize(p.base);
    if |p.base| >= 2 {
      CombinationsSum(Listing(p.base), l, r);
      CrossRowsMeaning(Listing(p.extra), Listing(p.cover), l, r);
      RowsConcat(Combinations(Listing(p.base)), CrossRows(Listing(p.extra), Listing(p.cover)), l, r);
    }
  }

  lemma {:induction false} ZeroTimes(x: real)
    ensures Times(0.0, x) == 0.0 && Times(x, 0.0) == 0.0
  {
  }

  /** Which factors of the three products are present. */
  lemma {:induction false} ThreeProducts(bl: bool, br: bool, xl: bool, cr: bool, xr: bool, cl: bool, w: real, v: real)
    ensures var W := (b: bool, x: real) => if b then x else 0.0;
            Times(W(bl, w), W(br, v)) + Times(W(xl, w), W(cr, v)) + Times(W(xr, v), W(cl, w)) ==
            (Ind(bl && br) + Ind(xl && cr) + Ind(xr && cl)) as real * Times(w, v)
  {
    ZeroTimes(w);
    ZeroTimes(v);
    TimesCommutes(w, v);
  }

  /** Every row of a pair carries the product of the two users' weights. */
  lemma {:induction false} SumIsCountTimesProduct(cfg: SampleConfig, item: int, inter: seq<Rating>, anchors: set<int>,
          l: int, r: int)
    requires l < r && l in Deduped(inter) && r in Deduped(inter)
    ensures RowSum(ItemRows(cfg, item, inter, anchors), l, r) ==
            RowCount(ItemRows(cfg, item, inter, anchors), l, r) as real *
            Times(Deduped(inter)[l].weight, Deduped(inter)[r].weight)
  {
    hide Selected, ItemRows, DistinctUsers, Deduped, Listing, RankedUsers, Times;
    var d := Deduped(inter);
    var all := RankedUsers(cfg, item, d);
    var p := ParticipantsOf(cfg, item, inter, anchors);
    assert p == Selected(cfg, all, anchors);
    BasePlain(cfg, all, anchors);
    PairMultiplicity(cfg, item, inter, anchors, l, r);
    PairSum(cfg, item, inter, anchors, l, r);
    ListedWeight(cfg, item, d, p.base, l);
    ListedWeight(cfg, item, d, p.base, r);
    ListedWeight(cfg, item, d, p.extra, l);
    ListedWeight(cfg, item, d, p.extra, r);
    ListedWeight(cfg, item, d, p.cover, l);
    ListedWeight(cfg, item, d, p.cover, r);
    if |p.base| >= 2 {
      ThreeProducts(Within(p.base, l), Within(p.base, r), Within(p.extra, l), Within(p.cover, r),
                    Within(p.extra, r), Within(p.cover, l), d[l].weight, d[r].weight);
    }
  }

  lemma {:induction false} RowsNeedBoth(cfg: SampleConfig, item: int, inter: seq<Rating>, anchors: set<int>, l: int,
          r: int)
    requires l < r && RowCount(ItemRows(cfg, item, inter, anchors), l, r) > 0
    ensures l in Deduped(inter) && r in Deduped(inter)
  {
    hide Selected, ItemRows, Deduped, DistinctUsers;
    var all := RankedUsers(cfg, item, Deduped(inter));
    var p := ParticipantsOf(cfg, item, inter, anchors);
    assert p == Selected(cfg, all, anchors);
    BasePlain(cfg, all, anchors);
    PairMultiplicity(cfg, item, inter, anchors, l, r);
  }

  lemma {:induction false} NoRowsNoSum(rows: seq<PairRow>, l: int, r: int)
    requires RowCount(rows, l, r) == 0
    ensures RowSum(rows, l, r) == 0.0
  {
    if rows != [] {
      NoRowsNoSum(rows[..|rows| - 1], l, r);
    }
  }

  lemma {:induction false} ShareProduct(cfg: SampleConfig, item: int, inter: seq<Rating>, anchors: set<int>, l: int,
          r: int)
    requires (anchors == {} || OneRowConfig(cfg)) && l < r
    ensures RowSum(ItemRows(cfg, item, inter, anchors), l, r) ==
            Times(Share(cfg, item, inter, anchors, l, r, l), Share(cfg, item, inter, anchors, l, r, r))
  {
    hide ItemRows, Deduped;
    var rows := ItemRows(cfg, item, inter, anchors);
    OneRowAtMost(cfg, item, inter, anchors, l, r);
    if RowCount(rows, l, r) == 0 {
      NoRowsNoSum(rows, l, r);
    } else {
      RowsNeedBoth(cfg, item, inter, anchors, l, r);
      SumIsCountTimesProduct(cfg, item, inter, anchors, l, r);
      OneTimes(RowCount(rows, l, r), Times(Deduped(inter)[l].weight, Deduped(inter)[r].weight));
    }
  }

  lemma {:induction false} OneTimes(count: nat, x: real)
    requires count == 1
    ensures count as real * x == x
  {
  }

  lemma {:induction false} ShareBelowSquares(cfg: SampleConfig, item: int, inter: seq<Rating>, anchors: set<int>,
          l: int, r: int, u: int)
    ensures var x := Share(cfg, item, inter, anchors, l, r, u); 0.0 <= Times(x, x) <= SumSquares(inter, u)
  {
    hide ItemRows, Deduped;
    DedupedMeaning(inter);
    var x := Share(cfg, item, inter, anchors, l, r, u);
    assert x * x >= 0.0;
    if x != 0.0 {
      var e :| e in inter && e.item == u && Best(e.weight, e.timestamp) == Deduped(inter)[u];
      OneSquare(inter, e);
    }
  }

  /** Cauchy and Schwarz over the items, with each item counted once. */
  lemma {:induction false} ItemsCauchySchwarz(cfg: UserBuilderConfig, events: seq<Rating>, groups: seq<Group>, l: int,
          r: int)
    requires OneRowBuilder(cfg) && l < r
    ensures var c := RowSum(RowsOfItems(cfg, events, groups), l, r);
            Times(c, c) <= Times(GroupSquares(groups, l), GroupSquares(groups, r))
  {
    hide ItemRows, AnchorSet, Times;
    if groups == [] {
      ZeroTimes(0.0);
    } else {
      var m := |groups| - 1;
      var init, g := groups[..m], groups[m];
      var anchors := AnchorSet(cfg, events, g.user);
      var x, y := Share(cfg.sample, g.user, g.ratings, anchors, l, r, l),
        Share(cfg.sample, g.user, g.ratings, anchors, l, r, r);
      ItemsCauchySchwarz(cfg, events, init, l, r);
      if cfg.anchorItemsPerUser <= 0 { AnchorsOff(cfg, events, g.user); }
      ShareProduct(cfg.sample, g.user, g.ratings, anchors, l, r);
      ShareBelowSquares(cfg.sample, g.user, g.ratings, anchors, l, r, l);
      ShareBelowSquares(cfg.sample, g.user, g.ratings, anchors, l, r, r);
      RowsConcat(RowsOfItems(cfg, events, init), RowsOfItem(cfg, events, g), l, r);
      CauchyStep(GroupSquares(init, l), GroupSquares(init, r), RowSum(RowsOfItems(cfg, events, init), l, r), x, y);
      TimesMonotone(GroupSquares(init, l) + Times(x, x), GroupSquares(init, r) + Times(y, y),
        GroupSquares(groups, l), GroupSquares(groups, r));
    }
  }

  lemma {:induction false} FewerSquares(events: seq<Rating>, users: set<int>, u: int)
    ensures SumSquares(OnlyItems(events, users), u) <= SumSquares(events, u)
  {
    if events != [] {
      var n := |events| - 1;
      var f := OnlyItems(events[..n], users);
      FewerSquares(events[..n], users, u);
      SquaresAppend(f, events[n], u);
      assert f + [] == f;
      assert events[n].weight * events[n].weight >= 0.0;
    }
  }

  lemma {:induction false} ItemsPositive(cfg: UserBuilderConfig, events: seq<Rating>, groups: seq<Group>, l: int,
          r: int)
    requires OneRowBuilder(cfg) && l < r
    requires forall g, e :: g in groups && e in g.ratings ==> e.weight > 0.0
    ensures RowSum(RowsOfItems(cfg, events, groups), l, r) >= 0.0
    ensures RowCount(RowsOfItems(cfg, events, groups), l, r) > 0 ==>
              RowSum(RowsOfItems(cfg, events, groups), l, r) > 0.0
  {
    hide ItemRows, AnchorSet, Times, Deduped;
    if groups != [] {
      var m := |groups| - 1;
      var init, g := groups[..m], groups[m];
      assert g in groups;
      var anchors := AnchorSet(cfg, events, g.user);
      ItemsPositive(cfg, events, init, l, r);
      RowsConcat(RowsOfItems(cfg, events, init), RowsOfItem(cfg, events, g), l, r);
      var rows := RowsOfItem(cfg, events, g);
      if RowCount(rows, l, r) == 0 {
        NoRowsNoSum(rows, l, r);
      } else {
        RowsNeedBoth(cfg.sample, g.user, g.ratings, anchors, l, r);
        if cfg.anchorItemsPerUser <= 0 { AnchorsOff(cfg, events, g.user); }
        ShareProduct(cfg.sample, g.user, g.ratings, anchors, l, r);
        DedupedMeaning(g.ratings);
        PositiveTimes(Deduped(g.ratings)[l].weight, Deduped(g.ratings)[r].weight);
      }
    }
  }

  /** Where no item gives a pair two rows the cosine bound holds of users too: in ideal reals
      every kept score lies in (0, 1]. */
  lemma {:induction false} UserCosineBound(cfg: UserBuilderConfig, csv: seq<CsvRow>, a: int, b: int, rows: seq<PairRow>,
          norms: map<int, real>)
    requires ValidConfig(cfg.reduction) && OneRowBuilder(cfg)
    requires rows == UserPairRows(cfg, UserEvents(cfg, csv)) && norms == Norms(Turned(UserEvents(cfg, csv)))
    requires Kept(cfg.reduction, norms, rows, a, b)
    requires var d := Denominator(cfg.reduction, norms, a, b);
             Times(d, d) == Times(NormSq(norms, a), NormSq(norms, b))
    ensures Times(Dot(rows, a, b), Dot(rows, a, b)) <= Times(NormSq(norms, a), NormSq(norms, b))
    ensures 0.0 < Dot(rows, a, b) / Denominator(cfg.reduction, norms, a, b) <= 1.0
  {
    hide RowsOfItems, Times, Norms, SumSquares, GroupsOf, GroupSquares, RowCount, RowSum;
    var events := UserEvents(cfg, csv);
    var kept := KeptRatings(cfg, events);
    var groups := GroupsOf(kept);
    var l, r := Min(a, b), Max(a, b);
    ItemsCauchySchwarz(cfg, events, groups, l, r);
    NormAbove(cfg, events, l);
    NormAbove(cfg, events, r);
    TimesMonotone(GroupSquares(groups, l), GroupSquares(groups, r), NormSq(norms, l), NormSq(norms, r));
    TimesCommutes(NormSq(norms, a), NormSq(norms, b));
    KeptPositive(cfg, csv);
    ItemsPositive(cfg, events, groups, l, r);
    RootBound(Dot(rows, a, b), Denominator(cfg.reduction, norms, a, b), Times(NormSq(norms, a), NormSq(norms, b)));
  }

  lemma {:induction false} NormAbove(cfg: UserBuilderConfig, events: seq<Rating>, u: int)
    ensures 0.0 <= GroupSquares(GroupsOf(KeptRatings(cfg, events)), u) <= NormSq(Norms(Turned(events)), u)
  {
    GroupsConserveSquares(KeptRatings(cfg, events), u);
    FewerSquares(Turned(events), ValidUsers(cfg, events), u);
    NormsMeaning(Turned(events), u);
  }

  lemma {:induction false} KeptPositive(cfg: UserBuilderConfig, csv: seq<CsvRow>)
    ensures forall g, e :: g in GroupsOf(KeptRatings(cfg, UserEvents(cfg, csv))) && e in g.ratings ==> e.weight > 0.0
  {
    var events := UserEvents(cfg, csv);
    var kept := KeptRatings(cfg, events);
    forall g, e | g in GroupsOf(kept) && e in g.ratings ensures e.weight > 0.0 {
      RunRatings(kept, g, e);
      var i :| 0 <= i < |Turned(events)| && Turned(events)[i] == e;
      assert events[i] in events;
    }
  }
}
