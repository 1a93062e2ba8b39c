/** When one item can give a pair of users two rows, and what that does to their score: the
    exact condition on a configuration, with a rating file for every configuration that fails. */
module DoubledPairs {
  import opened Arithmetic
  import opened Orders
  import opened PairReduction
  import opened Interactions
  import opened UserItems
  import opened ItemSimilarity
  import opened StratifiedSample
  import opened ItemPairs
  import opened CoverageAnchors
  import opened UserSimilarity
  import opened UserTheorems
  import opened EqualWeights
  import opened MiddlePair
  import opened DoubledRun

  // ----- the file for a configuration --------------------------------------------------------------

  /** A pair of users from a pool, k items, and how many users follow the pair at each of them. */
  datatype Plot = Plot(cfg: UserBuilderConfig, tail: nat, pool: set<int>, l: int, r: int, k: nat)

  /** How often every user must be counted to be a valid one. */
  function Quota(cfg: UserBuilderConfig): nat {
    Max(1, cfg.minUserItems)
  }

  ghost predicate Works(p: Plot) {
    && !OneRowBuilder(p.cfg) && p.l < p.r
    && p.tail >= Max(1, p.cfg.sample.minItemUsers) && p.k >= Quota(p.cfg)
    && (forall i :: 0 <= i < p.k ==>
          InMiddle(p.cfg.sample, i, p.tail, p.pool, p.l) && InMiddle(p.cfg.sample, i, p.tail, p.pool, p.r))
  }

  lemma {:induction false} PlotExists(cfg: UserBuilderConfig) returns (p: Plot)
    requires !OneRowBuilder(cfg)
    ensures Works(p) && p.cfg == cfg && p.k >= cfg.reduction.minCooccurrence
  {
    hide Firsts, Lasts;
    var k := Max(Quota(cfg), cfg.reduction.minCooccurrence);
    var tail := Max(1, cfg.sample.minItemUsers);
    var pool, l, r := MiddleExists(cfg.sample.rank, k, cfg.sample.maxItemUsers, tail);
    p := Plot(cfg, tail, pool, l, r, k);
  }

  ghost function OthersAt(p: Plot, item: nat): set<int>
    requires Works(p)
  {
    var lasts := Lasts(p.cfg.sample.rank, item, p.tail, p.pool);
    if item == 0 then Firsts(p.cfg.sample.rank, 0, p.cfg.sample.maxItemUsers, p.pool) + lasts else lasts
  }

  lemma {:induction false} IdsTotal(ids: set<int>)
    ensures TotalOn((x: int, y: int) => x < y, ids)
  {
  }

  ghost function Listed(ids: set<int>): (r: seq<int>)
    ensures forall u :: u in r <==> u in ids
  {
    IdsTotal(ids);
    var r := SortSet((x: int, y: int) => x < y, ids);
    assert forall u :: u in r <==> u in Elems(r);
    r
  }

  ghost function Others(p: Plot, n: nat): (r: seq<seq<int>>)
    requires Works(p)
    ensures |r| == n
  {
    if n == 0 then [] else Others(p, n - 1) + [Listed(OthersAt(p, n - 1))]
  }

  lemma {:induction false} OthersListed(p: Plot, n: nat, i: nat)
    requires Works(p) && i < n
    ensures Others(p, n)[i] == Listed(OthersAt(p, i))
  {
    hide OthersAt, Listed, Works;
    if i < n - 1 {
      OthersListed(p, n - 1, i);
    }
  }

  /** What everybody's rating weighs. */
  function WeightOf(cfg: UserBuilderConfig): (w: real)
    ensures w > 0.0
  {
    LikedWeight(cfg.minRating, cfg.useRatingWeight, cfg.offset)
  }

  ghost function SchemeOf(p: Plot): Scheme
    requires Works(p)
  {
    Scheme(p.l, p.r, Others(p, p.k), WeightOf(p.cfg))
  }

  ghost function EventsOf(p: Plot): seq<Rating>
    requires Works(p)
  {
    Parts(SchemeOf(p), Quota(p.cfg), p.k)
  }

  lemma {:induction false} PlotSound(p: Plot)
    requires Works(p)
    ensures Sound(SchemeOf(p))
  {
    hide Firsts, Lasts, Listed, Others;
    var s := SchemeOf(p);
    forall i | 0 <= i < p.k ensures s.others[i] != [] && p.l !in s.others[i] && p.r !in s.others[i] {
      assert InMiddle(p.cfg.sample, i, p.tail, p.pool, p.l);
      EndsOfPool(p.cfg.sample.rank, i, p.cfg.sample.maxItemUsers, p.tail, p.pool, p.l);
      var last := SomeMember(Lasts(p.cfg.sample.rank, i, p.tail, p.pool));
      OthersListed(p, p.k, i);
      assert last in OthersAt(p, i);
      OutsideOthers(p, i);
    }
  }

  lemma {:induction false} OutsideOthers(p: Plot, item: nat)
    requires Works(p) && item < p.k
    ensures p.l !in OthersAt(p, item) && p.r !in OthersAt(p, item)
  {
    hide Firsts, Lasts;
    assert InMiddle(p.cfg.sample, item, p.tail, p.pool, p.l) && InMiddle(p.cfg.sample, item, p.tail, p.pool, p.r);
  }

  lemma {:induction false} FileWorks(p: Plot)
    requires Works(p)
    ensures UserEvents(p.cfg, FileOf(p.cfg.minRating, p.cfg.offset, EventsOf(p))) == EventsOf(p)
    ensures KeptRatings(p.cfg, EventsOf(p)) == Turned(EventsOf(p))
    ensures p.l in ValidUsers(p.cfg, EventsOf(p)) && p.r in ValidUsers(p.cfg, EventsOf(p))
  {
    hide Parts, FileOf, LikedWeight, KeptRatings, ValidUsers, Others;
    PlotSound(p);
    var s := SchemeOf(p);
    forall e | e in EventsOf(p) ensures e.weight == WeightOf(p.cfg) {
      PartsMembers(s, Quota(p.cfg), p.k, e);
    }
    FileReads(p.cfg.minRating, p.cfg.useRatingWeight, p.cfg.offset, EventsOf(p));
    AllKept(p.cfg, s, Quota(p.cfg), p.k);
  }

  // ----- what each item makes of the pair ----------------------------------------------------------

  /** The first item is an anchor of both: it is the least popular item they rated. */
  lemma {:induction false} FirstAnchored(p: Plot, user: int)
    requires Works(p) && (user == p.l || user == p.r)
    ensures user in AnchorSet(p.cfg, EventsOf(p), 0)
  {
    hide Parts, ValidUsers, TopK, EntriesOf, RatingCount, Others;
    var events, rank := EventsOf(p), p.cfg.sample.rank;
    PlotSound(p);
    FileWorks(p);
    var S := EntriesOf(events, rank, user, |events|);
    var e := FirstEntry(p, user);
    AnchorTotal(S);
    var top := TopK(BetterAnchor, p.cfg.anchorItemsPerUser, S);
    if e !in top {
      assert |S| > 0;
      assert top[0] in Elems(top);
      EntryPopularity(p, user, top[0]);
    }
    assert 0 in AnchorItems(events, rank, p.cfg.anchorItemsPerUser, user);
  }

  lemma {:induction false} FirstEntry(p: Plot, user: int) returns (e: Entry)
    requires Works(p) && (user == p.l || user == p.r)
    ensures e in EntriesOf(EventsOf(p), p.cfg.sample.rank, user, |EventsOf(p)|)
    ensures e.item == 0 && e.popularity == RatingCount(EventsOf(p), 0)
  {
    hide Parts, RatingCount, Others;
    var events := EventsOf(p);
    PartsMembers(SchemeOf(p), Quota(p.cfg), p.k, Rated(user, 0, WeightOf(p.cfg)));
    var n :| 0 <= n < |events| && events[n] == Rated(user, 0, WeightOf(p.cfg));
    e := EntryAt(events, p.cfg.sample.rank, n);
  }

  lemma {:induction false} EntryPopularity(p: Plot, user: int, e: Entry)
    requires Works(p) && e in EntriesOf(EventsOf(p), p.cfg.sample.rank, user, |EventsOf(p)|)
    ensures e.item != 0 ==> e.popularity > RatingCount(EventsOf(p), 0)
  {
    hide Parts, RatingCount, Others;
    var events := EventsOf(p);
    var n :| 0 <= n < |events| && events[n].user == user && e == EntryAt(events, p.cfg.sample.rank, n);
    assert events[n] in events;
    PartsMembers(SchemeOf(p), Quota(p.cfg), p.k, events[n]);
    if e.item != 0 {
      PlotSound(p);
      FirstLeastPopular(SchemeOf(p), Quota(p.cfg), p.k, e.item);
    }
  }

  /** Who rates an item, all alike. */
  ghost function CrowdAt(p: Plot, item: nat): (r: set<Participant>)
    requires Works(p)
    ensures DistinctUsers(r)
  {
    Crowd(p.cfg.sample.rank, item, OthersAt(p, item) + {p.l, p.r}, WeightOf(p.cfg))
  }

  /** An item's ranked users are a crowd: its others and the pair, all alike. */
  lemma {:induction false} ItemCrowd(p: Plot, g: Group)
    requires Works(p) && g in GroupsOf(Turned(EventsOf(p)))
    ensures 0 <= g.user < p.k
    ensures RankedUsers(p.cfg.sample, g.user, Deduped(g.ratings)) == CrowdAt(p, g.user)
    ensures forall u :: u == p.l || u == p.r ==>
              u in Deduped(g.ratings) && Deduped(g.ratings)[u] == Best(WeightOf(p.cfg), 0)
  {
    hide Parts, GroupsOf, Deduped, Others, OthersAt, Listed, WeightOf;
    ItemUsers(SchemeOf(p), Quota(p.cfg), p.k, g);
    var d, w, rank := Deduped(g.ratings), WeightOf(p.cfg), p.cfg.sample.rank;
    var users := OthersAt(p, g.user) + {p.l, p.r};
    OthersListed(p, p.k, g.user);
    assert forall u :: u in d <==> u in users;
    forall x ensures x in RankedUsers(p.cfg.sample, g.user, d) <==> x in Crowd(rank, g.user, users, w) {
    }
  }

  lemma {:induction false} RatersAre(p: Plot, item: nat)
    requires Works(p)
    ensures OthersAt(p, item) + {p.l, p.r} ==
            if item == 0 then FirstRaters(p.cfg.sample, p.tail, p.pool, p.l, p.r)
            else FurtherRaters(p.cfg.sample, item, p.tail, p.pool, p.l, p.r)
  {
    hide Firsts, Lasts;
  }

  lemma {:induction false} FirstRows(p: Plot, anchors: set<int>)
    requires Works(p) && p.l in anchors && p.r in anchors
    ensures var s := Selected(p.cfg.sample, CrowdAt(p, 0), anchors);
            |s.base| >= 2 &&
            Within(s.extra, p.l) && Within(s.extra, p.r) && Within(s.cover, p.l) && Within(s.cover, p.r)
  {
    hide WeightOf, FirstRaters, InMiddle, Within, Crowd, Selected, OthersAt;
    RatersAre(p, 0);
    FirstSelection(p.cfg.sample, p.tail, p.pool, p.l, p.r, WeightOf(p.cfg), anchors);
  }

  lemma {:induction false} FurtherRows(p: Plot, item: nat, anchors: set<int>)
    requires Works(p) && 0 < item < p.k
    ensures var s := Selected(p.cfg.sample, CrowdAt(p, item), anchors);
            |s.base| >= 2 && Within(s.base, p.l) && Within(s.base, p.r)
  {
    hide WeightOf, FurtherRaters, InMiddle, Within, Crowd, Selected, OthersAt;
    RatersAre(p, item);
    FurtherSelection(p.cfg.sample, item, p.tail, p.pool, p.l, p.r, WeightOf(p.cfg), anchors);
  }

  /** Two rows at the first item, one at each further item. */
  lemma {:induction false} ItemGives(p: Plot, g: Group)
    requires Works(p) && g in GroupsOf(KeptRatings(p.cfg, EventsOf(p)))
    ensures RowCount(RowsOfItem(p.cfg, EventsOf(p), g), p.l, p.r) >= if g.user == 0 then 2 else 1
    ensures RowSum(RowsOfItem(p.cfg, EventsOf(p), g), p.l, p.r) ==
            RowCount(RowsOfItem(p.cfg, EventsOf(p), g), p.l, p.r) as real * Times(WeightOf(p.cfg), WeightOf(p.cfg))
  {
    hide EventsOf, GroupsOf, Deduped, OthersAt, WeightOf, KeptRatings, Selected, ItemRows, AnchorSet,
         RankedUsers, Within, Times, CrowdAt, Works;
    FileWorks(p);
    ItemCrowd(p, g);
    PairOrdered(p);
    var anchors := AnchorSet(p.cfg, EventsOf(p), g.user);
    PairMultiplicity(p.cfg.sample, g.user, g.ratings, anchors, p.l, p.r);
    SumIsCountTimesProduct(p.cfg.sample, g.user, g.ratings, anchors, p.l, p.r);
    if g.user == 0 {
      FirstAnchored(p, p.l);
      FirstAnchored(p, p.r);
      FirstRows(p, anchors);
    } else {
      FurtherRows(p, g.user, anchors);
    }
  }

  lemma {:induction false} PairOrdered(p: Plot)
    requires Works(p)
    ensures p.l < p.r && 0 < p.k
  {
  }

  // ----- one item: exactly which configurations exclude a second row ---------------------------------

  lemma {:induction false} ItemHasGroup(p: Plot, item: nat)
    requires Works(p) && item < p.k
    ensures exists g :: g in GroupsOf(KeptRatings(p.cfg, EventsOf(p))) && g.user == item
  {
    hide Parts, GroupsOf, WeightOf, KeptRatings, Others;
    FileWorks(p);
    var e := Rated(p.l, item, WeightOf(p.cfg));
    PartsMembers(SchemeOf(p), Quota(p.cfg), p.k, e);
    TurnedMember(EventsOf(p), Turn(e));
    GroupHolds(Turned(EventsOf(p)), Turn(e));
  }

  /** For a configuration that fails: a rating file, one of its items and a pair that gets two
      rows there. */
  lemma {:induction false} DoubledPair(cfg: UserBuilderConfig) returns (csv: seq<CsvRow>, g: Group, l: int, r: int)
    requires !OneRowBuilder(cfg)
    ensures g in GroupsOf(KeptRatings(cfg, UserEvents(cfg, csv))) && l < r
    ensures RowCount(RowsOfItem(cfg, UserEvents(cfg, csv), g), l, r) > 1
  {
    hide Works, EventsOf, GroupsOf, KeptRatings, RowsOfItem, FileOf;
    var p := PlotExists(cfg);
    FileWorks(p);
    PairOrdered(p);
    csv, l, r := FileOf(cfg.minRating, cfg.offset, EventsOf(p)), p.l, p.r;
    ItemHasGroup(p, 0);
    g :| g in GroupsOf(KeptRatings(cfg, EventsOf(p))) && g.user == 0;
    ItemGives(p, g);
  }

  lemma {:induction false} OneRowPerItem(cfg: UserBuilderConfig, events: seq<Rating>, g: Group, l: int, r: int)
    requires OneRowBuilder(cfg) && l < r
    ensures RowCount(RowsOfItem(cfg, events, g), l, r) <= 1
  {
    hide ItemRows, AnchorSet;
    if cfg.anchorItemsPerUser <= 0 { AnchorsOff(cfg, events, g.user); }
    OneRowAtMost(cfg.sample, g.user, g.ratings, AnchorSet(cfg, events, g.user), l, r);
  }

  /** On every rating file every item gives every pair at most one row, exactly if anchors are
      off, the cap admits no pair, or the coverage sample exceeds the cap by at most one. */
  lemma {:induction false} AtMostOneRowIff(cfg: UserBuilderConfig)
    ensures (forall csv, g, l, r :: g in GroupsOf(KeptRatings(cfg, UserEvents(cfg, csv))) && l < r ==>
               RowCount(RowsOfItem(cfg, UserEvents(cfg, csv), g), l, r) <= 1) <==> OneRowBuilder(cfg)
  {
    hide GroupsOf, KeptRatings, UserEvents, RowsOfItem, OneRowBuilder, RowCount;
    if OneRowBuilder(cfg) {
      forall csv, g, l, r | g in GroupsOf(KeptRatings(cfg, UserEvents(cfg, csv))) && l < r
        ensures RowCount(RowsOfItem(cfg, UserEvents(cfg, csv), g), l, r) <= 1 {
        OneRowPerItem(cfg, UserEvents(cfg, csv), g, l, r);
      }
    } else {
      var csv, g, l, r := DoubledPair(cfg);
    }
  }

  // ----- all items: what a second row does to the score ----------------------------------------------

  ghost predicate Owned(groups: seq<Group>, item: int) {
    exists g :: g in groups && g.user == item
  }

  /** What everybody's rating adds to a norm, and to a pair's sum. */
  function Unit(p: Plot): (x: real)
    ensures x > 0.0
  {
    PositiveTimes(WeightOf(p.cfg), WeightOf(p.cfg));
    Times(WeightOf(p.cfg), WeightOf(p.cfg))
  }

  lemma {:induction false} OwnedStep(groups: seq<Group>, item: int)
    requires groups != []
    ensures Owned(groups, item) <==> Owned(groups[..|groups| - 1], item) || groups[|groups| - 1].user == item
  {
    var m := |groups| - 1;
    assert groups == groups[..m] + [groups[m]];
    assert groups[m] in groups;
  }

  /** A row for every item, and one more if the first is among them; all of the same weight. */
  lemma {:induction false} ItemsGive(p: Plot, groups: seq<Group>)
    requires Works(p) && forall g :: g in groups ==> g in GroupsOf(KeptRatings(p.cfg, EventsOf(p)))
    ensures var rows := RowsOfItems(p.cfg, EventsOf(p), groups);
            RowCount(rows, p.l, p.r) >= |groups| + Ind(Owned(groups, 0)) &&
            RowSum(rows, p.l, p.r) == Scaled(RowCount(rows, p.l, p.r), Unit(p))
  {
    hide EventsOf, GroupsOf, Unit, KeptRatings, RowsOfItem, Scaled, Works, Owned;
    if groups == [] {
      assert !Owned(groups, 0) by { NobodyOwns(0); }
      NothingScaled(Unit(p));
    } else {
      var m := |groups| - 1;
      assert groups[m] in groups;
      ItemsGive(p, groups[..m]);
      ItemScaled(p, groups[m]);
      OwnedStep(groups, 0);
      var init, last := RowsOfItems(p.cfg, EventsOf(p), groups[..m]), RowsOfItem(p.cfg, EventsOf(p), groups[m]);
      RowsConcat(init, last, p.l, p.r);
      CountsScaled(RowCount(init, p.l, p.r), RowCount(last, p.l, p.r), Unit(p));
    }
  }

  lemma {:induction false} ItemScaled(p: Plot, g: Group)
    requires Works(p) && g in GroupsOf(KeptRatings(p.cfg, EventsOf(p)))
    ensures RowCount(RowsOfItem(p.cfg, EventsOf(p), g), p.l, p.r) >= if g.user == 0 then 2 else 1
    ensures RowSum(RowsOfItem(p.cfg, EventsOf(p), g), p.l, p.r) ==
            Scaled(RowCount(RowsOfItem(p.cfg, EventsOf(p), g), p.l, p.r), Unit(p))
  {
    hide EventsOf, GroupsOf, WeightOf, KeptRatings, RowsOfItem, Times, Works;
    ItemGives(p, g);
  }

  lemma {:induction false} NobodyOwns(item: int)
    ensures !Owned([], item)
  {
  }

  lemma {:induction false} AllItemsGrouped(p: Plot)
    requires Works(p)
    ensures |GroupsOf(KeptRatings(p.cfg, EventsOf(p)))| >= p.k
    ensures Owned(GroupsOf(KeptRatings(p.cfg, EventsOf(p))), 0)
  {
    hide EventsOf, GroupsOf, KeptRatings, UpTo, Works;
    PairOrdered(p);
    var groups := GroupsOf(KeptRatings(p.cfg, EventsOf(p)));
    var owners := set g | g in groups :: g.user;
    forall i | i in UpTo(p.k) ensures i in owners {
      ItemHasGroup(p, i);
    }
    SubsetCard(UpTo(p.k), owners);
    OwnersFew(groups);
    ItemHasGroup(p, 0);
  }

  /** A user of the pair rated every item once. */
  lemma {:induction false} PairNorm(p: Plot, user: int)
    requires Works(p) && (user == p.l || user == p.r)
    ensures NormSq(Norms(Turned(EventsOf(p))), user) == Scaled(p.k, Unit(p))
  {
    hide Parts, WeightOf, RatingCount, SumSquares, Times, Norms, Others;
    var s := SchemeOf(p);
    var t := Turned(EventsOf(p));
    PlotSound(p);
    PartsCounts(s, Quota(p.cfg), p.k, user);
    forall e | e in t ensures e.weight == s.w {
      TurnedMember(EventsOf(p), e);
      PartsMembers(s, Quota(p.cfg), p.k, Turn(e));
    }
    EqualSquares(t, s.w, user);
    NormsMeaning(t, user);
  }

  /** A pair the builder computes a score for: enough rows, and a denominator to divide by. */
  ghost predicate Scored(cfg: Config, norms: map<int, real>, rows: seq<PairRow>, a: int, b: int) {
    a != b && Cooccurrence(rows, a, b) >= cfg.minCooccurrence && Denominator(cfg, norms, a, b) > 0.0
  }

  ghost predicate ScoreInRange(cfg: UserBuilderConfig, csv: seq<CsvRow>, a: int, b: int) {
    var events := UserEvents(cfg, csv);
    var rows, norms := UserPairRows(cfg, events), Norms(Turned(events));
    Scored(cfg.reduction, norms, rows, a, b) ==> 0.0 < Dot(rows, a, b) / Denominator(cfg.reduction, norms, a, b) <= 1.0
  }

  lemma {:induction false} PlotScores(p: Plot)
    requires Works(p) && IsRoot(p.cfg.reduction.sqrt) && p.k >= p.cfg.reduction.minCooccurrence
    ensures var rows, norms := UserPairRows(p.cfg, EventsOf(p)), Norms(Turned(EventsOf(p)));
            Scored(p.cfg.reduction, norms, rows, p.l, p.r) &&
            Dot(rows, p.l, p.r) / Denominator(p.cfg.reduction, norms, p.l, p.r) > 1.0
  {
    hide Works, EventsOf, GroupsOf, KeptRatings, RowsOfItems, Unit, Norms, RowCount, RowSum, NormSq, Scaled, IsRoot,
      RootOfProduct;
    var groups := GroupsOf(KeptRatings(p.cfg, EventsOf(p)));
    PairOrdered(p);
    ItemsGive(p, groups);
    AllItemsGrouped(p);
    PairNorm(p, p.l);
    PairNorm(p, p.r);
    RatioAtLeastOne(RowCount(RowsOfItems(p.cfg, EventsOf(p), groups), p.l, p.r), p.k, Unit(p));
    RootOfSquare(p.cfg.reduction.sqrt, Scaled(p.k, Unit(p)));
  }

  /** For a configuration that fails: a rating file on which a pair scores above one. */
  lemma {:induction false} ScoreAboveOne(cfg: UserBuilderConfig) returns (csv: seq<CsvRow>, a: int, b: int)
    requires !OneRowBuilder(cfg) && IsRoot(cfg.reduction.sqrt)
    ensures var rows, norms := UserPairRows(cfg, UserEvents(cfg, csv)), Norms(Turned(UserEvents(cfg, csv)));
            Scored(cfg.reduction, norms, rows, a, b) &&
            Dot(rows, a, b) / Denominator(cfg.reduction, norms, a, b) > 1.0 &&
            (cfg.reduction.minSimilarity <= 1.0 ==> Kept(cfg.reduction, norms, rows, a, b))
  {
    hide Works, EventsOf, UserPairRows, FileOf, Norms, IsRoot;
    var p := PlotExists(cfg);
    FileWorks(p);
    PlotScores(p);
    csv, a, b := FileOf(cfg.minRating, cfg.offset, EventsOf(p)), p.l, p.r;
  }

  lemma {:induction false} ScoredBound(cfg: UserBuilderConfig, csv: seq<CsvRow>, a: int, b: int)
    requires OneRowBuilder(cfg) && ValidConfig(cfg.reduction) && IsRoot(cfg.reduction.sqrt)
    ensures ScoreInRange(cfg, csv, a, b)
  {
    hide RowsOfItems, Norms, GroupsOf, KeptRatings, RowCount, RowSum, IsRoot, OneRowBuilder;
    var events := UserEvents(cfg, csv);
    var rows, norms := UserPairRows(cfg, events), Norms(Turned(events));
    if Scored(cfg.reduction, norms, rows, a, b) {
      var score := Dot(rows, a, b) / Denominator(cfg.reduction, norms, a, b);
      var any := cfg.(reduction := cfg.reduction.(minSimilarity := score));
      SameRows(cfg, any, events, GroupsOf(KeptRatings(cfg, events)));
      assert KeptRatings(any, events) == KeptRatings(cfg, events) by { SameKeptRatings(cfg, any, events); }
      assert OneRowBuilder(any) by { SameOneRow(cfg, any); }
      RootOfNorms(cfg.reduction, Turned(events), a, b);
      UserCosineBound(any, csv, a, b, rows, norms);
    }
  }

  lemma {:induction false} SameKeptRatings(c1: UserBuilderConfig, c2: UserBuilderConfig, events: seq<Rating>)
    requires c2 == c1.(reduction := c2.reduction)
    ensures KeptRatings(c1, events) == KeptRatings(c2, events)
  {
  }

  lemma {:induction false} SameOneRow(c1: UserBuilderConfig, c2: UserBuilderConfig)
    requires c2 == c1.(reduction := c2.reduction)
    ensures OneRowBuilder(c1) <==> OneRowBuilder(c2)
  {
  }

  /** On every rating file every score the builder computes lies in (0, 1], exactly under the
      condition for at most one row. */
  lemma {:induction false} ScoreBoundIff(cfg: UserBuilderConfig)
    requires ValidConfig(cfg.reduction) && IsRoot(cfg.reduction.sqrt)
    ensures (forall csv, a, b :: ScoreInRange(cfg, csv, a, b)) <==> OneRowBuilder(cfg)
  {
    hide OneRowBuilder, IsRoot;
    if OneRowBuilder(cfg) {
      forall csv, a, b ensures ScoreInRange(cfg, csv, a, b) {
        ScoredBound(cfg, csv, a, b);
      }
    } else {
      var csv, a, b := ScoreAboveOne(cfg);
      assert !ScoreInRange(cfg, csv, a, b) by { AboveOneOutside(cfg, csv, a, b); }
    }
  }

  lemma {:induction false} AboveOneOutside(cfg: UserBuilderConfig, csv: seq<CsvRow>, a: int, b: int)
    requires var rows, norms := UserPairRows(cfg, UserEvents(cfg, csv)), Norms(Turned(UserEvents(cfg, csv)));
             Scored(cfg.reduction, norms, rows, a, b) && Dot(rows, a, b) / Denominator(cfg.reduction, norms, a, b) > 1.0
    ensures !ScoreInRange(cfg, csv, a, b)
  {
  }
}
