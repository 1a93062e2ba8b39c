/** When the two reading modes of the item-similarity builder give the same output: the exact
    condition on a configuration, with a rating file for every configuration that fails. */
module ReadingModes {
  import opened Arithmetic
  import opened Orders
  import opened PairReduction
  import opened Interactions
  import opened UserItems
  import opened ItemSimilarity
  import opened SimilarityTheorems
  import opened EqualWeights

  function Streaming(cfg: BuilderConfig): BuilderConfig {
    cfg.(sortedByUser := true)
  }

  function InMemory(cfg: BuilderConfig): BuilderConfig {
    cfg.(sortedByUser := false)
  }

  /** No pair can be kept, on any file: users are cut to one item, or no score is high enough. */
  predicate NoPairs(cfg: BuilderConfig) {
    cfg.maxUserItems == 1 || cfg.reduction.minSimilarity > 1.0
  }

  // ----- outputs without rows ----------------------------------------------------------------------

  /** Without a kept pair the only output is the empty one, with a kept pair no output is. */
  lemma {:induction false} EmptyOutput(cfg: Config, norms: map<int, real>, rows: seq<PairRow>, out: seq<OutputRow>)
    requires cfg.minCooccurrence > 0 && forall a, b :: !Kept(cfg, norms, rows, a, b)
    ensures IsOutput(cfg, norms, rows, out) <==> out == []
  {
    hide Kept, NeighborList;
    assert forall a :: NeighborSet(cfg, norms, rows, a) == {};
    if out != [] {
      assert out[0] in out;
    }
  }

  lemma {:induction false} SomeOutput(cfg: Config, norms: map<int, real>, rows: seq<PairRow>, out: seq<OutputRow>,
          a: int, b: int)
    requires cfg.minCooccurrence > 0 && Kept(cfg, norms, rows, a, b) && IsOutput(cfg, norms, rows, out)
    ensures out != []
  {
    hide Kept, NeighborList, ScoredRow;
    KeptOccurs(cfg, norms, rows, a, b);
    assert ScoredRow(cfg, norms, rows, a, b) in NeighborSet(cfg, norms, rows, a);
  }

  // ----- users who hold one item -------------------------------------------------------------------

  lemma {:induction false} LonelyUser(cap: int, g: Group, a: int, b: int)
    requires |g.ratings| == 1 && a != b
    ensures !(Has(Normalized(cap, g.ratings), a) && Has(Normalized(cap, g.ratings), b))
  {
    hide Normalized;
    var s := Normalized(cap, g.ratings);
    WeightAtOf(s, a);
    WeightAtOf(s, b);
    if Has(s, a) && Has(s, b) {
      NormalizedFrom(cap, g.ratings, Weighted(a, WeightAt(s, a)));
      NormalizedFrom(cap, g.ratings, Weighted(b, WeightAt(s, b)));
    }
  }

  lemma {:induction false} CutUser(inter: seq<Rating>, a: int, b: int)
    requires a != b
    ensures !(Has(Normalized(1, inter), a) && Has(Normalized(1, inter), b))
  {
    var S := RankedSet(Deduped(inter));
    StrongerTotal(S);
    var top := TopK(StrongerFirst, 1, S);
    assert |top| <= 1;
    var s := Normalized(1, inter);
    forall x, y | x in s && y in s ensures x == y {
      assert x in Elems(s) && y in Elems(s);
      assert x in Project(Elems(top)) && y in Project(Elems(top));
    }
  }

  lemma {:induction false} NobodyHoldsBoth(cap: int, groups: seq<Group>, a: int, b: int)
    requires a != b && (cap == 1 || forall g :: g in groups ==> |g.ratings| == 1)
    ensures UsersHoldingBoth(cap, groups, a, b) == 0
  {
    hide Normalized, Has;
    if groups != [] {
      var n := |groups| - 1;
      assert groups[n] in groups;
      NobodyHoldsBoth(cap, groups[..n], a, b);
      if cap == 1 { CutUser(groups[n].ratings, a, b); } else { LonelyUser(cap, groups[n], a, b); }
    }
  }

  lemma {:induction false} NothingKept(cfg: Config, norms: map<int, real>, cap: int, groups: seq<Group>)
    requires cfg.minCooccurrence > 0 && (cap == 1 || forall g :: g in groups ==> |g.ratings| == 1)
    ensures forall a, b :: !Kept(cfg, norms, PairRows(cap, groups), a, b)
  {
    hide PairRows;
    forall a, b ensures !Kept(cfg, norms, PairRows(cap, groups), a, b) {
      if a != b {
        PairMeaning(cap, groups, a, b);
        NobodyHoldsBoth(cap, groups, a, b);
      }
    }
  }

  // ----- where no pair can be kept both modes are silent -------------------------------------------

  lemma {:induction false} NoPairsNoRows(cfg: BuilderConfig, csv: seq<CsvRow>, out: seq<OutputRow>)
    requires ValidConfig(cfg.reduction) && IsRoot(cfg.reduction.sqrt) && NoPairs(cfg)
    ensures IsSimilarityOutput(cfg, csv, out) <==> out == []
  {
    hide PairRows, UserGroups, Norms, IsOutput, IsRoot;
    var events := Events(cfg, csv);
    var norms, rows := Norms(events), PairRows(cfg.maxUserItems, UserGroups(cfg, events));
    if cfg.maxUserItems == 1 {
      NothingKept(cfg.reduction, norms, 1, UserGroups(cfg, events));
    } else {
      forall a, b ensures !Kept(cfg.reduction, norms, rows, a, b) {
        if Kept(cfg.reduction, norms, rows, a, b) {
          RootOfNorms(cfg.reduction, events, a, b);
          CosineBound(cfg, csv, a, b, rows, norms);
        }
      }
    }
    EmptyOutput(cfg.reduction, norms, rows, out);
  }

  // ----- a file that is not grouped by user ----------------------------------------------------------

  /** Users 0 to n - 1 rate an item in turn. */
  function Column(n: nat, item: int, w: real): (r: seq<Rating>)
    ensures |r| == n && forall i :: 0 <= i < n ==> r[i] == Rating(i, item, w, 0)
  {
    if n == 0 then [] else Column(n - 1, item, w) + [Rating(n - 1, item, w, 0)]
  }

  /** Two items, one after the other. */
  function Columns(n: nat, w: real): (r: seq<Rating>)
  {
    Column(n, 0, w) + Column(n, 1, w)
  }

  lemma {:induction false} ColumnsMembers(n: nat, w: real, e: Rating)
    ensures e in Columns(n, w) <==> 0 <= e.user < n && 0 <= e.item < 2 && e == Rating(e.user, e.item, w, 0)
  {
    if 0 <= e.user < n && 0 <= e.item < 2 && e == Rating(e.user, e.item, w, 0) {
      assert Columns(n, w)[if e.item == 0 then e.user else n + e.user] == e;
    }
  }

  lemma {:induction false} ColumnCount(n: nat, item: int, w: real, id: int)
    ensures RatingCount(Column(n, item, w), id) == if id == item then n else 0
  {
    if n > 0 {
      var c := Column(n, item, w);
      assert c[..n - 1] == Column(n - 1, item, w);
      ColumnCount(n - 1, item, w, id);
    }
  }

  lemma {:induction false} ColumnsCount(n: nat, w: real, id: int)
    ensures RatingCount(Columns(n, w), id) == if 0 <= id < 2 then n else 0
  {
    ColumnCount(n, 0, w, id);
    ColumnCount(n, 1, w, id);
    CountConcat(Column(n, 0, w), Column(n, 1, w), id);
  }

  /** Both items are valid, so the filter drops nothing. */
  lemma {:induction false} ColumnsKept(cfg: BuilderConfig, n: nat, w: real)
    requires n > 0 && n >= cfg.minItemUsers && w > 0.0
    ensures OnlyItems(Columns(n, w), ValidItems(cfg.minItemUsers, Columns(n, w))) == Columns(n, w)
    ensures forall id :: 0 <= id < 2 ==> SumSquares(Columns(n, w), id) == Scaled(n, Times(w, w))
  {
    hide Columns, RatingCount, SumSquares, Times, Scaled;
    var events := Columns(n, w);
    forall e | e in events ensures e.weight == w && 0 <= e.item < 2 {
      ColumnsMembers(n, w, e);
    }
    forall id | 0 <= id < 2
        ensures IsValidItem(cfg.minItemUsers, events, id) && SumSquares(events, id) == Scaled(n, Times(w, w)) {
      ColumnsCount(n, w, id);
      EqualSquares(events, w, id);
      PositiveTimes(w, w);
      PositiveScale(n, Times(w, w));
    }
    forall e | e in events ensures e.item in ValidItems(cfg.minItemUsers, events) {
      assert IsValidItem(cfg.minItemUsers, events, e.item);
    }
    OnlyAll(events, ValidItems(cfg.minItemUsers, events));
  }

  lemma {:induction false} SingleRuns(events: seq<Rating>)
    requires forall i :: 0 < i < |events| ==> events[i - 1].user != events[i].user
    ensures forall g :: g in RunsOf(events) ==> |g.ratings| == 1
  {
    if events != [] {
      SingleRuns(events[..|events| - 1]);
    }
  }

  lemma {:induction false} ColumnsSingle(n: nat, w: real)
    requires n >= 2
    ensures forall g :: g in RunsOf(Columns(n, w)) ==> |g.ratings| == 1
  {
    SingleRuns(Columns(n, w));
  }

  /** In memory every user is seen with both items. */
  lemma {:induction false} ColumnsHeld(cap: int, n: nat, w: real, g: Group)
    requires cap != 1 && g in GroupsOf(Columns(n, w))
    ensures var s := Normalized(cap, g.ratings); Has(s, 0) && Has(s, 1) && WeightAt(s, 0) == w && WeightAt(s, 1) == w
  {
    hide Columns, GroupsOf, Deduped, Normalized;
    forall e ensures
      e in g.ratings <==>
      0 <= g.user < n && e.user == g.user && 0 <= e.item < 2 && e == Rating(e.user, e.item, w, 0) {
      GroupExact(Columns(n, w), g, e);
      ColumnsMembers(n, w, e);
    }
    assert g.ratings[0] in g.ratings;
    BothListed(cap, g, w);
  }

  lemma {:induction false} BothListed(cap: int, g: Group, w: real)
    requires cap != 1
    requires forall e :: e in g.ratings <==> e.user == g.user && 0 <= e.item < 2 && e == Rating(e.user, e.item, w, 0)
    ensures var s := Normalized(cap, g.ratings); Has(s, 0) && Has(s, 1) && WeightAt(s, 0) == w && WeightAt(s, 1) == w
  {
    hide Deduped, TopK, SortSet;
    var d := Deduped(g.ratings);
    DedupedMeaning(g.ratings);
    assert Rating(g.user, 0, w, 0) in g.ratings && Rating(g.user, 1, w, 0) in g.ratings;
    assert forall i :: i in d <==> 0 <= i < 2;
    assert d[0] == Best(w, 0) && d[1] == Best(w, 0);
    var x, y := Ranked(0, w, 0), Ranked(1, w, 0);
    assert RankedSet(d) == {x, y};
    PairUncut(cap, x, y);
    var s := Normalized(cap, g.ratings);
    assert Weighted(0, w) in Project({x, y}) && Weighted(1, w) in Project({x, y});
    assert Weighted(0, w) in Elems(s) && Weighted(1, w) in Elems(s);
    WeightAtListed(s, Weighted(0, w));
    WeightAtListed(s, Weighted(1, w));
  }

  lemma {:induction false} PairUncut(cap: int, x: Ranked, y: Ranked)
    requires cap != 1 && x != y
    ensures Capped(cap, {x, y}) == {x, y}
  {
    if cap > 0 {
      StrongerTotal({x, y});
      var top := TopK(StrongerFirst, cap, {x, y});
      SortedNoDup(StrongerFirst, top);
      ElemsCard(top);
      SubsetCard(Elems(top), {x, y});
    }
  }

  lemma {:induction false} WeightAtListed(s: seq<Weighted>, x: Weighted)
    requires Sorted(SmallerId, s) && x in s
    ensures Has(s, x.id) && WeightAt(s, x.id) == x.weight
  {
    var i :| 0 <= i < |s| && s[i] == x;
    WeightAtOf(s, x.id);
    SameIdSameEntry(s, x, Weighted(x.id, WeightAt(s, x.id)));
  }

  lemma {:induction false} EverybodyHoldsBoth(cap: int, n: nat, w: real, groups: seq<Group>)
    requires cap != 1 && forall g :: g in groups ==> g in GroupsOf(Columns(n, w))
    ensures UsersHoldingBoth(cap, groups, 0, 1) == |groups|
    ensures WeightProducts(cap, groups, 0, 1) == Scaled(|groups|, Times(w, w))
  {
    hide Columns, GroupsOf, Normalized, Times, Scaled, Has;
    NothingScaled(Times(w, w));
    if groups != [] {
      var m := |groups| - 1;
      assert groups[m] in groups;
      EverybodyHoldsBoth(cap, n, w, groups[..m]);
      ColumnsHeld(cap, n, w, groups[m]);
      CountsScaled(m, 1, Times(w, w));
    }
  }

  lemma {:induction false} EverybodyGrouped(n: nat, w: real)
    ensures |GroupsOf(Columns(n, w))| >= n
  {
    hide Columns, GroupsOf, UpTo;
    var groups := GroupsOf(Columns(n, w));
    var owners := set g | g in groups :: g.user;
    forall i | i in UpTo(n) ensures i in owners {
      ColumnsMembers(n, w, Rating(i, 0, w, 0));
      GroupHolds(Columns(n, w), Rating(i, 0, w, 0));
    }
    SubsetCard(UpTo(n), owners);
    OwnersFew(groups);
  }

  // ----- the modes compared --------------------------------------------------------------------------

  /** For a configuration that can keep a pair: a file on which the streaming mode writes
      nothing and the in-memory mode writes something. */
  lemma {:induction false} ModesDiffer(cfg: BuilderConfig) returns (csv: seq<CsvRow>)
    requires ValidConfig(cfg.reduction) && IsRoot(cfg.reduction.sqrt) && !NoPairs(cfg)
    ensures IsSimilarityOutput(Streaming(cfg), csv, [])
    ensures forall out :: IsSimilarityOutput(InMemory(cfg), csv, out) ==> out != []
  {
    hide Columns, RunsOf, GroupsOf, PairRows, IsOutput, OnlyItems, ValidItems, Norms, FileOf, LikedWeight, IsRoot,
      PositiveRatings;
    var n := Max(2, Max(cfg.reduction.minCooccurrence, cfg.minItemUsers));
    var w := LikedWeight(cfg.minRating, cfg.useRatingWeight, cfg.offset);
    var events := Columns(n, w);
    csv := FileOf(cfg.minRating, cfg.offset, events);
    forall e | e in events ensures e.weight == w {
      ColumnsMembers(n, w, e);
    }
    FileReads(cfg.minRating, cfg.useRatingWeight, cfg.offset, events);
    ColumnsKept(cfg, n, w);
    var norms, cap := Norms(events), cfg.maxUserItems;
    ColumnsSingle(n, w);
    NothingKept(cfg.reduction, norms, cap, RunsOf(events));
    EmptyOutput(cfg.reduction, norms, PairRows(cap, RunsOf(events)), []);
    PairKept(cfg, n, w);
    forall out | IsSimilarityOutput(InMemory(cfg), csv, out) ensures out != [] {
      SomeOutput(cfg.reduction, norms, PairRows(cap, GroupsOf(events)), out, 0, 1);
    }
  }

  lemma {:induction false} PairKept(cfg: BuilderConfig, n: nat, w: real)
    requires IsRoot(cfg.reduction.sqrt) && !NoPairs(cfg) && w > 0.0
    requires n > 0 && n >= cfg.minItemUsers && n >= cfg.reduction.minCooccurrence
    ensures Kept(cfg.reduction, Norms(Columns(n, w)), PairRows(cfg.maxUserItems, GroupsOf(Columns(n, w))), 0, 1)
  {
    hide Columns, GroupsOf, PairRows, Norms, SumSquares, UsersHoldingBoth, WeightProducts, Scaled, Times, IsRoot,
      RootOfProduct, Cooccurrence, Dot, NormSq, OnlyItems, ValidItems;
    var events, cap, groups := Columns(n, w), cfg.maxUserItems, GroupsOf(Columns(n, w));
    PairMeaning(cap, groups, 0, 1);
    EverybodyHoldsBoth(cap, n, w, groups);
    EverybodyGrouped(n, w);
    ColumnsKept(cfg, n, w);
    NormsMeaning(events, 0);
    NormsMeaning(events, 1);
    PositiveTimes(w, w);
    PositiveScale(n, Times(w, w));
    RootOfSquare(cfg.reduction.sqrt, Scaled(n, Times(w, w)));
    RatioAtLeastOne(|groups|, n, Times(w, w));
  }

  /** On every file both modes give the same outputs, exactly if the configuration can keep no
      pair at all. On a file grouped by user they always do. */
  lemma {:induction false} ModesAgreeIff(cfg: BuilderConfig)
    requires ValidConfig(cfg.reduction) && IsRoot(cfg.reduction.sqrt)
    ensures (forall csv, out ::
               IsSimilarityOutput(Streaming(cfg), csv, out) <==> IsSimilarityOutput(InMemory(cfg), csv, out)) <==>
            NoPairs(cfg)
  {
    hide IsSimilarityOutput, IsRoot;
    if NoPairs(cfg) {
      forall csv, out
        ensures IsSimilarityOutput(Streaming(cfg), csv, out) <==> IsSimilarityOutput(InMemory(cfg), csv, out) {
        NoPairsNoRows(Streaming(cfg), csv, out);
        NoPairsNoRows(InMemory(cfg), csv, out);
      }
    } else {
      var csv := ModesDiffer(cfg);
      assert IsSimilarityOutput(Streaming(cfg), csv, []) && !IsSimilarityOutput(InMemory(cfg), csv, []);
    }
  }
}
