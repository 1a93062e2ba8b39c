/** The user-similarity builder, from the rating file to the neighbour lists. It works item by
    item, so its streams are turned round: in a turned rating the owner (`user`) is the item
    and the member (`item`) is the user. */
module UserSimilarity {
  import opened Arithmetic
  import opened Orders
  import opened ShardFiles
  import opened PairReduction
  import opened TopKOutput
  import opened Interactions
  import opened UserItems
  import opened ItemSimilarity
  import opened StratifiedSample
  import opened ItemPairs
  import opened CoverageAnchors

  datatype UserBuilderConfig = UserBuilderConfig(
    minRating: real, useRatingWeight: bool, offset: real, minUserItems: int,
    anchorItemsPerUser: int, sample: SampleConfig, reduction: Config)

  function Turn(e: Rating): Rating {
    Rating(e.item, e.user, e.weight, e.timestamp)
  }

  function Turned(events: seq<Rating>): (r: seq<Rating>)
    ensures |r| == |events|
    ensures forall i :: 0 <= i < |r| ==> r[i] == Turn(events[i])
  {
    seq(|events|, i requires 0 <= i < |events| => Turn(events[i]))
  }

  lemma {:induction false} TurnedStep(events: seq<Rating>, n: nat)
    requires n < |events|
    ensures Turned(events[..n + 1]) == Turned(events[..n]) + [Turn(events[n])]
  {
  }

  // ----- statistics --------------------------------------------------------------------------

  ghost function ValidUsers(cfg: UserBuilderConfig, events: seq<Rating>): set<int> {
    ValidItems(cfg.minUserItems, Turned(events))
  }

  lemma {:induction false} CountsStep(events: seq<Rating>, e: Rating, id: int)
    ensures RatingCount(events + [e], id) == RatingCount(events, id) + if e.item == id then 1 else 0
    ensures SumSquares(events + [e], id) ==
            SumSquares(events, id) + if e.item == id then Times(e.weight, e.weight) else 0.0
  {
    assert (events + [e])[..|events|] == events;
  }

  method BuildUserStats(cfg: UserBuilderConfig, events: seq<Rating>)
    returns (valid: set<int>, norms: map<int, real>, itemUserCounts: map<int, int>)
    ensures valid == ValidUsers(cfg, events)
    ensures forall u :: NormSq(norms, u) == SumSquares(Turned(events), u)
    ensures forall e :: e in events ==>
              e.item in itemUserCounts && itemUserCounts[e.item] == RatingCount(events, e.item)
  {
    hide RatingCount, SumSquares;
    norms, itemUserCounts := map[], map[];
    var userItemCounts: map<int, int> := map[];
    NoStats();
    assert Turned(events[..0]) == [];
    for k := 0 to |events|
      invariant forall u :: NormSq(norms, u) == SumSquares(Turned(events[..k]), u)
      invariant forall u :: u in userItemCounts <==> RatingCount(Turned(events[..k]), u) > 0
      invariant forall u :: u in userItemCounts ==> userItemCounts[u] == RatingCount(Turned(events[..k]), u)
      invariant forall i :: i in itemUserCounts <==> RatingCount(events[..k], i) > 0
      invariant forall i :: i in itemUserCounts ==> itemUserCounts[i] == RatingCount(events[..k], i)
      invariant userItemCounts.Keys <= norms.Keys
    {
      var e := events[k];
      TurnedStep(events, k);
      assert events[..k + 1] == events[..k] + [e];
      forall i ensures RatingCount(events[..k + 1], i) == RatingCount(events[..k], i) + if e.item == i then 1 else 0 {
        CountsStep(events[..k], e, i);
      }
      ghost var turned, after := Turned(events[..k]), Turned(events[..k + 1]);
      forall u ensures RatingCount(after, u) == RatingCount(turned, u) + if e.user == u then 1 else 0 {
        CountsStep(turned, Turn(e), u);
      }
      forall u ensures SumSquares(after, u) ==
                       SumSquares(turned, u) + if e.user == u then Times(e.weight, e.weight) else 0.0 {
        CountsStep(turned, Turn(e), u);
      }
      userItemCounts := userItemCounts[e.user := (if e.user in userItemCounts then userItemCounts[e.user] else 0) + 1];
      itemUserCounts := itemUserCounts[e.item := (if e.item in itemUserCounts then itemUserCounts[e.item] else 0) + 1];
      norms := norms[e.user := (if e.user in norms then norms[e.user] else 0.0) + Times(e.weight, e.weight)];
    }
    assert events[..|events|] == events;
    valid := set u | u in userItemCounts && userItemCounts[u] >= cfg.minUserItems && norms[u] > 0.0;
    ValidMeaning(cfg, events, userItemCounts, norms);
    forall e | e in events ensures RatingCount(events, e.item) > 0 {
      OccursCounts(events, e);
    }
  }

  lemma {:induction false} NoStats()
    ensures forall i :: RatingCount([], i) == 0 && SumSquares([], i) == 0.0
  {
  }

  lemma {:induction false} OccursCounts(events: seq<Rating>, e: Rating)
    requires e in events
    ensures RatingCount(events, e.item) > 0
  {
    var n := |events| - 1;
    assert events == events[..n] + [events[n]];
    if events[n] != e {
      OccursCounts(events[..n], e);
    }
  }

  lemma {:induction false} ValidMeaning(cfg: UserBuilderConfig, events: seq<Rating>, counts: map<int, int>,
          norms: map<int, real>)
    requires forall u :: NormSq(norms, u) == SumSquares(Turned(events), u)
    requires forall u :: u in counts <==> RatingCount(Turned(events), u) > 0
    requires forall u :: u in counts ==> counts[u] == RatingCount(Turned(events), u)
    requires counts.Keys <= norms.Keys
    ensures ValidUsers(cfg, events) == set u | u in counts && counts[u] >= cfg.minUserItems && norms[u] > 0.0
  {
    hide RatingCount, SumSquares;
    var valid := set u | u in counts && counts[u] >= cfg.minUserItems && norms[u] > 0.0;
    forall u ensures u in valid <==> u in ValidUsers(cfg, events) {
      assert u in norms ==> NormSq(norms, u) == norms[u];
      if u in valid {
        CountedItemsOccur(Turned(events), u);
      }
    }
  }

  // ----- item shards ---------------------------------------------------------------------------

  function ItemSharding(shardCount: nat): Rating -> int
    requires shardCount > 0
  {
    (r: Rating) => EntityShardId(r.user, shardCount)
  }

  /** The positive ratings of valid users, item first. */
  ghost function KeptRatings(cfg: UserBuilderConfig, events: seq<Rating>): seq<Rating> {
    OnlyItems(Turned(events), ValidUsers(cfg, events))
  }

  method MapRatingsToItemShards(cfg: UserBuilderConfig, events: seq<Rating>, valid: set<int>)
    returns (files: seq<seq<Rating>>)
    requires ValidConfig(cfg.reduction) && valid == ValidUsers(cfg, events)
    ensures |files| == cfg.reduction.shardCount
    ensures forall s :: 0 <= s < |files| ==>
              files[s] == OfShard(KeptRatings(cfg, events), ItemSharding(cfg.reduction.shardCount), s)
  {
    hide OfShard, OnlyItems;
    var n := cfg.reduction.shardCount;
    var writer := new ShardWriter<Rating>(n, cfg.reduction.shardBufferRows, ItemSharding(n));
    NothingKept(valid);
    assert Turned(events[..0]) == [];
    for k := 0 to |events|
      invariant fresh(writer) && writer.Valid() && writer.Counted()
      invariant writer.written == OnlyItems(Turned(events[..k]), valid)
    {
      var e := events[k];
      TurnedStep(events, k);
      OnlyItemsAppend(Turned(events[..k]), Turn(e), valid);
      if e.user in valid {
        assert writer.shardOf(Turn(e)) == EntityShardId(e.item, n);
        writer.Append(Turn(e));
        writer.Count(1);
      } else {
        assert OnlyItems(Turned(events[..k]), valid) + [] == OnlyItems(Turned(events[..k]), valid);
      }
    }
    assert events[..|events|] == events;
    writer.Flush();
    files := writer.files;
  }

  lemma {:induction false} NothingKept(valid: set<int>)
    ensures OnlyItems([], valid) == []
  {
  }

  // ----- item shards to pair shards ---------------------------------------------------------------

  ghost function AnchorSet(cfg: UserBuilderConfig, events: seq<Rating>, item: int): set<int> {
    set u | u in ValidUsers(cfg, events) &&
            IsAnchor(events, cfg.sample.rank, cfg.anchorItemsPerUser, cfg.sample.maxItemUsers, ValidUsers(cfg, events),
              item, u)
  }

  /** The rows one item contributes. */
  ghost function RowsOfItem(cfg: UserBuilderConfig, events: seq<Rating>, g: Group): seq<PairRow> {
    ItemRows(cfg.sample, g.user, g.ratings, AnchorSet(cfg, events, g.user))
  }

  ghost function RowsOfItems(cfg: UserBuilderConfig, events: seq<Rating>, groups: seq<Group>): seq<PairRow> {
    if groups == [] then []
    else RowsOfItems(cfg, events, groups[..|groups| - 1]) + RowsOfItem(cfg, events, groups[|groups| - 1])
  }

  lemma {:induction false} RowsOfItemsAppend(cfg: UserBuilderConfig, events: seq<Rating>, groups: seq<Group>, g: Group)
    ensures RowsOfItems(cfg, events, groups + [g]) == RowsOfItems(cfg, events, groups) + RowsOfItem(cfg, events, g)
  {
    assert (groups + [g])[..|groups|] == groups;
  }

  /** The rows of the shards before s, as the reducer writes them. */
  ghost function RowsOfShards(cfg: UserBuilderConfig, events: seq<Rating>, kept: seq<Rating>, n: nat,
          s: nat): seq<PairRow>
    requires n > 0
  {
    if s == 0 then []
    else RowsOfShards(cfg, events, kept, n, s - 1) +
         RowsOfItems(cfg, events, GroupsOf(OfShard(kept, ItemSharding(n), s - 1)))
  }

  method AppendPairContribution(x: Weighted, y: Weighted, writer: ShardWriter<PairRow>) returns (written: bool)
    requires PairWriter(writer)
    modifies writer
    ensures PairWriter(writer) && writer.written == old(writer.written) + Contribution(x, y)
    ensures writer.Held() == old(writer.Held()) + (if written then 1 else 0)
    ensures writer.bufferedRows == old(writer.bufferedRows)
    ensures written <==> x.id != y.id
  {
    written := x.id != y.id;
    if !written {
      assert writer.written + [] == writer.written;
      return;
    }
    var left, right := x, y;
    if left.id > right.id {
      left, right := right, left;
    }
    AppendPair(writer, PairOf(left, right));
  }

  lemma {:induction false} SortedContribution(s: seq<Weighted>, i: nat, j: nat)
    requires Sorted(SmallerId, s) && i < j < |s|
    ensures Contribution(s[i], s[j]) == [PairOf(s[i], s[j])]
  {
    assert SmallerId(s[i], s[j]);
  }

  /** combinations(sampled, 2). */
  method WriteSampledPairs(sampled: seq<Weighted>, writer: ShardWriter<PairRow>) returns (writtenCount: nat)
    requires PairWriter(writer) && Sorted(SmallerId, sampled)
    modifies writer
    ensures PairWriter(writer) && writer.written == old(writer.written) + Combinations(sampled)
    ensures writer.Held() == old(writer.Held()) + writtenCount && writer.bufferedRows == old(writer.bufferedRows)
  {
    hide Combinations, PairsWith, SmallerId;
    writtenCount := 0;
    ghost var goal := writer.written + Combinations(sampled);
    assert sampled[0..] == sampled;
    for i := 0 to |sampled|
      invariant PairWriter(writer) && writer.written + Combinations(sampled[i..]) == goal
      invariant writer.Held() == old(writer.Held()) + writtenCount && writer.bufferedRows == old(writer.bufferedRows)
    {
      CombinationsStep(sampled, i, writer.written, goal);
      ghost var inner := writer.written + PairsWith(sampled[i], sampled[i + 1..]);
      for j := i + 1 to |sampled|
        invariant PairWriter(writer) && writer.written + PairsWith(sampled[i], sampled[j..]) == inner
        invariant writer.Held() == old(writer.Held()) + writtenCount && writer.bufferedRows == old(writer.bufferedRows)
      {
        var ys := sampled[i + 1..];
        assert ys[j - i - 1..] == sampled[j..] && ys[j - i..] == sampled[j + 1..] && ys[j - i - 1] == sampled[j];
        PairsWithStep(sampled[i], ys, j - i - 1, writer.written, inner);
        SortedContribution(sampled, i, j);
        var _ := AppendPairContribution(sampled[i], sampled[j], writer);
        writtenCount := writtenCount + 1;
      }
      NoPartners(sampled[i]);
      assert sampled[|sampled|..] == [];
      assert writer.written + [] == writer.written;
    }
    NoCombinations();
    assert sampled[|sampled|..] == [];
    assert writer.written + [] == writer.written;
  }

  lemma {:induction false} NoPartners(x: Weighted)
    ensures PairsWith(x, []) == []
  {
  }

  lemma {:induction false} NoCombinations()
    ensures Combinations([]) == []
  {
  }

  /** One coverage extra against the coverage sample. */
  method WriteExtra(x: Weighted, cover: seq<Weighted>, writer: ShardWriter<PairRow>) returns (writtenCount: nat)
    requires PairWriter(writer)
    modifies writer
    ensures PairWriter(writer) && writer.written == old(writer.written) + CrossWith(x, cover)
    ensures writer.Held() == old(writer.Held()) + writtenCount && writer.bufferedRows == old(writer.bufferedRows)
  {
    hide Contribution, PairWriter;
    writtenCount := 0;
    ghost var before := writer.written;
    for j := 0 to |cover|
      invariant PairWriter(writer) && writer.written == before + CrossWith(x, cover[..j])
      invariant writer.Held() == old(writer.Held()) + writtenCount && writer.bufferedRows == old(writer.bufferedRows)
    {
      assert cover[..j + 1][..j] == cover[..j];
      var written := AppendPairContribution(x, cover[j], writer);
      if written {
        writtenCount := writtenCount + 1;
      }
    }
    assert cover[..|cover|] == cover;
  }

  /** Every coverage extra against the coverage sample. */
  method WriteExtraPairs(extra: seq<Weighted>, cover: seq<Weighted>, writer: ShardWriter<PairRow>)
    returns (writtenCount: nat)
    requires PairWriter(writer)
    modifies writer
    ensures PairWriter(writer) && writer.written == old(writer.written) + CrossRows(extra, cover)
    ensures writer.Held() == old(writer.Held()) + writtenCount && writer.bufferedRows == old(writer.bufferedRows)
  {
    hide CrossWith, PairWriter;
    writtenCount := 0;
    ghost var start := writer.written;
    for i := 0 to |extra|
      invariant PairWriter(writer) && writer.written == start + CrossRows(extra[..i], cover)
      invariant writer.Held() == old(writer.Held()) + writtenCount && writer.bufferedRows == old(writer.bufferedRows)
    {
      assert extra[..i + 1][..i] == extra[..i];
      var count := WriteExtra(extra[i], cover, writer);
      writtenCount := writtenCount + count;
    }
    assert extra[..|extra|] == extra;
  }

  method WriteItemPairsToShards(cfg: SampleConfig, item: int, inter: seq<Rating>, anchors: set<int>,
          writer: ShardWriter<PairRow>)
    returns (writtenCount: nat)
    requires PairWriter(writer)
    modifies writer
    ensures PairWriter(writer) && writer.written == old(writer.written) + ItemRows(cfg, item, inter, anchors)
    ensures writer.Held() == old(writer.Held()) + writtenCount && writer.bufferedRows == old(writer.bufferedRows)
  {
    hide Combinations, CrossRows, ParticipantsOf, Listing, Sorted, PairWriter, DistinctUsers;
    var sampled, extra, cover := SelectItemPairParticipants(cfg, item, inter, anchors);
    if |sampled| < 2 {
      assert writer.written + [] == writer.written;
      return 0;
    }
    writtenCount := WriteSampledPairs(sampled, writer);
    var more := WriteExtraPairs(extra, cover, writer);
    writtenCount := writtenCount + more;
  }

  /** One item shard: its ratings grouped by item, then every item's pairs. */
  method ReduceItemShard(cfg: UserBuilderConfig, file: seq<Rating>, anchors: map<int, set<int>>,
          writer: ShardWriter<PairRow>, ghost events: seq<Rating>)
    requires PairWriter(writer)
    requires forall i :: AnchorsAt(anchors, i) == AnchorSet(cfg, events, i)
    modifies writer
    ensures PairWriter(writer) && writer.written == old(writer.written) + RowsOfItems(cfg, events, GroupsOf(file))
    ensures old(writer.Counted()) ==> writer.Counted()
  {
    hide ItemRows, AnchorSet, GroupsOf, RowsOfItems;
    var groups := GroupByItem(file);
    ghost var start := writer.written;
    NoItems(cfg, events);
    assert start + [] == start;
    for k := 0 to |groups|
      invariant PairWriter(writer) && writer.written == start + RowsOfItems(cfg, events, groups[..k])
      invariant old(writer.Counted()) ==> writer.Counted()
    {
      assert groups[..k + 1] == groups[..k] + [groups[k]];
      RowsOfItemsAppend(cfg, events, groups[..k], groups[k]);
      var writtenCount := WriteItemPairsToShards(
        cfg.sample, groups[k].user, groups[k].ratings, AnchorsAt(anchors, groups[k].user), writer);
      if writtenCount != 0 {
        writer.Count(writtenCount);
      }
    }
    assert groups[..|groups|] == groups;
  }

  lemma {:induction false} NoItems(cfg: UserBuilderConfig, events: seq<Rating>)
    ensures RowsOfItems(cfg, events, []) == []
  {
  }

  method GroupByItem(file: seq<Rating>) returns (groups: seq<Group>)
    ensures groups == GroupsOf(file)
  {
    groups := [];
    for k := 0 to |file|
      invariant groups == GroupsOf(file[..k])
    {
      var e := file[k];
      assert file[..k + 1] == file[..k] + [e];
      GroupsAppend(file[..k], e);
      var at := GroupIndex(groups, e.user);
      groups :=
        if at < |groups| then groups[at := Group(e.user, groups[at].ratings + [e])]
        else groups + [Group(e.user, [e])];
    }
    assert file[..|file|] == file;
  }

  method ReduceItemShardsToPairShards(cfg: UserBuilderConfig, files: seq<seq<Rating>>, anchors: map<int, set<int>>,
          ghost events: seq<Rating>)
    returns (pairFiles: seq<seq<PairRow>>, ghost rows: seq<PairRow>)
    requires ValidConfig(cfg.reduction) && |files| == cfg.reduction.shardCount
    requires forall s :: 0 <= s < |files| ==>
               files[s] == OfShard(KeptRatings(cfg, events), ItemSharding(cfg.reduction.shardCount), s)
    requires forall i :: AnchorsAt(anchors, i) == AnchorSet(cfg, events, i)
    ensures |pairFiles| == cfg.reduction.shardCount
    ensures rows == RowsOfShards(cfg, events, KeptRatings(cfg, events), cfg.reduction.shardCount,
            cfg.reduction.shardCount)
    ensures forall s :: 0 <= s < |pairFiles| ==>
              pairFiles[s] == OfShard(rows, PairSharding(cfg.reduction.shardCount), s)
  {
    hide OfShard, KeptRatings, GroupsOf, RowsOfItems, AnchorSet;
    var n := cfg.reduction.shardCount;
    var writer := new ShardWriter<PairRow>(n, cfg.reduction.shardBufferRows, PairSharding(n));
    for s := 0 to n
      invariant fresh(writer) && PairWriter(writer)
      invariant writer.shardCount == n && writer.shardOf == PairSharding(n)
      invariant writer.written == RowsOfShards(cfg, events, KeptRatings(cfg, events), n, s)
    {
      ReduceItemShard(cfg, files[s], anchors, writer, events);
    }
    writer.Flush();
    pairFiles, rows := writer.files, writer.written;
  }

  // ----- sharding by item is invisible ---------------------------------------------------------

  /** The groups whose item lives in one shard. */
  ghost function InShard(groups: seq<Group>, n: nat, s: int): seq<Group>
    requires n > 0
  {
    if groups == [] then []
    else
      var m := |groups| - 1;
      InShard(groups[..m], n, s) + if EntityShardId(groups[m].user, n) == s then [groups[m]] else []
  }

  lemma {:induction false} InShardAppend(groups: seq<Group>, g: Group, n: nat, s: int)
    requires n > 0
    ensures InShard(groups + [g], n, s) ==
            if EntityShardId(g.user, n) == s then InShard(groups, n, s) + [g] else InShard(groups, n, s)
  {
    assert (groups + [g])[..|groups|] == groups;
    assert InShard(groups, n, s) + [] == InShard(groups, n, s);
  }

  lemma {:induction false} IndexAppend(groups: seq<Group>, g: Group, item: int)
    ensures GroupIndex(groups + [g], item) ==
            if GroupIndex(groups, item) < |groups| then GroupIndex(groups, item)
            else if g.user == item then |groups| else |groups| + 1
  {
    if groups == [] {
      assert groups + [g] == [g];
    } else {
      assert (groups + [g])[1..] == groups[1..] + [g];
      IndexAppend(groups[1..], g, item);
    }
  }

  /** Adding a rating to an item's group, or opening one. */
  ghost function WithRating(groups: seq<Group>, e: Rating): seq<Group> {
    var k := GroupIndex(groups, e.user);
    if k < |groups| then groups[k := Group(e.user, groups[k].ratings + [e])] else groups + [Group(e.user, [e])]
  }

  lemma {:induction false} WithRatingAppend(groups: seq<Group>, g: Group, e: Rating)
    ensures WithRating(groups + [g], e) ==
            if GroupIndex(groups, e.user) < |groups| then WithRating(groups, e) + [g]
            else if g.user == e.user then groups + [Group(e.user, g.ratings + [e])]
            else groups + [g] + [Group(e.user, [e])]
  {
    IndexAppend(groups, g, e.user);
  }

  lemma {:induction false} InShardOpen(groups: seq<Group>, item: int, n: nat, s: int)
    requires n > 0
    ensures EntityShardId(item, n) == s ==>
              (GroupIndex(InShard(groups, n, s), item) < |InShard(groups, n, s)| <==>
                GroupIndex(groups, item) < |groups|)
  {
    if groups != [] {
      var m := |groups| - 1;
      assert groups == groups[..m] + [groups[m]];
      InShardOpen(groups[..m], item, n, s);
      IndexAppend(groups[..m], groups[m], item);
      IndexAppend(InShard(groups[..m], n, s), groups[m], item);
      if EntityShardId(groups[m].user, n) != s {
        assert InShard(groups, n, s) == InShard(groups[..m], n, s);
      }
    }
  }

  lemma {:induction false} InShardFirst(e: Rating, n: nat, s: int)
    requires n > 0
    ensures InShard(WithRating([], e), n, s) ==
            if EntityShardId(e.user, n) == s then WithRating(InShard([], n, s), e) else InShard([], n, s)
  {
    InShardAppend([], Group(e.user, [e]), n, s);
    assert WithRating([], e) == [] + [Group(e.user, [e])];
  }

  /** A rating reaches the group of its own shard and no other. */
  lemma {:induction false} InShardWithRating(groups: seq<Group>, e: Rating, n: nat, s: int)
    requires n > 0
    ensures InShard(WithRating(groups, e), n, s) ==
            if EntityShardId(e.user, n) == s then WithRating(InShard(groups, n, s), e) else InShard(groups, n, s)
  {
    hide EntityShardId, GroupIndex, InShard;
    if groups == [] {
      InShardFirst(e, n, s);
    } else {
      var m := |groups| - 1;
      var init, g := groups[..m], groups[m];
      assert groups == init + [g];
      InShardWithRating(init, e, n, s);
      InShardOpen(init, e.user, n, s);
      WithRatingAppend(init, g, e);
      WithRatingAppend(InShard(init, n, s), g, e);
      InShardAppend(init, g, n, s);
      if GroupIndex(init, e.user) < |init| {
        InShardAppend(WithRating(init, e), g, n, s);
      } else if g.user == e.user {
        InShardAppend(init, Group(e.user, g.ratings + [e]), n, s);
      } else {
        InShardAppend(init + [g], Group(e.user, [e]), n, s);
      }
    }
  }

  /** Grouping a shard's ratings gives the shard's groups, in the same order. */
  lemma {:induction false} GroupsOfShard(kept: seq<Rating>, n: nat, s: int)
    requires n > 0
    ensures GroupsOf(OfShard(kept, ItemSharding(n), s)) == InShard(GroupsOf(kept), n, s)
  {
    hide InShard;
    if kept == [] {
      assert InShard([], n, s) == [] by { NoneInShard(n, s); }
    } else {
      var m := |kept| - 1;
      var file := OfShard(kept[..m], ItemSharding(n), s);
      GroupsOfShard(kept[..m], n, s);
      InShardWithRating(GroupsOf(kept[..m]), kept[m], n, s);
      GroupsAppend(file, kept[m]);
      assert GroupsOf(kept) == WithRating(GroupsOf(kept[..m]), kept[m]);
      assert file + [] == file;
    }
  }

  lemma {:induction false} NoneInShard(n: nat, s: int)
    requires n > 0
    ensures InShard([], n, s) == []
  {
  }

  /** The rows of the groups whose shard comes before s. */
  ghost function CountBefore(cfg: UserBuilderConfig, events: seq<Rating>, groups: seq<Group>, n: nat, s: int, l: int,
          r: int): nat
    requires n > 0
  {
    if groups == [] then 0
    else
      var m := |groups| - 1;
      CountBefore(cfg, events, groups[..m], n, s, l, r) +
      if EntityShardId(groups[m].user, n) < s then RowCount(RowsOfItem(cfg, events, groups[m]), l, r) else 0
  }

  ghost function SumBefore(cfg: UserBuilderConfig, events: seq<Rating>, groups: seq<Group>, n: nat, s: int, l: int,
          r: int): real
    requires n > 0
  {
    if groups == [] then 0.0
    else
      var m := |groups| - 1;
      SumBefore(cfg, events, groups[..m], n, s, l, r) +
      if EntityShardId(groups[m].user, n) < s then RowSum(RowsOfItem(cfg, events, groups[m]), l, r) else 0.0
  }

  lemma {:induction false} OneMoreShard(cfg: UserBuilderConfig, events: seq<Rating>, groups: seq<Group>, n: nat, s: int,
          l: int, r: int)
    requires n > 0
    ensures CountBefore(cfg, events, groups, n, s + 1, l, r) ==
            CountBefore(cfg, events, groups, n, s, l, r) +
              RowCount(RowsOfItems(cfg, events, InShard(groups, n, s)), l, r)
    ensures SumBefore(cfg, events, groups, n, s + 1, l, r) ==
            SumBefore(cfg, events, groups, n, s, l, r) + RowSum(RowsOfItems(cfg, events, InShard(groups, n, s)), l, r)
  {
    hide EntityShardId, RowsOfItem;
    if groups != [] {
      var m := |groups| - 1;
      var before := InShard(groups[..m], n, s);
      OneMoreShard(cfg, events, groups[..m], n, s, l, r);
      if EntityShardId(groups[m].user, n) == s {
        RowsOfItemsAppend(cfg, events, before, groups[m]);
        RowsConcat(RowsOfItems(cfg, events, before), RowsOfItem(cfg, events, groups[m]), l, r);
      } else {
        assert before + [] == before;
      }
    }
  }

  lemma {:induction false} EveryShard(cfg: UserBuilderConfig, events: seq<Rating>, groups: seq<Group>, n: nat, l: int,
          r: int)
    requires n > 0
    ensures CountBefore(cfg, events, groups, n, n, l, r) == RowCount(RowsOfItems(cfg, events, groups), l, r)
    ensures SumBefore(cfg, events, groups, n, n, l, r) == RowSum(RowsOfItems(cfg, events, groups), l, r)
    ensures CountBefore(cfg, events, groups, n, 0, l, r) == 0 && SumBefore(cfg, events, groups, n, 0, l, r) == 0.0
  {
    hide RowsOfItem;
    if groups != [] {
      var m := |groups| - 1;
      EveryShard(cfg, events, groups[..m], n, l, r);
      RowsConcat(RowsOfItems(cfg, events, groups[..m]), RowsOfItem(cfg, events, groups[m]), l, r);
    }
  }

  lemma {:induction false} ShardsSoFar(cfg: UserBuilderConfig, events: seq<Rating>, kept: seq<Rating>, n: nat, s: nat,
          l: int, r: int)
    requires n > 0
    ensures RowCount(RowsOfShards(cfg, events, kept, n, s), l, r) ==
            CountBefore(cfg, events, GroupsOf(kept), n, s, l, r)
    ensures RowSum(RowsOfShards(cfg, events, kept, n, s), l, r) == SumBefore(cfg, events, GroupsOf(kept), n, s, l, r)
  {
    hide RowsOfItems, CountBefore, SumBefore, GroupsOf, OfShard, EntityShardId;
    if s == 0 {
      EveryShard(cfg, events, GroupsOf(kept), n, l, r);
    } else {
      ShardsSoFar(cfg, events, kept, n, s - 1, l, r);
      GroupsOfShard(kept, n, s - 1);
      OneMoreShard(cfg, events, GroupsOf(kept), n, s - 1, l, r);
      RowsConcat(RowsOfShards(cfg, events, kept, n, s - 1),
                 RowsOfItems(cfg, events, InShard(GroupsOf(kept), n, s - 1)), l, r);
    }
  }

  // ----- the whole pipeline -------------------------------------------------------------------

  function UserEvents(cfg: UserBuilderConfig, csv: seq<CsvRow>): seq<Rating> {
    PositiveRatings(csv, cfg.minRating, cfg.useRatingWeight, cfg.offset)
  }

  /** The rows of all items, with no shards: items in order of first appearance. */
  ghost function UserPairRows(cfg: UserBuilderConfig, events: seq<Rating>): seq<PairRow> {
    RowsOfItems(cfg, events, GroupsOf(KeptRatings(cfg, events)))
  }

  ghost predicate IsUserOutput(cfg: UserBuilderConfig, csv: seq<CsvRow>, out: seq<OutputRow>) {
    var events := UserEvents(cfg, csv);
    IsOutput(cfg.reduction, Norms(Turned(events)), UserPairRows(cfg, events), out)
  }

  ghost predicate SameCounts(r1: seq<PairRow>, r2: seq<PairRow>) {
    && (forall l, r :: RowCount(r1, l, r) == RowCount(r2, l, r))
    && (forall l, r :: RowSum(r1, l, r) == RowSum(r2, l, r))
  }

  lemma {:induction false} SameKept(cfg: Config, norms: map<int, real>, r1: seq<PairRow>, r2: seq<PairRow>, a: int,
          b: int)
    requires SameCounts(r1, r2)
    ensures Kept(cfg, norms, r1, a, b) <==> Kept(cfg, norms, r2, a, b)
    ensures Kept(cfg, norms, r1, a, b) ==> ScoredRow(cfg, norms, r1, a, b) == ScoredRow(cfg, norms, r2, a, b)
  {
    hide RowCount, RowSum, Denominator;
  }

  lemma {:induction false} SameNeighborSet(cfg: Config, norms: map<int, real>, r1: seq<PairRow>, r2: seq<PairRow>,
          a: int)
    requires cfg.minCooccurrence > 0 && SameCounts(r1, r2)
    ensures NeighborSet(cfg, norms, r1, a) == NeighborSet(cfg, norms, r2, a)
  {
    hide Kept, ScoredRow, SameCounts, Ids;
    forall b ensures Kept(cfg, norms, r1, a, b) <==> Kept(cfg, norms, r2, a, b)
             ensures Kept(cfg, norms, r1, a, b) ==> ScoredRow(cfg, norms, r1, a, b) == ScoredRow(cfg, norms, r2, a, b)
             ensures Kept(cfg, norms, r1, a, b) ==> b in Ids(r1) && b in Ids(r2) {
      SameKept(cfg, norms, r1, r2, a, b);
      if Kept(cfg, norms, r1, a, b) {
        KeptOccurs(cfg, norms, r1, a, b);
        KeptOccurs(cfg, norms, r2, a, b);
      }
    }
  }

  /** The output depends on the pair rows only through their counts and sums. */
  lemma {:induction false} SameCountsSameOutput(cfg: Config, norms: map<int, real>, r1: seq<PairRow>, r2: seq<PairRow>,
          out: seq<OutputRow>)
    requires cfg.minCooccurrence > 0 && SameCounts(r1, r2)
    requires IsOutput(cfg, norms, r1, out)
    ensures IsOutput(cfg, norms, r2, out)
  {
    hide NeighborSet, SameCounts;
    forall a ensures NeighborSet(cfg, norms, r1, a) == NeighborSet(cfg, norms, r2, a)
             ensures NeighborList(cfg, norms, r1, a) == NeighborList(cfg, norms, r2, a) {
      SameNeighborSet(cfg, norms, r1, r2, a);
    }
  }

  lemma {:induction false} ItemsOriented(cfg: UserBuilderConfig, events: seq<Rating>, groups: seq<Group>, q: PairRow)
    requires q in RowsOfItems(cfg, events, groups)
    ensures q.left < q.right
  {
    var m := |groups| - 1;
    if q in RowsOfItems(cfg, events, groups[..m]) {
      ItemsOriented(cfg, events, groups[..m], q);
    } else {
      var g := groups[m];
      ItemRowsOriented(cfg.sample, g.user, g.ratings, AnchorSet(cfg, events, g.user), q);
    }
  }

  lemma {:induction false} RowsOriented(cfg: UserBuilderConfig, events: seq<Rating>, kept: seq<Rating>, n: nat, s: nat)
    requires n > 0
    ensures forall q :: q in RowsOfShards(cfg, events, kept, n, s) ==> q.left < q.right
  {
    hide RowsOfItems;
    if s > 0 {
      RowsOriented(cfg, events, kept, n, s - 1);
      var groups := GroupsOf(OfShard(kept, ItemSharding(n), s - 1));
      forall q | q in RowsOfItems(cfg, events, groups) ensures q.left < q.right {
        ItemsOriented(cfg, events, groups, q);
      }
    }
  }

  lemma {:induction false} AnchorsAgree(cfg: UserBuilderConfig, events: seq<Rating>, anchors: map<int, set<int>>)
    requires forall i, u :: u in AnchorsAt(anchors, i) <==>
               IsAnchor(events, cfg.sample.rank, cfg.anchorItemsPerUser, cfg.sample.maxItemUsers,
                 ValidUsers(cfg, events), i, u)
    ensures forall i :: AnchorsAt(anchors, i) == AnchorSet(cfg, events, i)
  {
    hide AnchorItems, ValidUsers, AnchorsAt;
    forall i ensures AnchorsAt(anchors, i) == AnchorSet(cfg, events, i) {
      forall u ensures u in AnchorsAt(anchors, i) <==> u in AnchorSet(cfg, events, i) {
      }
    }
  }

  /** The four-stage pipeline computes the unsharded specification, for every shard count
      and buffer size. */
  method ComputeUserSimilarities(cfg: UserBuilderConfig, csv: seq<CsvRow>) returns (out: seq<OutputRow>)
    requires ValidConfig(cfg.reduction)
    ensures IsUserOutput(cfg, csv, out)
  {
    hide RowsOfItems, KeptRatings, AnchorItems, IsOutput, RowCount, RowSum;
    var events := IterPositiveRatings(csv, cfg.minRating, cfg.useRatingWeight, cfg.offset);
    var valid, norms, itemUserCounts := BuildUserStats(cfg, events);
    var anchors := BuildCoverageAnchorUsersByItem(
      events, itemUserCounts, cfg.sample.rank, cfg.anchorItemsPerUser, cfg.sample.maxItemUsers, valid);
    AnchorsAgree(cfg, events, anchors);
    var itemFiles := MapRatingsToItemShards(cfg, events, valid);
    ghost var rows, written;
    var pairFiles, neighborFiles;
    pairFiles, rows := ReduceItemShardsToPairShards(cfg, itemFiles, anchors, events);
    RowsOriented(cfg, events, KeptRatings(cfg, events), cfg.reduction.shardCount, cfg.reduction.shardCount);
    neighborFiles, written := ReducePairShards(cfg.reduction, pairFiles, norms, rows);
    out := ReduceNeighborShards(cfg.reduction, neighborFiles, norms, rows, written);
    forall u ensures NormSq(norms, u) == NormSq(Norms(Turned(events)), u) {
      NormsMeaning(Turned(events), u);
    }
    SameNormsSameOutput(cfg.reduction, norms, Norms(Turned(events)), rows, out);
    var kept, n := KeptRatings(cfg, events), cfg.reduction.shardCount;
    forall l, r ensures RowCount(rows, l, r) == RowCount(UserPairRows(cfg, events), l, r) {
      ShardsSoFar(cfg, events, kept, n, n, l, r);
      EveryShard(cfg, events, GroupsOf(kept), n, l, r);
    }
    forall l, r ensures RowSum(rows, l, r) == RowSum(UserPairRows(cfg, events), l, r) {
      ShardsSoFar(cfg, events, kept, n, n, l, r);
      EveryShard(cfg, events, GroupsOf(kept), n, l, r);
    }
    SameCountsSameOutput(cfg.reduction, Norms(Turned(events)), rows, UserPairRows(cfg, events), out);
  }
}
