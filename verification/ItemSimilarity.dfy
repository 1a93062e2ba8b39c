/** The item-similarity builder, from the rating file to the neighbour lists. */
module ItemSimilarity {
  import opened Arithmetic
  import opened ShardFiles
  import opened PairReduction
  import opened TopKOutput
  import opened Interactions
  import opened Options
  import opened UserItems

  datatype BuilderConfig = BuilderConfig(
    minRating: real, useRatingWeight: bool, offset: real,
    maxUserItems: int, minItemUsers: int, sortedByUser: bool, reduction: Config)

  // ----- item statistics ---------------------------------------------------------------------

  function RatingCount(events: seq<Rating>, item: int): nat {
    if events == [] then 0
    else
      var n := |events| - 1;
      RatingCount(events[..n], item) + (if events[n].item == item then 1 else 0)
  }

  predicate IsValidItem(minItemUsers: int, events: seq<Rating>, item: int) {
    RatingCount(events, item) > 0 && RatingCount(events, item) >= minItemUsers && SumSquares(events, item) > 0.0
  }

  ghost function ValidItems(minItemUsers: int, events: seq<Rating>): (r: set<int>)
    ensures forall i :: i in r ==> IsValidItem(minItemUsers, events, i)
  {
    set e | e in events && IsValidItem(minItemUsers, events, e.item) :: e.item
  }

  lemma {:induction false} CountedItemsOccur(events: seq<Rating>, item: int)
    requires RatingCount(events, item) > 0
    ensures exists e :: e in events && e.item == item
  {
    var n := |events| - 1;
    assert events == events[..n] + [events[n]];
    if events[n].item == item {
      assert events[n] in events;
    } else {
      CountedItemsOccur(events[..n], item);
    }
  }

  /** Norms accumulate over every positive rating, duplicates included. */
  method BuildItemStats(minItemUsers: int, events: seq<Rating>) returns (valid: set<int>, norms: map<int, real>)
    ensures valid == ValidItems(minItemUsers, events)
    ensures forall i :: NormSq(norms, i) == SumSquares(events, i)
  {
    norms := map[];
    var counts: map<int, int> := map[];
    for k := 0 to |events|
      invariant forall i :: NormSq(norms, i) == SumSquares(events[..k], i)
      invariant forall i :: i in counts <==> RatingCount(events[..k], i) > 0
      invariant forall i :: i in counts ==> counts[i] == RatingCount(events[..k], i)
      invariant counts.Keys <= norms.Keys
    {
      var e := events[k];
      assert events[..k + 1][..k] == events[..k];
      counts := counts[e.item := (if e.item in counts then counts[e.item] else 0) + 1];
      norms := norms[e.item := (if e.item in norms then norms[e.item] else 0.0) + Times(e.weight, e.weight)];
    }
    assert events[..|events|] == events;
    valid := set i | i in counts && counts[i] >= minItemUsers && norms[i] > 0.0;
    forall i ensures i in valid <==> i in ValidItems(minItemUsers, events) {
      if i in valid {
        CountedItemsOccur(events, i);
      }
    }
  }

  // ----- user pairs to pair shards -------------------------------------------------------------

  /** The rows every user contributes, users in the order they are processed. */
  ghost function PairRows(cap: int, groups: seq<Group>): (r: seq<PairRow>)
  {
    if groups == [] then []
    else
      var n := |groups| - 1;
      PairRows(cap, groups[..n]) + Combinations(Normalized(cap, groups[n].ratings))
  }

  lemma {:induction false} PairRowsOriented(cap: int, groups: seq<Group>, q: PairRow)
    requires q in PairRows(cap, groups)
    ensures q.left < q.right
  {
    var n := |groups| - 1;
    if q in PairRows(cap, groups[..n]) {
      PairRowsOriented(cap, groups[..n], q);
    } else {
      CombinationsOriented(Normalized(cap, groups[n].ratings), q);
    }
  }

  ghost predicate PairWriter(writer: ShardWriter<PairRow>) reads writer {
    writer.Valid() && writer.shardCount > 0 && writer.shardOf == PairSharding(writer.shardCount)
  }

  method AppendPair(writer: ShardWriter<PairRow>, row: PairRow)
    requires PairWriter(writer)
    modifies writer
    ensures PairWriter(writer) && writer.written == old(writer.written) + [row]
    ensures writer.Held() == old(writer.Held()) + 1 && writer.bufferedRows == old(writer.bufferedRows)
  {
    assert writer.shardOf(row) == PairShardId(row.left, row.right, writer.shardCount);
    writer.Append(row);
  }

  lemma {:induction false} PairsWithStep(x: Weighted, ys: seq<Weighted>, j: nat, was: seq<PairRow>, goal: seq<PairRow>)
    requires j < |ys| && was + PairsWith(x, ys[j..]) == goal
    ensures was + [PairOf(x, ys[j])] + PairsWith(x, ys[j + 1..]) == goal
  {
    var row := [PairOf(x, ys[j])];
    assert ys[j..][1..] == ys[j + 1..];
    assert PairsWith(x, ys[j..]) == row + PairsWith(x, ys[j + 1..]);
    assert was + (row + PairsWith(x, ys[j + 1..])) == was + row + PairsWith(x, ys[j + 1..]);
  }

  /** The inner loop over itertools.combinations: one item against every later one. */
  method WriteRow(x: Weighted, ys: seq<Weighted>, writer: ShardWriter<PairRow>) returns (writtenCount: nat)
    requires PairWriter(writer)
    modifies writer
    ensures PairWriter(writer) && writer.written == old(writer.written) + PairsWith(x, ys)
    ensures writer.Held() == old(writer.Held()) + writtenCount && writer.bufferedRows == old(writer.bufferedRows)
  {
    writtenCount := 0;
    ghost var goal := writer.written + PairsWith(x, ys);
    assert ys[0..] == ys;
    for j := 0 to |ys|
      invariant PairWriter(writer) && writer.written + PairsWith(x, ys[j..]) == goal
      invariant writer.Held() == old(writer.Held()) + writtenCount && writer.bufferedRows == old(writer.bufferedRows)
    {
      PairsWithStep(x, ys, j, writer.written, goal);
      AppendPair(writer, PairOf(x, ys[j]));
      writtenCount := writtenCount + 1;
    }
    assert writer.written + [] == writer.written;
  }

  lemma {:induction false} CombinationsStep(s: seq<Weighted>, i: nat, was: seq<PairRow>, goal: seq<PairRow>)
    requires i < |s| && was + Combinations(s[i..]) == goal
    ensures was + PairsWith(s[i], s[i + 1..]) + Combinations(s[i + 1..]) == goal
  {
    assert s[i..][1..] == s[i + 1..];
    assert was + (PairsWith(s[i], s[i + 1..]) + Combinations(s[i + 1..])) ==
           was + PairsWith(s[i], s[i + 1..]) + Combinations(s[i + 1..]);
  }

  method WriteUserPairsToShards(cap: int, inter: seq<Rating>, writer: ShardWriter<PairRow>) returns (writtenCount: nat)
    requires PairWriter(writer)
    modifies writer
    ensures PairWriter(writer) && writer.written == old(writer.written) + Combinations(Normalized(cap, inter))
    ensures writer.Held() == old(writer.Held()) + writtenCount && writer.bufferedRows == old(writer.bufferedRows)
  {
    var normalized := NormalizeUserInteractions(cap, inter);
    writtenCount := 0;
    ghost var goal := writer.written + Combinations(normalized);
    assert normalized[0..] == normalized;
    for i := 0 to |normalized|
      invariant PairWriter(writer) && writer.written + Combinations(normalized[i..]) == goal
      invariant writer.Held() == old(writer.Held()) + writtenCount && writer.bufferedRows == old(writer.bufferedRows)
    {
      CombinationsStep(normalized, i, writer.written, goal);
      var count := WriteRow(normalized[i], normalized[i + 1..], writer);
      writtenCount := writtenCount + count;
    }
    assert writer.written + [] == writer.written;
  }

  lemma {:induction false} PairRowsAppend(cap: int, groups: seq<Group>, g: Group)
    ensures PairRows(cap, groups + [g]) == PairRows(cap, groups) + Combinations(Normalized(cap, g.ratings))
  {
    assert (groups + [g])[..|groups|] == groups;
  }

  /** Write the rows of the next user. */
  method WriteGroup(cap: int, g: Group, writer: ShardWriter<PairRow>, ghost closed: seq<Group>)
    returns (writtenCount: nat)
    requires PairWriter(writer) && writer.written == PairRows(cap, closed)
    modifies writer
    ensures PairWriter(writer) && writer.written == PairRows(cap, closed + [g])
    ensures writer.Held() == old(writer.Held()) + writtenCount && writer.bufferedRows == old(writer.bufferedRows)
  {
    PairRowsAppend(cap, closed, g);
    writtenCount := WriteUserPairsToShards(cap, g.ratings, writer);
  }

  lemma {:induction false} OnlyItemsAppend(events: seq<Rating>, e: Rating, items: set<int>)
    ensures OnlyItems(events + [e], items) == OnlyItems(events, items) + (if e.item in items then [e] else [])
  {
    assert (events + [e])[..|events|] == events;
  }

  lemma {:induction false} RunsAppend(events: seq<Rating>, e: Rating)
    ensures var r := RunsOf(events);
            RunsOf(events + [e]) == if r != [] && r[|r| - 1].user == e.user
                                    then r[|r| - 1 := Group(e.user, r[|r| - 1].ratings + [e])]
                                    else r + [Group(e.user, [e])]
  {
    assert (events + [e])[..|events|] == events;
  }

  lemma {:induction false} GroupsAppend(events: seq<Rating>, e: Rating)
    ensures var r := GroupsOf(events); var k := GroupIndex(r, e.user);
            GroupsOf(events + [e]) ==
            if k < |r| then r[k := Group(e.user, r[k].ratings + [e])] else r + [Group(e.user, [e])]
  {
    assert (events + [e])[..|events|] == events;
  }

  /** The open user's interactions, if any, after the users already written. */
  ghost predicate StreamState(runs: seq<Group>, closed: seq<Group>, currentUser: Option<int>, current: seq<Rating>) {
    match currentUser
    case None => runs == [] && closed == [] && current == []
    case Some(u) => runs == closed + [Group(u, current)]
  }

  /** One rating of a valid item moves the stream state as RunsOf does. */
  lemma {:induction false} StreamStep(events: seq<Rating>, e: Rating, closed: seq<Group>, currentUser: Option<int>,
          current: seq<Rating>)
    requires StreamState(RunsOf(events), closed, currentUser, current)
    ensures match currentUser
            case None => StreamState(RunsOf(events + [e]), closed, Some(e.user), current + [e])
            case Some(u) =>
              if u == e.user then StreamState(RunsOf(events + [e]), closed, Some(u), current + [e])
              else StreamState(RunsOf(events + [e]), closed + [Group(u, current)], Some(e.user), [e])
  {
    RunsAppend(events, e);
    assert [] + [e] == [e];
  }

  lemma {:induction false} StreamStart(cap: int, valid: set<int>)
    ensures PairRows(cap, []) == [] && OnlyItems([], valid) == [] && StreamState(RunsOf([]), [], None, [])
  {
  }

  lemma {:induction false} StreamEnd(runs: seq<Group>, closed: seq<Group>, currentUser: Option<int>,
          current: seq<Rating>)
    requires StreamState(runs, closed, currentUser, current)
    ensures runs == if currentUser.None? then closed else closed + [Group(currentUser.value, current)]
  {
  }

  /** Streaming mode: one user's interactions in memory at a time. */
  method MapSortedStream(cfg: BuilderConfig, events: seq<Rating>, valid: set<int>, writer: ShardWriter<PairRow>)
    requires PairWriter(writer) && writer.written == [] && writer.Counted()
    modifies writer
    ensures PairWriter(writer) && writer.written == PairRows(cfg.maxUserItems, RunsOf(OnlyItems(events, valid)))
  {
    hide Combinations, Normalized, RunsOf, OnlyItems, PairRows, StreamState;
    var currentUser: Option<int> := None;
    var current: seq<Rating> := [];
    ghost var closed: seq<Group>, kept: seq<Rating> := [], [];
    StreamStart(cfg.maxUserItems, valid);
    for k := 0 to |events|
      invariant PairWriter(writer) && writer.written == PairRows(cfg.maxUserItems, closed) && writer.Counted()
      invariant kept == OnlyItems(events[..k], valid)
      invariant StreamState(RunsOf(kept), closed, currentUser, current)
    {
      var e := events[k];
      assert events[..k + 1] == events[..k] + [e];
      OnlyItemsAppend(events[..k], e, valid);
      if e.item in valid {
        StreamStep(kept, e, closed, currentUser, current);
        kept := kept + [e];
        if currentUser.None? {
          currentUser := Some(e.user);
        }
        if e.user != currentUser.value {
          var g := Group(currentUser.value, current);
          var writtenCount := WriteGroup(cfg.maxUserItems, g, writer, closed);
          closed := closed + [g];
          writer.Count(writtenCount);
          currentUser, current := Some(e.user), [];
          assert current + [e] == [e];
        }
        current := current + [e];
      } else {
        assert kept + [] == kept;
      }
    }
    assert events[..|events|] == events;
    StreamEnd(RunsOf(kept), closed, currentUser, current);
    if currentUser.Some? {
      var _ := WriteGroup(cfg.maxUserItems, Group(currentUser.value, current), writer, closed);
    }
  }

  lemma {:induction false} NoGroups(valid: set<int>)
    ensures GroupsOf(OnlyItems([], valid)) == []
  {
  }

  /** In-memory mode, first half: the dictionary of all users in insertion order. */
  method GroupInMemory(events: seq<Rating>, valid: set<int>) returns (groups: seq<Group>)
    ensures groups == GroupsOf(OnlyItems(events, valid))
  {
    hide GroupsOf, OnlyItems;
    groups := [];
    NoGroups(valid);
    for k := 0 to |events|
      invariant groups == GroupsOf(OnlyItems(events[..k], valid))
    {
      var e := events[k];
      assert events[..k + 1] == events[..k] + [e];
      OnlyItemsAppend(events[..k], e, valid);
      GroupsAppend(OnlyItems(events[..k], valid), e);
      assert OnlyItems(events[..k], valid) + [] == OnlyItems(events[..k], valid);
      if e.item in valid {
        var at := GroupIndex(groups, e.user);
        groups :=
          if at < |groups| then groups[at := Group(e.user, groups[at].ratings + [e])]
          else groups + [Group(e.user, [e])];
      }
    }
    assert events[..|events|] == events;
  }

  method MapInMemory(cfg: BuilderConfig, events: seq<Rating>, valid: set<int>, writer: ShardWriter<PairRow>)
    requires PairWriter(writer) && writer.written == [] && writer.Counted()
    modifies writer
    ensures PairWriter(writer) && writer.written == PairRows(cfg.maxUserItems, GroupsOf(OnlyItems(events, valid)))
    ensures writer.Counted()
  {
    hide Combinations, Normalized, GroupsOf, OnlyItems;
    var groups := GroupInMemory(events, valid);
    for k := 0 to |groups|
      invariant PairWriter(writer) && writer.written == PairRows(cfg.maxUserItems, groups[..k]) && writer.Counted()
    {
      assert groups[..k + 1] == groups[..k] + [groups[k]];
      var writtenCount := WriteGroup(cfg.maxUserItems, groups[k], writer, groups[..k]);
      writer.Count(writtenCount);
    }
    assert groups[..|groups|] == groups;
  }

  ghost function UserGroups(cfg: BuilderConfig, events: seq<Rating>): seq<Group> {
    var kept := OnlyItems(events, ValidItems(cfg.minItemUsers, events));
    if cfg.sortedByUser then RunsOf(kept) else GroupsOf(kept)
  }

  method MapUserPairsToPairShards(cfg: BuilderConfig, events: seq<Rating>, valid: set<int>)
    returns (files: seq<seq<PairRow>>, ghost rows: seq<PairRow>)
    requires ValidConfig(cfg.reduction) && valid == ValidItems(cfg.minItemUsers, events)
    ensures |files| == cfg.reduction.shardCount
    ensures rows == PairRows(cfg.maxUserItems, UserGroups(cfg, events))
    ensures forall s :: 0 <= s < |files| ==> files[s] == OfShard(rows, PairSharding(cfg.reduction.shardCount), s)
  {
    var n := cfg.reduction.shardCount;
    var writer := new ShardWriter<PairRow>(n, cfg.reduction.shardBufferRows, PairSharding(n));
    if cfg.sortedByUser {
      MapSortedStream(cfg, events, valid, writer);
    } else {
      MapInMemory(cfg, events, valid, writer);
    }
    writer.Flush();
    files, rows := writer.files, writer.written;
  }

  // ----- the whole pipeline -------------------------------------------------------------------

  function Events(cfg: BuilderConfig, csv: seq<CsvRow>): seq<Rating> {
    PositiveRatings(csv, cfg.minRating, cfg.useRatingWeight, cfg.offset)
  }

  /** The norm of every item that occurs, as one map. */
  ghost function Norms(events: seq<Rating>): map<int, real> {
    map i | i in (set e | e in events :: e.item) :: SumSquares(events, i)
  }

  lemma {:induction false} NormsMeaning(events: seq<Rating>, item: int)
    ensures NormSq(Norms(events), item) == SumSquares(events, item)
  {
    if item !in Norms(events) {
      NoSquares(events, item);
    }
  }

  lemma {:induction false} NoSquares(events: seq<Rating>, item: int)
    requires forall e :: e in events ==> e.item != item
    ensures SumSquares(events, item) == 0.0
  {
    if events != [] {
      NoSquares(events[..|events| - 1], item);
    }
  }

  /** The specification: all pairs of all users, with no shards, buffers or heaps. */
  ghost predicate IsSimilarityOutput(cfg: BuilderConfig, csv: seq<CsvRow>, out: seq<OutputRow>) {
    var events := Events(cfg, csv);
    IsOutput(cfg.reduction, Norms(events), PairRows(cfg.maxUserItems, UserGroups(cfg, events)), out)
  }

  lemma {:induction false} SameNormsSameOutput(cfg: Config, n1: map<int, real>, n2: map<int, real>, rows: seq<PairRow>,
          out: seq<OutputRow>)
    requires forall i :: NormSq(n1, i) == NormSq(n2, i)
    requires IsOutput(cfg, n1, rows, out)
    ensures IsOutput(cfg, n2, rows, out)
  {
    forall a ensures NeighborSet(cfg, n1, rows, a) == NeighborSet(cfg, n2, rows, a) {
      forall b ensures Kept(cfg, n1, rows, a, b) == Kept(cfg, n2, rows, a, b)
                       && (Kept(cfg, n1, rows, a, b) ==>
                         ScoredRow(cfg, n1, rows, a, b) == ScoredRow(cfg, n2, rows, a, b)) {
        assert Denominator(cfg, n1, a, b) == Denominator(cfg, n2, a, b);
      }
    }
  }

  /** The three-stage pipeline computes the unsharded specification, for every shard count
      and buffer size and in both reading modes. */
  method ComputeSimilarities(cfg: BuilderConfig, csv: seq<CsvRow>) returns (out: seq<OutputRow>)
    requires ValidConfig(cfg.reduction)
    ensures IsSimilarityOutput(cfg, csv, out)
  {
    var events := IterPositiveRatings(csv, cfg.minRating, cfg.useRatingWeight, cfg.offset);
    var valid, norms := BuildItemStats(cfg.minItemUsers, events);
    ghost var rows, written;
    var pairFiles, neighborFiles;
    pairFiles, rows := MapUserPairsToPairShards(cfg, events, valid);
    forall q | q in rows ensures q.left < q.right {
      PairRowsOriented(cfg.maxUserItems, UserGroups(cfg, events), q);
    }
    neighborFiles, written := ReducePairShards(cfg.reduction, pairFiles, norms, rows);
    out := ReduceNeighborShards(cfg.reduction, neighborFiles, norms, rows, written);
    forall i ensures NormSq(norms, i) == NormSq(Norms(events), i) {
      NormsMeaning(events, i);
    }
    SameNormsSameOutput(cfg.reduction, norms, Norms(events), rows, out);
  }
}
