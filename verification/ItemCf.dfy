/** The item-based retriever: seeds from behaviour channels, batched neighbour lookups,
    accumulation and the ordered response. */
module ItemCf {
  import opened Arithmetic
  import opened Orders
  import opened Aggregation
  import opened Lookups
  import opened Options

  datatype WeightedItem = WeightedItem(itemId: int, weight: real)
  datatype Behaviors = Behaviors(
    recentLiked: seq<WeightedItem>, liked: seq<WeightedItem>, interested: seq<WeightedItem>,
    rated: seq<int>, negative: seq<WeightedItem>)

  // ----- behaviour channels ---------------------------------------------------------------

  function ItemWeight(item: WeightedItem): (w: real)
    ensures w > 0.0
  {
    if item.weight > 0.0 then item.weight else 1.0
  }

  function ChannelScore(base: real, item: WeightedItem, rank: nat): (s: real)
    requires rank > 0
    ensures base > 0.0 ==> s > 0.0
  {
    Times(base, ItemWeight(item)) / rank as real
  }

  predicate HasItem(s: seq<ScoredItem>, id: int) {
    exists i :: 0 <= i < |s| && s[i].itemId == id
  }

  /** One channel appended to a list: the rank counts every entry, also the skipped ones. */
  function AppendChannel(items: seq<WeightedItem>, base: real, acc: seq<ScoredItem>): seq<ScoredItem> {
    if items == [] then acc
    else
      var last := items[|items| - 1];
      var r := AppendChannel(items[..|items| - 1], base, acc);
      if last.itemId <= 0 || HasItem(r, last.itemId) then r
      else r + [ScoredItem(last.itemId, ChannelScore(base, last, |items|))]
  }

  method AppendChannelItems(items: seq<WeightedItem>, base: real, seen: set<nat>, acc: seq<ScoredItem>)
    returns (seen': set<nat>, r: seq<ScoredItem>)
    requires forall id :: id in seen <==> HasItem(acc, id)
    ensures r == AppendChannel(items, base, acc)
    ensures forall id :: id in seen' <==> HasItem(r, id)
  {
    seen', r := seen, acc;
    var rank := 0;
    for i := 0 to |items|
      invariant rank == i && r == AppendChannel(items[..i], base, acc)
      invariant forall id :: id in seen' <==> HasItem(r, id)
    {
      assert items[..i + 1][..i] == items[..i];
      rank := rank + 1;
      var item := items[i];
      if item.itemId <= 0 {
        continue;
      }
      if item.itemId in seen' {
        continue;
      }
      HasItemAppend(r, ScoredItem(item.itemId, ChannelScore(base, item, rank)));
      seen' := seen' + {item.itemId};
      r := r + [ScoredItem(item.itemId, ChannelScore(base, item, rank))];
    }
    assert items[..|items|] == items;
  }

  lemma {:induction false} HasItemAppend(s: seq<ScoredItem>, x: ScoredItem)
    ensures forall id :: HasItem(s + [x], id) <==> HasItem(s, id) || id == x.itemId
  {
    forall id ensures HasItem(s + [x], id) <==> HasItem(s, id) || id == x.itemId {
      if HasItem(s, id) {
        var i :| 0 <= i < |s| && s[i].itemId == id;
        assert (s + [x])[i].itemId == id;
      }
      assert (s + [x])[|s|] == x;
    }
  }

  /** Channel lists hold positive scores and distinct non-zero ids. */
  ghost predicate CleanItems(s: seq<ScoredItem>) {
    && (forall i :: 0 <= i < |s| ==> s[i].itemId != 0 && s[i].score > 0.0)
    && (forall i, j :: 0 <= i < j < |s| ==> s[i].itemId != s[j].itemId)
  }

  lemma {:induction false} ChannelClean(items: seq<WeightedItem>, base: real, acc: seq<ScoredItem>)
    requires base > 0.0 && CleanItems(acc)
    ensures CleanItems(AppendChannel(items, base, acc))
  {
    if items != [] {
      ChannelClean(items[..|items| - 1], base, acc);
    }
  }

  function Channels(b: Behaviors, first: real, second: real, third: real): seq<ScoredItem> {
    AppendChannel(b.interested, third, AppendChannel(b.liked, second, AppendChannel(b.recentLiked, first, [])))
  }

  method CollectChannels(b: Behaviors, first: real, second: real, third: real) returns (r: seq<ScoredItem>)
    ensures r == Channels(b, first, second, third)
  {
    var seen;
    seen, r := AppendChannelItems(b.recentLiked, first, {}, []);
    seen, r := AppendChannelItems(b.liked, second, seen, r);
    seen, r := AppendChannelItems(b.interested, third, seen, r);
  }

  function ToSeeds(s: seq<ScoredItem>): (r: seq<TriggerSeed>)
    ensures |r| == |s|
  {
    seq(|s|, i requires 0 <= i < |s| => TriggerSeed(s[i].itemId, s[i].score))
  }

  /** Liked items weigh more when recent; interest weighs least. */
  method CollectTriggerSeeds(b: Behaviors) returns (seeds: seq<TriggerSeed>)
    ensures seeds == ToSeeds(Channels(b, 1.0, 0.5, 0.3))
  {
    var items := CollectChannels(b, 1.0, 0.5, 0.3);
    seeds := ToSeeds(items);
  }

  predicate HigherSeed(a: TriggerSeed, b: TriggerSeed) {
    a.score > b.score || (a.score == b.score && a.entityId < b.entityId)
  }

  lemma {:induction false} SeedsTotal(S: set<TriggerSeed>)
    ensures TotalOn(HigherSeed, S)
  {
  }

  lemma {:induction false} SeedsDistinct(b: Behaviors)
    ensures NoDup(ToSeeds(Channels(b, 1.0, 0.5, 0.3)))
    ensures forall s :: s in ToSeeds(Channels(b, 1.0, 0.5, 0.3)) ==> s.score > 0.0 && s.entityId != 0
  {
    ChannelClean(b.recentLiked, 1.0, []);
    ChannelClean(b.liked, 0.5, AppendChannel(b.recentLiked, 1.0, []));
    ChannelClean(b.interested, 0.3, AppendChannel(b.liked, 0.5, AppendChannel(b.recentLiked, 1.0, [])));
  }

  /** The seeds kept: all of them in collection order, or the best `max` in rank order. */
  ghost function SelectTop(seeds: seq<TriggerSeed>, max: int): seq<TriggerSeed> {
    SeedsTotal(Elems(seeds));
    if max <= 0 || |seeds| <= max then seeds else TopK(HigherSeed, max, Elems(seeds))
  }

  method SelectTopTriggerSeeds(seeds: seq<TriggerSeed>, max: int) returns (r: seq<TriggerSeed>)
    requires NoDup(seeds)
    ensures r == SelectTop(seeds, max)
  {
    SeedsTotal(Elems(seeds));
    if max <= 0 || |seeds| <= max {
      return seeds;
    }
    var sorted := SortDistinct(HigherSeed, seeds);
    r := sorted[..max];
    ElemsCard(seeds);
    TopKPrefix(HigherSeed, |seeds|, Elems(seeds), sorted, max);
    TopKUnique(HigherSeed, max, Elems(seeds), r, TopK(HigherSeed, max, Elems(seeds)));
  }

  /** The seeds kept: all of them, or as many as asked for, the stronger first, then the smaller id;
      and a seed left out is weaker than every one kept. */
  lemma {:induction false} SelectTopMeaning(seeds: seq<TriggerSeed>, max: int)
    requires NoDup(seeds)
    ensures max <= 0 || |seeds| <= max ==> SelectTop(seeds, max) == seeds
    ensures max > 0 && |seeds| > max ==>
              var kept := SelectTop(seeds, max);
              && |kept| == max && (forall s :: s in kept ==> s in seeds)
              && (forall i, j :: 0 <= i < j < |kept| ==> Stronger(kept[i], kept[j]))
              && (forall s, i :: s in seeds && s !in kept && 0 <= i < |kept| ==> Stronger(kept[i], s))
  {
    SeedsTotal(Elems(seeds));
    ElemsCard(seeds);
    if max > 0 && |seeds| > max {
      var kept := SelectTop(seeds, max);
      forall s | s in kept ensures s in seeds {
        assert s in Elems(kept);
      }
      forall i, j | 0 <= i < j < |kept| ensures Stronger(kept[i], kept[j]) {
        assert HigherSeed(kept[i], kept[j]);
      }
      forall s, i | s in seeds && s !in kept && 0 <= i < |kept| ensures Stronger(kept[i], s) {
        assert s in Elems(seeds);
        assert HigherSeed(kept[i], s);
      }
    }
  }

  ghost predicate Stronger(a: TriggerSeed, b: TriggerSeed) {
    a.score > b.score || (a.score == b.score && a.entityId < b.entityId)
  }

  // ----- what a channel list holds ------------------------------------------------------------

  /** Where an id first stands in a channel, or its length. */
  function FirstAt(items: seq<WeightedItem>, id: int): (k: nat)
    ensures k <= |items|
    ensures k < |items| ==> items[k].itemId == id
    ensures forall i :: 0 <= i < k ==> items[i].itemId != id
  {
    if items == [] || items[0].itemId == id then 0 else 1 + FirstAt(items[1..], id)
  }

  /** What a channel gives the item at place k: its weight, or one if that is not positive, scaled
      by the channel and divided by the place counted from one. */
  function PlaceScore(base: real, items: seq<WeightedItem>, k: nat): real
    requires k < |items|
  {
    base * (if items[k].weight <= 0.0 then 1.0 else items[k].weight) / (k + 1) as real
  }

  /** The first channel that mentions the id decides, at its first mention. */
  function SeedScore(b: Behaviors, first: real, second: real, third: real, id: int): real {
    if FirstAt(b.recentLiked, id) < |b.recentLiked| then PlaceScore(first, b.recentLiked, FirstAt(b.recentLiked, id))
    else if FirstAt(b.liked, id) < |b.liked| then PlaceScore(second, b.liked, FirstAt(b.liked, id))
    else if FirstAt(b.interested, id) < |b.interested|
    then PlaceScore(third, b.interested, FirstAt(b.interested, id))
    else 0.0
  }

  lemma {:induction false} PlaceIsChannel(base: real, items: seq<WeightedItem>, k: nat)
    requires k < |items|
    ensures ChannelScore(base, items[k], k + 1) == PlaceScore(base, items, k)
  {
  }

  lemma {:induction false} FirstAtMore(items: seq<WeightedItem>, last: WeightedItem, id: int)
    ensures FirstAt(items + [last], id) ==
            if FirstAt(items, id) < |items| then FirstAt(items, id)
            else if last.itemId == id then |items| else |items| + 1
  {
    var all := items + [last];
    assert forall i :: 0 <= i < |items| ==> all[i] == items[i];
    assert all[|items|] == last;
  }

  /** One channel appended: what was there stays; a further item is new, positive, and scored at
      its first mention; and every positive id of the channel is in the list. */
  lemma {:induction false} ChannelMeaning(items: seq<WeightedItem>, base: real, acc: seq<ScoredItem>, x: ScoredItem)
    ensures x in AppendChannel(items, base, acc) <==>
              x in acc ||
              (x.itemId > 0 && !HasItem(acc, x.itemId) && FirstAt(items, x.itemId) < |items| &&
               x.score == PlaceScore(base, items, FirstAt(items, x.itemId)))
  {
    hide ChannelScore, PlaceScore, FirstAt, HasItem;
    if items == [] {
      NowhereAt(x.itemId);
    } else {
      var n := |items| - 1;
      var last, front := items[n], items[..n];
      var r := AppendChannel(front, base, acc);
      assert items == front + [last];
      ChannelMeaning(front, base, acc, x);
      FirstAtMore(front, last, x.itemId);
      PlaceIsChannel(base, items, n);
      SamePlace(base, front, last, FirstAt(front, x.itemId));
      if last.itemId > 0 {
        HasItemAppend(r, ScoredItem(last.itemId, ChannelScore(base, last, |items|)));
        ChannelHas(front, base, acc, last.itemId);
      }
    }
  }

  lemma {:induction false} NowhereAt(id: int)
    ensures FirstAt([], id) == 0
  {
  }

  lemma {:induction false} SamePlace(base: real, front: seq<WeightedItem>, last: WeightedItem, k: nat)
    ensures k < |front| ==> PlaceScore(base, front + [last], k) == PlaceScore(base, front, k)
  {
  }

  /** An id is in the list from before, or positive and mentioned. */
  lemma {:induction false} ChannelHas(items: seq<WeightedItem>, base: real, acc: seq<ScoredItem>, id: int)
    ensures HasItem(AppendChannel(items, base, acc), id) <==>
              HasItem(acc, id) || (id > 0 && FirstAt(items, id) < |items|)
  {
    hide ChannelScore, FirstAt, HasItem;
    if items == [] {
      NowhereAt(id);
    } else {
      var n := |items| - 1;
      var last, front := items[n], items[..n];
      assert items == front + [last];
      ChannelHas(front, base, acc, id);
      FirstAtMore(front, last, id);
      if last.itemId > 0 {
        HasItemAppend(AppendChannel(front, base, acc), ScoredItem(last.itemId, ChannelScore(base, last, |items|)));
      }
    }
  }

  /** The collected list holds exactly the positive ids of the three channels, each with the score
      of its first mention. */
  lemma {:induction false} ChannelsMeaning(b: Behaviors, first: real, second: real, third: real, x: ScoredItem)
    ensures x in Channels(b, first, second, third) <==>
              x.itemId > 0 && x.score == SeedScore(b, first, second, third, x.itemId) &&
              (FirstAt(b.recentLiked, x.itemId) < |b.recentLiked| || FirstAt(b.liked, x.itemId) < |b.liked| ||
               FirstAt(b.interested, x.itemId) < |b.interested|)
  {
    hide AppendChannel, PlaceScore;
    var one := AppendChannel(b.recentLiked, first, []);
    var two := AppendChannel(b.liked, second, one);
    ChannelMeaning(b.recentLiked, first, [], x);
    ChannelMeaning(b.liked, second, one, x);
    ChannelMeaning(b.interested, third, two, x);
    ChannelHas(b.recentLiked, first, [], x.itemId);
    ChannelHas(b.liked, second, one, x.itemId);
  }

  // ----- the filter set ---------------------------------------------------------------------

  predicate MentionsItem(items: seq<WeightedItem>, id: int) {
    exists i :: 0 <= i < |items| && items[i].itemId == id
  }

  /** Every item the user has touched, with a positive id. */
  ghost predicate IsFilter(b: Behaviors, filter: set<nat>) {
    forall id: nat :: id in filter <==>
      id > 0 && (MentionsItem(b.recentLiked, id) || MentionsItem(b.liked, id) || MentionsItem(b.interested, id)
                 || id in b.rated || MentionsItem(b.negative, id))
  }

  method AppendItemIdsToFilterOut(items: seq<WeightedItem>, acc: set<nat>) returns (r: set<nat>)
    ensures forall id :: id in r <==> id in acc || (id > 0 && MentionsItem(items, id))
  {
    r := acc;
    for i := 0 to |items|
      invariant forall id :: id in r <==> id in acc || (id > 0 && exists j :: 0 <= j < i && items[j].itemId == id)
    {
      if items[i].itemId > 0 {
        r := r + {items[i].itemId};
      }
    }
  }

  method CollectItemIdsToFilterOut(b: Behaviors) returns (filter: set<nat>)
    ensures IsFilter(b, filter)
  {
    filter := AppendItemIdsToFilterOut(b.recentLiked, {});
    filter := AppendItemIdsToFilterOut(b.liked, filter);
    filter := AppendItemIdsToFilterOut(b.interested, filter);
    ghost var liked := filter;
    for i := 0 to |b.rated|
      invariant forall id :: id in filter <==> id in liked || (id > 0 && id in b.rated[..i])
    {
      assert b.rated[..i + 1] == b.rated[..i] + [b.rated[i]];
      if b.rated[i] > 0 {
        filter := filter + {b.rated[i]};
      }
    }
    assert b.rated[..|b.rated|] == b.rated;
    filter := AppendItemIdsToFilterOut(b.negative, filter);
  }

  // ----- edges ----------------------------------------------------------------------------------

  /** The unfiltered edges of one seed, in row order. */
  function RowEdges(seed: TriggerSeed, row: seq<ScoredItem>, filter: set<nat>): seq<Edge> {
    if row == [] then []
    else
      var last := row[|row| - 1];
      RowEdges(seed, row[..|row| - 1], filter) + (if last.itemId in filter then [] else [Edge(seed, last)])
  }

  function EdgesOf(seeds: seq<TriggerSeed>, rows: seq<seq<ScoredItem>>, filter: set<nat>): seq<Edge>
    requires |seeds| == |rows|
  {
    if seeds == [] then []
    else
      var n := |seeds| - 1;
      EdgesOf(seeds[..n], rows[..n], filter) + RowEdges(seeds[n], rows[n], filter)
  }

  lemma {:induction false} EdgesAppend(seeds: seq<TriggerSeed>, rows: seq<seq<ScoredItem>>, filter: set<nat>,
          s: TriggerSeed, row: seq<ScoredItem>)
    requires |seeds| == |rows|
    ensures EdgesOf(seeds + [s], rows + [row], filter) == EdgesOf(seeds, rows, filter) + RowEdges(s, row, filter)
  {
    assert (seeds + [s])[..|seeds|] == seeds && (rows + [row])[..|rows|] == rows;
  }

  lemma {:induction false} EdgesUnfiltered(seeds: seq<TriggerSeed>, rows: seq<seq<ScoredItem>>, filter: set<nat>,
          e: Edge)
    requires |seeds| == |rows| && e in EdgesOf(seeds, rows, filter)
    ensures e.item.itemId !in filter && exists i :: 0 <= i < |seeds| && e.seed == seeds[i] && e.item in rows[i]
  {
    var n := |seeds| - 1;
    if e in EdgesOf(seeds[..n], rows[..n], filter) {
      EdgesUnfiltered(seeds[..n], rows[..n], filter, e);
      var i :| 0 <= i < n && e.seed == seeds[..n][i] && e.item in rows[..n][i];
      assert e.seed == seeds[i] && e.item in rows[i];
    } else {
      RowUnfiltered(seeds[n], rows[n], filter, e);
    }
  }

  lemma {:induction false} RowUnfiltered(seed: TriggerSeed, row: seq<ScoredItem>, filter: set<nat>, e: Edge)
    requires e in RowEdges(seed, row, filter)
    ensures e.item.itemId !in filter && e.seed == seed && e.item in row
  {
    if row != [] && e in RowEdges(seed, row[..|row| - 1], filter) {
      RowUnfiltered(seed, row[..|row| - 1], filter, e);
    }
  }

  /** No filtered item enters the pool. */
  lemma {:induction false} FilteredNeverReached(seeds: seq<TriggerSeed>, rows: seq<seq<ScoredItem>>, filter: set<nat>,
          id: nat)
    requires |seeds| == |rows| && id in filter
    ensures id !in Accumulate(EdgesOf(seeds, rows, filter))
  {
    var edges := EdgesOf(seeds, rows, filter);
    PoolMeaning(edges, id);
    if Reached(edges, id) {
      var i :| 0 <= i < |edges| && Counts(edges[i]) && edges[i].item.itemId == id;
      EdgesUnfiltered(seeds, rows, filter, edges[i]);
    }
  }

  method AggregateRow(seed: TriggerSeed, row: seq<ScoredItem>, filter: set<nat>, pool: map<nat, CandidateScore>,
          ghost edges: seq<Edge>)
    returns (r: map<nat, CandidateScore>)
    requires pool == Accumulate(edges)
    ensures r == Accumulate(edges + RowEdges(seed, row, filter))
  {
    hide AddEdge, Accumulate;
    r := pool;
    assert edges + [] == edges;
    for j := 0 to |row|
      invariant r == Accumulate(edges + RowEdges(seed, row[..j], filter))
    {
      assert row[..j + 1][..j] == row[..j];
      ghost var was := edges + RowEdges(seed, row[..j], filter);
      if row[j].itemId in filter {
        assert RowEdges(seed, row[..j + 1], filter) == RowEdges(seed, row[..j], filter) + [] ==
               RowEdges(seed, row[..j], filter);
        continue;
      }
      AccumulateAppend(was, Edge(seed, row[j]));
      assert was + [Edge(seed, row[j])] == edges + RowEdges(seed, row[..j + 1], filter);
      r := AddCandidateContribution(seed, row[j], r);
    }
    assert row[..|row|] == row;
  }

  // ----- batched lookups ----------------------------------------------------------------------------

  function IdsOf(seeds: seq<TriggerSeed>): (r: seq<nat>)
    ensures |r| == |seeds|
  {
    seq(|seeds|, i requires 0 <= i < |seeds| => seeds[i].entityId)
  }

  /** All rows, gathered batch by batch; a failed or short batch fails the whole lookup. */
  function GatherBatches(find: (seq<nat>, int) -> Lookup, ids: seq<nat>, max: int, batch: nat, start: nat): Lookup
    requires batch > 0 && start <= |ids|
    decreases |ids| - start
  {
    if start == |ids| then Rows([])
    else
      var end := Min(start + batch, |ids|);
      match find(ids[start..end], max)
      case LookupFailed => LookupFailed
      case Rows(rows) =>
        if |rows| != end - start then LookupFailed
        else match GatherBatches(find, ids, max, batch, end)
          case LookupFailed => LookupFailed
          case Rows(rest) => Rows(rows + rest)
  }

  method AggregateSimilarityBatch(rows: seq<seq<ScoredItem>>, seeds: seq<TriggerSeed>, start: nat, filter: set<nat>,
                                  pool: map<nat, CandidateScore>, ghost done: seq<seq<ScoredItem>>)
    returns (r: map<nat, CandidateScore>)
    requires start + |rows| <= |seeds| && |done| == start
    requires pool == Accumulate(EdgesOf(seeds[..start], done, filter))
    ensures r == Accumulate(EdgesOf(seeds[..start + |rows|], done + rows, filter))
  {
    hide Accumulate, EdgesOf;
    r := pool;
    assert done + rows[..0] == done;
    for i := 0 to |rows|
      invariant r == Accumulate(EdgesOf(seeds[..start + i], done + rows[..i], filter))
    {
      EdgesAppend(seeds[..start + i], done + rows[..i], filter, seeds[start + i], rows[i]);
      assert seeds[..start + i] + [seeds[start + i]] == seeds[..start + i + 1];
      assert done + rows[..i] + [rows[i]] == done + rows[..i + 1];
      r := AggregateRow(seeds[start + i], rows[i], filter, r, EdgesOf(seeds[..start + i], done + rows[..i], filter));
    }
    assert rows[..|rows|] == rows;
  }

  method AggregateSimilarityCandidates(find: (seq<nat>, int) -> Lookup, seeds: seq<TriggerSeed>, max: int, batch: nat,
          filter: set<nat>)
    returns (pool: Option<map<nat, CandidateScore>>)
    requires batch > 0
    ensures match GatherBatches(find, IdsOf(seeds), max, batch, 0)
            case LookupFailed => pool == None
            case Rows(rows) => |rows| == |seeds| && pool == Some(Accumulate(EdgesOf(seeds, rows, filter)))
  {
    hide Accumulate, EdgesOf;
    var ids := IdsOf(seeds);
    var candidates: map<nat, CandidateScore> := map[];
    ghost var done: seq<seq<ScoredItem>> := [];
    ghost var whole := GatherBatches(find, ids, max, batch, 0);
    var start := 0;
    NoEdges(filter);
    assert seeds[..0] == [];
    while start < |seeds|
      invariant 0 <= start <= |seeds| && |done| == start
      invariant candidates == Accumulate(EdgesOf(seeds[..start], done, filter))
      invariant whole == match GatherBatches(find, ids, max, batch, start)
                         case LookupFailed => LookupFailed
                         case Rows(rest) => Rows(done + rest)
    {
      var end := Min(start + batch, |seeds|);
      var found := find(ids[start..end], max);
      if found.LookupFailed? || |found.rows| != end - start {
        return None;
      }
      candidates := AggregateSimilarityBatch(found.rows, seeds, start, filter, candidates, done);
      GatherStep(find, ids, max, batch, start, done);
      done := done + found.rows;
      start := end;
    }
    assert seeds[..|seeds|] == seeds;
    assert done + [] == done;
    pool := Some(candidates);
  }

  lemma {:induction false} NoEdges(filter: set<nat>)
    ensures Accumulate(EdgesOf([], [], filter)) == map[]
  {
  }

  lemma {:induction false} GatherStep(find: (seq<nat>, int) -> Lookup, ids: seq<nat>, max: int, batch: nat, start: nat,
          done: seq<seq<ScoredItem>>)
    requires batch > 0 && start < |ids|
    requires var end := Min(start + batch, |ids|);
             var found := find(ids[start..end], max);
             found.Rows? && |found.rows| == end - start
    ensures var end := Min(start + batch, |ids|);
            var found := find(ids[start..end], max);
            (match GatherBatches(find, ids, max, batch, start)
             case LookupFailed => LookupFailed
             case Rows(rest) => Rows(done + rest)) ==
            (match GatherBatches(find, ids, max, batch, end)
             case LookupFailed => LookupFailed
             case Rows(rest) => Rows(done + found.rows + rest))
  {
    var end := Min(start + batch, |ids|);
    var found := find(ids[start..end], max);
    match GatherBatches(find, ids, max, batch, end) {
      case LookupFailed =>
      case Rows(rest) => assert done + (found.rows + rest) == done + found.rows + rest;
    }
  }

  /** The store answers a batch as it answers its items one by one, failures included. */
  ghost predicate Pointwise(find: (seq<nat>, int) -> Lookup, single: (nat, int) -> Option<seq<ScoredItem>>) {
    forall ids, max :: find(ids, max) == EachOf(single, ids, max)
  }

  /** For such a store the batch size is invisible: every size gathers the same rows, or fails. */
  lemma {:induction false} BatchSizeInvisible(
    find: (seq<nat>, int) -> Lookup, single: (nat, int) -> Option<seq<ScoredItem>>,
    ids: seq<nat>, max: int, batch: nat, start: nat)
    requires batch > 0 && start <= |ids| && Pointwise(find, single)
    ensures GatherBatches(find, ids, max, batch, start) == EachOf(single, ids[start..], max)
    decreases |ids| - start
  {
    hide EachOf;
    if start == |ids| {
      EachRow(single, [], max, []);
    } else {
      var end := Min(start + batch, |ids|);
      BatchSizeInvisible(find, single, ids, max, batch, end);
      assert find(ids[start..end], max) == EachOf(single, ids[start..end], max);
      assert ids[start..] == ids[start..end] + ids[end..];
      EachConcat(single, ids[start..end], ids[end..], max);
    }
  }

  /** Lookups that cannot fail, and their rows. */
  function RowsFor(single: (nat, int) -> seq<ScoredItem>, ids: seq<nat>, max: int): (r: seq<seq<ScoredItem>>)
    ensures |r| == |ids|
  {
    seq(|ids|, i requires 0 <= i < |ids| => single(ids[i], max))
  }

  function Always(single: (nat, int) -> seq<ScoredItem>): (nat, int) -> Option<seq<ScoredItem>> {
    (id: nat, max: int) => Some(single(id, max))
  }

  lemma {:induction false} GatherTotal(
    find: (seq<nat>, int) -> Lookup, single: (nat, int) -> seq<ScoredItem>, ids: seq<nat>, max: int, batch: nat)
    requires batch > 0 && Pointwise(find, Always(single))
    ensures GatherBatches(find, ids, max, batch, 0) == Rows(RowsFor(single, ids, max))
  {
    hide GatherBatches, EachOf, Pointwise;
    BatchSizeInvisible(find, Always(single), ids, max, batch, 0);
    assert ids[0..] == ids;
    EachRow(Always(single), ids, max, RowsFor(single, ids, max));
  }

  // ----- the retriever --------------------------------------------------------------------------------

  datatype Outcome = EmptyTriggerSeeds | SystemError | Success(candidates: seq<Candidates.Candidate>)

  const ITEM_CF := "item_cf"
  const REASON_TYPE_ITEM_CF := 2
  const ENTITY_TYPE_ITEM := 1

  /** How the item-based retriever reports. */
  function ItemStyle(multiplier: real, describe: nat -> string): Style {
    Style("item_cf", 2, 1, multiplier, describe)
  }

  lemma {:induction false} AccumulateKeyed(edges: seq<Edge>)
    ensures KeyedById(Accumulate(edges))
  {
    forall id | id in Accumulate(edges) ensures Accumulate(edges)[id].itemId == id {
      PoolMeaning(edges, id);
    }
  }

  ghost function ItemPool(seeds: seq<TriggerSeed>, rows: seq<seq<ScoredItem>>,
          filter: set<nat>): (r: map<nat, CandidateScore>)
    requires |seeds| == |rows|
    ensures KeyedById(r)
  {
    AccumulateKeyed(EdgesOf(seeds, rows, filter));
    Accumulate(EdgesOf(seeds, rows, filter))
  }

  method Retrieve(b: Behaviors, find: (seq<nat>, int) -> Lookup, maxSeeds: int, batch: nat, max: int, multiplier: real,
          describe: nat -> string)
    returns (outcome: Outcome, filter: set<nat>)
    requires batch > 0
    ensures IsFilter(b, filter)
    ensures var seeds := SelectTop(ToSeeds(Channels(b, 1.0, 0.5, 0.3)), maxSeeds);
            if seeds == [] then outcome == EmptyTriggerSeeds
            else match GatherBatches(find, IdsOf(seeds), max, batch, 0)
              case LookupFailed => outcome == SystemError
              case Rows(rows) =>
                |rows| == |seeds| && outcome == Success(ToResponse(
                  TopOfPool(ItemPool(seeds, rows, filter), max),
                  ITEM_CF, REASON_TYPE_ITEM_CF, ENTITY_TYPE_ITEM, multiplier, describe)) &&
                AnswersEdges(EdgesOf(seeds, rows, filter), max, ItemStyle(multiplier, describe), outcome.candidates)
  {
    hide Accumulate, Channels, SelectTop, EdgesOf, AnswersEdges;
    var collected := CollectTriggerSeeds(b);
    SeedsDistinct(b);
    var seeds := SelectTopTriggerSeeds(collected, maxSeeds);
    var excluded := CollectItemIdsToFilterOut(b);
    filter := excluded;
    if seeds == [] {
      return EmptyTriggerSeeds, filter;
    }
    var pool := AggregateSimilarityCandidates(find, seeds, max, batch, excluded);
    if pool == None {
      return SystemError, filter;
    }
    ghost var rows := GatherBatches(find, IdsOf(seeds), max, batch, 0).rows;
    AccumulateKeyed(EdgesOf(seeds, rows, excluded));
    var response := FillResponseCandidates(pool.value, max, ITEM_CF, REASON_TYPE_ITEM_CF, ENTITY_TYPE_ITEM, multiplier,
      describe);
    ResponseAnswers(EdgesOf(seeds, rows, excluded), max, ItemStyle(multiplier, describe));
    outcome := Success(response);
  }
}
