/** The offline fixture's own collaborative filtering, and its agreement with the online
    retrievers on clean similarity rows. */
module OfflineMirror {
  import opened Arithmetic
  import opened Orders
  import opened Sums
  import opened Aggregation
  import opened ItemCf
  import opened Lookups
  import opened Options
  import opened UserCf

  datatype Listed = Listed(id: nat, score: real)

  predicate HigherListed(a: Listed, b: Listed) {
    a.score > b.score || (a.score == b.score && a.id < b.id)
  }

  lemma {:induction false} ListedTotal(S: set<Listed>)
    ensures TotalOn(HigherListed, S)
  {
  }

  // ----- similarity rows ---------------------------------------------------------------------

  function NormalizedRow(entity: nat, row: seq<ScoredItem>): seq<ScoredItem> {
    if row == [] then []
    else
      var last := row[|row| - 1];
      var r := NormalizedRow(entity, row[..|row| - 1]);
      if last.itemId == 0 || last.itemId == entity || last.score <= 0.0 || HasItem(r, last.itemId)
      then r else r + [last]
  }

  /** Positive scores and ids, no repeats, not the entity itself. */
  ghost predicate CleanRow(entity: nat, row: seq<ScoredItem>) {
    && (forall i :: 0 <= i < |row| ==> row[i].itemId != 0 && row[i].itemId != entity && row[i].score > 0.0)
    && (forall i, j :: 0 <= i < j < |row| ==> row[i].itemId != row[j].itemId)
  }

  method NormalizeSimilarityRow(entity: nat, row: seq<ScoredItem>) returns (r: seq<ScoredItem>)
    ensures r == NormalizedRow(entity, row)
  {
    r := [];
    var seen: set<nat> := {};
    for i := 0 to |row|
      invariant r == NormalizedRow(entity, row[..i]) && forall id :: id in seen <==> HasItem(r, id)
    {
      assert row[..i + 1][..i] == row[..i];
      if row[i].itemId == 0 || row[i].itemId == entity || row[i].score <= 0.0 {
        continue;
      }
      if row[i].itemId in seen {
        continue;
      }
      HasItemAppend(r, row[i]);
      seen := seen + {row[i].itemId};
      r := r + [row[i]];
    }
    assert row[..|row|] == row;
  }

  /** Normalisation changes nothing exactly when the row is clean. */
  lemma {:induction false} CleanRowsUnchanged(entity: nat, row: seq<ScoredItem>)
    ensures CleanRow(entity, NormalizedRow(entity, row))
    ensures NormalizedRow(entity, row) == row <==> CleanRow(entity, row)
  {
    if row != [] {
      var n := |row| - 1;
      CleanRowsUnchanged(entity, row[..n]);
      var r := NormalizedRow(entity, row[..n]);
      assert row == row[..n] + [row[n]];
      if CleanRow(entity, row) {
        assert r == row[..n];
        assert !HasItem(r, row[n].itemId);
      }
    }
  }

  /** The offline table: every row of the file, normalised as it is read. */
  function NormalizedTable(table: map<nat, seq<ScoredItem>>): map<nat, seq<ScoredItem>> {
    map id | id in table :: NormalizedRow(id, table[id])
  }

  lemma {:induction false} CleanTableUnchanged(table: map<nat, seq<ScoredItem>>)
    requires forall id :: id in table ==> CleanRow(id, table[id])
    ensures NormalizedTable(table) == table
  {
    forall id | id in table ensures NormalizedRow(id, table[id]) == table[id] {
      CleanRowsUnchanged(id, table[id]);
    }
  }

  function AsItems(row: seq<UserNeighbor>): seq<ScoredItem> {
    seq(|row|, i requires 0 <= i < |row| => ScoredItem(row[i].userId, row[i].score))
  }

  function AsUsers(row: seq<ScoredItem>): seq<UserNeighbor> {
    seq(|row|, i requires 0 <= i < |row| => UserNeighbor(row[i].itemId, row[i].score))
  }

  /** A similar-user row after normalisation. */
  function NormalizedUsers(user: nat, row: seq<UserNeighbor>): seq<UserNeighbor> {
    AsUsers(NormalizedRow(user, AsItems(row)))
  }

  lemma {:induction false} CleanUsersUnchanged(user: nat, row: seq<UserNeighbor>)
    requires CleanRow(user, AsItems(row))
    ensures NormalizedUsers(user, row) == row
  {
    CleanRowsUnchanged(user, AsItems(row));
    assert AsUsers(AsItems(row)) == row;
  }

  // ----- the score dictionary ------------------------------------------------------------------

  method AddCandidateScore(scores: map<nat, real>, id: nat, contribution: real) returns (r: map<nat, real>)
    ensures r == if id == 0 || contribution <= 0.0 then scores
                 else scores[id := (if id in scores then scores[id] else 0.0) + contribution]
  {
    if id <= 0 || contribution <= 0.0 {
      return scores;
    }
    r := scores[id := (if id in scores then scores[id] else 0.0) + contribution];
  }

  /** The dictionary holds the reached items with their summed contributions. */
  ghost predicate ScoresOf(scores: map<nat, real>, edges: seq<Edge>) {
    forall id :: (id in scores <==> Reached(edges, id)) && (id in scores ==> scores[id] == SumBy(edges, ShareOf(id)))
  }

  lemma {:induction false} ScoresStep(scores: map<nat, real>, edges: seq<Edge>, e: Edge)
    requires ScoresOf(scores, edges) && e.seed.score > 0.0
    ensures ScoresOf(if e.item.itemId == 0 || Contribution(e) <= 0.0 then scores
                     else scores[e.item.itemId :=
                       (if e.item.itemId in scores then scores[e.item.itemId] else 0.0) + Contribution(e)],
                     edges + [e])
  {
    hide Reached, Contribution;
    PositiveEdge(e);
    forall id: nat ensures Reached(edges + [e], id) <==> Reached(edges, id) || (Counts(e) && e.item.itemId == id)
                   ensures SumBy(edges + [e], ShareOf(id)) == SumBy(edges, ShareOf(id)) + Share(e, id)
                   ensures !Reached(edges, id) ==> SumBy(edges, ShareOf(id)) == 0.0 {
      ReachedStep(edges, e, id);
      SumByAppend(edges, e, ShareOf(id));
      if !Reached(edges, id) { UnreachedSum(edges, id); }
    }
  }

  /** Under a positive seed the one offline guard equals the three online ones. */
  lemma {:induction false} PositiveEdge(e: Edge)
    requires e.seed.score > 0.0
    ensures Counts(e) <==> e.item.itemId != 0 && Contribution(e) > 0.0
  {
    if Contribution(e) > 0.0 {
      SignOfFactor(e.seed.score, e.item.score);
      assert e.item.score == 0.0 ==> Contribution(e) == 0.0;
    }
  }

  method AddRow(scores: map<nat, real>, seed: TriggerSeed, row: seq<ScoredItem>, filter: set<nat>, filtered: nat,
          ghost edges: seq<Edge>)
    returns (r: map<nat, real>, filtered': nat)
    requires ScoresOf(scores, edges) && seed.score > 0.0
    ensures ScoresOf(r, edges + RowEdges(seed, row, filter))
    ensures filtered' == filtered + |RowEdges(seed, row, {})| - |RowEdges(seed, row, filter)|
  {
    hide ScoresOf, Contribution;
    r, filtered' := scores, filtered;
    assert edges + [] == edges;
    for j := 0 to |row|
      invariant ScoresOf(r, edges + RowEdges(seed, row[..j], filter))
      invariant filtered' == filtered + |RowEdges(seed, row[..j], {})| - |RowEdges(seed, row[..j], filter)|
    {
      assert row[..j + 1][..j] == row[..j];
      var e := Edge(seed, row[j]);
      ghost var was := edges + RowEdges(seed, row[..j], filter);
      if row[j].itemId in filter {
        filtered' := filtered' + 1;
        assert RowEdges(seed, row[..j + 1], filter) == RowEdges(seed, row[..j], filter) + [] ==
               RowEdges(seed, row[..j], filter);
        continue;
      }
      ScoresStep(r, was, e);
      assert was + [e] == edges + RowEdges(seed, row[..j + 1], filter);
      r := AddCandidateScore(r, row[j].itemId, Contribution(e));
    }
    assert row[..|row|] == row;
  }

  // ----- sorting and cutting --------------------------------------------------------------------

  ghost function ListedSet(scores: map<nat, real>): set<Listed> {
    set id | id in scores :: Listed(id, scores[id])
  }

  method SortScores(scores: map<nat, real>, max: nat) returns (out: seq<Listed>)
    ensures IsTopK(HigherListed, max, ListedSet(scores), out)
  {
    var S := set id | id in scores :: Listed(id, scores[id]);
    ListedTotal(S);
    var entries := Enumerate(S);
    var sorted := SortDistinct(HigherListed, entries);
    out := sorted[..Min(max, |sorted|)];
    if max <= |S| {
      TopKPrefix(HigherListed, |S|, S, sorted, max);
    } else {
      assert out == sorted;
    }
  }

  /** The online list as ids and scores. */
  function ListedOf(s: seq<CandidateScore>): (r: seq<Listed>)
    ensures |r| == |s|
  {
    seq(|s|, i requires 0 <= i < |s| => Listed(s[i].itemId, s[i].score))
  }

  lemma {:induction false} ListedSorted(pool: map<nat, CandidateScore>, all: seq<CandidateScore>,
          scores: map<nat, real>)
    requires KeyedById(pool) && Sorted(HigherScore, all) && Elems(all) == pool.Values
    requires pool.Keys == scores.Keys && forall id :: id in pool ==> scores[id] == pool[id].score
    ensures Sorted(HigherListed, ListedOf(all)) && Elems(ListedOf(all)) == ListedSet(scores)
  {
    var l := ListedOf(all);
    forall i, j | 0 <= i < j < |l| ensures HigherListed(l[i], l[j]) {
      assert HigherScore(all[i], all[j]);
    }
    forall x ensures x in Elems(l) <==> x in ListedSet(scores) {
      if x in Elems(l) {
        var i :| 0 <= i < |l| && l[i] == x;
        assert all[i] in Elems(all);
        var id :| id in pool && pool[id] == all[i];
        assert x == Listed(id, scores[id]);
      }
      if x in ListedSet(scores) {
        var id :| id in scores && x == Listed(id, scores[id]);
        assert pool[id] in pool.Values;
        assert pool[id] in Elems(all);
        var i :| 0 <= i < |all| && all[i] == pool[id];
        assert l[i] == x;
      }
    }
  }

  /** Equal pools give equal lists, whatever the two programs iterate over. */
  lemma {:induction false} SamePoolSameList(pool: map<nat, CandidateScore>, scores: map<nat, real>, max: nat,
          out: seq<Listed>)
    requires KeyedById(pool)
    requires pool.Keys == scores.Keys && forall id :: id in pool ==> scores[id] == pool[id].score
    requires IsTopK(HigherListed, max, ListedSet(scores), out)
    ensures ListedOf(TopOfPool(pool, max)) == out
  {
    hide StrictOrder, TotalOn, IsTopK;
    PoolTotal(pool);
    var all := SortSet(HigherScore, pool.Values);
    SetOrders(pool, scores);
    ListedSorted(pool, all, scores);
    var S := ListedSet(scores);
    SortedIsTopK(HigherListed, S, ListedOf(all));
    SortedIsTopK(HigherScore, pool.Values, all);
    TopKSize(HigherListed, |S|, S, ListedOf(all));
    var n := Min(max, |all|);
    CutBoth(HigherListed, S, ListedOf(all), max);
    CutBoth(HigherScore, pool.Values, all, max);
    TopKUnique(HigherListed, max, S, ListedOf(all)[..n], out);
    TopKUnique(HigherScore, max, pool.Values, all[..n], TopOfPool(pool, max));
    assert ListedOf(all[..n]) == ListedOf(all)[..n];
  }

  lemma {:induction false} SetOrders(pool: map<nat, CandidateScore>, scores: map<nat, real>)
    requires KeyedById(pool)
    ensures StrictOrder(HigherScore) && StrictOrder(HigherListed) && TotalOn(HigherListed, ListedSet(scores))
  {
  }

  lemma {:induction false} TopKSize<T(!new)>(before: (T, T) -> bool, k: nat, S: set<T>, out: seq<T>)
    requires IsTopK(before, k, S, out)
    ensures |out| == Min(k, |S|)
  {
  }

  lemma {:induction false} CutBoth<T(!new)>(before: (T, T) -> bool, S: set<T>, all: seq<T>, max: nat)
    requires StrictOrder(before) && IsTopK(before, |S|, S, all)
    ensures IsTopK(before, max, S, all[..Min(max, |all|)])
  {
    if max <= |S| {
      TopKPrefix(before, |S|, S, all, max);
    } else {
      assert all[..|all|] == all;
    }
  }

  lemma {:induction false} PoolScores(edges: seq<Edge>, scores: map<nat, real>)
    requires ScoresOf(scores, edges)
    ensures KeyedById(Accumulate(edges)) && Accumulate(edges).Keys == scores.Keys
    ensures forall id :: id in Accumulate(edges) ==> scores[id] == Accumulate(edges)[id].score
  {
    AccumulateKeyed(edges);
    forall id: nat ensures id in Accumulate(edges) <==> id in scores
                   ensures id in scores ==> scores[id] == Accumulate(edges)[id].score {
      PoolMeaning(edges, id);
    }
  }

  /** An offline list holds ids with their dictionary scores, the higher first, then the smaller id;
      an id is missing only from a full list, all of which comes before it. */
  lemma {:induction false} OfflineListMeaning(scores: map<nat, real>, max: nat, out: seq<Listed>)
    requires IsTopK(HigherListed, max, ListedSet(scores), out)
    ensures |out| <= max
    ensures forall i :: 0 <= i < |out| ==> out[i].id in scores && out[i].score == scores[out[i].id]
    ensures forall i, j :: 0 <= i < j < |out| ==>
              out[i].score > out[j].score || (out[i].score == out[j].score && out[i].id < out[j].id)
    ensures forall id :: id in scores && (forall i :: 0 <= i < |out| ==> out[i].id != id) ==>
              |out| == max &&
              forall i :: 0 <= i < |out| ==>
                out[i].score > scores[id] || (out[i].score == scores[id] && out[i].id < id)
  {
    var S := ListedSet(scores);
    ListedTotal(S);
    forall i | 0 <= i < |out| ensures out[i].id in scores && out[i].score == scores[out[i].id] {
      assert out[i] in Elems(out);
    }
    forall i, j | 0 <= i < j < |out|
      ensures out[i].score > out[j].score || (out[i].score == out[j].score && out[i].id < out[j].id) {
      assert HigherListed(out[i], out[j]);
    }
    forall id | id in scores && (forall i :: 0 <= i < |out| ==> out[i].id != id)
      ensures |out| == max
      ensures forall i :: 0 <= i < |out| ==>
                out[i].score > scores[id] || (out[i].score == scores[id] && out[i].id < id) {
      MissingListed(S, max, out, Listed(id, scores[id]));
    }
  }

  lemma {:induction false} MissingListed(S: set<Listed>, max: nat, out: seq<Listed>, x: Listed)
    requires IsTopK(HigherListed, max, S, out) && x in S && forall i :: 0 <= i < |out| ==> out[i].id != x.id
    ensures |out| == max
    ensures forall i :: 0 <= i < |out| ==> HigherListed(out[i], x)
  {
    hide HigherListed, Sorted;
    ListedTotal(S);
    assert x !in out;
    if |out| < max {
      SortedNoDup(HigherListed, out);
      ElemsCard(out);
      SubsetCard(Elems(out) + {x}, S);
    }
  }

  // ----- item-based mirror -------------------------------------------------------------------------

  method CollectTriggerSeedsOffline(b: Behaviors, max: nat) returns (seeds: seq<TriggerSeed>)
    ensures TotalOn(HigherSeed, Elems(ToSeeds(Channels(b, 1.0, 0.5, 0.3))))
    ensures seeds == TopK(HigherSeed, max, Elems(ToSeeds(Channels(b, 1.0, 0.5, 0.3))))
  {
    hide Channels;
    var items := CollectChannels(b, 1.0, 0.5, 0.3);
    var collected := ToSeeds(items);
    SeedsDistinct(b);
    SeedsTotal(Elems(collected));
    var sorted := SortDistinct(HigherSeed, collected);
    ElemsCard(collected);
    seeds := sorted[..Min(max, |sorted|)];
    CutBoth(HigherSeed, Elems(collected), sorted, max);
    TopKUnique(HigherSeed, max, Elems(collected), seeds, TopK(HigherSeed, max, Elems(collected)));
  }

  /** One row cut to the candidate limit, as both programs read it. */
  function CutRow(table: map<nat, seq<ScoredItem>>, id: nat, max: int): seq<ScoredItem> {
    if id == 0 || max <= 0 || id !in table then [] else table[id][..Min(max, |table[id]|)]
  }

  /** The local file store as a function. */
  function LocalStore(table: map<nat, seq<ScoredItem>>): (nat, int) -> seq<ScoredItem> {
    (id: nat, max: int) => CutRow(table, id, max)
  }

  /** The edges the filter takes away. */
  function FilteredOut(seeds: seq<TriggerSeed>, rows: seq<seq<ScoredItem>>, filter: set<nat>): int
    requires |seeds| == |rows|
  {
    |EdgesOf(seeds, rows, {})| - |EdgesOf(seeds, rows, filter)|
  }

  lemma {:induction false} FilteredOutAppend(seeds: seq<TriggerSeed>, rows: seq<seq<ScoredItem>>, filter: set<nat>,
          s: TriggerSeed, row: seq<ScoredItem>)
    requires |seeds| == |rows|
    ensures FilteredOut(seeds + [s], rows + [row], filter) ==
            FilteredOut(seeds, rows, filter) + |RowEdges(s, row, {})| - |RowEdges(s, row, filter)|
  {
    EdgesAppend(seeds, rows, filter, s, row);
    EdgesAppend(seeds, rows, {}, s, row);
  }

  /** The sorted, cut list, the score dictionary it was read from, and the number of edges filtered out. */
  method AggregateItemCf(seeds: seq<TriggerSeed>, filter: set<nat>, table: map<nat, seq<ScoredItem>>, max: nat)
    returns (out: seq<Listed>, filtered: nat, scores: map<nat, real>)
    requires forall i :: 0 <= i < |seeds| ==> seeds[i].score > 0.0 && seeds[i].entityId != 0
    ensures filtered == FilteredOut(seeds, RowsFor(LocalStore(table), IdsOf(seeds), max), filter)
    ensures ScoresOf(scores, EdgesOf(seeds, RowsFor(LocalStore(table), IdsOf(seeds), max), filter))
    ensures IsTopK(HigherListed, max, ListedSet(scores), out)
  {
    hide ScoresOf, EdgesOf, FilteredOut;
    var sums: map<nat, real> := map[];
    filtered := 0;
    ghost var rows := RowsFor(LocalStore(table), IdsOf(seeds), max);
    NoScores(filter);
    assert seeds[..0] == [] && rows[..0] == [];
    for i := 0 to |seeds|
      invariant ScoresOf(sums, EdgesOf(seeds[..i], rows[..i], filter))
      invariant filtered == FilteredOut(seeds[..i], rows[..i], filter)
    {
      var seed := seeds[i];
      EdgesAppend(seeds[..i], rows[..i], filter, seed, rows[i]);
      FilteredOutAppend(seeds[..i], rows[..i], filter, seed, rows[i]);
      assert seeds[..i] + [seed] == seeds[..i + 1] && rows[..i] + [rows[i]] == rows[..i + 1];
      assert rows[i] == CutRow(table, seed.entityId, max);
      if seed.entityId !in table {
        EmptyRow(EdgesOf(seeds[..i], rows[..i], filter), seed, filter);
        continue;
      }
      var row := table[seed.entityId][..Min(max, |table[seed.entityId]|)];
      sums, filtered := AddRow(sums, seed, row, filter, filtered, EdgesOf(seeds[..i], rows[..i], filter));
    }
    assert seeds[..|seeds|] == seeds && rows[..|seeds|] == rows;
    scores := sums;
    out := SortScores(sums, max);
  }

  lemma {:induction false} NoScores(filter: set<nat>)
    ensures ScoresOf(map[], EdgesOf([], [], filter)) && FilteredOut([], [], filter) == 0
  {
    assert SumBy<Edge>([], ShareOf(0)) == 0.0;
  }

  // the order of the seeds does not matter

  function RowShareOf(single: (nat, int) -> seq<ScoredItem>, max: int, filter: set<nat>, id: nat): TriggerSeed -> real {
    (s: TriggerSeed) => SumBy(RowEdges(s, single(s.entityId, max), filter), ShareOf(id))
  }

  lemma {:induction false} EdgeSum(single: (nat, int) -> seq<ScoredItem>, max: int, filter: set<nat>,
          seeds: seq<TriggerSeed>, id: nat)
    ensures SumBy(EdgesOf(seeds, RowsFor(single, IdsOf(seeds), max), filter), ShareOf(id)) ==
            SumBy(seeds, RowShareOf(single, max, filter, id))
  {
    if seeds != [] {
      var n := |seeds| - 1;
      EdgeSum(single, max, filter, seeds[..n], id);
      assert RowsFor(single, IdsOf(seeds), max)[..n] == RowsFor(single, IdsOf(seeds[..n]), max);
      SumByConcat(EdgesOf(seeds[..n], RowsFor(single, IdsOf(seeds[..n]), max), filter),
                  RowEdges(seeds[n], single(seeds[n].entityId, max), filter), ShareOf(id));
    }
  }

  lemma {:induction false} EdgeReach(single: (nat, int) -> seq<ScoredItem>, max: int, filter: set<nat>,
          seeds: seq<TriggerSeed>, e: Edge)
    ensures e in EdgesOf(seeds, RowsFor(single, IdsOf(seeds), max), filter) <==>
            e.seed in seeds && e in RowEdges(e.seed, single(e.seed.entityId, max), filter)
  {
    if seeds != [] {
      var n := |seeds| - 1;
      EdgeReach(single, max, filter, seeds[..n], e);
      assert RowsFor(single, IdsOf(seeds), max)[..n] == RowsFor(single, IdsOf(seeds[..n]), max);
      assert seeds == seeds[..n] + [seeds[n]];
      if e in RowEdges(seeds[n], single(seeds[n].entityId, max), filter) {
        RowUnfiltered(seeds[n], single(seeds[n].entityId, max), filter, e);
      }
    }
  }

  lemma {:induction false} ReachedByMember(edges: seq<Edge>, id: nat)
    ensures Reached(edges, id) <==> exists e :: e in edges && Counts(e) && e.item.itemId == id
  {
  }

  lemma {:induction false} NoDupMultiset(a: seq<TriggerSeed>, b: seq<TriggerSeed>)
    requires NoDup(a) && NoDup(b) && Elems(a) == Elems(b)
    ensures multiset(a) == multiset(b)
  {
    forall x ensures multiset(a)[x] == multiset(b)[x] {
      OneOccurrence(a, x);
      OneOccurrence(b, x);
      assert x in a <==> x in Elems(a);
      assert x in b <==> x in Elems(b);
    }
  }

  lemma {:induction false} OneOccurrence(a: seq<TriggerSeed>, x: TriggerSeed)
    requires NoDup(a)
    ensures multiset(a)[x] == if x in a then 1 else 0
  {
    if a != [] {
      var n := |a| - 1;
      assert a == a[..n] + [a[n]];
      OneOccurrence(a[..n], x);
    }
  }

  lemma {:induction false} ScoresPermuted(single: (nat, int) -> seq<ScoredItem>, max: int, filter: set<nat>,
                                          a: seq<TriggerSeed>, b: seq<TriggerSeed>, scores: map<nat, real>)
    requires multiset(a) == multiset(b)
    requires ScoresOf(scores, EdgesOf(a, RowsFor(single, IdsOf(a), max), filter))
    ensures ScoresOf(scores, EdgesOf(b, RowsFor(single, IdsOf(b), max), filter))
  {
    hide EdgesOf, Reached, RowsFor;
    var ea, eb := EdgesOf(a, RowsFor(single, IdsOf(a), max), filter),
      EdgesOf(b, RowsFor(single, IdsOf(b), max), filter);
    forall e: Edge ensures e in ea <==> e in eb {
      EdgeReach(single, max, filter, a, e);
      EdgeReach(single, max, filter, b, e);
      assert e.seed in a <==> e.seed in multiset(a);
      assert e.seed in b <==> e.seed in multiset(b);
    }
    forall id: nat ensures Reached(ea, id) <==> Reached(eb, id)
                   ensures SumBy(ea, ShareOf(id)) == SumBy(eb, ShareOf(id)) {
      ReachedByMember(ea, id);
      ReachedByMember(eb, id);
      EdgeSum(single, max, filter, a, id);
      EdgeSum(single, max, filter, b, id);
      SumByPermuted(a, b, RowShareOf(single, max, filter, id));
    }
  }

  /** The online seeds are the offline ones, up to order. */
  lemma {:induction false} SeedsAgree(b: Behaviors, maxSeeds: nat)
    requires maxSeeds > 0
    ensures TotalOn(HigherSeed, Elems(ToSeeds(Channels(b, 1.0, 0.5, 0.3))))
    ensures multiset(SelectTop(ToSeeds(Channels(b, 1.0, 0.5, 0.3)), maxSeeds)) ==
            multiset(TopK(HigherSeed, maxSeeds, Elems(ToSeeds(Channels(b, 1.0, 0.5, 0.3)))))
    ensures forall s :: s in TopK(HigherSeed, maxSeeds, Elems(ToSeeds(Channels(b, 1.0, 0.5, 0.3)))) ==>
              s.score > 0.0 && s.entityId != 0
  {
    hide Channels;
    var all := ToSeeds(Channels(b, 1.0, 0.5, 0.3));
    SeedsDistinct(b);
    SeedsTotal(Elems(all));
    ElemsCard(all);
    var top := TopK(HigherSeed, maxSeeds, Elems(all));
    SortedNoDup(HigherSeed, top);
    forall s | s in top ensures s in all {
      assert s in Elems(top);
    }
    if |all| <= maxSeeds {
      ElemsCard(top);
      SubsetCard(Elems(top), Elems(all));
      NoDupMultiset(all, top);
    }
  }

  /** With equal limits and clean rows, the offline item-based list is the online one: the
      same ids in the same order with the same scores before the multiplier. */
  lemma {:induction false} ItemMirror(b: Behaviors, maxSeeds: nat, max: nat, table: map<nat, seq<ScoredItem>>,
          filter: set<nat>, offline: seq<TriggerSeed>, out: seq<Listed>, scores: map<nat, real>,
          find: (seq<nat>, int) -> Lookup, batch: nat)
    requires maxSeeds > 0 && batch > 0 && Pointwise(find, Always(LocalStore(table))) &&
             TotalOn(HigherSeed, Elems(ToSeeds(Channels(b, 1.0, 0.5, 0.3))))
    requires offline == TopK(HigherSeed, maxSeeds, Elems(ToSeeds(Channels(b, 1.0, 0.5, 0.3))))
    requires forall id :: id in table ==> CleanRow(id, table[id])
    requires ScoresOf(scores,
             EdgesOf(offline, RowsFor(LocalStore(NormalizedTable(table)), IdsOf(offline), max), filter))
    requires IsTopK(HigherListed, max, ListedSet(scores), out)
    ensures var online := SelectTop(ToSeeds(Channels(b, 1.0, 0.5, 0.3)), maxSeeds);
            var rows := RowsFor(LocalStore(table), IdsOf(online), max);
            && GatherBatches(find, IdsOf(online), max, batch, 0) == Rows(rows)
            && ListedOf(TopOfPool(ItemPool(online, rows, filter), max)) == out
  {
    hide Channels, SelectTop, EdgesOf, Accumulate, IsTopK, ScoresOf, RowsFor, TotalOn, GatherBatches, Pointwise;
    CleanTableUnchanged(table);
    var online := SelectTop(ToSeeds(Channels(b, 1.0, 0.5, 0.3)), maxSeeds);
    SeedsAgree(b, maxSeeds);
    GatherTotal(find, LocalStore(table), IdsOf(online), max, batch);
    ScoresPermuted(LocalStore(table), max, filter, offline, online, scores);
    var edges := EdgesOf(online, RowsFor(LocalStore(table), IdsOf(online), max), filter);
    PoolScores(edges, scores);
    SamePoolSameList(Accumulate(edges), scores, max, out);
  }

  // ----- user-based mirror ------------------------------------------------------------------------

  function CutNeighbors(row: seq<UserNeighbor>, max: nat): seq<UserNeighbor> {
    row[..Min(max, |row|)]
  }

  /** Profiles the offline program has read, as rows of the kept seeds. */
  function ProfileRows(profiles: map<nat, UserCfProfile>, seeds: seq<TriggerSeed>): (r: seq<seq<ScoredItem>>)
    ensures |r| == |seeds|
  {
    seq(|seeds|, i requires 0 <= i < |seeds| =>
      SlotRow(if seeds[i].entityId in profiles then Some(profiles[seeds[i].entityId]) else None))
  }

  lemma {:induction false} ProfileRowsAppend(profiles: map<nat, UserCfProfile>, seeds: seq<TriggerSeed>, s: TriggerSeed)
    ensures ProfileRows(profiles, seeds + [s]) ==
            ProfileRows(profiles, seeds) +
              [SlotRow(if s.entityId in profiles then Some(profiles[s.entityId]) else None)]
  {
  }

  /** The seeds whose profile was read. */
  function SeedsRead(profiles: map<nat, UserCfProfile>, seeds: seq<TriggerSeed>): set<nat> {
    set i | 0 <= i < |seeds| && seeds[i].entityId in profiles :: seeds[i].entityId
  }

  lemma {:induction false} SeedsReadAppend(profiles: map<nat, UserCfProfile>, seeds: seq<TriggerSeed>, s: TriggerSeed)
    requires !HasSeed(seeds, s.entityId)
    ensures |SeedsRead(profiles, seeds + [s])| ==
            |SeedsRead(profiles, seeds)| + (if s.entityId in profiles then 1 else 0)
  {
    var before, after := SeedsRead(profiles, seeds), SeedsRead(profiles, seeds + [s]);
    forall id ensures id in after <==> id in before || (id == s.entityId && id in profiles) {
      if id in before {
        var i :| 0 <= i < |seeds| && seeds[i].entityId in profiles && seeds[i].entityId == id;
        assert (seeds + [s])[i].entityId == id;
      }
      assert (seeds + [s])[|seeds|] == s;
    }
    assert after == if s.entityId in profiles then before + {s.entityId} else before;
  }

  method AggregateUserCf(user: nat, row: seq<UserNeighbor>, profiles: map<nat, UserCfProfile>, filter: set<nat>,
          maxNeighbors: nat, max: nat)
    returns (out: seq<Listed>, hits: nat, misses: nat, filtered: nat, scores: map<nat, real>)
    ensures var seeds := SeedsFrom(user, CutNeighbors(row, maxNeighbors));
            && ScoresOf(scores, EdgesOf(seeds, ProfileRows(profiles, seeds), filter))
            && hits == |SeedsRead(profiles, seeds)| && hits + misses == |seeds|
            && filtered == FilteredOut(seeds, ProfileRows(profiles, seeds), filter)
    ensures IsTopK(HigherListed, max, ListedSet(scores), out)
  {
    hide ScoresOf, EdgesOf, SlotRow, ProfileItems, FilteredOut, SeedsRead;
    var neighbors := CutNeighbors(row, maxNeighbors);
    var sums: map<nat, real> := map[];
    hits, misses, filtered := 0, 0, 0;
    var seen: set<nat> := {};
    ghost var seeds: seq<TriggerSeed> := [];
    NoScores(filter);
    assert ProfileRows(profiles, []) == [];
    NothingRead(profiles);
    for i := 0 to |neighbors|
      invariant seeds == SeedsFrom(user, neighbors[..i]) && hits + misses == |seeds|
      invariant hits == |SeedsRead(profiles, seeds)|
      invariant forall id :: id in seen <==> HasSeed(seeds, id)
      invariant ScoresOf(sums, EdgesOf(seeds, ProfileRows(profiles, seeds), filter))
      invariant filtered == FilteredOut(seeds, ProfileRows(profiles, seeds), filter)
    {
      assert neighbors[..i + 1][..i] == neighbors[..i];
      var n := neighbors[i];
      if n.userId <= 0 || n.userId == user || n.score <= 0.0 {
        continue;
      }
      if n.userId in seen {
        continue;
      }
      var s := TriggerSeed(n.userId, n.score);
      HasSeedAppend(seeds, s);
      seen := seen + {n.userId};
      ghost var was := EdgesOf(seeds, ProfileRows(profiles, seeds), filter);
      ghost var slot := SlotRow(if s.entityId in profiles then Some(profiles[s.entityId]) else None);
      ProfileRowsAppend(profiles, seeds, s);
      EdgesAppend(seeds, ProfileRows(profiles, seeds), filter, s, slot);
      FilteredOutAppend(seeds, ProfileRows(profiles, seeds), filter, s, slot);
      SeedsReadAppend(profiles, seeds, s);
      seeds := seeds + [s];
      if n.userId !in profiles {
        misses := misses + 1;
        MissingRow();
        EmptyRow(was, s, filter);
        continue;
      }
      hits := hits + 1;
      FoundRow(profiles[n.userId]);
      var items := CollectNeighborCandidateItems(profiles[n.userId]);
      sums, filtered := AddRow(sums, s, items, filter, filtered, was);
    }
    assert neighbors[..|neighbors|] == neighbors;
    scores := sums;
    out := SortScores(sums, max);
  }

  lemma {:induction false} NothingRead(profiles: map<nat, UserCfProfile>)
    ensures |SeedsRead(profiles, [])| == 0
  {
    assert SeedsRead(profiles, []) == {};
  }

  lemma {:induction false} MissingRow()
    ensures SlotRow(None) == []
  {
  }

  lemma {:induction false} FoundRow(p: UserCfProfile)
    ensures SlotRow(Some(p)) == ProfileItems(p)
  {
  }

  /** With equal limits and the same servable profiles, the offline user-based list is the
      online one. */
  lemma {:induction false} UserMirror(user: nat, row: seq<UserNeighbor>, profiles: map<nat, UserCfProfile>,
          store: int -> StoreAnswer, filter: set<nat>, maxNeighbors: nat, max: nat, out: seq<Listed>,
          scores: map<nat, real>)
    requires forall id: nat :: SlotFor(store, id) == if id in profiles then Some(profiles[id]) else None
    requires CleanRow(user, AsItems(row))
    requires var seeds := SeedsFrom(user, CutNeighbors(NormalizedUsers(user, row), maxNeighbors));
             ScoresOf(scores, EdgesOf(seeds, ProfileRows(profiles, seeds), filter))
    requires IsTopK(HigherListed, max, ListedSet(scores), out)
    ensures var seeds := SeedsFrom(user, CutNeighbors(row, maxNeighbors));
            ListedOf(TopOfPool(ItemPool(seeds, StoreRows(store, seeds), filter), max)) == out
  {
    hide EdgesOf, Accumulate, IsTopK, ScoresOf, SlotRow, SlotFor, SeedsFrom;
    CleanUsersUnchanged(user, row);
    var seeds := SeedsFrom(user, CutNeighbors(row, maxNeighbors));
    assert StoreRows(store, seeds) == ProfileRows(profiles, seeds);
    var edges := EdgesOf(seeds, StoreRows(store, seeds), filter);
    PoolScores(edges, scores);
    SamePoolSameList(Accumulate(edges), scores, max, out);
  }
}
