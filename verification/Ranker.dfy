/** The heuristic ranker: merge, score by factors, sort, cut. */
module Ranker {
  import opened Orders
  import opened Candidates
  import opened CandidateMerge
  import opened Options

  datatype NamedWeight = NamedWeight(name: string, weight: real)
  datatype ItemWeight = ItemWeight(itemId: int, weight: real)
  datatype Profile = Profile(
    genres: seq<NamedWeight>, tags: seq<NamedWeight>,
    negativeGenres: seq<NamedWeight>, negativeTags: seq<NamedWeight>, negativeItems: seq<ItemWeight>)
  datatype Entry = Entry(genres: seq<string>, topTags: seq<NamedWeight>, ratingAvg: real, ratingCount: int)
  datatype FactorType = RETRIEVAL | INTEREST | QUALITY | NEGATIVE_FEEDBACK
  datatype Factor = Factor(kind: FactorType, rawValue: real, weight: real, contribution: real)

  const RETRIEVAL_WEIGHT := 1.0
  const INTEREST_WEIGHT := 1.0
  const NEGATIVE_FEEDBACK_WEIGHT := -1.0
  const QUALITY_WEIGHT := 0.1

  // ----- weights --------------------------------------------------------------------------

  function SumNamed(list: seq<NamedWeight>, name: string): real {
    if list == [] then 0.0
    else
      var last := list[|list| - 1];
      SumNamed(list[..|list| - 1], name) + (if last.name == name then last.weight else 0.0)
  }

  function SumItems(list: seq<ItemWeight>, id: int): real {
    if list == [] then 0.0
    else
      var last := list[|list| - 1];
      SumItems(list[..|list| - 1], id) + (if last.itemId == id then last.weight else 0.0)
  }

  function LookupWeight<K(==)>(weights: map<K, real>, key: K): real {
    if key in weights then weights[key] else 0.0
  }

  /** The lookup yields the summed weight of every non-empty name, and zero for the rest. */
  method BuildNameWeights(list: seq<NamedWeight>) returns (weights: map<string, real>)
    ensures forall n :: LookupWeight(weights, n) == if n == "" then 0.0 else SumNamed(list, n)
  {
    weights := map[];
    for i := 0 to |list|
      invariant "" !in weights
      invariant forall n :: n != "" ==> LookupWeight(weights, n) == SumNamed(list[..i], n)
    {
      assert list[..i + 1][..i] == list[..i];
      if list[i].name == "" {
        continue;
      }
      weights := weights[list[i].name := LookupWeight(weights, list[i].name) + list[i].weight];
    }
    assert list[..|list|] == list;
  }

  method BuildItemWeights(list: seq<ItemWeight>) returns (weights: map<nat, real>)
    ensures forall id: nat :: LookupWeight(weights, id) == if id == 0 then 0.0 else SumItems(list, id)
  {
    weights := map[];
    for i := 0 to |list|
      invariant 0 !in weights
      invariant forall id: nat :: id != 0 ==> LookupWeight(weights, id) == SumItems(list[..i], id)
    {
      assert list[..i + 1][..i] == list[..i];
      if list[i].itemId <= 0 {
        continue;
      }
      weights := weights[list[i].itemId := LookupWeight(weights, list[i].itemId) + list[i].weight];
    }
    assert list[..|list|] == list;
  }

  // ----- scoring -----------------------------------------------------------------------------

  /** The user's weights as functions of names and ids, and log1p on ideal reals. */
  ghost function NameWeight(list: seq<NamedWeight>, name: string): real {
    if name == "" then 0.0 else SumNamed(list, name)
  }

  ghost function GenreSum(list: seq<NamedWeight>, genres: seq<string>): real {
    if genres == [] then 0.0 else GenreSum(list, genres[..|genres| - 1]) + NameWeight(list, genres[|genres| - 1])
  }

  ghost function TagSum(list: seq<NamedWeight>, tags: seq<NamedWeight>): real {
    if tags == [] then 0.0
    else
      var last := tags[|tags| - 1];
      TagSum(list, tags[..|tags| - 1]) + (if last.weight <= 0.0 then 0.0 else NameWeight(list, last.name))
  }

  /** Genre and tag overlap with one pair of weight lists. */
  method ComputeOverlap(entry: Entry, genreWeights: map<string, real>, tagWeights: map<string, real>,
                        ghost genres: seq<NamedWeight>, ghost tags: seq<NamedWeight>) returns (score: real)
    requires forall n :: LookupWeight(genreWeights, n) == NameWeight(genres, n)
    requires forall n :: LookupWeight(tagWeights, n) == NameWeight(tags, n)
    ensures score == GenreSum(genres, entry.genres) + TagSum(tags, entry.topTags)
  {
    score := 0.0;
    for i := 0 to |entry.genres|
      invariant score == GenreSum(genres, entry.genres[..i])
    {
      assert entry.genres[..i + 1][..i] == entry.genres[..i];
      score := score + LookupWeight(genreWeights, entry.genres[i]);
    }
    assert entry.genres[..|entry.genres|] == entry.genres;
    for i := 0 to |entry.topTags|
      invariant score == GenreSum(genres, entry.genres) + TagSum(tags, entry.topTags[..i])
    {
      assert entry.topTags[..i + 1][..i] == entry.topTags[..i];
      if entry.topTags[i].weight <= 0.0 {
        continue;
      }
      score := score + LookupWeight(tagWeights, entry.topTags[i].name);
    }
    assert entry.topTags[..|entry.topTags|] == entry.topTags;
  }

  function QualityScore(entry: Entry, log1p: real -> real): real {
    if entry.ratingAvg <= 0.0 || entry.ratingCount <= 0 then 0.0
    else entry.ratingAvg / 5.0 * log1p(entry.ratingCount as real)
  }

  function MakeFactor(kind: FactorType, rawValue: real, weight: real): Factor {
    Factor(kind, rawValue, weight, rawValue * weight)
  }

  function SumContributions(factors: seq<Factor>): real {
    if factors == [] then 0.0
    else SumContributions(factors[..|factors| - 1]) + factors[|factors| - 1].contribution
  }

  /** The factors of one item: they depend on its id, its merged retrieval score, its index
      entry and the profile, and on nothing else about the candidate. */
  ghost function Factors(p: Profile, log1p: real -> real, id: nat, retrieveScore: real,
          entry: Option<Entry>): seq<Factor>
  {
    var negativeItem := if id == 0 then 0.0 else SumItems(p.negativeItems, id);
    match entry
    case None =>
      [MakeFactor(RETRIEVAL, retrieveScore, RETRIEVAL_WEIGHT),
       MakeFactor(NEGATIVE_FEEDBACK, negativeItem, NEGATIVE_FEEDBACK_WEIGHT)]
    case Some(e) =>
      [MakeFactor(RETRIEVAL, retrieveScore, RETRIEVAL_WEIGHT),
       MakeFactor(INTEREST, GenreSum(p.genres, e.genres) + TagSum(p.tags, e.topTags), INTEREST_WEIGHT),
       MakeFactor(QUALITY, QualityScore(e, log1p), QUALITY_WEIGHT),
       MakeFactor(NEGATIVE_FEEDBACK,
                  negativeItem + (GenreSum(p.negativeGenres, e.genres) + TagSum(p.negativeTags, e.topTags)),
                  NEGATIVE_FEEDBACK_WEIGHT)]
  }

  datatype Scored = Scored(candidate: Candidate, rankScore: real, factors: seq<Factor>)

  /** The weight maps of one task, built from the profile by its constructor. */
  datatype Weights = Weights(
    genres: map<string, real>, tags: map<string, real>,
    negativeGenres: map<string, real>, negativeTags: map<string, real>, negativeItems: map<nat, real>)

  ghost predicate WeightsOf(w: Weights, p: Profile) {
    && (forall n :: LookupWeight(w.genres, n) == NameWeight(p.genres, n))
    && (forall n :: LookupWeight(w.tags, n) == NameWeight(p.tags, n))
    && (forall n :: LookupWeight(w.negativeGenres, n) == NameWeight(p.negativeGenres, n))
    && (forall n :: LookupWeight(w.negativeTags, n) == NameWeight(p.negativeTags, n))
    && (forall id: nat :: LookupWeight(w.negativeItems, id) == if id == 0 then 0.0 else SumItems(p.negativeItems, id))
  }

  method BuildWeights(p: Profile) returns (w: Weights)
    ensures WeightsOf(w, p)
  {
    var genres := BuildNameWeights(p.genres);
    var tags := BuildNameWeights(p.tags);
    var negativeGenres := BuildNameWeights(p.negativeGenres);
    var negativeTags := BuildNameWeights(p.negativeTags);
    var negativeItems := BuildItemWeights(p.negativeItems);
    w := Weights(genres, tags, negativeGenres, negativeTags, negativeItems);
  }

  method AddFactor(scored: Scored, rawValue: real, weight: real, kind: FactorType) returns (r: Scored)
    requires scored.rankScore == SumContributions(scored.factors)
    ensures r == scored.(rankScore := r.rankScore, factors := scored.factors + [MakeFactor(kind, rawValue, weight)])
    ensures r.rankScore == SumContributions(r.factors)
  {
    var factor := MakeFactor(kind, rawValue, weight);
    assert (scored.factors + [factor])[..|scored.factors|] == scored.factors;
    r := scored.(rankScore := scored.rankScore + factor.contribution, factors := scored.factors + [factor]);
  }

  method ScoreCandidate(c: Candidate, entry: Option<Entry>, w: Weights, log1p: real -> real, ghost p: Profile)
    returns (r: Scored)
    requires WeightsOf(w, p)
    ensures r.candidate == c && r.factors == Factors(p, log1p, c.itemId, c.score, entry)
    ensures r.rankScore == SumContributions(r.factors)
  {
    hide SumContributions;
    r := Scored(c, 0.0, []);
    NoFactors();
    r := AddFactor(r, c.score, RETRIEVAL_WEIGHT, RETRIEVAL);
    var negative := LookupWeight(w.negativeItems, c.itemId);
    if entry.Some? {
      var interest := ComputeOverlap(entry.value, w.genres, w.tags, p.genres, p.tags);
      r := AddFactor(r, interest, INTEREST_WEIGHT, INTEREST);
      var feedback := ComputeOverlap(entry.value, w.negativeGenres, w.negativeTags, p.negativeGenres, p.negativeTags);
      negative := negative + feedback;
      r := AddFactor(r, QualityScore(entry.value, log1p), QUALITY_WEIGHT, QUALITY);
    }
    r := AddFactor(r, negative, NEGATIVE_FEEDBACK_WEIGHT, NEGATIVE_FEEDBACK);
  }

  lemma {:induction false} NoFactors()
    ensures SumContributions([]) == 0.0
  {
  }

  // ----- ranking ---------------------------------------------------------------------------------

  datatype Standing = Standing(itemId: nat, rankScore: real)
  datatype RankedItem = RankedItem(candidate: Candidate, rankScore: real, position: nat, factors: seq<Factor>)
  datatype RankResult =
    | EmptyCandidates
    | StoreMismatch(entryCount: nat, candidateCount: nat)
    | Ranked(items: seq<RankedItem>)

  /** Score descending, then smaller item id. */
  predicate Higher(a: Standing, b: Standing) {
    a.rankScore > b.rankScore || (a.rankScore == b.rankScore && a.itemId < b.itemId)
  }

  predicate HigherScored(a: Scored, b: Scored) {
    Higher(StandingOf(a), StandingOf(b))
  }

  function StandingOf(s: Scored): Standing {
    Standing(s.candidate.itemId, s.rankScore)
  }

  ghost function RankScore(p: Profile, log1p: real -> real, id: nat, retrieveScore: real, entry: Option<Entry>): real {
    SumContributions(Factors(p, log1p, id, retrieveScore, entry))
  }

  /** The standing of every merged item. */
  ghost function Standings(p: Profile, log1p: real -> real, merged: seq<Candidate>,
          entries: seq<Option<Entry>>): set<Standing>
    requires |entries| == |merged|
  {
    set i | 0 <= i < |merged| ::
      Standing(merged[i].itemId, RankScore(p, log1p, merged[i].itemId, merged[i].score, entries[i]))
  }

  ghost function StandingsOf(items: seq<RankedItem>): seq<Standing> {
    seq(|items|, i requires 0 <= i < |items| => Standing(items[i].candidate.itemId, items[i].rankScore))
  }

  lemma {:induction false} HigherTotal(S: set<Standing>)
    ensures TotalOn(Higher, S)
  {
  }

  /** The response: the best merged items in order, numbered from one, each carrying its
      merged candidate and the factors that sum to its score. */
  ghost predicate IsRanking(p: Profile, log1p: real -> real, maxResults: int, merged: seq<Candidate>,
          entries: seq<Option<Entry>>, items: seq<RankedItem>)
  {
    && |entries| == |merged|
    && IsTopK(
         Higher, if maxResults < 0 then 0 else maxResults, Standings(p, log1p, merged, entries), StandingsOf(items))
    && (forall i :: 0 <= i < |items| ==>
          && items[i].position == i + 1
          && items[i].rankScore == SumContributions(items[i].factors)
          && exists m :: 0 <= m < |merged| && items[i].candidate == merged[m]
                         && items[i].factors == Factors(p, log1p, merged[m].itemId, merged[m].score, entries[m]))
  }

  /** The scored vector before sorting: one entry per merged item. */
  ghost predicate ScoredAll(p: Profile, log1p: real -> real, merged: seq<Candidate>, entries: seq<Option<Entry>>,
          scored: seq<Scored>)
  {
    && |scored| <= |merged| == |entries|
    && (forall i :: 0 <= i < |scored| ==>
          && scored[i].candidate == merged[i]
          && scored[i].factors == Factors(p, log1p, merged[i].itemId, merged[i].score, entries[i])
          && scored[i].rankScore == SumContributions(scored[i].factors))
  }

  lemma {:induction false} ScoredTotal(p: Profile, log1p: real -> real, merged: seq<Candidate>,
          entries: seq<Option<Entry>>, scored: seq<Scored>)
    requires DistinctIds(merged) && ScoredAll(p, log1p, merged, entries, scored)
    ensures NoDup(scored) && TotalOn(HigherScored, Elems(scored))
  {
    hide Factors, SumContributions;
    forall x, y | x in Elems(scored) && y in Elems(scored) && x != y ensures x.candidate.itemId != y.candidate.itemId {
      var i :| 0 <= i < |scored| && scored[i] == x;
      var j :| 0 <= j < |scored| && scored[j] == y;
      assert merged[Orders.Min(i, j)].itemId != merged[if i < j then j else i].itemId;
    }
  }

  function ToItems(sorted: seq<Scored>, n: nat): (r: seq<RankedItem>)
    requires n <= |sorted|
  {
    seq(n, i requires 0 <= i < n => RankedItem(sorted[i].candidate, sorted[i].rankScore, i + 1, sorted[i].factors))
  }

  ghost function StandingsSorted(sorted: seq<Scored>): seq<Standing> {
    seq(|sorted|, i requires 0 <= i < |sorted| => StandingOf(sorted[i]))
  }

  /** The sorted scores are exactly the standings, in order. */
  lemma {:induction false} SortedStandings(p: Profile, log1p: real -> real, merged: seq<Candidate>,
          entries: seq<Option<Entry>>, scored: seq<Scored>, sorted: seq<Scored>)
    requires ScoredAll(p, log1p, merged, entries, scored) && |scored| == |merged|
    requires Sorted(HigherScored, sorted) && Elems(sorted) == Elems(scored)
    ensures Sorted(Higher, StandingsSorted(sorted))
    ensures Elems(StandingsSorted(sorted)) == Standings(p, log1p, merged, entries)
  {
    hide Factors, SumContributions, Higher;
    var S, all := Standings(p, log1p, merged, entries), StandingsSorted(sorted);
    forall i, j | 0 <= i < j < |all| ensures Higher(all[i], all[j]) {
      assert HigherScored(sorted[i], sorted[j]);
    }
    forall s ensures s in Elems(all) <==> s in S {
      if s in Elems(all) {
        var i :| 0 <= i < |all| && all[i] == s;
        assert sorted[i] in Elems(sorted);
        assert sorted[i] in scored;
        var m :| 0 <= m < |scored| && scored[m] == sorted[i];
        assert s == Standing(merged[m].itemId, RankScore(p, log1p, merged[m].itemId, merged[m].score, entries[m]));
      }
      if s in S {
        var m :| 0 <= m < |merged| &&
          s == Standing(merged[m].itemId, RankScore(p, log1p, merged[m].itemId, merged[m].score, entries[m]));
        assert scored[m] in Elems(scored);
        assert scored[m] in sorted;
        var i :| 0 <= i < |sorted| && sorted[i] == scored[m];
        assert all[i] == s;
      }
    }
  }

  lemma {:induction false} SortedIsRanking(p: Profile, log1p: real -> real, maxResults: int, merged: seq<Candidate>,
          entries: seq<Option<Entry>>, scored: seq<Scored>, sorted: seq<Scored>, n: nat)
    requires ScoredAll(p, log1p, merged, entries, scored) && |scored| == |merged|
    requires Sorted(HigherScored, sorted) && Elems(sorted) == Elems(scored)
    requires n == if maxResults < 0 then 0 else Orders.Min(maxResults, |sorted|)
    ensures IsRanking(p, log1p, maxResults, merged, entries, ToItems(sorted, n))
  {
    hide Factors, SumContributions, Standings, Higher, Sorted;
    var S, all := Standings(p, log1p, merged, entries), StandingsSorted(sorted);
    SortedStandings(p, log1p, merged, entries, scored, sorted);
    HigherTotal(S);
    SortedIsTopK(Higher, S, all);
    var items := ToItems(sorted, n);
    assert StandingsOf(items) == all[..n];
    var k := if maxResults < 0 then 0 else maxResults;
    if k <= |S| {
      TopKPrefix(Higher, |S|, S, all, k);
      assert all[..n] == all[..Orders.Min(k, |all|)];
    } else {
      assert all[..n] == all;
    }
    forall i | 0 <= i < |items|
      ensures exists m :: 0 <= m < |merged| && items[i].candidate == merged[m]
                          && items[i].factors == Factors(p, log1p, merged[m].itemId, merged[m].score, entries[m])
      ensures items[i].rankScore == SumContributions(items[i].factors) {
      assert sorted[i] in Elems(sorted);
      assert sorted[i] in scored;
      var m :| 0 <= m < |scored| && scored[m] == sorted[i];
    }
  }

  method ScoreCandidates(candidates: seq<Candidate>, entries: seq<Option<Entry>>, w: Weights, log1p: real -> real,
          ghost p: Profile)
    returns (scored: seq<Scored>)
    requires WeightsOf(w, p) && |entries| == |candidates|
    ensures |scored| == |candidates| && ScoredAll(p, log1p, candidates, entries, scored)
  {
    hide Factors, SumContributions, WeightsOf;
    scored := [];
    for i := 0 to |candidates|
      invariant |scored| == i && ScoredAll(p, log1p, candidates, entries, scored)
    {
      var s := ScoreCandidate(candidates[i], entries[i], w, log1p, p);
      scored := scored + [s];
    }
  }

  function ItemIds(merged: seq<Candidate>): seq<nat> {
    seq(|merged|, i requires 0 <= i < |merged| => merged[i].itemId)
  }

  /** The answer to a request: an error, or the ranking of the merged candidates. */
  ghost predicate IsResult(request: seq<Candidate>, p: Profile, maxResults: int, find: seq<nat> -> seq<Option<Entry>>,
          log1p: real -> real, result: RankResult)
  {
    var merged := MergeAll(request);
    var entries := find(ItemIds(merged));
    if merged == [] then result == EmptyCandidates
    else if |entries| != |merged| then result == StoreMismatch(|entries|, |merged|)
    else result.Ranked? && IsRanking(p, log1p, maxResults, merged, entries, result.items)
  }

  /** HeuristicRankTask::Run with the index store as a function of the id vector. */
  method Run(request: seq<Candidate>, p: Profile, maxResults: int, find: seq<nat> -> seq<Option<Entry>>,
          log1p: real -> real)
    returns (result: RankResult)
    ensures IsResult(request, p, maxResults, find, log1p, result)
  {
    hide IsRanking, ScoredAll, WeightsOf, MergeAll, TotalOn, Rebuild;
    var weights := BuildWeights(p);
    var candidates := NormalizeAndMergeCandidates(request);
    if candidates == [] {
      return EmptyCandidates;
    }
    var entries := find(ItemIds(candidates));
    if |entries| != |candidates| {
      return StoreMismatch(|entries|, |candidates|);
    }
    var scored := ScoreCandidates(candidates, entries, weights, log1p, p);
    MergeAllShape(request);
    ScoredTotal(p, log1p, candidates, entries, scored);
    var sorted := SortDistinct(HigherScored, scored);
    var n := if maxResults < 0 then 0 else Orders.Min(maxResults, |sorted|);
    SortedIsRanking(p, log1p, maxResults, candidates, entries, scored, sorted, n);
    result := Ranked(ToItems(sorted, n));
  }
}
