/** Reordering the request leaves the ranking unchanged. */
module RankerTheorems {
  import opened Orders
  import opened Candidates
  import opened CandidateMerge
  import opened Options
  import opened Ranker
  import opened Sums

  /** A merged item and the total score its occurrences give it. */
  lemma {:induction false} MergedItem(list: seq<Candidate>, i: nat)
    requires i < |MergeAll(list)|
    ensures MergeAll(list)[i].score == SumBy(list, ShareOf(MergeAll(list)[i].itemId))
    ensures MergeAll(list)[i].itemId != 0
    ensures exists c :: c in list && c.itemId == MergeAll(list)[i].itemId
  {
    hide MergeAll, Rebuild;
    var o := MergeAll(list)[i];
    MergeAllConserves(list, i);
    MergeAllShape(list);
    ShareIsScore(list, o.itemId);
    assert IndexOf(MergeAll(list), o.itemId) <= i;
    MergeAllIds(list, o.itemId);
    OccurrencesMember(list, o.itemId);
  }

  lemma {:induction false} StandingsIncluded(
    p: Profile, log1p: real -> real, a: seq<Candidate>, b: seq<Candidate>,
    ea: seq<Option<Entry>>, eb: seq<Option<Entry>>, entryOf: nat -> Option<Entry>)
    requires multiset(a) == multiset(b)
    requires |ea| == |MergeAll(a)| && forall i :: 0 <= i < |ea| ==> ea[i] == entryOf(MergeAll(a)[i].itemId)
    requires |eb| == |MergeAll(b)| && forall i :: 0 <= i < |eb| ==> eb[i] == entryOf(MergeAll(b)[i].itemId)
    ensures Standings(p, log1p, MergeAll(a), ea) <= Standings(p, log1p, MergeAll(b), eb)
  {
    hide RankScore, MergeAll, Rebuild;
    var ma, mb := MergeAll(a), MergeAll(b);
    forall s | s in Standings(p, log1p, ma, ea) ensures s in Standings(p, log1p, mb, eb) {
      var i :| 0 <= i < |ma| && s == Standing(ma[i].itemId, RankScore(p, log1p, ma[i].itemId, ma[i].score, ea[i]));
      var id := ma[i].itemId;
      MergedItem(a, i);
      var c :| c in a && c.itemId == id;
      assert c in multiset(b);
      OccurrencesMember(b, id);
      MergeAllIds(b, id);
      var j := IndexOf(mb, id);
      MergedItem(b, j);
      SumByPermuted(a, b, ShareOf(id));
      assert s == Standing(mb[j].itemId, RankScore(p, log1p, mb[j].itemId, mb[j].score, eb[j]));
    }
  }

  /** The same items with the same scores at the same positions. */
  ghost predicate SameRanking(ra: seq<RankedItem>, rb: seq<RankedItem>) {
    && |ra| == |rb|
    && (forall i :: 0 <= i < |ra| ==> ra[i].candidate.itemId == rb[i].candidate.itemId
                                      && ra[i].rankScore == rb[i].rankScore && ra[i].position == rb[i].position)
  }

  lemma {:induction false} RankingsAgree(
    p: Profile, log1p: real -> real, maxResults: int, a: seq<Candidate>, b: seq<Candidate>,
    ea: seq<Option<Entry>>, eb: seq<Option<Entry>>, entryOf: nat -> Option<Entry>,
    ra: seq<RankedItem>, rb: seq<RankedItem>)
    requires multiset(a) == multiset(b)
    requires |ea| == |MergeAll(a)| && forall i :: 0 <= i < |ea| ==> ea[i] == entryOf(MergeAll(a)[i].itemId)
    requires |eb| == |MergeAll(b)| && forall i :: 0 <= i < |eb| ==> eb[i] == entryOf(MergeAll(b)[i].itemId)
    requires IsRanking(p, log1p, maxResults, MergeAll(a), ea, ra)
    requires IsRanking(p, log1p, maxResults, MergeAll(b), eb, rb)
    ensures SameRanking(ra, rb)
  {
    hide MergeAll, Standings, Factors, SumContributions;
    StandingsIncluded(p, log1p, a, b, ea, eb, entryOf);
    StandingsIncluded(p, log1p, b, a, eb, ea, entryOf);
    var S := Standings(p, log1p, MergeAll(a), ea);
    assert S == Standings(p, log1p, MergeAll(b), eb);
    HigherTotal(S);
    TopKUnique(Higher, if maxResults < 0 then 0 else maxResults, S, StandingsOf(ra), StandingsOf(rb));
    assert |ra| == |StandingsOf(ra)| && |rb| == |StandingsOf(rb)|;
    forall i | 0 <= i < |ra|
        ensures ra[i].candidate.itemId == rb[i].candidate.itemId && ra[i].rankScore == rb[i].rankScore {
      assert StandingsOf(ra)[i] == StandingsOf(rb)[i];
    }
  }

  /** A store that answers each id on its own, in request order. */
  ghost predicate AnswersEach(find: seq<nat> -> seq<Option<Entry>>, entryOf: nat -> Option<Entry>) {
    forall ids :: find(ids) == seq(|ids|, i requires 0 <= i < |ids| => entryOf(ids[i]))
  }

  lemma {:induction false} EmptyTogether(a: seq<Candidate>, b: seq<Candidate>)
    requires multiset(a) == multiset(b) && MergeAll(a) != []
    ensures MergeAll(b) != []
  {
    hide MergeAll, Rebuild;
    MergedItem(a, 0);
    var c :| c in a && c.itemId == MergeAll(a)[0].itemId;
    assert c in multiset(b);
    OccurrencesMember(b, c.itemId);
    MergeAllIds(b, c.itemId);
  }

  /** Over a store that answers each id on its own, permuting the request's candidates leaves
      the answer unchanged: no candidates for both, or the same ranked (item id, score,
      position) sequence. */
  lemma {:induction false} PermutationInvariant(
    a: seq<Candidate>, b: seq<Candidate>, p: Profile, maxResults: int, find: seq<nat> -> seq<Option<Entry>>,
    entryOf: nat -> Option<Entry>, log1p: real -> real, ra: RankResult, rb: RankResult)
    requires multiset(a) == multiset(b) && AnswersEach(find, entryOf)
    requires IsResult(a, p, maxResults, find, log1p, ra) && IsResult(b, p, maxResults, find, log1p, rb)
    ensures (ra == EmptyCandidates && rb == EmptyCandidates) ||
            (ra.Ranked? && rb.Ranked? && SameRanking(ra.items, rb.items))
  {
    hide MergeAll, IsRanking, SameRanking;
    if MergeAll(a) != [] {
      EmptyTogether(a, b);
      RankingsAgree(p, log1p, maxResults, a, b, find(ItemIds(MergeAll(a))), find(ItemIds(MergeAll(b))), entryOf,
        ra.items, rb.items);
    } else if MergeAll(b) != [] {
      EmptyTogether(b, a);
    }
  }

  // ----- what a rank score is ------------------------------------------------------------------------

  /** How much of a list of weighted genres and tags an entry shows. */
  ghost function Overlap(genres: seq<NamedWeight>, tags: seq<NamedWeight>, e: Entry): real {
    GenreSum(genres, e.genres) + TagSum(tags, e.topTags)
  }

  /** The score of an item: what retrieval found, plus the liked overlap, plus a fiftieth of the
      average rating for each log1p of the count, minus the item's own dislike and the disliked
      overlap. Without an index entry only the first and the item's own dislike remain. */
  ghost function Appeal(p: Profile, log1p: real -> real, id: nat, retrieved: real, entry: Option<Entry>): real {
    match entry
    case None => retrieved - SumItems(p.negativeItems, id)
    case Some(e) =>
      retrieved + Overlap(p.genres, p.tags, e)
      + (if e.ratingAvg > 0.0 && e.ratingCount > 0 then e.ratingAvg / 50.0 * log1p(e.ratingCount as real) else 0.0)
      - SumItems(p.negativeItems, id) - Overlap(p.negativeGenres, p.negativeTags, e)
  }

  lemma {:induction false} FourFactors(a: Factor, b: Factor, c: Factor, d: Factor)
    ensures SumContributions([a, d]) == a.contribution + d.contribution
    ensures SumContributions([a, b, c, d]) == a.contribution + b.contribution + c.contribution + d.contribution
  {
    assert [a][..0] == [] && [a, d][..1] == [a] && [a, b][..1] == [a];
    assert [a, b, c][..2] == [a, b] && [a, b, c, d][..3] == [a, b, c];
    assert SumContributions([a]) == a.contribution;
    assert SumContributions([a, b]) == a.contribution + b.contribution;
    assert SumContributions([a, b, c]) == a.contribution + b.contribution + c.contribution;
  }

  lemma {:induction false} TenthOfFifth(avg: real, x: real)
    ensures avg / 5.0 * x * 0.1 == avg / 50.0 * x
  {
    assert avg / 5.0 * x * 0.1 == avg / 5.0 * 0.1 * x;
  }

  /** A factor counts fully for retrieval and interest, a tenth for quality, and against the
      item for negative feedback. */
  ghost predicate Weighted(f: Factor) {
    f.contribution == match f.kind
                      case RETRIEVAL => f.rawValue
                      case INTEREST => f.rawValue
                      case QUALITY => f.rawValue * 0.1
                      case NEGATIVE_FEEDBACK => -f.rawValue
  }

  lemma {:induction false} ScoreIsAppeal(p: Profile, log1p: real -> real, id: nat, retrieved: real,
          entry: Option<Entry>)
    requires id != 0
    ensures RankScore(p, log1p, id, retrieved, entry) == Appeal(p, log1p, id, retrieved, entry)
    ensures forall f :: f in Factors(p, log1p, id, retrieved, entry) ==> Weighted(f)
  {
    hide SumContributions, SumItems, GenreSum, TagSum;
    var fs := Factors(p, log1p, id, retrieved, entry);
    if entry.Some? {
      FourFactors(fs[0], fs[1], fs[2], fs[3]);
      TenthOfFifth(entry.value.ratingAvg, log1p(entry.value.ratingCount as real));
    } else {
      FourFactors(fs[0], fs[0], fs[0], fs[1]);
    }
  }

  /** The appeal of merged item m of a request. */
  ghost function AppealOf(request: seq<Candidate>, p: Profile, find: seq<nat> -> seq<Option<Entry>>,
          log1p: real -> real, m: nat): real
    requires m < |MergeAll(request)| == |find(ItemIds(MergeAll(request)))|
  {
    var c := MergeAll(request)[m];
    Appeal(p, log1p, c.itemId, c.score, find(ItemIds(MergeAll(request)))[m])
  }

  /** Of two items the one with the larger score wins, then the smaller id. */
  predicate Wins(x: real, xid: nat, y: real, yid: nat) {
    x > y || (x == y && xid < yid)
  }

  ghost predicate Ranks(items: seq<RankedItem>, id: nat) {
    exists i :: 0 <= i < |items| && items[i].candidate.itemId == id
  }

  /** Of any answer of the ranker: every listed item is a merged one with its own appeal as
      score; they are numbered from one and each wins over all later ones; and one is missing
      only when the list is as long as was asked for, each of it winning over the missing one. */
  lemma {:induction false} RankingMeaning(request: seq<Candidate>, p: Profile, maxResults: int,
          find: seq<nat> -> seq<Option<Entry>>, log1p: real -> real, result: RankResult)
    requires IsResult(request, p, maxResults, find, log1p, result) && result.Ranked?
    ensures |find(ItemIds(MergeAll(request)))| == |MergeAll(request)|
    ensures |result.items| <= Max(maxResults, 0)
    ensures forall i :: 0 <= i < |result.items| ==>
              && result.items[i].position == i + 1
              && (forall f :: f in result.items[i].factors ==> Weighted(f))
              && exists m: nat :: m < |MergeAll(request)| && result.items[i].candidate == MergeAll(request)[m]
                                  && result.items[i].rankScore == AppealOf(request, p, find, log1p, m)
    ensures forall i, j :: 0 <= i < j < |result.items| ==>
              Wins(result.items[i].rankScore, result.items[i].candidate.itemId,
                   result.items[j].rankScore, result.items[j].candidate.itemId)
    ensures forall m: nat :: m < |MergeAll(request)| && !Ranks(result.items, MergeAll(request)[m].itemId) ==>
              |result.items| == Max(maxResults, 0) &&
              forall i :: 0 <= i < |result.items| ==>
                Wins(result.items[i].rankScore, result.items[i].candidate.itemId,
                     AppealOf(request, p, find, log1p, m), MergeAll(request)[m].itemId)
  {
    hide MergeAll, Rebuild, Appeal, RankScore, Factors, SumContributions;
    var merged, items := MergeAll(request), result.items;
    var entries := find(ItemIds(merged));
    MergeAllShape(request);
    forall m: nat | m < |merged|
      ensures RankScore(p, log1p, merged[m].itemId, merged[m].score, entries[m]) == AppealOf(request, p, find, log1p, m)
      ensures forall f :: f in Factors(p, log1p, merged[m].itemId, merged[m].score, entries[m]) ==> Weighted(f) {
      ScoreIsAppeal(p, log1p, merged[m].itemId, merged[m].score, entries[m]);
    }
    forall i | 0 <= i < |items|
      ensures forall f :: f in items[i].factors ==> Weighted(f)
      ensures exists m: nat :: m < |merged| && items[i].candidate == merged[m]
                               && items[i].rankScore == AppealOf(request, p, find, log1p, m) {
      ListedItem(p, log1p, maxResults, merged, entries, items, i);
    }
    var top := StandingsOf(items);
    forall i, j | 0 <= i < j < |items|
      ensures Wins(items[i].rankScore, items[i].candidate.itemId, items[j].rankScore, items[j].candidate.itemId) {
      assert Higher(top[i], top[j]);
    }
    forall m: nat | m < |merged| && !Ranks(items, merged[m].itemId)
      ensures |items| == Max(maxResults, 0)
      ensures forall i :: 0 <= i < |items| ==>
                Wins(items[i].rankScore, items[i].candidate.itemId,
                     AppealOf(request, p, find, log1p, m), merged[m].itemId) {
      MissingItem(p, log1p, maxResults, merged, entries, items, m);
    }
  }

  lemma {:induction false} ListedItem(p: Profile, log1p: real -> real, maxResults: int, merged: seq<Candidate>,
          entries: seq<Option<Entry>>, items: seq<RankedItem>, i: nat)
    requires IsRanking(p, log1p, maxResults, merged, entries, items) && i < |items|
    ensures exists m: nat :: m < |merged| && items[i].candidate == merged[m]
                             && items[i].factors == Factors(p, log1p, merged[m].itemId, merged[m].score, entries[m])
                             && items[i].rankScore == RankScore(p, log1p, merged[m].itemId, merged[m].score, entries[m])
  {
    hide Factors, SumContributions, Standings;
    var m :| 0 <= m < |merged| && items[i].candidate == merged[m]
             && items[i].factors == Factors(p, log1p, merged[m].itemId, merged[m].score, entries[m]);
  }

  lemma {:induction false} MissingItem(p: Profile, log1p: real -> real, maxResults: int, merged: seq<Candidate>,
          entries: seq<Option<Entry>>, items: seq<RankedItem>, m: nat)
    requires IsRanking(p, log1p, maxResults, merged, entries, items)
    requires m < |merged| && !Ranks(items, merged[m].itemId)
    ensures |items| == Max(maxResults, 0)
    ensures forall i :: 0 <= i < |items| ==>
              Wins(items[i].rankScore, items[i].candidate.itemId,
                   RankScore(p, log1p, merged[m].itemId, merged[m].score, entries[m]), merged[m].itemId)
  {
    hide RankScore, SumContributions, Factors, Sorted;
    var S, top := Standings(p, log1p, merged, entries), StandingsOf(items);
    var s := Standing(merged[m].itemId, RankScore(p, log1p, merged[m].itemId, merged[m].score, entries[m]));
    var k := if maxResults < 0 then 0 else maxResults;
    assert s in S;
    assert forall i :: 0 <= i < |items| ==> top[i].itemId != s.itemId;
    assert s !in top;
    forall i | 0 <= i < |items|
      ensures Wins(items[i].rankScore, items[i].candidate.itemId, s.rankScore, s.itemId) {
      assert Higher(top[i], s);
    }
    if |top| < k {
      HigherTotal(S);
      SortedNoDup(Higher, top);
      ElemsCard(top);
      SubsetCard(Elems(top) + {s}, S);
    }
  }

  // ----- which way the profile pushes -----------------------------------------------------------------

  lemma {:induction false} SumItemsMore(list: seq<ItemWeight>, x: ItemWeight, id: int)
    ensures SumItems(list + [x], id) == SumItems(list, id) + if x.itemId == id then x.weight else 0.0
  {
    assert (list + [x])[..|list|] == list;
  }

  lemma {:induction false} NameWeightMore(list: seq<NamedWeight>, x: NamedWeight, name: string)
    requires x.name != ""
    ensures NameWeight(list + [x], name) == NameWeight(list, name) + if x.name == name then x.weight else 0.0
  {
    assert (list + [x])[..|list|] == list;
  }

  /** Weight w for each genre of that name. */
  function GenreGain(genres: seq<string>, x: NamedWeight): (r: real)
    ensures x.weight >= 0.0 ==> r >= 0.0
    ensures x.weight > 0.0 && x.name in genres ==> r > 0.0
    ensures x.name !in genres ==> r == 0.0
  {
    if genres == [] then 0.0
    else
      assert genres == genres[..|genres| - 1] + [genres[|genres| - 1]];
      GenreGain(genres[..|genres| - 1], x) + if genres[|genres| - 1] == x.name then x.weight else 0.0
  }

  /** Weight w for each tag of that name the entry shows with a positive weight. */
  function TagGain(tags: seq<NamedWeight>, x: NamedWeight): (r: real)
    ensures x.weight >= 0.0 ==> r >= 0.0
    ensures x.weight > 0.0 && (exists t :: t in tags && t.name == x.name && t.weight > 0.0) ==> r > 0.0
    ensures (forall t :: t in tags && t.name == x.name ==> t.weight <= 0.0) ==> r == 0.0
  {
    if tags == [] then 0.0
    else
      var last := tags[|tags| - 1];
      assert tags == tags[..|tags| - 1] + [last];
      TagGain(tags[..|tags| - 1], x) + if last.name == x.name && last.weight > 0.0 then x.weight else 0.0
  }

  lemma {:induction false} GenreSumMore(list: seq<NamedWeight>, x: NamedWeight, genres: seq<string>)
    requires x.name != ""
    ensures GenreSum(list + [x], genres) == GenreSum(list, genres) + GenreGain(genres, x)
  {
    hide NameWeight;
    if genres != [] {
      GenreSumMore(list, x, genres[..|genres| - 1]);
      NameWeightMore(list, x, genres[|genres| - 1]);
    }
  }

  lemma {:induction false} TagSumMore(list: seq<NamedWeight>, x: NamedWeight, tags: seq<NamedWeight>)
    requires x.name != ""
    ensures TagSum(list + [x], tags) == TagSum(list, tags) + TagGain(tags, x)
  {
    hide NameWeight;
    if tags != [] {
      TagSumMore(list, x, tags[..|tags| - 1]);
      NameWeightMore(list, x, tags[|tags| - 1].name);
    }
  }

  /** A dislike of an item lowers that item's score by its weight, and no other's. */
  lemma {:induction false} DislikeLowers(p: Profile, x: ItemWeight, log1p: real -> real, id: nat, retrieved: real,
          entry: Option<Entry>)
    requires id != 0
    ensures RankScore(p.(negativeItems := p.negativeItems + [x]), log1p, id, retrieved, entry) ==
            RankScore(p, log1p, id, retrieved, entry) - if x.itemId == id then x.weight else 0.0
  {
    hide RankScore, SumItems, GenreSum, TagSum;
    ScoreIsAppeal(p, log1p, id, retrieved, entry);
    ScoreIsAppeal(p.(negativeItems := p.negativeItems + [x]), log1p, id, retrieved, entry);
    SumItemsMore(p.negativeItems, x, id);
  }

  /** An interest in a genre or tag raises the score of the items that show it, a dislike of one
      lowers it by as much; other items keep theirs. */
  lemma {:induction false} TasteMoves(p: Profile, x: NamedWeight, log1p: real -> real, id: nat, retrieved: real,
          e: Entry)
    requires id != 0 && x.name != ""
    ensures var score := RankScore(p, log1p, id, retrieved, Some(e));
            && RankScore(p.(genres := p.genres + [x]), log1p, id, retrieved, Some(e)) ==
               score + GenreGain(e.genres, x)
            && RankScore(p.(tags := p.tags + [x]), log1p, id, retrieved, Some(e)) == score + TagGain(e.topTags, x)
            && RankScore(p.(negativeGenres := p.negativeGenres + [x]), log1p, id, retrieved, Some(e)) ==
               score - GenreGain(e.genres, x)
            && RankScore(p.(negativeTags := p.negativeTags + [x]), log1p, id, retrieved, Some(e)) ==
               score - TagGain(e.topTags, x)
  {
    hide RankScore, SumItems, GenreSum, TagSum, GenreGain, TagGain;
    ScoreIsAppeal(p, log1p, id, retrieved, Some(e));
    ScoreIsAppeal(p.(genres := p.genres + [x]), log1p, id, retrieved, Some(e));
    ScoreIsAppeal(p.(tags := p.tags + [x]), log1p, id, retrieved, Some(e));
    ScoreIsAppeal(p.(negativeGenres := p.negativeGenres + [x]), log1p, id, retrieved, Some(e));
    ScoreIsAppeal(p.(negativeTags := p.negativeTags + [x]), log1p, id, retrieved, Some(e));
    GenreSumMore(p.genres, x, e.genres);
    TagSumMore(p.tags, x, e.topTags);
    GenreSumMore(p.negativeGenres, x, e.genres);
    TagSumMore(p.negativeTags, x, e.topTags);
  }
}
