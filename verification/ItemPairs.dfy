/** One item's users in the user-similarity builder: the capped baseline sample, the coverage
    extras, and the user-pair rows they contribute. A group here is an item with its ratings
    turned round, so that Deduped and the listings of UserItems apply to its users. */
module ItemPairs {
  import opened Arithmetic
  import opened Orders
  import opened PairReduction
  import opened Interactions
  import opened UserItems
  import opened StratifiedSample

  /** `rank` stands for the stable hash of an item and a user. */
  datatype SampleConfig = SampleConfig(
    minItemUsers: int, maxItemUsers: int, coveragePairSampleSize: int, rank: (int, int) -> int)

  datatype Participants = Participants(base: set<Participant>, extra: set<Participant>, cover: set<Participant>)

  function RankedUsers(cfg: SampleConfig, item: int, d: map<int, Best>): (r: set<Participant>)
    ensures DistinctUsers(r)
  {
    set u | u in d :: Participant(u, d[u].weight, d[u].timestamp, cfg.rank(item, u))
  }

  ghost function Sample(all: set<Participant>, size: int): (r: set<Participant>)
    requires DistinctUsers(all)
    ensures r <= all
  {
    RoundOrderTotal(all);
    if size <= 0 || |all| <= size then all else Elems(TopK(RoundOrder(all), size, all))
  }

  ghost function Selected(cfg: SampleConfig, all: set<Participant>, anchors: set<int>): Participants
    requires DistinctUsers(all)
  {
    if |all| < cfg.minItemUsers then Participants({}, {}, {})
    else
      var base := if cfg.maxItemUsers > 0 then Sample(all, cfg.maxItemUsers) else all;
      var extra := set p | p in all && p.user in anchors && p !in base;
      var cover :=
        if extra != {} && cfg.maxItemUsers > 0 && cfg.coveragePairSampleSize > |base|
        then Sample(all, cfg.coveragePairSampleSize) else base;
      Participants(base, extra, cover)
  }

  lemma {:induction false} SampleIs(ranked: seq<Participant>, size: int, out: seq<Participant>)
    requires NoDup(ranked) && DistinctUsers(Elems(ranked)) && IsSample(ranked, size, out)
    ensures NoDup(out) && Elems(out) == Sample(Elems(ranked), size)
  {
    hide RoundOrder, DistinctUsers;
    var all := Elems(ranked);
    SampleSize(ranked, size, out);
    ElemsCard(ranked);
    RoundOrderTotal(all);
    if size > 0 && |all| > size {
      TopKUnique(RoundOrder(all), size, all, out, TopK(RoundOrder(all), size, all));
    }
  }

  lemma {:induction false} SampleCard(all: set<Participant>, size: int)
    requires DistinctUsers(all)
    ensures |Sample(all, size)| == if size > 0 then Min(size, |all|) else |all|
  {
    hide RoundOrder;
    RoundOrderTotal(all);
    if size > 0 && |all| > size {
      SortedNoDup(RoundOrder(all), TopK(RoundOrder(all), size, all));
      ElemsCard(TopK(RoundOrder(all), size, all));
    }
  }

  lemma {:induction false} SampleGrows(all: set<Participant>, size: int, larger: int)
    requires DistinctUsers(all) && 0 < size <= larger
    ensures Sample(all, size) <= Sample(all, larger)
  {
    hide RoundOrder;
    RoundOrderTotal(all);
    if |all| > larger {
      var more := TopK(RoundOrder(all), larger, all);
      TopKPrefix(RoundOrder(all), larger, all, more, size);
      TopKUnique(RoundOrder(all), size, all, TopK(RoundOrder(all), size, all), more[..Min(size, |more|)]);
    }
  }

  // ----- listings ------------------------------------------------------------------------------

  function Unhashed(p: Participant): Ranked {
    Ranked(p.user, p.weight, p.timestamp)
  }

  function UnhashedSet(S: set<Participant>): set<Ranked> {
    set p | p in S :: Unhashed(p)
  }

  /** sorted((user_id, weight) for ...). */
  ghost function Listing(S: set<Participant>): (r: seq<Weighted>)
    requires DistinctUsers(S)
    ensures Sorted(SmallerId, r)
  {
    ListingTotal(S);
    SortSet(SmallerId, Project(UnhashedSet(S)))
  }

  lemma {:induction false} ListingTotal(S: set<Participant>)
    requires DistinctUsers(S)
    ensures TotalOn(SmallerId, Project(UnhashedSet(S)))
  {
  }

  lemma {:induction false} ListingHas(S: set<Participant>, p: Participant)
    requires DistinctUsers(S) && p in S
    ensures Has(Listing(S), p.user) && WeightAt(Listing(S), p.user) == p.weight
  {
    var r := Listing(S);
    assert Unhashed(p) in UnhashedSet(S);
    assert Weighted(p.user, p.weight) in Project(UnhashedSet(S));
    assert Weighted(p.user, p.weight) in Elems(r);
    var i :| 0 <= i < |r| && r[i] == Weighted(p.user, p.weight);
    WeightAtOf(r, p.user);
    SameIdSameEntry(r, Weighted(p.user, WeightAt(r, p.user)), r[i]);
  }

  lemma {:induction false} ListingHasOnly(S: set<Participant>, id: int)
    requires DistinctUsers(S) && Has(Listing(S), id)
    ensures exists p :: p in S && p.user == id
  {
    var r := Listing(S);
    var i :| 0 <= i < |r| && r[i].id == id;
    assert r[i] in Elems(r);
    var x :| x in UnhashedSet(S) && r[i] == Weighted(x.id, x.weight);
    var p :| p in S && x == Unhashed(p);
  }

  method ListByUser(d: map<int, Best>, cfg: SampleConfig, item: int, members: seq<Participant>)
    returns (out: seq<Weighted>)
    requires NoDup(members) && Elems(members) <= RankedUsers(cfg, item, d)
    ensures DistinctUsers(Elems(members)) && out == Listing(Elems(members))
  {
    var plain := seq(|members|, i requires 0 <= i < |members| => Unhashed(members[i]));
    forall i, j | 0 <= i < j < |plain| ensures plain[i] != plain[j] {
      assert members[i] in Elems(members) && members[j] in Elems(members);
    }
    assert Elems(plain) == UnhashedSet(Elems(members)) by {
      forall x ensures x in Elems(plain) <==> x in UnhashedSet(Elems(members)) {
        if x in Elems(plain) {
          var i :| 0 <= i < |plain| && plain[i] == x;
          assert members[i] in Elems(members);
        }
        if x in UnhashedSet(Elems(members)) {
          var p :| p in Elems(members) && x == Unhashed(p);
          var i :| 0 <= i < |members| && members[i] == p;
          assert plain[i] == x;
        }
      }
    }
    assert UnhashedSet(Elems(members)) <= RankedSet(d);
    out := ListById(d, plain, UnhashedSet(Elems(members)));
  }

  // ----- choosing the participants ---------------------------------------------------------------

  ghost function ParticipantsOf(cfg: SampleConfig, item: int, inter: seq<Rating>, anchors: set<int>): (r: Participants)
    ensures DistinctUsers(r.base) && DistinctUsers(r.extra) && DistinctUsers(r.cover)
  {
    Selected(cfg, RankedUsers(cfg, item, Deduped(inter)), anchors)
  }

  method RankUsers(cfg: SampleConfig, item: int, d: map<int, Best>) returns (ranked: seq<Participant>)
    ensures NoDup(ranked) && Elems(ranked) == RankedUsers(cfg, item, d) && |ranked| == |RankedUsers(cfg, item, d)|
  {
    var S := RankedUsers(cfg, item, d);
    ranked := Enumerate(S);
  }

  method SelectItemPairParticipants(cfg: SampleConfig, item: int, inter: seq<Rating>, anchors: set<int>)
    returns (sampled: seq<Weighted>, coverageExtra: seq<Weighted>, coverageSample: seq<Weighted>)
    ensures var p := ParticipantsOf(cfg, item, inter, anchors);
            sampled == Listing(p.base) && coverageExtra == Listing(p.extra) && coverageSample == Listing(p.cover)
  {
    var deduped: map<int, Best> := map[];
    for i := 0 to |inter|
      invariant deduped == Deduped(inter[..i])
    {
      assert inter[..i + 1][..i] == inter[..i];
      var b := Best(inter[i].weight, inter[i].timestamp);
      if inter[i].item !in deduped || Exceeds(b, deduped[inter[i].item]) {
        deduped := deduped[inter[i].item := b];
      }
    }
    assert inter[..|inter|] == inter;
    var ranked := RankUsers(cfg, item, deduped);
    if |ranked| < cfg.minItemUsers {
      NobodyListed();
      return [], [], [];
    }
    sampled, coverageExtra, coverageSample := SelectFrom(cfg, item, deduped, ranked, anchors);
  }

  lemma {:induction false} NobodyListed()
    ensures Listing({}) == []
  {
    ListingTotal({});
    assert Project(UnhashedSet({})) == {};
  }

  method CoverageExtras(ranked: seq<Participant>, sampled: seq<Participant>, anchors: set<int>)
    returns (extra: seq<Participant>)
    requires NoDup(ranked) && DistinctUsers(Elems(ranked)) && Elems(sampled) <= Elems(ranked)
    ensures NoDup(extra) && Elems(extra) == set p | p in Elems(ranked) && p.user in anchors && p !in Elems(sampled)
  {
    var sampledIds := set p | p in sampled :: p.user;
    extra := [];
    for i := 0 to |ranked|
      invariant NoDup(extra)
      invariant forall p :: p in extra <==> p in ranked[..i] && p.user in anchors && p.user !in sampledIds
    {
      assert ranked[..i + 1] == ranked[..i] + [ranked[i]];
      assert ranked[i] !in ranked[..i];
      if ranked[i].user in anchors && ranked[i].user !in sampledIds {
        extra := extra + [ranked[i]];
      }
    }
    assert ranked[..|ranked|] == ranked;
    forall p | p in ranked ensures p.user in sampledIds <==> p in Elems(sampled) {
      assert p in Elems(ranked);
      if p.user in sampledIds {
        var q :| q in sampled && q.user == p.user;
        assert q in Elems(sampled);
      }
    }
  }

  method SelectFrom(cfg: SampleConfig, item: int, deduped: map<int, Best>, ranked: seq<Participant>, anchors: set<int>)
    returns (sampled: seq<Weighted>, coverageExtra: seq<Weighted>, coverageSample: seq<Weighted>)
    requires NoDup(ranked) && Elems(ranked) == RankedUsers(cfg, item, deduped) && |ranked| >= cfg.minItemUsers
    ensures var p := Selected(cfg, RankedUsers(cfg, item, deduped), anchors);
            DistinctUsers(p.base) && DistinctUsers(p.extra) && DistinctUsers(p.cover) &&
            sampled == Listing(p.base) && coverageExtra == Listing(p.extra) && coverageSample == Listing(p.cover)
  {
    hide IsSample, Listing;
    ghost var all := Elems(ranked);
    ElemsCard(ranked);
    var sampledRanked := ranked;
    if cfg.maxItemUsers > 0 && |ranked| > cfg.maxItemUsers {
      sampledRanked := StratifiedSampleItemInteractions(ranked, cfg.maxItemUsers);
      SampleIs(ranked, cfg.maxItemUsers, sampledRanked);
    }
    ghost var base := Elems(sampledRanked);
    assert base == if cfg.maxItemUsers > 0 then Sample(all, cfg.maxItemUsers) else all;
    var extraRanked := CoverageExtras(ranked, sampledRanked, anchors);
    var coverRanked := sampledRanked;
    ElemsCard(sampledRanked);
    assert extraRanked == [] <==> Elems(extraRanked) == {} by {
      if extraRanked != [] { assert extraRanked[0] in Elems(extraRanked); }
    }
    if extraRanked != [] && cfg.maxItemUsers > 0 && cfg.coveragePairSampleSize > |sampledRanked| {
      coverRanked := StratifiedSampleItemInteractions(ranked, cfg.coveragePairSampleSize);
      SampleIs(ranked, cfg.coveragePairSampleSize, coverRanked);
    }
    assert Selected(cfg, all, anchors) == Participants(base, Elems(extraRanked), Elems(coverRanked));
    sampled := ListByUser(deduped, cfg, item, sampledRanked);
    coverageExtra := ListByUser(deduped, cfg, item, extraRanked);
    coverageSample := ListByUser(deduped, cfg, item, coverRanked);
  }

  // ----- the pair rows -----------------------------------------------------------------------

  /** One contribution, smaller id first; nothing for a user against themselves. */
  function Contribution(x: Weighted, y: Weighted): seq<PairRow> {
    if x.id == y.id then []
    else if x.id > y.id then [PairOf(y, x)]
    else [PairOf(x, y)]
  }

  function CrossWith(x: Weighted, ys: seq<Weighted>): seq<PairRow> {
    if ys == [] then [] else CrossWith(x, ys[..|ys| - 1]) + Contribution(x, ys[|ys| - 1])
  }

  /** Every extra against every member of the coverage sample. */
  function CrossRows(xs: seq<Weighted>, ys: seq<Weighted>): seq<PairRow> {
    if xs == [] then [] else CrossRows(xs[..|xs| - 1], ys) + CrossWith(xs[|xs| - 1], ys)
  }

  ghost function ItemRows(cfg: SampleConfig, item: int, inter: seq<Rating>, anchors: set<int>): seq<PairRow> {
    var p := ParticipantsOf(cfg, item, inter, anchors);
    if |Listing(p.base)| < 2 then []
    else Combinations(Listing(p.base)) + CrossRows(Listing(p.extra), Listing(p.cover))
  }

  lemma {:induction false} CrossOriented(xs: seq<Weighted>, ys: seq<Weighted>, q: PairRow)
    requires q in CrossRows(xs, ys)
    ensures q.left < q.right
  {
    var n := |xs| - 1;
    if q in CrossRows(xs[..n], ys) {
      CrossOriented(xs[..n], ys, q);
    } else {
      CrossWithOriented(xs[n], ys, q);
    }
  }

  lemma {:induction false} CrossWithOriented(x: Weighted, ys: seq<Weighted>, q: PairRow)
    requires q in CrossWith(x, ys)
    ensures q.left < q.right
  {
    if q in CrossWith(x, ys[..|ys| - 1]) {
      CrossWithOriented(x, ys[..|ys| - 1], q);
    }
  }

  lemma {:induction false} ItemRowsOriented(cfg: SampleConfig, item: int, inter: seq<Rating>, anchors: set<int>,
          q: PairRow)
    requires q in ItemRows(cfg, item, inter, anchors)
    ensures q.left < q.right
  {
    hide Listing, Selected, ParticipantsOf;
    var p := ParticipantsOf(cfg, item, inter, anchors);
    if q in Combinations(Listing(p.base)) {
      CombinationsOriented(Listing(p.base), q);
    } else {
      CrossOriented(Listing(p.extra), Listing(p.cover), q);
    }
  }

  // ----- how many rows a pair of users gets ------------------------------------------------------

  function Ind(b: bool): nat {
    if b then 1 else 0
  }

  lemma {:induction false} ContributionMeaning(x: Weighted, y: Weighted, l: int, r: int)
    requires l < r
    ensures RowCount(Contribution(x, y), l, r) == Ind((x.id == l && y.id == r) || (x.id == r && y.id == l))
    ensures RowSum(Contribution(x, y), l, r) ==
            if (x.id == l && y.id == r) || (x.id == r && y.id == l) then Times(x.weight, y.weight) else 0.0
  {
    if x.id != y.id {
      var q := if x.id > y.id then PairOf(y, x) else PairOf(x, y);
      TimesCommutes(x.weight, y.weight);
      RowsAppend([], q, l, r);
      assert [] + [q] == [q];
    }
  }

  lemma {:induction false} SortedInit(s: seq<Weighted>)
    requires s != [] && Sorted(SmallerId, s)
    ensures Sorted(SmallerId, s[..|s| - 1])
    ensures forall id :: Has(s, id) <==> Has(s[..|s| - 1], id) || id == s[|s| - 1].id
    ensures !Has(s[..|s| - 1], s[|s| - 1].id)
    ensures WeightAt(s, s[|s| - 1].id) == s[|s| - 1].weight
    ensures forall id :: id != s[|s| - 1].id ==> WeightAt(s, id) == WeightAt(s[..|s| - 1], id)
  {
    hide SmallerId;
    var n := |s| - 1;
    var t := s[..n];
    forall id ensures Has(s, id) <==> Has(t, id) || id == s[n].id {
      if Has(t, id) { var i :| 0 <= i < n && t[i].id == id; assert s[i].id == id; }
      if Has(s, id) && id != s[n].id { var i :| 0 <= i < |s| && s[i].id == id; assert t[i].id == id; }
    }
    assert !Has(t, s[n].id) by {
      forall i | 0 <= i < n ensures t[i].id != s[n].id {
        assert SmallerId(s[i], s[n]);
        LessIsDifferent(s[i], s[n]);
      }
    }
    WeightAtConcat(t, s[n], s[n].id);
    assert s == t + [s[n]];
    forall id | id != s[n].id ensures WeightAt(s, id) == WeightAt(t, id) {
      WeightAtConcat(t, s[n], id);
      WeightAtOf(t, id);
    }
    WeightAtOf(t, s[n].id);
  }

  lemma {:induction false} LessIsDifferent(x: Weighted, y: Weighted)
    requires SmallerId(x, y)
    ensures x.id != y.id
  {
  }

  lemma {:induction false} WeightAtConcat(t: seq<Weighted>, x: Weighted, id: int)
    ensures WeightAt(t + [x], id) == if Has(t, id) then WeightAt(t, id) else if x.id == id then x.weight else 0.0
  {
    if t == [] {
      assert t + [x] == [x];
    } else {
      assert (t + [x])[1..] == t[1..] + [x];
      WeightAtConcat(t[1..], x, id);
      HasTail(t, id);
    }
  }

  lemma {:induction false} CrossWithMeaning(x: Weighted, ys: seq<Weighted>, l: int, r: int)
    requires Sorted(SmallerId, ys) && l < r
    ensures RowCount(CrossWith(x, ys), l, r) == Ind(x.id == l && Has(ys, r)) + Ind(x.id == r && Has(ys, l))
    ensures RowSum(CrossWith(x, ys), l, r) ==
            if x.id == l then Times(x.weight, WeightAt(ys, r))
            else if x.id == r then Times(x.weight, WeightAt(ys, l)) else 0.0
  {
    if ys != [] {
      var n := |ys| - 1;
      SortedInit(ys);
      CrossWithMeaning(x, ys[..n], l, r);
      ContributionMeaning(x, ys[n], l, r);
      RowsConcat(CrossWith(x, ys[..n]), Contribution(x, ys[n]), l, r);
      WeightAtOf(ys[..n], r);
      WeightAtOf(ys[..n], l);
    }
  }

  lemma {:induction false} CrossRowsMeaning(xs: seq<Weighted>, ys: seq<Weighted>, l: int, r: int)
    requires Sorted(SmallerId, xs) && Sorted(SmallerId, ys) && l < r
    ensures RowCount(CrossRows(xs, ys), l, r) == Ind(Has(xs, l) && Has(ys, r)) + Ind(Has(xs, r) && Has(ys, l))
    ensures RowSum(CrossRows(xs, ys), l, r) ==
            Times(WeightAt(xs, l), WeightAt(ys, r)) + Times(WeightAt(xs, r), WeightAt(ys, l))
  {
    if xs != [] {
      var n := |xs| - 1;
      SortedInit(xs);
      CrossRowsMeaning(xs[..n], ys, l, r);
      CrossWithMeaning(xs[n], ys, l, r);
      RowsConcat(CrossRows(xs[..n], ys), CrossWith(xs[n], ys), l, r);
      WeightAtOf(xs[..n], l);
      WeightAtOf(xs[..n], r);
    }
  }

  ghost predicate Within(S: set<Participant>, user: int) {
    exists p :: p in S && p.user == user
  }

  /** The rows an item gives a pair of users: one if both are in the sample, and one for each
      way round in which one is an extra and the other is in the coverage sample. */
  lemma {:induction false} PairMultiplicity(cfg: SampleConfig, item: int, inter: seq<Rating>, anchors: set<int>, l: int,
          r: int)
    requires l < r
    ensures var p := ParticipantsOf(cfg, item, inter, anchors);
            RowCount(ItemRows(cfg, item, inter, anchors), l, r) ==
            if |p.base| < 2 then 0
            else Ind(Within(p.base, l) && Within(p.base, r)) +
                 Ind(Within(p.extra, l) && Within(p.cover, r)) + Ind(Within(p.extra, r) && Within(p.cover, l))
  {
    hide Listing, Selected, ParticipantsOf, Sorted;
    var p := ParticipantsOf(cfg, item, inter, anchors);
    ListingSize(p.base);
    forall id {:trigger Within(p.base, id)} {:trigger Within(p.extra, id)} {:trigger Within(p.cover, id)}
      ensures Within(p.base, id) <==> Has(Listing(p.base), id)
      ensures Within(p.extra, id) <==> Has(Listing(p.extra), id)
      ensures Within(p.cover, id) <==> Has(Listing(p.cover), id) {
      ListingWithin(p.base, id);
      ListingWithin(p.extra, id);
      ListingWithin(p.cover, id);
    }
    if |p.base| >= 2 {
      CombinationsCount(Listing(p.base), l, r);
      CrossRowsMeaning(Listing(p.extra), Listing(p.cover), l, r);
      RowsConcat(Combinations(Listing(p.base)), CrossRows(Listing(p.extra), Listing(p.cover)), l, r);
    }
  }

  lemma {:induction false} ListingWithin(S: set<Participant>, id: int)
    requires DistinctUsers(S)
    ensures Within(S, id) <==> Has(Listing(S), id)
  {
    if Within(S, id) {
      var p :| p in S && p.user == id;
      ListingHas(S, p);
    }
    if Has(Listing(S), id) {
      ListingHasOnly(S, id);
    }
  }

  lemma {:induction false} ListingSize(S: set<Participant>)
    requires DistinctUsers(S)
    ensures |Listing(S)| == |S|
  {
    ListingTotal(S);
    ProjectSize(S);
  }

  lemma {:induction false} ProjectSize(S: set<Participant>)
    requires DistinctUsers(S)
    ensures |Project(UnhashedSet(S))| == |S|
  {
    if S != {} {
      var p :| p in S;
      ProjectSize(S - {p});
      var w := Weighted(p.user, p.weight);
      assert UnhashedSet(S) == UnhashedSet(S - {p}) + {Unhashed(p)};
      assert Project(UnhashedSet(S)) == Project(UnhashedSet(S - {p})) + {w};
      assert w !in Project(UnhashedSet(S - {p}));
    }
  }

  // ----- at most one row per item ------------------------------------------------------------------

  /** Extras exist only beside a full sample; a coverage sample at most one larger than it
      reaches at most one of them. */
  lemma {:induction false} ExtrasInCover(cfg: SampleConfig, all: set<Participant>, anchors: set<int>)
    requires DistinctUsers(all) && cfg.coveragePairSampleSize <= cfg.maxItemUsers + 1
    ensures var p := Selected(cfg, all, anchors);
            forall x, y :: x in p.extra && y in p.extra && x in p.cover && y in p.cover ==> x == y
  {
    hide Sample, DistinctUsers;
    var p := Selected(cfg, all, anchors);
    if p.extra != {} {
      assert p.base != all && cfg.maxItemUsers > 0;
      SubsetCard(p.base, all);
      SampleCard(all, cfg.maxItemUsers);
      SampleCard(all, cfg.coveragePairSampleSize);
      if cfg.coveragePairSampleSize > |p.base| {
        SampleGrows(all, cfg.maxItemUsers, cfg.coveragePairSampleSize);
        assert |p.cover - p.base| == |p.cover| - |p.base|;
        AtMostOne(p.cover - p.base);
        assert forall x :: x in p.extra && x in p.cover ==> x in p.cover - p.base;
      }
    }
  }

  lemma {:induction false} AtMostOne(S: set<Participant>)
    requires |S| <= 1
    ensures forall x, y :: x in S && y in S ==> x == y
  {
    forall x, y | x in S && y in S ensures x == y {
      SubsetCard({x, y}, S);
    }
  }

  lemma {:induction false} BasePlain(cfg: SampleConfig, all: set<Participant>, anchors: set<int>)
    requires DistinctUsers(all)
    ensures var p := Selected(cfg, all, anchors);
            p.base <= all && p.extra <= all && p.cover <= all && p.base !! p.extra
    ensures cfg.maxItemUsers <= 1 ==>
              var p := Selected(cfg, all, anchors); p.extra == {} || |p.base| < 2
  {
    SampleCard(all, cfg.maxItemUsers);
  }

  lemma {:induction false} SameUser(all: set<Participant>, S: set<Participant>, T: set<Participant>, user: int)
    requires DistinctUsers(all) && S <= all && T <= all && Within(S, user) && Within(T, user)
    ensures exists p :: p in S && p in T && p.user == user
  {
    var p :| p in S && p.user == user;
    var q :| q in T && q.user == user;
    assert p == q;
  }

  /** The cap admits no pair, or the coverage sample exceeds it by at most one. */
  predicate OneRowConfig(cfg: SampleConfig) {
    cfg.maxItemUsers <= 1 || cfg.coveragePairSampleSize <= cfg.maxItemUsers + 1
  }

  /** Without anchors, or under that condition, an item gives a pair at most one row. */
  lemma {:induction false} OneRowAtMost(cfg: SampleConfig, item: int, inter: seq<Rating>, anchors: set<int>, l: int,
          r: int)
    requires anchors == {} || OneRowConfig(cfg)
    requires l < r
    ensures RowCount(ItemRows(cfg, item, inter, anchors), l, r) <= 1
  {
    hide Selected, ItemRows, DistinctUsers, Within;
    var all := RankedUsers(cfg, item, Deduped(inter));
    var p := Selected(cfg, all, anchors);
    PairMultiplicity(cfg, item, inter, anchors, l, r);
    BasePlain(cfg, all, anchors);
    if anchors == {} { NoAnchorsNoExtras(cfg, all); }
    if |p.base| >= 2 && p.extra != {} {
      ExtrasInCover(cfg, all, anchors);
      ExtrasApart(all, p, l);
      ExtrasApart(all, p, r);
      OneExtraOnly(all, p, l, r);
    } else if p.extra == {} {
      assert !Within(p.extra, l) && !Within(p.extra, r) by { NobodyWithin(l); NobodyWithin(r); }
    }
  }

  lemma {:induction false} NoAnchorsNoExtras(cfg: SampleConfig, all: set<Participant>)
    requires DistinctUsers(all)
    ensures Selected(cfg, all, {}).extra == {}
  {
  }

  lemma {:induction false} NobodyWithin(user: int)
    ensures !Within({}, user)
  {
  }

  lemma {:induction false} ExtrasApart(all: set<Participant>, p: Participants, user: int)
    requires DistinctUsers(all) && p.base <= all && p.extra <= all && p.base !! p.extra
    ensures !(Within(p.base, user) && Within(p.extra, user))
  {
  }

  lemma {:induction false} OneExtraOnly(all: set<Participant>, p: Participants, l: int, r: int)
    requires DistinctUsers(all) && p.extra <= all && p.cover <= all && l != r
    requires forall x, y :: x in p.extra && y in p.extra && x in p.cover && y in p.cover ==> x == y
    ensures !(Within(p.extra, l) && Within(p.cover, r) && Within(p.extra, r) && Within(p.cover, l))
  {
    if Within(p.extra, l) && Within(p.cover, r) && Within(p.extra, r) && Within(p.cover, l) {
      SameUser(all, p.extra, p.cover, l);
      SameUser(all, p.extra, p.cover, r);
    }
  }

  lemma {:induction false} TwoOf(S: set<Participant>) returns (x: Participant, y: Participant)
    requires |S| >= 2
    ensures x in S && y in S && x != y
  {
    x :| x in S;
    assert |S - {x}| >= 1;
    y :| y in S - {x};
  }

  lemma {:induction false} DifferentUsers(all: set<Participant>, x: Participant, y: Participant)
    requires DistinctUsers(all) && x in all && y in all && x != y
    ensures x.user != y.user
  {
  }
}
