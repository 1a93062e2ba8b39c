/** Two users who stand in the middle of every item's sampling order, however the stable hash
    ranks users, and what the stratified sample makes of such a pair. */
module MiddlePair {
  import opened Orders
  import opened StratifiedSample
  import opened ItemPairs

  // ----- users by the hash of one item ---------------------------------------------------------

  predicate Sooner(rank: (int, int) -> int, item: int, u: int, v: int) {
    rank(item, u) < rank(item, v) || (rank(item, u) == rank(item, v) && u < v)
  }

  function SoonerOn(rank: (int, int) -> int, item: int): (int, int) -> bool {
    (u: int, v: int) => Sooner(rank, item, u, v)
  }

  function LaterOn(rank: (int, int) -> int, item: int): (int, int) -> bool {
    (u: int, v: int) => Sooner(rank, item, v, u)
  }

  lemma {:induction false} HashTotal(rank: (int, int) -> int, item: int, pool: set<int>)
    ensures TotalOn(SoonerOn(rank, item), pool) && TotalOn(LaterOn(rank, item), pool)
  {
  }

  /** The first `most` users of the pool in an item's order. */
  ghost function Firsts(rank: (int, int) -> int, item: int, most: nat, pool: set<int>): (r: set<int>)
    ensures r <= pool
  {
    HashTotal(rank, item, pool);
    Elems(TopK(SoonerOn(rank, item), most, pool))
  }

  ghost function Lasts(rank: (int, int) -> int, item: int, most: nat, pool: set<int>): (r: set<int>)
    ensures r <= pool
  {
    HashTotal(rank, item, pool);
    Elems(TopK(LaterOn(rank, item), most, pool))
  }

  lemma {:induction false} EndsOfPool(rank: (int, int) -> int, item: int, head: nat, tail: nat, pool: set<int>, x: int)
    requires head <= |pool| && tail <= |pool|
    ensures |Firsts(rank, item, head, pool)| == head && |Lasts(rank, item, tail, pool)| == tail
    ensures x in pool && x !in Firsts(rank, item, head, pool) ==>
              forall u :: u in Firsts(rank, item, head, pool) ==> Sooner(rank, item, u, x)
    ensures x in pool && x !in Lasts(rank, item, tail, pool) ==>
              forall u :: u in Lasts(rank, item, tail, pool) ==> Sooner(rank, item, x, u)
  {
    HashTotal(rank, item, pool);
    var f, l := TopK(SoonerOn(rank, item), head, pool), TopK(LaterOn(rank, item), tail, pool);
    SortedNoDup(SoonerOn(rank, item), f);
    SortedNoDup(LaterOn(rank, item), l);
    ElemsCard(f);
    ElemsCard(l);
    if x in pool && x !in f {
      forall u | u in f ensures Sooner(rank, item, u, x) {
        var i :| 0 <= i < |f| && f[i] == u;
        assert SoonerOn(rank, item)(f[i], x);
      }
    }
    if x in pool && x !in l {
      forall u | u in l ensures Sooner(rank, item, x, u) {
        var i :| 0 <= i < |l| && l[i] == u;
        assert LaterOn(rank, item)(l[i], x);
      }
    }
  }

  /** Users at either end of one of the first k items' orders. */
  ghost function Extreme(rank: (int, int) -> int, k: nat, head: nat, tail: nat, pool: set<int>): (r: set<int>)
    ensures r <= pool
  {
    if k == 0 then {}
    else Extreme(rank, k - 1, head, tail, pool) + Firsts(rank, k - 1, head, pool) + Lasts(rank, k - 1, tail, pool)
  }

  lemma {:induction false} ExtremeFew(rank: (int, int) -> int, k: nat, head: nat, tail: nat, pool: set<int>)
    requires head <= |pool| && tail <= |pool|
    ensures |Extreme(rank, k, head, tail, pool)| <= (head + tail) * k
    ensures forall i :: 0 <= i < k ==>
              Firsts(rank, i, head, pool) <= Extreme(rank, k, head, tail, pool) &&
              Lasts(rank, i, tail, pool) <= Extreme(rank, k, head, tail, pool)
  {
    hide Firsts, Lasts;
    if k > 0 {
      ExtremeFew(rank, k - 1, head, tail, pool);
      EndsOfPool(rank, k - 1, head, tail, pool, 0);
      assert (head + tail) * k == (head + tail) * (k - 1) + (head + tail);
    }
  }

  /** In a large enough pool two users are at neither end of any of the first k items. */
  lemma {:induction false} MiddleExists(rank: (int, int) -> int, k: nat, head: nat, tail: nat)
    returns (pool: set<int>, l: int, r: int)
    requires k > 0
    ensures head <= |pool| && tail <= |pool| && l in pool && r in pool && l < r
    ensures forall i :: 0 <= i < k ==>
              l !in Firsts(rank, i, head, pool) && l !in Lasts(rank, i, tail, pool) &&
              r !in Firsts(rank, i, head, pool) && r !in Lasts(rank, i, tail, pool)
  {
    hide Firsts, Lasts, Extreme, UpTo;
    var few := (head + tail) * k;
    PoolLargeEnough(k, head + tail);
    pool := UpTo(few + 2);
    ExtremeFew(rank, k, head, tail, pool);
    assert |Extreme(rank, k, head, tail, pool)| <= few;
    var rest := pool - Extreme(rank, k, head, tail, pool);
    assert |rest| == |pool| - |Extreme(rank, k, head, tail, pool)|;
    var x := SomeMember(rest);
    var y := SomeMember(rest - {x});
    l, r := Min(x, y), Max(x, y);
  }

  lemma {:induction false} PoolLargeEnough(k: nat, ends: nat)
    requires k > 0
    ensures ends <= ends * k
  {
    assert ends * k == ends + ends * (k - 1);
  }

  lemma {:induction false} SomeMember<T>(S: set<T>) returns (x: T)
    requires |S| > 0
    ensures x in S
  {
    assert S != {};
    x :| x in S;
  }

  // ----- samples of equally weighted users -------------------------------------------------------

  ghost predicate OneWeight(P: set<Participant>) {
    forall x, y :: x in P && y in P ==> x.weight == y.weight
  }

  lemma {:induction false} SoonerRound(P: set<Participant>, x: Participant, y: Participant)
    requires DistinctUsers(P) && OneWeight(P) && x in P && y in P && RoundOrder(P)(x, y)
    ensures x in Ahead(P, y)
  {
    if x != y && !BucketOrder(x, y) {
      assert x.user != y.user;
      assert BucketOrder(y, x);
      assert Ahead(P, y) <= Ahead(P, x);
      SubsetCard(Ahead(P, y), Ahead(P, x));
    }
  }

  lemma {:induction false} AheadSooner(P: set<Participant>, x: Participant, y: Participant)
    requires DistinctUsers(P) && y in P && x in Ahead(P, y)
    ensures RoundOrder(P)(x, y)
  {
    assert Ahead(P, x) + {x} <= Ahead(P, y);
    assert x !in Ahead(P, x);
    SubsetCard(Ahead(P, x) + {x}, Ahead(P, y));
  }

  /** Equally weighted users are sampled in bucket order: those with fewer than `size` ahead. */
  lemma {:induction false} SampledByRound(P: set<Participant>, size: int, x: Participant)
    requires DistinctUsers(P) && OneWeight(P) && x in P && size > 0
    ensures x in Sample(P, size) <==> Round(P, x) < size
  {
    hide Round, RoundOrder, OneWeight, DistinctUsers, Ahead;
    RoundBelow(P, x);
    RoundOrderTotal(P);
    if |P| > size {
      var top := TopK(RoundOrder(P), size, P);
      SortedNoDup(RoundOrder(P), top);
      ElemsCard(top);
      SampledOrNot(P, size, x, top);
    }
  }

  lemma {:induction false} RoundBelow(P: set<Participant>, x: Participant)
    requires x in P
    ensures Round(P, x) < |P|
  {
    assert x !in Ahead(P, x) && Ahead(P, x) <= P - {x};
    SubsetCard(Ahead(P, x), P - {x});
  }

  lemma {:induction false} SampledOrNot(P: set<Participant>, size: nat, x: Participant, top: seq<Participant>)
    requires DistinctUsers(P) && OneWeight(P) && x in P && IsTopK(RoundOrder(P), size, P, top)
    requires |Elems(top)| == size
    ensures x in top <==> Round(P, x) < size
  {
    hide RoundOrder, OneWeight, DistinctUsers, Sorted;
    var ahead := Ahead(P, x);
    if x in top {
      var i :| 0 <= i < |top| && top[i] == x;
      forall y | y in ahead ensures y in Elems(top) {
        AheadSooner(P, y, x);
        if y !in top {
          assert RoundOrder(P)(top[i], y);
          OneWay(P, x, y);
        }
      }
      assert x !in ahead;
      SubsetCard(ahead + {x}, Elems(top));
    } else {
      forall y | y in Elems(top) ensures y in ahead {
        var i :| 0 <= i < |top| && top[i] == y;
        SoonerRound(P, y, x);
      }
      SubsetCard(Elems(top), ahead);
    }
  }

  lemma {:induction false} OneWay(P: set<Participant>, x: Participant, y: Participant)
    ensures !(RoundOrder(P)(x, y) && RoundOrder(P)(y, x))
  {
  }

  // ----- what the sampling makes of the pair ---------------------------------------------------

  /** Users who rate an item alike. */
  ghost function Crowd(rank: (int, int) -> int, item: int, users: set<int>, w: real): (r: set<Participant>)
    ensures DistinctUsers(r) && OneWeight(r)
    ensures forall u :: u in users ==> Participant(u, w, 0, rank(item, u)) in r
  {
    set u | u in users :: Participant(u, w, 0, rank(item, u))
  }

  lemma {:induction false} CrowdSize(rank: (int, int) -> int, item: int, users: set<int>, w: real)
    ensures |Crowd(rank, item, users, w)| == |users|
  {
    if users == {} {
      assert Crowd(rank, item, users, w) == {};
    } else {
      var u := SomeMember(users);
      CrowdSize(rank, item, users - {u}, w);
      var p := Participant(u, w, 0, rank(item, u));
      assert Crowd(rank, item, users, w) == Crowd(rank, item, users - {u}, w) + {p};
      assert p !in Crowd(rank, item, users - {u}, w);
    }
  }

  ghost function SoonerIn(rank: (int, int) -> int, item: int, users: set<int>, x: int): set<int> {
    set u | u in users && Sooner(rank, item, u, x)
  }

  lemma {:induction false} CrowdRound(rank: (int, int) -> int, item: int, users: set<int>, w: real, x: int)
    requires x in users
    ensures Round(Crowd(rank, item, users, w), Participant(x, w, 0, rank(item, x))) == |SoonerIn(rank, item, users, x)|
  {
    var P := Crowd(rank, item, users, w);
    var p := Participant(x, w, 0, rank(item, x));
    assert Ahead(P, p) == Crowd(rank, item, SoonerIn(rank, item, users, x), w);
    CrowdSize(rank, item, SoonerIn(rank, item, users, x), w);
  }

  /** The raters of the first item: as many as the cap before the pair, `tail` after it. */
  ghost function FirstRaters(cfg: SampleConfig, tail: nat, pool: set<int>, l: int, r: int): set<int>
    requires cfg.maxItemUsers > 0
  {
    Firsts(cfg.rank, 0, cfg.maxItemUsers, pool) + Lasts(cfg.rank, 0, tail, pool) + {l, r}
  }

  /** The raters of a further item: the pair, and `tail` users after it. */
  ghost function FurtherRaters(cfg: SampleConfig, item: int, tail: nat, pool: set<int>, l: int, r: int): set<int> {
    Lasts(cfg.rank, item, tail, pool) + {l, r}
  }

  ghost predicate InMiddle(cfg: SampleConfig, item: int, tail: nat, pool: set<int>, x: int)
    requires cfg.maxItemUsers > 0
  {
    && x in pool && x !in Firsts(cfg.rank, item, cfg.maxItemUsers, pool) && x !in Lasts(cfg.rank, item, tail, pool)
    && cfg.maxItemUsers <= |pool| && tail <= |pool|
  }

  lemma {:induction false} FirstPlace(cfg: SampleConfig, tail: nat, pool: set<int>, l: int, r: int)
    requires cfg.maxItemUsers > 0 && l != r
    requires InMiddle(cfg, 0, tail, pool, l) && InMiddle(cfg, 0, tail, pool, r)
    ensures cfg.maxItemUsers <= |SoonerIn(cfg.rank, 0, FirstRaters(cfg, tail, pool, l, r), l)| <= cfg.maxItemUsers + 1
    ensures |FirstRaters(cfg, tail, pool, l, r)| == cfg.maxItemUsers + tail + 2
  {
    hide Firsts, Lasts;
    var firsts, lasts := Firsts(cfg.rank, 0, cfg.maxItemUsers, pool), Lasts(cfg.rank, 0, tail, pool);
    EndsOfPool(cfg.rank, 0, cfg.maxItemUsers, tail, pool, l);
    var sooner := SoonerIn(cfg.rank, 0, FirstRaters(cfg, tail, pool, l, r), l);
    forall u | u in firsts ensures u !in lasts {
      assert Sooner(cfg.rank, 0, u, l);
    }
    assert firsts <= sooner <= firsts + {r};
    SubsetCard(firsts, sooner);
    SubsetCard(sooner, firsts + {r});
    assert |firsts + lasts| == |firsts| + |lasts|;
    assert FirstRaters(cfg, tail, pool, l, r) == firsts + lasts + {l} + {r};
  }

  lemma {:induction false} FurtherPlace(cfg: SampleConfig, item: int, tail: nat, pool: set<int>, l: int, r: int)
    requires cfg.maxItemUsers > 0 && l != r
    requires InMiddle(cfg, item, tail, pool, l) && InMiddle(cfg, item, tail, pool, r)
    ensures |SoonerIn(cfg.rank, item, FurtherRaters(cfg, item, tail, pool, l, r), l)| <= 1
    ensures |FurtherRaters(cfg, item, tail, pool, l, r)| == tail + 2
  {
    hide Firsts, Lasts;
    var lasts := Lasts(cfg.rank, item, tail, pool);
    EndsOfPool(cfg.rank, item, cfg.maxItemUsers, tail, pool, l);
    var sooner := SoonerIn(cfg.rank, item, FurtherRaters(cfg, item, tail, pool, l, r), l);
    assert sooner <= {r};
    SubsetCard(sooner, {r});
    assert FurtherRaters(cfg, item, tail, pool, l, r) == lasts + {l} + {r};
  }

  /** At the first item the pair misses the sample and reaches the coverage sample. */
  lemma {:induction false} FirstSelection(cfg: SampleConfig, tail: nat, pool: set<int>, l: int, r: int, w: real,
          anchors: set<int>)
    requires cfg.maxItemUsers >= 2 && cfg.coveragePairSampleSize >= cfg.maxItemUsers + 2 && tail >= cfg.minItemUsers
    requires l != r && l in anchors && r in anchors
    requires InMiddle(cfg, 0, tail, pool, l) && InMiddle(cfg, 0, tail, pool, r)
    ensures var p := Selected(cfg, Crowd(cfg.rank, 0, FirstRaters(cfg, tail, pool, l, r), w), anchors);
            |p.base| >= 2 && Within(p.extra, l) && Within(p.extra, r) && Within(p.cover, l) && Within(p.cover, r)
  {
    hide Round, Sample, Firsts, Lasts, FirstRaters, InMiddle;
    var users := FirstRaters(cfg, tail, pool, l, r);
    PairRates(cfg, tail, pool, l, r);
    var all := Crowd(cfg.rank, 0, users, w);
    var pl, pr := Participant(l, w, 0, cfg.rank(0, l)), Participant(r, w, 0, cfg.rank(0, r));
    FirstPlace(cfg, tail, pool, l, r);
    assert FirstRaters(cfg, tail, pool, r, l) == users by { PairTurned(cfg, tail, pool, l, r); }
    FirstPlace(cfg, tail, pool, r, l);
    CrowdSize(cfg.rank, 0, users, w);
    CrowdRound(cfg.rank, 0, users, w, l);
    CrowdRound(cfg.rank, 0, users, w, r);
    SampledByRound(all, cfg.maxItemUsers, pl);
    SampledByRound(all, cfg.maxItemUsers, pr);
    SampledByRound(all, cfg.coveragePairSampleSize, pl);
    SampledByRound(all, cfg.coveragePairSampleSize, pr);
    SampleCard(all, cfg.maxItemUsers);
    var p := Selected(cfg, all, anchors);
    assert pl in p.extra && pr in p.extra;
    assert pl in p.cover && pr in p.cover;
  }

  lemma {:induction false} PairRates(cfg: SampleConfig, tail: nat, pool: set<int>, l: int, r: int)
    requires cfg.maxItemUsers > 0
    ensures l in FirstRaters(cfg, tail, pool, l, r) && r in FirstRaters(cfg, tail, pool, l, r)
  {
  }

  lemma {:induction false} PairTurned(cfg: SampleConfig, tail: nat, pool: set<int>, l: int, r: int)
    requires cfg.maxItemUsers > 0
    ensures FirstRaters(cfg, tail, pool, r, l) == FirstRaters(cfg, tail, pool, l, r)
    ensures forall i :: FurtherRaters(cfg, i, tail, pool, r, l) == FurtherRaters(cfg, i, tail, pool, l, r)
  {
  }

  /** At a further item the pair is sampled. */
  lemma {:induction false} FurtherSelection(cfg: SampleConfig, item: int, tail: nat, pool: set<int>, l: int, r: int,
          w: real, anchors: set<int>)
    requires cfg.maxItemUsers >= 2 && tail >= cfg.minItemUsers && l != r
    requires InMiddle(cfg, item, tail, pool, l) && InMiddle(cfg, item, tail, pool, r)
    ensures var p := Selected(cfg, Crowd(cfg.rank, item, FurtherRaters(cfg, item, tail, pool, l, r), w), anchors);
            |p.base| >= 2 && Within(p.base, l) && Within(p.base, r)
  {
    hide Round, Sample, Firsts, Lasts, FurtherRaters, InMiddle;
    var users := FurtherRaters(cfg, item, tail, pool, l, r);
    assert l in users && r in users by { FurtherPairRates(cfg, item, tail, pool, l, r); }
    var all := Crowd(cfg.rank, item, users, w);
    var pl, pr := Participant(l, w, 0, cfg.rank(item, l)), Participant(r, w, 0, cfg.rank(item, r));
    FurtherPlace(cfg, item, tail, pool, l, r);
    PairTurned(cfg, tail, pool, l, r);
    FurtherPlace(cfg, item, tail, pool, r, l);
    CrowdSize(cfg.rank, item, users, w);
    CrowdRound(cfg.rank, item, users, w, l);
    CrowdRound(cfg.rank, item, users, w, r);
    SampledByRound(all, cfg.maxItemUsers, pl);
    SampledByRound(all, cfg.maxItemUsers, pr);
    SampleCard(all, cfg.maxItemUsers);
    var p := Selected(cfg, all, anchors);
    assert pl in p.base && pr in p.base;
  }

  lemma {:induction false} FurtherPairRates(cfg: SampleConfig, item: int, tail: nat, pool: set<int>, l: int, r: int)
    ensures l in FurtherRaters(cfg, item, tail, pool, l, r) && r in FurtherRaters(cfg, item, tail, pool, l, r)
  {
  }
}
