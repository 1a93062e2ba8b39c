/** A rating file on which the user builder doubles a pair: the pair rates every item once, and
    at each item enough other users fill the sample. */
module DoubledRun {
  import opened Arithmetic
  import opened Interactions
  import opened UserItems
  import opened ItemSimilarity
  import opened UserSimilarity
  import opened EqualWeights

  /** The pair, the other raters of each item, and everybody's weight. */
  datatype Scheme = Scheme(l: int, r: int, others: seq<seq<int>>, w: real)

  ghost predicate Sound(s: Scheme) {
    && s.l != s.r && s.w > 0.0
    && (forall i :: 0 <= i < |s.others| ==> s.others[i] != [] && s.l !in s.others[i] && s.r !in s.others[i])
  }

  function Rated(user: int, item: int, w: real): Rating {
    Rating(user, item, w, 0)
  }

  function Repeat(e: Rating, n: nat): (r: seq<Rating>)
    ensures |r| == n && forall i :: 0 <= i < n ==> r[i] == e
  {
    if n == 0 then [] else Repeat(e, n - 1) + [e]
  }

  /** Each user rates the item n times over. */
  function Block(users: seq<int>, item: int, n: nat, w: real): seq<Rating> {
    if users == [] then []
    else Block(users[..|users| - 1], item, n, w) + Repeat(Rated(users[|users| - 1], item, w), n)
  }

  function PartOf(s: Scheme, item: nat, n: nat): seq<Rating>
    requires item < |s.others|
  {
    [Rated(s.l, item, s.w), Rated(s.r, item, s.w)] + Block(s.others[item], item, n, s.w)
  }

  /** How often the others repeat themselves: often enough to be valid users, and at every
      further item often enough to make it more popular than the first. */
  function RepeatsAt(s: Scheme, m: nat, item: nat): nat
    requires item < |s.others|
  {
    if item == 0 then m else RatingCount(PartOf(s, 0, m), 0) + m
  }

  function Parts(s: Scheme, m: nat, k: nat): seq<Rating>
    requires k <= |s.others|
  {
    if k == 0 then [] else Parts(s, m, k - 1) + PartOf(s, k - 1, RepeatsAt(s, m, k - 1))
  }

  // ----- counting --------------------------------------------------------------------------------

  lemma {:induction false} TurnedConcat(a: seq<Rating>, b: seq<Rating>)
    ensures Turned(a + b) == Turned(a) + Turned(b)
  {
  }

  lemma {:induction false} CountBoth(a: seq<Rating>, b: seq<Rating>, id: int)
    ensures RatingCount(a + b, id) == RatingCount(a, id) + RatingCount(b, id)
    ensures RatingCount(Turned(a + b), id) == RatingCount(Turned(a), id) + RatingCount(Turned(b), id)
  {
    CountConcat(a, b, id);
    TurnedConcat(a, b);
    CountConcat(Turned(a), Turned(b), id);
  }

  lemma {:induction false} CountOne(e: Rating, id: int)
    ensures RatingCount([e], id) == if e.item == id then 1 else 0
    ensures RatingCount(Turned([e]), id) == if e.user == id then 1 else 0
  {
    assert [e][..0] == [];
    assert Turned([e]) == [Turn(e)];
    assert [Turn(e)][..0] == [];
  }

  lemma {:induction false} CountRepeat(e: Rating, n: nat, id: int)
    ensures RatingCount(Repeat(e, n), id) == if e.item == id then n else 0
    ensures RatingCount(Turned(Repeat(e, n)), id) == if e.user == id then n else 0
  {
    hide RatingCount;
    if n == 0 {
      CountNone(id);
      assert Turned([]) == [];
    } else {
      CountRepeat(e, n - 1, id);
      CountBoth(Repeat(e, n - 1), [e], id);
      CountOne(e, id);
    }
  }

  lemma {:induction false} BlockCounts(users: seq<int>, item: int, n: nat, w: real, id: int)
    ensures id != item ==> RatingCount(Block(users, item, n, w), id) == 0
    ensures id == item && users != [] ==> RatingCount(Block(users, item, n, w), id) >= n
    ensures RatingCount(Turned(Block(users, item, n, w)), id) >= if id in users then n else 0
    ensures id !in users ==> RatingCount(Turned(Block(users, item, n, w)), id) == 0
  {
    hide RatingCount, Repeat;
    if users == [] {
      CountNone(id);
      assert Turned([]) == [];
    } else {
      var k := |users| - 1;
      var e := Rated(users[k], item, w);
      assert users == users[..k] + [users[k]];
      BlockCounts(users[..k], item, n, w, id);
      CountBoth(Block(users[..k], item, n, w), Repeat(e, n), id);
      CountRepeat(e, n, id);
    }
  }

  lemma {:induction false} BlockMembers(users: seq<int>, item: int, n: nat, w: real, e: Rating)
    requires n > 0
    ensures e in Block(users, item, n, w) <==> e == Rated(e.user, item, w) && e.user in users
  {
    if users != [] {
      var k := |users| - 1;
      assert users == users[..k] + [users[k]];
      BlockMembers(users[..k], item, n, w, e);
      var x := Rated(users[k], item, w);
      assert Repeat(x, n)[0] == x;
    }
  }

  ghost predicate Rates(s: Scheme, item: nat, user: int)
    requires item < |s.others|
  {
    user == s.l || user == s.r || user in s.others[item]
  }

  lemma {:induction false} PartMembers(s: Scheme, item: nat, n: nat, e: Rating)
    requires item < |s.others| && n > 0
    ensures e in PartOf(s, item, n) <==> e == Rated(e.user, item, s.w) && Rates(s, item, e.user)
  {
    BlockMembers(s.others[item], item, n, s.w, e);
  }

  lemma {:induction false} PartCounts(s: Scheme, item: nat, n: nat, id: int)
    requires item < |s.others| && Sound(s)
    ensures id != item ==> RatingCount(PartOf(s, item, n), id) == 0
    ensures id == item ==> RatingCount(PartOf(s, item, n), id) >= n + 2
    ensures id == s.l || id == s.r ==> RatingCount(Turned(PartOf(s, item, n)), id) == 1
    ensures id in s.others[item] ==> RatingCount(Turned(PartOf(s, item, n)), id) >= n
  {
    hide RatingCount, Block;
    var el, er := Rated(s.l, item, s.w), Rated(s.r, item, s.w);
    assert PartOf(s, item, n) == [el] + [er] + Block(s.others[item], item, n, s.w);
    BlockCounts(s.others[item], item, n, s.w, id);
    CountBoth([el] + [er], Block(s.others[item], item, n, s.w), id);
    CountBoth([el], [er], id);
    CountOne(el, id);
    CountOne(er, id);
  }

  lemma {:induction false} PartsMembers(s: Scheme, m: nat, k: nat, e: Rating)
    requires k <= |s.others| && m > 0
    ensures e in Parts(s, m, k) <==> 0 <= e.item < k && e == Rated(e.user, e.item, s.w) && Rates(s, e.item, e.user)
  {
    hide PartOf, RepeatsAt, Rates;
    if k > 0 {
      PartsMembers(s, m, k - 1, e);
      RepeatsPositive(s, m, k - 1);
      PartMembers(s, k - 1, RepeatsAt(s, m, k - 1), e);
    }
  }

  lemma {:induction false} RepeatsPositive(s: Scheme, m: nat, item: nat)
    requires item < |s.others|
    ensures RepeatsAt(s, m, item) >= m
    ensures item > 0 ==> RepeatsAt(s, m, item) >= RatingCount(PartOf(s, 0, m), 0)
    ensures RepeatsAt(s, m, 0) == m
  {
  }

  lemma {:induction false} PartsCounts(s: Scheme, m: nat, k: nat, id: int)
    requires k <= |s.others| && Sound(s)
    ensures RatingCount(Parts(s, m, k), id) ==
            if 0 <= id < k then RatingCount(PartOf(s, id, RepeatsAt(s, m, id)), id) else 0
    ensures id == s.l || id == s.r ==> RatingCount(Turned(Parts(s, m, k)), id) == k
    ensures forall i :: 0 <= i < k && id in s.others[i] ==> RatingCount(Turned(Parts(s, m, k)), id) >= m
  {
    hide RatingCount, PartOf, RepeatsAt;
    if k == 0 {
      CountNone(id);
      assert Turned([]) == [];
    } else {
      var n := RepeatsAt(s, m, k - 1);
      PartsCounts(s, m, k - 1, id);
      CountBoth(Parts(s, m, k - 1), PartOf(s, k - 1, n), id);
      RepeatsPositive(s, m, k - 1);
      PartCounts(s, k - 1, n, id);
    }
  }

  /** Every further item is more popular than the first. */
  lemma {:induction false} FirstLeastPopular(s: Scheme, m: nat, k: nat, i: int)
    requires 0 < i < k <= |s.others| && Sound(s)
    ensures RatingCount(Parts(s, m, k), 0) < RatingCount(Parts(s, m, k), i)
  {
    hide RatingCount, PartOf, RepeatsAt;
    PartsCounts(s, m, k, 0);
    PartsCounts(s, m, k, i);
    RepeatsPositive(s, m, i);
    PartCounts(s, i, RepeatsAt(s, m, i), i);
  }

  // ----- everybody is valid ------------------------------------------------------------------------

  lemma {:induction false} TurnedMember(events: seq<Rating>, e: Rating)
    ensures e in Turned(events) <==> Turn(e) in events
  {
    if e in Turned(events) {
      var i :| 0 <= i < |events| && Turned(events)[i] == e;
      assert events[i] == Turn(e);
    }
    if Turn(e) in events {
      var i :| 0 <= i < |events| && events[i] == Turn(e);
      assert Turned(events)[i] == e;
    }
  }

  /** Nobody's rating is dropped. */
  lemma {:induction false} AllKept(cfg: UserBuilderConfig, s: Scheme, m: nat, k: nat)
    requires Sound(s) && k == |s.others| && 0 < m <= k && cfg.minUserItems <= m
    ensures KeptRatings(cfg, Parts(s, m, k)) == Turned(Parts(s, m, k))
    ensures k > 0 ==> s.l in ValidUsers(cfg, Parts(s, m, k)) && s.r in ValidUsers(cfg, Parts(s, m, k))
  {
    hide RatingCount, SumSquares, Parts, Times;
    var events := Parts(s, m, k);
    var t := Turned(events);
    forall e | e in t ensures e.item in ValidUsers(cfg, events) {
      TurnedMember(events, e);
      PartsMembers(s, m, k, Turn(e));
      PartsCounts(s, m, k, e.item);
      ValidWhenCounted(cfg, s, m, k, e);
    }
    OnlyAll(t, ValidUsers(cfg, events));
    if k > 0 {
      var el, er := Rated(s.l, 0, s.w), Rated(s.r, 0, s.w);
      PartsMembers(s, m, k, el);
      PartsMembers(s, m, k, er);
      TurnedMember(events, Turn(el));
      TurnedMember(events, Turn(er));
      assert Turn(el) in t && Turn(er) in t;
    }
  }

  lemma {:induction false} ValidWhenCounted(cfg: UserBuilderConfig, s: Scheme, m: nat, k: nat, e: Rating)
    requires k <= |s.others| && m > 0 && Sound(s) && cfg.minUserItems <= m
    requires e in Turned(Parts(s, m, k)) && RatingCount(Turned(Parts(s, m, k)), e.item) >= m
    ensures e.item in ValidUsers(cfg, Parts(s, m, k))
  {
    hide RatingCount, SumSquares, Parts, Times;
    var t := Turned(Parts(s, m, k));
    forall x | x in t ensures x.weight == s.w {
      TurnedMember(Parts(s, m, k), x);
      PartsMembers(s, m, k, Turn(x));
    }
    EqualSquares(t, s.w, e.item);
    PositiveTimes(s.w, s.w);
    PositiveScale(RatingCount(t, e.item), Times(s.w, s.w));
  }

  // ----- one item's users ------------------------------------------------------------------------

  /** The dictionary of an item's users: its raters, all alike. */
  lemma {:induction false} ItemUsers(s: Scheme, m: nat, k: nat, g: Group)
    requires k <= |s.others| && m > 0 && g in GroupsOf(Turned(Parts(s, m, k)))
    ensures 0 <= g.user < k
    ensures forall u :: u in Deduped(g.ratings) <==> Rates(s, g.user, u)
    ensures forall u :: u in Deduped(g.ratings) ==> Deduped(g.ratings)[u] == Best(s.w, 0)
  {
    hide Parts, Deduped, Rates, GroupsOf;
    var t := Turned(Parts(s, m, k));
    assert g.ratings[0] in g.ratings;
    GroupExact(t, g, g.ratings[0]);
    TurnedMember(Parts(s, m, k), g.ratings[0]);
    PartsMembers(s, m, k, Turn(g.ratings[0]));
    DedupedMeaning(g.ratings);
    forall u ensures u in Deduped(g.ratings) <==> Rates(s, g.user, u)
             ensures u in Deduped(g.ratings) ==> Deduped(g.ratings)[u] == Best(s.w, 0) {
      if u in Deduped(g.ratings) {
        var e :| e in g.ratings && e.item == u && Best(e.weight, e.timestamp) == Deduped(g.ratings)[u];
        GroupExact(t, g, e);
        TurnedMember(Parts(s, m, k), e);
        PartsMembers(s, m, k, Turn(e));
      }
      if Rates(s, g.user, u) {
        var e := Turn(Rated(u, g.user, s.w));
        PartsMembers(s, m, k, Turn(e));
        TurnedMember(Parts(s, m, k), e);
        GroupExact(t, g, e);
        assert e in g.ratings && e.item == u;
      }
    }
  }
}
