/** Rating streams: positive feedback, grouping by user, and one user's normalised items. */
module Interactions {
  import opened Arithmetic
  import opened Options

  datatype CsvRow = CsvRow(user: int, item: int, rating: real, timestamp: int)
  datatype Rating = Rating(user: int, item: int, weight: real, timestamp: int)
  datatype Weighted = Weighted(id: int, weight: real)
  datatype Best = Best(weight: real, timestamp: int)
  datatype Ranked = Ranked(id: int, weight: real, timestamp: int)

  // ----- positive feedback ---------------------------------------------------------------

  function RatingToWeight(rating: real, minRating: real, useRatingWeight: bool, offset: real): (r: Option<real>)
    ensures r.Some? ==> r.value > 0.0
    ensures r.Some? <==> rating >= minRating && (useRatingWeight ==> rating > offset)
  {
    if rating < minRating then None
    else if !useRatingWeight then Some(1.0)
    else if rating - offset <= 0.0 then None
    else Some(rating - offset)
  }

  /** The stream of positive ratings; both passes over the file read the same one. */
  function PositiveRatings(rows: seq<CsvRow>, minRating: real, useRatingWeight: bool, offset: real): (r: seq<Rating>)
    ensures forall e :: e in r ==> e.weight > 0.0
  {
    if rows == [] then []
    else
      var n := |rows| - 1;
      var rest := PositiveRatings(rows[..n], minRating, useRatingWeight, offset);
      match RatingToWeight(rows[n].rating, minRating, useRatingWeight, offset)
      case None => rest
      case Some(w) => rest + [Rating(rows[n].user, rows[n].item, w, rows[n].timestamp)]
  }

  /** The stream holds exactly the ratings at or above the threshold, whose weight is one, or what
      they exceed the offset by if that is positive. */
  lemma {:induction false} PositiveRatingsMeaning(rows: seq<CsvRow>, minRating: real, useRatingWeight: bool,
          offset: real, e: Rating)
    ensures e in PositiveRatings(rows, minRating, useRatingWeight, offset) <==>
              exists i :: 0 <= i < |rows| &&
                rows[i].user == e.user && rows[i].item == e.item && rows[i].timestamp == e.timestamp &&
                rows[i].rating >= minRating &&
                (if useRatingWeight then rows[i].rating > offset && e.weight == rows[i].rating - offset
                 else e.weight == 1.0)
  {
    if rows != [] {
      var n := |rows| - 1;
      PositiveRatingsMeaning(rows[..n], minRating, useRatingWeight, offset, e);
      assert forall i :: 0 <= i < n ==> rows[..n][i] == rows[i];
    }
  }

  /** One pass over the file. */
  method IterPositiveRatings(rows: seq<CsvRow>, minRating: real, useRatingWeight: bool, offset: real)
    returns (events: seq<Rating>)
    ensures events == PositiveRatings(rows, minRating, useRatingWeight, offset)
  {
    events := [];
    for i := 0 to |rows|
      invariant events == PositiveRatings(rows[..i], minRating, useRatingWeight, offset)
    {
      assert rows[..i + 1][..i] == rows[..i];
      if rows[i].rating < minRating {
        continue;
      }
      var weight := if useRatingWeight then rows[i].rating - offset else 1.0;
      if weight <= 0.0 {
        continue;
      }
      events := events + [Rating(rows[i].user, rows[i].item, weight, rows[i].timestamp)];
    }
    assert rows[..|rows|] == rows;
  }

  function OnlyItems(events: seq<Rating>, items: set<int>): (r: seq<Rating>)
    ensures forall e :: e in r ==> e in events && e.item in items
  {
    if events == [] then []
    else
      var n := |events| - 1;
      OnlyItems(events[..n], items) + (if events[n].item in items then [events[n]] else [])
  }

  // ----- sums of squares -------------------------------------------------------------------

  function SumSquares(events: seq<Rating>, item: int): (r: real)
    ensures r >= 0.0
  {
    if events == [] then 0.0
    else
      var n := |events| - 1;
      SumSquares(events[..n], item) +
        (if events[n].item == item then Times(events[n].weight, events[n].weight) else 0.0)
  }

  lemma {:induction false} SquaresAppend(events: seq<Rating>, e: Rating, item: int)
    ensures SumSquares(events + [e], item) ==
            SumSquares(events, item) + (if e.item == item then Times(e.weight, e.weight) else 0.0)
  {
    assert (events + [e])[..|events|] == events;
  }

  lemma {:induction false} OneSquare(events: seq<Rating>, r: Rating)
    requires r in events
    ensures Times(r.weight, r.weight) <= SumSquares(events, r.item)
  {
    var n := |events| - 1;
    assert events == events[..n] + [events[n]];
    if events[n] != r {
      OneSquare(events[..n], r);
    }
  }

  lemma {:induction false} OnlyItemsSquares(events: seq<Rating>, items: set<int>, item: int)
    requires item in items
    ensures SumSquares(OnlyItems(events, items), item) == SumSquares(events, item)
  {
    if events != [] {
      var n := |events| - 1;
      var f := OnlyItems(events[..n], items);
      OnlyItemsSquares(events[..n], items, item);
      SquaresAppend(f, events[n], item);
      assert OnlyItems(events, items) == if events[n].item in items then f + [events[n]] else f;
    }
  }

  // ----- grouping by user ------------------------------------------------------------------

  datatype Group = Group(user: int, ratings: seq<Rating>)

  /** Consecutive ratings of one user, as the streaming mode sees them. */
  function RunsOf(events: seq<Rating>): (r: seq<Group>)
    ensures events == [] <==> r == []
    ensures events != [] ==> r[|r| - 1].user == events[|events| - 1].user
    ensures forall g :: g in r ==> g.ratings != []
  {
    if events == [] then []
    else
      var n := |events| - 1;
      var r := RunsOf(events[..n]);
      if r != [] && r[|r| - 1].user == events[n].user
      then r[|r| - 1 := Group(events[n].user, r[|r| - 1].ratings + [events[n]])]
      else r + [Group(events[n].user, [events[n]])]
  }

  /** Where a user's group stands, or the length if there is none yet. */
  function GroupIndex(groups: seq<Group>, user: int): (k: nat)
    ensures k <= |groups|
    ensures k < |groups| ==> groups[k].user == user
    ensures forall i :: 0 <= i < k ==> groups[i].user != user
  {
    if groups == [] || groups[0].user == user then 0
    else 1 + GroupIndex(groups[1..], user)
  }

  /** All ratings of each user, users in order of first appearance. */
  function GroupsOf(events: seq<Rating>): (r: seq<Group>)
    ensures forall i, j :: 0 <= i < j < |r| ==> r[i].user != r[j].user
    ensures forall g :: g in r ==> g.ratings != []
  {
    if events == [] then []
    else
      var n := |events| - 1;
      var r := GroupsOf(events[..n]);
      var k := GroupIndex(r, events[n].user);
      if k < |r| then r[k := Group(events[n].user, r[k].ratings + [events[n]])]
      else r + [Group(events[n].user, [events[n]])]
  }

  /** All ratings of a user are adjacent. */
  ghost predicate Grouped(events: seq<Rating>) {
    forall i, j, k :: 0 <= i < j < k < |events| && events[i].user == events[k].user ==> events[j].user == events[i].user
  }

  lemma {:induction false} GroupedPrefix(events: seq<Rating>, n: nat)
    requires Grouped(events) && n <= |events|
    ensures Grouped(events[..n])
  {
    assert forall i :: 0 <= i < n ==> events[..n][i] == events[i];
  }

  /** The users that own a group are exactly the users that occur. */
  lemma {:induction false} GroupUsers(events: seq<Rating>, user: int)
    ensures GroupIndex(GroupsOf(events), user) < |GroupsOf(events)| <==>
              exists i :: 0 <= i < |events| && events[i].user == user
  {
    if events != [] {
      var n := |events| - 1;
      GroupUsers(events[..n], user);
      var r, s := GroupsOf(events[..n]), GroupsOf(events);
      var k := GroupIndex(r, events[n].user);
      assert forall i :: 0 <= i < n ==> events[..n][i] == events[i];
      assert forall m :: 0 <= m < |r| ==> s[m].user == r[m].user;
      assert s[k].user == events[n].user;
      if GroupIndex(r, user) < |r| {
        assert s[GroupIndex(r, user)].user == user;
      }
    }
  }

  lemma {:induction false} GroupHolds(events: seq<Rating>, e: Rating)
    requires e in events
    ensures exists g :: g in GroupsOf(events) && g.user == e.user && e in g.ratings
  {
    var n := |events| - 1;
    var r, s := GroupsOf(events[..n]), GroupsOf(events);
    assert events == events[..n] + [events[n]];
    var k := GroupIndex(r, events[n].user);
    if events[n] == e {
      assert s[k] in s && e in s[k].ratings;
    } else {
      GroupHolds(events[..n], e);
      var g :| g in r && g.user == e.user && e in g.ratings;
      var i :| 0 <= i < |r| && r[i] == g;
      assert s[i] in s && s[i].user == e.user && e in s[i].ratings;
    }
  }

  /** A group holds exactly its owner's ratings. */
  lemma {:induction false} GroupExact(events: seq<Rating>, g: Group, e: Rating)
    requires g in GroupsOf(events)
    ensures e in g.ratings <==> e in events && e.user == g.user
  {
    if events != [] {
      var n := |events| - 1;
      var before, after := GroupsOf(events[..n]), GroupsOf(events);
      var k := GroupIndex(before, events[n].user);
      var j :| 0 <= j < |after| && after[j] == g;
      assert events == events[..n] + [events[n]];
      if j == k {
        if k < |before| {
          GroupExact(events[..n], before[k], e);
        } else {
          GroupUsers(events[..n], events[n].user);
          NotYetRated(events[..n], events[n].user, e);
        }
      } else {
        assert j < |before| && before[j] == g;
        GroupExact(events[..n], g, e);
        assert after[k].user == events[n].user;
      }
    }
  }

  lemma {:induction false} NotYetRated(events: seq<Rating>, owner: int, e: Rating)
    requires !exists i :: 0 <= i < |events| && events[i].user == owner
    ensures e in events ==> e.user != owner
  {
  }

  lemma {:induction false} OwnersFew(groups: seq<Group>)
    ensures |set g | g in groups :: g.user| <= |groups|
  {
    if groups != [] {
      var m := |groups| - 1;
      OwnersFew(groups[..m]);
      assert groups == groups[..m] + [groups[m]];
      assert (set g | g in groups :: g.user) == (set g | g in groups[..m] :: g.user) + {groups[m].user};
    }
  }

  lemma {:induction false} GroupedRuns(events: seq<Rating>)
    requires Grouped(events)
    ensures RunsOf(events) == GroupsOf(events)
  {
    if events != [] {
      var n := |events| - 1;
      GroupedPrefix(events, n);
      GroupedRuns(events[..n]);
      var g := GroupsOf(events[..n]);
      GroupUsers(events[..n], events[n].user);
      assert forall i :: 0 <= i < n ==> events[..n][i] == events[i];
      if n > 0 && events[n - 1].user != events[n].user {
        assert forall i :: 0 <= i < n - 1 && events[i].user == events[n].user ==> events[n - 1].user == events[i].user;
      }
    }
  }

  /** If both readings agree on a stream they agree on it without its last rating. */
  lemma {:induction false} AgreeOnPrefix(events: seq<Rating>)
    requires events != [] && RunsOf(events) == GroupsOf(events)
    ensures RunsOf(events[..|events| - 1]) == GroupsOf(events[..|events| - 1])
    ensures |RunsOf(events[..|events| - 1])| < |RunsOf(events)| <==>
            GroupIndex(GroupsOf(events[..|events| - 1]), events[|events| - 1].user) ==
              |GroupsOf(events[..|events| - 1])|
  {
    var n := |events| - 1;
    var e := events[n];
    var r, g, s := RunsOf(events[..n]), GroupsOf(events[..n]), RunsOf(events);
    var k := GroupIndex(g, e.user);
    if k < |g| {
      assert s[k].user == e.user && g[k] in g;
      assert k == |s| - 1;
      assert s[k].ratings == g[k].ratings + [e] && |s[k].ratings| >= 2;
      assert s == r[|r| - 1 := Group(e.user, r[|r| - 1].ratings + [e])];
      assert r[k].ratings == s[k].ratings[..|s[k].ratings| - 1] == g[k].ratings;
      assert forall i :: 0 <= i < k ==> r[i] == s[i] == g[i];
      assert r == g;
    } else {
      assert s == g + [Group(e.user, [e])];
      assert |s[|s| - 1].ratings| == 1;
      assert forall i :: 0 <= i < |r| ==> r[i] in r;
      if r != [] && r[|r| - 1].user == e.user {
        assert false;
      }
      assert r == s[..|s| - 1] == g;
    }
  }

  /** A stream stays grouped when the next rating is its last user's or a new user's. */
  lemma {:induction false} GroupedStep(events: seq<Rating>, n: nat)
    requires |events| == n + 1 && Grouped(events[..n])
    requires forall i :: 0 <= i < n && events[i].user == events[n].user ==> events[n - 1].user == events[n].user
    ensures Grouped(events)
  {
    assert forall i :: 0 <= i < n ==> events[..n][i] == events[i];
    forall i, j, k | 0 <= i < j < k < |events| && events[i].user == events[k].user
        ensures events[j].user == events[i].user {
      if k == n && j < n - 1 {
        assert events[..n][i].user == events[..n][n - 1].user;
        assert events[..n][j].user == events[..n][i].user;
      } else if k < n {
        assert events[..n][j].user == events[..n][i].user;
      }
    }
  }

  lemma {:induction false} AgreeGrouped(events: seq<Rating>)
    requires RunsOf(events) == GroupsOf(events)
    ensures Grouped(events)
  {
    if events != [] {
      var n := |events| - 1;
      AgreeOnPrefix(events);
      AgreeGrouped(events[..n]);
      forall i | 0 <= i < n && events[i].user == events[n].user ensures events[n - 1].user == events[n].user {
        assert events[..n][i].user == events[n].user;
        GroupUsers(events[..n], events[n].user);
        assert |RunsOf(events)| == |RunsOf(events[..n])|;
        assert events[..n][n - 1] == events[n - 1];
      }
      GroupedStep(events, n);
    }
  }

  /** The streaming mode groups a stream as the in-memory mode does exactly when every
      user's ratings are adjacent in it. */
  lemma {:induction false} RunsAgreeIffGrouped(events: seq<Rating>)
    ensures RunsOf(events) == GroupsOf(events) <==> Grouped(events)
  {
    if Grouped(events) { GroupedRuns(events); }
    if RunsOf(events) == GroupsOf(events) { AgreeGrouped(events); }
  }

  // ----- sums of squares over groups --------------------------------------------------------

  function GroupSquares(groups: seq<Group>, item: int): (r: real)
    ensures r >= 0.0
  {
    if groups == [] then 0.0
    else
      var n := |groups| - 1;
      GroupSquares(groups[..n], item) + SumSquares(groups[n].ratings, item)
  }

  lemma {:induction false} GroupSquaresUpdate(groups: seq<Group>, k: nat, e: Rating, item: int)
    requires k < |groups|
    ensures GroupSquares(groups[k := Group(e.user, groups[k].ratings + [e])], item) ==
            GroupSquares(groups, item) + (if e.item == item then Times(e.weight, e.weight) else 0.0)
  {
    var n := |groups| - 1;
    var u := groups[k := Group(e.user, groups[k].ratings + [e])];
    if k == n {
      assert u[..n] == groups[..n];
      SquaresAppend(groups[n].ratings, e, item);
    } else {
      GroupSquaresUpdate(groups[..n], k, e, item);
      assert u[..n] == groups[..n][k := Group(e.user, groups[..n][k].ratings + [e])];
    }
  }

  lemma {:induction false} GroupSquaresNew(groups: seq<Group>, e: Rating, item: int)
    ensures GroupSquares(groups + [Group(e.user, [e])], item) ==
            GroupSquares(groups, item) + (if e.item == item then Times(e.weight, e.weight) else 0.0)
  {
    assert (groups + [Group(e.user, [e])])[..|groups|] == groups;
    SquaresAppend([], e, item);
    assert [] + [e] == [e];
  }

  /** However the stream is cut, no square is lost or counted twice. */
  lemma {:induction false} RunsConserveSquares(events: seq<Rating>, item: int)
    ensures GroupSquares(RunsOf(events), item) == SumSquares(events, item)
  {
    if events != [] {
      var n := |events| - 1;
      var e, r := events[n], RunsOf(events[..n]);
      RunsConserveSquares(events[..n], item);
      assert SumSquares(events, item) ==
             SumSquares(events[..n], item) + (if e.item == item then Times(e.weight, e.weight) else 0.0);
      if r != [] && r[|r| - 1].user == e.user {
        GroupSquaresUpdate(r, |r| - 1, e, item);
        assert RunsOf(events) == r[|r| - 1 := Group(e.user, r[|r| - 1].ratings + [e])];
      } else {
        GroupSquaresNew(r, e, item);
        assert RunsOf(events) == r + [Group(e.user, [e])];
      }
    }
  }

  lemma {:induction false} GroupsConserveSquares(events: seq<Rating>, item: int)
    ensures GroupSquares(GroupsOf(events), item) == SumSquares(events, item)
  {
    if events != [] {
      var n := |events| - 1;
      var e, g := events[n], GroupsOf(events[..n]);
      GroupsConserveSquares(events[..n], item);
      assert SumSquares(events, item) ==
             SumSquares(events[..n], item) + (if e.item == item then Times(e.weight, e.weight) else 0.0);
      var k := GroupIndex(g, e.user);
      if k < |g| {
        GroupSquaresUpdate(g, k, e, item);
        assert GroupsOf(events) == g[k := Group(e.user, g[k].ratings + [e])];
      } else {
        GroupSquaresNew(g, e, item);
        assert GroupsOf(events) == g + [Group(e.user, [e])];
      }
    }
  }
}
