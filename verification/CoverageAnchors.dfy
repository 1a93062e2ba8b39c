/** Coverage anchors: for every valid user, the items they are kept for when an item's cap
    would drop them, held in one bounded heap per user. */
module CoverageAnchors {
  import opened Orders
  import opened Heaps
  import opened Interactions
  import opened ItemSimilarity

  /** One heap entry. `index` is the place of the rating in the stream; it tells apart
      entries that repeat the very same rating and never decides between different ones. */
  datatype Entry = Entry(popularity: int, weight: real, timestamp: int, rank: int, item: int, index: nat)

  /** The greater of two rank tuples: less popular, then heavier, later, smaller hash, smaller id. */
  predicate BetterAnchor(a: Entry, b: Entry) {
    if a.popularity != b.popularity then a.popularity < b.popularity
    else if a.weight != b.weight then a.weight > b.weight
    else if a.timestamp != b.timestamp then a.timestamp > b.timestamp
    else if a.rank != b.rank then a.rank < b.rank
    else if a.item != b.item then a.item < b.item
    else a.index < b.index
  }

  lemma {:induction false} AnchorTotal(S: set<Entry>)
    ensures TotalOn(BetterAnchor, S)
  {
  }

  /** `all` is the whole stream, which item popularity is counted over. */
  function EntryAt(all: seq<Rating>, rank: (int, int) -> int, k: nat): Entry
    requires k < |all|
  {
    var e := all[k];
    Entry(RatingCount(all, e.item), e.weight, e.timestamp, rank(e.item, e.user), e.item, k)
  }

  /** A user's entries among the first n ratings. */
  ghost function EntriesOf(all: seq<Rating>, rank: (int, int) -> int, user: int, n: nat): set<Entry>
    requires n <= |all|
  {
    set k | 0 <= k < n && all[k].user == user :: EntryAt(all, rank, k)
  }

  /** The items a user anchors: those of their best `count` ratings. */
  ghost function AnchorItems(all: seq<Rating>, rank: (int, int) -> int, count: nat, user: int): set<int> {
    AnchorTotal(EntriesOf(all, rank, user, |all|));
    set e | e in TopK(BetterAnchor, count, EntriesOf(all, rank, user, |all|)) :: e.item
  }

  /** Whose anchor an item is, when anchors are enabled at all. */
  ghost predicate IsAnchor(all: seq<Rating>, rank: (int, int) -> int, count: int, maxItemUsers: int, valid: set<int>,
          item: int, user: int)
  {
    count > 0 && maxItemUsers > 0 && user in valid && item in AnchorItems(all, rank, count, user)
  }

  function AnchorsAt(anchors: map<int, set<int>>, item: int): set<int> {
    if item in anchors then anchors[item] else {}
  }

  // ----- one heap per user -----------------------------------------------------------------------

  ghost predicate HeapsHold(all: seq<Rating>, rank: (int, int) -> int, count: nat, valid: set<int>, n: nat,
          heaps: map<int, seq<Entry>>)
    requires n <= |all|
  {
    && (forall u :: u in heaps <==> u in valid && EntriesOf(all, rank, u, n) != {})
    && (forall u :: u in heaps ==>
          IsHeap(BetterAnchor, heaps[u]) && IsTopSet(BetterAnchor, count, EntriesOf(all, rank, u, n), Elems(heaps[u])))
  }

  lemma {:induction false} EntriesStep(all: seq<Rating>, rank: (int, int) -> int, n: nat, user: int)
    requires n < |all|
    ensures EntriesOf(all, rank, user, n + 1) ==
            EntriesOf(all, rank, user, n) + if all[n].user == user then {EntryAt(all, rank, n)} else {}
    ensures EntryAt(all, rank, n) !in EntriesOf(all, rank, user, n)
    ensures all[n].user == user ==> EntriesOf(all, rank, user, n + 1) != {}
  {
    hide RatingCount;
    var added: set<Entry> := if all[n].user == user then {EntryAt(all, rank, n)} else {};
    forall e ensures e in EntriesOf(all, rank, user, n + 1) <==> e in EntriesOf(all, rank, user, n) + added {
    }
  }

  lemma {:induction false} HeapsStep(all: seq<Rating>, rank: (int, int) -> int, count: nat, valid: set<int>, n: nat,
                                     heaps: map<int, seq<Entry>>, heap: seq<Entry>)
    requires n < |all| && HeapsHold(all, rank, count, valid, n, heaps)
    requires var u := all[n].user;
             u in valid ==>
               IsHeap(BetterAnchor, heap) &&
               IsTopSet(BetterAnchor, count, EntriesOf(all, rank, u, n) + {EntryAt(all, rank, n)}, Elems(heap))
    ensures HeapsHold(all, rank, count, valid, n + 1,
                      if all[n].user in valid then heaps[all[n].user := heap] else heaps)
  {
    hide IsHeap, IsTopSet, EntriesOf, EntryAt;
    forall u ensures EntriesOf(all, rank, u, n + 1) ==
                     if all[n].user == u then EntriesOf(all, rank, u, n) + {EntryAt(all, rank, n)}
                     else EntriesOf(all, rank, u, n)
             ensures all[n].user == u ==> EntriesOf(all, rank, u, n + 1) != {} {
      EntriesStep(all, rank, n, u);
    }
  }

  lemma {:induction false} HeapsStart(all: seq<Rating>, rank: (int, int) -> int, count: nat, valid: set<int>)
    ensures HeapsHold(all, rank, count, valid, 0, map[])
  {
  }

  method FillAnchorHeaps(all: seq<Rating>, counts: map<int, int>, rank: (int, int) -> int, count: nat, valid: set<int>)
    returns (heaps: map<int, seq<Entry>>)
    requires count > 0
    requires forall e :: e in all ==> e.item in counts && counts[e.item] == RatingCount(all, e.item)
    ensures HeapsHold(all, rank, count, valid, |all|, heaps)
  {
    hide RatingCount, IsHeap, IsTopSet, EntriesOf, TotalOn;
    heaps := map[];
    HeapsStart(all, rank, count, valid);
    for n := 0 to |all|
      invariant HeapsHold(all, rank, count, valid, n, heaps)
    {
      var e := all[n];
      if e.user !in valid {
        HeapsStep(all, rank, count, valid, n, heaps, []);
        continue;
      }
      var entry := Entry(counts[e.item], e.weight, e.timestamp, rank(e.item, e.user), e.item, n);
      ghost var seen := EntriesOf(all, rank, e.user, n);
      EntriesStep(all, rank, n, e.user);
      AnchorTotal(seen + {entry});
      var heap := if e.user in heaps then heaps[e.user] else [];
      NoHeapYet(count, seen);
      heap := KeepBest(BetterAnchor, count, heap, entry, seen);
      HeapsStep(all, rank, count, valid, n, heaps, heap);
      heaps := heaps[e.user := heap];
    }
  }

  lemma {:induction false} NoHeapYet(count: nat, seen: set<Entry>)
    ensures IsHeap(BetterAnchor, []) && (seen == {} ==> IsTopSet(BetterAnchor, count, seen, Elems([])))
  {
  }

  // ----- turning heaps into item sets -----------------------------------------------------------

  ghost predicate InHeap(heap: seq<Entry>, item: int) {
    exists e :: e in heap && e.item == item
  }

  /** The anchors recorded from some users' heaps. */
  ghost predicate Recorded(heaps: map<int, seq<Entry>>, users: set<int>, anchors: map<int, set<int>>) {
    forall i, u :: u in AnchorsAt(anchors, i) <==> u in users && u in heaps && InHeap(heaps[u], i)
  }

  method RecordUser(heaps: map<int, seq<Entry>>, user: int, users: set<int>, anchors: map<int, set<int>>)
    returns (after: map<int, set<int>>)
    requires Recorded(heaps, users, anchors) && user in heaps && user !in users
    ensures Recorded(heaps, users + {user}, after)
  {
    var heap := heaps[user];
    after := anchors;
    for j := 0 to |heap|
      invariant forall i, u :: u in AnchorsAt(after, i) <==>
                  u in AnchorsAt(anchors, i) || (u == user && InHeap(heap[..j], i))
    {
      assert heap[..j + 1] == heap[..j] + [heap[j]];
      ghost var was := after;
      after := after[heap[j].item := AnchorsAt(after, heap[j].item) + {user}];
      assert forall i :: AnchorsAt(after, i) == AnchorsAt(was, i) + if i == heap[j].item then {user} else {};
      assert heap[j] in heap[..j + 1];
      assert forall i :: InHeap(heap[..j + 1], i) <==> InHeap(heap[..j], i) || i == heap[j].item;
    }
    assert heap[..|heap|] == heap;
  }

  lemma {:induction false} HeapItems(all: seq<Rating>, rank: (int, int) -> int, count: nat, valid: set<int>,
                                     heaps: map<int, seq<Entry>>, user: int, item: int)
    requires HeapsHold(all, rank, count, valid, |all|, heaps)
    ensures user in heaps && InHeap(heaps[user], item) <==>
            user in valid && item in AnchorItems(all, rank, count, user)
  {
    hide EntriesOf, BetterAnchor;
    var S := EntriesOf(all, rank, user, |all|);
    AnchorTotal(S);
    var top := TopK(BetterAnchor, count, S);
    if user in heaps {
      var heap := heaps[user];
      HeapIsTop(count, S, heap, top);
      assert forall e :: e in heap <==> e in Elems(heap);
      assert forall e :: e in top <==> e in Elems(top);
    } else if user in valid {
      assert forall e :: e in top ==> e in Elems(top);
    }
  }

  lemma {:induction false} HeapIsTop(count: nat, S: set<Entry>, heap: seq<Entry>, top: seq<Entry>)
    requires TotalOn(BetterAnchor, S) && IsTopSet(BetterAnchor, count, S, Elems(heap)) &&
             IsTopK(BetterAnchor, count, S, top)
    ensures Elems(heap) == Elems(top)
  {
    hide BetterAnchor;
    TotalOnSubset(BetterAnchor, S, Elems(heap));
    var sorted := SortSet(BetterAnchor, Elems(heap));
    TopSetSorted(BetterAnchor, count, S, Elems(heap), sorted);
    TopKUnique(BetterAnchor, count, S, sorted, top);
  }

  method BuildCoverageAnchorUsersByItem(all: seq<Rating>, counts: map<int, int>, rank: (int, int) -> int,
                                        count: int, maxItemUsers: int, valid: set<int>)
    returns (anchors: map<int, set<int>>)
    requires forall e :: e in all ==> e.item in counts && counts[e.item] == RatingCount(all, e.item)
    ensures forall i, u :: u in AnchorsAt(anchors, i) <==> IsAnchor(all, rank, count, maxItemUsers, valid, i, u)
  {
    hide HeapsHold, AnchorItems, RatingCount;
    anchors := map[];
    if count <= 0 || maxItemUsers <= 0 {
      return;
    }
    var heaps := FillAnchorHeaps(all, counts, rank, count, valid);
    var users := Enumerate(heaps.Keys);
    for j := 0 to |users|
      invariant Recorded(heaps, Elems(users[..j]), anchors)
    {
      assert users[j] in Elems(users);
      assert Elems(users[..j + 1]) == Elems(users[..j]) + {users[j]};
      anchors := RecordUser(heaps, users[j], Elems(users[..j]), anchors);
    }
    assert users[..|users|] == users;
    forall i, u ensures u in AnchorsAt(anchors, i) <==> IsAnchor(all, rank, count, maxItemUsers, valid, i, u) {
      HeapItems(all, rank, count, valid, heaps, u, i);
    }
  }

  lemma {:induction false} EntriesAreRatings(all: seq<Rating>, rank: (int, int) -> int, user: int)
    ensures EntriesOf(all, rank, user, |all|) != {} <==> exists e :: e in all && e.user == user
    ensures forall x :: x in EntriesOf(all, rank, user, |all|) ==>
              exists e :: e in all && e.user == user && e.item == x.item
  {
    hide RatingCount;
    var S := EntriesOf(all, rank, user, |all|);
    if e :| e in all && e.user == user {
      var k :| 0 <= k < |all| && all[k] == e;
      assert EntryAt(all, rank, k) in S;
    }
    forall x | x in S ensures exists e :: e in all && e.user == user && e.item == x.item {
      var k :| 0 <= k < |all| && all[k].user == user && x == EntryAt(all, rank, k);
      assert all[k] in all;
    }
  }

  /** A user with any positive rating has an anchor, and no user has more than `count`. */
  lemma {:induction false} EveryUserAnchored(all: seq<Rating>, rank: (int, int) -> int, count: nat, user: int)
    requires count > 0
    ensures AnchorItems(all, rank, count, user) != {} <==> exists e :: e in all && e.user == user
    ensures |AnchorItems(all, rank, count, user)| <= count
    ensures forall i :: i in AnchorItems(all, rank, count, user) ==>
              exists e :: e in all && e.user == user && e.item == i
  {
    hide BetterAnchor, RatingCount, EntriesOf, StrictOrder, Sorted;
    var S := EntriesOf(all, rank, user, |all|);
    EntriesAreRatings(all, rank, user);
    AnchorTotal(S);
    var top := TopK(BetterAnchor, count, S);
    assert forall e :: e in top ==> e in Elems(top);
    ItemsOfFew(top);
    if S != {} {
      assert top[0].item in AnchorItems(all, rank, count, user);
    }
  }

  lemma {:induction false} ItemsOfFew(top: seq<Entry>)
    ensures |set e | e in top :: e.item| <= |top|
  {
    if top != [] {
      var n := |top| - 1;
      ItemsOfFew(top[..n]);
      assert top == top[..n] + [top[n]];
      assert (set e | e in top :: e.item) == (set e | e in top[..n] :: e.item) + {top[n].item};
    }
  }

  /** Rating m of the stream makes a better anchor than rating k: of a less popular item, then
      heavier, then later, then with the smaller hash, then of the smaller item. */
  ghost predicate AnchorsBefore(all: seq<Rating>, rank: (int, int) -> int, m: nat, k: nat)
    requires m < |all| && k < |all|
  {
    var a, b := all[m], all[k];
    var p, q := RatingCount(all, a.item), RatingCount(all, b.item);
    p < q || (p == q && (a.weight > b.weight || (a.weight == b.weight && (a.timestamp > b.timestamp ||
      (a.timestamp == b.timestamp && (rank(a.item, a.user) < rank(b.item, b.user) ||
        (rank(a.item, a.user) == rank(b.item, b.user) && a.item < b.item)))))))
  }

  /** Every anchor of a user stems from a rating of theirs that goes before each of their ratings
      of items that are not anchors. */
  lemma {:induction false} AnchorsAreBest(all: seq<Rating>, rank: (int, int) -> int, count: nat, user: int, item: int,
          k: nat)
    requires item in AnchorItems(all, rank, count, user)
    requires k < |all| && all[k].user == user && all[k].item !in AnchorItems(all, rank, count, user)
    ensures exists m: nat :: m < |all| && all[m].user == user && all[m].item == item && AnchorsBefore(all, rank, m, k)
  {
    hide BetterAnchor, RatingCount, EntriesOf, AnchorItems, AnchorsBefore, TopK;
    var e, top := AnchorEntry(all, rank, count, user, item);
    var x := EntryAt(all, rank, k);
    OwnEntry(all, rank, user, k);
    assert x !in top by { assert x.item == all[k].item; }
    var i :| 0 <= i < |top| && top[i] == e;
    assert BetterAnchor(top[i], x);
    var m := RatingOfEntry(all, rank, user, e);
    BetterMeans(all, rank, m, k);
  }

  lemma {:induction false} AnchorEntry(all: seq<Rating>, rank: (int, int) -> int, count: nat, user: int, item: int)
    returns (e: Entry, top: seq<Entry>)
    requires item in AnchorItems(all, rank, count, user)
    ensures IsTopK(BetterAnchor, count, EntriesOf(all, rank, user, |all|), top) && e in top && e.item == item
    ensures e in EntriesOf(all, rank, user, |all|)
    ensures forall y :: y in top ==> y.item in AnchorItems(all, rank, count, user)
  {
    hide BetterAnchor, RatingCount, EntriesOf;
    AnchorTotal(EntriesOf(all, rank, user, |all|));
    top := TopK(BetterAnchor, count, EntriesOf(all, rank, user, |all|));
    e :| e in top && e.item == item;
    assert e in Elems(top);
  }

  lemma {:induction false} OwnEntry(all: seq<Rating>, rank: (int, int) -> int, user: int, k: nat)
    requires k < |all| && all[k].user == user
    ensures EntryAt(all, rank, k) in EntriesOf(all, rank, user, |all|)
  {
    hide RatingCount;
  }

  lemma {:induction false} RatingOfEntry(all: seq<Rating>, rank: (int, int) -> int, user: int, e: Entry)
    returns (m: nat)
    requires e in EntriesOf(all, rank, user, |all|)
    ensures m < |all| && all[m].user == user && e == EntryAt(all, rank, m)
  {
    hide RatingCount;
    m :| m < |all| && all[m].user == user && e == EntryAt(all, rank, m);
  }

  lemma {:induction false} BetterMeans(all: seq<Rating>, rank: (int, int) -> int, m: nat, k: nat)
    requires m < |all| && k < |all| && all[m].item != all[k].item
    requires BetterAnchor(EntryAt(all, rank, m), EntryAt(all, rank, k))
    ensures AnchorsBefore(all, rank, m, k)
  {
    hide RatingCount;
  }
}
