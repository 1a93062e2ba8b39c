/** Strict orders, sorting and top-k selection.

    Every ranking in the repository sorts by a comparator and keeps a prefix. IsTopK says
    what such a prefix is without saying how it was found, and TopKUnique shows that at most
    one sequence fits, so two algorithms that both meet IsTopK agree element for element. */
module Orders {

  ghost predicate StrictOrder<T(!new)>(before: (T, T) -> bool) {
    && (forall x :: !before(x, x))
    && (forall x, y, z :: before(x, y) && before(y, z) ==> before(x, z))
  }

  /** A strict order under which any two different members of S are comparable. */
  ghost predicate TotalOn<T(!new)>(before: (T, T) -> bool, S: set<T>) {
    && StrictOrder(before)
    && (forall x, y :: x in S && y in S && x != y ==> before(x, y) || before(y, x))
  }

  lemma {:induction false} Transitive<T(!new)>(before: (T, T) -> bool, x: T, y: T, z: T)
    requires StrictOrder(before) && before(x, y) && before(y, z)
    ensures before(x, z)
  {
  }

  lemma {:induction false} Comparable<T(!new)>(before: (T, T) -> bool, S: set<T>, x: T, y: T)
    requires TotalOn(before, S) && x in S && y in S && x != y
    ensures before(x, y) || before(y, x)
  {
  }

  lemma {:induction false} TotalOnSubset<T(!new)>(before: (T, T) -> bool, S: set<T>, R: set<T>)
    requires TotalOn(before, S) && R <= S
    ensures TotalOn(before, R) && StrictOrder(before)
  {
  }

  ghost predicate Sorted<T(!new)>(before: (T, T) -> bool, s: seq<T>) {
    forall i, j :: 0 <= i < j < |s| ==> before(s[i], s[j])
  }

  ghost predicate NoDup<T>(s: seq<T>) {
    forall i, j :: 0 <= i < j < |s| ==> s[i] != s[j]
  }

  function Elems<T(!new)>(s: seq<T>): (r: set<T>)
    ensures forall x :: x in r <==> x in s
  {
    set x | x in s
  }

  function Min(a: int, b: int): int {
    if a <= b then a else b
  }

  function Max(a: int, b: int): int {
    if a >= b then a else b
  }

  /** The first n entries of a list, all of a shorter one. */
  function Take<T>(n: int, s: seq<T>): (r: seq<T>)
    ensures n >= 0 ==> |r| <= n
  {
    if n <= 0 then [] else if |s| <= n then s else s[..n]
  }

  function UpTo(n: nat): (r: set<int>)
    ensures forall u :: u in r <==> 0 <= u < n
    ensures |r| == n
  {
    if n == 0 then {} else UpTo(n - 1) + {n - 1}
  }

  /** `out` is the first k members of S in the given order. */
  ghost predicate IsTopK<T(!new)>(before: (T, T) -> bool, k: nat, S: set<T>, out: seq<T>) {
    && |out| == Min(k, |S|)
    && Elems(out) <= S
    && Sorted(before, out)
    && (forall x, i :: x in S && x !in out && 0 <= i < |out| ==> before(out[i], x))
  }

  lemma {:induction false} ElemsCard<T(!new)>(s: seq<T>)
    requires NoDup(s)
    ensures |Elems(s)| == |s|
  {
    if s == [] {
      assert Elems(s) == {};
    } else {
      var n := |s| - 1;
      ElemsCard(s[..n]);
      assert s == s[..n] + [s[n]];
      assert s[n] !in s[..n];
      assert Elems(s) == Elems(s[..n]) + {s[n]};
    }
  }

  lemma {:induction false} SortedNoDup<T(!new)>(before: (T, T) -> bool, s: seq<T>)
    requires StrictOrder(before) && Sorted(before, s)
    ensures NoDup(s)
  {
    forall i, j | 0 <= i < j < |s| ensures s[i] != s[j] {
      assert before(s[i], s[j]);
    }
  }

  lemma {:induction false} SubsetCard<T>(a: set<T>, b: set<T>)
    requires a <= b
    ensures |a| <= |b|
    ensures |a| == |b| ==> a == b
  {
    assert b == a + (b - a);
    assert |b| == |a| + |b - a|;
    if |a| == |b| {
      assert b - a == {};
    }
  }

  /** The two sequences agree on every common index, one index at a time. */
  lemma {:induction false} TopKAgree<T(!new)>(before: (T, T) -> bool, k: nat, S: set<T>, a: seq<T>, b: seq<T>, n: nat)
    requires TotalOn(before, S) && IsTopK(before, k, S, a) && IsTopK(before, k, S, b)
    requires n <= |a|
    ensures a[..n] == b[..n]
  {
    if n > 0 {
      var i := n - 1;
      TopKAgree(before, k, S, a, b, i);
      assert a[i] in Elems(a) && b[i] in Elems(b);
      if before(a[i], b[i]) {
        NotBefore(before, k, S, a, b, i);
      } else if before(b[i], a[i]) {
        NotBefore(before, k, S, b, a, i);
      }
      assert a[..n] == a[..i] + [a[i]] && b[..n] == b[..i] + [b[i]];
    }
  }

  lemma {:induction false} NotBefore<T(!new)>(before: (T, T) -> bool, k: nat, S: set<T>, a: seq<T>, b: seq<T>, i: nat)
    requires TotalOn(before, S) && IsTopK(before, k, S, a) && IsTopK(before, k, S, b)
    requires i < |a| && i < |b| && a[..i] == b[..i]
    ensures !before(a[i], b[i])
  {
    var x := a[i];
    assert x in Elems(a);
    assert x == b[i] || before(b[i], x) by {
      if x in b {
        var j :| 0 <= j < |b| && b[j] == x;
        assert forall m :: 0 <= m < i ==> b[m] == b[..i][m] == a[..i][m] == a[m];
        assert forall m :: 0 <= m < i ==> before(a[m], a[i]);
        assert j >= i;
      }
    }
  }

  /** The top-k list is determined by the order, the count and the set. */
  lemma {:induction false} TopKUnique<T(!new)>(before: (T, T) -> bool, k: nat, S: set<T>, a: seq<T>, b: seq<T>)
    requires TotalOn(before, S) && IsTopK(before, k, S, a) && IsTopK(before, k, S, b)
    ensures a == b
  {
    TopKAgree(before, k, S, a, b, |a|);
    assert a[..|a|] == a && b[..|a|] == b;
  }

  /** Cutting a top-k list gives the shorter top-k list. */
  lemma {:induction false} TopKPrefix<T(!new)>(before: (T, T) -> bool, k: nat, S: set<T>, out: seq<T>, j: nat)
    requires StrictOrder(before) && IsTopK(before, k, S, out) && j <= k
    ensures IsTopK(before, j, S, out[..Min(j, |out|)])
  {
    var p := out[..Min(j, |out|)];
    forall x, i | x in S && x !in p && 0 <= i < |p| ensures before(p[i], x) {
      if x in out {
        var m :| 0 <= m < |out| && out[m] == x;
        assert forall q :: 0 <= q < |p| ==> p[q] == out[q] && p[q] in p;
        assert before(out[i], out[m]);
      }
    }
    assert Elems(p) <= Elems(out);
  }

  /** A sorted enumeration of the whole set is its top-|S| list. */
  lemma {:induction false} SortedIsTopK<T(!new)>(before: (T, T) -> bool, S: set<T>, out: seq<T>)
    requires StrictOrder(before) && Sorted(before, out) && Elems(out) == S
    ensures IsTopK(before, |S|, S, out)
  {
    SortedNoDup(before, out);
    ElemsCard(out);
  }

  // ----- sorting ------------------------------------------------------------------------

  function Insert<T>(before: (T, T) -> bool, s: seq<T>, x: T): (r: seq<T>) {
    if s == [] then [x]
    else if before(x, s[0]) then [x] + s
    else [s[0]] + Insert(before, s[1..], x)
  }

  lemma {:induction false} InsertElems<T(!new)>(before: (T, T) -> bool, s: seq<T>, x: T)
    ensures Elems(Insert(before, s, x)) == Elems(s) + {x}
  {
    if s != [] {
      InsertElems(before, s[1..], x);
      assert s == [s[0]] + s[1..];
      assert Elems(s) == {s[0]} + Elems(s[1..]);
      assert Elems([x] + s) == {x} + Elems(s);
      assert Elems([s[0]] + Insert(before, s[1..], x)) == {s[0]} + Elems(Insert(before, s[1..], x));
    }
  }

  lemma {:induction false} SortedCons<T(!new)>(before: (T, T) -> bool, x: T, s: seq<T>)
    requires Sorted(before, s) && forall y :: y in s ==> before(x, y)
    ensures Sorted(before, [x] + s)
  {
  }

  lemma {:induction false} InsertSorted<T(!new)>(before: (T, T) -> bool, s: seq<T>, x: T)
    requires Sorted(before, s) && TotalOn(before, Elems(s) + {x}) && x !in s
    ensures Sorted(before, Insert(before, s, x))
    ensures Elems(Insert(before, s, x)) == Elems(s) + {x}
  {
    hide StrictOrder, TotalOn;
    InsertElems(before, s, x);
    if s != [] {
      var t := s[1..];
      assert s == [s[0]] + t;
      TotalOnSubset(before, Elems(s) + {x}, Elems(t) + {x});
      Comparable(before, Elems(s) + {x}, s[0], x);
      if before(x, s[0]) {
        forall y | y in s ensures before(x, y) {
          if y != s[0] { Transitive(before, x, s[0], y); }
        }
        SortedCons(before, x, s);
      } else {
        InsertSorted(before, t, x);
        var rt := Insert(before, t, x);
        forall y | y in rt ensures before(s[0], y) {
          assert y in Elems(rt);
        }
        SortedCons(before, s[0], rt);
      }
    }
  }

  /** The library sort: the same members, in order. */
  method SortDistinct<T(==, !new)>(before: (T, T) -> bool, items: seq<T>) returns (sorted: seq<T>)
    requires NoDup(items) && TotalOn(before, Elems(items))
    ensures IsTopK(before, |items|, Elems(items), sorted)
    ensures |sorted| == |items| && Elems(sorted) == Elems(items)
  {
    sorted := [];
    for i := 0 to |items|
      invariant Sorted(before, sorted)
      invariant Elems(sorted) == Elems(items[..i])
    {
      assert items[i] !in items[..i];
      assert items[..i + 1] == items[..i] + [items[i]];
      assert Elems(items[..i + 1]) == Elems(sorted) + {items[i]};
      assert Elems(items[..i + 1]) <= Elems(items);
      assert items[i] !in Elems(sorted);
      InsertSorted(before, sorted, items[i]);
      sorted := Insert(before, sorted, items[i]);
    }
    assert items[..|items|] == items;
    ElemsCard(items);
    SortedIsTopK(before, Elems(items), sorted);
  }

  /** Enumerate a hash map's entries in some order. */
  method Enumerate<T(==, !new)>(S: set<T>) returns (items: seq<T>)
    ensures Elems(items) == S && |items| == |S|
    ensures forall i, j :: 0 <= i < j < |items| ==> items[i] != items[j]
  {
    items := [];
    var rest := S;
    while rest != {}
      invariant Elems(items) + rest == S && Elems(items) !! rest
      invariant |items| + |rest| == |S|
      invariant forall i, j :: 0 <= i < j < |items| ==> items[i] != items[j]
      decreases |rest|
    {
      var x :| x in rest;
      assert x !in Elems(items);
      assert Elems(items + [x]) == Elems(items) + {x};
      items := items + [x];
      rest := rest - {x};
    }
  }

  // ----- the sorted enumeration as a specification ----------------------------------------

  ghost predicate IsLeast<T(!new)>(before: (T, T) -> bool, S: set<T>, x: T) {
    x in S && forall y :: y in S && y != x ==> before(x, y)
  }

  lemma {:induction false} LeastStep<T(!new)>(before: (T, T) -> bool, S: set<T>, x: T, m: T)
    requires TotalOn(before, S) && x in S && IsLeast(before, S - {x}, m)
    ensures IsLeast(before, S, x) || IsLeast(before, S, m)
  {
    hide StrictOrder, TotalOn;
    TotalOnSubset(before, S, S);
    Comparable(before, S, x, m);
    if before(x, m) {
      forall y | y in S && y != x ensures before(x, y) {
        if y != m { Transitive(before, x, m, y); }
      }
    }
  }

  lemma {:induction false} LeastExists<T(!new)>(before: (T, T) -> bool, S: set<T>)
    requires TotalOn(before, S) && S != {}
    ensures exists x :: IsLeast(before, S, x)
  {
    hide StrictOrder, TotalOn;
    var x :| x in S;
    if S == {x} {
      assert IsLeast(before, S, x);
    } else {
      TotalOnSubset(before, S, S - {x});
      LeastExists(before, S - {x});
      var m :| IsLeast(before, S - {x}, m);
      LeastStep(before, S, x, m);
    }
  }

  ghost function Least<T(!new)>(before: (T, T) -> bool, S: set<T>): (x: T)
    requires TotalOn(before, S) && S != {}
    ensures IsLeast(before, S, x)
  {
    LeastExists(before, S);
    var x :| IsLeast(before, S, x);
    x
  }

  lemma {:induction false} SortSetCons<T(!new)>(before: (T, T) -> bool, S: set<T>, x: T, t: seq<T>)
    requires IsLeast(before, S, x) && Sorted(before, t) && Elems(t) == S - {x} && |t| == |S| - 1
    ensures Sorted(before, [x] + t) && Elems([x] + t) == S && |[x] + t| == |S|
  {
    forall y | y in t ensures before(x, y) {
      assert y in Elems(t);
    }
    SortedCons(before, x, t);
    assert Elems([x] + t) == {x} + Elems(t);
  }

  ghost function SortSet<T(!new)>(before: (T, T) -> bool, S: set<T>): (r: seq<T>)
    requires TotalOn(before, S)
    ensures Sorted(before, r) && Elems(r) == S && |r| == |S|
    decreases |S|
  {
    if S == {} then [] else
      var x := Least(before, S);
      TotalOnSubset(before, S, S - {x});
      var t := SortSet(before, S - {x});
      SortSetCons(before, S, x, t);
      [x] + t
  }

  /** The first k members of S. */
  ghost function TopK<T(!new)>(before: (T, T) -> bool, k: nat, S: set<T>): (r: seq<T>)
    requires TotalOn(before, S)
    ensures IsTopK(before, k, S, r)
  {
    var all := SortSet(before, S);
    SortedIsTopK(before, S, all);
    var r := all[..Min(k, |S|)];
    assert IsTopK(before, k, S, r) by {
      if k <= |S| { TopKPrefix(before, |S|, S, all, k); } else { assert r == all; }
    }
    r
  }
}
