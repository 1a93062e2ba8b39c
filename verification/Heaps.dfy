/** The bounded heap that keeps the k best entries seen so far. */
module Heaps {
  import opened Orders

  /** H holds the k best members of P. */
  ghost predicate IsTopSet<T(!new)>(before: (T, T) -> bool, k: nat, P: set<T>, H: set<T>) {
    && H <= P
    && |H| == Min(k, |P|)
    && (forall h, x :: h in H && x in P && x !in H ==> before(h, x))
  }

  /** What heapq promises of its list: every other entry ranks above the one at index 0. */
  ghost predicate IsHeap<T(!new)>(before: (T, T) -> bool, heap: seq<T>) {
    && NoDup(heap)
    && (forall j :: 0 < j < |heap| ==> before(heap[j], heap[0]))
  }

  /** heapq.heappush, by its contract: the entry is added and the worst entry is at index 0. */
  method HeapPush<T(==, !new)>(before: (T, T) -> bool, heap: seq<T>, x: T) returns (r: seq<T>)
    requires IsHeap(before, heap) && x !in heap && TotalOn(before, Elems(heap) + {x})
    ensures IsHeap(before, r) && Elems(r) == Elems(heap) + {x} && |r| == |heap| + 1
  {
    if heap != [] && before(heap[0], x) {
      r := [x] + heap;
      forall j | 0 < j < |r| ensures before(r[j], r[0]) {
        if j > 1 { assert before(heap[j - 1], heap[0]); }
      }
    } else {
      r := heap + [x];
      assert heap != [] ==> heap[0] in Elems(heap) + {x} && x in Elems(heap) + {x};
    }
  }

  /** Where the entry stands that every other one ranks above. */
  method WorstIndex<T(==, !new)>(before: (T, T) -> bool, t: seq<T>) returns (w: nat)
    requires t != [] && NoDup(t) && TotalOn(before, Elems(t))
    ensures w < |t| && forall j :: 0 <= j < |t| && j != w ==> before(t[j], t[w])
  {
    w := 0;
    for i := 1 to |t|
      invariant w < i
      invariant forall j :: 0 <= j < i && j != w ==> before(t[j], t[w])
    {
      assert t[i] in Elems(t) && t[w] in Elems(t);
      if before(t[w], t[i]) {
        w := i;
      }
    }
  }

  lemma {:induction false} MoveToFront<T(!new)>(t: seq<T>, w: nat)
    requires w < |t| && NoDup(t)
    ensures var r := [t[w]] + t[..w] + t[w + 1..];
            |r| == |t| && Elems(r) == Elems(t) && NoDup(r)
    ensures forall j {:trigger ([t[w]] + t[..w] + t[w + 1..])[j]} :: 0 < j < |t| ==>
              ([t[w]] + t[..w] + t[w + 1..])[j] == t[if j - 1 < w then j - 1 else j]
  {
    assert t == t[..w] + [t[w]] + t[w + 1..];
    assert Elems(t) == Elems(t[..w]) + {t[w]} + Elems(t[w + 1..]);
    assert Elems([t[w]] + t[..w] + t[w + 1..]) == Elems(t[..w]) + {t[w]} + Elems(t[w + 1..]);
  }

  /** heapq.heapreplace, by its contract: the worst entry leaves and x enters. */
  method HeapReplace<T(==, !new)>(before: (T, T) -> bool, heap: seq<T>, x: T) returns (r: seq<T>)
    requires IsHeap(before, heap) && heap != [] && x !in heap && TotalOn(before, Elems(heap) + {x})
    ensures IsHeap(before, r) && Elems(r) == Elems(heap) - {heap[0]} + {x} && |r| == |heap|
  {
    var t := heap[1..] + [x];
    assert Elems(heap) == {heap[0]} + Elems(heap[1..]) by { assert heap == [heap[0]] + heap[1..]; }
    assert heap[0] !in heap[1..];
    assert Elems(t) == Elems(heap[1..]) + {x} == Elems(heap) - {heap[0]} + {x};
    var w := WorstIndex(before, t);
    MoveToFront(t, w);
    r := [t[w]] + t[..w] + t[w + 1..];
  }

  /** Growing P by one entry: add, replace the worst, or drop the entry. */
  lemma {:induction false} TopSetStep<T(!new)>(before: (T, T) -> bool, k: nat, P: set<T>, H: set<T>, x: T, w: T)
    requires TotalOn(before, P + {x}) && IsTopSet(before, k, P, H) && x !in P
    ensures |H| < k ==> IsTopSet(before, k, P + {x}, H + {x})
    ensures |H| >= k && w in H && (forall h :: h in H && h != w ==> before(h, w)) ==>
              IsTopSet(before, k, P + {x}, if before(x, w) then H - {w} + {x} else H)
    ensures k == 0 ==> IsTopSet(before, k, P + {x}, H)
  {
    if |H| < k {
      SubsetCard(H, P);
    } else if w in H && (forall h :: h in H && h != w ==> before(h, w)) {
      if !before(x, w) {
        assert before(w, x);
        forall h | h in H ensures before(h, x) {
          if h != w { assert before(h, w); }
        }
      } else {
        forall h, y | h in H - {w} + {x} && y in P + {x} && y !in H - {w} + {x} ensures before(h, y) {
          if y != w { assert before(w, y); }
        }
      }
    }
  }

  /** The best-first listing of a top set is the top-k list. */
  lemma {:induction false} TopSetSorted<T(!new)>(before: (T, T) -> bool, k: nat, P: set<T>, H: set<T>, out: seq<T>)
    requires StrictOrder(before) && IsTopSet(before, k, P, H)
    requires Sorted(before, out) && Elems(out) == H
    ensures IsTopK(before, k, P, out)
  {
    SortedNoDup(before, out);
    ElemsCard(out);
    assert forall i :: 0 <= i < |out| ==> out[i] in Elems(out);
  }

  /** Keeping the k best of a stream of distinct entries, one entry at a time. */
  method KeepBest<T(==, !new)>(before: (T, T) -> bool, k: nat, heap: seq<T>, x: T, ghost P: set<T>) returns (r: seq<T>)
    requires k > 0 && IsHeap(before, heap) && IsTopSet(before, k, P, Elems(heap))
    requires x !in P && TotalOn(before, P + {x})
    ensures IsHeap(before, r) && IsTopSet(before, k, P + {x}, Elems(r))
  {
    ElemsCard(heap);
    assert TotalOn(before, Elems(heap) + {x}) by { assert Elems(heap) + {x} <= P + {x}; }
    if |heap| < k {
      TopSetStep(before, k, P, Elems(heap), x, x);
      r := HeapPush(before, heap, x);
    } else {
      assert forall h :: h in Elems(heap) && h != heap[0] ==> before(h, heap[0]);
      TopSetStep(before, k, P, Elems(heap), x, heap[0]);
      r := heap;
      if before(x, heap[0]) {
        r := HeapReplace(before, heap, x);
      }
    }
  }
}
