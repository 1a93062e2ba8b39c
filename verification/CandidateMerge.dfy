/** The ranker's uncapped merge, the orchestrator's capped one, and what both conserve. */
module CandidateMerge {
  import opened Orders
  import opened Candidates
  import opened Sums

  /** Where an item stands, or the length if it is absent. */
  function IndexOf(acc: seq<Candidate>, id: nat): (k: nat)
    ensures k <= |acc|
    ensures k < |acc| ==> acc[k].itemId == id
    ensures forall i :: 0 <= i < k ==> acc[i].itemId != id
  {
    if acc == [] || acc[0].itemId == id then 0 else 1 + IndexOf(acc[1..], id)
  }

  /** One candidate of the uncapped merge. */
  function AddUncapped(acc: seq<Candidate>, c: Candidate): seq<Candidate> {
    var k := IndexOf(acc, c.itemId);
    if c.itemId == 0 then acc
    else if k < |acc| then acc[k := MergeInto(c, acc[k])]
    else acc + [Normalize(c)]
  }

  function MergeAll(list: seq<Candidate>): seq<Candidate> {
    if list == [] then [] else AddUncapped(MergeAll(list[..|list| - 1]), list[|list| - 1])
  }

  /** The hash map points at the position of every item in the vector. */
  ghost predicate Indexed(acc: seq<Candidate>, index: map<nat, nat>) {
    && (forall id :: id in index <==> IndexOf(acc, id) < |acc|)
    && (forall id :: id in index ==> index[id] == IndexOf(acc, id))
  }

  lemma {:induction false} IndexedMerge(acc: seq<Candidate>, index: map<nat, nat>, c: Candidate)
    requires Indexed(acc, index) && c.itemId in index
    ensures Indexed(acc[index[c.itemId] := MergeInto(c, acc[index[c.itemId]])], index)
  {
    hide MergeInto;
    var k := index[c.itemId];
    MergeIntoShape(c, acc[k]);
    var b := acc[k := MergeInto(c, acc[k])];
    forall id ensures IndexOf(b, id) == IndexOf(acc, id) {
      IndexOfSameIds(acc, b, id);
    }
  }

  lemma {:induction false} IndexedAppend(acc: seq<Candidate>, index: map<nat, nat>, c: Candidate)
    requires Indexed(acc, index) && c.itemId !in index
    ensures Indexed(acc + [Normalize(c)], index[c.itemId := |acc|])
  {
    hide Normalize;
    NormalizeShape(c);
    forall id ensures IndexOf(acc + [Normalize(c)], id) == if IndexOf(acc, id) < |acc| then IndexOf(acc, id)
                                                           else if id == c.itemId then |acc| else |acc| + 1 {
      IndexOfAppend(acc, Normalize(c), id);
    }
  }

  /** The ranker's NormalizeAndMergeCandidates: an index by item id beside the vector. */
  method NormalizeAndMergeCandidates(list: seq<Candidate>) returns (candidates: seq<Candidate>)
    ensures candidates == MergeAll(list)
  {
    hide MergeInto, Normalize;
    candidates := [];
    var indexByItemId: map<nat, nat> := map[];
    for i := 0 to |list|
      invariant candidates == MergeAll(list[..i]) && Indexed(candidates, indexByItemId)
    {
      var c := list[i];
      assert list[..i + 1][..i] == list[..i];
      if c.itemId == 0 {
        continue;
      }
      if c.itemId in indexByItemId {
        IndexedMerge(candidates, indexByItemId, c);
        var merged := MergeCandidate(c, candidates[indexByItemId[c.itemId]]);
        candidates := candidates[indexByItemId[c.itemId] := merged];
        continue;
      }
      IndexedAppend(candidates, indexByItemId, c);
      var normalized := NormalizeCandidate(c);
      indexByItemId := indexByItemId[c.itemId := |candidates|];
      candidates := candidates + [normalized];
    }
    assert list[..|list|] == list;
  }

  lemma {:induction false} IndexOfSameIds(a: seq<Candidate>, b: seq<Candidate>, id: nat)
    requires |a| == |b| && forall i :: 0 <= i < |a| ==> a[i].itemId == b[i].itemId
    ensures IndexOf(a, id) == IndexOf(b, id)
  {
  }

  lemma {:induction false} IndexOfAppend(a: seq<Candidate>, c: Candidate, id: nat)
    ensures IndexOf(a + [c], id) == if IndexOf(a, id) < |a| then IndexOf(a, id)
                                    else if id == c.itemId then |a| else |a| + 1
  {
    var b := a + [c];
    var i, j := IndexOf(a, id), IndexOf(b, id);
    if i < |a| {
      assert b[i].itemId == id;
      assert forall m :: 0 <= m < |a| ==> b[m].itemId == a[m].itemId;
    } else {
      assert forall m :: 0 <= m < |a| ==> b[m].itemId == a[m].itemId;
      assert b[|a|] == c;
    }
  }

  // ----- shape of the merged list -------------------------------------------------------------

  ghost predicate DistinctIds(acc: seq<Candidate>) {
    forall i, j :: 0 <= i < j < |acc| ==> acc[i].itemId != acc[j].itemId
  }

  ghost predicate WellMerged(acc: seq<Candidate>) {
    && DistinctIds(acc)
    && (forall i :: 0 <= i < |acc| ==> acc[i].itemId != 0 && acc[i].signals != [] && acc[i] == Rebuild(acc[i]))
  }

  lemma {:induction false} MergeIntoShape(source: Candidate, target: Candidate)
    ensures var m := MergeInto(source, target);
            m.itemId == target.itemId && m.signals != [] && m == Rebuild(m)
  {
    MergeSignalsNonEmpty(target.signals, Effective(source));
  }

  lemma {:induction false} AddKeepsShape(acc: seq<Candidate>, c: Candidate)
    requires WellMerged(acc)
    ensures WellMerged(AddUncapped(acc, c))
  {
    hide Rebuild;
    var k := IndexOf(acc, c.itemId);
    if c.itemId != 0 && k < |acc| {
      MergeIntoShape(c, acc[k]);
    } else if c.itemId != 0 {
      NormalizeShape(c);
    }
  }

  lemma {:induction false} NormalizeShape(c: Candidate)
    ensures Normalize(c).itemId == c.itemId && Normalize(c).signals == Effective(c) &&
            Normalize(c) == Rebuild(Normalize(c))
  {
  }

  /** Ids are distinct and non-zero, and the legacy fields are the fold over the signals. */
  lemma {:induction false} MergeAllShape(list: seq<Candidate>)
    ensures WellMerged(MergeAll(list))
  {
    hide WellMerged, AddUncapped;
    if list != [] {
      MergeAllShape(list[..|list| - 1]);
      AddKeepsShape(MergeAll(list[..|list| - 1]), list[|list| - 1]);
    } else {
      EmptyShape();
    }
  }

  lemma {:induction false} EmptyShape()
    ensures WellMerged([])
  {
  }

  lemma {:induction false} NormalizeIdentity(c: Candidate)
    requires c.signals != [] && c == Rebuild(c)
    ensures Normalize(c) == c
  {
  }

  lemma {:induction false} AppendFresh(acc: seq<Candidate>, c: Candidate)
    requires c.itemId != 0 && forall i :: 0 <= i < |acc| ==> acc[i].itemId != c.itemId
    ensures AddUncapped(acc, c) == acc + [Normalize(c)]
  {
  }

  lemma {:induction false} WellMergedPrefix(acc: seq<Candidate>, n: nat)
    requires WellMerged(acc) && n <= |acc|
    ensures WellMerged(acc[..n])
  {
    hide Rebuild;
  }

  /** A merged list passes through the merge unchanged. */
  lemma {:induction false} MergeAllIdentity(acc: seq<Candidate>)
    requires WellMerged(acc)
    ensures MergeAll(acc) == acc
  {
    hide Rebuild, Normalize, AddUncapped;
    if acc != [] {
      var n := |acc| - 1;
      WellMergedPrefix(acc, n);
      MergeAllIdentity(acc[..n]);
      NormalizeIdentity(acc[n]);
      assert forall k :: 0 <= k < n ==> acc[..n][k].itemId == acc[k].itemId != acc[n].itemId;
      AppendFresh(acc[..n], acc[n]);
      assert acc == acc[..n] + [acc[n]];
    }
  }

  // ----- the cap ---------------------------------------------------------------------------------

  /** One candidate of the capped merge: a new item is dropped once the list is full, but a
      known item keeps merging. */
  function AddCapped(cap: int, acc: seq<Candidate>, c: Candidate): seq<Candidate> {
    var k := IndexOf(acc, c.itemId);
    if c.itemId == 0 then acc
    else if k < |acc| then acc[k := MergeInto(c, acc[k])]
    else if |acc| < cap then acc + [Normalize(c)]
    else acc
  }

  /** Capping while merging is the same as merging everything and cutting afterwards. */
  lemma {:induction false} CappedStep(cap: int, full: seq<Candidate>, c: Candidate)
    ensures AddCapped(cap, Take(cap, full), c) == Take(cap, AddUncapped(full, c))
  {
    hide MergeInto, Normalize;
    var t := Take(cap, full);
    var k, m := IndexOf(full, c.itemId), IndexOf(t, c.itemId);
    assert forall i :: 0 <= i < |t| ==> t[i].itemId == full[i].itemId;
    if c.itemId != 0 {
      if k < |full| {
        if k < |t| {
          assert t[k].itemId == c.itemId;
          assert m == k;
          assert Take(cap, full[k := MergeInto(c, full[k])]) == t[k := MergeInto(c, t[k])];
        } else {
          assert m == |t| && |t| >= cap;
          assert Take(cap, full[k := MergeInto(c, full[k])]) == t;
        }
      } else {
        assert m == |t|;
        if |full| < cap {
          assert t == full;
        } else {
          assert Take(cap, full + [Normalize(c)]) == t;
        }
      }
    }
  }

  // ----- conservation -------------------------------------------------------------------------------

  /** The occurrences of one item. */
  function Occurrences(list: seq<Candidate>, id: nat): seq<Candidate> {
    if list == [] then []
    else
      var last := list[|list| - 1];
      Occurrences(list[..|list| - 1], id) + (if last.itemId == id then [last] else [])
  }

  function SumScoreOf(occ: seq<Candidate>, name: string): real {
    if occ == [] then 0.0 else SumScoreOf(occ[..|occ| - 1], name) + ScoreOf(Effective(occ[|occ| - 1]), name)
  }

  function SumScore(occ: seq<Candidate>): real {
    if occ == [] then 0.0 else SumScore(occ[..|occ| - 1]) + TotalScore(Effective(occ[|occ| - 1]))
  }

  function UnionReasons(occ: seq<Candidate>): multiset<Reason> {
    if occ == [] then multiset{} else UnionReasons(occ[..|occ| - 1]) + ReasonBag(Effective(occ[|occ| - 1]))
  }

  /** The first specified item type, and the first non-zero author. */
  function FirstType(occ: seq<Candidate>): int {
    if occ == [] then ITEM_TYPE_UNSPECIFIED
    else
      var t := FirstType(occ[..|occ| - 1]);
      if t == ITEM_TYPE_UNSPECIFIED then occ[|occ| - 1].itemType else t
  }

  function FirstAuthor(occ: seq<Candidate>): nat {
    if occ == [] then 0
    else
      var a := FirstAuthor(occ[..|occ| - 1]);
      if a == 0 then occ[|occ| - 1].authorId else a
  }

  /** The merged candidate carries exactly what its occurrences brought. */
  ghost predicate Conserves(o: Candidate, occ: seq<Candidate>) {
    && (forall name :: ScoreOf(o.signals, name) == SumScoreOf(occ, name))
    && o.score == SumScore(occ)
    && multiset(o.reasons) == UnionReasons(occ)
    && o.itemType == FirstType(occ)
    && o.authorId == FirstAuthor(occ)
  }

  lemma {:induction false} NormalizeConserves(c: Candidate)
    ensures Conserves(Normalize(c), [c])
  {
    SingleOccurrence(c);
    ReasonsAsBag(Effective(c));
    forall name ensures ScoreOf(Normalize(c).signals, name) == SumScoreOf([c], name) {
      assert SumScoreOf([], name) == 0.0 && [c][..0] == [];
    }
  }

  lemma {:induction false} SingleOccurrence(c: Candidate)
    ensures SumScore([c]) == TotalScore(Effective(c)) && UnionReasons([c]) == ReasonBag(Effective(c))
    ensures FirstType([c]) == c.itemType && FirstAuthor([c]) == c.authorId
  {
    var none: seq<Candidate> := [];
    assert [c][..0] == none;
    assert SumScore(none) == 0.0 && UnionReasons(none) == multiset{} && FirstType(none) == 0 && FirstAuthor(none) == 0;
  }

  lemma {:induction false} MergeIntoConserves(c: Candidate, o: Candidate, occ: seq<Candidate>)
    requires Conserves(o, occ) && o == Rebuild(o)
    ensures Conserves(MergeInto(c, o), occ + [c])
  {
    assert (occ + [c])[..|occ|] == occ;
    var m := MergeInto(c, o);
    assert o.score == TotalScore(o.signals) && o.reasons == AllReasons(o.signals);
    ReasonsAsBag(o.signals);
    ReasonsAsBag(m.signals);
    MergeSignalsConserves(o.signals, Effective(c), "");
    forall name ensures ScoreOf(m.signals, name) == SumScoreOf(occ + [c], name) {
      MergeSignalsConserves(o.signals, Effective(c), name);
    }
  }

  /** The merged list represents exactly the non-zero ids that occur. */
  lemma {:induction false} MergeAllIds(list: seq<Candidate>, id: nat)
    ensures IndexOf(MergeAll(list), id) < |MergeAll(list)| <==> id != 0 && Occurrences(list, id) != []
  {
    hide MergeInto, Normalize;
    if list != [] {
      var n := |list| - 1;
      var acc := MergeAll(list[..n]);
      var k := IndexOf(acc, list[n].itemId);
      MergeAllIds(list[..n], id);
      NormalizeShape(list[n]);
      if list[n].itemId != 0 && k < |acc| {
        MergeIntoShape(list[n], acc[k]);
        IndexOfSameIds(acc, acc[k := MergeInto(list[n], acc[k])], id);
      } else if list[n].itemId != 0 {
        IndexOfAppend(acc, Normalize(list[n]), id);
      }
    }
  }

  lemma {:induction false} OccurrencesOther(list: seq<Candidate>, id: nat)
    requires list != [] && list[|list| - 1].itemId != id
    ensures Occurrences(list, id) == Occurrences(list[..|list| - 1], id)
  {
  }

  lemma {:induction false} MergeAllConserves(list: seq<Candidate>, i: nat)
    requires i < |MergeAll(list)|
    ensures Conserves(MergeAll(list)[i], Occurrences(list, MergeAll(list)[i].itemId))
  {
    hide Conserves, MergeInto, Normalize, Rebuild;
    var n := |list| - 1;
    var acc, c := MergeAll(list[..n]), list[n];
    MergeAllShape(list[..n]);
    var k := IndexOf(acc, c.itemId);
    NormalizeShape(c);
    if c.itemId == 0 {
      MergeAllConserves(list[..n], i);
      assert acc[i].itemId != 0;
      OccurrencesOther(list, acc[i].itemId);
    } else if k < |acc| {
      MergeIntoShape(c, acc[k]);
      MergeAllConserves(list[..n], i);
      if i == k {
        MergeIntoConserves(c, acc[k], Occurrences(list[..n], c.itemId));
      } else {
        assert acc[Min(i, k)].itemId != acc[Max(i, k)].itemId;
        OccurrencesOther(list, acc[i].itemId);
      }
    } else if i < |acc| {
      MergeAllConserves(list[..n], i);
      assert acc[i].itemId != c.itemId;
      OccurrencesOther(list, acc[i].itemId);
    } else {
      MergeAllIds(list[..n], c.itemId);
      NormalizeConserves(c);
      assert Occurrences(list, c.itemId) == [c];
    }
  }

  // ----- shares ------------------------------------------------------------------------------------

  /** What one candidate adds to the total retrieval score of an item. */
  function Share(c: Candidate, id: nat): real {
    if c.itemId == id then TotalScore(Effective(c)) else 0.0
  }

  function ShareOf(id: nat): Candidate -> real {
    (c: Candidate) => Share(c, id)
  }

  lemma {:induction false} ShareIsScore(list: seq<Candidate>, id: nat)
    ensures SumBy(list, ShareOf(id)) == SumScore(Occurrences(list, id))
  {
    if list != [] {
      var n := |list| - 1;
      ShareIsScore(list[..n], id);
      if list[n].itemId == id {
        var occ := Occurrences(list[..n], id);
        assert (occ + [list[n]])[..|occ|] == occ;
      } else {
        OccurrencesOther(list, id);
      }
    }
  }

  lemma {:induction false} OccurrencesMember(list: seq<Candidate>, id: nat)
    ensures Occurrences(list, id) != [] <==> exists c :: c in list && c.itemId == id
  {
    if list != [] {
      var n := |list| - 1;
      OccurrencesMember(list[..n], id);
      assert list == list[..n] + [list[n]];
    }
  }
}
