/** What a dispatch answers, in the statuses and candidates the retrievers returned. */
module DispatchTheorems {
  import opened Orders
  import opened Sums
  import opened Candidates
  import opened CandidateMerge
  import opened Orchestrator

  /** The call went through and reports none of the three errors. */
  predicate Usable(f: Fetched) {
    f.rpcOk && f.status != INVALID_REQUEST && f.status != USER_NOT_FOUND && f.status != SYSTEM_ERROR
  }

  function UsableCount(fetched: seq<Fetched>): nat {
    if fetched == [] then 0
    else UsableCount(fetched[..|fetched| - 1]) + if Usable(fetched[|fetched| - 1]) then 1 else 0
  }

  /** All candidates of the usable responses, response after response. */
  function Offered(fetched: seq<Fetched>): seq<Candidate> {
    if fetched == [] then []
    else
      var last := fetched[|fetched| - 1];
      Offered(fetched[..|fetched| - 1]) + if Usable(last) then last.candidates else []
  }

  lemma {:induction false} AcceptedUsable(fetched: seq<Fetched>)
    ensures |Accepted(fetched)| == UsableCount(fetched)
    ensures Accepted(fetched) == [] <==> forall i :: 0 <= i < |fetched| ==> !Usable(fetched[i])
  {
    if fetched != [] {
      var n := |fetched| - 1;
      AcceptedUsable(fetched[..n]);
      assert forall i :: 0 <= i < n ==> fetched[..n][i] == fetched[i];
    }
  }

  lemma {:induction false} AcceptedPlace(fetched: seq<Fetched>, q: nat)
    requires q < |fetched| && Usable(fetched[q])
    ensures UsableCount(fetched[..q]) < |Accepted(fetched)|
    ensures Accepted(fetched)[UsableCount(fetched[..q])] == fetched[q].candidates
  {
    var n := |fetched| - 1;
    AcceptedUsable(fetched[..q]);
    if q < n {
      AcceptedPlace(fetched[..n], q);
      assert fetched[..n][..q] == fetched[..q];
    }
  }

  // ----- the stream is a permutation of what was offered -----------------------------------------------

  function Concat(rs: seq<seq<Candidate>>): seq<Candidate> {
    if rs == [] then [] else Concat(rs[..|rs| - 1]) + rs[|rs| - 1]
  }

  lemma {:induction false} AcceptedOffered(fetched: seq<Fetched>)
    ensures Concat(Accepted(fetched)) == Offered(fetched)
  {
    if fetched != [] {
      var n := |fetched| - 1;
      var r := Accepted(fetched[..n]);
      AcceptedOffered(fetched[..n]);
      assert (r + [fetched[n].candidates])[..|r|] == r;
      assert r + [] == r && Offered(fetched[..n]) + [] == Offered(fetched[..n]);
    }
  }

  /** The first n candidates of each of the first k responses. */
  function Heads(rs: seq<seq<Candidate>>, n: nat, k: nat): seq<Candidate>
    requires k <= |rs|
  {
    if k == 0 then [] else Heads(rs, n, k - 1) + rs[k - 1][..Min(n, |rs[k - 1]|)]
  }

  /** How often a candidate occurs. */
  function Copies(s: seq<Candidate>, c: Candidate): nat {
    multiset(s)[c]
  }

  lemma {:induction false} CopiesConcat(a: seq<Candidate>, b: seq<Candidate>, c: Candidate)
    ensures Copies(a + b, c) == Copies(a, c) + Copies(b, c) && Copies([], c) == 0
  {
  }

  lemma {:induction false} HeadGrows(r: seq<Candidate>, n: nat, c: Candidate)
    ensures Copies(r[..Min(n + 1, |r|)], c) ==
            Copies(r[..Min(n, |r|)], c) + Copies(if n < |r| then [r[n]] else [], c)
  {
    if n < |r| {
      assert r[..n + 1] == r[..n] + [r[n]];
    }
  }

  lemma {:induction false} HeadsStep(rs: seq<seq<Candidate>>, n: nat, k: nat, c: Candidate)
    requires k <= |rs|
    ensures Copies(Heads(rs, n + 1, k), c) == Copies(Heads(rs, n, k), c) + Copies(Round(rs, n, k), c)
  {
    hide Copies;
    CopiesConcat([], [], c);
    if k > 0 {
      var r := rs[k - 1];
      HeadsStep(rs, n, k - 1, c);
      HeadGrows(r, n, c);
      CopiesConcat(Heads(rs, n + 1, k - 1), r[..Min(n + 1, |r|)], c);
      CopiesConcat(Heads(rs, n, k - 1), r[..Min(n, |r|)], c);
      CopiesConcat(Round(rs, n, k - 1), if n < |r| then [r[n]] else [], c);
    }
  }

  lemma {:induction false} RoundsAreHeads(rs: seq<seq<Candidate>>, n: nat, c: Candidate)
    ensures Copies(Rounds(rs, n), c) == Copies(Heads(rs, n, |rs|), c)
  {
    hide Copies, Heads, Round;
    if n == 0 {
      NoHeads(rs, |rs|);
    } else {
      RoundsAreHeads(rs, n - 1, c);
      HeadsStep(rs, n - 1, |rs|, c);
      CopiesConcat(Rounds(rs, n - 1), Round(rs, n - 1, |rs|), c);
    }
  }

  lemma {:induction false} NoHeads(rs: seq<seq<Candidate>>, k: nat)
    requires k <= |rs|
    ensures Heads(rs, 0, k) == []
  {
    if k > 0 {
      NoHeads(rs, k - 1);
    }
  }

  lemma {:induction false} FullHeads(rs: seq<seq<Candidate>>, n: nat, k: nat)
    requires k <= |rs| && forall r :: r in rs ==> |r| <= n
    ensures Heads(rs, n, k) == Concat(rs[..k])
  {
    if k > 0 {
      FullHeads(rs, n, k - 1);
      assert rs[k - 1] in rs;
      assert rs[..k][..k - 1] == rs[..k - 1];
      assert rs[k - 1][..|rs[k - 1]|] == rs[k - 1];
    }
  }

  /** The round-robin loses no candidate and repeats none. */
  lemma {:induction false} RoundRobinPermutes(rs: seq<seq<Candidate>>)
    ensures multiset(RoundRobin(rs)) == multiset(Concat(rs))
  {
    FullHeads(rs, MaxLength(rs), |rs|);
    assert rs[..|rs|] == rs;
    forall c ensures multiset(RoundRobin(rs))[c] == multiset(Concat(rs))[c] {
      RoundsAreHeads(rs, MaxLength(rs), c);
    }
  }

  // ----- the answer ------------------------------------------------------------------------------------

  /** An error exactly if no response is usable. Otherwise every returned item was offered in a
      usable response, its score is the sum of what all its offers carry, and ids are distinct
      and at most as many as the cap. */
  lemma {:induction false} DispatchMeaning(fetched: seq<Fetched>, cap: int, result: RetrieveResult)
    requires IsDispatch(fetched, cap, result)
    ensures result.AllRetrieversFailed? <==> forall i :: 0 <= i < |fetched| ==> !Usable(fetched[i])
    ensures result.AllRetrieversFailed? ==> result.failures == |fetched|
    ensures result.Retrieved? ==>
              && result.candidateCount == |result.candidates| <= Max(cap, 0)
              && DistinctIds(result.candidates)
              && forall i :: 0 <= i < |result.candidates| ==>
                   var o := result.candidates[i];
                   && o.itemId != 0 && (exists c :: c in Offered(fetched) && c.itemId == o.itemId)
                   && o.score == SumBy(Offered(fetched), ShareOf(o.itemId))
  {
    hide MergeAll, DistinctIds, Rebuild, SumBy, RoundRobin;
    AcceptedUsable(fetched);
    if result.Retrieved? {
      var rs := Accepted(fetched);
      var flat := RoundRobin(rs);
      ResponseConserves(rs, cap);
      AcceptedOffered(fetched);
      RoundRobinPermutes(rs);
      forall i | 0 <= i < |result.candidates|
        ensures var o := result.candidates[i];
                && o.itemId != 0 && (exists c :: c in Offered(fetched) && c.itemId == o.itemId)
                && o.score == SumBy(Offered(fetched), ShareOf(o.itemId)) {
        OfferedItem(flat, cap, i, Offered(fetched));
      }
    }
  }

  lemma {:induction false} OfferedItem(flat: seq<Candidate>, cap: int, i: nat, offered: seq<Candidate>)
    requires i < |Take(cap, MergeAll(flat))| && multiset(flat) == multiset(offered)
    ensures var o := Take(cap, MergeAll(flat))[i];
            && o.itemId != 0 && (exists c :: c in offered && c.itemId == o.itemId)
            && o.score == SumBy(offered, ShareOf(o.itemId))
  {
    hide MergeAll, Rebuild, SumBy;
    var o := MergeAll(flat)[i];
    MergeAllShape(flat);
    MergeAllConserves(flat, i);
    ShareIsScore(flat, o.itemId);
    SumByPermuted(flat, offered, ShareOf(o.itemId));
    assert IndexOf(MergeAll(flat), o.itemId) <= i;
    MergeAllIds(flat, o.itemId);
    OccurrencesMember(flat, o.itemId);
    var c :| c in flat && c.itemId == o.itemId;
    assert c in multiset(offered);
  }

  /** The candidate at position p of the usable response q is represented whenever p times the
      number of usable responses, plus those before q, is below the cap. */
  lemma {:induction false} UsableRepresented(fetched: seq<Fetched>, cap: int, result: RetrieveResult, q: nat, p: nat)
    requires IsDispatch(fetched, cap, result)
    requires q < |fetched| && Usable(fetched[q]) && p < |fetched[q].candidates| && fetched[q].candidates[p].itemId != 0
    requires p * UsableCount(fetched) + UsableCount(fetched[..q]) < cap
    ensures result.Retrieved? && Contains(result.candidates, fetched[q].candidates[p].itemId)
  {
    hide MergeAll, RoundRobin, Contains;
    AcceptedUsable(fetched);
    AcceptedPlace(fetched, q);
    Represented(Accepted(fetched), cap, UsableCount(fetched[..q]), p);
  }
}
