/** The retrieval orchestrator: round-robin over the accepted responses, one capped merge. */
module Orchestrator {
  import opened Orders
  import opened Candidates
  import opened CandidateMerge

  datatype RetrieverStatus = SUCCESS | INVALID_REQUEST | USER_NOT_FOUND | SYSTEM_ERROR | EMPTY_TRIGGER_SEEDS

  /** What one retriever call yields: the transport outcome and the response. */
  datatype Fetched = Fetched(rpcOk: bool, status: RetrieverStatus, candidates: seq<Candidate>)

  datatype RetrieveResult =
    | Retrieved(candidates: seq<Candidate>, candidateCount: nat)
    | AllRetrieversFailed(failures: nat)

  predicate IsAccepted(f: Fetched) {
    f.rpcOk && (f.status == SUCCESS || f.status == EMPTY_TRIGGER_SEEDS)
  }

  function Accepted(fetched: seq<Fetched>): seq<seq<Candidate>> {
    if fetched == [] then []
    else
      var last := fetched[|fetched| - 1];
      Accepted(fetched[..|fetched| - 1]) + (if IsAccepted(last) then [last.candidates] else [])
  }

  // ----- round-robin order ------------------------------------------------------------------

  /** The candidates at position p of the first k responses, in response order. */
  function Round(rs: seq<seq<Candidate>>, p: nat, k: nat): (r: seq<Candidate>)
    requires k <= |rs|
    ensures |r| <= k
  {
    if k == 0 then [] else Round(rs, p, k - 1) + (if p < |rs[k - 1]| then [rs[k - 1][p]] else [])
  }

  /** The first n rounds. */
  function Rounds(rs: seq<seq<Candidate>>, n: nat): (r: seq<Candidate>)
    ensures |r| <= n * |rs|
  {
    if n == 0 then []
    else
      assert n * |rs| == (n - 1) * |rs| + |rs|;
      Rounds(rs, n - 1) + Round(rs, n - 1, |rs|)
  }

  function MaxLength(rs: seq<seq<Candidate>>): (m: nat)
    ensures forall r :: r in rs ==> |r| <= m
    ensures m == 0 || exists r :: r in rs && |r| == m
  {
    if rs == [] then 0
    else
      var m := MaxLength(rs[..|rs| - 1]);
      assert rs == rs[..|rs| - 1] + [rs[|rs| - 1]];
      if |rs[|rs| - 1]| > m then |rs[|rs| - 1]| else m
  }

  function RoundRobin(rs: seq<seq<Candidate>>): seq<Candidate> {
    Rounds(rs, MaxLength(rs))
  }

  // ----- the merge loop ------------------------------------------------------------------------

  /** The response being filled and the hash map into it. */
  class ResponseBuilder {
    const maxCandidateCount: int
    var candidates: seq<Candidate>
    var indexByItemId: map<nat, nat>

    ghost predicate Valid() reads this {
      Indexed(candidates, indexByItemId)
    }

    constructor (maxCandidateCount: int)
      ensures Valid() && candidates == [] && this.maxCandidateCount == maxCandidateCount
    {
      this.maxCandidateCount, candidates, indexByItemId := maxCandidateCount, [], map[];
    }

    /** One candidate of the merge loop's body. */
    method Offer(c: Candidate)
      requires Valid()
      modifies this
      ensures Valid() && candidates == AddCapped(maxCandidateCount, old(candidates), c)
    {
      hide MergeInto, Normalize;
      if c.itemId == 0 {
        return;
      }
      if c.itemId in indexByItemId {
        IndexedMerge(candidates, indexByItemId, c);
        var merged := MergeCandidate(c, candidates[indexByItemId[c.itemId]]);
        candidates := candidates[indexByItemId[c.itemId] := merged];
        return;
      }
      if |candidates| < maxCandidateCount {
        IndexedAppend(candidates, indexByItemId, c);
        var added := NormalizeCandidate(c);
        candidates := candidates + [added];
        indexByItemId := indexByItemId[c.itemId := |candidates| - 1];
      }
    }
  }

  lemma {:induction false} OfferStep(cap: int, list: seq<Candidate>, c: Candidate)
    ensures AddCapped(cap, Take(cap, MergeAll(list)), c) == Take(cap, MergeAll(list + [c]))
  {
    CappedStep(cap, MergeAll(list), c);
    assert (list + [c])[..|list|] == list;
  }

  lemma {:induction false} RoundBeyond(rs: seq<seq<Candidate>>, p: nat, k: nat)
    requires k <= |rs| && forall r :: r in rs ==> |r| <= p
    ensures Round(rs, p, k) == []
  {
    if k > 0 {
      assert rs[k - 1] in rs;
      RoundBeyond(rs, p, k - 1);
    }
  }

  lemma {:induction false} RoundStep(rs: seq<seq<Candidate>>, p: nat, r: nat)
    requires r < |rs|
    ensures Round(rs, p, r + 1) == if p < |rs[r]| then Round(rs, p, r) + [rs[r][p]] else Round(rs, p, r)
  {
    assert Round(rs, p, r) + [] == Round(rs, p, r);
  }

  lemma {:induction false} RoundEnds(rs: seq<seq<Candidate>>, p: nat)
    ensures Round(rs, p, 0) == [] && Rounds(rs, p + 1) == Rounds(rs, p) + Round(rs, p, |rs|)
  {
  }

  /** One pass of the inner loop: every response that still has a candidate offers it. */
  method OfferRound(rs: seq<seq<Candidate>>, next: seq<nat>, ghost p: nat, builder: ResponseBuilder)
    returns (advanced: bool, next': seq<nat>)
    requires builder.Valid() && |next| == |rs|
    requires forall r :: 0 <= r < |rs| ==> next[r] == Min(p, |rs[r]|)
    requires builder.candidates == Take(builder.maxCandidateCount, MergeAll(Rounds(rs, p)))
    modifies builder
    ensures builder.Valid() && |next'| == |rs|
    ensures forall r :: 0 <= r < |rs| ==> next'[r] == Min(p + 1, |rs[r]|)
    ensures builder.candidates == Take(builder.maxCandidateCount, MergeAll(Rounds(rs, p + 1)))
    ensures advanced <==> exists r :: 0 <= r < |rs| && p < |rs[r]|
  {
    hide AddCapped, Take, MergeAll, Rounds, Round;
    RoundEnds(rs, p);
    advanced, next' := false, next;
    ghost var offered := Rounds(rs, p);
    assert offered + [] == offered;
    for r := 0 to |rs|
      invariant builder.Valid() && |next'| == |rs| && offered == Rounds(rs, p) + Round(rs, p, r)
      invariant builder.candidates == Take(builder.maxCandidateCount, MergeAll(offered))
      invariant forall i :: 0 <= i < r ==> next'[i] == Min(p + 1, |rs[i]|)
      invariant forall i :: r <= i < |rs| ==> next'[i] == next[i]
      invariant advanced <==> exists i :: 0 <= i < r && p < |rs[i]|
    {
      RoundStep(rs, p, r);
      if next'[r] >= |rs[r]| {
        continue;
      }
      var c := rs[r][next'[r]];
      next' := next'[r := next'[r] + 1];
      advanced := true;
      OfferStep(builder.maxCandidateCount, offered, c);
      builder.Offer(c);
      assert Rounds(rs, p) + Round(rs, p, r + 1) == offered + [c];
      offered := offered + [c];
    }
  }

  /** The `while (true)` loop ends once a round advances nothing. */
  method MergeResponses(rs: seq<seq<Candidate>>, maxCandidateCount: int) returns (candidates: seq<Candidate>)
    ensures candidates == Take(maxCandidateCount, MergeAll(RoundRobin(rs)))
  {
    var builder := new ResponseBuilder(maxCandidateCount);
    var next: seq<nat> := seq(|rs|, _ => 0);
    ghost var p := 0;
    while true
      invariant fresh(builder) && builder.Valid() && |next| == |rs| && builder.maxCandidateCount == maxCandidateCount
      invariant forall r :: 0 <= r < |rs| ==> next[r] == Min(p, |rs[r]|)
      invariant builder.candidates == Take(maxCandidateCount, MergeAll(Rounds(rs, p)))
      invariant p <= MaxLength(rs)
      decreases MaxLength(rs) - p
    {
      var advanced;
      advanced, next := OfferRound(rs, next, p, builder);
      if !advanced {
        assert forall r :: r in rs ==> |r| <= p;
        RoundBeyond(rs, p, |rs|);
        assert Rounds(rs, p + 1) == Rounds(rs, p);
        assert p == MaxLength(rs);
        break;
      }
      p := p + 1;
      assert p <= MaxLength(rs) by {
        var r :| 0 <= r < |rs| && p - 1 < |rs[r]|;
        assert rs[r] in rs;
      }
    }
    candidates := builder.candidates;
  }

  /** The merged responses of the retrievers that were accepted, or an error if none was. */
  predicate IsDispatch(fetched: seq<Fetched>, maxCandidateCount: int, result: RetrieveResult) {
    if Accepted(fetched) == [] then result == AllRetrieversFailed(|fetched|)
    else
      var list := Take(maxCandidateCount, MergeAll(RoundRobin(Accepted(fetched))));
      result == Retrieved(list, |list|)
  }

  /** The whole dispatch: failed retrievers are skipped, all failing is an error. */
  method DispatchToRetrievers(fetched: seq<Fetched>, maxCandidateCount: int) returns (result: RetrieveResult)
    ensures IsDispatch(fetched, maxCandidateCount, result)
  {
    var failures: nat, responses: seq<seq<Candidate>> := 0, [];
    for i := 0 to |fetched|
      invariant responses == Accepted(fetched[..i]) && failures + |responses| == i
    {
      assert fetched[..i + 1][..i] == fetched[..i];
      if !IsAccepted(fetched[i]) {
        failures := failures + 1;
        continue;
      }
      responses := responses + [fetched[i].candidates];
    }
    assert fetched[..|fetched|] == fetched;
    if responses == [] {
      return AllRetrieversFailed(failures);
    }
    var candidates := MergeResponses(responses, maxCandidateCount);
    return Retrieved(candidates, |candidates|);
  }

  // ----- representation ---------------------------------------------------------------------------

  lemma {:induction false} AddKeepsIds(acc: seq<Candidate>, c: Candidate, i: nat)
    requires i < |acc|
    ensures i < |AddUncapped(acc, c)| && AddUncapped(acc, c)[i].itemId == acc[i].itemId
  {
    hide MergeInto, Normalize;
    var k := IndexOf(acc, c.itemId);
    if k < |acc| { MergeIntoShape(c, acc[k]); }
  }

  /** A prefix of the stream fixes a prefix of the merged ids. */
  lemma {:induction false} MergePrefixIds(list: seq<Candidate>, n: nat, i: nat)
    requires n <= |list| && i < |MergeAll(list[..n])|
    ensures i < |MergeAll(list)| && MergeAll(list)[i].itemId == MergeAll(list[..n])[i].itemId
  {
    hide AddUncapped;
    if n == |list| {
      assert list[..n] == list;
    } else {
      var m := |list| - 1;
      assert list[..m][..n] == list[..n];
      MergePrefixIds(list[..m], n, i);
      AddKeepsIds(MergeAll(list[..m]), list[m], i);
    }
  }

  lemma {:induction false} MergeLength(list: seq<Candidate>)
    ensures |MergeAll(list)| <= |list|
  {
    if list != [] { MergeLength(list[..|list| - 1]); }
  }

  lemma {:induction false} RoundPosition(rs: seq<seq<Candidate>>, p: nat, k: nat, r: nat) returns (j: nat)
    requires r < k <= |rs| && p < |rs[r]|
    ensures j <= r && j < |Round(rs, p, k)| && Round(rs, p, k)[j] == rs[r][p]
  {
    if r == k - 1 {
      j := |Round(rs, p, r)|;
    } else {
      j := RoundPosition(rs, p, k - 1, r);
    }
  }

  /** Position p of response r comes no later than place p * k + r of the stream. */
  lemma {:induction false} StreamPosition(rs: seq<seq<Candidate>>, n: nat, p: nat, r: nat) returns (j: nat)
    requires r < |rs| && p < |rs[r]| && p < n
    ensures j <= p * |rs| + r && j < |Rounds(rs, n)| && Rounds(rs, n)[j] == rs[r][p]
  {
    if p == n - 1 {
      var i := RoundPosition(rs, p, |rs|, r);
      j := |Rounds(rs, p)| + i;
    } else {
      j := StreamPosition(rs, n - 1, p, r);
    }
  }

  ghost predicate Contains(out: seq<Candidate>, id: nat) {
    exists i :: 0 <= i < |out| && out[i].itemId == id
  }

  /** The first `cap` places of the stream are all represented under the cap. */
  lemma {:induction false} EarlyPlacesKept(flat: seq<Candidate>, j: nat, cap: int)
    requires j < |flat| && j < cap && flat[j].itemId != 0
    ensures Contains(Take(cap, MergeAll(flat)), flat[j].itemId)
  {
    hide MergeAll;
    var head := flat[..j + 1];
    assert head[|head| - 1] == flat[j];
    assert Occurrences(head, flat[j].itemId) != [];
    MergeAllIds(head, flat[j].itemId);
    var i := IndexOf(MergeAll(head), flat[j].itemId);
    MergeLength(head);
    MergePrefixIds(flat, j + 1, i);
    assert Take(cap, MergeAll(flat))[i].itemId == flat[j].itemId;
  }

  /** A candidate with a non-zero id at position p of response r is always represented in the
      result when p * k + r is below the cap, k being the number of responses. */
  lemma {:induction false} Represented(rs: seq<seq<Candidate>>, cap: int, r: nat, p: nat)
    requires r < |rs| && p < |rs[r]| && rs[r][p].itemId != 0
    requires p * |rs| + r < cap
    ensures Contains(Take(cap, MergeAll(RoundRobin(rs))), rs[r][p].itemId)
  {
    hide MergeAll, Take, Contains, Rounds;
    assert rs[r] in rs;
    var j := StreamPosition(rs, MaxLength(rs), p, r);
    EarlyPlacesKept(RoundRobin(rs), j, cap);
  }

  // ----- what the response carries -------------------------------------------------------------------

  /** Every returned candidate conserves scores, reasons, type and author over all of its
      occurrences in all responses, also those that arrived after the cap was reached; its
      legacy fields are the fold over its signals; and the ranker's merge keeps it as it is. */
  lemma {:induction false} ResponseConserves(rs: seq<seq<Candidate>>, cap: int)
    ensures var out := Take(cap, MergeAll(RoundRobin(rs)));
            && WellMerged(out)
            && MergeAll(out) == out
            && forall i :: 0 <= i < |out| ==> Conserves(out[i], Occurrences(RoundRobin(rs), out[i].itemId))
  {
    hide Conserves, Rebuild;
    var full := MergeAll(RoundRobin(rs));
    var out := Take(cap, full);
    MergeAllShape(RoundRobin(rs));
    if cap > 0 {
      WellMergedPrefix(full, Min(cap, |full|));
    } else {
      EmptyShape();
    }
    MergeAllIdentity(out);
    forall i | 0 <= i < |out| ensures Conserves(out[i], Occurrences(RoundRobin(rs), out[i].itemId)) {
      MergeAllConserves(RoundRobin(rs), i);
    }
  }
}
