/** Candidate accumulation shared by both collaborative-filtering retrievers: summed scores
    with the strongest explanation edge, then the ordered top of the pool. */
module Aggregation {
  import opened Arithmetic
  import opened Orders
  import opened Sums
  import Candidates

  datatype TriggerSeed = TriggerSeed(entityId: nat, score: real)
  datatype ScoredItem = ScoredItem(itemId: nat, score: real)
  datatype CandidateScore = CandidateScore(
    itemId: nat, score: real, triggerEntityId: nat, triggerScore: real, sourceScore: real, reasonScore: real)

  /** One seed reaching one item. */
  datatype Edge = Edge(seed: TriggerSeed, item: ScoredItem)

  function Contribution(e: Edge): real {
    Times(e.seed.score, e.item.score)
  }

  /** The edge passes the guards of AddCandidateContribution. */
  predicate Counts(e: Edge) {
    e.item.itemId != 0 && e.item.score > 0.0 && Contribution(e) > 0.0
  }

  /** What an edge adds to an item's score. */
  function Share(e: Edge, id: nat): real {
    if Counts(e) && e.item.itemId == id then Contribution(e) else 0.0
  }

  function ShareOf(id: nat): Edge -> real {
    (e: Edge) => Share(e, id)
  }

  function Explained(c: CandidateScore, e: Edge): CandidateScore {
    c.(triggerEntityId := e.seed.entityId, triggerScore := e.seed.score,
       sourceScore := e.item.score, reasonScore := Contribution(e))
  }

  function AddEdge(pool: map<nat, CandidateScore>, e: Edge): map<nat, CandidateScore> {
    var id := e.item.itemId;
    if !Counts(e) then pool
    else if id !in pool
    then pool[id := Explained(CandidateScore(id, Contribution(e), 0, 0.0, 0.0, 0.0), e)]
    else
      var c := pool[id].(score := pool[id].score + Contribution(e));
      pool[id := if Contribution(e) > c.reasonScore then Explained(c, e) else c]
  }

  method AddCandidateContribution(seed: TriggerSeed, item: ScoredItem, pool: map<nat, CandidateScore>)
    returns (r: map<nat, CandidateScore>)
    ensures r == AddEdge(pool, Edge(seed, item))
  {
    r := pool;
    if item.itemId == 0 || item.score <= 0.0 {
      return;
    }
    var contribution := Times(seed.score, item.score);
    if contribution <= 0.0 {
      return;
    }
    var inserted := item.itemId !in pool;
    var candidate := if inserted then CandidateScore(item.itemId, 0.0, 0, 0.0, 0.0, 0.0) else pool[item.itemId];
    candidate := candidate.(score := candidate.score + contribution);
    if inserted || contribution > candidate.reasonScore {
      candidate := candidate.(triggerEntityId := seed.entityId, triggerScore := seed.score,
                              sourceScore := item.score, reasonScore := contribution);
    }
    r := pool[item.itemId := candidate];
  }

  function Accumulate(edges: seq<Edge>): map<nat, CandidateScore> {
    if edges == [] then map[] else AddEdge(Accumulate(edges[..|edges| - 1]), edges[|edges| - 1])
  }

  lemma {:induction false} AccumulateAppend(edges: seq<Edge>, e: Edge)
    ensures Accumulate(edges + [e]) == AddEdge(Accumulate(edges), e)
  {
    assert (edges + [e])[..|edges|] == edges;
  }

  // ----- what the pool holds -----------------------------------------------------------------

  /** Edge i is the first of the largest contributions to its item. */
  ghost predicate IsFirstMax(edges: seq<Edge>, id: nat, i: nat) {
    && i < |edges| && Counts(edges[i]) && edges[i].item.itemId == id
    && (forall j :: 0 <= j < |edges| && Counts(edges[j]) && edges[j].item.itemId == id ==>
          Contribution(edges[j]) <= Contribution(edges[i]) &&
            (j < i ==> Contribution(edges[j]) < Contribution(edges[i])))
  }

  /** The summed score, explained by the first largest contribution. */
  ghost predicate Explains(c: CandidateScore, edges: seq<Edge>, id: nat) {
    && c.itemId == id
    && c.score == SumBy(edges, ShareOf(id)) && c.score > 0.0
    && exists i :: 0 <= i < |edges| && IsFirstMax(edges, id, i) && c == Explained(c, edges[i])
  }

  ghost predicate Reached(edges: seq<Edge>, id: nat) {
    exists i :: 0 <= i < |edges| && Counts(edges[i]) && edges[i].item.itemId == id
  }

  lemma {:induction false} FirstMaxLater(edges: seq<Edge>, e: Edge, id: nat, i: nat)
    requires IsFirstMax(edges, id, i)
    requires !(Counts(e) && e.item.itemId == id && Contribution(e) > Contribution(edges[i]))
    ensures IsFirstMax(edges + [e], id, i)
  {
    hide Contribution;
    var all := edges + [e];
    assert all[i] == edges[i];
    forall j | 0 <= j < |all| && Counts(all[j]) && all[j].item.itemId == id
      ensures Contribution(all[j]) <= Contribution(all[i]) && (j < i ==> Contribution(all[j]) < Contribution(all[i])) {
      if j < |edges| { assert all[j] == edges[j]; }
    }
  }

  lemma {:induction false} FirstMaxNew(edges: seq<Edge>, e: Edge, id: nat)
    requires Counts(e) && e.item.itemId == id
    requires forall j :: 0 <= j < |edges| && Counts(edges[j]) && edges[j].item.itemId == id ==>
               Contribution(edges[j]) < Contribution(e)
    ensures IsFirstMax(edges + [e], id, |edges|)
  {
    hide Contribution;
    var all := edges + [e];
    forall j | 0 <= j < |all| && Counts(all[j]) && all[j].item.itemId == id
      ensures Contribution(all[j]) <= Contribution(e) && (j < |edges| ==> Contribution(all[j]) < Contribution(e)) {
      if j < |edges| { assert all[j] == edges[j]; }
    }
  }

  lemma {:induction false} ExplainsOther(c: CandidateScore, edges: seq<Edge>, e: Edge, id: nat)
    requires Explains(c, edges, id) && !(Counts(e) && e.item.itemId == id)
    ensures Explains(c, edges + [e], id)
  {
    hide IsFirstMax, Contribution;
    SumByAppend(edges, e, ShareOf(id));
    var i :| 0 <= i < |edges| && IsFirstMax(edges, id, i) && c == Explained(c, edges[i]);
    FirstMaxLater(edges, e, id, i);
    assert (edges + [e])[i] == edges[i];
    assert IsFirstMax(edges + [e], id, i);
  }

  lemma {:induction false} FirstMaxIndex(edges: seq<Edge>, id: nat, i: nat)
    requires IsFirstMax(edges, id, i)
    ensures i < |edges| && Counts(edges[i]) && edges[i].item.itemId == id
    ensures forall j :: 0 <= j < |edges| && Counts(edges[j]) && edges[j].item.itemId == id ==>
              Contribution(edges[j]) <= Contribution(edges[i])
  {
  }

  lemma {:induction false} ExplainsMore(c: CandidateScore, edges: seq<Edge>, e: Edge, id: nat)
    requires Explains(c, edges, id) && Counts(e) && e.item.itemId == id
    ensures var d := c.(score := c.score + Contribution(e));
            Explains(if Contribution(e) > d.reasonScore then Explained(d, e) else d, edges + [e], id)
  {
    hide IsFirstMax, Contribution;
    SumByAppend(edges, e, ShareOf(id));
    var i :| 0 <= i < |edges| && IsFirstMax(edges, id, i) && c == Explained(c, edges[i]);
    FirstMaxIndex(edges, id, i);
    assert c.reasonScore == Contribution(edges[i]);
    var all := edges + [e];
    if Contribution(e) > c.reasonScore {
      FirstMaxNew(edges, e, id);
      assert all[|edges|] == e;
    } else {
      FirstMaxLater(edges, e, id, i);
      assert all[i] == edges[i];
    }
  }

  lemma {:induction false} ExplainsFirst(edges: seq<Edge>, e: Edge, id: nat)
    requires Counts(e) && e.item.itemId == id && !Reached(edges, id)
    ensures Explains(Explained(CandidateScore(id, Contribution(e), 0, 0.0, 0.0, 0.0), e), edges + [e], id)
  {
    hide IsFirstMax, Contribution;
    SumByAppend(edges, e, ShareOf(id));
    UnreachedSum(edges, id);
    FirstMaxNew(edges, e, id);
    assert (edges + [e])[|edges|] == e;
  }

  lemma {:induction false} UnreachedSum(edges: seq<Edge>, id: nat)
    requires !Reached(edges, id)
    ensures SumBy(edges, ShareOf(id)) == 0.0
  {
    if edges != [] {
      var front := edges[..|edges| - 1];
      assert forall i :: 0 <= i < |front| ==> front[i] == edges[i];
      UnreachedSum(front, id);
    }
  }

  lemma {:induction false} ReachedStep(edges: seq<Edge>, e: Edge, id: nat)
    ensures Reached(edges + [e], id) <==> Reached(edges, id) || (Counts(e) && e.item.itemId == id)
  {
    var all := edges + [e];
    assert forall i :: 0 <= i < |edges| ==> all[i] == edges[i];
    assert all[|edges|] == e;
    if Reached(edges, id) {
      var i :| 0 <= i < |edges| && Counts(edges[i]) && edges[i].item.itemId == id;
      assert Counts(all[i]);
    }
  }

  /** The pool holds exactly the reached items, each with the sum of its contributions and
      the first edge that reaches the maximum as its reason. */
  lemma {:induction false} PoolMeaning(edges: seq<Edge>, id: nat)
    ensures id in Accumulate(edges) <==> Reached(edges, id)
    ensures id in Accumulate(edges) ==> Explains(Accumulate(edges)[id], edges, id)
  {
    hide Explains, Reached, Counts, Contribution;
    if edges == [] {
      EmptyPool(id);
    } else {
      var n := |edges| - 1;
      var front, e := edges[..n], edges[n];
      assert edges == front + [e];
      PoolMeaning(front, id);
      ReachedStep(front, e, id);
      if Counts(e) && e.item.itemId == id {
        if id in Accumulate(front) {
          ExplainsMore(Accumulate(front)[id], front, e, id);
        } else {
          ExplainsFirst(front, e, id);
        }
      } else if id in Accumulate(front) {
        ExplainsOther(Accumulate(front)[id], front, e, id);
      }
    }
  }

  lemma {:induction false} EmptyPool(id: nat)
    ensures !Reached([], id)
  {
  }

  // ----- the ordered response ------------------------------------------------------------------

  predicate HigherScore(a: CandidateScore, b: CandidateScore) {
    a.score > b.score || (a.score == b.score && a.itemId < b.itemId)
  }

  ghost predicate KeyedById(pool: map<nat, CandidateScore>) {
    forall id :: id in pool ==> pool[id].itemId == id
  }

  lemma {:induction false} PoolTotal(pool: map<nat, CandidateScore>)
    requires KeyedById(pool)
    ensures TotalOn(HigherScore, pool.Values)
  {
    forall x, y | x in pool.Values && y in pool.Values && x != y ensures x.itemId != y.itemId {
      var i :| i in pool && pool[i] == x;
      var j :| j in pool && pool[j] == y;
    }
  }

  /** SortCandidates over a hash map iterated in any order. */
  method SortCandidates(pool: map<nat, CandidateScore>) returns (sorted: seq<CandidateScore>)
    requires KeyedById(pool)
    ensures IsTopK(HigherScore, |pool.Values|, pool.Values, sorted)
  {
    PoolTotal(pool);
    var entries := Enumerate(pool.Values);
    sorted := SortDistinct(HigherScore, entries);
  }

  /** The response item: legacy fields, one reason and one signal that repeats them. */
  function ToCandidate(c: CandidateScore, name: string, reasonType: int, entityType: int, multiplier: real,
          describe: nat -> string)
    : Candidates.Candidate
  {
    var reason := Candidates.Reason(reasonType, entityType, c.triggerEntityId, Times(c.reasonScore, multiplier),
      describe(c.triggerEntityId));
    Candidates.Candidate(c.itemId, Candidates.ITEM_TYPE_UNSPECIFIED, 0, name, Times(c.score, multiplier), [reason],
                         [Candidates.Signal(name, Times(c.score, multiplier), [reason])])
  }

  function ToResponse(s: seq<CandidateScore>, name: string, reasonType: int, entityType: int, multiplier: real,
          describe: nat -> string)
    : seq<Candidates.Candidate>
  {
    seq(|s|, i requires 0 <= i < |s| => ToCandidate(s[i], name, reasonType, entityType, multiplier, describe))
  }

  /** The first `max` pool entries in the unique (score descending, id ascending) order. */
  ghost function TopOfPool(pool: map<nat, CandidateScore>, max: int): (r: seq<CandidateScore>)
    requires KeyedById(pool)
    ensures IsTopK(HigherScore, if max < 0 then 0 else max, pool.Values, r)
  {
    PoolTotal(pool);
    TopK(HigherScore, if max < 0 then 0 else max, pool.Values)
  }

  method FillResponseCandidates(pool: map<nat, CandidateScore>, max: int, name: string, reasonType: int,
          entityType: int, multiplier: real, describe: nat -> string)
    returns (response: seq<Candidates.Candidate>)
    requires KeyedById(pool)
    ensures response == ToResponse(TopOfPool(pool, max), name, reasonType, entityType, multiplier, describe)
  {
    var sorted := SortCandidates(pool);
    response := [];
    var i := 0;
    while i < |sorted|
      invariant 0 <= i <= |sorted| && (max < 0 ==> i == 0) && (max >= 0 ==> i <= max)
      invariant response == ToResponse(sorted[..i], name, reasonType, entityType, multiplier, describe)
    {
      if |response| >= max {
        break;
      }
      response := response + [ToCandidate(sorted[i], name, reasonType, entityType, multiplier, describe)];
      i := i + 1;
    }
    ghost var k := if max < 0 then 0 else max;
    PoolTotal(pool);
    if k <= |pool.Values| {
      TopKPrefix(HigherScore, |pool.Values|, pool.Values, sorted, k);
      assert sorted[..i] == sorted[..Min(k, |sorted|)];
      TopKUnique(HigherScore, k, pool.Values, sorted[..i], TopOfPool(pool, max));
    } else {
      assert sorted[..i] == sorted;
      TopKUnique(HigherScore, k, pool.Values, sorted, TopOfPool(pool, max));
    }
  }

  /** A retriever's items already agree with the fold over their own signals. */
  lemma {:induction false} ResponseNormalized(c: CandidateScore, name: string, reasonType: int, entityType: int,
          multiplier: real, describe: nat -> string)
    requires name != ""
    ensures var r := ToCandidate(c, name, reasonType, entityType, multiplier, describe);
            Candidates.Normalize(r) == r
  {
    var r := ToCandidate(c, name, reasonType, entityType, multiplier, describe);
    var none: seq<Candidates.Signal> := [];
    assert r.signals[..0] == none;
    assert Candidates.AllReasons(r.signals) == Candidates.AllReasons(none) + r.signals[0].reasons == r.reasons;
    assert Candidates.TotalScore(r.signals) == Candidates.TotalScore(none) + r.score;
    assert Candidates.Names(r.signals) == Candidates.Names(none) + [name] == [name];
    assert [name][..0] == [];
    assert Candidates.Join([name]) == name;
  }

  // ----- what a response says, over the edges ------------------------------------------------------

  /** The sum of what the edges contribute to an item. */
  ghost function Total(edges: seq<Edge>, id: nat): real {
    SumBy(edges, ShareOf(id))
  }

  /** The larger total wins, then the smaller id. */
  ghost predicate Outranks(edges: seq<Edge>, a: nat, b: nat) {
    Total(edges, a) > Total(edges, b) || (Total(edges, a) == Total(edges, b) && a < b)
  }

  ghost predicate Answered(response: seq<Candidates.Candidate>, id: nat) {
    exists i :: 0 <= i < |response| && response[i].itemId == id
  }

  /** The kind of answer one retriever gives. */
  datatype Style = Style(name: string, reasonType: int, entityType: int, multiplier: real, describe: nat -> string)

  /** The reason an edge gives. */
  function ReasonOf(e: Edge, style: Style): Candidates.Reason {
    Candidates.Reason(style.reasonType, style.entityType, e.seed.entityId,
                      style.multiplier * (e.seed.score * e.item.score), style.describe(e.seed.entityId))
  }

  /** A returned item carries the scaled total of its contributions, as its own score and as that
      of its one signal, and one reason: the seed of the first edge with the largest one. */
  ghost predicate Reports(edges: seq<Edge>, style: Style, c: Candidates.Candidate) {
    && Reached(edges, c.itemId)
    && c.itemType == Candidates.ITEM_TYPE_UNSPECIFIED && c.authorId == 0 && c.retriever == style.name
    && c.score == style.multiplier * Total(edges, c.itemId)
    && c.signals == [Candidates.Signal(style.name, c.score, c.reasons)]
    && exists k: nat :: k < |edges| && IsFirstMax(edges, c.itemId, k) &&
         c.reasons == [ReasonOf(edges[k], style)]
  }

  /** The response to some edges: reports in the order of their totals, and an item that was
      reached is missing only from a full response, all of which outranks it. */
  ghost predicate AnswersEdges(edges: seq<Edge>, max: int, style: Style, response: seq<Candidates.Candidate>) {
    && |response| <= Max(max, 0)
    && (forall i :: 0 <= i < |response| ==> Reports(edges, style, response[i]))
    && (forall i, j :: 0 <= i < j < |response| ==> Outranks(edges, response[i].itemId, response[j].itemId))
    && (forall id: nat :: Reached(edges, id) && !Answered(response, id) ==>
          |response| == Max(max, 0) && forall i :: 0 <= i < |response| ==> Outranks(edges, response[i].itemId, id))
  }

  lemma {:induction false} ScaledEntry(c: CandidateScore, e: Edge, m: real)
    requires c == Explained(c, e)
    ensures Times(c.score, m) == m * c.score
    ensures Times(c.reasonScore, m) == m * (e.seed.score * e.item.score)
  {
    var x := e.seed.score * e.item.score;
    assert c.reasonScore == x;
    TimesCommutes(x, m);
  }

  lemma {:induction false} EntryReports(edges: seq<Edge>, c: CandidateScore, style: Style)
    requires Explains(c, edges, c.itemId) && Reached(edges, c.itemId)
    ensures Reports(edges, style, ToCandidate(c, style.name, style.reasonType, style.entityType, style.multiplier,
                                              style.describe))
  {
    hide IsFirstMax, Reached, SumBy;
    var k: nat :| k < |edges| && IsFirstMax(edges, c.itemId, k) && c == Explained(c, edges[k]);
    var r := ToCandidate(c, style.name, style.reasonType, style.entityType, style.multiplier, style.describe);
    ScaledEntry(c, edges[k], style.multiplier);
    hide Times, Contribution;
    assert r.reasons[0].score == Times(c.reasonScore, style.multiplier);
    assert r.reasons[0] == ReasonOf(edges[k], style);
    assert r.reasons == [ReasonOf(edges[k], style)];
  }

  lemma {:induction false} PoolEntry(edges: seq<Edge>, c: CandidateScore)
    requires c in Accumulate(edges).Values
    ensures Reached(edges, c.itemId) && Explains(c, edges, c.itemId) && c.score == Total(edges, c.itemId)
  {
    hide IsFirstMax, Reached, SumBy, Accumulate;
    var id :| id in Accumulate(edges) && Accumulate(edges)[id] == c;
    PoolMeaning(edges, id);
  }

  lemma {:induction false} ReachedEntry(edges: seq<Edge>, id: nat) returns (c: CandidateScore)
    requires Reached(edges, id)
    ensures c in Accumulate(edges).Values && c.itemId == id && c.score == Total(edges, id)
  {
    hide IsFirstMax, Reached, SumBy, Accumulate;
    PoolMeaning(edges, id);
    c := Accumulate(edges)[id];
  }

  lemma {:induction false} ResponseAnswers(edges: seq<Edge>, max: int, style: Style)
    requires KeyedById(Accumulate(edges))
    ensures AnswersEdges(edges, max, style,
                         ToResponse(TopOfPool(Accumulate(edges), max), style.name, style.reasonType, style.entityType,
                                    style.multiplier, style.describe))
  {
    hide Accumulate, Reached, Reports, ToCandidate, Total, Explains;
    var pool := Accumulate(edges);
    PoolTotal(pool);
    var top := TopOfPool(pool, max);
    var response := ToResponse(top, style.name, style.reasonType, style.entityType, style.multiplier, style.describe);
    forall i | 0 <= i < |top|
      ensures response[i].itemId == top[i].itemId && Reports(edges, style, response[i])
      ensures top[i].score == Total(edges, top[i].itemId) {
      assert top[i] in Elems(top);
      PoolEntry(edges, top[i]);
      EntryReports(edges, top[i], style);
      SameId(top[i], style);
    }
    forall i, j | 0 <= i < j < |response| ensures Outranks(edges, response[i].itemId, response[j].itemId) {
      assert HigherScore(top[i], top[j]);
    }
    forall id: nat | Reached(edges, id) && !Answered(response, id)
      ensures |response| == Max(max, 0)
      ensures forall i :: 0 <= i < |response| ==> Outranks(edges, response[i].itemId, id) {
      var c := ReachedEntry(edges, id);
      MissingEntry(pool, max, top, c);
    }
  }

  lemma {:induction false} SameId(c: CandidateScore, style: Style)
    ensures ToCandidate(c, style.name, style.reasonType, style.entityType, style.multiplier, style.describe).itemId ==
            c.itemId
  {
  }

  lemma {:induction false} MissingEntry(pool: map<nat, CandidateScore>, max: int, top: seq<CandidateScore>,
          c: CandidateScore)
    requires KeyedById(pool) && top == TopOfPool(pool, max)
    requires c in pool.Values && forall i :: 0 <= i < |top| ==> top[i].itemId != c.itemId
    ensures |top| == Max(max, 0) && forall i :: 0 <= i < |top| ==> HigherScore(top[i], c)
  {
    hide HigherScore, Sorted;
    PoolTotal(pool);
    assert c !in top;
    if |top| < Max(max, 0) {
      SortedNoDup(HigherScore, top);
      ElemsCard(top);
      SubsetCard(Elems(top) + {c}, pool.Values);
    }
  }

  /** With a positive multiplier scores never increase along a response, and ties go to the
      smaller id; with any multiplier the ids are distinct. */
  lemma {:induction false} ScoresFall(edges: seq<Edge>, max: int, style: Style, response: seq<Candidates.Candidate>,
          i: nat, j: nat)
    requires AnswersEdges(edges, max, style, response) && i < j < |response|
    ensures response[i].itemId != response[j].itemId
    ensures style.multiplier > 0.0 ==>
              response[i].score > response[j].score ||
              (response[i].score == response[j].score && response[i].itemId < response[j].itemId)
  {
    hide Total, Reached, IsFirstMax;
    assert Outranks(edges, response[i].itemId, response[j].itemId);
    assert Reports(edges, style, response[i]) && Reports(edges, style, response[j]);
    ScaledOrder(style.multiplier, Total(edges, response[i].itemId), Total(edges, response[j].itemId));
  }

  lemma {:induction false} ScaledOrder(m: real, x: real, y: real)
    ensures m > 0.0 && x > y ==> m * x > m * y
  {
    if m > 0.0 && x > y {
      PositiveTimes(m, x - y);
      assert m * (x - y) == m * x - m * y;
    }
  }
}
