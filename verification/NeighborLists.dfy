/** What the outputs of the two similarity builders list, in scores, counts and ids. */
module NeighborLists {
  import opened Orders
  import opened PairReduction
  import opened Interactions
  import opened ItemSimilarity
  import opened SimilarityTheorems
  import opened UserSimilarity

  /** The rounded cosine of a kept pair. */
  ghost function Rounded(cfg: Config, norms: map<int, real>, rows: seq<PairRow>, a: int, b: int): real
    requires Kept(cfg, norms, rows, a, b)
  {
    cfg.round8(Dot(rows, a, b) / Denominator(cfg, norms, a, b))
  }

  /** For item a, neighbour b comes before c: a larger rounded score, then the larger
      co-occurrence, then the smaller id. */
  ghost predicate Precedes(cfg: Config, norms: map<int, real>, rows: seq<PairRow>, a: int, b: int, c: int)
    requires Kept(cfg, norms, rows, a, b) && Kept(cfg, norms, rows, a, c)
  {
    var x, y := Rounded(cfg, norms, rows, a, b), Rounded(cfg, norms, rows, a, c);
    var m, n := Cooccurrence(rows, a, b), Cooccurrence(rows, a, c);
    x > y || (x == y && (m > n || (m == n && b < c)))
  }

  ghost predicate Lists(list: seq<Neighbor>, id: int) {
    exists i :: 0 <= i < |list| && list[i].id == id
  }

  /** The list holds kept neighbours with their own figures, best first, at most topK of them;
      a kept one is missing only from a full list, all of which comes before it. */
  ghost predicate ListsBest(cfg: Config, norms: map<int, real>, rows: seq<PairRow>, a: int, list: seq<Neighbor>) {
    && |list| <= cfg.topK
    && (forall i :: 0 <= i < |list| ==>
          && Kept(cfg, norms, rows, a, list[i].id)
          && list[i].cooccurrence == Cooccurrence(rows, a, list[i].id)
          && list[i].score == cfg.round8(Rounded(cfg, norms, rows, a, list[i].id)))
    && (forall i, j :: 0 <= i < j < |list| ==> Precedes(cfg, norms, rows, a, list[i].id, list[j].id))
    && (forall b :: Kept(cfg, norms, rows, a, b) && !Lists(list, b) ==>
          |list| == cfg.topK && forall i :: 0 <= i < |list| ==> Precedes(cfg, norms, rows, a, list[i].id, b))
  }

  lemma {:induction false} RowOfList(cfg: Config, norms: map<int, real>, rows: seq<PairRow>, a: int, x: NeighborRow)
    requires x in NeighborSet(cfg, norms, rows, a)
    ensures Kept(cfg, norms, rows, a, x.neighbor) && x == ScoredRow(cfg, norms, rows, a, x.neighbor)
  {
    hide Kept;
  }

  lemma {:induction false} BetterPrecedes(cfg: Config, norms: map<int, real>, rows: seq<PairRow>, a: int, b: int,
          c: int)
    requires Kept(cfg, norms, rows, a, b) && Kept(cfg, norms, rows, a, c)
    ensures Better(ScoredRow(cfg, norms, rows, a, b), ScoredRow(cfg, norms, rows, a, c)) <==>
            Precedes(cfg, norms, rows, a, b, c)
  {
    hide Kept, Cooccurrence, Dot, Denominator;
  }

  lemma {:induction false} NeighborListBest(cfg: Config, norms: map<int, real>, rows: seq<PairRow>, a: int)
    requires cfg.minCooccurrence > 0
    ensures ListsBest(cfg, norms, rows, a, NeighborList(cfg, norms, rows, a))
  {
    hide Kept, Better, ScoredRow, Precedes, NeighborSet, Cooccurrence, Dot, Denominator;
    var S := NeighborSet(cfg, norms, rows, a);
    NeighborSetTotal(cfg, norms, rows, a);
    var top := TopK(Better, cfg.topK, S);
    var list := NeighborList(cfg, norms, rows, a);
    assert |list| == |top| && forall i :: 0 <= i < |list| ==>
      list[i] == Neighbor(top[i].neighbor, cfg.round8(top[i].score), top[i].cooccurrence);
    forall i | 0 <= i < |top|
      ensures Kept(cfg, norms, rows, a, top[i].neighbor) && top[i] == ScoredRow(cfg, norms, rows, a, top[i].neighbor) {
      assert top[i] in Elems(top);
      RowOfList(cfg, norms, rows, a, top[i]);
    }
    forall i | 0 <= i < |list|
      ensures list[i].cooccurrence == Cooccurrence(rows, a, list[i].id)
      ensures list[i].score == cfg.round8(Rounded(cfg, norms, rows, a, list[i].id)) {
      Figures(cfg, norms, rows, a, list[i].id);
    }
    forall i, j | 0 <= i < j < |list| ensures Precedes(cfg, norms, rows, a, list[i].id, list[j].id) {
      assert Better(top[i], top[j]);
      BetterPrecedes(cfg, norms, rows, a, list[i].id, list[j].id);
    }
    forall b | Kept(cfg, norms, rows, a, b) && !Lists(list, b)
      ensures |list| == cfg.topK && forall i :: 0 <= i < |list| ==> Precedes(cfg, norms, rows, a, list[i].id, b) {
      MissingRow(cfg, norms, rows, a, b, top);
      forall i | 0 <= i < |list| ensures Precedes(cfg, norms, rows, a, list[i].id, b) {
        BetterPrecedes(cfg, norms, rows, a, list[i].id, b);
      }
    }
  }

  lemma {:induction false} Figures(cfg: Config, norms: map<int, real>, rows: seq<PairRow>, a: int, b: int)
    requires Kept(cfg, norms, rows, a, b)
    ensures var x := ScoredRow(cfg, norms, rows, a, b);
            x.neighbor == b && x.score == Rounded(cfg, norms, rows, a, b) && x.cooccurrence == Cooccurrence(rows, a, b)
  {
    hide Kept;
  }

  lemma {:induction false} MissingRow(cfg: Config, norms: map<int, real>, rows: seq<PairRow>, a: int, b: int,
          top: seq<NeighborRow>)
    requires cfg.minCooccurrence > 0 && Kept(cfg, norms, rows, a, b)
    requires IsTopK(Better, cfg.topK, NeighborSet(cfg, norms, rows, a), top)
    requires forall i :: 0 <= i < |top| ==> top[i].neighbor != b
    ensures |top| == cfg.topK
    ensures forall i :: 0 <= i < |top| ==> Better(top[i], ScoredRow(cfg, norms, rows, a, b))
  {
    hide Kept, Better, Sorted;
    var S := NeighborSet(cfg, norms, rows, a);
    var x := ScoredRow(cfg, norms, rows, a, b);
    KeptOccurs(cfg, norms, rows, a, b);
    assert x in S && x.neighbor == b && x !in top;
    assert Elems(top) + {x} <= S;
    if |top| < cfg.topK {
      NeighborSetTotal(cfg, norms, rows, a);
      SortedNoDup(Better, top);
      ElemsCard(top);
      SubsetCard(Elems(top) + {x}, S);
    }
  }

  ghost predicate HasRow(out: seq<OutputRow>, a: int) {
    exists o :: o in out && o.item == a
  }

  ghost predicate KeepsAny(cfg: Config, norms: map<int, real>, rows: seq<PairRow>, a: int) {
    exists b :: Kept(cfg, norms, rows, a, b)
  }

  /** Of any output of the reduction: one row for each entity with a kept neighbour and no
      other, and every row lists the best of them. */
  lemma {:induction false} OutputMeaning(cfg: Config, norms: map<int, real>, rows: seq<PairRow>, out: seq<OutputRow>)
    requires cfg.minCooccurrence > 0 && IsOutput(cfg, norms, rows, out)
    ensures forall i, j :: 0 <= i < j < |out| ==> out[i].item != out[j].item
    ensures forall o :: o in out ==> ListsBest(cfg, norms, rows, o.item, o.neighbors)
    ensures forall a :: HasRow(out, a) <==> KeepsAny(cfg, norms, rows, a)
  {
    hide Kept, ListsBest, NeighborList, ScoredRow;
    forall o | o in out ensures ListsBest(cfg, norms, rows, o.item, o.neighbors) {
      NeighborListBest(cfg, norms, rows, o.item);
    }
    forall a ensures HasRow(out, a) <==> KeepsAny(cfg, norms, rows, a) {
      if o :| o in out && o.item == a {
        assert NeighborSet(cfg, norms, rows, a) != {};
        var x :| x in NeighborSet(cfg, norms, rows, a);
        RowOfList(cfg, norms, rows, a, x);
      }
      if b :| Kept(cfg, norms, rows, a, b) {
        KeptOccurs(cfg, norms, rows, a, b);
        assert ScoredRow(cfg, norms, rows, a, b) in NeighborSet(cfg, norms, rows, a);
      }
    }
  }

  /** A written neighbour n of item a, for a co-occurrence, a weight sum and two square sums. */
  ghost predicate IsFigure(cfg: Config, n: Neighbor, count: int, sum: real, x: real, y: real) {
    && n.cooccurrence == count >= cfg.minCooccurrence
    && cfg.sqrt(x * y) > 0.0
    && sum / cfg.sqrt(x * y) >= cfg.minSimilarity
    && n.score == cfg.round8(cfg.round8(sum / cfg.sqrt(x * y)))
  }

  lemma {:induction false} ListedFigure(cfg: Config, norms: map<int, real>, rows: seq<PairRow>, a: int,
          list: seq<Neighbor>, n: Neighbor)
    requires ListsBest(cfg, norms, rows, a, list) && n in list
    ensures n.id != a
    ensures IsFigure(cfg, n, Cooccurrence(rows, a, n.id), Dot(rows, a, n.id),
                     NormSq(norms, Min(a, n.id)), NormSq(norms, Max(a, n.id)))
  {
    hide Cooccurrence, Dot;
  }

  /** What the item builder lists for an item: the count of the users who hold both items, and
      the cosine of their weights over the square sums of all ratings. */
  lemma {:induction false} ItemListMeaning(cfg: BuilderConfig, csv: seq<CsvRow>, out: seq<OutputRow>, o: OutputRow,
          n: Neighbor)
    requires ValidConfig(cfg.reduction) && IsSimilarityOutput(cfg, csv, out) && o in out && n in o.neighbors
    ensures var events := Events(cfg, csv);
            ListsBest(cfg.reduction, Norms(events), PairRows(cfg.maxUserItems, UserGroups(cfg, events)),
                      o.item, o.neighbors)
    ensures n.id != o.item
    ensures var events := Events(cfg, csv);
            var groups := UserGroups(cfg, events);
            IsFigure(cfg.reduction, n, UsersHoldingBoth(cfg.maxUserItems, groups, o.item, n.id),
                     WeightProducts(cfg.maxUserItems, groups, o.item, n.id),
                     SumSquares(events, Min(o.item, n.id)), SumSquares(events, Max(o.item, n.id)))
  {
    hide IsOutput, PairRows, UserGroups, ListsBest, SumSquares, UsersHoldingBoth, WeightProducts, Norms, IsFigure;
    var events := Events(cfg, csv);
    var groups := UserGroups(cfg, events);
    var norms, rows := Norms(events), PairRows(cfg.maxUserItems, groups);
    OutputMeaning(cfg.reduction, norms, rows, out);
    ListedFigure(cfg.reduction, norms, rows, o.item, o.neighbors, n);
    PairMeaning(cfg.maxUserItems, groups, o.item, n.id);
    NormsMeaning(events, Min(o.item, n.id));
    NormsMeaning(events, Max(o.item, n.id));
  }

  /** What the user builder lists for a user. */
  lemma {:induction false} UserListMeaning(cfg: UserBuilderConfig, csv: seq<CsvRow>, out: seq<OutputRow>, o: OutputRow,
          n: Neighbor)
    requires ValidConfig(cfg.reduction) && IsUserOutput(cfg, csv, out) && o in out && n in o.neighbors
    ensures var events := UserEvents(cfg, csv);
            ListsBest(cfg.reduction, Norms(Turned(events)), UserPairRows(cfg, events), o.item, o.neighbors)
    ensures n.id != o.item
    ensures var events := UserEvents(cfg, csv);
            var l, r := Min(o.item, n.id), Max(o.item, n.id);
            IsFigure(cfg.reduction, n,
                     RowCount(UserPairRows(cfg, events), l, r), RowSum(UserPairRows(cfg, events), l, r),
                     SumSquares(Turned(events), l), SumSquares(Turned(events), r))
  {
    hide IsOutput, UserPairRows, ListsBest, SumSquares, Norms, RowCount, RowSum, IsFigure;
    var events := UserEvents(cfg, csv);
    var norms, rows := Norms(Turned(events)), UserPairRows(cfg, events);
    OutputMeaning(cfg.reduction, norms, rows, out);
    ListedFigure(cfg.reduction, norms, rows, o.item, o.neighbors, n);
    NormsMeaning(Turned(events), Min(o.item, n.id));
    NormsMeaning(Turned(events), Max(o.item, n.id));
  }
}
