/** Rating files in which every rating weighs the same: how they read back, and what
    their counts and norms are. Such files serve as witnesses. */
module EqualWeights {
  import opened Arithmetic
  import opened PairReduction
  import opened Interactions
  import opened Options
  import opened ItemSimilarity

  // ----- the file --------------------------------------------------------------------------------

  /** A rating every configuration with these settings counts as positive. */
  function LikedRating(minRating: real, offset: real): real {
    if minRating >= offset + 1.0 then minRating else offset + 1.0
  }

  function LikedWeight(minRating: real, useRatingWeight: bool, offset: real): (w: real)
    ensures w > 0.0
    ensures RatingToWeight(LikedRating(minRating, offset), minRating, useRatingWeight, offset) == Some(w)
  {
    if useRatingWeight then LikedRating(minRating, offset) - offset else 1.0
  }

  function FileOf(minRating: real, offset: real, events: seq<Rating>): seq<CsvRow> {
    seq(|events|, i requires 0 <= i < |events| =>
      CsvRow(events[i].user, events[i].item, LikedRating(minRating, offset), events[i].timestamp))
  }

  lemma {:induction false} FileReads(minRating: real, useRatingWeight: bool, offset: real, events: seq<Rating>)
    requires forall e :: e in events ==> e.weight == LikedWeight(minRating, useRatingWeight, offset)
    ensures PositiveRatings(FileOf(minRating, offset, events), minRating, useRatingWeight, offset) == events
  {
    if events != [] {
      var n := |events| - 1;
      FileReads(minRating, useRatingWeight, offset, events[..n]);
      var f := FileOf(minRating, offset, events);
      assert f[..|f| - 1] == FileOf(minRating, offset, events[..n]);
      assert events[n] in events;
      assert events == events[..n] + [events[n]];
    }
  }

  // ----- counts and norms --------------------------------------------------------------------------

  lemma {:induction false} CountConcat(a: seq<Rating>, b: seq<Rating>, id: int)
    ensures RatingCount(a + b, id) == RatingCount(a, id) + RatingCount(b, id)
  {
    if b == [] {
      assert a + b == a;
    } else {
      var n := |b| - 1;
      assert (a + b)[..|a + b| - 1] == a + b[..n];
      CountConcat(a, b[..n], id);
    }
  }

  lemma {:induction false} CountNone(id: int)
    ensures RatingCount([], id) == 0
  {
  }

  lemma {:induction false} EqualSquares(events: seq<Rating>, w: real, id: int)
    requires forall e :: e in events ==> e.weight == w
    ensures SumSquares(events, id) == Scaled(RatingCount(events, id), Times(w, w))
  {
    hide Scaled;
    NothingScaled(Times(w, w));
    if events != [] {
      var n := |events| - 1;
      assert events[n] in events;
      EqualSquares(events[..n], w, id);
      CountsScaled(RatingCount(events[..n], id), 1, Times(w, w));
    }
  }

  lemma {:induction false} OnlyAll(events: seq<Rating>, ids: set<int>)
    requires forall e :: e in events ==> e.item in ids
    ensures OnlyItems(events, ids) == events
  {
    if events != [] {
      var init, last := events[..|events| - 1], events[|events| - 1];
      assert events == init + [last];
      assert forall e :: e in init ==> e in events;
      OnlyAll(init, ids);
      hide OnlyItems;
      OnlyItemsAppend(init, last, ids);
      assert last in events;
    }
  }

  lemma {:induction false} RootOfSquare(sqrt: real -> real, y: real)
    requires IsRoot(sqrt) && y > 0.0
    ensures RootOfProduct(sqrt, y, y) == y
  {
    assert y * y >= 0.0;
    SameSquare(sqrt(y * y), y);
  }

  lemma {:induction false} RootOfNorms(cfg: Config, events: seq<Rating>, a: int, b: int)
    requires IsRoot(cfg.sqrt)
    ensures var norms := Norms(events); var d := Denominator(cfg, norms, a, b);
            Times(d, d) == Times(NormSq(norms, a), NormSq(norms, b))
  {
    hide Norms, SumSquares, NormSq;
    var norms := Norms(events);
    NormsMeaning(events, a);
    NormsMeaning(events, b);
    TimesMonotone(0.0, 0.0, NormSq(norms, a), NormSq(norms, b));
    TimesCommutes(NormSq(norms, a), NormSq(norms, b));
  }
}
