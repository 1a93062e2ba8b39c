/** Neighbour lookups: one item at a time, which may fail, and several at once. */
module Lookups {
  import opened Aggregation
  import opened Options

  datatype Lookup = Rows(rows: seq<seq<ScoredItem>>) | LookupFailed

  /** The default batch form: one lookup per item, in order, failing with the first failure. */
  function EachOf(single: (nat, int) -> Option<seq<ScoredItem>>, ids: seq<nat>, max: int): (r: Lookup)
    ensures r.Rows? ==> |r.rows| == |ids|
  {
    if ids == [] then Rows([])
    else
      match EachOf(single, ids[..|ids| - 1], max)
      case LookupFailed => LookupFailed
      case Rows(rows) =>
        match single(ids[|ids| - 1], max)
        case None => LookupFailed
        case Some(items) => Rows(rows + [items])
  }

  lemma {:induction false} EachRow(single: (nat, int) -> Option<seq<ScoredItem>>, ids: seq<nat>, max: int,
                                   rows: seq<seq<ScoredItem>>)
    requires |rows| == |ids| && forall i :: 0 <= i < |ids| ==> single(ids[i], max) == Some(rows[i])
    ensures EachOf(single, ids, max) == Rows(rows)
  {
    if ids != [] {
      var n := |ids| - 1;
      EachRow(single, ids[..n], max, rows[..n]);
      assert rows == rows[..n] + [rows[n]];
    }
  }

  lemma {:induction false} EachFails(single: (nat, int) -> Option<seq<ScoredItem>>, ids: seq<nat>, max: int, i: nat)
    requires i < |ids| && single(ids[i], max) == None
    ensures EachOf(single, ids, max) == LookupFailed
  {
    if i < |ids| - 1 {
      EachFails(single, ids[..|ids| - 1], max, i);
    }
  }

  /** Two batches, one after the other. */
  function Join(first: Lookup, second: Lookup): Lookup {
    if first.Rows? && second.Rows? then Rows(first.rows + second.rows) else LookupFailed
  }

  lemma {:induction false} EachConcat(single: (nat, int) -> Option<seq<ScoredItem>>, a: seq<nat>, b: seq<nat>, max: int)
    ensures EachOf(single, a + b, max) == Join(EachOf(single, a, max), EachOf(single, b, max))
  {
    if b == [] {
      assert a + b == a;
      assert EachOf(single, a, max).Rows? ==> EachOf(single, a, max).rows + [] == EachOf(single, a, max).rows;
    } else {
      var n := |b| - 1;
      EachConcat(single, a, b[..n], max);
      assert (a + b)[..|a + b| - 1] == a + b[..n];
      var x, y := EachOf(single, a, max), EachOf(single, b[..n], max);
      if x.Rows? && y.Rows? && single(b[n], max).Some? {
        assert x.rows + y.rows + [single(b[n], max).value] == x.rows + (y.rows + [single(b[n], max).value]);
      }
    }
  }
}
