/** The two reduction stages shared by both similarity builders: pair rows to scored
    neighbour rows, and neighbour rows to the per-entity top-k output. */
module PairReduction {
  import opened Orders
  import opened ShardFiles

  datatype PairRow = PairRow(left: int, right: int, weight: real)
  datatype NeighborRow = NeighborRow(item: int, neighbor: int, score: real, cooccurrence: int)
  datatype Neighbor = Neighbor(id: int, score: real, cooccurrence: int)
  datatype OutputRow = OutputRow(item: int, neighbors: seq<Neighbor>)

  /** The tunables of the reduction. `sqrt` and `round8` stand for math.sqrt and
      round(_, 8) on ideal reals. */
  datatype Config = Config(
    minCooccurrence: int, minSimilarity: real, topK: nat, shardCount: nat, shardBufferRows: int,
    sqrt: real -> real, round8: real -> real)

  ghost predicate ValidConfig(cfg: Config) {
    cfg.minCooccurrence > 0 && cfg.topK > 0 && cfg.shardCount > 0 && cfg.shardBufferRows > 0
  }

  function PairShardId(left: int, right: int, shardCount: nat): (r: int)
    requires shardCount > 0
    ensures 0 <= r < shardCount
  {
    (left * 1000003 + right) % shardCount
  }

  /** Where everything owned by one item or user lives. */
  function EntityShardId(id: int, shardCount: nat): (r: int)
    requires shardCount > 0
    ensures 0 <= r < shardCount
  {
    id % shardCount
  }

  function PairSharding(shardCount: nat): PairRow -> int
    requires shardCount > 0
  {
    (r: PairRow) => PairShardId(r.left, r.right, shardCount)
  }

  function NeighborSharding(shardCount: nat): NeighborRow -> int
    requires shardCount > 0
  {
    (r: NeighborRow) => EntityShardId(r.item, shardCount)
  }

  // ----- the unsharded specification ------------------------------------------------------

  function RowCount(rows: seq<PairRow>, l: int, r: int): (c: nat)
  {
    if rows == [] then 0
    else
      var n := |rows| - 1;
      RowCount(rows[..n], l, r) + (if rows[n].left == l && rows[n].right == r then 1 else 0)
  }

  function RowSum(rows: seq<PairRow>, l: int, r: int): real
  {
    if rows == [] then 0.0
    else
      var n := |rows| - 1;
      RowSum(rows[..n], l, r) + (if rows[n].left == l && rows[n].right == r then rows[n].weight else 0.0)
  }

  /** How many rows join the unordered pair {a, b}. */
  function Cooccurrence(rows: seq<PairRow>, a: int, b: int): nat {
    RowCount(rows, Min(a, b), Max(a, b))
  }

  /** The summed weight products of the unordered pair {a, b}. */
  function Dot(rows: seq<PairRow>, a: int, b: int): real {
    RowSum(rows, Min(a, b), Max(a, b))
  }

  /** A defaultdict(float) lookup. */
  function NormSq(norms: map<int, real>, id: int): real {
    if id in norms then norms[id] else 0.0
  }

  function RootOfProduct(sqrt: real -> real, x: real, y: real): real {
    sqrt(x * y)
  }

  function Denominator(cfg: Config, norms: map<int, real>, a: int, b: int): real {
    RootOfProduct(cfg.sqrt, NormSq(norms, Min(a, b)), NormSq(norms, Max(a, b)))
  }

  /** The pair passes every threshold. */
  predicate Kept(cfg: Config, norms: map<int, real>, rows: seq<PairRow>, a: int, b: int) {
    && a != b
    && Cooccurrence(rows, a, b) >= cfg.minCooccurrence
    && Denominator(cfg, norms, a, b) > 0.0
    && Dot(rows, a, b) / Denominator(cfg, norms, a, b) >= cfg.minSimilarity
  }

  function ScoredRow(cfg: Config, norms: map<int, real>, rows: seq<PairRow>, a: int, b: int): NeighborRow
    requires Kept(cfg, norms, rows, a, b)
  {
    NeighborRow(a, b, cfg.round8(Dot(rows, a, b) / Denominator(cfg, norms, a, b)), Cooccurrence(rows, a, b))
  }

  predicate IsNeighborRow(cfg: Config, norms: map<int, real>, rows: seq<PairRow>, x: NeighborRow) {
    Kept(cfg, norms, rows, x.item, x.neighbor) && x == ScoredRow(cfg, norms, rows, x.item, x.neighbor)
  }

  function Ids(rows: seq<PairRow>): set<int> {
    (set r | r in rows :: r.left) + (set r | r in rows :: r.right)
  }

  /** All pairs against item a, naively: every id that passes the thresholds with a. */
  ghost function NeighborSet(cfg: Config, norms: map<int, real>, rows: seq<PairRow>, a: int): set<NeighborRow> {
    set b | b in Ids(rows) && Kept(cfg, norms, rows, a, b) :: ScoredRow(cfg, norms, rows, a, b)
  }

  /** The output order: score descending, co-occurrence descending, smaller id first. */
  predicate Better(x: NeighborRow, y: NeighborRow) {
    || x.score > y.score
    || (x.score == y.score && x.cooccurrence > y.cooccurrence)
    || (x.score == y.score && x.cooccurrence == y.cooccurrence && x.neighbor < y.neighbor)
  }

  lemma {:induction false} BetterTotal(S: set<NeighborRow>)
    requires forall x, y :: x in S && y in S ==> x.item == y.item
    ensures TotalOn(Better, S)
  {
  }

  lemma {:induction false} NeighborSetTotal(cfg: Config, norms: map<int, real>, rows: seq<PairRow>, a: int)
    ensures TotalOn(Better, NeighborSet(cfg, norms, rows, a))
  {
    BetterTotal(NeighborSet(cfg, norms, rows, a));
  }

  /** The printed form of a neighbour list; the score is rounded once more. */
  function Render(round8: real -> real, s: seq<NeighborRow>): (r: seq<Neighbor>)
  {
    seq(|s|, i requires 0 <= i < |s| => Neighbor(s[i].neighbor, round8(s[i].score), s[i].cooccurrence))
  }

  ghost function NeighborList(cfg: Config, norms: map<int, real>, rows: seq<PairRow>, a: int): seq<Neighbor> {
    NeighborSetTotal(cfg, norms, rows, a);
    Render(cfg.round8, TopK(Better, cfg.topK, NeighborSet(cfg, norms, rows, a)))
  }

  /** The whole output: one row per item that kept a neighbour, with its top-k list. */
  ghost predicate IsOutput(cfg: Config, norms: map<int, real>, rows: seq<PairRow>, out: seq<OutputRow>) {
    && (forall i, j :: 0 <= i < j < |out| ==> out[i].item != out[j].item)
    && (forall o :: o in out ==> NeighborSet(cfg, norms, rows, o.item) != {}
                                 && o.neighbors == NeighborList(cfg, norms, rows, o.item))
    && (forall a :: NeighborSet(cfg, norms, rows, a) != {} ==> exists o :: o in out && o.item == a)
  }

  // ----- pair rows to neighbour rows -------------------------------------------------------

  lemma {:induction false} RowsAppend(rows: seq<PairRow>, q: PairRow, l: int, r: int)
    ensures RowCount(rows + [q], l, r) == RowCount(rows, l, r) + (if q.left == l && q.right == r then 1 else 0)
    ensures RowSum(rows + [q], l, r) == RowSum(rows, l, r) + (if q.left == l && q.right == r then q.weight else 0.0)
  {
    var s := rows + [q];
    assert s[..|s| - 1] == rows;
  }

  /** A pair lives in one shard only, so its shard alone knows its count and its sum. */
  lemma {:induction false} PairOwnedByShard(rows: seq<PairRow>, shardOf: PairRow -> int, shard: int, l: int, r: int,
          home: int)
    requires forall q :: q in rows && q.left == l && q.right == r ==> shardOf(q) == home
    ensures RowCount(OfShard(rows, shardOf, shard), l, r) == if home == shard then RowCount(rows, l, r) else 0
    ensures RowSum(OfShard(rows, shardOf, shard), l, r) == if home == shard then RowSum(rows, l, r) else 0.0
  {
    if rows != [] {
      var m := |rows| - 1;
      assert rows == rows[..m] + [rows[m]];
      PairOwnedByShard(rows[..m], shardOf, shard, l, r, home);
      RowsAppend(OfShard(rows[..m], shardOf, shard), rows[m], l, r);
      assert OfShard(rows[..m], shardOf, shard) + [] == OfShard(rows[..m], shardOf, shard);
    }
  }

  lemma {:induction false} CountPositive(rows: seq<PairRow>, l: int, r: int)
    ensures RowCount(rows, l, r) > 0 <==> exists q :: q in rows && q.left == l && q.right == r
  {
    if rows != [] {
      var n := |rows| - 1;
      CountPositive(rows[..n], l, r);
      assert rows == rows[..n] + [rows[n]];
    }
  }

  lemma {:induction false} KeptOccurs(cfg: Config, norms: map<int, real>, rows: seq<PairRow>, a: int, b: int)
    requires cfg.minCooccurrence > 0 && Kept(cfg, norms, rows, a, b)
    ensures b in Ids(rows)
  {
    CountPositive(rows, Min(a, b), Max(a, b));
  }

  /** First pass over one pair shard: the dictionaries of sums and counts. */
  method AccumulatePairs(file: seq<PairRow>) returns (sums: map<(int, int), real>, counts: map<(int, int), int>)
    ensures sums.Keys == counts.Keys
    ensures forall p :: p in counts <==> RowCount(file, p.0, p.1) > 0
    ensures forall p :: p in counts ==> counts[p] == RowCount(file, p.0, p.1) && sums[p] == RowSum(file, p.0, p.1)
  {
    sums, counts := map[], map[];
    for i := 0 to |file|
      invariant sums.Keys == counts.Keys
      invariant forall p :: p in counts <==> RowCount(file[..i], p.0, p.1) > 0
      invariant forall p :: p in counts ==>
                  counts[p] == RowCount(file[..i], p.0, p.1) && sums[p] == RowSum(file[..i], p.0, p.1)
      invariant forall p :: p !in counts ==> RowSum(file[..i], p.0, p.1) == 0.0
    {
      var p := (file[i].left, file[i].right);
      assert file[..i + 1] == file[..i] + [file[i]];
      forall q: (int, int) ensures
        RowCount(file[..i + 1], q.0, q.1) == RowCount(file[..i], q.0, q.1) + (if q == p then 1 else 0) &&
        RowSum(file[..i + 1], q.0, q.1) == RowSum(file[..i], q.0, q.1) + (if q == p then file[i].weight else 0.0) {
        RowsAppend(file[..i], file[i], q.0, q.1);
      }
      sums := sums[p := (if p in sums then sums[p] else 0.0) + file[i].weight];
      counts := counts[p := (if p in counts then counts[p] else 0) + 1];
    }
    assert file[..|file|] == file;
  }

  function Key(x: NeighborRow): (int, int) {
    (Min(x.item, x.neighbor), Max(x.item, x.neighbor))
  }

  /** The neighbour rows written so far are exactly those of the finished pairs. */
  ghost predicate Emitted(cfg: Config, norms: map<int, real>, rows: seq<PairRow>, done: set<(int, int)>,
          written: seq<NeighborRow>)
  {
    && NoDup(written)
    && (forall x :: x in written <==> IsNeighborRow(cfg, norms, rows, x) && Key(x) in done)
  }

  /** Nothing about an unordered pair depends on which side is named first. */
  lemma {:induction false} KeptSymmetric(cfg: Config, norms: map<int, real>, rows: seq<PairRow>, a: int, b: int)
    ensures Kept(cfg, norms, rows, a, b) <==> Kept(cfg, norms, rows, b, a)
    ensures Kept(cfg, norms, rows, a, b) ==>
              ScoredRow(cfg, norms, rows, b, a) == ScoredRow(cfg, norms, rows, a, b).(item := b, neighbor := a)
  {
    assert Min(a, b) == Min(b, a) && Max(a, b) == Max(b, a);
    assert Denominator(cfg, norms, a, b) == Denominator(cfg, norms, b, a);
    assert Dot(rows, a, b) == Dot(rows, b, a);
  }

  lemma {:induction false} KeyOf(x: NeighborRow, l: int, r: int)
    requires l < r && x.item != x.neighbor
    ensures Key(x) == (l, r) <==> (x.item == l && x.neighbor == r) || (x.item == r && x.neighbor == l)
  {
  }

  lemma {:induction false} EmitKept(cfg: Config, norms: map<int, real>, rows: seq<PairRow>, done: set<(int, int)>,
          written: seq<NeighborRow>, l: int, r: int)
    requires Emitted(cfg, norms, rows, done, written) && (l, r) !in done && l < r
    requires Kept(cfg, norms, rows, l, r)
    ensures var a := ScoredRow(cfg, norms, rows, l, r);
            Emitted(cfg, norms, rows, done + {(l, r)}, written + [a] + [a.(item := r, neighbor := l)])
  {
    KeptSymmetric(cfg, norms, rows, l, r);
    var a, b := ScoredRow(cfg, norms, rows, l, r), ScoredRow(cfg, norms, rows, r, l);
    var w := written + [a] + [b];
    assert Key(a) == Key(b) == (l, r);
    assert a !in written && b !in written && a != b;
    forall x ensures x in w <==> IsNeighborRow(cfg, norms, rows, x) && Key(x) in done + {(l, r)} {
      if IsNeighborRow(cfg, norms, rows, x) {
        KeyOf(x, l, r);
      }
    }
  }

  lemma {:induction false} EmitDropped(cfg: Config, norms: map<int, real>, rows: seq<PairRow>, done: set<(int, int)>,
          written: seq<NeighborRow>, l: int, r: int)
    requires Emitted(cfg, norms, rows, done, written) && l < r
    requires !Kept(cfg, norms, rows, l, r)
    ensures Emitted(cfg, norms, rows, done + {(l, r)}, written)
  {
    KeptSymmetric(cfg, norms, rows, l, r);
    forall x | IsNeighborRow(cfg, norms, rows, x) ensures Key(x) != (l, r) {
      KeyOf(x, l, r);
    }
  }

  /** One pair of the second pass: its thresholds, and two directed rows if it is kept. */
  method EmitPair(
    cfg: Config, norms: map<int, real>, sum: real, count: int, l: int, r: int,
    writer: ShardWriter<NeighborRow>, ghost rows: seq<PairRow>, ghost done: set<(int, int)>)
    requires ValidConfig(cfg) && writer.Valid()
    requires writer.shardCount == cfg.shardCount && writer.shardOf == NeighborSharding(cfg.shardCount)
    requires l < r && (l, r) !in done && count == RowCount(rows, l, r) && sum == RowSum(rows, l, r)
    requires Emitted(cfg, norms, rows, done, writer.written)
    modifies writer
    ensures writer.Valid() && Emitted(cfg, norms, rows, done + {(l, r)}, writer.written)
    ensures old(writer.Counted()) ==> writer.Counted()
  {
    var denominator := RootOfProduct(cfg.sqrt, NormSq(norms, l), NormSq(norms, r));
    assert Min(l, r) == l && Max(l, r) == r;
    assert denominator == Denominator(cfg, norms, l, r);
    if count < cfg.minCooccurrence || denominator <= 0.0 || sum / denominator < cfg.minSimilarity {
      EmitDropped(cfg, norms, rows, done, writer.written, l, r);
      return;
    }
    EmitKept(cfg, norms, rows, done, writer.written, l, r);
    var rounded := cfg.round8(sum / denominator);
    writer.Append(NeighborRow(l, r, rounded, count));
    writer.Append(NeighborRow(r, l, rounded, count));
    writer.Count(2);
  }

  /** Second pass over one pair shard, in whatever order the dictionary yields its keys. */
  method EmitShard(
    cfg: Config, norms: map<int, real>, sums: map<(int, int), real>, counts: map<(int, int), int>,
    writer: ShardWriter<NeighborRow>, ghost rows: seq<PairRow>, ghost done: set<(int, int)>)
    requires ValidConfig(cfg) && writer.Valid()
    requires writer.shardCount == cfg.shardCount && writer.shardOf == NeighborSharding(cfg.shardCount)
    requires sums.Keys == counts.Keys && counts.Keys !! done
    requires forall p :: p in counts ==>
               p.0 < p.1 && counts[p] == RowCount(rows, p.0, p.1) && sums[p] == RowSum(rows, p.0, p.1)
    requires Emitted(cfg, norms, rows, done, writer.written)
    modifies writer
    ensures writer.Valid() && Emitted(cfg, norms, rows, done + counts.Keys, writer.written)
    ensures old(writer.Counted()) ==> writer.Counted()
  {
    hide Emitted, PairSharding, RowCount, RowSum;
    var rest := counts.Keys;
    assert done + (counts.Keys - rest) == done;
    while rest != {}
      invariant rest <= counts.Keys && writer.Valid()
      invariant Emitted(cfg, norms, rows, done + (counts.Keys - rest), writer.written)
      invariant old(writer.Counted()) ==> writer.Counted()
      decreases |rest|
    {
      var p :| p in rest;
      ghost var finished := done + (counts.Keys - rest);
      assert done + (counts.Keys - (rest - {p})) == finished + {p};
      EmitPair(cfg, norms, sums[p], counts[p], p.0, p.1, writer, rows, finished);
      rest := rest - {p};
    }
    assert counts.Keys - rest == counts.Keys;
  }

  /** The pairs with rows whose home shard is already processed. */
  ghost predicate ShardsDone(rows: seq<PairRow>, n: nat, s: int, done: set<(int, int)>)
    requires n > 0
  {
    forall p :: p in done <==> RowCount(rows, p.0, p.1) > 0 && PairShardId(p.0, p.1, n) < s
  }

  /** What one shard's dictionaries say about the whole stream. */
  lemma {:induction false} ShardCounts(rows: seq<PairRow>, n: nat, s: int, p: (int, int))
    requires n > 0 && forall q :: q in rows ==> q.left < q.right
    ensures var file := OfShard(rows, PairSharding(n), s);
            if PairShardId(p.0, p.1, n) == s
            then RowCount(file, p.0, p.1) == RowCount(rows, p.0, p.1) &&
              RowSum(file, p.0, p.1) == RowSum(rows, p.0, p.1)
            else RowCount(file, p.0, p.1) == 0
    ensures RowCount(rows, p.0, p.1) > 0 ==> p.0 < p.1
  {
    PairOwnedByShard(rows, PairSharding(n), s, p.0, p.1, PairShardId(p.0, p.1, n));
    CountPositive(rows, p.0, p.1);
  }

  /** One pair shard. */
  method ReduceShard(
    cfg: Config, s: int, file: seq<PairRow>, norms: map<int, real>,
    writer: ShardWriter<NeighborRow>, ghost rows: seq<PairRow>, ghost done: set<(int, int)>)
    returns (ghost finished: set<(int, int)>)
    requires ValidConfig(cfg) && writer.Valid()
    requires writer.shardCount == cfg.shardCount && writer.shardOf == NeighborSharding(cfg.shardCount)
    requires forall q :: q in rows ==> q.left < q.right
    requires file == OfShard(rows, PairSharding(cfg.shardCount), s)
    requires ShardsDone(rows, cfg.shardCount, s, done)
    requires Emitted(cfg, norms, rows, done, writer.written)
    modifies writer
    ensures writer.Valid() && Emitted(cfg, norms, rows, finished, writer.written)
    ensures ShardsDone(rows, cfg.shardCount, s + 1, finished)
    ensures old(writer.Counted()) ==> writer.Counted()
  {
    var sums, counts := AccumulatePairs(file);
    forall p: (int, int) ensures
      && (p in counts <==> RowCount(rows, p.0, p.1) > 0 && PairShardId(p.0, p.1, cfg.shardCount) == s)
      && (p in counts ==> p.0 < p.1 && counts[p] == RowCount(rows, p.0, p.1) && sums[p] == RowSum(rows, p.0, p.1)) {
      ShardCounts(rows, cfg.shardCount, s, p);
    }
    EmitShard(cfg, norms, sums, counts, writer, rows, done);
    finished := done + counts.Keys;
  }

  /** Pair shards to neighbour shards. */
  method ReducePairShards(cfg: Config, pairFiles: seq<seq<PairRow>>, norms: map<int, real>, ghost rows: seq<PairRow>)
    returns (neighborFiles: seq<seq<NeighborRow>>, ghost written: seq<NeighborRow>)
    requires ValidConfig(cfg) && |pairFiles| == cfg.shardCount
    requires forall q :: q in rows ==> q.left < q.right
    requires forall s :: 0 <= s < cfg.shardCount ==> pairFiles[s] == OfShard(rows, PairSharding(cfg.shardCount), s)
    ensures |neighborFiles| == cfg.shardCount
    ensures forall s :: 0 <= s < cfg.shardCount ==>
              neighborFiles[s] == OfShard(written, NeighborSharding(cfg.shardCount), s)
    ensures NoDup(written) && forall x :: x in written <==> IsNeighborRow(cfg, norms, rows, x)
  {
    var n := cfg.shardCount;
    var writer := new ShardWriter<NeighborRow>(n, cfg.shardBufferRows, NeighborSharding(n));
    ghost var done: set<(int, int)> := {};
    for s := 0 to n
      invariant fresh(writer) && writer.Valid()
      invariant ShardsDone(rows, n, s, done)
      invariant Emitted(cfg, norms, rows, done, writer.written)
    {
      done := ReduceShard(cfg, s, pairFiles[s], norms, writer, rows, done);
    }
    writer.Flush();
    written := writer.written;
    neighborFiles := writer.files;
    forall x | IsNeighborRow(cfg, norms, rows, x) ensures Key(x) in done {
      assert RowCount(rows, Key(x).0, Key(x).1) > 0;
    }
  }
}
