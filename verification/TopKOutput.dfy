/** Neighbour shards to the final output: a bounded heap per item, shard by shard. */
module TopKOutput {
  import opened Orders
  import opened Heaps
  import opened ShardFiles
  import opened PairReduction

  ghost function RowsOf(file: seq<NeighborRow>, item: int): set<NeighborRow> {
    set x | x in file && x.item == item
  }

  ghost function ListOf(cfg: Config, S: set<NeighborRow>): seq<Neighbor>
    requires forall x, y :: x in S && y in S ==> x.item == y.item
  {
    BetterTotal(S);
    Render(cfg.round8, TopK(Better, cfg.topK, S))
  }

  /** Every heap holds the best rows of its item among those read so far. */
  ghost predicate HeapsHold(k: nat, file: seq<NeighborRow>, heaps: map<int, seq<NeighborRow>>) {
    && (forall i :: i in heaps <==> RowsOf(file, i) != {})
    && (forall i :: i in heaps ==> IsHeap(Better, heaps[i]) && IsTopSet(Better, k, RowsOf(file, i), Elems(heaps[i])))
  }

  lemma {:induction false} RowsOfAppend(file: seq<NeighborRow>, x: NeighborRow, i: int)
    ensures RowsOf(file + [x], i) == if i == x.item then RowsOf(file, i) + {x} else RowsOf(file, i)
  {
  }

  lemma {:induction false} HeapsStep(k: nat, file: seq<NeighborRow>, x: NeighborRow, heaps: map<int, seq<NeighborRow>>,
          heap: seq<NeighborRow>)
    requires HeapsHold(k, file, heaps)
    requires IsHeap(Better, heap) && IsTopSet(Better, k, RowsOf(file, x.item) + {x}, Elems(heap))
    ensures HeapsHold(k, file + [x], heaps[x.item := heap])
  {
    hide IsHeap, IsTopSet;
    forall i ensures RowsOf(file + [x], i) == if i == x.item then RowsOf(file, i) + {x} else RowsOf(file, i) {
      RowsOfAppend(file, x, i);
    }
    assert x in RowsOf(file + [x], x.item);
  }

  method FillHeaps(k: nat, file: seq<NeighborRow>) returns (heaps: map<int, seq<NeighborRow>>)
    requires k > 0 && NoDup(file)
    ensures HeapsHold(k, file, heaps)
  {
    heaps := map[];
    for j := 0 to |file|
      invariant HeapsHold(k, file[..j], heaps)
    {
      var x := file[j];
      assert file[..j + 1] == file[..j] + [x];
      assert x !in file[..j];
      BetterTotal(RowsOf(file[..j], x.item) + {x});
      var heap := KeepBest(Better, k, if x.item in heaps then heaps[x.item] else [], x, RowsOf(file[..j], x.item));
      HeapsStep(k, file[..j], x, heaps, heap);
      heaps := heaps[x.item := heap];
    }
    assert file[..|file|] == file;
  }

  predicate SmallerItem(a: OutputRow, b: OutputRow) {
    a.item < b.item
  }

  /** The finished rows of one shard: each item's row carries its top-k list. */
  ghost predicate RowsFor(cfg: Config, file: seq<NeighborRow>, items: set<int>, out: seq<OutputRow>) {
    && (forall i, j :: 0 <= i < j < |out| ==> out[i].item != out[j].item)
    && (forall o :: o in out ==> o.item in items && o.neighbors == ListOf(cfg, RowsOf(file, o.item)))
    && (forall a :: a in items ==> exists o :: o in out && o.item == a)
  }

  method SortedNeighbors(cfg: Config, heap: seq<NeighborRow>, ghost S: set<NeighborRow>)
    returns (neighbors: seq<Neighbor>)
    requires IsHeap(Better, heap) && IsTopSet(Better, cfg.topK, S, Elems(heap))
    requires forall x, y :: x in S && y in S ==> x.item == y.item
    ensures neighbors == ListOf(cfg, S)
  {
    BetterTotal(S);
    assert TotalOn(Better, Elems(heap));
    var sorted := SortDistinct(Better, heap);
    TopSetSorted(Better, cfg.topK, S, Elems(heap), sorted);
    TopKUnique(Better, cfg.topK, S, sorted, TopK(Better, cfg.topK, S));
    neighbors := Render(cfg.round8, sorted);
  }

  lemma {:induction false} RowsForAdd(cfg: Config, file: seq<NeighborRow>, items: set<int>, out: seq<OutputRow>,
          row: OutputRow)
    requires RowsFor(cfg, file, items, out) && row.item !in items
    requires row.neighbors == ListOf(cfg, RowsOf(file, row.item))
    ensures RowsFor(cfg, file, items + {row.item}, out + [row])
  {
    var added := out + [row];
    assert forall o :: o in added <==> o in out || o == row;
    forall a | a in items + {row.item} ensures exists o :: o in added && o.item == a {
      if a != row.item {
        var o :| o in out && o.item == a;
        assert o in added;
      } else {
        assert row in added;
      }
    }
    assert forall i :: 0 <= i < |out| ==> out[i] in out;
  }

  lemma {:induction false} DistinctItemsTotal(rows: seq<OutputRow>)
    requires forall i, j :: 0 <= i < j < |rows| ==> rows[i].item != rows[j].item
    ensures NoDup(rows) && TotalOn(SmallerItem, Elems(rows))
  {
    forall x, y | x in Elems(rows) && y in Elems(rows) && x != y ensures x.item != y.item {
      var i :| 0 <= i < |rows| && rows[i] == x;
      var j :| 0 <= j < |rows| && rows[j] == y;
      assert rows[Min(i, j)].item != rows[Max(i, j)].item;
    }
  }

  lemma {:induction false} HeapKeys(k: nat, file: seq<NeighborRow>, heaps: map<int, seq<NeighborRow>>)
    requires HeapsHold(k, file, heaps)
    ensures heaps.Keys == set x | x in file :: x.item
  {
    forall a ensures a in heaps.Keys <==> a in (set x | x in file :: x.item) {
      assert forall x :: x in file && x.item == a ==> x in RowsOf(file, a);
      if a in heaps.Keys {
        var x :| x in RowsOf(file, a);
      }
    }
  }

  lemma {:induction false} RowsForReordered(cfg: Config, file: seq<NeighborRow>, items: set<int>, rows: seq<OutputRow>,
          out: seq<OutputRow>)
    requires RowsFor(cfg, file, items, rows)
    requires Elems(out) == Elems(rows) && Sorted(SmallerItem, out)
    ensures RowsFor(cfg, file, items, out)
    ensures forall i, j :: 0 <= i < j < |out| ==> out[i].item < out[j].item
  {
    assert forall o :: o in out <==> o in rows by {
      assert forall o :: o in Elems(out) <==> o in Elems(rows);
    }
    assert forall i, j :: 0 <= i < j < |out| ==> SmallerItem(out[i], out[j]);
    forall a | a in items ensures exists o :: o in out && o.item == a {
      var o :| o in rows && o.item == a;
      assert o in out;
    }
  }

  lemma {:induction false} HeapAt(k: nat, file: seq<NeighborRow>, heaps: map<int, seq<NeighborRow>>, a: int)
    requires HeapsHold(k, file, heaps) && a in heaps
    ensures IsHeap(Better, heaps[a]) && IsTopSet(Better, k, RowsOf(file, a), Elems(heaps[a]))
    ensures forall x, y :: x in RowsOf(file, a) && y in RowsOf(file, a) ==> x.item == y.item
  {
  }

  lemma {:induction false} RowsForShape(cfg: Config, file: seq<NeighborRow>, items: set<int>, out: seq<OutputRow>)
    ensures RowsFor(cfg, file, {}, [])
    ensures RowsFor(cfg, file, items, out) ==> forall i, j :: 0 <= i < j < |out| ==> out[i].item != out[j].item
  {
  }

  method TopKRowsForNeighborShard(cfg: Config, file: seq<NeighborRow>) returns (out: seq<OutputRow>)
    requires ValidConfig(cfg) && NoDup(file)
    ensures RowsFor(cfg, file, set x | x in file :: x.item, out)
    ensures forall i, j :: 0 <= i < j < |out| ==> out[i].item < out[j].item
  {
    hide RowsFor, HeapsHold, ListOf, TotalOn, IsTopSet, RowsOf;
    var heaps := FillHeaps(cfg.topK, file);
    var keys := Enumerate(heaps.Keys);
    var rows: seq<OutputRow> := [];
    RowsForShape(cfg, file, {}, []);
    assert Elems(keys[..0]) == {};
    for j := 0 to |keys|
      invariant RowsFor(cfg, file, Elems(keys[..j]), rows)
    {
      var a := keys[j];
      assert a in Elems(keys);
      HeapAt(cfg.topK, file, heaps, a);
      var neighbors := SortedNeighbors(cfg, heaps[a], RowsOf(file, a));
      assert keys[..j + 1] == keys[..j] + [a];
      assert Elems(keys[..j + 1]) == Elems(keys[..j]) + {a};
      RowsForAdd(cfg, file, Elems(keys[..j]), rows, OutputRow(a, neighbors));
      rows := rows + [OutputRow(a, neighbors)];
    }
    assert keys[..|keys|] == keys;
    HeapKeys(cfg.topK, file, heaps);
    RowsForShape(cfg, file, heaps.Keys, rows);
    DistinctItemsTotal(rows);
    out := SortDistinct(SmallerItem, rows);
    RowsForReordered(cfg, file, heaps.Keys, rows, out);
  }

  /** The home shard of an item holds exactly its neighbour rows. */
  lemma {:induction false} ItemOwnedByShard(cfg: Config, norms: map<int, real>, rows: seq<PairRow>,
          written: seq<NeighborRow>, s: int, a: int)
    requires ValidConfig(cfg)
    requires forall x :: x in written <==> IsNeighborRow(cfg, norms, rows, x)
    ensures RowsOf(OfShard(written, NeighborSharding(cfg.shardCount), s), a) ==
            if EntityShardId(a, cfg.shardCount) == s then NeighborSet(cfg, norms, rows, a) else {}
  {
    var file := OfShard(written, NeighborSharding(cfg.shardCount), s);
    forall x ensures x in RowsOf(file, a) <==>
                     EntityShardId(a, cfg.shardCount) == s && x in NeighborSet(cfg, norms, rows, a) {
      OfShardMember(written, NeighborSharding(cfg.shardCount), s, x);
      if IsNeighborRow(cfg, norms, rows, x) && x.item == a {
        CountPositive(rows, Min(a, x.neighbor), Max(a, x.neighbor));
        assert x.neighbor in Ids(rows);
      }
    }
  }

  ghost predicate OutputSoFar(cfg: Config, norms: map<int, real>, rows: seq<PairRow>, s: int, out: seq<OutputRow>)
    requires cfg.shardCount > 0
  {
    && (forall i, j :: 0 <= i < j < |out| ==> out[i].item != out[j].item)
    && (forall o :: o in out ==> NeighborSet(cfg, norms, rows, o.item) != {}
                                 && o.neighbors == NeighborList(cfg, norms, rows, o.item)
                                 && EntityShardId(o.item, cfg.shardCount) < s)
    && (forall a :: NeighborSet(cfg, norms, rows, a) != {} && EntityShardId(a, cfg.shardCount) < s ==>
          exists o :: o in out && o.item == a)
  }

  lemma {:induction false} ShardItems(cfg: Config, norms: map<int, real>, rows: seq<PairRow>, written: seq<NeighborRow>,
          s: int, a: int)
    requires ValidConfig(cfg)
    requires forall x :: x in written <==> IsNeighborRow(cfg, norms, rows, x)
    ensures var file := OfShard(written, NeighborSharding(cfg.shardCount), s);
            && (a in (set x | x in file :: x.item) <==>
                EntityShardId(a, cfg.shardCount) == s && NeighborSet(cfg, norms, rows, a) != {})
            && (a in (set x | x in file :: x.item) ==> RowsOf(file, a) == NeighborSet(cfg, norms, rows, a))
  {
    var file := OfShard(written, NeighborSharding(cfg.shardCount), s);
    ItemOwnedByShard(cfg, norms, rows, written, s, a);
    if a in (set x | x in file :: x.item) {
      var x :| x in file && x.item == a;
      assert x in RowsOf(file, a);
    }
  }

  lemma {:induction false} ListIsNeighborList(cfg: Config, norms: map<int, real>, rows: seq<PairRow>,
          file: seq<NeighborRow>, a: int)
    requires RowsOf(file, a) == NeighborSet(cfg, norms, rows, a)
    ensures ListOf(cfg, RowsOf(file, a)) == NeighborList(cfg, norms, rows, a)
  {
  }

  lemma {:induction false} OutputStep(cfg: Config, norms: map<int, real>, rows: seq<PairRow>, s: int,
          file: seq<NeighborRow>, items: set<int>, out: seq<OutputRow>, added: seq<OutputRow>)
    requires ValidConfig(cfg)
    requires OutputSoFar(cfg, norms, rows, s, out)
    requires RowsFor(cfg, file, items, added)
    requires forall a :: a in items <==> EntityShardId(a, cfg.shardCount) == s && NeighborSet(cfg, norms, rows, a) != {}
    requires forall a :: a in items ==> RowsOf(file, a) == NeighborSet(cfg, norms, rows, a)
    ensures OutputSoFar(cfg, norms, rows, s + 1, out + added)
  {
    hide NeighborList, RowsOf, NeighborSet, ListOf;
    var all := out + added;
    forall o | o in added ensures o.neighbors == NeighborList(cfg, norms, rows, o.item) {
      ListIsNeighborList(cfg, norms, rows, file, o.item);
    }
    assert forall o :: o in all <==> o in out || o in added;
    assert forall i :: 0 <= i < |out| ==> out[i] in out;
    assert forall i :: 0 <= i < |added| ==> added[i] in added;
    forall a | NeighborSet(cfg, norms, rows, a) != {} && EntityShardId(a, cfg.shardCount) < s + 1
      ensures exists o :: o in all && o.item == a {
      if EntityShardId(a, cfg.shardCount) < s {
        var o :| o in out && o.item == a;
        assert o in all;
      } else {
        assert a in items;
        var o :| o in added && o.item == a;
        assert o in all;
      }
    }
  }

  method ReduceNeighborShards(cfg: Config, files: seq<seq<NeighborRow>>, ghost norms: map<int, real>,
          ghost rows: seq<PairRow>, ghost written: seq<NeighborRow>)
    returns (out: seq<OutputRow>)
    requires ValidConfig(cfg) && |files| == cfg.shardCount
    requires forall s :: 0 <= s < cfg.shardCount ==> files[s] == OfShard(written, NeighborSharding(cfg.shardCount), s)
    requires NoDup(written) && forall x :: x in written <==> IsNeighborRow(cfg, norms, rows, x)
    ensures IsOutput(cfg, norms, rows, out)
  {
    out := [];
    for s := 0 to cfg.shardCount
      invariant OutputSoFar(cfg, norms, rows, s, out)
    {
      OfShardNoDup(written, NeighborSharding(cfg.shardCount), s);
      ghost var file := OfShard(written, NeighborSharding(cfg.shardCount), s);
      assert files[s] == file;
      var added := TopKRowsForNeighborShard(cfg, files[s]);
      ghost var items := set x | x in file :: x.item;
      forall a ensures
        && (a in items <==> EntityShardId(a, cfg.shardCount) == s && NeighborSet(cfg, norms, rows, a) != {})
        && (a in items ==> RowsOf(file, a) == NeighborSet(cfg, norms, rows, a)) {
        ShardItems(cfg, norms, rows, written, s, a);
      }
      OutputStep(cfg, norms, rows, s, file, items, out, added);
      out := out + added;
    }
  }
}
