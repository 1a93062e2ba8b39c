/** Intermediate shard files: an in-memory buffer per shard in front of an append-only file. */
module ShardFiles {
  import opened Orders

  /** The rows of one shard, in the order they were written. */
  function OfShard<R>(rows: seq<R>, shardOf: R -> int, shard: int): (r: seq<R>)
  {
    if rows == [] then []
    else
      var n := |rows| - 1;
      OfShard(rows[..n], shardOf, shard) + (if shardOf(rows[n]) == shard then [rows[n]] else [])
  }

  lemma {:induction false} OfShardMember<R(!new)>(rows: seq<R>, shardOf: R -> int, shard: int, x: R)
    ensures x in OfShard(rows, shardOf, shard) <==> x in rows && shardOf(x) == shard
  {
    if rows != [] {
      var n := |rows| - 1;
      OfShardMember(rows[..n], shardOf, shard, x);
      assert rows == rows[..n] + [rows[n]];
    }
  }

  lemma {:induction false} OfShardNoDup<R(!new)>(rows: seq<R>, shardOf: R -> int, shard: int)
    requires NoDup(rows)
    ensures NoDup(OfShard(rows, shardOf, shard))
  {
    if rows != [] {
      var n := |rows| - 1;
      OfShardNoDup(rows[..n], shardOf, shard);
      OfShardMember(rows[..n], shardOf, shard, rows[n]);
      assert rows[n] !in rows[..n];
    }
  }

  /** How many rows the buffers hold together. */
  function TotalRows<R>(buffers: seq<seq<R>>): (n: nat) {
    if buffers == [] then 0 else TotalRows(buffers[..|buffers| - 1]) + |buffers[|buffers| - 1]|
  }

  lemma {:induction false} TotalRowsUpdate<R>(buffers: seq<seq<R>>, s: nat, rows: seq<R>)
    requires s < |buffers|
    ensures TotalRows(buffers[s := rows]) == TotalRows(buffers) - |buffers[s]| + |rows|
  {
    var n := |buffers| - 1;
    if s == n {
      assert buffers[s := rows][..n] == buffers[..n];
    } else {
      assert buffers[s := rows][..n] == buffers[..n][s := rows];
      TotalRowsUpdate(buffers[..n], s, rows);
    }
  }

  lemma {:induction false} TotalRowsEmpty<R>(buffers: seq<seq<R>>)
    requires forall s :: 0 <= s < |buffers| ==> buffers[s] == []
    ensures TotalRows(buffers) == 0
  {
    if buffers != [] {
      TotalRowsEmpty(buffers[..|buffers| - 1]);
    }
  }

  /** The buffers and files of one stage, with the running count that triggers a flush. */
  class ShardWriter<R> {
    const shardCount: nat
    const bufferLimit: int
    const shardOf: R -> int
    var buffers: seq<seq<R>>
    var files: seq<seq<R>>
    var bufferedRows: int
    ghost var written: seq<R>

    ghost predicate Valid() reads this {
      && |buffers| == |files| == shardCount
      && (forall r :: r in written ==> 0 <= shardOf(r) < shardCount)
      && (forall s {:trigger OfShard(written, shardOf, s)} :: 0 <= s < shardCount ==>
        files[s] + buffers[s] == OfShard(written, shardOf, s))
    }

    /** The rows in memory, waiting for the next flush. */
    ghost function Held(): nat reads this {
      TotalRows(buffers)
    }

    /** Every buffered row has been counted, and there are fewer of them than the limit. */
    ghost predicate Counted() reads this {
      Held() == bufferedRows && (bufferLimit > 0 ==> Held() < bufferLimit)
    }

    constructor (shardCount: nat, bufferLimit: int, shardOf: R -> int)
      ensures Valid() && written == [] && Counted()
      ensures this.shardCount == shardCount && this.shardOf == shardOf && this.bufferLimit == bufferLimit
    {
      this.shardCount, this.bufferLimit, this.shardOf := shardCount, bufferLimit, shardOf;
      buffers, files := seq(shardCount, _ => []), seq(shardCount, _ => []);
      bufferedRows, written := 0, [];
      new;
      TotalRowsEmpty(buffers);
    }

    method Append(row: R)
      requires Valid() && 0 <= shardOf(row) < shardCount
      modifies this
      ensures Valid() && written == old(written) + [row]
      ensures Held() == old(Held()) + 1 && bufferedRows == old(bufferedRows)
    {
      var s := shardOf(row);
      TotalRowsUpdate(buffers, s, buffers[s] + [row]);
      buffers := buffers[s := buffers[s] + [row]];
      written := written + [row];
      assert written[..|written| - 1] == old(written);
      assert files[s] + buffers[s] == (files[s] + old(buffers)[s]) + [row];
    }

    /** Count newly buffered rows and flush once the limit is reached: when the rows counted are
        those buffered since the last count, fewer rows than the limit stay in memory. */
    method Count(rowCount: nat)
      requires Valid()
      modifies this
      ensures Valid() && written == old(written)
      ensures old(bufferedRows) + rowCount < bufferLimit ==>
                files == old(files) && Held() == old(Held()) && bufferedRows == old(bufferedRows) + rowCount
      ensures old(bufferedRows) + rowCount >= bufferLimit ==> Held() == 0 && bufferedRows == 0
      ensures old(Held()) == old(bufferedRows) + rowCount ==> Counted()
    {
      bufferedRows := bufferedRows + rowCount;
      if bufferedRows >= bufferLimit {
        Flush();
        bufferedRows := 0;
      }
    }

    /** Append every buffer to its file and clear it: afterwards the files hold everything. */
    method Flush()
      requires Valid()
      modifies this
      ensures Valid() && written == old(written)
      ensures forall s :: 0 <= s < shardCount ==> buffers[s] == [] && files[s] == OfShard(written, shardOf, s)
      ensures Held() == 0
    {
      for s := 0 to shardCount
        invariant Valid() && written == old(written)
        invariant forall t :: 0 <= t < s ==> buffers[t] == []
      {
        if buffers[s] != [] {
          files := files[s := files[s] + buffers[s]];
          buffers := buffers[s := []];
        }
      }
      forall s | 0 <= s < shardCount ensures files[s] == OfShard(written, shardOf, s) {
        assert files[s] + buffers[s] == files[s];
      }
      TotalRowsEmpty(buffers);
    }
  }
}
