/** Neighbour stores: the Redis batch lookup scatters its answers back to the positions they
    were asked for, and agrees with one lookup per item. */
module ItemStores {
  import opened Aggregation
  import opened ItemCf
  import opened Lookups
  import opened Options

  datatype Member = Member(member: string, score: real)

  /** Redis as a function of the item id and the count, and the member parser. */
  datatype Redis = Redis(fetch: (nat, int) -> seq<Member>, parse: string -> Option<nat>)

  function ParseMembers(redis: Redis, members: seq<Member>): Option<seq<ScoredItem>> {
    if members == [] then Some([])
    else
      var last := members[|members| - 1];
      match ParseMembers(redis, members[..|members| - 1])
      case None => None
      case Some(items) =>
        match redis.parse(last.member)
        case None => None
        case Some(id) => Some(items + [ScoredItem(id, last.score)])
  }

  method ParseRow(redis: Redis, members: seq<Member>) returns (r: Option<seq<ScoredItem>>)
    ensures r == ParseMembers(redis, members)
  {
    var items: seq<ScoredItem> := [];
    for i := 0 to |members|
      invariant ParseMembers(redis, members[..i]) == Some(items)
    {
      assert members[..i + 1][..i] == members[..i];
      var id := redis.parse(members[i].member);
      if id == None {
        FailedPrefix(redis, members, i + 1);
        return None;
      }
      items := items + [ScoredItem(id.value, members[i].score)];
    }
    assert members[..|members|] == members;
    return Some(items);
  }

  lemma {:induction false} FailedPrefix(redis: Redis, members: seq<Member>, i: nat)
    requires i <= |members| && ParseMembers(redis, members[..i]) == None
    ensures ParseMembers(redis, members) == None
    decreases |members| - i
  {
    if i < |members| {
      assert members[..i + 1][..i] == members[..i];
      FailedPrefix(redis, members, i + 1);
    } else {
      assert members[..i] == members;
    }
  }

  /** FindNeighborsByItemId: one key, no lookup for id zero or a non-positive count. */
  function FindOne(redis: Redis, id: nat, max: int): Option<seq<ScoredItem>> {
    if id == 0 || max <= 0 then Some([]) else ParseMembers(redis, redis.fetch(id, max))
  }

  function OneOf(redis: Redis): (nat, int) -> Option<seq<ScoredItem>> {
    (id: nat, max: int) => FindOne(redis, id, max)
  }

  /** The positions of the non-zero ids, each once, in order. */
  ghost predicate AreValidIndexes(ids: seq<nat>, v: seq<nat>) {
    && (forall k :: 0 <= k < |v| ==> v[k] < |ids|)
    && (forall j, k :: 0 <= j < k < |v| ==> v[j] < v[k])
    && (forall i :: 0 <= i < |ids| ==> (ids[i] != 0 <==> i in v))
  }

  method CollectValidIndexes(ids: seq<nat>) returns (validIndexes: seq<nat>)
    ensures AreValidIndexes(ids, validIndexes)
  {
    validIndexes := [];
    for i := 0 to |ids|
      invariant forall k :: 0 <= k < |validIndexes| ==> validIndexes[k] < i
      invariant forall j, k :: 0 <= j < k < |validIndexes| ==> validIndexes[j] < validIndexes[k]
      invariant forall m :: 0 <= m < i ==> (ids[m] != 0 <==> m in validIndexes)
    {
      if ids[i] == 0 {
        continue;
      }
      validIndexes := validIndexes + [i];
    }
  }

  /** Write every answer back at the position its id was asked for. */
  method Scatter(redis: Redis, ids: seq<nat>, max: int, validIndexes: seq<nat>) returns (r: Lookup)
    requires max > 0 && AreValidIndexes(ids, validIndexes)
    ensures r == EachOf(OneOf(redis), ids, max)
  {
    hide EachOf, ParseMembers;
    var rows: seq<seq<ScoredItem>> := seq(|ids|, _ => []);
    for k := 0 to |validIndexes|
      invariant |rows| == |ids|
      invariant forall j :: 0 <= j < k ==> FindOne(redis, ids[validIndexes[j]], max) == Some(rows[validIndexes[j]])
      invariant forall i :: 0 <= i < |ids| && ids[i] == 0 ==> rows[i] == []
    {
      assert validIndexes[k] in validIndexes;
      var row := ParseRow(redis, redis.fetch(ids[validIndexes[k]], max));
      if row.None? {
        EachFails(OneOf(redis), ids, max, validIndexes[k]);
        return LookupFailed;
      }
      rows := rows[validIndexes[k] := row.value];
    }
    forall i | 0 <= i < |ids| ensures FindOne(redis, ids[i], max) == Some(rows[i]) {
      if i in validIndexes {
        var k :| 0 <= k < |validIndexes| && validIndexes[k] == i;
      }
    }
    EachRow(OneOf(redis), ids, max, rows);
    return Rows(rows);
  }

  /** RedisItemSimilarityStore::FindNeighborsByItemIds. `reachable` is the pipeline status. */
  method FindNeighborsByItemIds(redis: Redis, reachable: bool, ids: seq<nat>, max: int) returns (r: Lookup)
    ensures reachable ==> r == EachOf(OneOf(redis), ids, max)
    ensures !reachable ==> r == if max > 0 && (exists i :: 0 <= i < |ids| && ids[i] != 0) then LookupFailed
                                else EachOf(OneOf(redis), ids, max)
  {
    hide EachOf, ParseMembers;
    var rows: seq<seq<ScoredItem>> := seq(|ids|, _ => []);
    if ids == [] || max <= 0 {
      EachRow(OneOf(redis), ids, max, rows);
      return Rows(rows);
    }
    var validIndexes := CollectValidIndexes(ids);
    if validIndexes == [] {
      EachRow(OneOf(redis), ids, max, rows);
      return Rows(rows);
    }
    assert validIndexes[0] in validIndexes;
    if !reachable {
      return LookupFailed;
    }
    r := Scatter(redis, ids, max, validIndexes);
  }

  /** The reachable store as the retriever calls it. */
  function BatchOf(redis: Redis): (seq<nat>, int) -> Lookup {
    (ids: seq<nat>, max: int) => EachOf(OneOf(redis), ids, max)
  }

  /** So over Redis, too, every batch size gathers what one lookup per item would, and fails
      exactly when one of those fails. */
  lemma {:induction false} RedisBatchesInvisible(redis: Redis, ids: seq<nat>, max: int, batch: nat)
    requires batch > 0
    ensures GatherBatches(BatchOf(redis), ids, max, batch, 0) == EachOf(OneOf(redis), ids, max)
    ensures GatherBatches(BatchOf(redis), ids, max, batch, 0).LookupFailed? <==>
              exists i :: 0 <= i < |ids| && FindOne(redis, ids[i], max) == None
  {
    hide EachOf, ParseMembers;
    BatchSizeInvisible(BatchOf(redis), OneOf(redis), ids, max, batch, 0);
    assert ids[0..] == ids;
    if i :| 0 <= i < |ids| && FindOne(redis, ids[i], max) == None {
      EachFails(OneOf(redis), ids, max, i);
    } else {
      var rows := seq(|ids|, i requires 0 <= i < |ids| => FindOne(redis, ids[i], max).value);
      EachRow(OneOf(redis), ids, max, rows);
    }
  }
}
