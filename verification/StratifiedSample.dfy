/** Stratified round-robin sampling of one item's users: one per rating-weight bucket and
    round, heaviest bucket first, until the sample is full. */
module StratifiedSample {
  import opened Orders

  /** A user of the item with the stable hash that ranks them. */
  datatype Participant = Participant(user: int, weight: real, timestamp: int, rank: int)

  ghost predicate DistinctUsers(P: set<Participant>) {
    forall x, y :: x in P && y in P && x.user == y.user ==> x == y
  }

  /** The order inside a bucket. */
  predicate BucketOrder(a: Participant, b: Participant) {
    || a.rank < b.rank
    || (a.rank == b.rank && a.timestamp > b.timestamp)
    || (a.rank == b.rank && a.timestamp == b.timestamp && a.user < b.user)
  }

  predicate Heavier(a: real, b: real) {
    a > b
  }

  ghost function Bucket(P: set<Participant>, w: real): set<Participant> {
    set p | p in P && p.weight == w
  }

  lemma {:induction false} BucketTotal(P: set<Participant>, w: real)
    requires DistinctUsers(P)
    ensures TotalOn(BucketOrder, Bucket(P, w))
  {
  }

  // ----- the order of the sample ---------------------------------------------------------------

  /** Those ahead of p in its bucket; their number is the round in which p's turn comes. */
  ghost function Ahead(P: set<Participant>, p: Participant): set<Participant> {
    set q | q in P && q.weight == p.weight && BucketOrder(q, p)
  }

  ghost function Round(P: set<Participant>, p: Participant): nat {
    |Ahead(P, p)|
  }

  /** Earlier rounds first, heavier buckets first within a round. */
  ghost function RoundOrder(P: set<Participant>): (Participant, Participant) -> bool {
    (a: Participant, b: Participant) =>
      Round(P, a) < Round(P, b) || (Round(P, a) == Round(P, b) && a.weight > b.weight)
  }

  lemma {:induction false} RoundsDiffer(P: set<Participant>, a: Participant, b: Participant)
    requires DistinctUsers(P) && a in P && b in P && a != b && a.weight == b.weight
    ensures Round(P, a) != Round(P, b)
  {
    assert a.user != b.user;
    var x, y := if BucketOrder(a, b) then a else b, if BucketOrder(a, b) then b else a;
    assert BucketOrder(x, y);
    assert Ahead(P, x) + {x} <= Ahead(P, y);
    assert x !in Ahead(P, x);
    SubsetCard(Ahead(P, x) + {x}, Ahead(P, y));
  }

  lemma {:induction false} RoundOrderTotal(P: set<Participant>)
    requires DistinctUsers(P)
    ensures TotalOn(RoundOrder(P), P)
  {
    hide Round;
    forall x, y | x in P && y in P && x != y ensures RoundOrder(P)(x, y) || RoundOrder(P)(y, x) {
      if x.weight == y.weight {
        RoundsDiffer(P, x, y);
      }
    }
  }

  /** The specification: everyone, or the first `size` in round order. */
  ghost predicate IsSample(ranked: seq<Participant>, size: int, out: seq<Participant>) {
    if size <= 0 || |ranked| <= size then out == ranked
    else IsTopK(RoundOrder(Elems(ranked)), size, Elems(ranked), out)
  }

  // ----- buckets ---------------------------------------------------------------------------------

  ghost predicate AreBuckets(P: set<Participant>, keys: seq<real>, buckets: map<real, seq<Participant>>) {
    && Sorted(Heavier, keys)
    && (forall p :: p in P ==> p.weight in keys)
    && (forall w :: w in keys ==> w in buckets)
    && (forall w :: w in keys ==> Sorted(BucketOrder, buckets[w]) && Elems(buckets[w]) == Bucket(P, w))
  }

  /** The dictionary of buckets in insertion order, before they are sorted. */
  ghost predicate Bucketed(P: set<Participant>, buckets: map<real, seq<Participant>>) {
    && (forall p :: p in P ==> p.weight in buckets)
    && (forall w :: w in buckets ==> NoDup(buckets[w]) && Elems(buckets[w]) == Bucket(P, w))
  }

  lemma {:induction false} BucketOneMore(P: set<Participant>, buckets: map<real, seq<Participant>>, p: Participant)
    requires Bucketed(P, buckets) && p !in P
    ensures var bucket := if p.weight in buckets then buckets[p.weight] else [];
            Bucketed(P + {p}, buckets[p.weight := bucket + [p]])
  {
    var bucket := if p.weight in buckets then buckets[p.weight] else [];
    assert Elems(bucket) == Bucket(P, p.weight);
    assert Elems(bucket + [p]) == Elems(bucket) + {p};
    assert p !in Elems(bucket);
    assert forall w :: Bucket(P + {p}, w) == if w == p.weight then Bucket(P, w) + {p} else Bucket(P, w);
  }

  method FillBuckets(ranked: seq<Participant>) returns (buckets: map<real, seq<Participant>>)
    requires NoDup(ranked)
    ensures Bucketed(Elems(ranked), buckets)
  {
    hide Bucketed;
    buckets := map[];
    NoBuckets();
    assert Elems(ranked[..0]) == {};
    for i := 0 to |ranked|
      invariant Bucketed(Elems(ranked[..i]), buckets)
    {
      var p := ranked[i];
      assert Elems(ranked[..i + 1]) == Elems(ranked[..i]) + {p};
      assert p !in ranked[..i];
      BucketOneMore(Elems(ranked[..i]), buckets, p);
      buckets := buckets[p.weight := (if p.weight in buckets then buckets[p.weight] else []) + [p]];
    }
    assert ranked[..|ranked|] == ranked;
  }

  lemma {:induction false} NoBuckets()
    ensures Bucketed({}, map[])
  {
  }

  method SortBuckets(keys: seq<real>, unsorted: map<real, seq<Participant>>, ghost P: set<Participant>)
    returns (buckets: map<real, seq<Participant>>)
    requires Bucketed(P, unsorted) && DistinctUsers(P)
    requires forall w :: w in keys ==> w in unsorted
    ensures forall w :: w in keys ==>
              w in buckets && Sorted(BucketOrder, buckets[w]) && Elems(buckets[w]) == Bucket(P, w)
  {
    hide Bucket, DistinctUsers, BucketOrder, TotalOn, Sorted;
    buckets := map[];
    for j := 0 to |keys|
      invariant forall w :: w in keys[..j] ==>
                  w in buckets && Sorted(BucketOrder, buckets[w]) && Elems(buckets[w]) == Bucket(P, w)
    {
      assert keys[j] in keys;
      assert keys[..j + 1] == keys[..j] + [keys[j]];
      BucketTotal(P, keys[j]);
      var sorted := SortDistinct(BucketOrder, unsorted[keys[j]]);
      assert Sorted(BucketOrder, sorted) && Elems(sorted) == Bucket(P, keys[j]);
      buckets := buckets[keys[j] := sorted];
    }
    assert keys[..|keys|] == keys;
  }

  method BuildBuckets(ranked: seq<Participant>) returns (keys: seq<real>, buckets: map<real, seq<Participant>>)
    requires NoDup(ranked) && DistinctUsers(Elems(ranked))
    ensures AreBuckets(Elems(ranked), keys, buckets)
  {
    hide Bucket, DistinctUsers, BucketOrder, TotalOn, Sorted;
    var unsorted := FillBuckets(ranked);
    HeavierTotal(unsorted.Keys);
    var weights := Enumerate(unsorted.Keys);
    keys := SortDistinct(Heavier, weights);
    assert forall w :: w in keys <==> w in Elems(keys);
    buckets := SortBuckets(keys, unsorted, Elems(ranked));
  }

  lemma {:induction false} HeavierTotal(S: set<real>)
    ensures TotalOn(Heavier, S)
  {
  }

  lemma {:induction false} RoundIsIndex(P: set<Participant>, bucket: seq<Participant>, w: real, i: nat)
    requires Sorted(BucketOrder, bucket) && Elems(bucket) == Bucket(P, w) && i < |bucket|
    ensures Round(P, bucket[i]) == i && bucket[i] in P && bucket[i].weight == w
  {
    assert bucket[i] in Elems(bucket);
    assert Ahead(P, bucket[i]) == Elems(bucket[..i]) by {
      forall q ensures q in Ahead(P, bucket[i]) <==> q in Elems(bucket[..i]) {
        if q in Ahead(P, bucket[i]) {
          assert q in Elems(bucket);
          var k :| 0 <= k < |bucket| && bucket[k] == q;
          assert forall m :: i < m < |bucket| ==> BucketOrder(bucket[i], bucket[m]);
        }
        if q in bucket[..i] {
          var k :| 0 <= k < i && bucket[k] == q;
          assert q in Elems(bucket);
        }
      }
    }
    SortedNoDup(BucketOrder, bucket);
    ElemsCard(bucket[..i]);
  }

  lemma {:induction false} IndexOfRound(P: set<Participant>, bucket: seq<Participant>, p: Participant)
    requires Sorted(BucketOrder, bucket) && Elems(bucket) == Bucket(P, p.weight) && p in P
    ensures Round(P, p) < |bucket| && bucket[Round(P, p)] == p
  {
    assert p in Elems(bucket);
    var i :| 0 <= i < |bucket| && bucket[i] == p;
    RoundIsIndex(P, bucket, p.weight, i);
  }

  // ----- the round-robin loop ------------------------------------------------------------------

  /** Everyone served once the first j buckets have had round d. */
  ghost function Served(P: set<Participant>, keys: seq<real>, d: nat, j: nat): set<Participant>
    requires j <= |keys|
  {
    set p | p in P && (Round(P, p) < d || (Round(P, p) == d && p.weight in keys[..j]))
  }

  lemma {:induction false} ServeOne(P: set<Participant>, keys: seq<real>, buckets: map<real, seq<Participant>>, d: nat,
          j: nat, selected: seq<Participant>)
    requires AreBuckets(P, keys, buckets) && j < |keys|
    requires Sorted(RoundOrder(P), selected) && Elems(selected) == Served(P, keys, d, j)
    ensures keys[j] in buckets
    ensures d < |buckets[keys[j]]| ==>
              var p := buckets[keys[j]][d];
              Sorted(RoundOrder(P), selected + [p]) && Elems(selected + [p]) == Served(P, keys, d, j + 1)
    ensures d >= |buckets[keys[j]]| ==> Served(P, keys, d, j + 1) == Served(P, keys, d, j)
  {
    hide Round, BucketOrder, Bucket;
    assert keys[j] in keys;
    var bucket := buckets[keys[j]];
    assert keys[..j + 1] == keys[..j] + [keys[j]];
    forall q | q in P && q.weight == keys[j] ensures Round(P, q) < |bucket| && bucket[Round(P, q)] == q {
      IndexOfRound(P, bucket, q);
    }
    assert forall i :: 0 <= i < j ==> Heavier(keys[i], keys[j]);
    if d < |bucket| {
      var p := bucket[d];
      RoundIsIndex(P, bucket, keys[j], d);
      forall s | s in selected ensures RoundOrder(P)(s, p) {
        assert s in Elems(selected);
      }
      assert Served(P, keys, d, j + 1) == Served(P, keys, d, j) + {p};
      assert Elems(selected + [p]) == Elems(selected) + {p};
    }
  }

  lemma {:induction false} NextRound(P: set<Participant>, keys: seq<real>, buckets: map<real, seq<Participant>>, d: nat)
    requires AreBuckets(P, keys, buckets)
    ensures Served(P, keys, d + 1, 0) == Served(P, keys, d, |keys|)
  {
    hide Round, BucketOrder, Bucket;
    assert keys[..|keys|] == keys;
  }

  lemma {:induction false} ServedIsTop(P: set<Participant>, keys: seq<real>, d: nat, j: nat, selected: seq<Participant>)
    requires DistinctUsers(P) && j <= |keys| && Sorted(Heavier, keys) && (forall p :: p in P ==> p.weight in keys)
    requires Sorted(RoundOrder(P), selected) && Elems(selected) == Served(P, keys, d, j)
    ensures IsTopK(RoundOrder(P), |selected|, P, selected)
  {
    hide Round, BucketOrder;
    RoundOrderTotal(P);
    SortedNoDup(RoundOrder(P), selected);
    ElemsCard(selected);
    SubsetCard(Elems(selected), P);
    forall x, i | x in P && x !in selected && 0 <= i < |selected| ensures RoundOrder(P)(selected[i], x) {
      assert selected[i] in Elems(selected) && x !in Elems(selected);
      if Round(P, selected[i]) == Round(P, x) {
        var a :| 0 <= a < j && keys[a] == selected[i].weight;
        var b :| 0 <= b < |keys| && keys[b] == x.weight;
        assert forall m :: 0 <= m < j ==> keys[m] in keys[..j];
        assert Heavier(keys[a], keys[b]);
      }
    }
  }

  /** A round in which nobody is served means everyone has been. */
  lemma {:induction false} NobodyLeft(P: set<Participant>, keys: seq<real>, buckets: map<real, seq<Participant>>,
          d: nat, selected: seq<Participant>)
    requires AreBuckets(P, keys, buckets) && DistinctUsers(P)
    requires forall w :: w in keys ==> |buckets[w]| <= d
    requires Sorted(RoundOrder(P), selected) && Elems(selected) == Served(P, keys, d, |keys|)
    ensures |selected| == |P|
  {
    hide Round;
    forall p | p in P ensures Round(P, p) < d {
      IndexOfRound(P, buckets[p.weight], p);
    }
    RoundOrderTotal(P);
    SortedNoDup(RoundOrder(P), selected);
    ElemsCard(selected);
    assert Served(P, keys, d, |keys|) == P;
  }

  lemma {:induction false} BucketsKnown(P: set<Participant>, keys: seq<real>, buckets: map<real, seq<Participant>>)
    requires AreBuckets(P, keys, buckets)
    ensures NoDup(keys) && Sorted(Heavier, keys)
    ensures forall w :: w in keys ==> w in buckets
    ensures forall p :: p in P ==> p.weight in keys
    ensures Served(P, keys, 0, 0) == {}
  {
    SortedNoDup(Heavier, keys);
  }

  method StratifiedSampleItemInteractions(ranked: seq<Participant>, sampleSize: int)
    returns (selected: seq<Participant>)
    requires NoDup(ranked) && DistinctUsers(Elems(ranked))
    ensures IsSample(ranked, sampleSize, selected)
  {
    hide AreBuckets, Served, RoundOrder;
    if sampleSize <= 0 || |ranked| <= sampleSize {
      return ranked;
    }
    ghost var P := Elems(ranked);
    ElemsCard(ranked);
    var keys, buckets := BuildBuckets(ranked);
    BucketsKnown(P, keys, buckets);
    selected := [];
    var offsets := map w | w in buckets :: 0;
    ghost var d := 0;
    assert Sorted(RoundOrder(P), selected);
    while |selected| < sampleSize
      invariant |selected| <= sampleSize && offsets.Keys == buckets.Keys
      invariant |selected| < sampleSize ==> forall w :: w in keys ==> offsets[w] == Min(d, |buckets[w]|)
      invariant |selected| < sampleSize ==>
                  Sorted(RoundOrder(P), selected) && Elems(selected) == Served(P, keys, d, 0)
      invariant |selected| == sampleSize ==> IsTopK(RoundOrder(P), sampleSize, P, selected)
      decreases sampleSize - |selected|
    {
      var progressed := false;
      ghost var before := |selected|;
      for j := 0 to |keys|
        invariant before <= |selected| < sampleSize && offsets.Keys == buckets.Keys
        invariant progressed <==> |selected| > before
        invariant forall i :: 0 <= i < |keys| ==>
                    offsets[keys[i]] == Min(if i < j then d + 1 else d, |buckets[keys[i]]|)
        invariant !progressed ==> forall i :: 0 <= i < j ==> |buckets[keys[i]]| <= d
        invariant Sorted(RoundOrder(P), selected) && Elems(selected) == Served(P, keys, d, j)
      {
        var weight := keys[j];
        ServeOne(P, keys, buckets, d, j, selected);
        var offset := offsets[weight];
        if offset < |buckets[weight]| {
          selected := selected + [buckets[weight][offset]];
          offsets := offsets[weight := offset + 1];
          progressed := true;
          if |selected| >= sampleSize {
            ServedIsTop(P, keys, d, j + 1, selected);
            break;
          }
        }
      }
      if !progressed {
        NobodyLeft(P, keys, buckets, d, selected);
        assert false;
      }
      NextRound(P, keys, buckets, d);
      d := d + 1;
    }
  }

  // ----- what the sample is ------------------------------------------------------------------

  /** Exactly min(size, n) different members for a positive size, everyone otherwise. */
  lemma {:induction false} SampleSize(ranked: seq<Participant>, size: int, out: seq<Participant>)
    requires NoDup(ranked) && DistinctUsers(Elems(ranked)) && IsSample(ranked, size, out)
    ensures NoDup(out) && Elems(out) <= Elems(ranked)
    ensures |out| == if size > 0 then Min(size, |ranked|) else |ranked|
  {
    hide RoundOrder;
    ElemsCard(ranked);
    RoundOrderTotal(Elems(ranked));
    if size > 0 && |ranked| > size {
      SortedNoDup(RoundOrder(Elems(ranked)), out);
    }
  }

  /** The sample depends on who is ranked, not on the order they are listed in; and a larger
      sample never drops a user. */
  lemma {:induction false} LargerSampleKeeps(ranked: seq<Participant>, size: int, out: seq<Participant>,
          again: seq<Participant>, larger: int, more: seq<Participant>)
    requires NoDup(ranked) && NoDup(again) && Elems(again) == Elems(ranked) && DistinctUsers(Elems(ranked))
    requires 0 < size <= larger && IsSample(ranked, size, out) && IsSample(again, larger, more)
    ensures Elems(out) <= Elems(more)
    ensures size == larger ==> Elems(out) == Elems(more)
  {
    hide RoundOrder, DistinctUsers;
    var P := Elems(ranked);
    RoundOrderTotal(P);
    ElemsCard(ranked);
    ElemsCard(again);
    SampleSize(ranked, size, out);
    if |ranked| > larger {
      TopKPrefix(RoundOrder(P), larger, P, more, size);
      TopKUnique(RoundOrder(P), size, P, out, more[..Min(size, |more|)]);
      if size == larger {
        assert more[..Min(size, |more|)] == more;
      }
    }
  }

  // ----- balance -----------------------------------------------------------------------------

  /** How many of a bucket were picked. */
  ghost function Picked(out: seq<Participant>, w: real): nat {
    |Bucket(Elems(out), w)|
  }

  lemma {:induction false} PickedFirst(P: set<Participant>, size: nat, out: seq<Participant>, s: Participant,
          x: Participant)
    requires IsTopK(RoundOrder(P), size, P, out) && s in out && x in P && x !in out
    ensures Round(P, s) <= Round(P, x)
  {
    hide Round;
    var k :| 0 <= k < |out| && out[k] == s;
    assert RoundOrder(P)(out[k], x);
  }

  /** The picks of a bucket are a prefix of it. */
  lemma {:induction false} PickedPrefix(P: set<Participant>, size: nat, out: seq<Participant>, w: real,
          bucket: seq<Participant>, n: nat)
    returns (c: nat)
    requires DistinctUsers(P) && IsTopK(RoundOrder(P), size, P, out)
    requires Sorted(BucketOrder, bucket) && Elems(bucket) == Bucket(P, w) && n <= |bucket|
    ensures c <= n && forall i :: 0 <= i < n ==> (bucket[i] in out <==> i < c)
  {
    hide Round, BucketOrder, Bucket, IsTopK;
    c := 0;
    if n > 0 {
      c := PickedPrefix(P, size, out, w, bucket, n - 1);
      RoundIsIndex(P, bucket, w, n - 1);
      if bucket[n - 1] in out {
        if c < n - 1 {
          RoundIsIndex(P, bucket, w, c);
          PickedFirst(P, size, out, bucket[n - 1], bucket[c]);
        }
        c := n;
      }
    }
  }

  lemma {:induction false} PickedCount(P: set<Participant>, size: nat, out: seq<Participant>, w: real)
    requires DistinctUsers(P) && IsTopK(RoundOrder(P), size, P, out)
    ensures Picked(out, w) > 0 ==> exists p :: p in out && p.weight == w && Round(P, p) == Picked(out, w) - 1
    ensures Picked(out, w) < |Bucket(P, w)| ==>
              exists p :: p in P && p !in out && p.weight == w && Round(P, p) == Picked(out, w)
    ensures Picked(out, w) <= |Bucket(P, w)|
  {
    hide Round, BucketOrder, IsTopK, Picked;
    BucketTotal(P, w);
    var bucket := SortSet(BucketOrder, Bucket(P, w));
    var c := PickedPrefix(P, size, out, w, bucket, |bucket|);
    forall p ensures p in bucket[..c] <==> p in P && p in out && p.weight == w {
      if p in P && p in out && p.weight == w {
        assert p in Elems(bucket);
        var i :| 0 <= i < |bucket| && bucket[i] == p;
        assert bucket[..c][i] == p;
      }
      if p in bucket[..c] {
        assert p in Elems(bucket);
      }
    }
    PickedAre(P, size, out, w, bucket[..c]);
    if c > 0 {
      RoundIsIndex(P, bucket, w, c - 1);
    }
    if c < |bucket| {
      RoundIsIndex(P, bucket, w, c);
    }
  }

  lemma {:induction false} PickedAre(P: set<Participant>, size: nat, out: seq<Participant>, w: real,
          picks: seq<Participant>)
    requires IsTopK(RoundOrder(P), size, P, out) && Sorted(BucketOrder, picks)
    requires forall p :: p in picks <==> p in P && p in out && p.weight == w
    ensures Picked(out, w) == |picks|
  {
    hide RoundOrder;
    assert Elems(picks) == Bucket(Elems(out), w) by {
      assert Elems(out) <= P;
    }
    SortedNoDup(BucketOrder, picks);
    ElemsCard(picks);
  }

  /** Any two weight buckets give up numbers of users that differ by at most one, unless the
      smaller bucket is exhausted. */
  lemma {:induction false} SampleBalanced(ranked: seq<Participant>, size: int, out: seq<Participant>, v: real, w: real)
    requires NoDup(ranked) && DistinctUsers(Elems(ranked)) && IsSample(ranked, size, out)
    ensures Picked(out, v) <= Picked(out, w) + 1 || Picked(out, w) == |Bucket(Elems(ranked), w)|
  {
    hide Round, DistinctUsers, Picked;
    var P := Elems(ranked);
    if size > 0 && |ranked| > size {
      PickedCount(P, size, out, v);
      PickedCount(P, size, out, w);
      if Picked(out, v) > 0 && Picked(out, w) < |Bucket(P, w)| {
        var s :| s in out && Round(P, s) == Picked(out, v) - 1;
        var x :| x in P && x !in out && Round(P, x) == Picked(out, w);
        PickedFirst(P, size, out, s, x);
      }
    } else {
      AllPicked(ranked, w);
    }
  }

  lemma {:induction false} AllPicked(ranked: seq<Participant>, w: real)
    ensures Picked(ranked, w) == |Bucket(Elems(ranked), w)|
  {
  }

  /** A heavier bucket never gives up fewer users than a lighter one, unless it is exhausted. */
  lemma {:induction false} HeavierNotFewer(ranked: seq<Participant>, size: int, out: seq<Participant>, v: real, w: real)
    requires NoDup(ranked) && DistinctUsers(Elems(ranked)) && IsSample(ranked, size, out) && v > w
    ensures Picked(out, v) >= Picked(out, w) || Picked(out, v) == |Bucket(Elems(ranked), v)|
  {
    hide Round, DistinctUsers, Picked;
    var P := Elems(ranked);
    if size > 0 && |ranked| > size {
      PickedCount(P, size, out, v);
      PickedCount(P, size, out, w);
      if Picked(out, w) > 0 && Picked(out, v) < |Bucket(P, v)| {
        var s :| s in out && s.weight == w && Round(P, s) == Picked(out, w) - 1;
        var x :| x in P && x !in out && x.weight == v && Round(P, x) == Picked(out, v);
        HeavierFirst(P, size, out, s, x);
      }
    } else {
      AllPicked(ranked, v);
    }
  }

  lemma {:induction false} HeavierFirst(P: set<Participant>, size: nat, out: seq<Participant>, s: Participant,
          x: Participant)
    requires IsTopK(RoundOrder(P), size, P, out) && s in out && x in P && x !in out && x.weight > s.weight
    ensures Round(P, s) < Round(P, x)
  {
    hide Round;
    var k :| 0 <= k < |out| && out[k] == s;
    assert RoundOrder(P)(out[k], x);
  }

  /** Inside a bucket the users picked are those with the smaller hash, then the later
      timestamp, then the smaller id. */
  lemma {:induction false} PickedInBucket(ranked: seq<Participant>, size: int, out: seq<Participant>, s: Participant,
          x: Participant)
    requires NoDup(ranked) && DistinctUsers(Elems(ranked)) && IsSample(ranked, size, out)
    requires s in out && x in ranked && x !in out && s.weight == x.weight
    ensures s.rank < x.rank ||
            (s.rank == x.rank && (s.timestamp > x.timestamp || (s.timestamp == x.timestamp && s.user < x.user)))
  {
    hide Round;
    var P := Elems(ranked);
    PickedFirst(P, size, out, s, x);
    SampleSize(ranked, size, out);
    assert s in Elems(out) && x in P;
    if BucketOrder(x, s) {
      BucketEarlier(P, x, s);
    }
    assert s.user != x.user;
  }

  lemma {:induction false} BucketEarlier(P: set<Participant>, x: Participant, y: Participant)
    requires x in P && x.weight == y.weight && BucketOrder(x, y)
    ensures Round(P, x) < Round(P, y)
  {
    assert Ahead(P, x) + {x} <= Ahead(P, y);
    assert x !in Ahead(P, x);
    SubsetCard(Ahead(P, x) + {x}, Ahead(P, y));
  }
}
