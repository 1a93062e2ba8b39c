/** The LRU cache with a time-to-live: a linked list of entries with an index into it, and
    the recency list it behaves like. */
module LruCache {
  import opened Options
  import opened Orders

  datatype Slot<K, V> = Slot(key: K, value: V, expiresAt: int)

  // ----- the recency list ------------------------------------------------------------------

  predicate HasKey<K(==), V>(s: seq<Slot<K, V>>, key: K) {
    exists i :: 0 <= i < |s| && s[i].key == key
  }

  function SlotAt<K(==), V>(s: seq<Slot<K, V>>, key: K): (r: Slot<K, V>)
    requires HasKey(s, key)
    ensures r in s && r.key == key
  {
    if s[0].key == key then s[0]
    else
      assert HasKey(s[1..], key) by {
        var i :| 0 <= i < |s| && s[i].key == key;
        assert s[1..][i - 1].key == key;
      }
      SlotAt(s[1..], key)
  }

  function Without<K(==), V>(s: seq<Slot<K, V>>, key: K): (r: seq<Slot<K, V>>)
    ensures |r| <= |s|
  {
    if s == [] then []
    else if s[0].key == key then Without(s[1..], key)
    else [s[0]] + Without(s[1..], key)
  }

  /** A lookup: an expired slot is dropped, a live one moves to the front. */
  function GetSpec<K(==), V>(s: seq<Slot<K, V>>, key: K, now: int): (seq<Slot<K, V>>, Option<V>) {
    if !HasKey(s, key) then (s, None)
    else
      var slot := SlotAt(s, key);
      if now >= slot.expiresAt then (Without(s, key), None)
      else ([slot] + Without(s, key), Some(slot.value))
  }

  /** A store: the key goes to the front with a fresh expiry, and the tail beyond the
      capacity falls off. A cache without capacity or lifetime stores nothing. */
  function PutSpec<K(==), V>(s: seq<Slot<K, V>>, capacity: nat, ttl: int, key: K, value: V, now: int): seq<Slot<K, V>> {
    if capacity == 0 || ttl <= 0 then s
    else Take(capacity, [Slot(key, value, now + ttl)] + Without(s, key))
  }

  lemma {:induction false} WithoutAbsent<K, V>(s: seq<Slot<K, V>>, key: K)
    requires !HasKey(s, key)
    ensures Without(s, key) == s
  {
    if s != [] {
      assert s[0].key != key;
      forall i | 0 <= i < |s[1..]| ensures s[1..][i].key != key {
        assert s[i + 1].key != key;
      }
      WithoutAbsent(s[1..], key);
    }
  }

  // ----- the list and its index -----------------------------------------------------------------

  /** A list node; its identity is what the index's iterator points at. */
  class Entry<K, V> {
    const key: K
    var value: V
    var expiresAt: int

    constructor (key: K, value: V, expiresAt: int)
      ensures this.key == key && this.value == value && this.expiresAt == expiresAt
    {
      this.key, this.value, this.expiresAt := key, value, expiresAt;
    }
  }

  ghost function SlotOf<K, V>(e: Entry<K, V>): Slot<K, V>
    reads e
  {
    Slot(e.key, e.value, e.expiresAt)
  }

  ghost function SlotsOf<K, V>(s: seq<Entry<K, V>>): (r: seq<Slot<K, V>>)
    reads s
    ensures |r| == |s|
    ensures forall i :: 0 <= i < |s| ==> r[i] == SlotOf(s[i])
  {
    if s == [] then [] else [SlotOf(s[0])] + SlotsOf(s[1..])
  }

  ghost predicate DistinctKeys<K, V>(s: seq<Entry<K, V>>) {
    forall i, j :: 0 <= i < j < |s| ==> s[i].key != s[j].key
  }

  /** list::erase: unlink one node, leaving every other node where it is. */
  function Unlinked<K, V>(s: seq<Entry<K, V>>, e: Entry<K, V>): (r: seq<Entry<K, V>>)
    ensures forall x :: x in r ==> x in s
    ensures |r| <= |s| && (e in s ==> |r| == |s| - 1)
  {
    if s == [] then [] else if s[0] == e then s[1..] else [s[0]] + Unlinked(s[1..], e)
  }

  lemma {:induction false} UnlinkedMembers<K, V>(s: seq<Entry<K, V>>, e: Entry<K, V>)
    requires DistinctKeys(s)
    ensures forall x :: x in Unlinked(s, e) <==> x in s && x != e
    ensures DistinctKeys(Unlinked(s, e))
  {
    if s != [] {
      var t := s[1..];
      assert s == [s[0]] + t;
      assert forall i :: 0 <= i < |t| ==> t[i] == s[i + 1];
      UnlinkedMembers(t, e);
      if s[0] != e {
        var u := Unlinked(t, e);
        forall j | 0 <= j < |u| ensures u[j].key != s[0].key {
          assert u[j] in u;
          assert u[j] in t;
          var i :| 0 <= i < |t| && t[i] == u[j];
        }
      }
    }
  }

  /** The node to unlink comes first, or the head stays and the search goes on. */
  lemma {:induction false} UnlinkedSlots<K, V>(s: seq<Entry<K, V>>, e: Entry<K, V>)
    requires DistinctKeys(s) && e in s
    ensures SlotsOf(Unlinked(s, e)) == Without(SlotsOf(s), e.key)
    ensures HasKey(SlotsOf(s), e.key) && SlotAt(SlotsOf(s), e.key) == SlotOf(e)
  {
    var t := s[1..];
    assert s == [s[0]] + t;
    assert DistinctKeys(t);
    var slots := SlotsOf(s);
    assert slots == [SlotOf(s[0])] + SlotsOf(t) && slots[1..] == SlotsOf(t);
    if s[0] == e {
      assert slots[0].key == e.key;
      TailKeys(s);
      WithoutAbsent(SlotsOf(t), e.key);
    } else {
      UnlinkedSlots(t, e);
      HeadKey(s, e);
      SlotsFront(s[0], Unlinked(t, e));
      SkipHead(slots, e.key);
    }
  }

  lemma {:induction false} SkipHead<K, V>(s: seq<Slot<K, V>>, key: K)
    requires s != [] && s[0].key != key && HasKey(s[1..], key)
    ensures HasKey(s, key) && SlotAt(s, key) == SlotAt(s[1..], key)
    ensures Without(s, key) == [s[0]] + Without(s[1..], key)
  {
    var i :| 0 <= i < |s[1..]| && s[1..][i].key == key;
    assert s[i + 1].key == key;
  }

  lemma {:induction false} TailKeys<K, V>(s: seq<Entry<K, V>>)
    requires DistinctKeys(s) && s != []
    ensures !HasKey(SlotsOf(s[1..]), s[0].key)
  {
    forall i | 0 <= i < |s| - 1 ensures SlotsOf(s[1..])[i].key != s[0].key {
      assert s[0].key != s[i + 1].key;
    }
  }

  lemma {:induction false} HeadKey<K, V>(s: seq<Entry<K, V>>, e: Entry<K, V>)
    requires DistinctKeys(s) && s != [] && e in s[1..]
    ensures s[0].key != e.key
  {
    var j :| 0 <= j < |s[1..]| && s[1..][j] == e;
    assert s[0].key != s[j + 1].key;
  }

  lemma {:induction false} SlotsFront<K, V>(e: Entry<K, V>, s: seq<Entry<K, V>>)
    ensures SlotsOf([e] + s) == [SlotOf(e)] + SlotsOf(s)
  {
    assert ([e] + s)[1..] == s;
  }

  lemma {:induction false} SlotsPrefix<K, V>(s: seq<Entry<K, V>>, n: nat)
    requires n <= |s|
    ensures SlotsOf(s[..n]) == SlotsOf(s)[..n]
  {
  }

  twostate lemma {:induction false} UnchangedSlots<K, V>(s: seq<Entry<K, V>>)
    requires forall e :: e in s ==> unchanged(e)
    ensures SlotsOf(s) == old(SlotsOf(s))
  {
    forall i | 0 <= i < |s| ensures SlotsOf(s)[i] == old(SlotsOf(s))[i] {
      assert s[i] in s;
    }
  }

  /** List and index are in bijection and the keys are distinct. */
  ghost predicate Linked<K(!new), V>(s: seq<Entry<K, V>>, index: map<K, Entry<K, V>>) {
    && DistinctKeys(s)
    && (forall e :: e in s ==> e.key in index && index[e.key] == e)
    && (forall k :: k in index ==> index[k] in s && index[k].key == k)
  }

  lemma {:induction false} LinkedErase<K(!new), V>(s: seq<Entry<K, V>>, index: map<K, Entry<K, V>>, e: Entry<K, V>)
    requires Linked(s, index) && e in s
    ensures Linked(Unlinked(s, e), index - {e.key})
  {
    UnlinkedMembers(s, e);
  }

  lemma {:induction false} LinkedFront<K(!new), V>(s: seq<Entry<K, V>>, index: map<K, Entry<K, V>>, e: Entry<K, V>)
    requires Linked(s, index) && e in s
    ensures Linked([e] + Unlinked(s, e), index)
  {
    UnlinkedMembers(s, e);
    var u := Unlinked(s, e);
    forall j | 0 <= j < |u| ensures u[j].key != e.key {
      assert u[j] in u;
    }
  }

  lemma {:induction false} LinkedInsert<K(!new), V>(s: seq<Entry<K, V>>, index: map<K, Entry<K, V>>, e: Entry<K, V>)
    requires Linked(s, index) && e.key !in index
    ensures Linked([e] + s, index[e.key := e])
  {
    forall j | 0 <= j < |s| ensures s[j].key != e.key {
      assert s[j] in s;
    }
  }

  lemma {:induction false} LinkedEvict<K(!new), V>(s: seq<Entry<K, V>>, index: map<K, Entry<K, V>>)
    requires Linked(s, index) && s != []
    ensures Linked(s[..|s| - 1], index - {s[|s| - 1].key})
  {
    var last, front := s[|s| - 1], s[..|s| - 1];
    assert s == front + [last];
    forall x | x in front ensures x.key != last.key {
      var i :| 0 <= i < |front| && front[i] == x;
      assert s[i].key != s[|s| - 1].key;
    }
  }

  class Cache<K(==, !new), V> {
    const capacity: nat
    const ttl: int
    var entries: seq<Entry<K, V>>
    var index: map<K, Entry<K, V>>

    /** Index and list are in bijection, keys are distinct, the capacity is respected. */
    ghost predicate Valid()
      reads this
    {
      Linked(entries, index) && |entries| <= capacity && (ttl <= 0 ==> entries == [])
    }

    /** The recency list, most recently used first. */
    ghost function Contents(): (s: seq<Slot<K, V>>)
      reads this, entries
      ensures |s| == |entries|
    {
      SlotsOf(entries)
    }

    constructor (capacity: nat, ttl: int)
      ensures Valid() && Contents() == [] && this.capacity == capacity && this.ttl == ttl && entries == []
    {
      this.capacity, this.ttl, entries, index := capacity, ttl, [], map[];
    }

    /** What the index says about the recency list. */
    lemma {:induction false} KeyMeaning(key: K)
      requires Linked(entries, index)
      ensures key in index <==> HasKey(Contents(), key)
      ensures key !in index ==> Without(Contents(), key) == Contents()
      ensures key in index ==>
                && index[key] in entries && index[key].key == key
                && SlotsOf(Unlinked(entries, index[key])) == Without(Contents(), key)
                && SlotAt(Contents(), key) == SlotOf(index[key])
    {
      if key in index {
        UnlinkedSlots(entries, index[key]);
      } else {
        forall i | 0 <= i < |entries| ensures SlotsOf(entries)[i].key != key {
          assert entries[i] in entries;
        }
        WithoutAbsent(Contents(), key);
      }
    }

    /** LruCache::Get at time `now`. */
    method Get(key: K, now: int) returns (r: Option<V>)
      requires Valid()
      modifies this
      ensures Valid() && (Contents(), r) == GetSpec(old(Contents()), key, now)
      ensures forall e :: e in entries ==> e in old(entries)
    {
      hide Linked, Without, SlotAt, HasKey, SlotsOf, Unlinked, DistinctKeys;
      KeyMeaning(key);
      if key !in index {
        return None;
      }
      var e := index[key];
      if now >= e.expiresAt {
        LinkedErase(entries, index, e);
        entries := Unlinked(entries, e);
        index := index - {key};
        return None;
      }
      LinkedFront(entries, index, e);
      SlotsFront(e, Unlinked(entries, e));
      entries := [e] + Unlinked(entries, e);
      r := Some(entries[0].value);
    }

    /** LruCache::Put at time `now`. */
    method Put(key: K, value: V, now: int)
      requires Valid()
      modifies this, entries
      ensures Valid() && Contents() == PutSpec(old(Contents()), capacity, ttl, key, value, now)
      ensures forall e :: e in entries ==> e in old(entries) || fresh(e)
    {
      hide Linked, Without, SlotAt, HasKey, SlotsOf, Unlinked, DistinctKeys;
      if capacity == 0 || ttl <= 0 {
        return;
      }
      KeyMeaning(key);
      if key in index {
        Refresh(key, value, now);
        return;
      }
      var e := new Entry(key, value, now + ttl);
      assert Contents() == old(Contents()) by { UnchangedSlots(entries); }
      Insert(e);
      if |entries| > capacity {
        EvictLast();
      }
    }

    /** The key is already cached: overwrite the node and splice it to the front. */
    method Refresh(key: K, value: V, now: int)
      requires Valid() && key in index && capacity > 0 && ttl > 0
      modifies this`entries, index[key]
      ensures Valid() && Contents() == PutSpec(old(Contents()), capacity, ttl, key, value, now)
      ensures forall e :: e in entries ==> e in old(entries)
    {
      hide Linked, Without, SlotAt, HasKey, SlotsOf, Unlinked, DistinctKeys;
      KeyMeaning(key);
      var e := index[key];
      ghost var rest := Unlinked(entries, e);
      OtherNodes(e);
      LinkedFront(entries, index, e);
      e.value := value;
      e.expiresAt := now + ttl;
      entries := [e] + Unlinked(entries, e);
      UnchangedSlots(rest);
      SlotsFront(e, rest);
      assert |Contents()| == |entries|;
    }

    /** push_front and the new index entry; the list may exceed the capacity by one. */
    method Insert(e: Entry<K, V>)
      requires Valid() && e.key !in index
      modifies this
      ensures Linked(entries, index) && entries == [e] + old(entries)
      ensures Contents() == [SlotOf(e)] + Without(old(Contents()), e.key)
    {
      hide Linked, Without, SlotAt, HasKey, SlotsOf, Unlinked, DistinctKeys;
      KeyMeaning(e.key);
      LinkedInsert(entries, index, e);
      SlotsFront(e, entries);
      entries := [e] + entries;
      index := index[e.key := e];
    }

    /** One turn of the `while`: the last entry leaves the index and the list. */
    method EvictLast()
      requires Linked(entries, index) && entries != []
      modifies this
      ensures Linked(entries, index) && entries == old(entries)[..|old(entries)| - 1]
      ensures Contents() == old(Contents())[..|entries|]
    {
      hide Linked, SlotsOf, DistinctKeys;
      LinkedEvict(entries, index);
      SlotsPrefix(entries, |entries| - 1);
      index := index - {entries[|entries| - 1].key};
      entries := entries[..|entries| - 1];
    }

    lemma {:induction false} OtherNodes(e: Entry<K, V>)
      requires Linked(entries, index) && e in entries
      ensures forall x :: x in Unlinked(entries, e) ==> x != e && x in entries
    {
      UnlinkedMembers(entries, e);
    }
  }
}
