/** The read-through stores over the cache: sequential runs, and interleaved calls. */
module ReadThrough {
  import opened LruCache
  import opened Options
  import opened Orders

  // ----- one lookup --------------------------------------------------------------------------

  /** A cached answer, or the inner store's answer kept for later. Absent keys are not kept. */
  function LookupSpec<K(==), V>(s: seq<Slot<K, V>>, capacity: nat, ttl: int, inner: K -> Option<V>, key: K, getAt: int,
          putAt: int)
    : (seq<Slot<K, V>>, Option<V>)
  {
    var (afterGet, cached) := GetSpec(s, key, getAt);
    if cached.Some? then (afterGet, cached)
    else match inner(key)
      case None => (afterGet, None)
      case Some(v) => (PutSpec(afterGet, capacity, ttl, key, v, putAt), Some(v))
  }

  /** CachingProfileStore and CachingItemIndexStore: the same read-through around a cache. */
  class CachingStore<K(==, !new), V> {
    const inner: K -> Option<V>
    const cache: Cache<K, V>

    constructor (inner: K -> Option<V>, capacity: nat, ttl: int)
      ensures cache.Valid() && cache.Contents() == [] && fresh(cache) && cache.entries == []
      ensures this.inner == inner && cache.capacity == capacity && cache.ttl == ttl
    {
      this.inner := inner;
      cache := new Cache(capacity, ttl);
    }

    method Find(key: K, getAt: int, putAt: int) returns (r: Option<V>)
      requires cache.Valid()
      modifies cache, cache.entries
      ensures cache.Valid()
      ensures (cache.Contents(), r) ==
              LookupSpec(old(cache.Contents()), cache.capacity, cache.ttl, inner, key, getAt, putAt)
    {
      hide SlotsOf, Without, SlotAt, HasKey;
      r := cache.Get(key, getAt);
      if r.Some? {
        return;
      }
      r := inner(key);
      assert forall e :: e in cache.entries ==> e in old(cache.entries);
      if r.Some? {
        cache.Put(key, r.value, putAt);
      }
    }
  }

  // ----- slots and keys -------------------------------------------------------------------------

  function Keys<K, V>(s: seq<Slot<K, V>>): (r: seq<K>)
    ensures |r| == |s|
  {
    if s == [] then [] else [s[0].key] + Keys(s[1..])
  }

  function Remove<K(==)>(s: seq<K>, key: K): (r: seq<K>)
    ensures |r| <= |s|
  {
    if s == [] then [] else if s[0] == key then Remove(s[1..], key) else [s[0]] + Remove(s[1..], key)
  }

  lemma {:induction false} KeysWithout<K, V>(s: seq<Slot<K, V>>, key: K)
    ensures Keys(Without(s, key)) == Remove(Keys(s), key)
  {
    if s != [] {
      KeysWithout(s[1..], key);
      assert Keys(s)[1..] == Keys(s[1..]);
      if s[0].key != key {
        assert ([s[0]] + Without(s[1..], key))[1..] == Without(s[1..], key);
      }
    }
  }

  lemma {:induction false} KeysFront<K, V>(x: Slot<K, V>, s: seq<Slot<K, V>>)
    ensures Keys([x] + s) == [x.key] + Keys(s)
  {
    assert ([x] + s)[1..] == s;
  }

  lemma {:induction false} KeysTake<K, V>(n: nat, s: seq<Slot<K, V>>)
    ensures Keys(Take(n, s)) == Take(n, Keys(s))
  {
    if s != [] && n > 0 {
      KeysTake(n - 1, s[1..]);
      assert Take(n, s) == [s[0]] + Take(n - 1, s[1..]);
      KeysFront(s[0], Take(n - 1, s[1..]));
      assert Take(n, Keys(s)) == [s[0].key] + Take(n - 1, Keys(s[1..]));
    } else {
      assert Take(n, s) == [];
      assert Take(n, Keys(s)) == [];
    }
  }

  lemma {:induction false} KeysMember<K, V>(s: seq<Slot<K, V>>, key: K)
    ensures HasKey(s, key) <==> key in Keys(s)
  {
    if s != [] {
      KeysMember(s[1..], key);
      assert Keys(s) == [s[0].key] + Keys(s[1..]);
      if HasKey(s, key) && s[0].key != key {
        var i :| 0 <= i < |s| && s[i].key == key;
        assert s[1..][i - 1].key == key;
      }
      if HasKey(s[1..], key) {
        var i :| 0 <= i < |s[1..]| && s[1..][i].key == key;
        assert s[i + 1].key == key;
      }
    }
  }

  lemma {:induction false} RemoveAbsent<K>(s: seq<K>, key: K)
    requires key !in s
    ensures Remove(s, key) == s
  {
    if s != [] {
      assert s == [s[0]] + s[1..];
      RemoveAbsent(s[1..], key);
    }
  }

  lemma {:induction false} RemoveMembers<K>(s: seq<K>, key: K)
    requires NoDup(s)
    ensures NoDup(Remove(s, key))
    ensures forall x :: x in Remove(s, key) <==> x in s && x != key
    ensures key in s ==> |Remove(s, key)| == |s| - 1
  {
    if s != [] {
      var t := s[1..];
      assert s == [s[0]] + t;
      assert forall i :: 0 <= i < |t| ==> t[i] == s[i + 1];
      RemoveMembers(t, key);
      assert s[0] !in t;
      if s[0] == key {
        RemoveAbsent(t, key);
      } else {
        var r := Remove(t, key);
        assert forall i :: 0 <= i < |r| ==> r[i] in r;
      }
    }
  }

  lemma {:induction false} TakeCons<K>(n: nat, h: K, t: seq<K>)
    ensures Take(0, t) == []
    ensures Take(n + 1, [h] + t) == [h] + Take(n, t)
    ensures forall x :: x in Take(n, t) ==> x in t
  {
  }

  /** Dropping a key before or after the cut makes no difference to the shorter cut. */
  lemma {:induction false} TakeRemove<K>(n: nat, s: seq<K>, key: K)
    requires NoDup(s)
    ensures Take(n, Remove(Take(n + 1, s), key)) == Take(n, Remove(s, key))
  {
    hide Take;
    if s == [] {
      assert Take(n + 1, s) == s by { TakeShort(n + 1, s); }
    } else {
      var h, t := s[0], s[1..];
      assert s == [h] + t && h !in t;
      assert forall i :: 0 <= i < |t| ==> t[i] == s[i + 1];
      TakeCons(n, h, t);
      assert ([h] + Take(n, t))[1..] == Take(n, t);
      if h == key {
        RemoveAbsent(t, key);
        RemoveAbsent(Take(n, t), key);
        TakeTwice(n, t);
      } else if n > 0 {
        TakeRemove(n - 1, t, key);
        TakeCons(n - 1, h, Remove(Take(n, t), key));
        TakeCons(n - 1, h, Remove(t, key));
      } else {
        TakeNone(Remove(Take(1, s), key), Remove(s, key));
      }
    }
  }

  lemma {:induction false} TakeShort<K>(n: nat, s: seq<K>)
    requires |s| <= n
    ensures Take(n, s) == s
  {
  }

  lemma {:induction false} TakeTwice<K>(n: nat, s: seq<K>)
    ensures Take(n, Take(n, s)) == Take(n, s)
  {
  }

  lemma {:induction false} TakeNone<K>(a: seq<K>, b: seq<K>)
    ensures Take(0, a) == Take(0, b)
  {
  }

  // ----- sequential runs ---------------------------------------------------------------------------

  /** One call, with the clock readings of its Get and its Put. */
  datatype Call<K> = Call(key: K, getAt: int, putAt: int)

  function Run<K(==), V>(capacity: nat, ttl: int, inner: K -> Option<V>, calls: seq<Call<K>>): seq<Slot<K, V>> {
    if calls == [] then []
    else
      var last := calls[|calls| - 1];
      LookupSpec(Run(capacity, ttl, inner, calls[..|calls| - 1]), capacity, ttl, inner, last.key, last.getAt,
        last.putAt).0
  }

  /** The distinct keys found by the store, read backwards through the calls. */
  function RecentlyFound<K(==), V>(inner: K -> Option<V>, calls: seq<Call<K>>, skip: set<K>): seq<K> {
    if calls == [] then []
    else
      var key, front := calls[|calls| - 1].key, calls[..|calls| - 1];
      if inner(key).Some? && key !in skip then [key] + RecentlyFound(inner, front, skip + {key})
      else RecentlyFound(inner, front, skip)
  }

  lemma {:induction false} RecentlyFoundMembers<K(!new), V>(inner: K -> Option<V>, calls: seq<Call<K>>, skip: set<K>)
    ensures forall k :: k in RecentlyFound(inner, calls, skip) ==> k !in skip && inner(k).Some?
    ensures NoDup(RecentlyFound(inner, calls, skip))
  {
    if calls != [] {
      var key, front := calls[|calls| - 1].key, calls[..|calls| - 1];
      if inner(key).Some? && key !in skip {
        RecentlyFoundMembers(inner, front, skip + {key});
        var r := RecentlyFound(inner, front, skip + {key});
        assert forall i :: 0 <= i < |r| ==> r[i] in r;
      } else {
        RecentlyFoundMembers(inner, front, skip);
      }
    }
  }

  lemma {:induction false} SkipOneMore<K(!new), V>(inner: K -> Option<V>, calls: seq<Call<K>>, skip: set<K>, key: K)
    ensures RecentlyFound(inner, calls, skip + {key}) == Remove(RecentlyFound(inner, calls, skip), key)
  {
    if calls != [] {
      var k, front := calls[|calls| - 1].key, calls[..|calls| - 1];
      if inner(k).Some? && k !in skip {
        var r := RecentlyFound(inner, front, skip + {k});
        assert ([k] + r)[1..] == r;
        if k == key {
          RecentlyFoundMembers(inner, front, skip + {k});
          RemoveAbsent(r, key);
        } else {
          SkipOneMore(inner, front, skip + {k}, key);
          assert skip + {k} + {key} == skip + {key} + {k};
        }
      } else {
        SkipOneMore(inner, front, skip, key);
      }
    }
  }

  /** Every cached value is the store's answer for its key. */
  ghost predicate Agrees<K, V>(s: seq<Slot<K, V>>, inner: K -> Option<V>) {
    forall i :: 0 <= i < |s| ==> inner(s[i].key) == Some(s[i].value)
  }

  lemma {:induction false} WithoutMembers<K, V(!new)>(s: seq<Slot<K, V>>, key: K)
    ensures forall x :: x in Without(s, key) ==> x in s && x.key != key
  {
    if s != [] {
      WithoutMembers(s[1..], key);
    }
  }

  /** One lookup of a key the store has: it moves to the front, whether it was cached, had
      expired, or was absent. */
  lemma {:induction false} FoundLookup<K(!new), V(!new)>(s: seq<Slot<K, V>>, capacity: nat, ttl: int,
          inner: K -> Option<V>, key: K, getAt: int, putAt: int)
    requires capacity > 0 && ttl > 0 && NoDup(Keys(s)) && |s| <= capacity && inner(key).Some? && Agrees(s, inner)
    ensures var (t, r) := LookupSpec(s, capacity, ttl, inner, key, getAt, putAt);
            Keys(t) == Take(capacity, [key] + Remove(Keys(s), key)) && r == inner(key)
  {
    var k := Keys(s);
    KeysWithout(s, key);
    KeysMember(s, key);
    RemoveMembers(k, key);
    if HasKey(s, key) && getAt < SlotAt(s, key).expiresAt {
      KeysFront(SlotAt(s, key), Without(s, key));
    } else {
      var u := if HasKey(s, key) then Without(s, key) else s;
      KeysWithout(u, key);
      RemoveAbsent(Remove(k, key), key);
      KeysFront(Slot(key, inner(key).value, putAt + ttl), Without(u, key));
      KeysTake(capacity, [Slot(key, inner(key).value, putAt + ttl)] + Without(u, key));
    }
  }

  lemma {:induction false} LookupAgrees<K(!new), V(!new)>(s: seq<Slot<K, V>>, capacity: nat, ttl: int,
          inner: K -> Option<V>, key: K, getAt: int, putAt: int)
    requires Agrees(s, inner)
    ensures Agrees(LookupSpec(s, capacity, ttl, inner, key, getAt, putAt).0, inner)
    ensures LookupSpec(s, capacity, ttl, inner, key, getAt, putAt).1 == inner(key)
    ensures inner(key).None? ==> LookupSpec(s, capacity, ttl, inner, key, getAt, putAt).0 == s
  {
    var u := GetSpec(s, key, getAt).0;
    WithoutMembers(s, key);
    WithoutMembers(u, key);
    var w := Without(s, key);
    assert forall i :: 0 <= i < |w| ==> w[i] in w;
    var x := Without(u, key);
    assert forall i :: 0 <= i < |x| ==> x[i] in x;
    assert HasKey(s, key) ==> inner(key).Some?;
  }

  /** After any sequential run the cached keys, in list order, are the first `capacity`
      distinct found keys read backwards through the calls: the clock and the expiries leave
      no trace in them. Every cached value is the store's answer. */
  lemma {:induction false} KeysAfterRun<K(!new), V(!new)>(capacity: nat, ttl: int, inner: K -> Option<V>,
          calls: seq<Call<K>>)
    requires capacity > 0 && ttl > 0
    ensures Keys(Run(capacity, ttl, inner, calls)) == Take(capacity, RecentlyFound(inner, calls, {}))
    ensures Agrees(Run(capacity, ttl, inner, calls), inner)
  {
    hide LookupSpec, Agrees, Take, Remove, Keys, NoDup;
    if calls == [] {
      NothingCached(capacity, inner);
    } else {
      var last, front := calls[|calls| - 1], calls[..|calls| - 1];
      var s := Run(capacity, ttl, inner, front);
      KeysAfterRun(capacity, ttl, inner, front);
      LookupAgrees(s, capacity, ttl, inner, last.key, last.getAt, last.putAt);
      if inner(last.key).Some? {
        var l := RecentlyFound(inner, front, {});
        RecentlyFoundMembers(inner, front, {});
        TakeNoDup(capacity, l);
        KeysSize(s, capacity, l);
        FoundLookup(s, capacity, ttl, inner, last.key, last.getAt, last.putAt);
        SkipOneMore(inner, front, {}, last.key);
        assert {} + {last.key} == {last.key};
        MoveToFront(capacity, l, last.key);
      }
    }
  }

  lemma {:induction false} NothingCached<K, V>(capacity: nat, inner: K -> Option<V>)
    ensures Agrees([], inner) && Keys<K, V>([]) == [] && Take<K>(capacity, []) == []
  {
  }

  lemma {:induction false} MoveToFront<K>(capacity: nat, l: seq<K>, key: K)
    requires capacity > 0 && NoDup(l)
    ensures Take(capacity, [key] + Remove(Take(capacity, l), key)) == Take(capacity, [key] + Remove(l, key))
  {
    hide Remove;
    TakeRemove(capacity - 1, l, key);
    TakeFront(capacity, key, Remove(Take(capacity, l), key));
    TakeFront(capacity, key, Remove(l, key));
  }

  lemma {:induction false} KeysSize<K, V>(s: seq<Slot<K, V>>, n: nat, l: seq<K>)
    requires Keys(s) == Take(n, l)
    ensures |s| <= n
  {
  }

  lemma {:induction false} TakeNoDup<K>(n: nat, s: seq<K>)
    requires NoDup(s)
    ensures NoDup(Take(n, s)) && |Take(n, s)| <= n
  {
  }

  lemma {:induction false} TakeFront<K>(n: nat, x: K, s: seq<K>)
    requires n > 0
    ensures Take(n, [x] + s) == [x] + Take(n - 1, s)
  {
  }

  /** A smaller cache holds a prefix of what a larger one holds, even at different clocks. */
  lemma {:induction false} SmallerCacheIsPrefix<K(!new), V(!new)>(small: nat, large: nat, ttl1: int, ttl2: int,
          inner: K -> Option<V>, calls1: seq<Call<K>>, calls2: seq<Call<K>>)
    requires 0 < small <= large && ttl1 > 0 && ttl2 > 0 && |calls1| == |calls2|
    requires forall i :: 0 <= i < |calls1| ==> calls1[i].key == calls2[i].key
    ensures Keys(Run(small, ttl1, inner, calls1)) <= Keys(Run(large, ttl2, inner, calls2))
  {
    KeysAfterRun(small, ttl1, inner, calls1);
    KeysAfterRun(large, ttl2, inner, calls2);
    SameKeysSameRecency(inner, calls1, calls2, {});
  }

  lemma {:induction false} SameKeysSameRecency<K(!new), V>(inner: K -> Option<V>, a: seq<Call<K>>, b: seq<Call<K>>,
          skip: set<K>)
    requires |a| == |b| && forall i :: 0 <= i < |a| ==> a[i].key == b[i].key
    ensures RecentlyFound(inner, a, skip) == RecentlyFound(inner, b, skip)
  {
    if a != [] {
      var n := |a| - 1;
      SameKeysSameRecency(inner, a[..n], b[..n], skip);
      SameKeysSameRecency(inner, a[..n], b[..n], skip + {a[n].key});
    }
  }

  // ----- interleaved calls --------------------------------------------------------------------------

  /** Where a call stands: between its Get and its inner lookup, or holding an answer. */
  datatype Phase<K, V> = Idle | Missed(key: K) | Answered(key: K, value: V)

  datatype System<K, V> = System(slots: seq<Slot<K, V>>, clock: int, calls: map<nat, Phase<K, V>>)

  datatype Step<K, V> =
    | Tick(elapsed: nat)
    | Begin(thread: nat, key: K, hit: Option<V>)
    | Ask(thread: nat)
    | Keep(thread: nat)

  function PhaseOf<K, V>(sys: System<K, V>, thread: nat): Phase<K, V> {
    if thread in sys.calls then sys.calls[thread] else Idle
  }

  /** The cache operations are atomic under its mutex; the inner lookup runs outside it, over
      a store whose answers may change with time. */
  ghost predicate Next<K(!new), V(!new)>(capacity: nat, ttl: int, inner: (K, int) -> Option<V>, a: System<K, V>,
          step: Step<K, V>, b: System<K, V>)
  {
    match step
    case Tick(elapsed) =>
      b == a.(clock := a.clock + elapsed)
    case Begin(t, key, hit) =>
      && PhaseOf(a, t) == Idle
      && (b.slots, hit) == GetSpec(a.slots, key, a.clock)
      && b.clock == a.clock
      && b.calls == a.calls[t := if hit.Some? then Idle else Missed(key)]
    case Ask(t) =>
      && PhaseOf(a, t).Missed?
      && b.slots == a.slots && b.clock == a.clock
      && (match inner(PhaseOf(a, t).key, a.clock)
          case None => b.calls == a.calls[t := Idle]
          case Some(v) => b.calls == a.calls[t := Answered(PhaseOf(a, t).key, v)])
    case Keep(t) =>
      && PhaseOf(a, t).Answered?
      && b.slots == PutSpec(a.slots, capacity, ttl, PhaseOf(a, t).key, PhaseOf(a, t).value, a.clock)
      && b.clock == a.clock && b.calls == a.calls[t := Idle]
  }

  /** Each step leads from its state to the next one. */
  ghost predicate Linked<K(!new), V(!new)>(capacity: nat, ttl: int, inner: (K, int) -> Option<V>,
          states: seq<System<K, V>>, steps: seq<Step<K, V>>)
  {
    && |states| == |steps| + 1
    && (forall i :: 0 <= i < |steps| ==> Next(capacity, ttl, inner, states[i], steps[i], states[i + 1]))
  }

  /** From every state an idle thread can run a call to its end with nobody in between, and the
      call is then the sequential lookup: the same cache afterwards, and a hit exactly when the
      lookup found a cached answer. No other call moves. */
  lemma {:induction false} CallAlone<K(!new), V(!new)>(capacity: nat, ttl: int, inner: (K, int) -> Option<V>,
          a: System<K, V>, t: nat, key: K)
    returns (states: seq<System<K, V>>, steps: seq<Step<K, V>>)
    requires t !in a.calls || a.calls[t] == Idle
    ensures Linked(capacity, ttl, inner, states, steps) && steps != [] && states[0] == a
    ensures steps[0] == Begin(t, key, GetSpec(a.slots, key, a.clock).1)
    ensures forall i :: 1 <= i < |steps| ==> steps[i] in {Ask(t), Keep(t)}
    ensures var b := states[|steps|];
            && b.slots == LookupSpec(a.slots, capacity, ttl, k => inner(k, a.clock), key, a.clock, a.clock).0
            && b.clock == a.clock && b.calls == a.calls[t := Idle]
  {
    hide GetSpec, PutSpec;
    var (slots, hit) := GetSpec(a.slots, key, a.clock);
    var begun := a.(slots := slots, calls := a.calls[t := if hit.Some? then Idle else Missed(key)]);
    states, steps := [a, begun], [Begin(t, key, hit)];
    if hit.Some? {
      return;
    }
    var found := inner(key, a.clock);
    var asked := begun.(calls := begun.calls[t := if found.Some? then Answered(key, found.value) else Idle]);
    states, steps := states + [asked], steps + [Ask(t)];
    if found.None? {
      return;
    }
    var kept := asked.(slots := PutSpec(slots, capacity, ttl, key, found.value, a.clock),
                       calls := asked.calls[t := Idle]);
    states, steps := states + [kept], steps + [Keep(t)];
  }

  /** What happened so far: step i led from state i to state i + 1. */
  datatype History<K, V> = History(states: seq<System<K, V>>, steps: seq<Step<K, V>>)

  ghost predicate IsHistory<K(!new), V(!new)>(capacity: nat, ttl: int, inner: (K, int) -> Option<V>, h: History<K, V>) {
    Linked(capacity, ttl, inner, h.states, h.steps) && Init(h.states[0])
  }

  /** Thread t takes no step strictly between i and j. */
  ghost predicate Silent<K, V>(h: History<K, V>, t: nat, i: nat, j: nat) {
    forall m :: i < m < j && m < |h.steps| ==> h.steps[m].Tick? || h.steps[m].thread != t
  }

  /** Step i is the Get of a call of thread t that misses the key. */
  ghost predicate MissedAt<K, V>(h: History<K, V>, t: nat, i: nat, key: K) {
    i < |h.steps| && h.steps[i] == Begin(t, key, None)
  }

  /** In that call, step j asks the inner store, which answers v at that instant. */
  ghost predicate AnsweredAt<K, V>(inner: (K, int) -> Option<V>, h: History<K, V>, t: nat, i: nat, j: nat, key: K,
          v: V)
  {
    && MissedAt(h, t, i, key) && i < j < |h.steps| && j < |h.states|
    && h.steps[j] == Ask(t) && Silent(h, t, i, j) && inner(key, h.states[j].clock) == Some(v)
  }

  /** In that call, step k puts the answer into the cache. */
  ghost predicate StoredAt<K, V>(inner: (K, int) -> Option<V>, h: History<K, V>, t: nat, i: nat, j: nat, k: nat,
          key: K, v: V)
  {
    AnsweredAt(inner, h, t, i, j, key, v) && j < k < |h.steps| && h.steps[k] == Keep(t) && Silent(h, t, j, k)
  }

  /** Step m puts something under the key. */
  ghost predicate KeepsKey<K, V>(h: History<K, V>, m: nat, key: K)
    requires m < |h.steps| < |h.states|
  {
    h.steps[m].Keep? && PhaseOf(h.states[m], h.steps[m].thread).Answered? &&
    PhaseOf(h.states[m], h.steps[m].thread).key == key
  }

  /** Nothing is put under the key between k and n. */
  ghost predicate LastKept<K, V>(h: History<K, V>, k: nat, n: nat, key: K)
    requires n <= |h.steps| < |h.states|
  {
    forall m :: k < m < n ==> !KeepsKey(h, m, key)
  }

  /** The slot was stored by one call of the history, the last to put its key, `ttl` before it expires. */
  ghost predicate Sourced<K(!new), V(!new)>(ttl: int, inner: (K, int) -> Option<V>, h: History<K, V>, n: nat,
          slot: Slot<K, V>)
    requires n <= |h.steps| < |h.states|
  {
    exists t: nat, i: nat, j: nat, k: nat ::
      && StoredAt(inner, h, t, i, j, k, slot.key, slot.value)
      && k < n && slot.expiresAt == h.states[k].clock + ttl && LastKept(h, k, n, slot.key)
  }

  /** A call under way has taken the steps its phase says, and none since. */
  ghost predicate CallTraced<K(!new), V(!new)>(inner: (K, int) -> Option<V>, h: History<K, V>, n: nat, t: nat,
          call: Phase<K, V>)
  {
    match call
    case Idle => true
    case Missed(key) => exists i: nat :: i < n && MissedAt(h, t, i, key) && Silent(h, t, i, n)
    case Answered(key, v) =>
      exists i: nat, j: nat :: j < n && AnsweredAt(inner, h, t, i, j, key, v) && Silent(h, t, j, n)
  }

  /** The state after n steps: distinct keys within the capacity, and a history for every slot and call. */
  ghost predicate Inv<K(!new), V(!new)>(capacity: nat, ttl: int, inner: (K, int) -> Option<V>, h: History<K, V>, n: nat)
    requires n <= |h.steps| < |h.states|
  {
    && NoDup(Keys(h.states[n].slots)) && |h.states[n].slots| <= capacity
    && (h.states[n].slots != [] ==> ttl > 0)
    && (forall s :: s in h.states[n].slots ==> Sourced(ttl, inner, h, n, s))
    && (forall t :: t in h.states[n].calls ==> CallTraced(inner, h, n, t, h.states[n].calls[t]))
  }

  ghost predicate Init<K, V>(sys: System<K, V>) {
    sys.slots == [] && sys.calls == map[]
  }

  lemma {:induction false} GetShape<K(!new), V(!new)>(s: seq<Slot<K, V>>, key: K, now: int)
    requires NoDup(Keys(s))
    ensures var t := GetSpec(s, key, now).0;
            NoDup(Keys(t)) && |t| <= |s| && forall x :: x in t ==> x in s
  {
    WithoutMembers(s, key);
    KeysWithout(s, key);
    KeysMember(s, key);
    RemoveMembers(Keys(s), key);
    if HasKey(s, key) {
      KeysFront(SlotAt(s, key), Without(s, key));
      var r := Remove(Keys(s), key);
      assert forall i :: 0 <= i < |r| ==> r[i] in r;
    }
  }

  lemma {:induction false} PutShape<K(!new), V(!new)>(s: seq<Slot<K, V>>, capacity: nat, ttl: int, key: K, value: V,
          now: int)
    requires NoDup(Keys(s)) && |s| <= capacity
    ensures var t := PutSpec(s, capacity, ttl, key, value, now);
            NoDup(Keys(t)) && |t| <= capacity && (capacity == 0 || ttl <= 0 ==> t == s) &&
            forall x :: x in t && capacity > 0 && ttl > 0 ==>
              x == Slot(key, value, now + ttl) || (x in s && x.key != key)
  {
    WithoutMembers(s, key);
    KeysWithout(s, key);
    RemoveMembers(Keys(s), key);
    var all := [Slot(key, value, now + ttl)] + Without(s, key);
    KeysFront(Slot(key, value, now + ttl), Without(s, key));
    var r := Remove(Keys(s), key);
    assert forall i :: 0 <= i < |r| ==> r[i] in r;
    KeysTake(capacity, all);
    TakeNoDup(capacity, Keys(all));
    assert forall x :: x in Take(capacity, all) ==> x in all;
  }

  /** A step of another thread leaves a call's history as it was. */
  lemma {:induction false} SilentLonger<K, V>(h: History<K, V>, t: nat, i: nat, n: nat)
    requires i < n < |h.steps| && Silent(h, t, i, n) && (h.steps[n].Tick? || h.steps[n].thread != t)
    ensures Silent(h, t, i, n + 1)
  {
  }

  lemma {:induction false} CallTracedLater<K(!new), V(!new)>(inner: (K, int) -> Option<V>, h: History<K, V>, n: nat,
          t: nat, call: Phase<K, V>)
    requires n < |h.steps| && CallTraced(inner, h, n, t, call) && (h.steps[n].Tick? || h.steps[n].thread != t)
    ensures CallTraced(inner, h, n + 1, t, call)
  {
    hide Silent, MissedAt, AnsweredAt;
    match call
    case Idle =>
    case Missed(key) =>
      var i: nat :| i < n && MissedAt(h, t, i, key) && Silent(h, t, i, n);
      SilentLonger(h, t, i, n);
    case Answered(key, v) =>
      var i: nat, j: nat :| j < n && AnsweredAt(inner, h, t, i, j, key, v) && Silent(h, t, j, n);
      SilentLonger(h, t, j, n);
  }

  lemma {:induction false} SilentAtOnce<K, V>(h: History<K, V>, t: nat, n: nat)
    ensures Silent(h, t, n, n + 1)
  {
  }

  lemma {:induction false} SourcedLater<K(!new), V(!new)>(ttl: int, inner: (K, int) -> Option<V>, h: History<K, V>,
          n: nat, slot: Slot<K, V>)
    requires n < |h.steps| < |h.states| && Sourced(ttl, inner, h, n, slot) && !KeepsKey(h, n, slot.key)
    ensures Sourced(ttl, inner, h, n + 1, slot)
  {
    hide StoredAt, KeepsKey;
    var t: nat, i: nat, j: nat, k: nat :|
      && StoredAt(inner, h, t, i, j, k, slot.key, slot.value)
      && k < n && slot.expiresAt == h.states[k].clock + ttl && LastKept(h, k, n, slot.key);
    assert LastKept(h, k, n + 1, slot.key);
  }

  lemma {:induction false} NewlySourced<K(!new), V(!new)>(ttl: int, inner: (K, int) -> Option<V>, h: History<K, V>,
          n: nat, t: nat, key: K, v: V)
    requires n < |h.steps| < |h.states| && h.steps[n] == Keep(t) && CallTraced(inner, h, n, t, Answered(key, v))
    ensures Sourced(ttl, inner, h, n + 1, Slot(key, v, h.states[n].clock + ttl))
  {
    hide AnsweredAt, Silent;
    var i: nat, j: nat :| j < n && AnsweredAt(inner, h, t, i, j, key, v) && Silent(h, t, j, n);
    assert StoredAt(inner, h, t, i, j, n, key, v);
    assert LastKept(h, n, n + 1, key);
  }

  /** The calls after a step: only the stepping thread's own call moves on. */
  lemma {:induction false} CallsStep<K(!new), V(!new)>(capacity: nat, ttl: int, inner: (K, int) -> Option<V>,
                                                       h: History<K, V>, n: nat, t: nat)
    requires n < |h.steps| < |h.states| && Inv(capacity, ttl, inner, h, n)
    requires Next(capacity, ttl, inner, h.states[n], h.steps[n], h.states[n + 1]) && t in h.states[n + 1].calls
    ensures CallTraced(inner, h, n + 1, t, h.states[n + 1].calls[t])
  {
    hide Keys, GetSpec, PutSpec, Sourced, NoDup, Silent;
    var a, step := h.states[n], h.steps[n];
    if step.Tick? || step.thread != t {
      CallTracedLater(inner, h, n, t, a.calls[t]);
    } else {
      SilentAtOnce(h, t, n);
      match step
      case Begin(_, key, hit) =>
        assert hit == None ==> MissedAt(h, t, n, key);
      case Ask(_) =>
        assert CallTraced(inner, h, n, t, PhaseOf(a, t));
        var i: nat :| i < n && MissedAt(h, t, i, PhaseOf(a, t).key) && Silent(h, t, i, n);
        if v :| inner(PhaseOf(a, t).key, a.clock) == Some(v) {
          assert AnsweredAt(inner, h, t, i, n, PhaseOf(a, t).key, v);
        }
      case Keep(_) =>
    }
  }

  /** The slots after a step: those that were, or the one a call has just stored. */
  lemma {:induction false} SlotsStep<K(!new), V(!new)>(capacity: nat, ttl: int, inner: (K, int) -> Option<V>,
                                                       h: History<K, V>, n: nat, slot: Slot<K, V>)
    requires n < |h.steps| < |h.states| && Inv(capacity, ttl, inner, h, n)
    requires Next(capacity, ttl, inner, h.states[n], h.steps[n], h.states[n + 1]) && slot in h.states[n + 1].slots
    ensures Sourced(ttl, inner, h, n + 1, slot)
  {
    hide Keys, GetSpec, PutSpec, Sourced, NoDup, CallTraced;
    var a := h.states[n];
    match h.steps[n]
    case Tick(elapsed) => SourcedLater(ttl, inner, h, n, slot);
    case Begin(t, key, hit) =>
      GetShape(a.slots, key, a.clock);
      SourcedLater(ttl, inner, h, n, slot);
    case Ask(t) => SourcedLater(ttl, inner, h, n, slot);
    case Keep(t) =>
      var call := PhaseOf(a, t);
      PutShape(a.slots, capacity, ttl, call.key, call.value, a.clock);
      if slot == Slot(call.key, call.value, a.clock + ttl) {
        NewlySourced(ttl, inner, h, n, t, call.key, call.value);
      } else {
        SourcedLater(ttl, inner, h, n, slot);
      }
  }

  lemma {:induction false} InvStep<K(!new), V(!new)>(capacity: nat, ttl: int, inner: (K, int) -> Option<V>,
                                                     h: History<K, V>, n: nat)
    requires n < |h.steps| < |h.states| && Inv(capacity, ttl, inner, h, n)
    requires Next(capacity, ttl, inner, h.states[n], h.steps[n], h.states[n + 1])
    ensures Inv(capacity, ttl, inner, h, n + 1)
  {
    ShapeStep(capacity, ttl, inner, h, n);
    hide Next, Keys, Sourced, NoDup, CallTraced;
    var next := n + 1;
    var b := h.states[next];
    forall t | t in b.calls ensures CallTraced(inner, h, next, t, b.calls[t]) {
      CallsStep(capacity, ttl, inner, h, n, t);
    }
    forall slot | slot in b.slots ensures Sourced(ttl, inner, h, next, slot) {
      SlotsStep(capacity, ttl, inner, h, n, slot);
    }
  }

  lemma {:induction false} ShapeStep<K(!new), V(!new)>(capacity: nat, ttl: int, inner: (K, int) -> Option<V>,
                                                       h: History<K, V>, n: nat)
    requires n < |h.steps| < |h.states| && Inv(capacity, ttl, inner, h, n)
    requires Next(capacity, ttl, inner, h.states[n], h.steps[n], h.states[n + 1])
    ensures NoDup(Keys(h.states[n + 1].slots)) && |h.states[n + 1].slots| <= capacity
    ensures h.states[n + 1].slots != [] ==> ttl > 0
  {
    hide Keys, GetSpec, PutSpec, Sourced, NoDup, CallTraced;
    var a := h.states[n];
    match h.steps[n]
    case Begin(t, key, hit) => GetShape(a.slots, key, a.clock);
    case Keep(t) => PutShape(a.slots, capacity, ttl, PhaseOf(a, t).key, PhaseOf(a, t).value, a.clock);
    case _ =>
  }

  /** The invariant holds along every interleaving of every length. */
  lemma {:induction false} InvAlways<K(!new), V(!new)>(capacity: nat, ttl: int, inner: (K, int) -> Option<V>,
                                                       h: History<K, V>, n: nat)
    requires IsHistory(capacity, ttl, inner, h) && n <= |h.steps|
    ensures Inv(capacity, ttl, inner, h, n)
  {
    hide Next, Inv;
    if n == 0 {
      InvInit(capacity, ttl, inner, h);
    } else {
      InvAlways(capacity, ttl, inner, h, n - 1);
      InvStep(capacity, ttl, inner, h, n - 1);
    }
  }

  lemma {:induction false} InvInit<K(!new), V(!new)>(capacity: nat, ttl: int, inner: (K, int) -> Option<V>,
          h: History<K, V>)
    requires |h.states| == |h.steps| + 1 && Init(h.states[0])
    ensures Inv(capacity, ttl, inner, h, 0)
  {
  }

  lemma {:induction false} ClockForward<K(!new), V(!new)>(capacity: nat, ttl: int, inner: (K, int) -> Option<V>,
          h: History<K, V>, i: nat, n: nat)
    requires IsHistory(capacity, ttl, inner, h) && i <= n <= |h.steps|
    ensures h.states[i].clock <= h.states[n].clock
  {
    if i < n {
      ClockForward(capacity, ttl, inner, h, i, n - 1);
      assert Next(capacity, ttl, inner, h.states[n - 1], h.steps[n - 1], h.states[n]);
    }
  }

  /** At every point of every interleaving a hit is fresh: one call of the history missed the
      key, was given exactly this answer by the inner store, and then stored it, less than
      `ttl` ago; and nobody has put the key since. */
  lemma {:induction false} HitIsFresh<K(!new), V(!new)>(capacity: nat, ttl: int, inner: (K, int) -> Option<V>,
                                                        h: History<K, V>, n: nat, key: K, v: V)
    requires IsHistory(capacity, ttl, inner, h) && n <= |h.steps|
    requires GetSpec(h.states[n].slots, key, h.states[n].clock).1 == Some(v)
    ensures exists t: nat, i: nat, j: nat, k: nat ::
              && StoredAt(inner, h, t, i, j, k, key, v) && k < n && LastKept(h, k, n, key)
              && h.states[k].clock <= h.states[n].clock < h.states[k].clock + ttl
  {
    hide Next, StoredAt, LastKept;
    InvAlways(capacity, ttl, inner, h, n);
    var slot := SlotAt(h.states[n].slots, key);
    assert Sourced(ttl, inner, h, n, slot);
    var t: nat, i: nat, j: nat, k: nat :|
      && StoredAt(inner, h, t, i, j, k, key, v)
      && k < n && slot.expiresAt == h.states[k].clock + ttl && LastKept(h, k, n, key);
    ClockForward(capacity, ttl, inner, h, k, n);
  }

  // ----- how long a value stays ----------------------------------------------------------------------

  /** The slot is in the list, behind slots of different keys from T only. */
  ghost predicate Stands<K(!new), V(!new)>(s: seq<Slot<K, V>>, slot: Slot<K, V>, T: set<K>) {
    s != [] &&
    (s[0] == slot || (s[0].key != slot.key && s[0].key in T && Stands(s[1..], slot, T - {s[0].key})))
  }

  lemma {:induction false} StandsMore<K(!new), V(!new)>(s: seq<Slot<K, V>>, slot: Slot<K, V>, T: set<K>, more: set<K>)
    requires Stands(s, slot, T) && T <= more
    ensures Stands(s, slot, more)
  {
    if s[0] != slot {
      StandsMore(s[1..], slot, T - {s[0].key}, more - {s[0].key});
    }
  }

  lemma {:induction false} StandsFound<K(!new), V(!new)>(s: seq<Slot<K, V>>, slot: Slot<K, V>, T: set<K>)
    requires Stands(s, slot, T)
    ensures HasKey(s, slot.key) && SlotAt(s, slot.key) == slot
  {
    if s[0] != slot {
      StandsFound(s[1..], slot, T - {s[0].key});
      var i :| 0 <= i < |s[1..]| && s[1..][i].key == slot.key;
      assert s[i + 1].key == slot.key;
    }
  }

  lemma {:induction false} StandsWithout<K(!new), V(!new)>(s: seq<Slot<K, V>>, slot: Slot<K, V>, T: set<K>, key: K)
    requires Stands(s, slot, T) && key != slot.key
    ensures Stands(Without(s, key), slot, T - {key})
  {
    if s[0] != slot {
      var first := s[0].key;
      StandsWithout(s[1..], slot, T - {first}, key);
      assert T - {first} - {key} == T - {key} - {first};
      if first != key {
        assert ([s[0]] + Without(s[1..], key))[1..] == Without(s[1..], key);
      } else {
        assert T - {key} - {first} == T - {key};
      }
    }
  }

  /** A slot put in front moves the others back by one. */
  lemma {:induction false} StandsBehind<K(!new), V(!new)>(s: seq<Slot<K, V>>, slot: Slot<K, V>, T: set<K>,
          first: Slot<K, V>)
    requires Stands(s, slot, T) && first.key != slot.key
    ensures Stands([first] + Without(s, first.key), slot, T + {first.key})
  {
    StandsWithout(s, slot, T, first.key);
    assert T + {first.key} - {first.key} == T - {first.key};
    assert ([first] + Without(s, first.key))[1..] == Without(s, first.key);
  }

  /** The capacity cuts off only slots behind at least as many others. */
  lemma {:induction false} StandsTake<K(!new), V(!new)>(n: nat, s: seq<Slot<K, V>>, slot: Slot<K, V>, T: set<K>)
    requires Stands(s, slot, T) && |T| < n
    ensures Stands(Take(n, s), slot, T)
  {
    if s[0] != slot {
      StandsTake(n - 1, s[1..], slot, T - {s[0].key});
      assert Take(n, s)[1..] == Take(n - 1, s[1..]);
    }
  }

  /** The keys step m puts or hits. */
  ghost function TouchedBy<K, V>(h: History<K, V>, m: nat): set<K>
    requires m < |h.steps| < |h.states|
  {
    match h.steps[m]
    case Begin(t, key, hit) => if hit.Some? then {key} else {}
    case Keep(t) => if PhaseOf(h.states[m], t).Answered? then {PhaseOf(h.states[m], t).key} else {}
    case _ => {}
  }

  /** The other keys put or hit between k and n. */
  ghost function Touched<K, V>(h: History<K, V>, k: nat, n: nat, key: K): set<K>
    requires n <= |h.steps| < |h.states|
  {
    if n <= k + 1 then {} else Touched(h, k, n - 1, key) + (TouchedBy(h, n - 1) - {key})
  }

  lemma {:induction false} StandsFirst<K(!new), V(!new)>(slot: Slot<K, V>, s: seq<Slot<K, V>>, T: set<K>)
    ensures Stands([slot] + s, slot, T)
  {
  }

  /** A Get of any key hits the slot's own key, and moves at most its own key in front. */
  lemma {:induction false} StandsGet<K(!new), V(!new)>(s: seq<Slot<K, V>>, slot: Slot<K, V>, T: set<K>, key: K,
          now: int)
    requires Stands(s, slot, T) && now < slot.expiresAt
    ensures var (after, hit) := GetSpec(s, key, now);
            Stands(after, slot, if hit.Some? && key != slot.key then T + {key} else T)
  {
    hide Stands, Without;
    StandsFound(s, slot, T);
    if key == slot.key {
      StandsFirst(slot, Without(s, key), T);
    } else if HasKey(s, key) {
      StandsWithout(s, slot, T, key);
      StandsMore(Without(s, key), slot, T - {key}, T);
      StandsBehind(s, slot, T, SlotAt(s, key));
    }
  }

  lemma {:induction false} StandsPut<K(!new), V(!new)>(s: seq<Slot<K, V>>, capacity: nat, ttl: int, slot: Slot<K, V>,
          T: set<K>, key: K, value: V, now: int)
    requires Stands(s, slot, T) && key != slot.key && |T + {key}| < capacity
    ensures Stands(PutSpec(s, capacity, ttl, key, value, now), slot, T + {key})
  {
    hide Stands, Without, Take;
    StandsMore(s, slot, T, T + {key});
    var first := Slot(key, value, now + ttl);
    StandsBehind(s, slot, T, first);
    StandsTake(capacity, [first] + Without(s, key), slot, T + {key});
  }

  lemma {:induction false} StandsStep<K(!new), V(!new)>(capacity: nat, ttl: int, inner: (K, int) -> Option<V>,
          h: History<K, V>, n: nat, slot: Slot<K, V>, T: set<K>)
    requires n < |h.steps| < |h.states| && Next(capacity, ttl, inner, h.states[n], h.steps[n], h.states[n + 1])
    requires Stands(h.states[n].slots, slot, T) && h.states[n].clock < slot.expiresAt && !KeepsKey(h, n, slot.key)
    requires |T + (TouchedBy(h, n) - {slot.key})| < capacity
    ensures Stands(h.states[n + 1].slots, slot, T + (TouchedBy(h, n) - {slot.key}))
  {
    hide Stands, GetSpec, PutSpec;
    var a, touched := h.states[n], TouchedBy(h, n) - {slot.key};
    match h.steps[n]
    case Begin(t, key, hit) =>
      StandsGet(a.slots, slot, T, key, a.clock);
      assert touched == if hit.Some? && key != slot.key then {key} else {};
      assert T + {} == T;
    case Keep(t) =>
      var call := PhaseOf(a, t);
      assert touched == {call.key};
      StandsPut(a.slots, capacity, ttl, slot, T, call.key, call.value, a.clock);
    case _ =>
      assert T + {} == T;
  }

  /** What a Keep stored stands behind the keys touched since only, while it is neither expired
      nor replaced and those are fewer than the capacity. */
  lemma {:induction false} PutStands<K(!new), V(!new)>(capacity: nat, ttl: int, inner: (K, int) -> Option<V>,
                                                       h: History<K, V>, k: nat, n: nat, slot: Slot<K, V>)
    requires IsHistory(capacity, ttl, inner, h) && k < n <= |h.steps|
    requires KeepsKey(h, k, slot.key) && LastKept(h, k, n, slot.key)
    requires slot == Slot(slot.key, PhaseOf(h.states[k], h.steps[k].thread).value, h.states[k].clock + ttl)
    requires h.states[n].clock < slot.expiresAt && |Touched(h, k, n, slot.key)| < capacity
    ensures Stands(h.states[n].slots, slot, Touched(h, k, n, slot.key))
  {
    hide Stands, Next, KeepsKey, LastKept, Touched, PhaseOf;
    ClockForward(capacity, ttl, inner, h, k, n);
    ClockForward(capacity, ttl, inner, h, n - 1, n);
    TouchedGrows(h, k, n, slot.key);
    if n == k + 1 {
      StoredFirst(capacity, ttl, inner, h, k, slot);
    } else {
      PutStands(capacity, ttl, inner, h, k, n - 1, slot);
      StandsStep(capacity, ttl, inner, h, n - 1, slot, Touched(h, k, n - 1, slot.key));
    }
  }

  lemma {:induction false} TouchedGrows<K(!new), V(!new)>(h: History<K, V>, k: nat, n: nat, key: K)
    requires k < n <= |h.steps| < |h.states| && LastKept(h, k, n, key)
    ensures n == k + 1 ==> Touched(h, k, n, key) == {}
    ensures n > k + 1 ==>
              Touched(h, k, n, key) == Touched(h, k, n - 1, key) + (TouchedBy(h, n - 1) - {key}) &&
              |Touched(h, k, n - 1, key)| <= |Touched(h, k, n, key)| &&
              LastKept(h, k, n - 1, key) && !KeepsKey(h, n - 1, key)
  {
    hide KeepsKey, TouchedBy;
    if n > k + 1 {
      SubsetCard(Touched(h, k, n - 1, key), Touched(h, k, n, key));
    }
  }

  lemma {:induction false} StoredFirst<K(!new), V(!new)>(capacity: nat, ttl: int, inner: (K, int) -> Option<V>,
                                                         h: History<K, V>, k: nat, slot: Slot<K, V>)
    requires k < |h.steps| < |h.states| && capacity > 0 && ttl > 0
    requires Next(capacity, ttl, inner, h.states[k], h.steps[k], h.states[k + 1]) && KeepsKey(h, k, slot.key)
    requires slot == Slot(slot.key, PhaseOf(h.states[k], h.steps[k].thread).value, h.states[k].clock + ttl)
    ensures Stands(h.states[k + 1].slots, slot, {})
  {
    hide Stands, Without, Take;
    var rest := Without(h.states[k].slots, slot.key);
    StandsFirst(slot, rest, {});
    StandsTake(capacity, [slot] + rest, slot, {});
  }

  /** The other way round: what a call stored is hit for `ttl`, unless the key is put again or
      as many other keys as the cache holds are put or hit in the meantime. */
  lemma {:induction false} LivePutIsHit<K(!new), V(!new)>(capacity: nat, ttl: int, inner: (K, int) -> Option<V>,
                                                          h: History<K, V>, k: nat, n: nat, key: K)
    requires IsHistory(capacity, ttl, inner, h) && k < n <= |h.steps|
    requires KeepsKey(h, k, key) && LastKept(h, k, n, key)
    requires h.states[n].clock < h.states[k].clock + ttl && |Touched(h, k, n, key)| < capacity
    ensures GetSpec(h.states[n].slots, key, h.states[n].clock).1 ==
            Some(PhaseOf(h.states[k], h.steps[k].thread).value)
  {
    hide Stands, Next, Touched, LastKept;
    var slot := Slot(key, PhaseOf(h.states[k], h.steps[k].thread).value, h.states[k].clock + ttl);
    PutStands(capacity, ttl, inner, h, k, n, slot);
    StandsFound(h.states[n].slots, slot, Touched(h, k, n, key));
  }
}
