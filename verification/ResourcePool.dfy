/** The resource pool and its move-only leases, as objects. Each method is one critical
    section or one lease operation; PoolMonitor has the waiting and waking between them. */
module ResourcePool {
  import opened Options
  import opened Orders
  import opened PoolMonitor

  lemma {:induction false} NoDupSplit<T>(s: seq<T>)
    requires NoDup(s) && s != []
    ensures NoDup(s[..|s| - 1]) && s[|s| - 1] !in s[..|s| - 1]
    ensures forall x :: x in s <==> x in s[..|s| - 1] || x == s[|s| - 1]
  {
    assert s == s[..|s| - 1] + [s[|s| - 1]];
  }

  class Pool<T(==, !new)> {
    const resources: seq<T>
    var available: seq<T>
    /** The live leases that Acquire handed out, through every move since. */
    ghost var leases: set<Lease<T>>

    /** Free and leased resources are disjoint, duplicate-free and together the whole pool. */
    ghost predicate Valid()
      reads this, leases
    {
      && NoDup(resources) && NoDup(available)
      && (forall r :: r in available ==> r in resources)
      && (forall l :: l in leases ==> l.pool == this && l.resource.Some?
                                      && l.resource.value in resources && l.resource.value !in available)
      && (forall l, m :: l in leases && m in leases && l != m ==> l.resource.value != m.resource.value)
      && (forall r :: r in resources ==> r in available || exists l :: l in leases && l.resource == Some(r))
    }

    /** `made` is what the factory returned, one owned object per slot. */
    constructor (made: seq<T>)
      requires made != [] && NoDup(made)
      ensures Valid() && resources == made && available == made && leases == {}
    {
      resources, available, leases := made, made, {};
    }

    /** Acquire once wait_for has returned with the mutex held: empty exactly when the pool
        is empty at this instant, otherwise the most recently returned resource. */
    method TakeAfterWait() returns (lease: Lease?<T>)
      requires Valid()
      modifies this
      ensures Valid()
      ensures lease == null <==> old(available) == []
      ensures lease == null ==> available == old(available) && leases == old(leases)
      ensures lease != null ==>
                && fresh(lease) && lease.pool == this && leases == old(leases) + {lease}
                && lease.resource == Some(Taken(old(available))) && available == Rest(old(available))
    {
      if available == [] {
        return null;
      }
      NoDupSplit(available);
      var resource := available[|available| - 1];
      available := available[..|available| - 1];
      var l := new Lease(this, Some(resource));
      leases := leases + {l};
      lease := l;
      assert forall m :: m in leases && m != l ==>
               m in old(leases) && m.pool == old(m.pool) && m.resource == old(m.resource);
      forall r | r in resources ensures r in available || exists m :: m in leases && m.resource == Some(r) {
        if r == resource {
          assert l in leases && l.resource == Some(r);
        } else if r !in available {
          var m :| m in old(leases) && old(m.resource) == Some(r);
          assert m in leases && m.resource == Some(r);
        }
      }
    }

    /** Release: the resource is free afterwards, beside those that were; it is not listed a
        second time, and what was free keeps its place. */
    method Return(resource: T)
      modifies this`available
      ensures forall r :: r in available <==> r in old(available) || r == resource
      ensures NoDup(old(available)) ==> NoDup(available)
      ensures old(available) <= available
      ensures |available| == |old(available)| + if resource in old(available) then 0 else 1
    {
      if resource !in available {
        available := available + [resource];
      }
    }
  }

  class Lease<T(==, !new)> {
    var pool: Pool?<T>
    var resource: Option<T>

    constructor (pool: Pool?<T>, resource: Option<T>)
      ensures this.pool == pool && this.resource == resource
    {
      this.pool, this.resource := pool, resource;
    }

    /** Empty, or one of its pool's live leases. */
    ghost predicate Owned()
      reads this, pool, if pool != null then pool.leases else {}
    {
      if pool == null then resource == None
      else this in pool.leases && pool.Valid()
    }

    /** Lease::Release into its pool p. The duplicate guard there is never needed. */
    method ReleaseTo(p: Pool<T>)
      requires pool == p && this in p.leases && p.Valid()
      modifies this, p
      ensures pool == null && resource == None
      ensures p.Valid() && p.leases == old(p.leases) - {this}
      ensures p.available == old(p.available) + [old(resource.value)]
    {
      var r := resource.value;
      p.Return(r);
      assert p.available == old(p.available) + [r] by {
        assert p.available == old(p.available) + [p.available[|old(p.available)|]];
      }
      p.leases := p.leases - {this};
      pool, resource := null, None;
      forall x | x in p.resources ensures x in p.available || exists l :: l in p.leases && l.resource == Some(x) {
        if x !in old(p.available) && x != r {
          var l :| l in old(p.leases) && old(l.resource) == Some(x);
          assert l in p.leases && l.resource == Some(x);
        }
      }
    }

    /** ~Lease and the public Release: an empty lease gives nothing back. */
    method Release()
      requires Owned()
      modifies this, pool
      ensures pool == null && resource == None
      ensures old(pool) != null ==>
                && old(pool).Valid() && old(pool).leases == old(pool.leases) - {this}
                && old(pool).available == old(pool.available) + [old(resource.value)]
    {
      if pool != null {
        ReleaseTo(pool);
      }
    }

    /** Hand pool p's lease `other` over to this empty lease: the pool now counts this one. */
    method TakeOver(other: Lease<T>, p: Pool<T>)
      requires pool == null && resource == None && this != other && this !in p.leases
      requires other.pool == p && other in p.leases && p.Valid()
      modifies this, other, p`leases
      ensures pool == p && resource == old(other.resource) && resource.Some? && other.pool == null &&
              other.resource == None
      ensures p.Valid() && p.leases == old(p.leases) - {other} + {this}
    {
      pool, resource := p, other.resource;
      other.pool, other.resource := null, None;
      p.leases := p.leases - {other} + {this};
      forall x | x in p.resources ensures x in p.available || exists l :: l in p.leases && l.resource == Some(x) {
        if x !in p.available {
          var l :| l in old(p.leases) && old(l.resource) == Some(x);
          var m := if l == other then this else l;
          assert m in p.leases && m.resource == Some(x);
        }
      }
    }

    /** Move construction: the source is left empty. */
    constructor MoveFrom(other: Lease<T>)
      requires other.Owned()
      modifies other, other.pool
      ensures Owned() && other.Owned() && other.pool == null
      ensures pool == old(other.pool) && resource == old(other.resource)
      ensures pool != null ==>
                pool.available == old(other.pool.available) && pool.leases == old(other.pool.leases) - {other} + {this}
    {
      pool, resource := null, None;
      new;
      if other.pool != null {
        TakeOver(other, other.pool);
      }
    }

    /** Move assignment: self-assignment changes nothing; otherwise the old resource goes back
        first and the source is left empty. The two leases may belong to different pools. */
    method Assign(other: Lease<T>)
      requires Owned() && other.Owned()
      modifies this, other, pool, other.pool
      ensures Owned() && other.Owned()
      ensures this == other ==> pool == old(pool) && resource == old(resource)
                                && (pool != null ==>
                                      pool.available == old(pool.available) && pool.leases == old(pool.leases))
      ensures this != other ==> pool == old(other.pool) && resource == old(other.resource) && other.pool == null
      ensures this != other && old(pool) != null ==>
                && old(pool).Valid() && old(pool).available == old(pool.available) + [old(resource.value)]
                && old(pool).leases == old(pool.leases) - {if old(other.pool) == old(pool) then other else this}
      ensures this != other && old(other.pool) != null && old(other.pool) != old(pool) ==>
                && old(other.pool).Valid() && old(other.pool).available == old(other.pool.available)
                && old(other.pool).leases == old(other.pool.leases) - {other} + {this}
    {
      if this != other {
        ghost var q := other.pool;
        assert q != null && q != pool ==> this !in q.leases;
        Release();
        assert other.pool == q && other.resource == old(other.resource);
        assert q != null ==> q.Valid() && other in q.leases && this !in q.leases;
        if other.pool != null {
          TakeOver(other, other.pool);
        }
      }
    }
  }
}
