/** The pool objects take the steps of the monitor: numbering the live leases turns a pool into
    a monitor state, and taking, giving up, releasing and moving are the steps of that name. */
module PoolRefinement {
  import opened Options
  import opened Orders
  import opened PoolMonitor
  import opened ResourcePool

  /** One number for each lease. */
  ghost predicate Numbers<T(!new)>(leases: set<Lease<T>>, ids: map<nat, Lease<T>>) {
    && ids.Values == leases
    && (forall id, other :: id in ids && other in ids && id != other ==> ids[id] != ids[other])
  }

  lemma {:induction false} NumberOne<T(!new)>(leases: set<Lease<T>>, ids: map<nat, Lease<T>>, id: nat, lease: Lease<T>)
    requires Numbers(leases, ids) && id !in ids && lease !in leases
    ensures Numbers(leases + {lease}, ids[id := lease])
  {
    var after := ids[id := lease];
    assert forall i :: i in ids ==> ids[i] in ids.Values;
    assert after.Values == leases + {lease} by {
      forall l | l in leases ensures l in after.Values {
        var i :| i in ids && ids[i] == l;
        assert after[i] == l;
      }
      assert after[id] == lease;
    }
  }

  lemma {:induction false} ForgetOne<T(!new)>(leases: set<Lease<T>>, ids: map<nat, Lease<T>>, id: nat)
    requires Numbers(leases, ids) && id in ids
    ensures Numbers(leases - {ids[id]}, ids - {id})
  {
    var after := ids - {id};
    assert after.Values == leases - {ids[id]} by {
      forall l | l in leases && l != ids[id] ensures l in after.Values {
        var i :| i in ids && ids[i] == l;
        assert after[i] == l;
      }
      assert forall i :: i in after ==> after[i] == ids[i] && ids[i] in ids.Values;
    }
  }

  ghost function Held<T(!new)>(ids: map<nat, Lease<T>>): map<nat, T>
    requires forall id :: id in ids ==> ids[id].resource.Some?
    reads ids.Values
  {
    map id | id in ids :: ids[id].resource.value
  }

  ghost predicate Numbered<T(!new)>(p: Pool<T>, ids: map<nat, Lease<T>>)
    reads p, p.leases
  {
    p.Valid() && Numbers(p.leases, ids)
  }

  ghost function View<T(!new)>(p: Pool<T>, ids: map<nat, Lease<T>>, phases: map<nat, Phase>): Monitor<T>
    requires Numbered(p, ids)
    reads p, p.leases
  {
    assert forall id :: id in ids ==> ids[id] in ids.Values;
    Monitor(p.available, Held(ids), phases)
  }

  lemma {:induction false} NumberedLease<T(!new)>(p: Pool<T>, ids: map<nat, Lease<T>>, id: nat)
    requires Numbered(p, ids) && id in ids
    ensures ids[id] in p.leases && ids[id].pool == p
  {
    assert ids[id] in ids.Values;
  }

  /** A consistent pool is a partitioned monitor state. */
  lemma {:induction false} ViewPartition<T(!new)>(p: Pool<T>, ids: map<nat, Lease<T>>, phases: map<nat, Phase>)
    requires Numbered(p, ids)
    ensures Partition(Elems(p.resources), View(p, ids, phases))
  {
    var m := View(p, ids, phases);
    assert forall id :: id in ids ==> ids[id] in p.leases by {
      assert forall id :: id in ids ==> ids[id] in ids.Values;
    }
    forall r | r in p.resources ensures r in m.free || exists id :: id in m.held && m.held[id] == r {
      if r !in m.free {
        var l :| l in p.leases && l.resource == Some(r);
        var id :| id in ids && ids[id] == l;
        assert id in m.held && m.held[id] == r;
      }
    }
  }

  lemma {:induction false} NextAcquire<R>(a: Monitor<R>, thread: nat, id: nat, b: Monitor<R>)
    requires thread !in a.phases && a.free != [] && id !in a.held
    requires b.free == Rest(a.free) && b.held == a.held[id := Taken(a.free)] && b.phases == a.phases
    ensures Next(a, AcquireAtOnce(thread, id), b)
  {
  }

  lemma {:induction false} NextPush<R>(a: Monitor<R>, thread: nat, id: nat, b: Monitor<R>)
    requires thread !in a.phases && id in a.held
    requires b.free == Returned(a.free, a.held[id]) && b.held == a.held - {id}
    requires b.phases == a.phases[thread := Notifying]
    ensures Next(a, Push(thread, id), b)
  {
  }

  lemma {:induction false} NextMove<R>(a: Monitor<R>, from: nat, to: nat, b: Monitor<R>)
    requires from in a.held && (to == from || to !in a.held)
    requires b.free == a.free && b.held == (a.held - {from})[to := a.held[from]] && b.phases == a.phases
    ensures Next(a, MoveLease(from, to), b)
  {
  }

  lemma {:induction false} NextAfterWait<R>(a: Monitor<R>, thread: nat, id: nat, b: Monitor<R>)
    requires thread in a.phases && a.phases[thread].Woken? && a.free != [] && id !in a.held
    requires b.free == Rest(a.free) && b.held == a.held[id := Taken(a.free)] && b.phases == a.phases - {thread}
    ensures Next(a, AcquireAfterWait(thread, id), b)
  {
  }

  /** What a thread that finds the pool empty does: block, wait again, or give up if its time is over. */
  function EmptyStep(phases: map<nat, Phase>, thread: nat): Step {
    if thread !in phases then Block(thread)
    else if phases[thread] == Woken(true) then GiveUp(thread)
    else WaitAgain(thread)
  }

  function EmptyPhases(phases: map<nat, Phase>, thread: nat): map<nat, Phase> {
    if thread in phases && phases[thread] == Woken(true) then phases - {thread} else phases[thread := Waiting]
  }

  lemma {:induction false} NextEmpty<R>(a: Monitor<R>, thread: nat, b: Monitor<R>)
    requires a.free == [] && (thread in a.phases ==> a.phases[thread].Woken?)
    requires b == a.(phases := EmptyPhases(a.phases, thread))
    ensures Next(a, EmptyStep(a.phases, thread), b)
  {
  }

  /** A call's first look at the pool is the monitor's acquire, or its block on an empty pool. */
  method TakeStep<T(!new)>(p: Pool<T>, ghost ids: map<nat, Lease<T>>, ghost phases: map<nat, Phase>,
                           ghost thread: nat, ghost id: nat)
    returns (lease: Lease?<T>)
    requires Numbered(p, ids) && thread !in phases && id !in ids
    modifies p
    ensures lease == null ==>
              Numbered(p, ids) &&
              Next(old(View(p, ids, phases)), Block(thread), View(p, ids, phases[thread := Waiting]))
    ensures lease != null ==>
              Numbered(p, ids[id := lease]) &&
              Next(old(View(p, ids, phases)), AcquireAtOnce(thread, id), View(p, ids[id := lease], phases))
  {
    hide Next, Numbers;
    lease := p.TakeAfterWait();
    if lease != null {
      NumberOne(old(p.leases), ids, id, lease);
      NextAcquire(old(View(p, ids, phases)), thread, id, View(p, ids[id := lease], phases));
    } else {
      NextEmpty(old(View(p, ids, phases)), thread, View(p, ids, phases[thread := Waiting]));
    }
  }

  /** A woken call's look is the monitor's acquire after a wait; on an empty pool it waits
      again, or gives up if its time is over. */
  method WokenStep<T(!new)>(p: Pool<T>, ghost ids: map<nat, Lease<T>>, ghost phases: map<nat, Phase>,
                            ghost thread: nat, ghost id: nat)
    returns (lease: Lease?<T>)
    requires Numbered(p, ids) && thread in phases && phases[thread].Woken? && id !in ids
    modifies p
    ensures lease == null && phases[thread].timedOut ==>
              Numbered(p, ids) && Next(old(View(p, ids, phases)), GiveUp(thread), View(p, ids, phases - {thread}))
    ensures lease == null && !phases[thread].timedOut ==>
              Numbered(p, ids) &&
              Next(old(View(p, ids, phases)), WaitAgain(thread), View(p, ids, phases[thread := Waiting]))
    ensures lease != null ==>
              Numbered(p, ids[id := lease]) &&
              Next(old(View(p, ids, phases)), AcquireAfterWait(thread, id),
                   View(p, ids[id := lease], phases - {thread}))
  {
    hide Next, Numbers;
    lease := p.TakeAfterWait();
    if lease != null {
      NumberOne(old(p.leases), ids, id, lease);
      NextAfterWait(old(View(p, ids, phases)), thread, id, View(p, ids[id := lease], phases - {thread}));
    } else {
      NextEmpty(old(View(p, ids, phases)), thread, View(p, ids, EmptyPhases(phases, thread)));
    }
  }

  /** Releasing a lease is the monitor's push. */
  method ReleaseStep<T(!new)>(lease: Lease<T>, p: Pool<T>, ghost ids: map<nat, Lease<T>>,
                              ghost phases: map<nat, Phase>, ghost thread: nat, ghost id: nat)
    requires Numbered(p, ids) && thread !in phases && id in ids && ids[id] == lease
    modifies lease, p
    ensures Numbered(p, ids - {id})
    ensures Next(old(View(p, ids, phases)), Push(thread, id), View(p, ids - {id}, phases[thread := Notifying]))
  {
    hide Next, Numbers;
    NumberedLease(p, ids, id);
    lease.ReleaseTo(p);
    ForgetOne(old(p.leases), ids, id);
    NextPush(old(View(p, ids, phases)), thread, id, View(p, ids - {id}, phases[thread := Notifying]));
  }

  /** Handing a lease over is the monitor's move. */
  method MoveStep<T(!new)>(target: Lease<T>, source: Lease<T>, p: Pool<T>, ghost ids: map<nat, Lease<T>>,
                           ghost phases: map<nat, Phase>, ghost from: nat, ghost to: nat)
    requires Numbered(p, ids) && from in ids && ids[from] == source && (to == from || to !in ids)
    requires target.pool == null && target.resource == None && target !in p.leases && target != source
    modifies target, source, p`leases
    ensures Numbered(p, (ids - {from})[to := target])
    ensures Next(old(View(p, ids, phases)), MoveLease(from, to), View(p, (ids - {from})[to := target], phases))
  {
    hide Next, Numbers;
    NumberedLease(p, ids, from);
    target.TakeOver(source, p);
    ForgetOne(old(p.leases), ids, from);
    NumberOne(old(p.leases) - {source}, ids - {from}, to, target);
    NextMove(old(View(p, ids, phases)), from, to, View(p, (ids - {from})[to := target], phases));
  }
}
