/** The pool's mutex and condition variable as interleaved steps: acquiring, blocking, timing
    out, waking spuriously, pushing a resource back and notifying one waiter. */
module PoolMonitor {

  /** A thread inside a pool call; threads outside one are absent. `Notifying` is between the
      push under the mutex and notify_one after it; `Woken` has yet to retake the mutex. */
  datatype Phase = Waiting | Woken(timedOut: bool) | Notifying

  /** `held` maps live leases to their resources. */
  datatype Monitor<R> = Monitor(free: seq<R>, held: map<nat, R>, phases: map<nat, Phase>)

  datatype Step =
    | AcquireAtOnce(thread: nat, lease: nat)
    | Block(thread: nat)
    | TimeOut(thread: nat)
    | WakeSpuriously(thread: nat)
    | AcquireAfterWait(thread: nat, lease: nat)
    | WaitAgain(thread: nat)
    | GiveUp(thread: nat)
    | Push(thread: nat, lease: nat)
    | NotifyWaiter(thread: nat, waiter: nat)
    | NotifyNobody(thread: nat)
    | MoveLease(source: nat, target: nat)

  /** Which resource an acquire takes. */
  function Taken<R>(free: seq<R>): R
    requires free != []
  {
    free[|free| - 1]
  }

  function Rest<R>(free: seq<R>): seq<R>
    requires free != []
  {
    free[..|free| - 1]
  }

  /** What a release makes of the free list. */
  function Returned<R(==)>(free: seq<R>, resource: R): seq<R> {
    if resource in free then free else free + [resource]
  }

  function Pop<R>(m: Monitor<R>, lease: nat): Monitor<R>
    requires m.free != []
  {
    m.(free := Rest(m.free), held := m.held[lease := Taken(m.free)])
  }

  ghost predicate Next<R>(a: Monitor<R>, step: Step, b: Monitor<R>) {
    match step
    case AcquireAtOnce(t, lease) =>
      t !in a.phases && a.free != [] && lease !in a.held && b == Pop(a, lease)
    case Block(t) =>
      t !in a.phases && a.free == [] && b == a.(phases := a.phases[t := Waiting])
    case TimeOut(t) =>
      t in a.phases && a.phases[t] == Waiting && b == a.(phases := a.phases[t := Woken(true)])
    case WakeSpuriously(t) =>
      t in a.phases && a.phases[t] == Waiting && b == a.(phases := a.phases[t := Woken(false)])
    case AcquireAfterWait(t, lease) =>
      t in a.phases && a.phases[t].Woken? && a.free != [] && lease !in a.held &&
        b == Pop(a, lease).(phases := a.phases - {t})
    case WaitAgain(t) =>
      t in a.phases && a.phases[t] == Woken(false) && a.free == [] && b == a.(phases := a.phases[t := Waiting])
    case GiveUp(t) =>
      t in a.phases && a.phases[t] == Woken(true) && a.free == [] && b == a.(phases := a.phases - {t})
    case Push(t, lease) =>
      t !in a.phases && lease in a.held &&
      b == Monitor(Returned(a.free, a.held[lease]), a.held - {lease}, a.phases[t := Notifying])
    case NotifyWaiter(t, w) =>
      t in a.phases && a.phases[t] == Notifying && w in a.phases && a.phases[w] == Waiting &&
      b == a.(phases := (a.phases - {t})[w := Woken(false)])
    case NotifyNobody(t) =>
      t in a.phases && a.phases[t] == Notifying && Waiters(a) == {} && b == a.(phases := a.phases - {t})
    case MoveLease(source, target) =>
      source in a.held && (target == source || target !in a.held) &&
      b == a.(held := (a.held - {source})[target := a.held[source]])
  }

  ghost function Waiters<R>(m: Monitor<R>): set<nat> {
    set t | t in m.phases && m.phases[t] == Waiting
  }

  ghost function WokenThreads<R>(m: Monitor<R>): set<nat> {
    set t | t in m.phases && m.phases[t].Woken?
  }

  ghost function PendingNotifiers<R>(m: Monitor<R>): set<nat> {
    set t | t in m.phases && m.phases[t] == Notifying
  }

  // ----- ownership -----------------------------------------------------------------------------

  /** Free and held resources are disjoint, duplicate-free and together the whole pool. */
  ghost predicate Partition<R(!new)>(all: set<R>, m: Monitor<R>) {
    && (forall i, j :: 0 <= i < j < |m.free| ==> m.free[i] != m.free[j])
    && (forall r :: r in m.free ==> r in all)
    && (forall l :: l in m.held ==> m.held[l] in all && m.held[l] !in m.free)
    && (forall l, k :: l in m.held && k in m.held && l != k ==> m.held[l] != m.held[k])
    && (forall r :: r in all ==> r in m.free || exists l :: l in m.held && m.held[l] == r)
  }

  lemma {:induction false} PopPartition<R(!new)>(all: set<R>, m: Monitor<R>, lease: nat)
    requires Partition(all, m) && m.free != [] && lease !in m.held
    ensures Partition(all, Pop(m, lease))
  {
    var b := Pop(m, lease);
    var r := m.free[|m.free| - 1];
    assert m.free == b.free + [r];
    forall x | x in all ensures x in b.free || exists l :: l in b.held && b.held[l] == x {
      if x == r {
        assert b.held[lease] == x;
      } else if x !in b.free {
        var l :| l in m.held && m.held[l] == x;
        assert l in b.held && b.held[l] == x;
      }
    }
  }

  lemma {:induction false} PushPartition<R(!new)>(all: set<R>, m: Monitor<R>, lease: nat)
    requires Partition(all, m) && lease in m.held
    ensures m.held[lease] !in m.free
    ensures Partition(all, m.(free := m.free + [m.held[lease]], held := m.held - {lease}))
  {
    var b := m.(free := m.free + [m.held[lease]], held := m.held - {lease});
    forall x | x in all ensures x in b.free || exists l :: l in b.held && b.held[l] == x {
      if x !in b.free {
        var l :| l in m.held && m.held[l] == x;
        assert l in b.held && b.held[l] == x;
      }
    }
  }

  lemma {:induction false} MovePartition<R(!new)>(all: set<R>, m: Monitor<R>, source: nat, target: nat)
    requires Partition(all, m) && source in m.held && (target == source || target !in m.held)
    ensures Partition(all, m.(held := (m.held - {source})[target := m.held[source]]))
  {
    var b := m.(held := (m.held - {source})[target := m.held[source]]);
    forall x | x in all ensures x in b.free || exists l :: l in b.held && b.held[l] == x {
      if x !in b.free {
        var l :| l in m.held && m.held[l] == x;
        var k := if l == source then target else l;
        assert k in b.held && b.held[k] == x;
      }
    }
  }

  // ----- no lost wake-up -------------------------------------------------------------------------

  /** The threads that will still look at the pool or tell a waiter to. */
  ghost function Coverage<R>(m: Monitor<R>): nat {
    |PendingNotifiers(m)| + |WokenThreads(m)|
  }

  /** While anyone is blocked, every free resource is spoken for by a notification still to
      come or by a woken thread that has yet to look. */
  ghost predicate NoLostWakeup<R>(m: Monitor<R>) {
    Waiters(m) != {} ==> |m.free| <= Coverage(m)
  }

  ghost predicate Inv<R(!new)>(all: set<R>, m: Monitor<R>) {
    Partition(all, m) && NoLostWakeup(m)
  }

  lemma {:induction false} StepPartition<R(!new)>(all: set<R>, a: Monitor<R>, step: Step, b: Monitor<R>)
    requires Partition(all, a) && Next(a, step, b)
    ensures Partition(all, b)
    ensures step.Push? ==> a.held[step.lease] !in a.free
  {
    hide Partition;
    match step
    case AcquireAtOnce(t, lease) => PopPartition(all, a, lease);
    case AcquireAfterWait(t, lease) =>
      PopPartition(all, a, lease);
      PhasesIrrelevant(all, Pop(a, lease), b);
    case Push(t, lease) =>
      PushPartition(all, a, lease);
      PhasesIrrelevant(all, a.(free := a.free + [a.held[lease]], held := a.held - {lease}), b);
    case MoveLease(source, target) => MovePartition(all, a, source, target);
    case _ => PhasesIrrelevant(all, a, b);
  }

  lemma {:induction false} PhasesIrrelevant<R(!new)>(all: set<R>, a: Monitor<R>, b: Monitor<R>)
    requires Partition(all, a) && a.free == b.free && a.held == b.held
    ensures Partition(all, b)
  {
  }

  lemma {:induction false} StartNotifying<R>(a: Monitor<R>, t: nat, b: Monitor<R>)
    requires t !in a.phases && b.phases == a.phases[t := Notifying]
    ensures Coverage(b) == Coverage(a) + 1 && Waiters(b) == Waiters(a)
  {
    assert PendingNotifiers(b) == PendingNotifiers(a) + {t};
    assert WokenThreads(b) == WokenThreads(a);
  }

  lemma {:induction false} Wake<R>(a: Monitor<R>, t: nat, timedOut: bool, b: Monitor<R>)
    requires t in a.phases && a.phases[t] == Waiting && b.phases == a.phases[t := Woken(timedOut)]
    ensures Coverage(b) == Coverage(a) + 1 && Waiters(a) != {}
  {
    assert t in Waiters(a);
    assert PendingNotifiers(b) == PendingNotifiers(a);
    assert WokenThreads(b) == WokenThreads(a) + {t};
  }

  lemma {:induction false} Leave<R>(a: Monitor<R>, t: nat, b: Monitor<R>)
    requires t in a.phases && a.phases[t] != Waiting && b.phases == a.phases - {t}
    ensures Coverage(b) == Coverage(a) - 1 && Waiters(b) == Waiters(a)
  {
    assert Waiters(b) == Waiters(a);
    if a.phases[t] == Notifying {
      assert PendingNotifiers(b) == PendingNotifiers(a) - {t};
      assert WokenThreads(b) == WokenThreads(a);
    } else {
      assert PendingNotifiers(b) == PendingNotifiers(a);
      assert WokenThreads(b) == WokenThreads(a) - {t};
    }
  }

  lemma {:induction false} StepWakeup<R>(a: Monitor<R>, step: Step, b: Monitor<R>)
    requires NoLostWakeup(a) && Next(a, step, b)
    ensures NoLostWakeup(b)
  {
    hide Waiters, WokenThreads, PendingNotifiers, Coverage;
    match step
    case AcquireAtOnce(t, lease) => SamePhases(a, b);
    case MoveLease(source, target) => SamePhases(a, b);
    case TimeOut(t) => Wake(a, t, true, b);
    case WakeSpuriously(t) => Wake(a, t, false, b);
    case AcquireAfterWait(t, lease) => Leave(a, t, b);
    case Push(t, lease) => StartNotifying(a, t, b);
    case NotifyWaiter(t, w) =>
      var between := a.(phases := a.phases - {t});
      Leave(a, t, between);
      Wake(between, w, false, b);
    case NotifyNobody(t) => Leave(a, t, b);
    case _ =>
  }

  lemma {:induction false} SamePhases<R>(a: Monitor<R>, b: Monitor<R>)
    requires a.phases == b.phases
    ensures Waiters(a) == Waiters(b) && Coverage(a) == Coverage(b)
  {
  }

  ghost predicate Init<R(!new)>(all: set<R>, m: Monitor<R>) {
    Partition(all, m) && m.held == map[] && m.phases == map[]
  }

  /** Both hold in every reachable state, whatever the interleaving. */
  lemma {:induction false} InvAlways<R(!new)>(all: set<R>, states: seq<Monitor<R>>, steps: seq<Step>)
    requires |states| == |steps| + 1 && Init(all, states[0])
    requires forall i :: 0 <= i < |steps| ==> Next(states[i], steps[i], states[i + 1])
    ensures Inv(all, states[|steps|])
  {
    hide Next, NoLostWakeup, Partition;
    if steps == [] {
      NobodyWaits(states[0]);
    } else {
      var n := |steps| - 1;
      InvAlways(all, states[..n + 1], steps[..n]);
      StepPartition(all, states[n], steps[n], states[n + 1]);
      StepWakeup(states[n], steps[n], states[n + 1]);
    }
  }

  lemma {:induction false} NobodyWaits<R>(m: Monitor<R>)
    requires m.phases == map[]
    ensures NoLostWakeup(m)
  {
    assert Waiters(m) == {};
  }

  /** The guard against double release never fires: what a live lease gives back is not free. */
  lemma {:induction false} GuardNeverFires<R(!new)>(all: set<R>, states: seq<Monitor<R>>, steps: seq<Step>, n: nat)
    requires |states| == |steps| + 1 && Init(all, states[0])
    requires forall i :: 0 <= i < |steps| ==> Next(states[i], steps[i], states[i + 1])
    requires n < |steps| && steps[n].Push?
    ensures steps[n].lease in states[n].held
    ensures states[n + 1].free == states[n].free + [states[n].held[steps[n].lease]]
  {
    InvAlways(all, states[..n + 1], steps[..n]);
    StepPartition(all, states[n], steps[n], states[n + 1]);
  }

  /** Every resource is held by some lease. */
  ghost predicate AllHeld<R(!new)>(all: set<R>, m: Monitor<R>) {
    forall r :: r in all ==> exists l :: l in m.held && m.held[l] == r
  }

  /** Once every notification is delivered and every woken thread has looked, a thread that
      is still blocked has nothing to take; and whenever a call gives up, every resource of
      the pool is held by a live lease at that instant. */
  lemma {:induction false} QuietMeansEmpty<R(!new)>(all: set<R>, states: seq<Monitor<R>>, steps: seq<Step>)
    requires |states| == |steps| + 1 && Init(all, states[0])
    requires forall i :: 0 <= i < |steps| ==> Next(states[i], steps[i], states[i + 1])
    ensures var m := states[|steps|];
            Waiters(m) != {} && PendingNotifiers(m) == {} && WokenThreads(m) == {} ==>
              m.free == [] && AllHeld(all, m)
    ensures forall i :: 0 <= i < |steps| && steps[i].GiveUp? ==> states[i].free == [] && AllHeld(all, states[i])
  {
    hide AllHeld;
    InvAlways(all, states, steps);
    var m := states[|steps|];
    if m.free == [] { NoneFree(all, m); }
    forall i | 0 <= i < |steps| && steps[i].GiveUp? ensures states[i].free == [] && AllHeld(all, states[i]) {
      assert Next(states[i], steps[i], states[i + 1]);
      InvAlways(all, states[..i + 1], steps[..i]);
      NoneFree(all, states[i]);
    }
  }

  lemma {:induction false} NoneFree<R(!new)>(all: set<R>, m: Monitor<R>)
    requires Partition(all, m) && m.free == []
    ensures AllHeld(all, m)
  {
  }
}
