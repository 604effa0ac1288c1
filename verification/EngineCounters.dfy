/**
 The engine and the admission controller together.

 The completion check reads the controller's counters, which threads change in several steps under other
 locks. Here every step of the engine that touches a lease or an activity is the step of the controller
 that does it, all other steps of the two interleave freely, and the check reads the counters. The relation
 between the leases the engine knows and the controller's is kept by every step, so the theorems about the
 barrier hold of the counters.
 */
module EngineCounters {
  import opened Counting
  import opened Runs
  import A = Admission
  import E = Engine

  datatype Joint = Joint(e: E.System, a: A.Controller)

  // --------------------------------------------------------- the relation

  /** The state under which the controller counts a lease. */
  function Image(x: E.Lease): A.LeaseState {
    match x
    case Opening(_) => A.Opening
    case Held => A.Opening
    case Active(_) => A.Active
    case Drained(_) => A.Draining
    case _ => A.Released
  }

  /** The state a lease on its way back is still counted under, `Released` if there is none. */
  function Was(x: E.Lease): A.LeaseState {
    match x
    case Settling(_) => A.Opening
    case HolderSettling => A.Opening
    case Returning(wasDrained) => if wasDrained then A.Draining else A.Active
    case _ => A.Released
  }

  function OnTheWay(st: A.LeaseState): E.Lease -> int { (x: E.Lease) => if Was(x) == st then 1 else 0 }

  function SettlesActivity(t: A.Thread): int { if t.SettlingActivity? then 1 else 0 }

  function ReturnsCount(x: E.Activity): int { if x.ReturningCount? then 1 else 0 }

  ghost predicate LeasesMatch(al: seq<A.Lease>, el: seq<E.Lease>) {
    |al| == |el| && forall l :: 0 <= l < |el| ==> A.Phase(al[l]) == Image(el[l])
  }

  /** As many threads are settling a lease of each state as leases of that state are on their way. */
  ghost predicate ThreadsMatch(threads: seq<A.Thread>, el: seq<E.Lease>) {
    forall st :: st != A.Released ==> Sum(A.InState(st).thread, threads) == Sum(OnTheWay(st), el)
  }

  ghost predicate ActivitiesMatch(aa: seq<A.ActivityLease>, threads: seq<A.Thread>, ea: seq<E.Activity>) {
    && |aa| == |ea| && (forall k :: 0 <= k < |ea| ==> (aa[k].released <==> ea[k] != E.Busy))
    && Sum(SettlesActivity, threads) == Sum(ReturnsCount, ea)
  }

  ghost predicate Represents(a: A.Controller, c: E.Core) {
    && LeasesMatch(a.leases, c.leases) && ThreadsMatch(a.threads, c.leases)
    && ActivitiesMatch(a.activities, a.threads, c.activities)
  }

  // --------------------------------------------------------- the machine

  ghost predicate Init(j: Joint) { E.Init(j.e) && A.Init(j.a) }

  /** Thread `t` of the controller is free to start a call. */
  predicate Ready(a: A.Controller, t: nat) { t < |a.threads| && a.threads[t] == A.Idle }

  predicate SettlingAs(a: A.Controller, t: nat, st: A.LeaseState) {
    t < |a.threads| && a.threads[t].Settling? && a.threads[t].was == st
  }

  ghost predicate AcquireBoth(j: Joint, j': Joint, i: nat, t: nat) {
    && E.AcquireStep(j.e, j'.e, i) && A.ThreadStep(j.a, j'.a, t)
    && j.a.threads[t].Admitting? && !A.Rejects(j.a.limits, j.a.counters, j.a.threads[t].peer)
  }

  ghost predicate AdoptBoth(j: Joint, j': Joint, i: nat, v: nat, t: nat) {
    && j.e.mutex == E.Free && E.AdoptStep(j.e, j'.e, i, v) && Ready(j.a, t)
    && A.StartActivate(j.a, j'.a, t, j.e.ops[i].lease)
  }

  ghost predicate DropBoth(j: Joint, j': Joint, i: nat, t: nat) {
    E.DropStep(j.e, j'.e, i) && Ready(j.a, t) && A.StartRelease(j.a, j'.a, t, j.e.ops[i].lease)
  }

  ghost predicate DroppedBoth(j: Joint, j': Joint, i: nat, t: nat) {
    E.DroppedStep(j.e, j'.e, i) && SettlingAs(j.a, t, A.Opening) && A.ThreadStep(j.a, j'.a, t)
  }

  ghost predicate HolderDropBoth(j: Joint, j': Joint, l: nat, t: nat) {
    E.HolderDropStep(j.e, j'.e, l) && Ready(j.a, t) && A.StartRelease(j.a, j'.a, t, l)
  }

  ghost predicate HolderDroppedBoth(j: Joint, j': Joint, l: nat, t: nat) {
    E.HolderDroppedStep(j.e, j'.e, l) && SettlingAs(j.a, t, A.Opening) && A.ThreadStep(j.a, j'.a, t)
  }

  ghost predicate RemoveBoth(j: Joint, j': Joint, v: nat, t: nat) {
    && j.e.mutex == E.Free && E.RemoveStep(j.e, j'.e, v) && Ready(j.a, t)
    && A.StartRelease(j.a, j'.a, t, j.e.core.tracked[v])
  }

  ghost predicate ReturnedBoth(j: Joint, j': Joint, t: nat) {
    && E.ReturnedStep(j.e, j'.e) && SettlingAs(j.a, t, Was(j.e.core.leases[j.e.mutex.lease]))
    && A.ThreadStep(j.a, j'.a, t)
  }

  ghost predicate DrainBoth(j: Joint, j': Joint, v: nat, t: nat) {
    && E.DrainOneStep(j.e, j'.e, v) && Ready(j.a, t)
    && A.StartDrain(j.a, j'.a, t, j.e.core.tracked[v])
  }

  ghost predicate AcquireActivityBoth(j: Joint, j': Joint, t: nat) {
    && j.e.mutex == E.Free && E.AcquireActivityStep(j.e, j'.e) && Ready(j.a, t)
    && A.AcquireActivity(j.a, j'.a)
  }

  ghost predicate ActivityDropBoth(j: Joint, j': Joint, k: nat, t: nat) {
    E.ActivityDropStep(j.e, j'.e, k) && Ready(j.a, t) && A.StartActivityRelease(j.a, j'.a, t, k)
  }

  ghost predicate ActivityDroppedBoth(j: Joint, j': Joint, k: nat, t: nat) {
    && E.ActivityDroppedStep(j.e, j'.e, k) && t < |j.a.threads| && j.a.threads[t].SettlingActivity?
    && A.ThreadStep(j.a, j'.a, t)
  }

  /** A step on a lease or an activity, seen by both. */
  ghost predicate BothStep(j: Joint, j': Joint, t: nat) {
    || (exists i :: AcquireBoth(j, j', i, t)) || (exists i, v :: AdoptBoth(j, j', i, v, t))
    || (exists i :: DropBoth(j, j', i, t)) || (exists i :: DroppedBoth(j, j', i, t))
    || (exists l :: HolderDropBoth(j, j', l, t)) || (exists l :: HolderDroppedBoth(j, j', l, t))
    || (exists v :: RemoveBoth(j, j', v, t)) || ReturnedBoth(j, j', t) || (exists v :: DrainBoth(j, j', v, t))
    || AcquireActivityBoth(j, j', t)
    || (exists k :: ActivityDropBoth(j, j', k, t)) || (exists k :: ActivityDroppedBoth(j, j', k, t))
  }

  /** The engine's own business. */
  ghost predicate EngineStep(e: E.System, e': E.System) {
    || (e.mutex == E.Free
        && (|| E.BeginOpStep(e, e') || E.GracefulStep(e, e') || E.RecordErrorStep(e, e')
            || (exists i :: E.EndOpStep(e, e', i)) || (exists v :: E.AddListenerStep(e, e', v))
            || (exists v :: E.RemoveListenerStep(e, e', v)) || (exists k :: E.ActivityCheckStep(e, e', k))
            || (exists why :: E.AbortStep(e, e', why))))
    || E.DrainedStep(e, e')
    || (exists i :: E.HandOverStep(e, e', i)) || (exists i, l :: E.TakeHeld(e, e', i, l))
  }

  /** The controller's own business: threads on their way to a lease, and what follows a change of counters. */
  predicate Unseen(a: A.Controller, t: nat) {
    t < |a.threads| &&
    match a.threads[t]
    case Acquiring(_, _) => true
    case Swapping(_, _, _) => true
    case Admitting(peer, _) => A.Rejects(a.limits, a.counters, peer)
    case GivingBack(_) => true
    case SwappingBack(_, _) => true
    case FinishActivate(_) => true
    case FinishDrain(_) => true
    case _ => false
  }

  ghost predicate ControllerStep(a: A.Controller, a': A.Controller) {
    || A.Arrive(a, a')
    || (exists t, peer, listener :: Ready(a, t) && A.StartAcquire(a, a', t, peer, listener))
    || (exists t :: Unseen(a, t) && A.ThreadStep(a, a', t))
  }

  /** The check, on the counters. */
  ghost predicate CounterCheck(j: Joint, j': Joint) {
    && j.e.mutex == E.Checking && j'.a == j.a
    && j'.e == j.e.WithBook(E.Checked(j.e.core.book, A.Idling(j.a.counters))).(mutex := E.Free, stale := false)
  }

  ghost predicate Next(j: Joint, j': Joint) {
    || CounterCheck(j, j')
    || (j'.a == j.a && EngineStep(j.e, j'.e))
    || (j'.e == j.e && ControllerStep(j.a, j'.a))
    || (exists t :: BothStep(j, j', t))
  }

  ghost predicate Inv(j: Joint) { A.Inv(j.a) && E.Inv(j.e) && Represents(j.a, j.e.core) }

  // --------------------------------------------------------- the check reads the right thing

  lemma {:induction false} NothingOnTheWay(threads: seq<A.Thread>, el: seq<E.Lease>, l: nat)
    requires ThreadsMatch(threads, el) && l < |el| && forall i :: 0 <= i < |threads| ==> !threads[i].Settling?
    ensures Was(el[l]) == A.Released
  {
    var st := Was(el[l]);
    if st != A.Released {
      SumAtLeast(OnTheWay(st), el, l);
      SumZero(A.InState(st).thread, threads);
    }
  }

  lemma {:induction false} NobodySettles(threads: seq<A.Thread>, el: seq<E.Lease>, i: nat)
    requires ThreadsMatch(threads, el) && i < |threads| && forall l :: 0 <= l < |el| ==> Was(el[l]) == A.Released
    ensures threads[i].Settling? ==> threads[i].was == A.Released
  {
    if threads[i].Settling? && threads[i].was != A.Released {
      var st := threads[i].was;
      SumAtLeast(A.InState(st).thread, threads, i);
      SumZero(OnTheWay(st), el);
    }
  }

  lemma {:induction false} ActivitiesBack(a: A.Controller, c: E.Core)
    requires ActivitiesMatch(a.activities, a.threads, c.activities)
    ensures (forall k :: 0 <= k < |c.activities| ==> c.activities[k].Returned? || c.activities[k].Over?) <==>
            && (forall k :: 0 <= k < |a.activities| ==> a.activities[k].released)
            && (forall i :: 0 <= i < |a.threads| ==> !a.threads[i].SettlingActivity?)
  {
    if i :| 0 <= i < |a.threads| && a.threads[i].SettlingActivity? {
      SumAtLeast(SettlesActivity, a.threads, i);
      var k := SumWitness(ReturnsCount, c.activities);
      assert c.activities[k].ReturningCount?;
    } else {
      SumZero(SettlesActivity, a.threads);
      forall k | 0 <= k < |c.activities|
        ensures !c.activities[k].ReturningCount?
      {
        SumAtLeast(ReturnsCount, c.activities, k);
      }
    }
  }

  /** The counters say idle exactly when every lease and activity the engine knows is back. */
  lemma {:induction false} IdleIsCounters(a: A.Controller, c: E.Core)
    requires A.Inv(a) && Represents(a, c)
    ensures A.Idling(a.counters) <==> E.Idle(c)
  {
    ActivitiesBack(a, c);
    if A.Idling(a.counters) {
      A.IdleMeansSettled(a);
      forall l | 0 <= l < |c.leases|
        ensures c.leases[l] == E.Gone
      {
        assert A.LeaseOk(a.leases[l], |a.listeners|);
        NothingOnTheWay(a.threads, c.leases, l);
      }
    } else if E.Idle(c) {
      forall i | 0 <= i < |a.threads|
        ensures !a.threads[i].Settling?
      {
        assert A.ThreadOk(i, a.threads[i], a.leases, a.listeners);
        NobodySettles(a.threads, c.leases, i);
      }
      A.SettledMeansIdle(a);
    }
  }

  // --------------------------------------------------------- the relation is kept

  /** One lease changes on both sides and one thread moves, by as much as the lease on its way. */
  lemma {:induction false} LeaseAndThread(
      al: seq<A.Lease>, al': seq<A.Lease>, el: seq<E.Lease>, threads: seq<A.Thread>, l: nat, x: E.Lease,
      t: nat, to: A.Thread)
    requires LeasesMatch(al, el) && ThreadsMatch(threads, el) && l < |el| && t < |threads|
    requires |al'| == |al| && A.Phase(al'[l]) == Image(x) && forall k :: 0 <= k < |al| && k != l ==> al'[k] == al[k]
    requires forall st :: st != A.Released ==>
               A.InState(st).thread(to) - A.InState(st).thread(threads[t]) == OnTheWay(st)(x) - OnTheWay(st)(el[l])
    ensures LeasesMatch(al', el[l := x]) && ThreadsMatch(threads[t := to], el[l := x])
  {
    forall st | st != A.Released
      ensures Sum(A.InState(st).thread, threads[t := to]) == Sum(OnTheWay(st), el[l := x])
    {
      SumUpdate(A.InState(st).thread, threads, t, to);
      SumUpdate(OnTheWay(st), el, l, x);
    }
  }

  /** A thread that settles no lease moves to where it settles none. */
  lemma {:induction false} ThreadOnly(threads: seq<A.Thread>, el: seq<E.Lease>, t: nat, to: A.Thread)
    requires ThreadsMatch(threads, el) && t < |threads| && !threads[t].Settling? && !to.Settling?
    ensures ThreadsMatch(threads[t := to], el)
  {
    forall st | st != A.Released
      ensures Sum(A.InState(st).thread, threads[t := to]) == Sum(OnTheWay(st), el)
    {
      SumUpdate(A.InState(st).thread, threads, t, to);
    }
  }

  lemma {:induction false} ActivityThread(
      aa: seq<A.ActivityLease>, threads: seq<A.Thread>, ea: seq<E.Activity>, t: nat, to: A.Thread)
    requires ActivitiesMatch(aa, threads, ea) && t < |threads| && SettlesActivity(to) == SettlesActivity(threads[t])
    ensures ActivitiesMatch(aa, threads[t := to], ea)
  {
    SumUpdate(SettlesActivity, threads, t, to);
  }

  lemma {:induction false} AcquireKeeps(j: Joint, j': Joint, i: nat, t: nat)
    requires Represents(j.a, j.e.core) && AcquireBoth(j, j', i, t)
    ensures Represents(j'.a, j'.e.core)
  {
    ThreadOnly(j.a.threads, j.e.core.leases, t, A.Idle);
    ActivityThread(j.a.activities, j.a.threads, j.e.core.activities, t, A.Idle);
    forall st | st != A.Released
      ensures Sum(OnTheWay(st), j'.e.core.leases) == Sum(OnTheWay(st), j.e.core.leases)
    {
      SumAppend(OnTheWay(st), j.e.core.leases, E.Opening(i));
    }
  }

  /** A step of thread `t` that changes lease `l` to `x` for the engine, and no activity. */
  ghost predicate OneLease(j: Joint, j': Joint, l: nat, x: E.Lease, t: nat) {
    && l < |j.e.core.leases| && t < |j.a.threads| && t < |j'.a.threads|
    && j'.e.core.leases == j.e.core.leases[l := x] && j'.e.core.activities == j.e.core.activities
    && j'.a.activities == j.a.activities && j'.a.threads == j.a.threads[t := j'.a.threads[t]]
    && SettlesActivity(j'.a.threads[t]) == SettlesActivity(j.a.threads[t])
    && |j'.a.leases| == |j.a.leases|
        && (forall k :: 0 <= k < |j.a.leases| && k != l ==> j'.a.leases[k] == j.a.leases[k])
  }

  lemma {:induction false} OneLeaseKeeps(j: Joint, j': Joint, l: nat, x: E.Lease, t: nat)
    requires Represents(j.a, j.e.core) && OneLease(j, j', l, x, t) && A.Phase(j'.a.leases[l]) == Image(x)
    requires forall st :: st != A.Released ==>
               A.InState(st).thread(j'.a.threads[t]) - A.InState(st).thread(j.a.threads[t]) ==
               OnTheWay(st)(x) - OnTheWay(st)(j.e.core.leases[l])
    ensures Represents(j'.a, j'.e.core)
  {
    LeaseAndThread(j.a.leases, j'.a.leases, j.e.core.leases, j.a.threads, l, x, t, j'.a.threads[t]);
    ActivityThread(j.a.activities, j.a.threads, j.e.core.activities, t, j'.a.threads[t]);
  }

  lemma {:induction false} AdoptKeeps(j: Joint, j': Joint, i: nat, v: nat, t: nat)
    requires Inv(j) && AdoptBoth(j, j', i, v, t)
    ensures Represents(j'.a, j'.e.core)
  {
    assert E.OpOk(i, j.e.ops[i], j.e.core.leases);
    OneLeaseKeeps(j, j', j.e.ops[i].lease, E.Active(v), t);
  }

  lemma {:induction false} DrainKeeps(j: Joint, j': Joint, v: nat, t: nat)
    requires Inv(j) && DrainBoth(j, j', v, t)
    ensures Represents(j'.a, j'.e.core)
  {
    OneLeaseKeeps(j, j', j.e.core.tracked[v], E.Drained(v), t);
  }

  /** A release begins: the lease is on its way under the state it had. */
  lemma {:induction false} ReleaseKeeps(j: Joint, j': Joint, l: nat, x: E.Lease, t: nat)
    requires Inv(j) && Ready(j.a, t) && A.StartRelease(j.a, j'.a, t, l) && l < |j.e.core.leases|
    requires j'.e.core.leases == j.e.core.leases[l := x] && j'.e.core.activities == j.e.core.activities
    requires Image(x) == A.Released && Was(x) == Image(j.e.core.leases[l])
    ensures Represents(j'.a, j'.e.core)
  {
    assert A.LeaseOk(j.a.leases[l], |j.a.listeners|);
    OneLeaseKeeps(j, j', l, x, t);
  }

  /** And ends: the counters have it. */
  lemma {:induction false} SettleKeeps(j: Joint, j': Joint, l: nat, t: nat)
    requires Inv(j) && l < |j.e.core.leases| && SettlingAs(j.a, t, Was(j.e.core.leases[l]))
        && A.ThreadStep(j.a, j'.a, t)
    requires Was(j.e.core.leases[l]) != A.Released && Image(j.e.core.leases[l]) == A.Released
    requires j'.e.core.leases == j.e.core.leases[l := E.Gone] && j'.e.core.activities == j.e.core.activities
    ensures Represents(j'.a, j'.e.core)
  {
    OneLeaseKeeps(j, j', l, E.Gone, t);
  }

  lemma {:induction false} AcquireActivityKeeps(j: Joint, j': Joint, t: nat)
    requires Inv(j) && AcquireActivityBoth(j, j', t)
    ensures Represents(j'.a, j'.e.core)
  {
    SumAppend(ReturnsCount, j.e.core.activities, E.Busy);
  }

  lemma {:induction false} ActivityDropKeeps(j: Joint, j': Joint, k: nat, t: nat)
    requires Inv(j) && ActivityDropBoth(j, j', k, t)
    ensures Represents(j'.a, j'.e.core)
  {
    ThreadOnly(j.a.threads, j.e.core.leases, t, j'.a.threads[t]);
    SumUpdate(SettlesActivity, j.a.threads, t, j'.a.threads[t]);
    SumUpdate(ReturnsCount, j.e.core.activities, k, E.ReturningCount);
  }

  lemma {:induction false} ActivityDroppedKeeps(j: Joint, j': Joint, k: nat, t: nat)
    requires Inv(j) && ActivityDroppedBoth(j, j', k, t)
    ensures Represents(j'.a, j'.e.core)
  {
    ThreadOnly(j.a.threads, j.e.core.leases, t, j'.a.threads[t]);
    SumUpdate(SettlesActivity, j.a.threads, t, j'.a.threads[t]);
    SumUpdate(ReturnsCount, j.e.core.activities, k, E.Returned);
  }

  /** What the engine does alone leaves every image, and every activity that is out, as it was. */
  lemma {:induction false} EngineKeeps(a: A.Controller, e: E.System, e': E.System)
    requires Represents(a, e.core) && E.Inv(e) && EngineStep(e, e')
    ensures Represents(a, e'.core)
  {
    if i: nat :| E.HandOverStep(e, e', i) {
      assert E.OpOk(i, e.ops[i], e.core.leases);
      SameImage(a, e.core, e'.core, e.ops[i].lease, E.Held);
    } else if i: nat, l: nat :| E.TakeHeld(e, e', i, l) {
      SameImage(a, e.core, e'.core, l, E.Opening(i));
    } else if k: nat :| E.ActivityCheckStep(e, e', k) {
      SumUpdate(ReturnsCount, e.core.activities, k, E.Over);
    } else {
      SectionLeavesLeases(e, e');
    }
  }

  lemma {:induction false} SectionLeavesLeases(e: E.System, e': E.System)
    requires E.DrainedStep(e, e') || E.BeginOpStep(e, e') || E.GracefulStep(e, e') || E.RecordErrorStep(e, e')
             || (exists i :: E.EndOpStep(e, e', i)) || (exists v :: E.AddListenerStep(e, e', v))
             || (exists v :: E.RemoveListenerStep(e, e', v)) || (exists why :: E.AbortStep(e, e', why))
    ensures e'.core.leases == e.core.leases && e'.core.activities == e.core.activities
  {
  }

  lemma {:induction false} SameImage(a: A.Controller, c: E.Core, c': E.Core, l: nat, x: E.Lease)
    requires Represents(a, c) && l < |c.leases| && c' == E.PutLease(c, l, x)
    requires Image(x) == Image(c.leases[l]) && Was(x) == Was(c.leases[l])
    ensures Represents(a, c')
  {
    forall st | st != A.Released
      ensures Sum(OnTheWay(st), c'.leases) == Sum(OnTheWay(st), c.leases)
    {
      SumUpdate(OnTheWay(st), c.leases, l, x);
    }
  }

  lemma {:induction false} ArriveKeeps(a: A.Controller, a': A.Controller, c: E.Core)
    requires Represents(a, c) && A.Arrive(a, a')
    ensures Represents(a', c)
  {
    SumAppend(SettlesActivity, a.threads, A.Idle);
    forall st | st != A.Released
      ensures Sum(A.InState(st).thread, a.threads + [A.Idle]) == Sum(A.InState(st).thread, a.threads)
    {
      SumAppend(A.InState(st).thread, a.threads, A.Idle);
    }
  }

  /** What the controller does alone moves one thread, and no lease to another state. */
  lemma {:induction false} ControllerKeeps(a: A.Controller, a': A.Controller, c: E.Core)
    requires Represents(a, c) && A.Inv(a) && ControllerStep(a, a')
    ensures Represents(a', c)
  {
    if A.Arrive(a, a') {
      ArriveKeeps(a, a', c);
    } else if t: nat, peer, listener :| Ready(a, t) && A.StartAcquire(a, a', t, peer, listener) {
      ThreadOnly(a.threads, c.leases, t, a'.threads[t]);
      ActivityThread(a.activities, a.threads, c.activities, t, a'.threads[t]);
    } else {
      var t: nat :| Unseen(a, t) && A.ThreadStep(a, a', t);
      UnseenKeeps(a, a', c, t);
    }
  }

  lemma {:induction false} UnseenKeeps(a: A.Controller, a': A.Controller, c: E.Core, t: nat)
    requires Represents(a, c) && A.Inv(a) && Unseen(a, t) && A.ThreadStep(a, a', t)
    ensures Represents(a', c)
  {
    ThreadOnly(a.threads, c.leases, t, a'.threads[t]);
    ActivityThread(a.activities, a.threads, c.activities, t, a'.threads[t]);
    if a.threads[t].FinishActivate? || a.threads[t].FinishDrain? {
      assert A.ThreadOk(t, a.threads[t], a.leases, a.listeners);
      assert A.LeaseOk(a.leases[a.threads[t].lease], |a.listeners|);
    }
  }

  /** Either side takes a step of its own machine, or stands still. */
  ghost predicate Projects(j: Joint, j': Joint) {
    (j'.e == j.e || E.Next(j.e, j'.e)) && (j'.a == j.a || A.Next(j.a, j'.a))
  }

  lemma {:induction false} ReleasesKeep(j: Joint, j': Joint, t: nat)
    requires Inv(j)
    requires (exists i :: DropBoth(j, j', i, t)) || (exists l :: HolderDropBoth(j, j', l, t))
    ensures Represents(j'.a, j'.e.core) && E.Next(j.e, j'.e) && A.CallStep(j.a, j'.a, t)
  {
    if i: nat :| DropBoth(j, j', i, t) {
      assert E.OpOk(i, j.e.ops[i], j.e.core.leases) && E.OpLeaseStep(j.e, j'.e, i) && E.OutsideStep(j.e, j'.e);
      ReleaseKeeps(j, j', j.e.ops[i].lease, E.Settling(i), t);
    } else {
      var l: nat :| HolderDropBoth(j, j', l, t);
      assert E.OutsideStep(j.e, j'.e);
      ReleaseKeeps(j, j', l, E.HolderSettling, t);
    }
  }

  lemma {:induction false} RemoveKeeps(j: Joint, j': Joint, v: nat, t: nat)
    requires Inv(j) && RemoveBoth(j, j', v, t)
    ensures Represents(j'.a, j'.e.core) && E.SectionStep(j.e, j'.e) && A.CallStep(j.a, j'.a, t)
  {
    assert E.LinkedSession(j.e.core, v);
    var l := j.e.core.tracked[v];
    ReleaseKeeps(j, j', l, E.Returning(j.e.core.leases[l].Drained?), t);
  }

  lemma {:induction false} SettlementsKeep(j: Joint, j': Joint, t: nat)
    requires Inv(j)
    requires || (exists i :: DroppedBoth(j, j', i, t)) || (exists l :: HolderDroppedBoth(j, j', l, t))
             || ReturnedBoth(j, j', t)
    ensures Represents(j'.a, j'.e.core) && E.Next(j.e, j'.e) && A.ThreadStep(j.a, j'.a, t)
  {
    if i: nat :| DroppedBoth(j, j', i, t) {
      assert E.OpOk(i, j.e.ops[i], j.e.core.leases) && E.OpLeaseStep(j.e, j'.e, i) && E.OutsideStep(j.e, j'.e);
      SettleKeeps(j, j', j.e.ops[i].lease, t);
    } else if l: nat :| HolderDroppedBoth(j, j', l, t) {
      assert E.OutsideStep(j.e, j'.e);
      SettleKeeps(j, j', l, t);
    } else {
      SettleKeeps(j, j', j.e.mutex.lease, t);
    }
  }

  lemma {:induction false} BothKeeps(j: Joint, j': Joint, t: nat)
    requires Inv(j) && BothStep(j, j', t)
    ensures Represents(j'.a, j'.e.core) && E.Next(j.e, j'.e)
    ensures A.CallStep(j.a, j'.a, t) || A.ThreadStep(j.a, j'.a, t)
  {
    if i: nat :| AcquireBoth(j, j', i, t) {
      assert E.OpLeaseStep(j.e, j'.e, i) && E.OutsideStep(j.e, j'.e);
      AcquireKeeps(j, j', i, t);
    } else if i: nat, v: nat :| AdoptBoth(j, j', i, v, t) {
      assert E.SectionStep(j.e, j'.e);
      AdoptKeeps(j, j', i, v, t);
    } else if v: nat :| DrainBoth(j, j', v, t) {
      assert E.HolderOfMutexStep(j.e, j'.e);
      DrainKeeps(j, j', v, t);
    } else if AcquireActivityBoth(j, j', t) {
      AcquireActivityKeeps(j, j', t);
    } else if k: nat :| ActivityDropBoth(j, j', k, t) {
      assert E.OutsideStep(j.e, j'.e);
      ActivityDropKeeps(j, j', k, t);
    } else if k: nat :| ActivityDroppedBoth(j, j', k, t) {
      assert E.OutsideStep(j.e, j'.e);
      ActivityDroppedKeeps(j, j', k, t);
    } else if (exists i :: DroppedBoth(j, j', i, t)) || (exists l :: HolderDroppedBoth(j, j', l, t))
              || ReturnedBoth(j, j', t) {
      SettlementsKeep(j, j', t);
    } else if v: nat :| RemoveBoth(j, j', v, t) {
      RemoveKeeps(j, j', v, t);
    } else {
      ReleasesKeep(j, j', t);
    }
  }

  lemma {:induction false} EngineStepIsNext(e: E.System, e': E.System)
    requires EngineStep(e, e')
    ensures E.Next(e, e')
  {
    if i: nat :| E.HandOverStep(e, e', i) {
      assert E.OpLeaseStep(e, e', i);
    } else if i: nat, l: nat :| E.TakeHeld(e, e', i, l) {
      assert E.OpLeaseStep(e, e', i);
    } else if E.DrainedStep(e, e') {
      assert E.HolderOfMutexStep(e, e');
    } else {
      assert E.SectionStep(e, e');
    }
  }

  lemma {:induction false} ControllerStepIsNext(a: A.Controller, a': A.Controller)
    requires ControllerStep(a, a')
    ensures A.Next(a, a')
  {
    if t: nat, peer, listener :| Ready(a, t) && A.StartAcquire(a, a', t, peer, listener) {
      assert A.CallStep(a, a', t);
    }
  }

  /** Every step is a step of each side or none of it, and keeps the relation; the check is the engine's. */
  lemma {:induction false} StepProjects(j: Joint, j': Joint)
    requires Inv(j) && Next(j, j')
    ensures Projects(j, j') && Represents(j'.a, j'.e.core)
  {
    if CounterCheck(j, j') {
      IdleIsCounters(j.a, j.e.core);
      assert E.CheckStep(j.e, j'.e);
      assert E.HolderOfMutexStep(j.e, j'.e);
    } else if j'.a == j.a && EngineStep(j.e, j'.e) {
      EngineKeeps(j.a, j.e, j'.e);
      EngineStepIsNext(j.e, j'.e);
    } else if j'.e == j.e && ControllerStep(j.a, j'.a) {
      ControllerKeeps(j.a, j'.a, j.e.core);
      ControllerStepIsNext(j.a, j'.a);
    } else {
      var t: nat :| BothStep(j, j', t);
      BothKeeps(j, j', t);
    }
  }

  ghost predicate Forward(j: Joint, j': Joint) { E.Forward(j.e, j'.e) }

  lemma {:induction false} StepKeeps(j: Joint, j': Joint)
    requires Inv(j) && Next(j, j')
    ensures Inv(j') && Forward(j, j')
  {
    StepProjects(j, j');
    if j'.e != j.e {
      E.StepKeeps(j.e, j'.e);
    }
    if j'.a != j.a {
      A.InvIsInductive();
    }
  }

  lemma {:induction false} InvIsInductive()
    ensures Inductive(Init, Next, Inv)
  {
    forall j | Init(j)
      ensures Inv(j)
    {
      E.InvIsInductive();
      A.InvIsInductive();
    }
    forall j, j' | Inv(j) && Next(j, j')
      ensures Inv(j')
    {
      StepKeeps(j, j');
    }
  }

  lemma {:induction false} Reached(j: Joint)
    requires Reachable(Init, Next, j)
    ensures Inv(j)
  {
    InvIsInductive();
    Invariant(Init, Next, Inv, j);
  }

  // --------------------------------------------------------- theorems

  /** The engine's phase never goes back along a run of the two. */
  lemma {:induction false} RunForward(run: seq<Joint>, i: nat, k: nat)
    requires IsRun(Init, Next, run) && i <= k < |run|
    ensures Forward(run[i], run[k])
  {
    InvIsInductive();
    forall j, j' | Inv(j) && Next(j, j')
      ensures Forward(j, j')
    {
      StepKeeps(j, j');
    }
    MonotoneOnRun(Init, Next, Inv, Forward, run, i, k);
  }

  /**
   From the moment `done` is closed, at every later point of every run: the counters are at zero, every
   lease and activity of the controller is released and settled, and no operation, listener or session is left.
   */
  lemma {:induction false} DoneBarrier(run: seq<Joint>, i: nat, k: nat)
    requires IsRun(Init, Next, run) && i <= k < |run| && run[i].e.core.book.closed
    ensures run[k].e.core.book.phase == E.Done && E.Vacant(run[k].e.core.book)
    ensures A.Idling(run[k].a.counters) && A.Settled(run[k].a)
    ensures forall n :: 0 <= n < |run[k].e.ops| ==> run[k].e.ops[n] == E.Ended
  {
    RunForward(run, i, k);
    InvIsInductive();
    InvariantOnRun(Init, Next, Inv, run, k);
    IdleIsCounters(run[k].a, run[k].e.core);
    A.IdleMeansSettled(run[k].a);
    E.NoneUnfinished(run[k].e);
  }

  /**
   With the counters at zero, nothing tracked and no check under way or owed, `done` is closed, except
   exactly when the last thing to come back was a lease of the HTTP connection tracker.
   */
  lemma {:induction false} NoMissedCompletion(j: Joint)
    requires Reachable(Init, Next, j) && j.e.core.book.phase != E.Running && E.Vacant(j.e.core.book)
    requires A.Idling(j.a.counters) && j.e.mutex == E.Free && !E.Pending(j.e.core)
    ensures j.e.core.book.closed <==> !j.e.stale
  {
    Reached(j);
    IdleIsCounters(j.a, j.e.core);
  }

  /** How a lease the engine knows is counted under `st`: it is there, or on its way from there. */
  function CountedAs(st: A.LeaseState): E.Lease -> int {
    (x: E.Lease) => (if Image(x) == st then 1 else 0) + (if Was(x) == st then 1 else 0)
  }

  function ImageIs(st: A.LeaseState): E.Lease -> int { (x: E.Lease) => if Image(x) == st then 1 else 0 }

  lemma {:induction false} SameSum(al: seq<A.Lease>, el: seq<E.Lease>, st: A.LeaseState)
    requires LeasesMatch(al, el)
    ensures Sum(A.InState(st).lease, al) == Sum(ImageIs(st), el)
  {
    if el != [] {
      assert LeasesMatch(al[1..], el[1..]);
      SameSum(al[1..], el[1..], st);
    }
  }

  /** Each counter of the controller is the number of leases the engine counts under that state. */
  lemma {:induction false} CountersAreLeases(j: Joint, st: A.LeaseState)
    requires Reachable(Init, Next, j) && st != A.Released
    ensures A.Counter(j.a.counters, st) == Sum(CountedAs(st), j.e.core.leases)
  {
    Reached(j);
    SameSum(j.a.leases, j.e.core.leases, st);
    SumPlus(ImageIs(st), OnTheWay(st), CountedAs(st), j.e.core.leases);
  }

  /** Once a graceful shutdown has gone through its loop the counter of active connections stays at zero. */
  lemma {:induction false} ActiveStaysZero(j: Joint)
    requires Reachable(Init, Next, j) && j.e.graceful && !j.e.mutex.DrainLoop?
    ensures j.a.counters.active == 0
  {
    Reached(j);
    CountersAreLeases(j, A.Active);
    SumZero(CountedAs(A.Active), j.e.core.leases);
    assert A.Counter(j.a.counters, A.Active) == j.a.counters.active;
  }
}
