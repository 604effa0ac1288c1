/**
 Every run of the engine is a run of the engine and the admission controller together.

 `EngineCounters` shows that the joint steps are steps of the engine. Here, the other way round, every
 step of the engine is matched by steps of the controller, with limits that refuse nothing, so what the
 engine model can reach the two can reach together.
 */
module EngineMatching {
  import opened Bytes
  import opened Counting
  import opened Runs
  import opened EngineCounters

  const UNLIMITED := A.Limits(0, 0, 0, 0)

  ghost predicate Unlimited(j: Joint) { Init(j) && j.a.limits == UNLIMITED }

  /** Steps of the two lead from `j`, which is reachable, to `k`. */
  ghost predicate Leads(j: Joint, k: Joint) {
    Reachable(Unlimited, Next, j) && Reachable((x: Joint) => x == j, Next, k)
  }

  ghost predicate Good(j: Joint) { Inv(j) && A.LocksHeld(j.a) && j.a.limits == UNLIMITED }

  lemma {:induction false} LimitsStay(a: A.Controller, a': A.Controller)
    requires A.Next(a, a')
    ensures a'.limits == a.limits
  {
    if t: nat :| A.CallStep(a, a', t) {
    } else if t: nat :| A.ThreadStep(a, a', t) {
    }
  }

  lemma {:induction false} GoodStays(k: Joint, k': Joint)
    requires Good(k) && Next(k, k')
    ensures Good(k')
  {
    StepProjects(k, k');
    StepKeeps(k, k');
    if k'.a != k.a {
      A.LocksStay(k.a, k'.a);
      LimitsStay(k.a, k'.a);
    }
  }

  /** Everywhere on such a way the invariants hold. */
  lemma {:induction false} LeadsIsGood(j: Joint, k: Joint)
    requires Leads(j, k)
    ensures Good(k)
  {
    forall x | Unlimited(x)
      ensures Good(x)
    {
      EngineCounters.InvIsInductive();
    }
    forall x, x' | Good(x) && Next(x, x')
      ensures Good(x')
    {
      GoodStays(x, x');
    }
    Invariant(Unlimited, Next, Good, j);
    Invariant((x: Joint) => x == j, Next, Good, k);
  }

  lemma {:induction false} Known(j: Joint)
    requires Reachable(Unlimited, Next, j)
    ensures Leads(j, j) && Good(j)
  {
    ReachableInit((x: Joint) => x == j, Next, j);
    LeadsIsGood(j, j);
  }

  lemma {:induction false} Move(j: Joint, k: Joint, k': Joint)
    requires Leads(j, k) && Next(k, k')
    ensures Leads(j, k')
  {
    ReachableStep((x: Joint) => x == j, Next, k, k');
  }

  // --------------------------------------------------------- the controller gets ready

  /** There can always be a thread free to start a call. */
  lemma {:induction false} FreshThread(j: Joint, k: Joint) returns (k': Joint, t: nat)
    requires Leads(j, k)
    ensures Leads(j, k') && k'.e == k.e && Ready(k'.a, t)
    ensures k'.a == k.a.(threads := k.a.threads + [A.Idle])
  {
    var a' := k.a.(threads := k.a.threads + [A.Idle]);
    assert A.Arrive(k.a, a');
    Move(j, k, Joint(k.e, a'));
    k', t := Joint(k.e, a'), |k.a.threads|;
  }

  /** Whoever holds a lease's mutex can let go of it. */
  lemma {:induction false} FreeLease(j: Joint, k: Joint, l: nat) returns (k': Joint)
    requires Leads(j, k) && l < |k.e.core.leases|
    ensures Leads(j, k') && k'.e == k.e && l < |k'.a.leases|
    ensures k'.a.leases[l].mid == A.Free && k'.a.leases[l].state == Image(k.e.core.leases[l])
  {
    LeadsIsGood(j, k);
    var x := k.a.leases[l];
    assert A.HeldBy(l, x, k.a.threads) && A.LeaseOk(x, |k.a.listeners|);
    if x.mid == A.Free {
      k' := k;
    } else {
      var t := x.mid.thread;
      var y := x.(state := if x.mid.Activating? then A.Active else A.Draining, mid := A.Free);
      var a' := k.a.(leases := k.a.leases[l := y]).Go(t, A.Idle);
      assert Unseen(k.a, t) && A.ThreadStep(k.a, a', t);
      Move(j, k, Joint(k.e, a'));
      k' := Joint(k.e, a');
    }
  }

  lemma {:induction false} FreeThreadAndLease(j: Joint, l: nat) returns (k: Joint, t: nat)
    requires Reachable(Unlimited, Next, j) && l < |j.e.core.leases|
    ensures Leads(j, k) && k.e == j.e && Ready(k.a, t) && l < |k.a.leases|
    ensures k.a.leases[l].mid == A.Free && k.a.leases[l].state == Image(j.e.core.leases[l])
  {
    Known(j);
    var k1 := FreeLease(j, j, l);
    k, t := FreshThread(j, k1);
  }

  lemma {:induction false} ReleaseStarts(a: A.Controller, t: nat, l: nat) returns (a': A.Controller)
    requires t < |a.threads| && l < |a.leases| && a.leases[l].mid == A.Free && a.leases[l].state != A.Released
    ensures A.StartRelease(a, a', t, l)
  {
    var x := a.leases[l];
    a' := a.(leases := a.leases[l := x.(state := A.Released, releases := x.releases + 1)])
          .Go(t, A.Settling(x.peer, x.listener, x.state));
  }

  /** The controller can begin to release any lease that is not released. */
  lemma {:induction false} ReleaseReady(j: Joint, l: nat) returns (k: Joint, t: nat, a': A.Controller)
    requires Reachable(Unlimited, Next, j) && l < |j.e.core.leases| && Image(j.e.core.leases[l]) != A.Released
    ensures Leads(j, k) && k.e == j.e && Ready(k.a, t) && A.StartRelease(k.a, a', t, l)
  {
    k, t := FreeThreadAndLease(j, l);
    a' := ReleaseStarts(k.a, t, l);
  }

  /** For a lease on its way, some thread is settling one of the same state. */
  lemma {:induction false} SettleReady(j: Joint, l: nat) returns (t: nat, a': A.Controller)
    requires Reachable(Unlimited, Next, j) && l < |j.e.core.leases| && Was(j.e.core.leases[l]) != A.Released
    ensures SettlingAs(j.a, t, Was(j.e.core.leases[l])) && A.ThreadStep(j.a, a', t)
  {
    Known(j);
    var st := Was(j.e.core.leases[l]);
    SumAtLeast(OnTheWay(st), j.e.core.leases, l);
    t := SumWitness(A.InState(st).thread, j.a.threads);
    var x := j.a.threads[t];
    a' := j.a.(counters := A.Settle(j.a.counters, x.peer, x.was)).Go(t, A.Back(x.listener));
  }

  // --------------------------------------------------------- each step is matched

  /** Three steps bring a new thread to the admission section, which refuses nothing. */
  lemma {:induction false} AdmitReady(j: Joint) returns (k: Joint, t: nat)
    requires Reachable(Unlimited, Next, j)
    ensures Leads(j, k) && k.e == j.e && t < |k.a.threads| && k.a.threads[t] == A.Admitting(None, None)
  {
    Known(j);
    var k1, t1 := FreshThread(j, j);
    var a2 := k1.a.Go(t1, A.Acquiring(None, None));
    assert A.StartAcquire(k1.a, a2, t1, None, None);
    Move(j, k1, Joint(k1.e, a2));
    var a3 := a2.Go(t1, A.Admitting(None, None));
    assert Unseen(a2, t1) && A.ThreadStep(a2, a3, t1);
    Move(j, Joint(j.e, a2), Joint(j.e, a3));
    k, t := Joint(j.e, a3), t1;
  }

  lemma {:induction false} AcquireMatched(j: Joint, e': E.System, i: nat) returns (k: Joint)
    requires Reachable(Unlimited, Next, j) && E.AcquireStep(j.e, e', i)
    ensures Leads(j, k) && k.e == e'
  {
    Known(j);
    var k1, t := AdmitReady(j);
    LeadsIsGood(j, k1);
    var a' := k1.a.(counters := A.Admit(k1.a.counters, None),
                    leases := k1.a.leases + [A.Lease(None, None, A.Opening, A.Free, 0)]).Go(t, A.Idle);
    k := Joint(e', a');
    assert AcquireBoth(k1, k, i, t);
    assert BothStep(k1, k, t);
    Move(j, k1, k);
  }

  lemma {:induction false} AdoptMatched(j: Joint, e': E.System, i: nat, v: nat) returns (k: Joint)
    requires Reachable(Unlimited, Next, j) && j.e.mutex == E.Free && E.AdoptStep(j.e, e', i, v)
    ensures Leads(j, k) && k.e == e'
  {
    Known(j);
    assert E.OpOk(i, j.e.ops[i], j.e.core.leases);
    var l := j.e.ops[i].lease;
    var k1, t := FreeThreadAndLease(j, l);
    var leases := k1.a.leases[l := k1.a.leases[l].(mid := A.Activating(t))];
    k := Joint(e', k1.a.(counters := A.CountActivate(k1.a.counters), leases := leases).Go(t, A.FinishActivate(l)));
    assert AdoptBoth(k1, k, i, v, t);
    assert BothStep(k1, k, t);
    Move(j, k1, k);
  }

  lemma {:induction false} DropMatched(j: Joint, e': E.System, i: nat) returns (k: Joint)
    requires Reachable(Unlimited, Next, j) && (E.DropStep(j.e, e', i) || E.DroppedStep(j.e, e', i))
    ensures Leads(j, k) && k.e == e'
  {
    Known(j);
    assert E.OpOk(i, j.e.ops[i], j.e.core.leases);
    if E.DropStep(j.e, e', i) {
      var k1, t, a' := ReleaseReady(j, j.e.ops[i].lease);
      k := Joint(e', a');
      assert DropBoth(k1, k, i, t);
      assert BothStep(k1, k, t);
      Move(j, k1, k);
    } else {
      Known(j);
      var t, a' := SettleReady(j, j.e.ops[i].lease);
      k := Joint(e', a');
      assert DroppedBoth(j, k, i, t);
      assert BothStep(j, k, t);
      Move(j, j, k);
    }
  }

  lemma {:induction false} HolderMatched(j: Joint, e': E.System, l: nat) returns (k: Joint)
    requires Reachable(Unlimited, Next, j) && (E.HolderDropStep(j.e, e', l) || E.HolderDroppedStep(j.e, e', l))
    ensures Leads(j, k) && k.e == e'
  {
    if E.HolderDropStep(j.e, e', l) {
      var k1, t, a' := ReleaseReady(j, l);
      k := Joint(e', a');
      assert HolderDropBoth(k1, k, l, t);
      assert BothStep(k1, k, t);
      Move(j, k1, k);
    } else {
      Known(j);
      var t, a' := SettleReady(j, l);
      k := Joint(e', a');
      assert HolderDroppedBoth(j, k, l, t);
      assert BothStep(j, k, t);
      Move(j, j, k);
    }
  }

  lemma {:induction false} RemoveMatched(j: Joint, e': E.System, v: nat) returns (k: Joint)
    requires Reachable(Unlimited, Next, j) && j.e.mutex == E.Free && E.RemoveStep(j.e, e', v)
    ensures Leads(j, k) && k.e == e'
  {
    Known(j);
    assert E.LinkedSession(j.e.core, v);
    var k1, t, a' := ReleaseReady(j, j.e.core.tracked[v]);
    k := Joint(e', a');
    assert RemoveBoth(k1, k, v, t);
    assert BothStep(k1, k, t);
    Move(j, k1, k);
  }

  lemma {:induction false} ReturnedMatched(j: Joint, e': E.System) returns (k: Joint)
    requires Reachable(Unlimited, Next, j) && E.ReturnedStep(j.e, e')
    ensures Leads(j, k) && k.e == e'
  {
    Known(j);
    var t, a' := SettleReady(j, j.e.mutex.lease);
    k := Joint(e', a');
    assert ReturnedBoth(j, k, t);
    assert BothStep(j, k, t);
    Move(j, j, k);
  }

  lemma {:induction false} DrainMatched(j: Joint, e': E.System, v: nat) returns (k: Joint)
    requires Reachable(Unlimited, Next, j) && E.DrainOneStep(j.e, e', v)
    ensures Leads(j, k) && k.e == e'
  {
    Known(j);
    var l := j.e.core.tracked[v];
    var k1, t := FreeThreadAndLease(j, l);
    var leases := k1.a.leases[l := k1.a.leases[l].(mid := A.StartingDrain(t))];
    k := Joint(e', k1.a.(counters := A.CountDrain(k1.a.counters), leases := leases).Go(t, A.FinishDrain(l)));
    assert DrainBoth(k1, k, v, t);
    assert BothStep(k1, k, t);
    Move(j, k1, k);
  }

  lemma {:induction false} AcquireActivityMatched(j: Joint, e': E.System) returns (k: Joint)
    requires Reachable(Unlimited, Next, j) && j.e.mutex == E.Free && E.AcquireActivityStep(j.e, e')
    ensures Leads(j, k) && k.e == e'
  {
    Known(j);
    var k1, t := FreshThread(j, j);
    var c := k1.a.counters;
    var a' := k1.a.(counters := c.(handshakes := c.handshakes + 1),
                    activities := k1.a.activities + [A.ActivityLease(A.Handshake, false)]);
    k := Joint(e', a');
    assert AcquireActivityBoth(k1, k, t);
    assert BothStep(k1, k, t);
    Move(j, k1, k);
  }

  lemma {:induction false} ActivityDropMatched(j: Joint, e': E.System, n: nat) returns (k: Joint)
    requires Reachable(Unlimited, Next, j) && (E.ActivityDropStep(j.e, e', n) || E.ActivityDroppedStep(j.e, e', n))
    ensures Leads(j, k) && k.e == e'
  {
    Known(j);
    if E.ActivityDropStep(j.e, e', n) {
      var k1, t := FreshThread(j, j);
      var x := k1.a.activities[n];
      k := Joint(e', k1.a.(activities := k1.a.activities[n := x.(released := true)]).Go(t, A.SettlingActivity(x.kind)));
      assert ActivityDropBoth(k1, k, n, t);
      assert BothStep(k1, k, t);
      Move(j, k1, k);
    } else {
      SumAtLeast(ReturnsCount, j.e.core.activities, n);
      var t := SumWitness(SettlesActivity, j.a.threads);
      var c := j.a.counters;
      var c' := if j.a.threads[t].kind == A.Handshake then c.(handshakes := A.Clamped(c.handshakes))
                else c.(upgrades := A.Clamped(c.upgrades));
      k := Joint(e', j.a.(counters := c').Go(t, A.Idle));
      assert ActivityDroppedBoth(j, k, n, t);
      assert BothStep(j, k, t);
      Move(j, j, k);
    }
  }

  /** The engine's own steps need no controller, and its check is the one on the counters. */
  lemma {:induction false} OwnMatched(j: Joint, e': E.System) returns (k: Joint)
    requires Reachable(Unlimited, Next, j) && (EngineStep(j.e, e') || E.CheckStep(j.e, e'))
    ensures Leads(j, k) && k.e == e'
  {
    Known(j);
    k := Joint(e', j.a);
    if E.CheckStep(j.e, e') {
      IdleIsCounters(j.a, j.e.core);
      assert CounterCheck(j, k);
    }
    Move(j, j, k);
  }

  lemma {:induction false} OutsideMatched(j: Joint, e': E.System) returns (k: Joint)
    requires Reachable(Unlimited, Next, j) && E.OutsideStep(j.e, e')
    ensures Leads(j, k) && k.e == e'
  {
    if i: nat :| E.AcquireStep(j.e, e', i) {
      k := AcquireMatched(j, e', i);
    } else if i: nat :| E.DropStep(j.e, e', i) || E.DroppedStep(j.e, e', i) {
      k := DropMatched(j, e', i);
    } else if l: nat :| E.HolderDropStep(j.e, e', l) || E.HolderDroppedStep(j.e, e', l) {
      k := HolderMatched(j, e', l);
    } else if n: nat :| E.ActivityDropStep(j.e, e', n) || E.ActivityDroppedStep(j.e, e', n) {
      k := ActivityDropMatched(j, e', n);
    } else {
      k := OwnMatched(j, e');
    }
  }

  /** Every step of the engine is matched: the two together get to the same engine state, related as before. */
  lemma {:induction false} StepIsMatched(j: Joint, e': E.System) returns (k: Joint)
    requires Reachable(Unlimited, Next, j) && E.Next(j.e, e')
    ensures Leads(j, k) && k.e == e'
  {
    if E.OutsideStep(j.e, e') {
      k := OutsideMatched(j, e');
    } else if E.ReturnedStep(j.e, e') {
      k := ReturnedMatched(j, e');
    } else if v: nat :| E.DrainOneStep(j.e, e', v) {
      k := DrainMatched(j, e', v);
    } else if E.SectionStep(j.e, e') && E.AcquireActivityStep(j.e, e') {
      k := AcquireActivityMatched(j, e');
    } else if i: nat, v: nat :| j.e.mutex == E.Free && E.AdoptStep(j.e, e', i, v) {
      k := AdoptMatched(j, e', i, v);
    } else if v: nat :| j.e.mutex == E.Free && E.RemoveStep(j.e, e', v) {
      k := RemoveMatched(j, e', v);
    } else {
      k := OwnMatched(j, e');
    }
  }

  // --------------------------------------------------------- and every run

  lemma {:induction false} LeadsIsReached(j: Joint, run: seq<Joint>, i: nat)
    requires Reachable(Unlimited, Next, j) && IsRun((x: Joint) => x == j, Next, run) && i < |run|
    ensures Reachable(Unlimited, Next, run[i])
  {
    if i > 0 {
      LeadsIsReached(j, run, i - 1);
      assert Next(run[i - 1], run[i - 1 + 1]);
      ReachableStep(Unlimited, Next, run[i - 1], run[i]);
    }
  }

  lemma {:induction false} RunIsMatched(run: seq<E.System>, i: nat) returns (j: Joint)
    requires IsRun(E.Init, E.Next, run) && i < |run|
    ensures Reachable(Unlimited, Next, j) && j.e == run[i]
  {
    if i == 0 {
      j := Joint(run[0], A.Controller(UNLIMITED, A.Counters(0, 0, 0, 0, 0, map[]), [], [], [], []));
      ReachableInit(Unlimited, Next, j);
    } else {
      var j0 := RunIsMatched(run, i - 1);
      assert E.Next(run[i - 1], run[i - 1 + 1]);
      j := StepIsMatched(j0, run[i]);
      var path :| IsRun((x: Joint) => x == j0, Next, path) && path[|path| - 1] == j;
      LeadsIsReached(j0, path, |path| - 1);
    }
  }

  /** Whatever the engine model reaches, the engine and the controller reach together. */
  lemma {:induction false} EveryEngineStateIsJoint(e: E.System) returns (j: Joint)
    requires Reachable(E.Init, E.Next, e)
    ensures Reachable(Unlimited, Next, j) && j.e == e
  {
    var run :| IsRun(E.Init, E.Next, run) && run[|run| - 1] == e;
    j := RunIsMatched(run, |run| - 1);
  }

  /** So with all counters at zero and nothing tracked, an aborting engine may wait for ever. */
  lemma {:induction false} CountersStrand() returns (j: Joint)
    ensures Reachable(Unlimited, Next, j) && E.Stranded(j.e) && A.Idling(j.a.counters)
  {
    var e := E.StrandedIsReachable();
    j := EveryEngineStateIsJoint(e);
    Known(j);
    IdleIsCounters(j.a, j.e.core);
  }
}
