/**
 The engine's completion barrier.

 `done` closes once the engine is no longer running and nothing is left: no operation in progress, no
 tracked listener or session, no lease and no activity. The check runs at the end of the sections under
 the engine mutex; leases and activities come back under other locks, also while the mutex is held.

 Here leases and activities are seen one by one. `EngineCounters` runs the same engine together with the
 admission controller, whose counters the check really reads.
 */
module Engine {
  import opened Bytes
  import opened Counting
  import opened Runs
  import Admission

  datatype Phase = Running | Draining | Aborting | Done

  function Rank(p: Phase): nat {
    match p
    case Running => 0
    case Draining => 1
    case Aborting => 2
    case Done => 3
  }

  datatype AbortReason = NoAbort | Explicit | ByCaller | ByFailure

  /** What the engine mutex protects; listeners and sessions are named by numbers. */
  datatype Book = Book(
    phase: Phase, closed: bool, activeOps: int,
    listeners: set<nat>, sessions: set<nat>,
    reason: AbortReason, failed: bool)

  const NEW_BOOK := Book(Running, false, 0, {}, {}, NoAbort, false)

  predicate Vacant(b: Book) { b.activeOps == 0 && b.listeners == {} && b.sessions == {} }

  /** The completion check, given what the admission controller's `idle` answers. */
  function Checked(b: Book, idle: bool): Book {
    if b.phase != Running && Vacant(b) && idle then b.(phase := Done, closed := true) else b
  }

  function OpBegun(b: Book): Book { b.(activeOps := b.activeOps + 1) }

  function OpEnded(b: Book): Book { b.(activeOps := if b.activeOps - 1 < 0 then 0 else b.activeOps - 1) }

  function AbortBegun(b: Book, reason: AbortReason): Book {
    b.(phase := Aborting, reason := if b.reason == NoAbort then reason else b.reason)
  }

  datatype Outcome = Success | ClosedError | OtherError

  function ShutdownResult(b: Book): Outcome {
    if b.failed then OtherError else if b.reason != NoAbort then ClosedError else Success
  }

  /** Counting one lease after another as draining. */
  function DrainTimes(k: Admission.Counters, n: nat): Admission.Counters {
    if n == 0 then k else Admission.CountDrain(DrainTimes(k, n - 1))
  }

  /** Each of them is one more draining and, as far as there were any, one fewer active. */
  lemma {:induction false} DrainsEach(k: Admission.Counters, n: nat)
    ensures DrainTimes(k, n).draining == k.draining + n
    ensures DrainTimes(k, n).active == if k.active >= n then k.active - n else if k.active > 0 then 0 else k.active
    ensures DrainTimes(k, n) == k.(active := DrainTimes(k, n).active, draining := DrainTimes(k, n).draining)
  {
    if n > 0 {
      DrainsEach(k, n - 1);
    }
  }

  /** The engine as an object over the admission controller; a call is one section under the engine mutex. */
  class EngineBarrier {
    const admission: Admission.AdmissionController
    var phase: Phase
    var closed: bool
    var activeOps: int
    var listeners: set<nat>
    var leases: map<nat, Admission.ConnectionLease>
    var reason: AbortReason
    var failed: bool

    ghost function State(): Book
      reads this
    {
      Book(phase, closed, activeOps, listeners, leases.Keys, reason, failed)
    }

    /** Every tracked lease is one of this engine's. */
    ghost predicate Valid()
      reads this
    {
      forall v :: v in leases ==> leases[v].owner == admission
    }

    ghost function Idle(): bool
      reads admission
    {
      Admission.Idling(admission.State())
    }

    constructor (admission: Admission.AdmissionController)
      ensures Valid() && this.admission == admission && State() == NEW_BOOK && leases == map[]
    {
      this.admission := admission;
      phase, closed, activeOps, listeners, leases := Running, false, 0, {}, map[];
      reason, failed := NoAbort, false;
    }

    method CheckDone()
      modifies this
      ensures State() == Checked(old(State()), Idle()) && leases == old(leases)
    {
      if phase != Running && activeOps == 0 && listeners == {} && leases.Keys == {} {
        var idle := admission.IsIdle();
        if idle {
          phase, closed := Done, true;
        }
      }
    }

    method BeginOp() returns (ok: bool)
      modifies this
      ensures ok == (old(phase) == Running) && leases == old(leases)
      ensures State() == if ok then OpBegun(old(State())) else old(State())
    {
      if phase != Running {
        return false;
      }
      activeOps := activeOps + 1;
      ok := true;
    }

    method EndOp()
      modifies this
      ensures activeOps == if old(activeOps) > 0 then old(activeOps) - 1 else 0
      ensures State() == Checked(OpEnded(old(State())), Idle()) && leases == old(leases)
    {
      activeOps := activeOps - 1;
      if activeOps < 0 {
        activeOps := 0;
      }
      CheckDone();
    }

    method AddListener(v: nat) returns (ok: bool)
      modifies this
      ensures ok == (old(phase) == Running) && leases == old(leases)
      ensures State() == if ok then old(State()).(listeners := old(listeners) + {v}) else old(State())
    {
      if phase != Running {
        return false;
      }
      listeners := listeners + {v};
      ok := true;
    }

    method RemoveListener(v: nat)
      modifies this
      ensures State() == Checked(old(State()).(listeners := old(listeners) - {v}), Idle()) && leases == old(leases)
    {
      listeners := listeners - {v};
      CheckDone();
    }

    /** A session that comes with an opening lease: it is tracked if the engine runs and the lease can be activated. */
    method AddWithLease(v: nat, lease: Admission.ConnectionLease) returns (ok: bool)
      requires Valid() && lease.owner == admission
      modifies this, lease, admission
      ensures Valid()
      ensures var usable := old(lease.state) == Admission.Opening || old(lease.state) == Admission.Active;
              ok == (old(phase) == Running && usable)
      ensures leases == (if ok then old(leases)[v := lease] else old(leases))
      ensures State() == old(State()).(sessions := leases.Keys)
      ensures lease.state == if ok then Admission.Active else old(lease.state)
      ensures admission.State() == if ok && old(lease.state) == Admission.Opening
                                   then Admission.CountActivate(old(admission.State())) else old(admission.State())
    {
      if phase != Running {
        return false;
      }
      ok := lease.Activate();
      if ok {
        leases := leases[v := lease];
      }
    }

    /** A session that comes without one: the engine acquires and activates it in the same section. */
    method AddFresh(v: nat, peer: Maybe<nat>) returns (ok: bool)
      requires Valid()
      modifies this, admission
      ensures Valid()
      ensures ok == (old(phase) == Running && !Admission.Rejects(admission.limits, old(admission.State()), peer))
      ensures State() == if ok then old(State()).(sessions := old(State()).sessions + {v}) else old(State())
      ensures admission.State() == if ok then Admission.CountActivate(Admission.Admit(old(admission.State()), peer))
                                   else old(admission.State())
      ensures ok ==> fresh(leases[v]) && leases[v].state == Admission.Active && leases[v].peer == peer
      ensures forall w :: w in old(leases) && w != v ==> w in leases && leases[w] == old(leases)[w]
    {
      if phase != Running {
        return false;
      }
      ok := admission.AdmitOpening(peer);
      if ok {
        var lease := new Admission.ConnectionLease(admission, peer, null);
        var activated := lease.Activate();
        leases := leases[v := lease];
      }
    }

    /** Forgets a session, tracked or not, returns its lease, and checks. */
    method RemoveSession(v: nat)
      requires Valid()
      modifies this, admission
      modifies if v in leases then {leases[v]} else {}
      modifies if v in leases && leases[v].listener != null then {leases[v].listener} else {}
      ensures Valid() && leases == old(leases) - {v}
      ensures State() == Checked(old(State()).(sessions := old(State()).sessions - {v}), Idle())
      ensures v in old(leases) ==> old(leases)[v].state == Admission.Released
      ensures admission.State() ==
              if v in old(leases) && old(leases[v].state) != Admission.Released
              then Admission.Settle(old(admission.State()), old(leases)[v].peer, old(leases[v].state))
              else old(admission.State())
    {
      if v in leases {
        var lease := leases[v];
        leases := leases - {v};
        lease.Release();
      }
      CheckDone();
    }

    /** Only the call that finds the engine running starts the drain; it drains every tracked lease, in any order. */
    method BeginGracefulShutdown() returns (owner: bool)
      requires Valid()
      modifies this, admission, leases.Values
      ensures owner == (old(phase) == Running) && leases == old(leases)
      ensures State() == if owner then Checked(old(State()).(phase := Draining), Idle()) else old(State())
      ensures forall l :: l in leases.Values ==>
                l.state == if owner && old(l.state) == Admission.Active then Admission.Draining else old(l.state)
      ensures admission.draining == old(admission.draining) + if owner then |old(ActiveLeases())| else 0
      ensures admission.State() ==
              if owner then DrainTimes(old(admission.State()), |old(ActiveLeases())|) else old(admission.State())
    {
      if phase != Running {
        return false;
      }
      phase := Draining;
      assert ActiveLeases() == old(ActiveLeases());
      DrainLeases();
      DrainsEach(old(admission.State()), |old(ActiveLeases())|);
      CheckDone();
      owner := true;
    }

    ghost function ActiveLeases(): set<Admission.ConnectionLease>
      reads this, leases.Values
    {
      set l | l in leases.Values && l.state == Admission.Active
    }

    method DrainLeases()
      requires Valid()
      modifies admission, leases.Values
      ensures forall l :: l in leases.Values ==>
                l.state == if old(l.state) == Admission.Active then Admission.Draining else old(l.state)
      ensures admission.State() == DrainTimes(old(admission.State()), |old(ActiveLeases())|)
    {
      ghost var done: set<Admission.ConnectionLease> := {};
      var todo := leases.Keys;
      while todo != {}
        invariant todo <= leases.Keys && done <= old(ActiveLeases())
        invariant forall l :: l in leases.Values ==> l.state == if l in done then Admission.Draining else old(l.state)
        invariant forall v :: v in leases && v !in todo ==> leases[v] in done || leases[v] !in old(ActiveLeases())
        invariant admission.State() == DrainTimes(old(admission.State()), |done|)
        decreases todo
      {
        var v :| v in todo;
        var lease := leases[v];
        assert lease in leases.Values;
        var drained := lease.BeginDrain();
        if drained {
          assert lease !in done;
          done := done + {lease};
        }
        todo := todo - {v};
      }
      forall l | l in old(ActiveLeases())
        ensures l in done
      {
        var v :| v in leases && leases[v] == l;
      }
      assert done == old(ActiveLeases());
    }

    method BeginAbort(why: AbortReason) returns (transitioned: bool)
      modifies this
      ensures transitioned == (old(phase) == Running || old(phase) == Draining) && leases == old(leases)
      ensures reason == if transitioned && old(reason) == NoAbort then why else old(reason)
      ensures State() == if transitioned then Checked(AbortBegun(old(State()), why), Idle()) else old(State())
    {
      if phase == Done || phase == Aborting {
        return false;
      }
      phase := Aborting;
      if reason == NoAbort {
        reason := why;
      }
      CheckDone();
      transitioned := true;
    }

    method AcquireHandshake() returns (ok: bool)
      modifies admission
      ensures ok == (phase == Running
                     && !(admission.limits.handshakes > 0 && old(admission.handshakes) >= admission.limits.handshakes))
      ensures admission.State() == old(admission.State()).(handshakes := old(admission.handshakes) +
          (if ok then 1 else 0))
    {
      if phase != Running {
        return false;
      }
      ok := admission.AcquireHandshake();
    }
  }

  // --------------------------------------------------------- the machine

  /**
   A connection lease and who has it: an operation, the HTTP connection tracker, or a tracked session. A
   lease on its way back is released and not yet subtracted: by an operation, by the tracker, or by the
   section that removes its session.
   */
  datatype Lease =
    | Opening(op: nat)
    | Held
    | Active(session: nat)
    | Drained(session: nat)
    | Settling(op: nat)
    | HolderSettling
    | Returning(wasDrained: bool)
    | Gone

  /** `Returned`: the count is back, and the releasing thread has yet to run the check. */
  datatype Activity = Busy | ReturningCount | Returned | Over

  datatype Core = Core(book: Book, tracked: map<nat, nat>, leases: seq<Lease>, activities: seq<Activity>)

  const NEW := Core(NEW_BOOK, map[], [], [])

  /** What the admission controller's `idle` answers; `EngineCounters.IdleIsCounters` is the proof. */
  predicate Idle(c: Core) {
    && (forall l :: 0 <= l < |c.leases| ==> c.leases[l] == Gone)
    && (forall a :: 0 <= a < |c.activities| ==> c.activities[a].Returned? || c.activities[a].Over?)
  }

  predicate Empty(c: Core) { Vacant(c.book) && Idle(c) }

  function PutLease(c: Core, l: nat, x: Lease): Core
    requires l < |c.leases|
  {
    c.(leases := c.leases[l := x])
  }

  function Adopted(c: Core, v: nat, l: nat): Core
    requires l < |c.leases|
  {
    Core(c.book.(sessions := c.book.sessions + {v}), c.tracked[v := l], c.leases[l := Active(v)], c.activities)
  }

  /** The first half of removing a session: it is forgotten, and its lease is on its way back. */
  function Forgotten(c: Core, v: nat): Core
    requires v in c.tracked && c.tracked[v] < |c.leases|
  {
    Core(c.book.(sessions := c.book.sessions - {v}), c.tracked - {v},
         c.leases[c.tracked[v] := Returning(c.leases[c.tracked[v]].Drained?)], c.activities)
  }

  datatype Op = Begun | Holding(lease: nat) | Dropping(lease: nat) | Ended

  /** Where the holder of the engine mutex is, if there is one. */
  datatype Mutex = Free | DrainLoop(todo: set<nat>) | Returner(lease: nat) | Checking

  /**
   `stale`: a lease held by the HTTP connection tracker came back and no check has run since. `graceful`: a
   graceful shutdown was begun.
   */
  datatype System = System(core: Core, mutex: Mutex, ops: seq<Op>, graceful: bool, stale: bool) {
    function With(c: Core): System { this.(core := c) }

    function WithBook(b: Book): System { this.(core := core.(book := b)) }

    function Set(i: nat, op: Op): System
      requires i < |ops|
    {
      this.(ops := ops[i := op])
    }
  }

  ghost predicate Init(s: System) { s == System(NEW, Free, [], false, false) }

  ghost predicate BeginOpStep(s: System, s': System) {
    s.core.book.phase == Running && s' == s.WithBook(OpBegun(s.core.book)).(ops := s.ops + [Begun])
  }

  ghost predicate EndOpStep(s: System, s': System, i: nat) {
    && i < |s.ops| && s.ops[i] == Begun
    && s' == s.WithBook(OpEnded(s.core.book)).(mutex := Checking).Set(i, Ended)
  }

  /** A session that brings no lease is an operation that acquires one and adopts at once. */
  ghost predicate AdoptStep(s: System, s': System, i: nat, v: nat) {
    && i < |s.ops| && s.ops[i].Holding? && s.ops[i].lease < |s.core.leases|
    && s.core.book.phase == Running && v !in s.core.tracked
    && s' == s.With(Adopted(s.core, v, s.ops[i].lease)).Set(i, Begun)
  }

  ghost predicate RemoveStep(s: System, s': System, v: nat) {
    && v in s.core.tracked && s.core.tracked[v] < |s.core.leases|
    && s' == s.With(Forgotten(s.core, v)).(mutex := Returner(s.core.tracked[v]))
  }

  ghost predicate AddListenerStep(s: System, s': System, v: nat) {
    && s.core.book.phase == Running
    && s' == s.WithBook(s.core.book.(listeners := s.core.book.listeners + {v}))
  }

  ghost predicate RemoveListenerStep(s: System, s': System, v: nat) {
    && v in s.core.book.listeners
    && s' == s.WithBook(s.core.book.(listeners := s.core.book.listeners - {v})).(mutex := Checking)
  }

  ghost predicate AcquireActivityStep(s: System, s': System) {
    s.core.book.phase == Running && s' == s.With(s.core.(activities := s.core.activities + [Busy]))
  }

  ghost predicate ActivityCheckStep(s: System, s': System, a: nat) {
    && a < |s.core.activities| && s.core.activities[a] == Returned
    && s' == s.With(s.core.(activities := s.core.activities[a := Over])).(mutex := Checking)
  }

  ghost predicate GracefulStep(s: System, s': System) {
    && s.core.book.phase == Running
    && s' == s.WithBook(s.core.book.(phase := Draining)).(mutex := DrainLoop(s.core.tracked.Keys), graceful := true)
  }

  ghost predicate AbortStep(s: System, s': System, why: AbortReason) {
    && (s.core.book.phase == Running || s.core.book.phase == Draining) && why != NoAbort
    && s' == s.WithBook(AbortBegun(s.core.book, why)).(mutex := Checking)
  }

  ghost predicate RecordErrorStep(s: System, s': System) {
    s' == s.WithBook(s.core.book.(failed := true))
  }

  /** A section under the engine mutex begins, and ends if it needs no check. */
  ghost predicate SectionStep(s: System, s': System) {
    && s.mutex == Free
    && (|| BeginOpStep(s, s') || AcquireActivityStep(s, s') || GracefulStep(s, s') || RecordErrorStep(s, s')
        || (exists i :: EndOpStep(s, s', i)) || (exists i, v :: AdoptStep(s, s', i, v))
        || (exists v :: RemoveStep(s, s', v)) || (exists v :: AddListenerStep(s, s', v))
        || (exists v :: RemoveListenerStep(s, s', v)) || (exists a :: ActivityCheckStep(s, s', a))
        || (exists why :: AbortStep(s, s', why)))
  }

  /** The drain takes one tracked lease after the other, in any order. */
  ghost predicate DrainOneStep(s: System, s': System, v: nat) {
    && s.mutex.DrainLoop? && v in s.mutex.todo && StillActive(s.core, v)
    && s' == s.With(PutLease(s.core, s.core.tracked[v], Drained(v))).(mutex := DrainLoop(s.mutex.todo - {v}))
  }

  ghost predicate DrainedStep(s: System, s': System) {
    s.mutex == DrainLoop({}) && s' == s.(mutex := Checking)
  }

  /** The second half of removing a session: its lease is subtracted. */
  ghost predicate ReturnedStep(s: System, s': System) {
    && s.mutex.Returner? && s.mutex.lease < |s.core.leases|
    && s' == s.With(PutLease(s.core, s.mutex.lease, Gone)).(mutex := Checking)
  }

  /** The check that ends a section. */
  ghost predicate CheckStep(s: System, s': System) {
    && s.mutex == Checking
    && s' == s.WithBook(Checked(s.core.book, Idle(s.core))).(mutex := Free, stale := false)
  }

  /** The mutex holder goes on. */
  ghost predicate HolderOfMutexStep(s: System, s': System) {
    || CheckStep(s, s') || DrainedStep(s, s') || ReturnedStep(s, s')
    || (exists v :: DrainOneStep(s, s', v))
  }

  ghost predicate AcquireStep(s: System, s': System, i: nat) {
    && i < |s.ops| && s.ops[i] == Begun
    && s' == s.With(s.core.(leases := s.core.leases + [Opening(i)])).Set(i, Holding(|s.core.leases|))
  }

  /** The upgrade handler, itself an operation, takes the lease over from the tracker. */
  ghost predicate TakeHeld(s: System, s': System, i: nat, l: nat) {
    && i < |s.ops| && s.ops[i] == Begun && l < |s.core.leases| && s.core.leases[l] == Held
    && s' == s.With(PutLease(s.core, l, Opening(i))).Set(i, Holding(l))
  }

  ghost predicate HandOverStep(s: System, s': System, i: nat) {
    && i < |s.ops| && s.ops[i].Holding? && s.ops[i].lease < |s.core.leases|
    && s' == s.With(PutLease(s.core, s.ops[i].lease, Held)).Set(i, Begun)
  }

  ghost predicate DropStep(s: System, s': System, i: nat) {
    && i < |s.ops| && s.ops[i].Holding? && s.ops[i].lease < |s.core.leases|
    && s' == s.With(PutLease(s.core, s.ops[i].lease, Settling(i))).Set(i, Dropping(s.ops[i].lease))
  }

  ghost predicate DroppedStep(s: System, s': System, i: nat) {
    && i < |s.ops| && s.ops[i].Dropping? && s.ops[i].lease < |s.core.leases|
    && s' == s.With(PutLease(s.core, s.ops[i].lease, Gone)).Set(i, Begun)
  }

  /** What an operation does to leases: acquire, take over, hand over, give up in two halves. */
  ghost predicate OpLeaseStep(s: System, s': System, i: nat) {
    || AcquireStep(s, s', i) || HandOverStep(s, s', i) || DropStep(s, s', i) || DroppedStep(s, s', i)
    || (exists l :: TakeHeld(s, s', i, l))
  }

  /** The tracker gives a lease back; the second half is followed by no check. */
  ghost predicate HolderDropStep(s: System, s': System, l: nat) {
    l < |s.core.leases| && s.core.leases[l] == Held && s' == s.With(PutLease(s.core, l, HolderSettling))
  }

  ghost predicate HolderDroppedStep(s: System, s': System, l: nat) {
    && l < |s.core.leases| && s.core.leases[l] == HolderSettling
    && s' == s.With(PutLease(s.core, l, Gone)).(stale := true)
  }

  ghost predicate ActivityDropStep(s: System, s': System, a: nat) {
    && a < |s.core.activities| && s.core.activities[a] == Busy
    && s' == s.With(s.core.(activities := s.core.activities[a := ReturningCount]))
  }

  ghost predicate ActivityDroppedStep(s: System, s': System, a: nat) {
    && a < |s.core.activities| && s.core.activities[a] == ReturningCount
    && s' == s.With(s.core.(activities := s.core.activities[a := Returned]))
  }

  /** Steps that need no engine mutex. */
  ghost predicate OutsideStep(s: System, s': System) {
    || (exists i :: OpLeaseStep(s, s', i))
    || (exists l :: HolderDropStep(s, s', l)) || (exists l :: HolderDroppedStep(s, s', l))
    || (exists a :: ActivityDropStep(s, s', a)) || (exists a :: ActivityDroppedStep(s, s', a))
  }

  ghost predicate Next(s: System, s': System) {
    SectionStep(s, s') || HolderOfMutexStep(s, s') || OutsideStep(s, s')
  }

  // --------------------------------------------------------- the invariant

  /** Sessions and leases name each other. */
  ghost predicate Linked(c: Core) {
    && c.book.sessions == c.tracked.Keys
    && (forall v :: v in c.tracked ==> c.tracked[v] < |c.leases| && LinkedSession(c, v))
    && (forall l :: 0 <= l < |c.leases| ==> LinkedLease(c, l))
  }

  predicate LinkedSession(c: Core, v: nat)
    requires v in c.tracked && c.tracked[v] < |c.leases|
  {
    c.leases[c.tracked[v]] == Active(v) || c.leases[c.tracked[v]] == Drained(v)
  }

  predicate LinkedLease(c: Core, l: nat)
    requires l < |c.leases|
  {
    match c.leases[l]
    case Active(v) => v in c.tracked && c.tracked[v] == l
    case Drained(v) => v in c.tracked && c.tracked[v] == l
    case _ => true
  }

  function Unfinished(op: Op): int { if op.Ended? then 0 else 1 }

  predicate OpOk(i: nat, op: Op, leases: seq<Lease>) {
    match op
    case Begun => true
    case Holding(l) => l < |leases| && leases[l] == Opening(i)
    case Dropping(l) => l < |leases| && leases[l] == Settling(i)
    case Ended => true
  }

  ghost predicate OpsInv(activeOps: int, ops: seq<Op>, leases: seq<Lease>) {
    && activeOps == Sum(Unfinished, ops)
    && forall i :: 0 <= i < |ops| ==> OpOk(i, ops[i], leases)
  }

  /** Only the mutex holder has a lease on its way back, and only the drain loop has active ones to do. */
  ghost predicate MutexInv(m: Mutex, c: Core, graceful: bool) {
    && (m.Returner? ==> m.lease < |c.leases| && c.leases[m.lease].Returning?)
    && (forall l :: 0 <= l < |c.leases| && c.leases[l].Returning? ==> m == Returner(l))
    && (m.DrainLoop? ==> graceful && c.book.phase == Draining && forall v :: v in m.todo ==> StillActive(c, v))
    && (forall l :: 0 <= l < |c.leases| && c.leases[l].Active? && graceful ==>
          m.DrainLoop? && c.leases[l].session in m.todo)
    && (forall l :: 0 <= l < |c.leases| && c.leases[l].Drained? ==> graceful)
    && (forall l :: 0 <= l < |c.leases| && c.leases[l].Returning? && graceful ==> c.leases[l].wasDrained)
  }

  predicate StillActive(c: Core, v: nat) {
    v in c.tracked && c.tracked[v] < |c.leases| && c.leases[c.tracked[v]] == Active(v)
  }

  /** A thread that has given an activity back has yet to check. */
  predicate Pending(c: Core) { exists a :: 0 <= a < |c.activities| && c.activities[a] == Returned }

  predicate NoneActive(c: Core) { forall l :: 0 <= l < |c.leases| ==> !c.leases[l].Active? }

  ghost predicate PhaseInv(s: System) {
    && (s.core.book.phase == Done <==> s.core.book.closed)
    && (s.core.book.phase == Done ==> Empty(s.core) && !s.stale)
    && (s.core.book.phase == Draining ==> s.graceful)
    && (s.graceful ==> s.core.book.phase != Running)
    && (s.core.book.phase == Aborting ==> s.core.book.reason != NoAbort)
    && (s.core.book.phase == Running || s.core.book.phase == Draining ==> s.core.book.reason == NoAbort)
    && (s.core.book.phase == Done ==> s.graceful || s.core.book.reason != NoAbort)
  }

  /** Nothing is left, and no check is under way or owed. */
  ghost predicate Quiet(s: System) {
    s.core.book.phase != Running && Empty(s.core) && s.mutex == Free && !Pending(s.core)
  }

  ghost predicate Inv(s: System) {
    && OpsInv(s.core.book.activeOps, s.ops, s.core.leases)
    && Linked(s.core)
    && MutexInv(s.mutex, s.core, s.graceful)
    && PhaseInv(s)
    && (Quiet(s) && !s.stale ==> s.core.book.phase == Done)
  }

  // --------------------------------------------------------- preservation

  /** Phases only advance, `done` stays closed, a drain stays begun, and the first abort reason stays. */
  ghost predicate Forward(s: System, s': System) {
    && Rank(s.core.book.phase) <= Rank(s'.core.book.phase)
    && (s.core.book.closed ==> s'.core.book.closed)
    && (s.graceful ==> s'.graceful)
    && (s.core.book.reason != NoAbort ==> s'.core.book.reason == s.core.book.reason)
  }

  /** One step forward; only beginning to abort records a reason. */
  ghost predicate Onward(s: System, s': System) {
    Forward(s, s') && (s'.core.book.reason == s.core.book.reason || s'.core.book.phase == Aborting)
  }

  lemma {:induction false} OpMoves(
      activeOps: int, ops: seq<Op>, leases: seq<Lease>, leases': seq<Lease>, i: nat, op: Op)
    requires OpsInv(activeOps, ops, leases) && i < |ops| && |leases| <= |leases'|
    requires OpOk(i, op, leases')
    requires forall l :: 0 <= l < |leases| && leases'[l] != leases[l] ==>
               leases[l] == Opening(i) || leases[l] == Settling(i) || leases[l] == Held
    ensures OpsInv(activeOps - Unfinished(ops[i]) + Unfinished(op), ops[i := op], leases')
  {
    SumUpdate(Unfinished, ops, i, op);
    var ops' := ops[i := op];
    forall k | 0 <= k < |ops'|
      ensures OpOk(k, ops'[k], leases')
    {
      assert OpOk(k, ops[k], leases);
    }
  }

  /** Changes to leases no operation holds leave the operations alone. */
  lemma {:induction false} OpsUntouched(activeOps: int, ops: seq<Op>, leases: seq<Lease>, leases': seq<Lease>)
    requires OpsInv(activeOps, ops, leases) && |leases| <= |leases'|
    requires forall l :: 0 <= l < |leases| && (leases[l].Opening? || leases[l].Settling?) ==> leases'[l] == leases[l]
    ensures OpsInv(activeOps, ops, leases')
  {
    forall k | 0 <= k < |ops|
      ensures OpOk(k, ops[k], leases')
    {
      assert OpOk(k, ops[k], leases);
    }
  }

  lemma {:induction false} UnfinishedCounts(activeOps: int, ops: seq<Op>, leases: seq<Lease>, i: nat)
    requires OpsInv(activeOps, ops, leases) && i < |ops| && !ops[i].Ended?
    ensures activeOps > 0
  {
    SumAtLeast(Unfinished, ops, i);
  }

  lemma {:induction false} LinksFollow(c: Core, c': Core)
    requires Linked(c) && c'.leases == c.leases && c'.tracked == c.tracked && c'.book.sessions == c.book.sessions
    ensures Linked(c')
  {
    forall v | v in c'.tracked
      ensures c'.tracked[v] < |c'.leases| && LinkedSession(c', v)
    {
      assert LinkedSession(c, v);
    }
    forall l | 0 <= l < |c'.leases|
      ensures LinkedLease(c', l)
    {
      assert LinkedLease(c, l);
    }
  }

  lemma {:induction false} MutexFollows(m: Mutex, m': Mutex, c: Core, c': Core, graceful: bool)
    requires MutexInv(m, c, graceful) && c'.leases == c.leases && c'.tracked == c.tracked
    requires m == m' || (!m.Returner? && !m'.Returner? && !m'.DrainLoop? && (m.DrainLoop? ==> m.todo == {}))
    requires m'.DrainLoop? ==> c'.book.phase == c.book.phase
    ensures MutexInv(m', c', graceful)
  {
    if m'.DrainLoop? {
      assert forall v :: v in m'.todo ==> StillActive(c, v) && StillActive(c', v);
    }
  }

  /** Putting a lease that is not, and does not become, a session's keeps the links. */
  lemma {:induction false} PutKeepsLinks(c: Core, l: nat, x: Lease)
    requires Linked(c) && l < |c.leases|
    requires !c.leases[l].Active? && !c.leases[l].Drained? && !x.Active? && !x.Drained?
    ensures Linked(PutLease(c, l, x))
  {
    var c' := PutLease(c, l, x);
    forall v | v in c'.tracked
      ensures c'.tracked[v] < |c'.leases| && LinkedSession(c', v)
    {
      assert LinkedSession(c, v);
    }
    forall k | 0 <= k < |c'.leases|
      ensures LinkedLease(c', k)
    {
      assert LinkedLease(c, k);
    }
  }

  lemma {:induction false} PutKeepsMutex(m: Mutex, c: Core, graceful: bool, l: nat, x: Lease)
    requires MutexInv(m, c, graceful) && l < |c.leases|
    requires !c.leases[l].Active? && !c.leases[l].Returning? && !x.Active? && !x.Drained? && !x.Returning?
    ensures MutexInv(m, PutLease(c, l, x), graceful)
  {
    var c' := PutLease(c, l, x);
    if m.DrainLoop? {
      forall v | v in m.todo
        ensures StillActive(c', v)
      {
        assert StillActive(c, v);
      }
    }
  }

  lemma {:induction false} AppendKeeps(m: Mutex, c: Core, graceful: bool, x: Lease)
    requires Linked(c) && MutexInv(m, c, graceful) && x.Opening?
    ensures Linked(c.(leases := c.leases + [x])) && MutexInv(m, c.(leases := c.leases + [x]), graceful)
  {
    var c' := c.(leases := c.leases + [x]);
    forall v | v in c'.tracked
      ensures c'.tracked[v] < |c'.leases| && LinkedSession(c', v)
    {
      assert LinkedSession(c, v);
    }
    forall k | 0 <= k < |c'.leases|
      ensures LinkedLease(c', k)
    {
      assert k < |c.leases| ==> LinkedLease(c, k);
    }
    if m.DrainLoop? {
      assert forall v :: v in m.todo ==> StillActive(c, v) && StillActive(c', v);
    }
  }

  // Sections that change neither leases nor sessions.

  ghost predicate LeavesLeases(s: System, s': System) {
    && s'.core.leases == s.core.leases && s'.core.tracked == s.core.tracked && s'.graceful == s.graceful
    && s'.core.book.sessions == s.core.book.sessions
  }

  lemma {:induction false} BeginOpKeeps(s: System, s': System)
    requires Inv(s) && s.mutex == Free && BeginOpStep(s, s')
    ensures Inv(s') && Onward(s, s')
  {
    SumAppend(Unfinished, s.ops, Begun);
    forall k | 0 <= k < |s'.ops|
      ensures OpOk(k, s'.ops[k], s'.core.leases)
    {
      assert k < |s.ops| ==> OpOk(k, s.ops[k], s.core.leases);
    }
    LinksFollow(s.core, s'.core);
    MutexFollows(s.mutex, s'.mutex, s.core, s'.core, s.graceful);
  }

  lemma {:induction false} EndOpKeeps(s: System, s': System, i: nat)
    requires Inv(s) && s.mutex == Free && EndOpStep(s, s', i)
    ensures Inv(s') && Onward(s, s')
  {
    UnfinishedCounts(s.core.book.activeOps, s.ops, s.core.leases, i);
    OpMoves(s.core.book.activeOps, s.ops, s.core.leases, s.core.leases, i, Ended);
    LinksFollow(s.core, s'.core);
    MutexFollows(s.mutex, s'.mutex, s.core, s'.core, s.graceful);
  }

  lemma {:induction false} PlainKeeps(s: System, s': System)
    requires OpsInv(s.core.book.activeOps, s.ops, s.core.leases) && Linked(s.core)
        && MutexInv(s.mutex, s.core, s.graceful)
    requires LeavesLeases(s, s') && s'.core.book.activeOps == s.core.book.activeOps && s'.ops == s.ops
    requires s'.mutex == s.mutex || (!s.mutex.Returner? && !s'.mutex.Returner? && !s'.mutex.DrainLoop?
                                     && (s.mutex.DrainLoop? ==> s.mutex.todo == {}))
    requires s'.mutex.DrainLoop? ==> s'.core.book.phase == s.core.book.phase
    ensures OpsInv(s'.core.book.activeOps, s'.ops, s'.core.leases)
    ensures Linked(s'.core) && MutexInv(s'.mutex, s'.core, s'.graceful)
  {
    LinksFollow(s.core, s'.core);
    MutexFollows(s.mutex, s'.mutex, s.core, s'.core, s.graceful);
  }

  lemma {:induction false} ListenerKeeps(s: System, s': System, v: nat)
    requires Inv(s) && s.mutex == Free && (AddListenerStep(s, s', v) || RemoveListenerStep(s, s', v))
    ensures Inv(s') && Onward(s, s')
  {
    PlainKeeps(s, s');
  }

  lemma {:induction false} AbortKeeps(s: System, s': System, why: AbortReason)
    requires Inv(s) && s.mutex == Free && AbortStep(s, s', why)
    ensures Inv(s') && Onward(s, s')
  {
    PlainKeeps(s, s');
  }

  lemma {:induction false} BookOnlyKeeps(s: System, s': System)
    requires Inv(s) && s.mutex == Free && (AcquireActivityStep(s, s') || RecordErrorStep(s, s'))
    ensures Inv(s') && Onward(s, s')
  {
    PlainKeeps(s, s');
    if RecordErrorStep(s, s') {
      assert Quiet(s') ==> Quiet(s);
    }
  }

  lemma {:induction false} ActivityCheckKeeps(s: System, s': System, a: nat)
    requires Inv(s) && s.mutex == Free && ActivityCheckStep(s, s', a)
    ensures Inv(s') && Onward(s, s')
  {
    PlainKeeps(s, s');
  }

  lemma {:induction false} CheckKeeps(s: System, s': System)
    requires Inv(s) && (CheckStep(s, s') || DrainedStep(s, s'))
    ensures Inv(s') && Onward(s, s')
  {
    PlainKeeps(s, s');
  }

  lemma {:induction false} ActivityKeeps(s: System, s': System, a: nat)
    requires Inv(s) && (ActivityDropStep(s, s', a) || ActivityDroppedStep(s, s', a))
    ensures Inv(s') && Onward(s, s')
  {
    PlainKeeps(s, s');
    assert s'.core.activities[a] == Returned || s'.core.activities[a] == ReturningCount;
  }

  // Sections that change sessions.

  lemma {:induction false} AdoptKeepsLinks(c: Core, v: nat, l: nat)
    requires Linked(c) && v !in c.tracked && l < |c.leases| && c.leases[l].Opening?
    ensures Linked(Adopted(c, v, l))
  {
    var c' := Adopted(c, v, l);
    forall w | w in c'.tracked
      ensures c'.tracked[w] < |c'.leases| && LinkedSession(c', w)
    {
      assert w != v ==> LinkedSession(c, w);
    }
    forall k | 0 <= k < |c'.leases|
      ensures LinkedLease(c', k)
    {
      assert LinkedLease(c, k);
    }
  }

  lemma {:induction false} AdoptKeeps(s: System, s': System, i: nat, v: nat)
    requires Inv(s) && s.mutex == Free && AdoptStep(s, s', i, v)
    ensures Inv(s') && Onward(s, s')
  {
    assert OpOk(i, s.ops[i], s.core.leases);
    OpMoves(s.core.book.activeOps, s.ops, s.core.leases, s'.core.leases, i, Begun);
    AdoptKeepsLinks(s.core, v, s.ops[i].lease);
  }

  lemma {:induction false} ForgetKeepsLinks(c: Core, v: nat)
    requires Linked(c) && v in c.tracked && c.tracked[v] < |c.leases|
    ensures Linked(Forgotten(c, v))
  {
    var c' := Forgotten(c, v);
    assert LinkedSession(c, v);
    forall w | w in c'.tracked
      ensures c'.tracked[w] < |c'.leases| && LinkedSession(c', w)
    {
      assert LinkedSession(c, w);
    }
    forall k | 0 <= k < |c'.leases|
      ensures LinkedLease(c', k)
    {
      assert LinkedLease(c, k);
    }
  }

  lemma {:induction false} RemoveKeeps(s: System, s': System, v: nat)
    requires Inv(s) && s.mutex == Free && RemoveStep(s, s', v)
    ensures Inv(s') && Onward(s, s')
  {
    assert LinkedSession(s.core, v);
    OpsUntouched(s.core.book.activeOps, s.ops, s.core.leases, s'.core.leases);
    ForgetKeepsLinks(s.core, v);
    assert s'.core.leases[s.core.tracked[v]] != Gone;
  }

  lemma {:induction false} GracefulKeeps(s: System, s': System)
    requires Inv(s) && s.mutex == Free && GracefulStep(s, s')
    ensures Inv(s') && Onward(s, s')
  {
    LinksFollow(s.core, s'.core);
    forall v | v in s.core.tracked.Keys
      ensures StillActive(s'.core, v)
    {
      assert LinkedSession(s.core, v);
    }
    forall l | 0 <= l < |s.core.leases| && s.core.leases[l].Active?
      ensures s.core.leases[l].session in s.core.tracked.Keys
    {
      assert LinkedLease(s.core, l);
    }
  }

  lemma {:induction false} DrainKeepsLinks(c: Core, v: nat)
    requires Linked(c) && StillActive(c, v)
    ensures Linked(PutLease(c, c.tracked[v], Drained(v)))
  {
    var c' := PutLease(c, c.tracked[v], Drained(v));
    forall w | w in c'.tracked
      ensures c'.tracked[w] < |c'.leases| && LinkedSession(c', w)
    {
      assert LinkedSession(c, w);
    }
    forall k | 0 <= k < |c'.leases|
      ensures LinkedLease(c', k)
    {
      assert LinkedLease(c, k);
    }
  }

  lemma {:induction false} DrainKeepsMutex(m: Mutex, c: Core, v: nat)
    requires Linked(c) && MutexInv(m, c, true) && m.DrainLoop? && v in m.todo && StillActive(c, v)
    ensures MutexInv(DrainLoop(m.todo - {v}), PutLease(c, c.tracked[v], Drained(v)), true)
  {
    var c' := PutLease(c, c.tracked[v], Drained(v));
    forall w | w in m.todo - {v}
      ensures StillActive(c', w)
    {
      assert StillActive(c, w);
    }
    forall l | 0 <= l < |c'.leases| && c'.leases[l].Active?
      ensures c'.leases[l].session in m.todo - {v}
    {
      assert LinkedLease(c, l);
    }
  }

  lemma {:induction false} DrainOneKeeps(s: System, s': System, v: nat)
    requires Inv(s) && DrainOneStep(s, s', v)
    ensures Inv(s') && Onward(s, s')
  {
    OpsUntouched(s.core.book.activeOps, s.ops, s.core.leases, s'.core.leases);
    DrainKeepsLinks(s.core, v);
    DrainKeepsMutex(s.mutex, s.core, v);
  }

  lemma {:induction false} ReturnedKeeps(s: System, s': System)
    requires Inv(s) && ReturnedStep(s, s')
    ensures Inv(s') && Onward(s, s')
  {
    OpsUntouched(s.core.book.activeOps, s.ops, s.core.leases, s'.core.leases);
    PutKeepsLinks(s.core, s.mutex.lease, Gone);
  }

  // Leases outside the mutex.

  lemma {:induction false} HolderKeeps(s: System, s': System, l: nat)
    requires Inv(s) && (HolderDropStep(s, s', l) || HolderDroppedStep(s, s', l))
    ensures Inv(s') && Onward(s, s')
  {
    OpsUntouched(s.core.book.activeOps, s.ops, s.core.leases, s'.core.leases);
    PutKeepsLinks(s.core, l, s'.core.leases[l]);
    PutKeepsMutex(s.mutex, s.core, s.graceful, l, s'.core.leases[l]);
    assert s.core.leases[l] != Gone;
  }

  ghost predicate Puts(s: System, s': System, i: nat, l: nat, x: Lease, op: Op) {
    && i < |s.ops| && !s.ops[i].Ended? && !op.Ended?
    && l < |s.core.leases|
    && (s.core.leases[l] == Opening(i) || s.core.leases[l] == Settling(i) || s.core.leases[l] == Held)
    && !x.Active? && !x.Drained? && !x.Returning? && OpOk(i, op, s.core.leases[l := x])
    && s' == s.With(PutLease(s.core, l, x)).Set(i, op)
  }

  lemma {:induction false} OpLeaseEffect(s: System, s': System, i: nat)
    requires OpLeaseStep(s, s', i) && i < |s.ops| && OpOk(i, s.ops[i], s.core.leases)
    ensures AcquireStep(s, s', i) || exists l: nat, x, op :: Puts(s, s', i, l, x, op)
  {
    if l: nat :| TakeHeld(s, s', i, l) {
      assert Puts(s, s', i, l, Opening(i), Holding(l));
    } else if HandOverStep(s, s', i) {
      assert Puts(s, s', i, s.ops[i].lease, Held, Begun);
    } else if DropStep(s, s', i) {
      assert Puts(s, s', i, s.ops[i].lease, Settling(i), Dropping(s.ops[i].lease));
    } else if DroppedStep(s, s', i) {
      assert Puts(s, s', i, s.ops[i].lease, Gone, Begun);
    }
  }

  lemma {:induction false} OpPutKeeps(s: System, s': System, i: nat, l: nat, x: Lease, op: Op)
    requires Inv(s) && Puts(s, s', i, l, x, op)
    ensures Inv(s') && Onward(s, s')
  {
    UnfinishedCounts(s.core.book.activeOps, s.ops, s.core.leases, i);
    OpMoves(s.core.book.activeOps, s.ops, s.core.leases, s'.core.leases, i, op);
    PutKeepsLinks(s.core, l, x);
    PutKeepsMutex(s.mutex, s.core, s.graceful, l, x);
  }

  lemma {:induction false} AcquireKeeps(s: System, s': System, i: nat)
    requires Inv(s) && AcquireStep(s, s', i)
    ensures Inv(s') && Onward(s, s')
  {
    UnfinishedCounts(s.core.book.activeOps, s.ops, s.core.leases, i);
    OpMoves(s.core.book.activeOps, s.ops, s.core.leases, s'.core.leases, i, Holding(|s.core.leases|));
    AppendKeeps(s.mutex, s.core, s.graceful, Opening(i));
  }

  /** While an operation is in progress the engine is not done, whatever its leases do. */
  lemma {:induction false} OpLeaseKeeps(s: System, s': System, i: nat)
    requires Inv(s) && OpLeaseStep(s, s', i)
    ensures Inv(s') && Onward(s, s')
  {
    assert OpOk(i, s.ops[i], s.core.leases);
    OpLeaseEffect(s, s', i);
    if AcquireStep(s, s', i) {
      AcquireKeeps(s, s', i);
    } else {
      var l: nat, x, op :| Puts(s, s', i, l, x, op);
      OpPutKeeps(s, s', i, l, x, op);
    }
  }

  lemma {:induction false} SectionKeeps(s: System, s': System)
    requires Inv(s) && SectionStep(s, s')
    ensures Inv(s') && Onward(s, s')
  {
    if BeginOpStep(s, s') {
      BeginOpKeeps(s, s');
    } else if GracefulStep(s, s') {
      GracefulKeeps(s, s');
    } else if AcquireActivityStep(s, s') || RecordErrorStep(s, s') {
      BookOnlyKeeps(s, s');
    } else if i: nat :| EndOpStep(s, s', i) {
      EndOpKeeps(s, s', i);
    } else if i: nat, v: nat :| AdoptStep(s, s', i, v) {
      AdoptKeeps(s, s', i, v);
    } else if v: nat :| RemoveStep(s, s', v) {
      RemoveKeeps(s, s', v);
    } else if a: nat :| ActivityCheckStep(s, s', a) {
      ActivityCheckKeeps(s, s', a);
    } else if why :| AbortStep(s, s', why) {
      AbortKeeps(s, s', why);
    } else {
      var v: nat :| AddListenerStep(s, s', v) || RemoveListenerStep(s, s', v);
      ListenerKeeps(s, s', v);
    }
  }

  lemma {:induction false} OutsideKeeps(s: System, s': System)
    requires Inv(s) && OutsideStep(s, s')
    ensures Inv(s') && Onward(s, s')
  {
    if i: nat :| OpLeaseStep(s, s', i) {
      OpLeaseKeeps(s, s', i);
    } else if l: nat :| HolderDropStep(s, s', l) {
      HolderKeeps(s, s', l);
    } else if l: nat :| HolderDroppedStep(s, s', l) {
      HolderKeeps(s, s', l);
    } else if a: nat :| ActivityDropStep(s, s', a) {
      ActivityKeeps(s, s', a);
    } else {
      var a: nat :| ActivityDroppedStep(s, s', a);
      ActivityKeeps(s, s', a);
    }
  }

  lemma {:induction false} StepKeeps(s: System, s': System)
    requires Inv(s) && Next(s, s')
    ensures Inv(s') && Onward(s, s')
  {
    if SectionStep(s, s') {
      SectionKeeps(s, s');
    } else if OutsideStep(s, s') {
      OutsideKeeps(s, s');
    } else if CheckStep(s, s') || DrainedStep(s, s') {
      CheckKeeps(s, s');
    } else if ReturnedStep(s, s') {
      ReturnedKeeps(s, s');
    } else {
      var v: nat :| DrainOneStep(s, s', v);
      DrainOneKeeps(s, s', v);
    }
  }

  lemma {:induction false} InvIsInductive()
    ensures Inductive(Init, Next, Inv)
  {
    forall s, s' | Inv(s) && Next(s, s')
      ensures Inv(s')
    {
      StepKeeps(s, s');
    }
  }

  lemma {:induction false} Reached(s: System)
    requires Reachable(Init, Next, s)
    ensures Inv(s)
  {
    InvIsInductive();
    Invariant(Init, Next, Inv, s);
  }

  // --------------------------------------------------------- theorems

  lemma {:induction false} RunForward(run: seq<System>, i: nat, j: nat)
    requires IsRun(Init, Next, run) && i <= j < |run|
    ensures Forward(run[i], run[j])
  {
    InvIsInductive();
    forall s, s' | Inv(s) && Next(s, s')
      ensures Forward(s, s')
    {
      StepKeeps(s, s');
    }
    MonotoneOnRun(Init, Next, Inv, Forward, run, i, j);
  }

  /** With the count of operations at zero every operation has ended. */
  lemma {:induction false} NoneUnfinished(s: System)
    requires Inv(s) && s.core.book.activeOps == 0
    ensures forall k :: 0 <= k < |s.ops| ==> s.ops[k] == Ended
  {
    forall k | 0 <= k < |s.ops|
      ensures s.ops[k] == Ended
    {
      if s.ops[k] != Ended {
        UnfinishedCounts(s.core.book.activeOps, s.ops, s.core.leases, k);
      }
    }
  }

  /** Once `done` is closed nothing is left, then and at every later point of the run. */
  lemma {:induction false} DoneBarrier(run: seq<System>, i: nat, j: nat)
    requires IsRun(Init, Next, run) && i <= j < |run| && run[i].core.book.closed
    ensures run[j].core.book.phase == Done && Empty(run[j].core)
    ensures forall k :: 0 <= k < |run[j].ops| ==> run[j].ops[k] == Ended
  {
    RunForward(run, i, j);
    InvIsInductive();
    InvariantOnRun(Init, Next, Inv, run, j);
    NoneUnfinished(run[j]);
  }

  /**
   When nothing is left and no check is under way or owed, `done` is closed, except exactly when the last
   thing to come back was a lease from the HTTP connection tracker.
   */
  lemma {:induction false} NoMissedCompletion(s: System)
    requires Reachable(Init, Next, s) && Quiet(s)
    ensures s.core.book.closed <==> !s.stale
  {
    Reached(s);
  }

  ghost predicate NoHolderOnTheWay(s: System) {
    forall l :: 0 <= l < |s.core.leases| ==> s.core.leases[l] != HolderSettling
  }

  /** Without HTTP connection leases there is no such exception. */
  lemma {:induction false} NoMissedCompletionWithoutHolders(run: seq<System>)
    requires IsRun(Init, Next, run) && Quiet(run[|run| - 1])
    requires forall i :: 0 <= i < |run| ==> NoHolderOnTheWay(run[i])
    ensures run[|run| - 1].core.book.closed
  {
    NeverStale(run, |run| - 1);
    assert Reachable(Init, Next, run[|run| - 1]);
    NoMissedCompletion(run[|run| - 1]);
  }

  lemma {:induction false} NeverStale(run: seq<System>, i: nat)
    requires IsRun(Init, Next, run) && i < |run|
    requires forall i :: 0 <= i < |run| ==> NoHolderOnTheWay(run[i])
    ensures !run[i].stale
  {
    if i > 0 {
      NeverStale(run, i - 1);
      assert Next(run[i - 1], run[i - 1 + 1]);
      if run[i].stale {
        StaleNeedsHolder(run[i - 1], run[i]);
      }
    }
  }

  lemma {:induction false} StaleNeedsHolder(s: System, s': System)
    requires Next(s, s') && !s.stale && s'.stale
    ensures !NoHolderOnTheWay(s)
  {
  }

  /** Once a graceful shutdown has gone through its loop every tracked lease is draining and none is active. */
  lemma {:induction false} GracefulDrainsAll(s: System)
    requires Reachable(Init, Next, s) && s.graceful && !s.mutex.DrainLoop?
    ensures NoneActive(s.core)
    ensures forall v :: v in s.core.tracked ==>
              s.core.tracked[v] < |s.core.leases| && s.core.leases[s.core.tracked[v]] == Drained(v)
  {
    Reached(s);
    forall v | v in s.core.tracked
      ensures s.core.leases[s.core.tracked[v]] == Drained(v)
    {
      assert LinkedSession(s.core, v);
    }
  }

  /** `Shutdown` reports success only when the engine drained and at no point of the run began to abort. */
  lemma {:induction false} SuccessMeansNeverAborted(run: seq<System>, i: nat, j: nat)
    requires IsRun(Init, Next, run) && i <= j < |run|
    requires run[j].core.book.closed && ShutdownResult(run[j].core.book) == Success
    ensures run[i].core.book.phase != Aborting && run[j].graceful
  {
    RunForward(run, i, j);
    InvIsInductive();
    InvariantOnRun(Init, Next, Inv, run, i);
    InvariantOnRun(Init, Next, Inv, run, j);
  }

  /** An abort reason is recorded only by beginning to abort. */
  lemma {:induction false} ReasonMeansAborted(run: seq<System>, j: nat)
    requires IsRun(Init, Next, run) && j < |run| && run[j].core.book.reason != NoAbort
    ensures exists i :: 0 <= i <= j && run[i].core.book.phase == Aborting
  {
    if j > 0 {
      InvIsInductive();
      forall s, s' | Inv(s) && Next(s, s')
        ensures Onward(s, s')
      {
        StepKeeps(s, s');
      }
      var k := LeavesOnRun(Init, Next, Inv, (s: System) => s.core.book.reason == NoAbort,
          (s: System, s': System) => s'.core.book.phase == Aborting, run, 0, j);
      assert run[k + 1].core.book.phase == Aborting;
    }
  }

  /**
   What a shutdown reports, of any engine that is done: a recorded error if there is one, else that it was
   closed if it ever began to abort, and success exactly otherwise.
   */
  lemma {:induction false} ShutdownReports(run: seq<System>, j: nat)
    requires IsRun(Init, Next, run) && j < |run| && run[j].core.book.closed
    ensures var aborted := exists i :: 0 <= i <= j && run[i].core.book.phase == Aborting;
            ShutdownResult(run[j].core.book) ==
            if run[j].core.book.failed then OtherError else if aborted then ClosedError else Success
  {
    if run[j].core.book.reason != NoAbort {
      ReasonMeansAborted(run, j);
    }
    InvIsInductive();
    forall i | 0 <= i <= j
      ensures run[i].core.book.phase == Aborting ==> run[j].core.book.reason != NoAbort
    {
      InvariantOnRun(Init, Next, Inv, run, i);
      RunForward(run, i, j);
    }
  }

  // ------------------------------------------- the exception is real

  /** Nothing is left, `done` is open and the engine is already aborting. */
  ghost predicate Stranded(s: System) {
    && Quiet(s) && s.core.book.phase == Aborting && !s.core.book.closed
    && (forall i :: 0 <= i < |s.ops| ==> s.ops[i] == Ended)
  }

  /** Such an engine never completes. */
  lemma {:induction false} StrandedForEver(s: System, s': System)
    requires Reachable(Init, Next, s) && Stranded(s) && Next(s, s')
    ensures Stranded(s')
  {
    Reached(s);
    assert s.core.tracked == map[];
  }

  /** A listener accepts a connection; the engine is closed while the tracker is giving its lease back. */
  lemma {:induction false} StrandedIsReachable() returns (s: System)
    ensures Reachable(Init, Next, s) && Stranded(s) && s.stale
  {
    var s0 := System(NEW, Free, [], false, false);
    var s1 := s0.WithBook(NEW_BOOK.(listeners := {7}));
    var s2 := s1.WithBook(OpBegun(s1.core.book)).(ops := [Begun]);
    ReachableInit(Init, Next, s0);
    assert AddListenerStep(s0, s1, 7);
    ReachableStep(Init, Next, s0, s1);
    assert BeginOpStep(s1, s2);
    ReachableStep(Init, Next, s1, s2);
    var s5 := StrandedAccept(s2);
    s := StrandedTail(s5);
  }

  lemma {:induction false} StrandedAccept(s2: System) returns (s5: System)
    requires Reachable(Init, Next, s2)
    requires s2 == System(NEW.(book := NEW_BOOK.(listeners := {7}, activeOps := 1)), Free, [Begun], false, false)
    ensures Reachable(Init, Next, s5)
    ensures s5 == System(Core(NEW_BOOK.(listeners := {7}), map[], [Held], []), Checking, [Ended], false, false)
  {
    var s3 := s2.With(s2.core.(leases := [Opening(0)])).Set(0, Holding(0));
    var s4 := s3.With(PutLease(s3.core, 0, Held)).Set(0, Begun);
    s5 := s4.WithBook(OpEnded(s4.core.book)).(mutex := Checking).Set(0, Ended);
    assert AcquireStep(s2, s3, 0);
    assert OpLeaseStep(s2, s3, 0);
    ReachableStep(Init, Next, s2, s3);
    assert HandOverStep(s3, s4, 0);
    assert OpLeaseStep(s3, s4, 0);
    ReachableStep(Init, Next, s3, s4);
    assert EndOpStep(s4, s5, 0);
    ReachableStep(Init, Next, s4, s5);
  }

  lemma {:induction false} StrandedTail(s5: System) returns (s: System)
    requires Reachable(Init, Next, s5)
    requires s5 == System(Core(NEW_BOOK.(listeners := {7}), map[], [Held], []), Checking, [Ended], false, false)
    ensures Reachable(Init, Next, s) && Stranded(s) && s.stale
  {
    var s6 := s5.(mutex := Free);
    var s7 := s6.WithBook(AbortBegun(s6.core.book, Explicit)).(mutex := Checking);
    var s8 := s7.(mutex := Free);
    var s9 := s8.With(PutLease(s8.core, 0, HolderSettling));
    assert CheckStep(s5, s6);
    ReachableStep(Init, Next, s5, s6);
    assert AbortStep(s6, s7, Explicit);
    ReachableStep(Init, Next, s6, s7);
    assert CheckStep(s7, s8);
    ReachableStep(Init, Next, s7, s8);
    assert HolderDropStep(s8, s9, 0);
    ReachableStep(Init, Next, s8, s9);
    s := StrandedEnd(s9);
  }

  lemma {:induction false} StrandedEnd(s9: System) returns (s: System)
    requires Reachable(Init, Next, s9)
    requires s9.core == Core(NEW_BOOK.(phase := Aborting, listeners := {7}, reason := Explicit), map[],
        [HolderSettling], [])
    requires s9 == System(s9.core, Free, [Ended], false, false)
    ensures Reachable(Init, Next, s) && Stranded(s) && s.stale
  {
    var s10 := s9.WithBook(s9.core.book.(listeners := {})).(mutex := Checking);
    var s11 := s10.(mutex := Free);
    s := s11.With(PutLease(s11.core, 0, Gone)).(stale := true);
    assert RemoveListenerStep(s9, s10, 7);
    ReachableStep(Init, Next, s9, s10);
    assert s10.core.leases[0] == HolderSettling;
    assert CheckStep(s10, s11);
    ReachableStep(Init, Next, s10, s11);
    assert HolderDroppedStep(s11, s, 0);
    ReachableStep(Init, Next, s11, s);
  }
}
