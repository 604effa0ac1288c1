/**
 Closing an I/O completion port while calls of `Get` block in the kernel.

 `Get` blocks holding the read lock, and `Close` needs the write lock, so `Close` first posts one
 reserved packet for every call that was counted when it looked. The theorems say that this is enough.
 */
module CompletionPort {
  import opened Counting
  import opened Runs

  const MILLISECOND := 1_000_000
  const INFINITE := 0xFFFF_FFFF

  /** Rounds up to milliseconds; only a negative timeout means for ever. */
  function TimeoutMillis(timeout: int): (ms: int)
    ensures 0 <= ms <= INFINITE && (ms == INFINITE <==> timeout < 0)
    ensures 0 <= timeout <= (INFINITE - 1) * MILLISECOND ==> (ms - 1) * MILLISECOND < timeout <= ms * MILLISECOND
    ensures timeout > (INFINITE - 1) * MILLISECOND ==> ms == INFINITE - 1
  {
    if timeout < 0 then INFINITE
    else if timeout == 0 then 0
    else
      var ms := timeout / MILLISECOND + if timeout % MILLISECOND != 0 then 1 else 0;
      if ms >= INFINITE then INFINITE - 1 else ms
  }

  // --------------------------------------------------------- the machine

  datatype Thread =
    | Outside
    | Counting
    | ReadLocking
    | Rechecking
    | Waiting
    | Unlocking
    | Uncounting
    | PostLocking
    | PostChecking
    | Posting
    | PostUnlocking

  datatype Closer = NotClosing | Snapshotting | Waking(left: nat) | WriteLocking | Locked | Finished

  /** Packets in the port's queue by kind; `lost` counts reserved packets the kernel refused. */
  datatype Port = Port(
    closed: bool, waiters: int, readers: int, open: bool,
    normal: nat, reserved: nat, lost: nat, closer: Closer, threads: seq<Thread>)
  {
    function Go(i: nat, to: Thread): Port
      requires i < |threads|
    {
      this.(threads := threads[i := to])
    }

    /** A pending writer keeps new readers out. */
    predicate ReadersAllowed() { !closer.WriteLocking? && !closer.Locked? }
  }

  ghost predicate Init(s: Port) { s == Port(false, 0, 0, true, 0, 0, 0, NotClosing, []) }

  ghost predicate GetStep(s: Port, s': Port, i: nat) {
    i < |s.threads| &&
    match s.threads[i]
    case Outside => !s.closed && s' == s.Go(i, Counting)
    case Counting => s' == s.(waiters := s.waiters + 1).Go(i, ReadLocking)
    case ReadLocking => s.ReadersAllowed() && s' == s.(readers := s.readers + 1).Go(i, Rechecking)
    case Rechecking => s' == s.Go(i, if s.closed then Unlocking else Waiting)
    case Waiting => TakePacket(s, s', i) || s' == s.Go(i, Unlocking)
    case Unlocking => s' == s.(readers := s.readers - 1).Go(i, Uncounting)
    case Uncounting => s' == s.(waiters := s.waiters - 1).Go(i, Outside)
    case _ => false
  }

  ghost predicate TakePacket(s: Port, s': Port, i: nat) {
    && i < |s.threads|
    && (|| (s.normal > 0 && s' == s.(normal := s.normal - 1).Go(i, Unlocking))
        || (s.reserved > 0 && s' == s.(reserved := s.reserved - 1).Go(i, Unlocking)))
  }

  ghost predicate PostStep(s: Port, s': Port, i: nat) {
    i < |s.threads| &&
    match s.threads[i]
    case Outside => s' == s.Go(i, PostLocking)
    case PostLocking => s.ReadersAllowed() && s' == s.(readers := s.readers + 1).Go(i, PostChecking)
    case PostChecking => s' == s.Go(i, if s.closed then PostUnlocking else Posting)
    case Posting => s' == s.(normal := s.normal + 1).Go(i, PostUnlocking) || s' == s.Go(i, PostUnlocking)
    case PostUnlocking => s' == s.(readers := s.readers - 1).Go(i, Outside)
    case _ => false
  }

  /** Only the call that closes first does anything. */
  ghost predicate CloseStep(s: Port, s': Port) {
    match s.closer
    case NotClosing => s' == s.(closed := true, closer := Snapshotting)
    case Snapshotting => s' == s.(closer := Waking(if s.waiters > 0 then s.waiters else 0))
    case Waking(left) =>
      if left == 0 then s' == s.(closer := WriteLocking)
      else
        || s' == s.(reserved := s.reserved + 1, closer := Waking(left - 1))
        || s' == s.(lost := s.lost + 1, closer := Waking(left - 1))
    case WriteLocking => s.readers == 0 && s' == s.(closer := Locked)
    case Locked => s' == s.(open := false, closer := Finished)
    case Finished => false
  }

  /** A thread appears, or an operation on an associated handle completes. */
  ghost predicate OutsideStep(s: Port, s': Port) {
    s' == s.(threads := s.threads + [Outside]) || s' == s.(normal := s.normal + 1)
  }

  ghost predicate Next(s: Port, s': Port) {
    CloseStep(s, s') || OutsideStep(s, s') || (exists i :: GetStep(s, s', i)) || (exists i :: PostStep(s, s', i))
  }

  // --------------------------------------------------------- the invariant

  function Counted(t: Thread): int {
    if t.ReadLocking? || t.Rechecking? || t.Waiting? || t.Unlocking? || t.Uncounting? then 1 else 0
  }

  function HoldsLock(t: Thread): int {
    if t.Rechecking? || t.Waiting? || t.Unlocking? || t.PostChecking? || t.Posting? || t.PostUnlocking? then 1 else 0
  }

  /** Past the second check: in the kernel or about to be. */
  function InKernel(t: Thread): int { if t.Waiting? then 1 else 0 }

  /** Uses the port's handle. */
  function UsesHandle(t: Thread): int { if t.Waiting? || t.Posting? then 1 else 0 }

  ghost predicate Sums(s: Port) {
    s.waiters == Sum(Counted, s.threads) && s.readers == Sum(HoldsLock, s.threads)
  }

  /** What covers the calls in the kernel at each stage of `Close`. */
  ghost predicate Covered(s: Port) {
    match s.closer
    case NotClosing => s.reserved == 0 && s.lost == 0
    case Snapshotting => s.reserved == 0 && s.lost == 0
    case Waking(left) => s.reserved + left + s.lost >= Sum(InKernel, s.threads)
    case WriteLocking => s.reserved + s.lost >= Sum(InKernel, s.threads)
    case Locked => s.readers == 0
    case Finished => Sum(UsesHandle, s.threads) == 0
  }

  ghost predicate Inv(s: Port) {
    && Sums(s) && Covered(s)
    && (s.closed <==> s.closer != NotClosing)
    && (s.open <==> s.closer != Finished)
  }

  /** Every sum follows the move of one thread. */
  lemma SumsMove(threads: seq<Thread>, i: nat, to: Thread)
    requires i < |threads|
    ensures Sum(Counted, threads[i := to]) == Sum(Counted, threads) - Counted(threads[i]) + Counted(to)
    ensures Sum(HoldsLock, threads[i := to]) == Sum(HoldsLock, threads) - HoldsLock(threads[i]) + HoldsLock(to)
    ensures Sum(InKernel, threads[i := to]) == Sum(InKernel, threads) - InKernel(threads[i]) + InKernel(to)
    ensures Sum(UsesHandle, threads[i := to]) == Sum(UsesHandle, threads) - UsesHandle(threads[i]) + UsesHandle(to)
  {
    SumUpdate(Counted, threads, i, to);
    SumUpdate(HoldsLock, threads, i, to);
    SumUpdate(InKernel, threads, i, to);
    SumUpdate(UsesHandle, threads, i, to);
  }

  /** Calls in the kernel are counted, and whoever uses the handle holds the lock. */
  lemma {:induction false} SumsCompare(threads: seq<Thread>)
    ensures 0 <= Sum(InKernel, threads) <= Sum(Counted, threads)
    ensures 0 <= Sum(InKernel, threads) <= Sum(UsesHandle, threads) <= Sum(HoldsLock, threads)
  {
    if threads != [] {
      SumsCompare(threads[1..]);
    }
  }

  lemma UserIsSeen(threads: seq<Thread>, i: nat)
    requires i < |threads|
    ensures Sum(UsesHandle, threads) >= UsesHandle(threads[i]) && Sum(HoldsLock, threads) >= HoldsLock(threads[i])
  {
    SumAtLeast(UsesHandle, threads, i);
    SumAtLeast(HoldsLock, threads, i);
  }

  lemma WaitKeeps(s: Port, s': Port, i: nat)
    requires Inv(s) && GetStep(s, s', i) && (s.threads[i].Waiting? || s.threads[i].Rechecking?)
    ensures Inv(s')
  {
    SumsMove(s.threads, i, s'.threads[i]);
    UserIsSeen(s.threads, i);
  }

  lemma EnterKeeps(s: Port, s': Port, i: nat)
    requires Inv(s) && GetStep(s, s', i)
        && (s.threads[i].Outside? || s.threads[i].Counting? || s.threads[i].ReadLocking?)
    ensures Inv(s')
  {
    SumsMove(s.threads, i, s'.threads[i]);
    UserIsSeen(s.threads, i);
  }

  lemma ExitKeeps(s: Port, s': Port, i: nat)
    requires Inv(s) && GetStep(s, s', i) && (s.threads[i].Unlocking? || s.threads[i].Uncounting?)
    ensures Inv(s')
  {
    SumsMove(s.threads, i, s'.threads[i]);
    UserIsSeen(s.threads, i);
  }

  lemma PostEnterKeeps(s: Port, s': Port, i: nat)
    requires Inv(s) && PostStep(s, s', i)
        && (s.threads[i].Outside? || s.threads[i].PostLocking? || s.threads[i].PostChecking?)
    ensures Inv(s')
  {
    SumsMove(s.threads, i, s'.threads[i]);
    UserIsSeen(s.threads, i);
  }

  lemma PostExitKeeps(s: Port, s': Port, i: nat)
    requires Inv(s) && PostStep(s, s', i) && (s.threads[i].Posting? || s.threads[i].PostUnlocking?)
    ensures Inv(s')
  {
    SumsMove(s.threads, i, s'.threads[i]);
    UserIsSeen(s.threads, i);
  }

  lemma CloseKeeps(s: Port, s': Port)
    requires Inv(s) && CloseStep(s, s')
    ensures Inv(s')
  {
    SumsCompare(s.threads);
  }

  lemma OutsideKeeps(s: Port, s': Port)
    requires Inv(s) && OutsideStep(s, s')
    ensures Inv(s')
  {
    SumAppend(Counted, s.threads, Outside);
    SumAppend(HoldsLock, s.threads, Outside);
    SumAppend(InKernel, s.threads, Outside);
    SumAppend(UsesHandle, s.threads, Outside);
  }

  lemma InvIsInductive()
    ensures Inductive(Init, Next, Inv)
  {
    forall s, s' | Inv(s) && Next(s, s')
      ensures Inv(s')
    {
      if CloseStep(s, s') {
        CloseKeeps(s, s');
      } else if OutsideStep(s, s') {
        OutsideKeeps(s, s');
      } else if i: nat :| GetStep(s, s', i) {
        if s.threads[i].Waiting? || s.threads[i].Rechecking? {
          WaitKeeps(s, s', i);
        } else if s.threads[i].Unlocking? || s.threads[i].Uncounting? {
          ExitKeeps(s, s', i);
        } else {
          EnterKeeps(s, s', i);
        }
      } else {
        var i: nat :| PostStep(s, s', i);
        if s.threads[i].Posting? || s.threads[i].PostUnlocking? {
          PostExitKeeps(s, s', i);
        } else {
          PostEnterKeeps(s, s', i);
        }
      }
    }
  }

  lemma Reached(s: Port)
    requires Reachable(Init, Next, s)
    ensures Inv(s)
  {
    InvIsInductive();
    Invariant(Init, Next, Inv, s);
  }

  // --------------------------------------------------------- theorems

  /** Reserved packets still to be posted: all counted calls before the snapshot, what is left of it after. */
  function ToPost(s: Port): int {
    match s.closer
    case Snapshotting => s.waiters
    case Waking(left) => left
    case _ => 0
  }

  /** From closing until the lock is held, the packets cover the calls in the kernel, if none is refused. */
  lemma PacketsCoverWaiters(s: Port)
    requires Reachable(Init, Next, s) && s.closed
    ensures s.reserved + ToPost(s) + s.lost >= Sum(InKernel, s.threads)
    ensures s.lost == 0 ==> s.reserved + ToPost(s) >= Sum(InKernel, s.threads)
  {
    Reached(s);
    SumsCompare(s.threads);
  }

  /** The handle is closed only when no call uses it, and no call uses it afterwards. */
  lemma HandleOutlivesUsers(s: Port, i: nat)
    requires Reachable(Init, Next, s) && i < |s.threads| && (s.threads[i].Waiting? || s.threads[i].Posting?)
    ensures s.open
  {
    Reached(s);
    UserIsSeen(s.threads, i);
  }

  /** Steps a thread that holds the read lock still needs to let go of it. */
  function ToUnlock(t: Thread): int {
    match t
    case Rechecking => 2
    case Waiting => 2
    case Unlocking => 1
    case PostChecking => 2
    case Posting => 2
    case PostUnlocking => 1
    case _ => 0
  }

  // ------------------------------------------- calls that wait for ever

  /** The steps when every call waits for ever and no operation completes: only a packet ends a wait. */
  ghost predicate PatientNext(s: Port, s': Port) {
    || CloseStep(s, s')
    || s' == s.(threads := s.threads + [Outside])
    || (exists i :: PatientGet(s, s', i))
    || (exists i :: PostStep(s, s', i))
  }

  ghost predicate PatientGet(s: Port, s': Port, i: nat) {
    GetStep(s, s', i) && (s.threads[i].Waiting? ==> TakePacket(s, s', i))
  }

  /** From `s`, some run of patient calls lets `Close` have the write lock. */
  ghost predicate CanLock(s: Port) {
    exists run: seq<Port> :: IsRun((x: Port) => x == s, PatientNext, run) && run[|run| - 1].closer.Locked?
  }

  function AboutToPost(t: Thread): int { if t.Posting? then 1 else 0 }

  /** Packets that are queued or that a call past its closed check may still post. */
  function Supply(s: Port): int { s.normal + s.reserved + Sum(AboutToPost, s.threads) }

  ghost predicate Enough(s: Port) { Supply(s) >= Sum(InKernel, s.threads) }

  lemma PatientIsNext(s: Port, s': Port)
    requires PatientNext(s, s')
    ensures Next(s, s')
  {
    if s' == s.(threads := s.threads + [Outside]) {
      assert OutsideStep(s, s');
    } else if i: nat :| PatientGet(s, s', i) {
      assert GetStep(s, s', i);
    }
  }

  lemma StepKeeps(s: Port, s': Port)
    requires Inv(s) && PatientNext(s, s')
    ensures Inv(s')
  {
    PatientIsNext(s, s');
    InvIsInductive();
  }

  /** Thread `i` moves to `to`, and the sums follow. */
  lemma SupplyMoves(s: Port, s': Port, i: nat, to: Thread)
    requires i < |s.threads| && s'.threads == s.threads[i := to]
    ensures Sum(ToUnlock, s'.threads) == Sum(ToUnlock, s.threads) - ToUnlock(s.threads[i]) + ToUnlock(to)
    ensures Sum(InKernel, s'.threads) == Sum(InKernel, s.threads) - InKernel(s.threads[i]) + InKernel(to)
    ensures Sum(AboutToPost, s'.threads) == Sum(AboutToPost, s.threads) - AboutToPost(s.threads[i]) + AboutToPost(to)
  {
    SumUpdate(ToUnlock, s.threads, i, to);
    SumUpdate(InKernel, s.threads, i, to);
    SumUpdate(AboutToPost, s.threads, i, to);
  }

  /** Thread `i` takes a step that brings the lock closer: it takes a packet, posts one, or lets go. */
  lemma ThreadCanMove(s: Port, i: nat) returns (s': Port)
    requires Inv(s) && s.closer.WriteLocking? && Enough(s) && i < |s.threads| && ToUnlock(s.threads[i]) > 0
    requires s.threads[i].Waiting? ==> s.normal + s.reserved > 0
    ensures PatientNext(s, s') && s'.closer.WriteLocking? && Enough(s')
    ensures Sum(ToUnlock, s'.threads) < Sum(ToUnlock, s.threads)
  {
    var t := s.threads[i];
    if t.Waiting? {
      s' := (if s.normal > 0 then s.(normal := s.normal - 1) else s.(reserved := s.reserved - 1)).Go(i, Unlocking);
      assert TakePacket(s, s', i) && PatientGet(s, s', i);
    } else if t.Rechecking? {
      s' := s.Go(i, Unlocking);
      assert PatientGet(s, s', i);
    } else if t.Unlocking? {
      s' := s.(readers := s.readers - 1).Go(i, Uncounting);
      assert PatientGet(s, s', i);
    } else if t.PostChecking? {
      s' := s.Go(i, PostUnlocking);
      assert PostStep(s, s', i);
    } else if t.Posting? {
      s' := s.(normal := s.normal + 1).Go(i, PostUnlocking);
      assert PostStep(s, s', i);
    } else {
      s' := s.(readers := s.readers - 1).Go(i, Outside);
      assert PostStep(s, s', i);
    }
    SupplyMoves(s, s', i, s'.threads[i]);
  }

  /** While the read lock is held and there is enough, somebody can move. */
  lemma SomeoneCanMove(s: Port) returns (s': Port)
    requires Inv(s) && s.closer.WriteLocking? && Enough(s) && s.readers > 0
    ensures PatientNext(s, s') && s'.closer.WriteLocking? && Enough(s')
    ensures Sum(ToUnlock, s'.threads) < Sum(ToUnlock, s.threads)
  {
    var i := SumWitness(HoldsLock, s.threads);
    if s.threads[i].Waiting? && s.normal + s.reserved == 0 {
      SumAtLeast(InKernel, s.threads, i);
      i := SumWitness(AboutToPost, s.threads);
    }
    s' := ThreadCanMove(s, i);
  }

  lemma {:induction false} EnoughCanLock(s: Port) returns (run: seq<Port>)
    requires Inv(s) && s.closer.WriteLocking? && Enough(s)
    ensures IsRun((x: Port) => x == s, PatientNext, run) && run[|run| - 1].closer.Locked?
    decreases Sum(ToUnlock, s.threads)
  {
    SumNonNegative(ToUnlock, s.threads);
    SumNonNegative(HoldsLock, s.threads);
    if s.readers == 0 {
      var last := s.(closer := Locked);
      assert CloseStep(s, last);
      run := [s, last];
    } else {
      var s' := SomeoneCanMove(s);
      StepKeeps(s, s');
      var rest := EnoughCanLock(s');
      run := [s] + rest;
      forall i | 0 <= i < |run| - 1
        ensures PatientNext(run[i], run[i + 1])
      {
        if i > 0 {
          assert PatientNext(rest[i - 1], rest[i - 1 + 1]);
        }
      }
    }
  }

  /** `Close` waits for the lock and there are fewer packets to come than calls to wake. */
  ghost predicate Short(s: Port) { Inv(s) && s.closer.WriteLocking? && !Enough(s) }

  lemma ShortHoldsLock(s: Port)
    requires Short(s)
    ensures s.readers > 0
  {
    SumNonNegative(AboutToPost, s.threads);
    SumsCompare(s.threads);
  }

  lemma PatientGetStaysShort(s: Port, s': Port, i: nat)
    requires Short(s) && PatientGet(s, s', i)
    ensures s'.closer.WriteLocking? && !Enough(s')
  {
    SupplyMoves(s, s', i, s'.threads[i]);
  }

  lemma PostStaysShort(s: Port, s': Port, i: nat)
    requires Short(s) && PostStep(s, s', i)
    ensures s'.closer.WriteLocking? && !Enough(s')
  {
    SupplyMoves(s, s', i, s'.threads[i]);
  }

  lemma StaysShort(s: Port, s': Port)
    requires Short(s) && PatientNext(s, s')
    ensures Short(s')
  {
    StepKeeps(s, s');
    ShortHoldsLock(s);
    if i: nat :| PatientGet(s, s', i) {
      PatientGetStaysShort(s, s', i);
    } else if i: nat :| PostStep(s, s', i) {
      PostStaysShort(s, s', i);
    } else if s' == s.(threads := s.threads + [Outside]) {
      SumAppend(AboutToPost, s.threads, Outside);
      SumAppend(InKernel, s.threads, Outside);
    }
  }

  lemma ShortCannotLock(s: Port)
    requires Short(s)
    ensures !CanLock(s)
  {
    if CanLock(s) {
      var run: seq<Port> :| IsRun((x: Port) => x == s, PatientNext, run) && run[|run| - 1].closer.Locked?;
      forall x, x' | Short(x) && PatientNext(x, x')
        ensures Short(x')
      {
        StaysShort(x, x');
      }
      InvariantOnRun((x: Port) => x == s, PatientNext, Short, run, |run| - 1);
    }
  }

  /**
   When `Close` waits for the lock and all calls wait for ever, it can have the lock if and only if the
   packets queued, or still to be posted by calls past their check, are at least the calls in the kernel.
   */
  lemma CanLockIffEnough(s: Port)
    requires Reachable(Init, Next, s) && s.closer.WriteLocking?
    ensures CanLock(s) <==> s.normal + s.reserved + Sum(AboutToPost, s.threads) >= Sum(InKernel, s.threads)
  {
    Reached(s);
    if Enough(s) {
      var run := EnoughCanLock(s);
    } else {
      ShortCannotLock(s);
    }
  }

  /** If no reserved packet was refused there is always enough: `Close` is never stuck. */
  lemma CloseIsNeverStuck(s: Port)
    requires Reachable(Init, Next, s) && s.closer.WriteLocking? && s.lost == 0
    ensures CanLock(s)
  {
    Reached(s);
    PacketsCoverWaiters(s);
    SumNonNegative(AboutToPost, s.threads);
    CanLockIffEnough(s);
  }

  /** Without that condition it can be: one refused packet, and the call in the kernel keeps the lock for ever. */
  lemma RefusedPacketStrands() returns (s: Port)
    ensures Reachable(Init, Next, s) && s.closer.WriteLocking? && s.lost == 1
    ensures s.threads == [Waiting] && !CanLock(s)
  {
    var s0 := Port(false, 0, 0, true, 0, 0, 0, NotClosing, []);
    var s1 := s0.(threads := [Outside]);
    var s2 := s1.Go(0, Counting);
    var s3 := s2.(waiters := 1).Go(0, ReadLocking);
    var s4 := s3.(readers := 1).Go(0, Rechecking);
    var s5 := s4.Go(0, Waiting);
    ReachableInit(Init, Next, s0);
    assert OutsideStep(s0, s1);
    ReachableStep(Init, Next, s0, s1);
    assert GetStep(s1, s2, 0);
    ReachableStep(Init, Next, s1, s2);
    assert GetStep(s2, s3, 0);
    ReachableStep(Init, Next, s2, s3);
    assert GetStep(s3, s4, 0);
    ReachableStep(Init, Next, s3, s4);
    assert GetStep(s4, s5, 0);
    ReachableStep(Init, Next, s4, s5);
    s := RefusedTail(s5);
    assert Sum(AboutToPost, s.threads) == 0 && Sum(InKernel, s.threads) == 1;
    CanLockIffEnough(s);
  }

  lemma RefusedTail(s5: Port) returns (s: Port)
    requires Reachable(Init, Next, s5) && s5 == Port(false, 1, 1, true, 0, 0, 0, NotClosing, [Waiting])
    ensures Reachable(Init, Next, s) && s == Port(true, 1, 1, true, 0, 0, 1, WriteLocking, [Waiting])
  {
    var s6 := s5.(closed := true, closer := Snapshotting);
    var s7 := s6.(closer := Waking(1));
    var s8 := s7.(lost := 1, closer := Waking(0));
    s := s8.(closer := WriteLocking);
    assert CloseStep(s5, s6);
    ReachableStep(Init, Next, s5, s6);
    assert CloseStep(s6, s7);
    ReachableStep(Init, Next, s6, s7);
    assert CloseStep(s7, s8);
    ReachableStep(Init, Next, s7, s8);
    assert CloseStep(s8, s);
    ReachableStep(Init, Next, s8, s);
  }

  // ------------------------------------------- calls that succeed

  /** Some run leads from `s` to `t`. */
  ghost predicate Leads(s: Port, t: Port) { Reachable((x: Port) => x == s, Next, t) }

  lemma LeadsStep(s: Port, t: Port, t': Port)
    requires Leads(s, t) && Next(t, t')
    ensures Leads(s, t')
  {
    ReachableStep((x: Port) => x == s, Next, t, t');
  }

  lemma LeadsNowhere(s: Port)
    ensures Leads(s, s)
  {
    ReachableInit((x: Port) => x == s, Next, s);
  }

  lemma GetLeads(s: Port, t: Port, t': Port, i: nat)
    requires Leads(s, t) && GetStep(t, t', i)
    ensures Leads(s, t')
  {
    assert Next(t, t');
    LeadsStep(s, t, t');
  }

  lemma PostLeads(s: Port, t: Port, t': Port, i: nat)
    requires Leads(s, t) && PostStep(t, t', i)
    ensures Leads(s, t')
  {
    assert Next(t, t');
    LeadsStep(s, t, t');
  }

  /** While the port is open every call of `Post` can queue its packet. */
  lemma PostQueues(s: Port, i: nat)
    requires !s.closed && s.closer.NotClosing? && i < |s.threads| && s.threads[i].Outside?
    ensures Leads(s, s.(normal := s.normal + 1))
  {
    LeadsNowhere(s);
    var s1 := s.Go(i, PostLocking);
    PostLeads(s, s, s1, i);
    var s2 := s1.(readers := s.readers + 1).Go(i, PostChecking);
    PostLeads(s, s1, s2, i);
    var s3 := s2.Go(i, Posting);
    PostLeads(s, s2, s3, i);
    var s4 := s3.(normal := s.normal + 1).Go(i, PostUnlocking);
    PostLeads(s, s3, s4, i);
    var s5 := s.(normal := s.normal + 1);
    assert s5.threads == s4.threads[i := Outside];
    PostLeads(s, s4, s5, i);
  }

  lemma GetWaits(s: Port, i: nat) returns (t: Port)
    requires !s.closed && s.closer.NotClosing? && i < |s.threads| && s.threads[i].Outside?
    ensures Leads(s, t) && t == s.(waiters := s.waiters + 1, readers := s.readers + 1).Go(i, Waiting)
  {
    LeadsNowhere(s);
    var s1 := s.Go(i, Counting);
    GetLeads(s, s, s1, i);
    var s2 := s1.(waiters := s.waiters + 1).Go(i, ReadLocking);
    GetLeads(s, s1, s2, i);
    var s3 := s2.(readers := s.readers + 1).Go(i, Rechecking);
    GetLeads(s, s2, s3, i);
    t := s3.Go(i, Waiting);
    assert t.threads == s.threads[i := Waiting];
    GetLeads(s, s3, t, i);
  }

  /** And every call of `Get` can take a packet that is there. */
  lemma GetTakes(s: Port, i: nat)
    requires !s.closed && s.closer.NotClosing? && i < |s.threads| && s.threads[i].Outside? && s.normal > 0
    ensures Leads(s, s.(normal := s.normal - 1))
  {
    var s4 := GetWaits(s, i);
    var s5 := s4.(normal := s.normal - 1).Go(i, Unlocking);
    assert TakePacket(s4, s5, i);
    GetLeads(s, s4, s5, i);
    var s6 := s5.(readers := s.readers).Go(i, Uncounting);
    GetLeads(s, s5, s6, i);
    var s7 := s.(normal := s.normal - 1);
    assert s7.threads == s6.threads[i := Outside];
    GetLeads(s, s6, s7, i);
  }

  /** An operation on an associated handle completes, and a call of `Get` takes the packet. */
  lemma CompletionIsTaken(s: Port, i: nat)
    requires !s.closed && s.closer.NotClosing? && i < |s.threads| && s.threads[i].Outside?
    ensures Next(s, s.(normal := s.normal + 1)) && Leads(s.(normal := s.normal + 1), s)
  {
    var s1 := s.(normal := s.normal + 1);
    assert OutsideStep(s, s1);
    GetTakes(s1, i);
    assert s1.(normal := s1.normal - 1) == s;
  }

  /** `Close` posts one reserved packet for each call it has still to wake. */
  lemma {:induction false} PostsOnePerCall(s: Port, t: Port)
    requires Leads(s, t) && t.closer.Waking?
    ensures Leads(s, t.(reserved := t.reserved + t.closer.left, closer := WriteLocking))
    decreases t.closer.left
  {
    var left := t.closer.left;
    if left == 0 {
      var t' := t.(closer := WriteLocking);
      assert CloseStep(t, t');
      LeadsStep(s, t, t');
    } else {
      var t' := t.(reserved := t.reserved + 1, closer := Waking(left - 1));
      assert CloseStep(t, t');
      LeadsStep(s, t, t');
      PostsOnePerCall(s, t');
    }
  }

  /** `Close` can wake every call that was counted when it looked, each by a packet of its own. */
  lemma CloseWakes(s: Port) returns (t: Port)
    requires Reachable(Init, Next, s) && s.closer.NotClosing?
    ensures Leads(s, t)
    ensures t.reserved == Sum(Counted, s.threads)
    ensures t == s.(closed := true, reserved := t.reserved, closer := WriteLocking)
  {
    Reached(s);
    SumNonNegative(Counted, s.threads);
    LeadsNowhere(s);
    var s1 := s.(closed := true, closer := Snapshotting);
    assert CloseStep(s, s1);
    LeadsStep(s, s, s1);
    var s2 := s1.(closer := Waking(Sum(Counted, s.threads)));
    assert CloseStep(s1, s2);
    LeadsStep(s, s1, s2);
    PostsOnePerCall(s, s2);
    t := s2.(reserved := s2.reserved + s2.closer.left, closer := WriteLocking);
  }

  /** What patient calls reach, calls reach. */
  lemma {:induction false} PatientLeads(s: Port, t: Port, run: seq<Port>, i: nat)
    requires Leads(s, t) && IsRun((x: Port) => x == t, PatientNext, run) && i < |run|
    ensures Leads(s, run[i])
  {
    if i > 0 {
      PatientLeads(s, t, run, i - 1);
      assert PatientNext(run[i - 1], run[i - 1 + 1]);
      PatientIsNext(run[i - 1], run[i]);
      LeadsStep(s, run[i - 1], run[i]);
    }
  }

  lemma {:induction false} LeadsReached(s: Port, t: Port)
    requires Reachable(Init, Next, s) && Leads(s, t)
    ensures Reachable(Init, Next, t)
  {
    var from := (x: Port) => x == s;
    var run :| IsRun(from, Next, run) && run[|run| - 1] == t;
    RunReached(s, run, |run| - 1);
  }

  lemma {:induction false} RunReached(s: Port, run: seq<Port>, i: nat)
    requires Reachable(Init, Next, s) && IsRun((x: Port) => x == s, Next, run) && i < |run|
    ensures Reachable(Init, Next, run[i])
  {
    if i > 0 {
      RunReached(s, run, i - 1);
      assert Next(run[i - 1], run[i - 1 + 1]);
      ReachableStep(Init, Next, run[i - 1], run[i]);
    }
  }

  /** From every reachable state `Close` can go through to the end, however many calls wait for ever. */
  lemma CloseCanComplete(s: Port) returns (t: Port)
    requires Reachable(Init, Next, s) && s.closer.NotClosing?
    ensures Leads(s, t) && t.closer.Finished? && !t.open
  {
    Reached(s);
    var waiting := CloseWakes(s);
    LeadsReached(s, waiting);
    CloseIsNeverStuck(waiting);
    var run: seq<Port> :| IsRun((x: Port) => x == waiting, PatientNext, run) && run[|run| - 1].closer.Locked?;
    var locked := run[|run| - 1];
    PatientLeads(s, waiting, run, |run| - 1);
    t := locked.(open := false, closer := Finished);
    assert CloseStep(locked, t);
    LeadsStep(s, locked, t);
  }
}
