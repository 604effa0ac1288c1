/**
 Byte quotas on two levels: every session has its own, and all sessions share the engine's.

 A send takes its bytes from the session first and from the engine second, waiting on a `changed`
 channel where there is no room, and gives them back in the same order. The two levels have
 different locks, so a thread may be caught between them.
 */
module Quota {
  import opened Bytes
  import opened Counting
  import opened Runs

  /** `changed` is the channel current waiters wait on; channel `c` is open while `changed == Some(c)`. */
  datatype Level = Level(limit: nat, used: int, changed: Maybe<nat>, nextChannel: nat) {
    predicate Room(n: nat) { used + n <= limit }

    predicate Open(c: nat) { changed == Some(c) }
  }

  function NewLevel(limit: nat): Level { Level(limit, 0, None, 0) }

  function Take(q: Level, n: nat): Level { q.(used := q.used + n) }

  /** A waiter makes the channel if there is none. */
  function Subscribe(q: Level): Level {
    if q.changed.Some? then q else q.(changed := Some(q.nextChannel), nextChannel := q.nextChannel + 1)
  }

  /** Giving back clamps at zero and wakes every waiter by closing the channel. */
  function Returned(q: Level, n: int): Level {
    if n <= 0 then q
    else q.(used := if q.used - n < 0 then 0 else q.used - n, changed := None)
  }

  /** One level as an object; a call is one section under its mutex. */
  class ByteQuota {
    const limit: nat
    var used: int
    var changed: Maybe<nat>
    var nextChannel: nat

    ghost function State(): Level
      reads this
    {
      Level(limit, used, changed, nextChannel)
    }

    constructor (limit: nat)
      ensures State() == NewLevel(limit)
    {
      this.limit := limit;
      used, changed, nextChannel := 0, None, 0;
    }

    /** One round of the acquire loop: take the bytes, or come back with the channel to wait on. */
    method AcquireRound(n: nat) returns (taken: bool, channel: Maybe<nat>)
      modifies this
      ensures taken == (old(used) + n <= limit)
      ensures taken ==> State() == Take(old(State()), n)
      ensures !taken ==> State() == Subscribe(old(State())) && channel == changed && channel.Some?
    {
      if used + n <= limit {
        used := used + n;
        return true, None;
      }
      if changed.None? {
        changed := Some(nextChannel);
        nextChannel := nextChannel + 1;
      }
      return false, changed;
    }

    method TryAcquire(n: nat) returns (taken: bool)
      modifies this
      ensures taken == (old(used) + n <= limit)
      ensures State() == if taken then Take(old(State()), n) else old(State())
    {
      if used + n > limit {
        return false;
      }
      used := used + n;
      taken := true;
    }

    method GiveBack(n: int)
      modifies this
      ensures State() == Returned(old(State()), n)
    {
      if n <= 0 {
        return;
      }
      used := used - n;
      if used < 0 {
        used := 0;
      }
      changed := None;
    }
  }

  /** A session's quota with the engine's behind it. */
  class SessionQuota {
    const local: ByteQuota
    const parent: ByteQuota

    constructor (local: ByteQuota, parent: ByteQuota)
      requires local != parent
      ensures this.local == local && this.parent == parent
    {
      this.local := local;
      this.parent := parent;
    }

    /** Takes from both levels or from neither. */
    method TryAcquire(n: nat) returns (ok: bool)
      requires local != parent && local.used >= 0
      modifies local, parent
      ensures ok == (old(local.used) + n <= local.limit
                     && (parent.limit == 0 || n == 0 || old(parent.used) + n <= parent.limit))
      ensures local.used == if ok then old(local.used) + n else old(local.used)
      ensures parent.used == if ok && parent.limit > 0 then old(parent.used) + n else old(parent.used)
    {
      var taken := local.TryAcquire(n);
      if !taken {
        return false;
      }
      if parent.limit == 0 || n == 0 {
        return true;
      }
      ok := parent.TryAcquire(n);
      if !ok {
        local.GiveBack(n);
      }
    }

    method Release(n: nat)
      requires local != parent
      modifies local, parent
      ensures local.State() == Returned(old(local.State()), n)
      ensures parent.State() == if parent.limit == 0 then old(parent.State()) else Returned(old(parent.State()), n)
    {
      local.GiveBack(n);
      if parent.limit > 0 {
        parent.GiveBack(n);
      }
    }
  }

  // ------------------------------------------------------- the machine

  /** Where a thread is that wants `n` bytes of session `sess`. */
  datatype Thread =
    | Wanting(sess: nat, n: nat, blocking: bool)
    | WaitLocal(sess: nat, n: nat, channel: nat)
    | HasLocal(sess: nat, n: nat, blocking: bool)
    | WaitGlobal(sess: nat, n: nat, channel: nat)
    | Undoing(sess: nat, n: nat)
    | Holding(sess: nat, n: nat)
    | HalfBack(sess: nat, n: nat)
    | Over(sess: nat, n: nat)

  datatype Quotas = Quotas(global: Level, sessions: seq<Level>, threads: seq<Thread>) {
    function Go(i: nat, to: Thread): Quotas
      requires i < |threads|
    {
      this.(threads := threads[i := to])
    }

    function Local(j: nat, q: Level): Quotas
      requires j < |sessions|
    {
      this.(sessions := sessions[j := q])
    }

    /** The engine counts bytes only with a positive limit, and never for an empty frame. */
    predicate Unmetered(n: nat) { global.limit == 0 || n == 0 }
  }

  ghost predicate Init(s: Quotas) {
    s.global == NewLevel(s.global.limit) && s.sessions == [] && s.threads == []
  }

  ghost predicate ThreadStep(s: Quotas, s': Quotas, i: nat) {
    i < |s.threads| && s.threads[i].sess < |s.sessions| &&
    var j, n := s.threads[i].sess, s.threads[i].n;
    var q := s.sessions[j];
    match s.threads[i]
    case Wanting(_, _, blocking) =>
      if n > q.limit then s' == s.Go(i, Over(j, n))
      else if q.Room(n) then s' == s.Local(j, Take(q, n)).Go(i, HasLocal(j, n, blocking))
      else if blocking then s' == s.Local(j, Subscribe(q)).Go(i, WaitLocal(j, n, Subscribe(q).changed.value))
      else s' == s.Go(i, Over(j, n))
    case WaitLocal(_, _, channel) =>
      || s' == s.Go(i, Over(j, n))
      || (!q.Open(channel) && s' == s.Go(i, Wanting(j, n, true)))
    case HasLocal(_, _, blocking) =>
      if s.Unmetered(n) then s' == s.Go(i, Holding(j, n))
      else if n > s.global.limit then s' == s.Go(i, Undoing(j, n))
      else if s.global.Room(n) then s' == s.(global := Take(s.global, n)).Go(i, Holding(j, n))
      else if blocking then
        s' == s.(global := Subscribe(s.global)).Go(i, WaitGlobal(j, n, Subscribe(s.global).changed.value))
      else s' == s.Go(i, Undoing(j, n))
    case WaitGlobal(_, _, channel) =>
      || s' == s.Go(i, Undoing(j, n))
      || (!s.global.Open(channel) && s' == s.Go(i, HasLocal(j, n, true)))
    case Undoing(_, _) =>
      s' == s.Local(j, Returned(q, n)).Go(i, Over(j, n))
    case Holding(_, _) =>
      s' == s.Local(j, Returned(q, n)).Go(i, HalfBack(j, n))
    case HalfBack(_, _) =>
      s' == (if s.Unmetered(n) then s else s.(global := Returned(s.global, n))).Go(i, Over(j, n))
    case Over(_, _) => false
  }

  ghost predicate Arrive(s: Quotas, s': Quotas) {
    || (exists limit :: s' == s.(sessions := s.sessions + [NewLevel(limit)]))
    || (exists sess: nat, n, blocking ::
          sess < |s.sessions| && s' == s.(threads := s.threads + [Wanting(sess, n, blocking)]))
  }

  ghost predicate Next(s: Quotas, s': Quotas) {
    Arrive(s, s') || exists i :: ThreadStep(s, s', i)
  }

  // ------------------------------------------------------- accounting

  predicate HasSessionBytes(t: Thread) { t.HasLocal? || t.WaitGlobal? || t.Undoing? || t.Holding? }

  function HeldOf(j: nat): Thread -> int {
    (t: Thread) => if HasSessionBytes(t) && t.sess == j then t.n else 0
  }

  function HeldGlobal(t: Thread): int { if t.Holding? || t.HalfBack? then t.n else 0 }

  ghost predicate WaitersRight(q: Level, n: nat, channel: nat) {
    channel < q.nextChannel && (q.Open(channel) ==> !q.Room(n))
  }

  ghost predicate LevelOk(q: Level) {
    0 <= q.used <= q.limit && (q.changed.Some? ==> q.changed.value < q.nextChannel)
  }

  ghost predicate ThreadOk(s: Quotas, t: Thread) {
    && t.sess < |s.sessions|
    && (t.WaitLocal? ==> WaitersRight(s.sessions[t.sess], t.n, t.channel))
    && (t.WaitGlobal? ==> WaitersRight(s.global, t.n, t.channel) && !s.Unmetered(t.n))
  }

  ghost predicate QuotaInv(s: Quotas) {
    && LevelOk(s.global) && (forall j :: 0 <= j < |s.sessions| ==> LevelOk(s.sessions[j]))
    && (forall j :: 0 <= j < |s.sessions| ==> s.sessions[j].used == Sum(HeldOf(j), s.threads))
    && (s.global.limit > 0 ==> s.global.used == Sum(HeldGlobal, s.threads))
    && (forall i :: 0 <= i < |s.threads| ==> ThreadOk(s, s.threads[i]))
  }

  /** What a release needs: the bytes are there, so the clamp at zero does nothing. */
  lemma ClampNeverFires(s: Quotas, i: nat)
    requires QuotaInv(s) && i < |s.threads|
    ensures HasSessionBytes(s.threads[i]) ==> s.sessions[s.threads[i].sess].used >= s.threads[i].n
    ensures (s.threads[i].Holding? || s.threads[i].HalfBack?) && s.global.limit > 0 ==> s.global.used >= s.threads[i].n
  {
    var t := s.threads[i];
    assert ThreadOk(s, t);
    SumAtLeast(HeldOf(t.sess), s.threads, i);
    SumAtLeast(HeldGlobal, s.threads, i);
  }

  /** A level after one step: bytes are added only if there is room, and shrinking wakes all waiters. */
  ghost predicate LevelStep(q: Level, q': Level) {
    && q'.limit == q.limit && LevelOk(q') && q.nextChannel <= q'.nextChannel
    && (forall c: nat :: q'.Open(c) && c < q.nextChannel ==> q.Open(c) && q.used <= q'.used)
  }

  lemma LevelSteps(q: Level, n: nat)
    requires LevelOk(q)
    ensures q.Room(n) ==> LevelStep(q, Take(q, n))
    ensures LevelStep(q, Subscribe(q)) && Subscribe(q).changed.Some? && Subscribe(q).used == q.used
    ensures !q.Room(n) ==> WaitersRight(Subscribe(q), n, Subscribe(q).changed.value)
    ensures LevelStep(q, Returned(q, n)) && (n <= q.used ==> Returned(q, n).used == q.used - n)
    ensures LevelStep(q, q)
  {
  }

  /** Waiters stay right whatever a level goes through. */
  lemma WaitersStayRight(q: Level, q': Level, n: nat, c: nat)
    requires WaitersRight(q, n, c) && LevelStep(q, q')
    ensures WaitersRight(q', n, c)
  {
  }

  /** The shape of every thread step: one session level, the engine level and one thread change. */
  ghost predicate Moved(s: Quotas, s': Quotas, i: nat, to: Thread) {
    && i < |s.threads| && s'.threads == s.threads[i := to] && |s'.sessions| == |s.sessions|
    && var t := s.threads[i];
    && t.sess == to.sess < |s.sessions|
    && (forall j :: 0 <= j < |s.sessions| && j != t.sess ==> s'.sessions[j] == s.sessions[j])
    && LevelStep(s.sessions[t.sess], s'.sessions[t.sess]) && LevelStep(s.global, s'.global)
    && s'.sessions[t.sess].used - HeldOf(t.sess)(to) == s.sessions[t.sess].used - HeldOf(t.sess)(t)
    && (s.global.limit > 0 ==> s'.global.used - HeldGlobal(to) == s.global.used - HeldGlobal(t))
    && ThreadOk(s', to)
  }

  lemma LocalStepMoves(s: Quotas, s': Quotas, i: nat)
    requires QuotaInv(s) && ThreadStep(s, s', i)
    requires s.threads[i].Wanting? || s.threads[i].WaitLocal? || s.threads[i].Undoing? || s.threads[i].Holding?
    ensures i < |s'.threads| && Moved(s, s', i, s'.threads[i])
  {
    var t := s.threads[i];
    assert ThreadOk(s, t);
    ClampNeverFires(s, i);
    LevelSteps(s.sessions[t.sess], t.n);
    LevelSteps(s.global, t.n);
  }

  lemma GlobalStepMoves(s: Quotas, s': Quotas, i: nat)
    requires QuotaInv(s) && ThreadStep(s, s', i)
    requires s.threads[i].HasLocal? || s.threads[i].WaitGlobal? || s.threads[i].HalfBack?
    ensures i < |s'.threads| && Moved(s, s', i, s'.threads[i])
  {
    var t := s.threads[i];
    assert ThreadOk(s, t);
    ClampNeverFires(s, i);
    LevelSteps(s.sessions[t.sess], t.n);
    LevelSteps(s.global, t.n);
  }

  lemma MovedKeeps(s: Quotas, s': Quotas, i: nat, to: Thread)
    requires QuotaInv(s) && Moved(s, s', i, to)
    ensures QuotaInv(s')
  {
    forall j | 0 <= j < |s'.sessions|
      ensures s'.sessions[j].used == Sum(HeldOf(j), s'.threads) && LevelOk(s'.sessions[j])
    {
      SumUpdate(HeldOf(j), s.threads, i, to);
    }
    SumUpdate(HeldGlobal, s.threads, i, to);
    forall k | 0 <= k < |s'.threads|
      ensures ThreadOk(s', s'.threads[k])
    {
      if k != i {
        OtherThreadOk(s, s', i, to, k);
      }
    }
  }

  lemma OtherThreadOk(s: Quotas, s': Quotas, i: nat, to: Thread, k: nat)
    requires Moved(s, s', i, to) && k < |s.threads| && ThreadOk(s, s.threads[k])
    ensures ThreadOk(s', s.threads[k])
  {
    var t := s.threads[k];
    if t.WaitLocal? && t.sess == s.threads[i].sess {
      WaitersStayRight(s.sessions[t.sess], s'.sessions[t.sess], t.n, t.channel);
    }
    if t.WaitGlobal? {
      WaitersStayRight(s.global, s'.global, t.n, t.channel);
    }
  }

  lemma ArriveKeeps(s: Quotas, s': Quotas)
    requires QuotaInv(s) && Arrive(s, s')
    ensures QuotaInv(s')
  {
    if s'.sessions != s.sessions {
      NewSessionUnheld(s, |s.sessions|);
      forall k | 0 <= k < |s'.threads|
        ensures ThreadOk(s', s'.threads[k])
      {
        assert ThreadOk(s, s.threads[k]);
      }
    } else if s'.threads != s.threads {
      var t := s'.threads[|s.threads|];
      forall j | 0 <= j < |s.sessions|
        ensures s'.sessions[j].used == Sum(HeldOf(j), s'.threads)
      {
        SumAppend(HeldOf(j), s.threads, t);
      }
      SumAppend(HeldGlobal, s.threads, t);
      forall k | 0 <= k < |s'.threads|
        ensures ThreadOk(s', s'.threads[k])
      {
        if k < |s.threads| {
          assert ThreadOk(s, s.threads[k]);
        }
      }
    }
  }

  lemma NewSessionUnheld(s: Quotas, j: nat)
    requires QuotaInv(s) && j >= |s.sessions|
    ensures Sum(HeldOf(j), s.threads) == 0
  {
    forall k | 0 <= k < |s.threads|
      ensures HeldOf(j)(s.threads[k]) == 0
    {
      assert ThreadOk(s, s.threads[k]);
    }
    SumZero(HeldOf(j), s.threads);
  }

  lemma StepKeeps(s: Quotas, s': Quotas)
    requires QuotaInv(s) && Next(s, s')
    ensures QuotaInv(s')
  {
    if Arrive(s, s') {
      ArriveKeeps(s, s');
    } else {
      var i: nat :| ThreadStep(s, s', i);
      if s.threads[i].HasLocal? || s.threads[i].WaitGlobal? || s.threads[i].HalfBack? {
        GlobalStepMoves(s, s', i);
      } else {
        LocalStepMoves(s, s', i);
      }
      MovedKeeps(s, s', i, s'.threads[i]);
    }
  }

  lemma ReachedInv(s: Quotas)
    requires Reachable(Init, Next, s)
    ensures QuotaInv(s)
  {
    forall a, b | QuotaInv(a) && Next(a, b)
      ensures QuotaInv(b)
    {
      StepKeeps(a, b);
    }
    Invariant(Init, Next, QuotaInv, s);
  }

  // --------------------------------------------------------- theorems

  /** No waiter sleeps on an open channel while there is room for it, on either level. */
  lemma NoLostWakeup(s: Quotas, i: nat)
    requires Reachable(Init, Next, s) && i < |s.threads|
    ensures s.threads[i].sess < |s.sessions|
    ensures var t := s.threads[i];
            && (t.WaitLocal? && s.sessions[t.sess].used + t.n <= s.sessions[t.sess].limit ==>
                  s.sessions[t.sess].changed != Some(t.channel))
            && (t.WaitGlobal? && s.global.used + t.n <= s.global.limit ==> s.global.changed != Some(t.channel))
  {
    ReachedInv(s);
    assert ThreadOk(s, s.threads[i]);
  }

  /** What a session's limit leaves, given what threads hold of it. */
  function FreeOf(s: Quotas, j: nat): int
    requires j < |s.sessions|
  {
    s.sessions[j].limit - Sum(HeldOf(j), s.threads)
  }

  function FreeOfEngine(s: Quotas): int { s.global.limit - Sum(HeldGlobal, s.threads) }

  /** A session grants bytes exactly when they are free; who may wait waits exactly if they could ever be. */
  lemma SessionGrantsIffFree(s: Quotas, s': Quotas, i: nat)
    requires Reachable(Init, Next, s) && i < |s.threads| && s.threads[i].Wanting? && ThreadStep(s, s', i)
    ensures var t, t' := s.threads[i], s'.threads[i];
            && (t' == HasLocal(t.sess, t.n, t.blocking) <==> t.n <= FreeOf(s, t.sess))
            && (t'.WaitLocal? <==> t.blocking && FreeOf(s, t.sess) < t.n <= s.sessions[t.sess].limit)
            && (t'.HasLocal? || t'.WaitLocal? || t' == Over(t.sess, t.n))
  {
    ReachedInv(s);
    SumNonNegative(HeldOf(s.threads[i].sess), s.threads);
  }

  /** And so does the engine, unless it does not meter; otherwise the session's bytes go back. */
  lemma EngineGrantsIffFree(s: Quotas, s': Quotas, i: nat)
    requires Reachable(Init, Next, s) && i < |s.threads| && s.threads[i].HasLocal? && ThreadStep(s, s', i)
    ensures var t, t' := s.threads[i], s'.threads[i];
            var free := s.global.limit == 0 || t.n == 0 || t.n <= FreeOfEngine(s);
            && (t' == Holding(t.sess, t.n) <==> free)
            && (t'.WaitGlobal? <==> t.blocking && !free && t.n <= s.global.limit)
            && (t'.Holding? || t'.WaitGlobal? || t' == Undoing(t.sess, t.n))
  {
    ReachedInv(s);
    SumNonNegative(HeldGlobal, s.threads);
  }

  /** A waiter for which there is room again has its bytes two steps later, if nobody comes in between. */
  lemma WaiterGoesOn(s: Quotas, i: nat) returns (s1: Quotas, s2: Quotas)
    requires Reachable(Init, Next, s) && i < |s.threads| && s.threads[i].sess < |s.sessions|
    requires var t := s.threads[i];
             || (t.WaitLocal? && t.n <= FreeOf(s, t.sess)) || (t.WaitGlobal? && t.n <= FreeOfEngine(s))
    ensures ThreadStep(s, s1, i) && ThreadStep(s1, s2, i)
    ensures var t := s.threads[i];
            s2.threads[i] == if t.WaitLocal? then HasLocal(t.sess, t.n, true) else Holding(t.sess, t.n)
  {
    ReachedInv(s);
    NoLostWakeup(s, i);
    var t := s.threads[i];
    assert ThreadOk(s, t);
    if t.WaitLocal? {
      var q := s.sessions[t.sess];
      SumNonNegative(HeldOf(t.sess), s.threads);
      s1 := s.Go(i, Wanting(t.sess, t.n, true));
      s2 := s1.Local(t.sess, Take(q, t.n)).Go(i, HasLocal(t.sess, t.n, true));
    } else {
      SumNonNegative(HeldGlobal, s.threads);
      s1 := s.Go(i, HasLocal(t.sess, t.n, true));
      s2 := s1.(global := Take(s.global, t.n)).Go(i, Holding(t.sess, t.n));
    }
  }

  /** Nobody has to wait: a waiting call may be cancelled, and then gives its session's bytes back. */
  lemma WaiterMayGiveUp(s: Quotas, i: nat) returns (s': Quotas)
    requires Reachable(Init, Next, s) && i < |s.threads| && (s.threads[i].WaitLocal? || s.threads[i].WaitGlobal?)
    ensures ThreadStep(s, s', i)
    ensures var t := s.threads[i];
            s'.threads[i] == if t.WaitLocal? then Over(t.sess, t.n) else Undoing(t.sess, t.n)
  {
    ReachedInv(s);
    var t := s.threads[i];
    assert ThreadOk(s, t);
    s' := s.Go(i, if t.WaitLocal? then Over(t.sess, t.n) else Undoing(t.sess, t.n));
  }

  /** A waiter's channel is closed by nothing but a release of bytes at its level. */
  lemma WokenOnlyByRelease(s: Quotas, s': Quotas, j: nat, c: nat)
    requires Reachable(Init, Next, s) && Next(s, s') && j < |s.sessions|
    ensures j < |s'.sessions|
    ensures s.sessions[j].changed == Some(c) && s'.sessions[j].changed != Some(c) ==>
              s'.sessions[j].used < s.sessions[j].used
    ensures s.global.changed == Some(c) && s'.global.changed != Some(c) ==> s'.global.used < s.global.used
  {
    ReachedInv(s);
    if !Arrive(s, s') {
      var i: nat :| ThreadStep(s, s', i);
      ClampNeverFires(s, i);
    }
  }

  // ------------------------------------------------- a run with a waiter

  /** One session; a send holds `n` bytes and another waits for `m` that do not fit beside them. */
  function Waits(engine: nat, limit: nat, n: nat, m: nat): Quotas {
    Quotas(NewLevel(engine).(used := if engine == 0 then 0 else n), [Level(limit, n, Some(0), 1)],
           [Holding(0, n), WaitLocal(0, m, 0)])
  }

  lemma HoldsFirst(engine: nat, limit: nat, n: nat) returns (s: Quotas)
    requires 0 < n <= limit && (engine == 0 || n <= engine)
    ensures Reachable(Init, Next, s)
    ensures s == Quotas(NewLevel(engine).(used := if engine == 0 then 0 else n), [Level(limit, n, None, 0)],
        [Holding(0, n)])
  {
    var s0 := Quotas(NewLevel(engine), [], []);
    var s1 := s0.(sessions := [NewLevel(limit)]);
    var s2 := s1.(threads := [Wanting(0, n, true)]);
    var s3 := s2.Local(0, Level(limit, n, None, 0)).Go(0, HasLocal(0, n, true));
    s := s3.(global := if engine == 0 then s3.global else Take(s3.global, n)).Go(0, Holding(0, n));
    ReachableInit(Init, Next, s0);
    assert s1.sessions == s0.sessions + [NewLevel(limit)];
    assert Arrive(s0, s1);
    ReachableStep(Init, Next, s0, s1);
    assert s2.threads == s1.threads + [Wanting(0, n, true)];
    assert Arrive(s1, s2);
    ReachableStep(Init, Next, s1, s2);
    assert ThreadStep(s2, s3, 0);
    ReachableStep(Init, Next, s2, s3);
    assert ThreadStep(s3, s, 0);
    ReachableStep(Init, Next, s3, s);
  }

  lemma WaitsSecond(engine: nat, limit: nat, n: nat, m: nat)
    requires 0 < n <= limit && 0 < m <= limit < n + m && (engine == 0 || n <= engine)
    ensures Reachable(Init, Next, Waits(engine, limit, n, m))
  {
    var s0 := HoldsFirst(engine, limit, n);
    var s1 := s0.(threads := s0.threads + [Wanting(0, m, true)]);
    assert Arrive(s0, s1);
    ReachableStep(Init, Next, s0, s1);
    assert ThreadStep(s1, Waits(engine, limit, n, m), 1);
    ReachableStep(Init, Next, s1, Waits(engine, limit, n, m));
  }

  /** For all sizes: a send that has to wait has its bytes once the one in its way has given back. */
  lemma WaiterIsServed(engine: nat, limit: nat, n: nat, m: nat) returns (s: Quotas)
    requires 0 < n <= limit && 0 < m <= limit < n + m && (engine == 0 || (n <= engine && m <= engine))
    ensures Reachable(Init, Next, s) && s.threads == [Over(0, n), Holding(0, m)]
    ensures s.sessions == [Level(limit, m, None, 1)] && s.global.used == if engine == 0 then 0 else m
  {
    WaitsSecond(engine, limit, n, m);
    var s0 := Waits(engine, limit, n, m);
    var s1 := s0.Local(0, Level(limit, 0, None, 1)).Go(0, HalfBack(0, n));
    assert ThreadStep(s0, s1, 0);
    ReachableStep(Init, Next, s0, s1);
    var s2 := s1.(global := s1.global.(used := 0)).Go(0, Over(0, n));
    assert ThreadStep(s1, s2, 0);
    ReachableStep(Init, Next, s1, s2);
    s := WaiterRetries(s2, m);
  }

  lemma WaiterRetries(s2: Quotas, m: nat) returns (s: Quotas)
    requires Reachable(Init, Next, s2) && |s2.threads| == 2 && s2.threads[1] == WaitLocal(0, m, 0)
    requires |s2.sessions| == 1 && 0 < m <= s2.sessions[0].limit && s2.global == NewLevel(s2.global.limit)
    requires s2.sessions[0] == Level(s2.sessions[0].limit, 0, None, 1)
    requires s2.global.limit == 0 || m <= s2.global.limit
    ensures Reachable(Init, Next, s) && s.threads == [s2.threads[0], Holding(0, m)]
    ensures s.sessions == [Level(s2.sessions[0].limit, m, None, 1)]
    ensures s.global.used == if s2.global.limit == 0 then 0 else m
  {
    var s3 := s2.Go(1, Wanting(0, m, true));
    var s4 := s3.Local(0, s3.sessions[0].(used := m)).Go(1, HasLocal(0, m, true));
    s := s4.(global := if s4.global.limit == 0 then s4.global else Take(s4.global, m)).Go(1, Holding(0, m));
    assert ThreadStep(s2, s3, 1);
    ReachableStep(Init, Next, s2, s3);
    assert ThreadStep(s3, s4, 1);
    ReachableStep(Init, Next, s3, s4);
    assert ThreadStep(s4, s, 1);
    ReachableStep(Init, Next, s4, s);
  }

  /** Neither limit is ever exceeded, and no release ever takes more than is there. */
  lemma LimitsHold(s: Quotas, i: nat)
    requires Reachable(Init, Next, s)
    ensures s.global.limit > 0 ==> 0 <= s.global.used <= s.global.limit
    ensures forall j :: 0 <= j < |s.sessions| ==> 0 <= s.sessions[j].used <= s.sessions[j].limit
    ensures i < |s.threads| ==> s.threads[i].sess < |s.sessions|
    ensures i < |s.threads| && HasSessionBytes(s.threads[i]) ==> s.sessions[s.threads[i].sess].used >= s.threads[i].n
    ensures i < |s.threads| && s.global.limit > 0 && (s.threads[i].Holding? || s.threads[i].HalfBack?) ==>
              s.global.used >= s.threads[i].n
  {
    ReachedInv(s);
    if i < |s.threads| {
      assert ThreadOk(s, s.threads[i]);
      ClampNeverFires(s, i);
    }
  }

  function Used(q: Level): int { q.used }

  /** Bytes a thread has of its session and not (yet, or any more) of the engine. */
  function LocalOnly(t: Thread): int { if t.HasLocal? || t.WaitGlobal? || t.Undoing? then t.n else 0 }

  /** Bytes a thread has given back to its session and not yet to the engine. */
  function GlobalOnly(t: Thread): int { if t.HalfBack? then t.n else 0 }

  function HeldBelow(k: nat): Thread -> int {
    (t: Thread) => if HasSessionBytes(t) && t.sess < k then t.n else 0
  }

  /** Adding up the sessions' counters adds up what threads hold of them. */
  lemma {:induction false} SessionsAddUp(s: Quotas, k: nat)
    requires QuotaInv(s) && k <= |s.sessions|
    ensures Sum(Used, s.sessions[..k]) == Sum(HeldBelow(k), s.threads)
  {
    if k == 0 {
      SumZero(HeldBelow(0), s.threads);
    } else {
      SessionsAddUp(s, k - 1);
      assert s.sessions[..k] == s.sessions[..k - 1] + [s.sessions[k - 1]];
      SumAppend(Used, s.sessions[..k - 1], s.sessions[k - 1]);
      SumPlus(HeldBelow(k - 1), HeldOf(k - 1), HeldBelow(k), s.threads);
    }
  }

  /**
   Conservation across the two levels: the engine's counter is the sum of the sessions' counters,
   minus the bytes of threads that hold only session bytes, plus those of threads that hold only
   engine bytes.
   */
  lemma TwoLevelsAgree(s: Quotas)
    requires Reachable(Init, Next, s) && s.global.limit > 0
    ensures s.global.used == Sum(Used, s.sessions) - Sum(LocalOnly, s.threads) + Sum(GlobalOnly, s.threads)
  {
    ReachedInv(s);
    var n := |s.sessions|;
    SessionsAddUp(s, n);
    assert s.sessions[..n] == s.sessions;
    forall k | 0 <= k < |s.threads|
      ensures s.threads[k].sess < n
    {
      assert ThreadOk(s, s.threads[k]);
    }
    BothLevels(s.threads, n);
  }

  /** What threads hold of the engine, in terms of what they hold of the sessions. */
  lemma {:induction false} BothLevels(threads: seq<Thread>, n: nat)
    requires forall k :: 0 <= k < |threads| ==> threads[k].sess < n
    ensures Sum(HeldGlobal, threads) == Sum(HeldBelow(n), threads) - Sum(LocalOnly, threads) + Sum(GlobalOnly, threads)
  {
    if threads != [] {
      BothLevels(threads[1..], n);
    }
  }

  /** When no thread is under way or holding, both levels are back at zero: failures rolled back exactly. */
  lemma QuiescentIsZero(s: Quotas, j: nat)
    requires Reachable(Init, Next, s) && j < |s.sessions|
    requires forall i :: 0 <= i < |s.threads| ==> s.threads[i].Over? || s.threads[i].Wanting? || s.threads[i].WaitLocal?
    ensures s.sessions[j].used == 0 && (s.global.limit > 0 ==> s.global.used == 0)
  {
    ReachedInv(s);
    SumZero(HeldOf(j), s.threads);
    SumZero(HeldGlobal, s.threads);
  }
}
