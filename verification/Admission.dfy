/**
 Admission control: connection leases, listener capacity and activity leases.

 A lease changes state under its own mutex, the counters change under the controller's, and listener
 capacity is a compare-and-swap loop, so the counters are exact only when the threads caught between
 two of these are counted in.
 */
module Admission {
  import opened Bytes
  import opened Counting
  import opened Runs

  datatype LeaseState = Opening | Active | Draining | Released

  /** Whether a thread holds the lease's mutex between its counter update and its state update. */
  datatype Mid = Free | Activating(thread: nat) | StartingDrain(thread: nat)

  /** `releases` counts releases that took effect. */
  datatype Lease = Lease(peer: Maybe<nat>, listener: Maybe<nat>, state: LeaseState, mid: Mid, releases: nat)

  datatype Listener = Listener(limit: nat, used: int)

  datatype Activity = Handshake | Upgrade

  datatype ActivityLease = ActivityLease(kind: Activity, released: bool)

  /** Zero means unlimited. */
  datatype Limits = Limits(connections: nat, perPeer: nat, handshakes: nat, upgrades: nat)

  datatype Thread =
    | Idle
    | Acquiring(peer: Maybe<nat>, listener: Maybe<nat>)
    | Swapping(peer: Maybe<nat>, at: nat, seen: int)
    | Admitting(peer: Maybe<nat>, listener: Maybe<nat>)
    | GivingBack(at: nat)
    | SwappingBack(at: nat, seen: int)
    | FinishActivate(lease: nat)
    | FinishDrain(lease: nat)
    | Settling(peer: Maybe<nat>, listener: Maybe<nat>, was: LeaseState)
    | SettlingActivity(kind: Activity)

  datatype Counters = Counters(
    opening: int, active: int, draining: int, handshakes: int, upgrades: int, perPeer: map<nat, int>)

  datatype Controller = Controller(
    limits: Limits, counters: Counters,
    listeners: seq<Listener>, leases: seq<Lease>, activities: seq<ActivityLease>, threads: seq<Thread>)
  {
    function Go(i: nat, to: Thread): Controller
      requires i < |threads|
    {
      this.(threads := threads[i := to])
    }

    function Connections(): int { counters.opening + counters.active + counters.draining }
  }

  function PeerCount(c: Counters, p: nat): int { if p in c.perPeer then c.perPeer[p] else 0 }

  /** The source's `if n > 0 { n-- }`. */
  function Clamped(n: int): int { if n > 0 then n - 1 else n }

  // ---------------------------------------- sections under the controller's mutex

  predicate Rejects(limits: Limits, c: Counters, peer: Maybe<nat>) {
    || (limits.connections > 0 && c.opening + c.active + c.draining >= limits.connections)
    || (peer.Some? && limits.perPeer > 0 && PeerCount(c, peer.value) >= limits.perPeer)
  }

  function AddPeer(m: map<nat, int>, peer: Maybe<nat>): map<nat, int> {
    if peer.None? then m else m[peer.value := (if peer.value in m then m[peer.value] else 0) + 1]
  }

  function DropPeer(m: map<nat, int>, peer: Maybe<nat>): map<nat, int> {
    if peer.None? then m
    else
      var n := if peer.value in m then m[peer.value] else 0;
      if n <= 1 then m - {peer.value} else m[peer.value := n - 1]
  }

  function Admit(c: Counters, peer: Maybe<nat>): Counters {
    c.(opening := c.opening + 1, perPeer := AddPeer(c.perPeer, peer))
  }

  function CountActivate(c: Counters): Counters { c.(opening := Clamped(c.opening), active := c.active + 1) }

  function CountDrain(c: Counters): Counters { c.(active := Clamped(c.active), draining := c.draining + 1) }

  function Settle(c: Counters, peer: Maybe<nat>, was: LeaseState): Counters {
    var d := match was
             case Opening => c.(opening := Clamped(c.opening))
             case Active => c.(active := Clamped(c.active))
             case Draining => c.(draining := Clamped(c.draining))
             case Released => c;
    d.(perPeer := DropPeer(d.perPeer, peer))
  }

  /** The controller's counters as an object; each call is one section under its mutex. */
  class AdmissionController {
    const limits: Limits
    var opening: int
    var active: int
    var draining: int
    var handshakes: int
    var upgrades: int
    var perPeer: map<nat, int>

    ghost function State(): Counters
      reads this
    {
      Counters(opening, active, draining, handshakes, upgrades, perPeer)
    }

    constructor (limits: Limits)
      ensures this.limits == limits && State() == Counters(0, 0, 0, 0, 0, map[])
    {
      this.limits := limits;
      opening, active, draining, handshakes, upgrades := 0, 0, 0, 0, 0;
      perPeer := map[];
    }

    method AdmitOpening(peer: Maybe<nat>) returns (ok: bool)
      modifies this
      ensures ok <==> && (limits.connections == 0 || old(opening + active + draining) < limits.connections)
                      && (peer.None? || limits.perPeer == 0 || old(PeerCount(State(), peer.value)) < limits.perPeer)
      ensures ok == !Rejects(limits, old(State()), peer)
      ensures State() == if ok then Admit(old(State()), peer) else old(State())
    {
      if limits.connections > 0 && opening + active + draining >= limits.connections {
        return false;
      }
      var count := if peer.Some? && peer.value in perPeer then perPeer[peer.value] else 0;
      if peer.Some? && limits.perPeer > 0 && count >= limits.perPeer {
        return false;
      }
      opening := opening + 1;
      if peer.Some? {
        perPeer := perPeer[peer.value := count + 1];
      }
      ok := true;
    }

    method ReleaseConnection(peer: Maybe<nat>, was: LeaseState)
      modifies this
      ensures opening == old(opening) - if was == Opening && old(opening) > 0 then 1 else 0
      ensures active == old(active) - if was == Active && old(active) > 0 then 1 else 0
      ensures draining == old(draining) - if was == Draining && old(draining) > 0 then 1 else 0
      ensures handshakes == old(handshakes) && upgrades == old(upgrades)
      ensures forall p: nat :: peer != Some(p) ==> PeerCount(State(), p) == PeerCount(old(State()), p)
      ensures peer.Some? ==> var n := PeerCount(old(State()), peer.value);
                             if n <= 1 then peer.value !in perPeer else PeerCount(State(), peer.value) == n - 1
      ensures State() == Settle(old(State()), peer, was)
    {
      match was {
        case Opening =>
          if opening > 0 {
            opening := opening - 1;
          }
        case Active =>
          if active > 0 {
            active := active - 1;
          }
        case Draining =>
          if draining > 0 {
            draining := draining - 1;
          }
        case Released =>
      }
      if peer.Some? {
        var n := if peer.value in perPeer then perPeer[peer.value] else 0;
        if n <= 1 {
          perPeer := perPeer - {peer.value};
        } else {
          perPeer := perPeer[peer.value := n - 1];
        }
      }
    }

    method AcquireHandshake() returns (ok: bool)
      modifies this
      ensures ok == !(limits.handshakes > 0 && old(handshakes) >= limits.handshakes)
      ensures State() == old(State()).(handshakes := old(handshakes) + (if ok then 1 else 0))
    {
      if limits.handshakes > 0 && handshakes >= limits.handshakes {
        return false;
      }
      handshakes := handshakes + 1;
      ok := true;
    }

    method IsIdle() returns (idle: bool)
      ensures idle == Idling(State())
    {
      idle := opening == 0 && active == 0 && draining == 0 && handshakes == 0 && upgrades == 0;
    }
  }

  /** Listener capacity as an object; the swap loops run alone here, so the first swap wins. */
  class ListenerCapacity {
    const limit: nat
    var used: int

    constructor (limit: nat)
      ensures this.limit == limit && used == 0
    {
      this.limit := limit;
      used := 0;
    }

    method Acquire() returns (ok: bool)
      modifies this
      ensures ok == !(limit > 0 && old(used) >= limit)
      ensures used == old(used) + if ok then 1 else 0
    {
      if limit > 0 && used >= limit {
        return false;
      }
      used := used + 1;
      ok := true;
    }

    method Release()
      modifies this
      ensures used == if old(used) > 0 then old(used) - 1 else old(used)
    {
      if used > 0 {
        used := used - 1;
      }
    }
  }

  /** One connection's lease; every call is total, and only the first release reaches the owner. */
  class ConnectionLease {
    const owner: AdmissionController
    const peer: Maybe<nat>
    const listener: ListenerCapacity?
    var state: LeaseState

    constructor (owner: AdmissionController, peer: Maybe<nat>, listener: ListenerCapacity?)
      ensures this.owner == owner && this.peer == peer && this.listener == listener && state == Opening
    {
      this.owner, this.peer, this.listener, state := owner, peer, listener, Opening;
    }

    method Activate() returns (ok: bool)
      modifies this, owner
      ensures ok == (old(state) == Opening || old(state) == Active)
      ensures state == if ok then Active else old(state)
      ensures owner.active == old(owner.active) + if old(state) == Opening then 1 else 0
      ensures owner.opening == old(owner.opening) - if old(state) == Opening && old(owner.opening) > 0 then 1 else 0
      ensures owner.State() == if old(state) == Opening then CountActivate(old(owner.State())) else old(owner.State())
    {
      match state {
        case Opening =>
          if owner.opening > 0 {
            owner.opening := owner.opening - 1;
          }
          owner.active := owner.active + 1;
          state := Active;
          ok := true;
        case Active => ok := true;
        case Draining => ok := false;
        case Released => ok := false;
      }
    }

    method BeginDrain() returns (ok: bool)
      modifies this, owner
      ensures ok == (old(state) == Active)
      ensures state == if ok then Draining else old(state)
      ensures owner.draining == old(owner.draining) + if ok then 1 else 0
      ensures owner.active == old(owner.active) - if ok && old(owner.active) > 0 then 1 else 0
      ensures owner.State() == if ok then CountDrain(old(owner.State())) else old(owner.State())
    {
      if state != Active {
        return false;
      }
      if owner.active > 0 {
        owner.active := owner.active - 1;
      }
      owner.draining := owner.draining + 1;
      state := Draining;
      ok := true;
    }

    method Release()
      modifies this, owner, listener
      ensures state == Released
      ensures owner.State() == if old(state) == Released then old(owner.State())
          else Settle(old(owner.State()), peer, old(state))
      ensures listener != null && old(state) != Released && old(listener.used) > 0 ==>
                listener.used == old(listener.used) - 1
      ensures listener != null && (old(state) == Released || old(listener.used) <= 0) ==>
                listener.used == old(listener.used)
    {
      if state == Released {
        return;
      }
      var was := state;
      state := Released;
      owner.ReleaseConnection(peer, was);
      if listener != null {
        listener.Release();
      }
    }
  }

  predicate Idling(c: Counters) {
    c.opening == 0 && c.active == 0 && c.draining == 0 && c.handshakes == 0 && c.upgrades == 0
  }

  // --------------------------------------------------------- the machine

  ghost predicate Init(s: Controller) {
    && s.counters == Counters(0, 0, 0, 0, 0, map[])
    && s.listeners == [] && s.leases == [] && s.activities == [] && s.threads == []
  }

  function Back(listener: Maybe<nat>): Thread { if listener.Some? then GivingBack(listener.value) else Idle }

  /** A free thread starts a call. */
  ghost predicate CallStep(s: Controller, s': Controller, i: nat) {
    && i < |s.threads| && s.threads[i] == Idle
    && (|| (exists peer, listener :: StartAcquire(s, s', i, peer, listener))
        || (exists l :: StartActivate(s, s', i, l)) || (exists l :: StartDrain(s, s', i, l))
        || (exists l :: StartRelease(s, s', i, l)) || (exists a :: StartActivityRelease(s, s', i, a))
        || AcquireActivity(s, s'))
  }

  ghost predicate StartAcquire(s: Controller, s': Controller, i: nat, peer: Maybe<nat>, listener: Maybe<nat>) {
    i < |s.threads| && (listener.Some? ==> listener.value < |s.listeners|) && s' == s.Go(i, Acquiring(peer, listener))
  }

  ghost predicate StartActivate(s: Controller, s': Controller, i: nat, l: nat) {
    && i < |s.threads| && l < |s.leases| && s.leases[l].mid == Free && s.leases[l].state == Opening
    && s' == s.(counters := CountActivate(s.counters), leases := s.leases[l := s.leases[l].(mid := Activating(i))])
              .Go(i, FinishActivate(l))
  }

  ghost predicate StartDrain(s: Controller, s': Controller, i: nat, l: nat) {
    && i < |s.threads| && l < |s.leases| && s.leases[l].mid == Free && s.leases[l].state == Active
    && s' == s.(counters := CountDrain(s.counters), leases := s.leases[l := s.leases[l].(mid := StartingDrain(i))])
              .Go(i, FinishDrain(l))
  }

  /** A release marks the lease first; only the first release goes on to the counters. */
  ghost predicate StartRelease(s: Controller, s': Controller, i: nat, l: nat) {
    && i < |s.threads| && l < |s.leases| && s.leases[l].mid == Free && s.leases[l].state != Released
    && var x := s.leases[l];
       s' == s.(leases := s.leases[l := x.(state := Released, releases := x.releases + 1)])
              .Go(i, Settling(x.peer, x.listener, x.state))
  }

  ghost predicate StartActivityRelease(s: Controller, s': Controller, i: nat, a: nat) {
    && i < |s.threads| && a < |s.activities| && !s.activities[a].released
    && s' == s.(activities := s.activities[a := s.activities[a].(released := true)])
              .Go(i, SettlingActivity(s.activities[a].kind))
  }

  ghost predicate AcquireActivity(s: Controller, s': Controller) {
    || ((s.limits.handshakes == 0 || s.counters.handshakes < s.limits.handshakes)
        && s' == s.(counters := s.counters.(handshakes := s.counters.handshakes + 1),
                    activities := s.activities + [ActivityLease(Handshake, false)]))
    || ((s.limits.upgrades == 0 || s.counters.upgrades < s.limits.upgrades)
        && s' == s.(counters := s.counters.(upgrades := s.counters.upgrades + 1),
                    activities := s.activities + [ActivityLease(Upgrade, false)]))
  }

  ghost predicate ThreadStep(s: Controller, s': Controller, i: nat) {
    i < |s.threads| &&
    match s.threads[i]
    case Idle => false
    case Acquiring(peer, listener) =>
      if listener.None? then s' == s.Go(i, Admitting(peer, None))
      else
        listener.value < |s.listeners| &&
        var x := s.listeners[listener.value];
        s' == s.Go(i, if x.limit > 0 && x.used >= x.limit then Idle else Swapping(peer, listener.value, x.used))
    case Swapping(peer, at, seen) =>
      at < |s.listeners| &&
      if s.listeners[at].used == seen then
        s' == s.(listeners := s.listeners[at := s.listeners[at].(used := seen + 1)]).Go(i, Admitting(peer, Some(at)))
      else s' == s.Go(i, Acquiring(peer, Some(at)))
    case Admitting(peer, listener) =>
      if Rejects(s.limits, s.counters, peer) then s' == s.Go(i, Back(listener))
      else s' == s.(counters := Admit(s.counters, peer),
          leases := s.leases + [Lease(peer, listener, Opening, Free, 0)]).Go(i, Idle)
    case GivingBack(at) =>
      at < |s.listeners| && s' == s.Go(i, if s.listeners[at].used <= 0 then Idle
          else SwappingBack(at, s.listeners[at].used))
    case SwappingBack(at, seen) =>
      at < |s.listeners| &&
      if s.listeners[at].used == seen then
        s' == s.(listeners := s.listeners[at := s.listeners[at].(used := seen - 1)]).Go(i, Idle)
      else s' == s.Go(i, GivingBack(at))
    case FinishActivate(l) =>
      l < |s.leases| && s' == s.(leases := s.leases[l := s.leases[l].(state := Active, mid := Free)]).Go(i, Idle)
    case FinishDrain(l) =>
      l < |s.leases| && s' == s.(leases := s.leases[l := s.leases[l].(state := Draining, mid := Free)]).Go(i, Idle)
    case Settling(peer, listener, was) =>
      s' == s.(counters := Settle(s.counters, peer, was)).Go(i, Back(listener))
    case SettlingActivity(kind) =>
      s' == s.(counters := if kind == Handshake then s.counters.(handshakes := Clamped(s.counters.handshakes))
                           else s.counters.(upgrades := Clamped(s.counters.upgrades))).Go(i, Idle)
  }

  ghost predicate Arrive(s: Controller, s': Controller) {
    || s' == s.(threads := s.threads + [Idle])
    || exists limit :: s' == s.(listeners := s.listeners + [Listener(limit, 0)])
  }

  ghost predicate Next(s: Controller, s': Controller) {
    Arrive(s, s') || (exists i :: CallStep(s, s', i)) || (exists i :: ThreadStep(s, s', i))
  }

  // --------------------------------------------------------- what is counted

  /** The state a lease is counted under: a state change counts from its counter update on. */
  function Phase(l: Lease): LeaseState {
    if l.mid.Activating? then Active else if l.mid.StartingDrain? then Draining else l.state
  }

  /** A quantity spread over leases and the threads that are settling one. */
  datatype Quantity = Quantity(lease: Lease -> int, thread: Thread -> int) {
    ghost predicate NonNegative() { (forall l :: lease(l) >= 0) && (forall t :: thread(t) >= 0) }
  }

  function Total(q: Quantity, leases: seq<Lease>, threads: seq<Thread>): int {
    Sum(q.lease, leases) + Sum(q.thread, threads)
  }

  function InState(st: LeaseState): Quantity {
    Quantity((l: Lease) => if Phase(l) == st then 1 else 0,
             (t: Thread) => if t.Settling? && t.was == st then 1 else 0)
  }

  function OfPeer(p: nat): Quantity {
    Quantity((l: Lease) => if l.peer == Some(p) && l.state != Released then 1 else 0,
             (t: Thread) => if t.Settling? && t.peer == Some(p) then 1 else 0)
  }

  /** A thread holds listener capacity from its swap until it has a lease or has given it back. */
  function Occupies(t: Thread, j: nat): bool {
    match t
    case Admitting(_, listener) => listener == Some(j)
    case Settling(_, listener, _) => listener == Some(j)
    case GivingBack(at) => at == j
    case SwappingBack(at, _) => at == j
    case _ => false
  }

  function OfListener(j: nat): Quantity {
    Quantity((l: Lease) => if l.listener == Some(j) && l.state != Released then 1 else 0,
             (t: Thread) => if Occupies(t, j) then 1 else 0)
  }

  function HeldActivity(k: Activity): ActivityLease -> int {
    (a: ActivityLease) => if a.kind == k && !a.released then 1 else 0
  }

  function SettlingKind(k: Activity): Thread -> int {
    (t: Thread) => if t.SettlingActivity? && t.kind == k then 1 else 0
  }

  function Counter(c: Counters, st: LeaseState): int {
    match st
    case Opening => c.opening
    case Active => c.active
    case Draining => c.draining
    case Released => 0
  }

  function ActivityCounter(c: Counters, k: Activity): int {
    match k
    case Handshake => c.handshakes
    case Upgrade => c.upgrades
  }

  // --------------------------------------------------------- the invariant

  ghost predicate StatesCounted(c: Counters, leases: seq<Lease>, threads: seq<Thread>) {
    forall st :: st != Released ==> Counter(c, st) == Total(InState(st), leases, threads)
  }

  ghost predicate PeersCounted(c: Counters, leases: seq<Lease>, threads: seq<Thread>) {
    && (forall p: nat :: PeerCount(c, p) == Total(OfPeer(p), leases, threads))
    && (forall p: nat :: p in c.perPeer ==> c.perPeer[p] > 0)
  }

  ghost predicate ListenersCounted(listeners: seq<Listener>, leases: seq<Lease>, threads: seq<Thread>) {
    forall j: nat :: j < |listeners| ==> listeners[j].used == Total(OfListener(j), leases, threads)
  }

  ghost predicate ActivitiesCounted(c: Counters, activities: seq<ActivityLease>, threads: seq<Thread>) {
    forall k :: ActivityCounter(c, k) == Sum(HeldActivity(k), activities) + Sum(SettlingKind(k), threads)
  }

  predicate LeaseOk(l: Lease, listeners: nat) {
    && (l.listener.Some? ==> l.listener.value < listeners)
    && (l.mid.Activating? ==> l.state == Opening)
    && (l.mid.StartingDrain? ==> l.state == Active)
    && l.releases == (if l.state == Released then 1 else 0)
  }

  predicate ThreadOk(i: nat, t: Thread, leases: seq<Lease>, listeners: seq<Listener>) {
    match t
    case Idle => true
    case Acquiring(_, listener) => listener.Some? ==> listener.value < |listeners|
    case Swapping(_, at, seen) => at < |listeners| && (listeners[at].limit > 0 ==> seen < listeners[at].limit)
    case Admitting(_, listener) => listener.Some? ==> listener.value < |listeners|
    case GivingBack(at) => at < |listeners|
    case SwappingBack(at, seen) => at < |listeners| && seen > 0
    case FinishActivate(l) => l < |leases| && leases[l].mid == Activating(i)
    case FinishDrain(l) => l < |leases| && leases[l].mid == StartingDrain(i)
    case Settling(_, listener, was) => was != Released && (listener.Some? ==> listener.value < |listeners|)
    case SettlingActivity(_) => true
  }

  ghost predicate Shape(listeners: seq<Listener>, leases: seq<Lease>, threads: seq<Thread>) {
    && (forall l :: 0 <= l < |leases| ==> LeaseOk(leases[l], |listeners|))
    && (forall i :: 0 <= i < |threads| ==> ThreadOk(i, threads[i], leases, listeners))
  }

  ghost predicate WithinLimits(limits: Limits, c: Counters, listeners: seq<Listener>) {
    && (limits.connections > 0 ==> c.opening + c.active + c.draining <= limits.connections)
    && (limits.perPeer > 0 ==> forall p: nat :: PeerCount(c, p) <= limits.perPeer)
    && (limits.handshakes > 0 ==> c.handshakes <= limits.handshakes)
    && (limits.upgrades > 0 ==> c.upgrades <= limits.upgrades)
    && forall j :: 0 <= j < |listeners| ==> listeners[j].limit > 0 ==> listeners[j].used <= listeners[j].limit
  }

  ghost predicate Inv(s: Controller) {
    && StatesCounted(s.counters, s.leases, s.threads)
    && PeersCounted(s.counters, s.leases, s.threads)
    && ListenersCounted(s.listeners, s.leases, s.threads)
    && ActivitiesCounted(s.counters, s.activities, s.threads)
    && Shape(s.listeners, s.leases, s.threads)
    && WithinLimits(s.limits, s.counters, s.listeners)
  }

  // --------------------------------------------------------- how a total moves

  datatype Change = Same | Put(at: nat, lease: Lease) | Add(lease: Lease) {
    predicate Fits(leases: seq<Lease>) { Put? ==> at < |leases| }

    function Apply(leases: seq<Lease>): seq<Lease>
      requires Fits(leases)
    {
      match this
      case Same => leases
      case Put(l, x) => leases[l := x]
      case Add(x) => leases + [x]
    }

    function Delta(q: Quantity, leases: seq<Lease>): int
      requires Fits(leases)
    {
      match this
      case Same => 0
      case Put(l, x) => q.lease(x) - q.lease(leases[l])
      case Add(x) => q.lease(x)
    }
  }

  /** By how much one thread's move and one lease's change move a total. */
  function Moved(q: Quantity, leases: seq<Lease>, ch: Change, from: Thread, to: Thread): int
    requires ch.Fits(leases)
  {
    ch.Delta(q, leases) + q.thread(to) - q.thread(from)
  }

  lemma {:induction false} TotalMoves(
      q: Quantity, leases: seq<Lease>, ch: Change, threads: seq<Thread>, i: nat, to: Thread)
    requires ch.Fits(leases) && i < |threads|
    ensures Total(q, ch.Apply(leases), threads[i := to]) ==
        Total(q, leases, threads) + Moved(q, leases, ch, threads[i], to)
  {
    SumUpdate(q.thread, threads, i, to);
    match ch {
      case Same =>
      case Put(l, x) => SumUpdate(q.lease, leases, l, x);
      case Add(x) => SumAppend(q.lease, leases, x);
    }
  }

  lemma {:induction false} LeaseWeighs(q: Quantity, leases: seq<Lease>, threads: seq<Thread>, l: nat)
    requires q.NonNegative() && l < |leases|
    ensures Total(q, leases, threads) >= q.lease(leases[l])
  {
    SumAtLeast(q.lease, leases, l);
    SumNonNegative(q.thread, threads);
  }

  lemma {:induction false} ThreadWeighs(q: Quantity, leases: seq<Lease>, threads: seq<Thread>, i: nat)
    requires q.NonNegative() && i < |threads|
    ensures Total(q, leases, threads) >= q.thread(threads[i])
  {
    SumAtLeast(q.thread, threads, i);
    SumNonNegative(q.lease, leases);
  }

  ghost predicate StatesMove(c: Counters, c': Counters, leases: seq<Lease>, ch: Change, from: Thread, to: Thread)
    requires ch.Fits(leases)
  {
    forall st :: st != Released ==> Counter(c', st) == Counter(c, st) + Moved(InState(st), leases, ch, from, to)
  }

  ghost predicate PeersMove(c: Counters, c': Counters, leases: seq<Lease>, ch: Change, from: Thread, to: Thread)
    requires ch.Fits(leases)
  {
    && (forall p: nat :: PeerCount(c', p) == PeerCount(c, p) + Moved(OfPeer(p), leases, ch, from, to))
    && (forall p: nat :: p in c'.perPeer ==> c'.perPeer[p] > 0)
  }

  ghost predicate ListenersMove(ls: seq<Listener>, ls': seq<Listener>, leases: seq<Lease>, ch: Change, from: Thread,
      to: Thread)
    requires ch.Fits(leases)
  {
    && |ls'| == |ls|
    && forall j: nat :: j < |ls| ==> ls'[j].used == ls[j].used + Moved(OfListener(j), leases, ch, from, to)
  }

  ghost predicate ActivitiesMove(c: Counters, c': Counters, from: Thread, to: Thread) {
    forall k :: ActivityCounter(c', k) == ActivityCounter(c, k) + SettlingKind(k)(to) - SettlingKind(k)(from)
  }

  /** A step that moves thread `i`, changes at most one lease and keeps the books balanced. */
  ghost predicate Balanced(s: Controller, s': Controller, i: nat, to: Thread, ch: Change) {
    && i < |s.threads| && ch.Fits(s.leases)
    && s'.threads == s.threads[i := to] && s'.leases == ch.Apply(s.leases)
    && StatesMove(s.counters, s'.counters, s.leases, ch, s.threads[i], to)
    && PeersMove(s.counters, s'.counters, s.leases, ch, s.threads[i], to)
    && ListenersMove(s.listeners, s'.listeners, s.leases, ch, s.threads[i], to)
  }

  lemma {:induction false} BalancedKeepsCounts(s: Controller, s': Controller, i: nat, to: Thread, ch: Change)
    requires Balanced(s, s', i, to, ch)
    requires StatesCounted(s.counters, s.leases, s.threads)
    requires PeersCounted(s.counters, s.leases, s.threads)
    requires ListenersCounted(s.listeners, s.leases, s.threads)
    ensures StatesCounted(s'.counters, s'.leases, s'.threads)
    ensures PeersCounted(s'.counters, s'.leases, s'.threads)
    ensures ListenersCounted(s'.listeners, s'.leases, s'.threads)
  {
    forall st | st != Released
      ensures Counter(s'.counters, st) == Total(InState(st), s'.leases, s'.threads)
    {
      TotalMoves(InState(st), s.leases, ch, s.threads, i, to);
    }
    forall p: nat
      ensures PeerCount(s'.counters, p) == Total(OfPeer(p), s'.leases, s'.threads)
    {
      TotalMoves(OfPeer(p), s.leases, ch, s.threads, i, to);
    }
    forall j: nat | j < |s'.listeners|
      ensures s'.listeners[j].used == Total(OfListener(j), s'.leases, s'.threads)
    {
      TotalMoves(OfListener(j), s.leases, ch, s.threads, i, to);
    }
  }

  lemma {:induction false} ActivitiesFollow(
      c: Counters, c': Counters, activities: seq<ActivityLease>, threads: seq<Thread>, i: nat, to: Thread)
    requires ActivitiesCounted(c, activities, threads) && i < |threads| && ActivitiesMove(c, c', threads[i], to)
    ensures ActivitiesCounted(c', activities, threads[i := to])
  {
    forall k
      ensures ActivityCounter(c', k) == Sum(HeldActivity(k), activities) + Sum(SettlingKind(k), threads[i := to])
    {
      SumUpdate(SettlingKind(k), threads, i, to);
    }
  }

  // --------------------------------------------------------- each step is balanced

  /** A thread that is about to settle finds its counters above zero. */
  lemma {:induction false} SettlingFindsCounters(s: Controller, i: nat)
    requires Inv(s) && i < |s.threads| && s.threads[i].Settling?
    ensures Counter(s.counters, s.threads[i].was) > 0
    ensures s.threads[i].peer.Some? ==> s.threads[i].peer.value in s.counters.perPeer
  {
    assert ThreadOk(i, s.threads[i], s.leases, s.listeners);
    ThreadWeighs(InState(s.threads[i].was), s.leases, s.threads, i);
    if s.threads[i].peer.Some? {
      var p := s.threads[i].peer.value;
      ThreadWeighs(OfPeer(p), s.leases, s.threads, i);
      assert PeerCount(s.counters, p) > 0;
    }
  }

  /** A thread that holds listener capacity finds the listener in use. */
  lemma {:induction false} OccupierFindsListener(s: Controller, i: nat, j: nat)
    requires Inv(s) && i < |s.threads| && j < |s.listeners| && Occupies(s.threads[i], j)
    ensures s.listeners[j].used > 0
  {
    ThreadWeighs(OfListener(j), s.leases, s.threads, i);
  }

  /** A lease is counted under its phase. */
  lemma {:induction false} LeaseFindsCounter(s: Controller, l: nat)
    requires Inv(s) && l < |s.leases| && Phase(s.leases[l]) != Released
    ensures Counter(s.counters, Phase(s.leases[l])) > 0
  {
    LeaseWeighs(InState(Phase(s.leases[l])), s.leases, s.threads, l);
  }

  lemma {:induction false} SettlingActivityFindsCounter(s: Controller, i: nat)
    requires Inv(s) && i < |s.threads| && s.threads[i].SettlingActivity?
    ensures ActivityCounter(s.counters, s.threads[i].kind) > 0
  {
    var k := s.threads[i].kind;
    SumAtLeast(SettlingKind(k), s.threads, i);
    SumNonNegative(HeldActivity(k), s.activities);
  }

  /** The part of the invariant that is not a sum, across a move of one thread and one lease. */
  lemma {:induction false} ShapeFollows(
      listeners: seq<Listener>, listeners': seq<Listener>, leases: seq<Lease>, ch: Change,
      threads: seq<Thread>, i: nat, to: Thread)
    requires Shape(listeners, leases, threads) && i < |threads| && ch.Fits(leases)
    requires |listeners'| == |listeners| && forall j :: 0 <= j < |listeners| ==>
        listeners'[j].limit == listeners[j].limit
    requires ch.Put? || ch.Add? ==> LeaseOk(ch.lease, |listeners|)
    requires ch.Put? ==>
               leases[ch.at].mid == Free || threads[i] == FinishActivate(ch.at) || threads[i] == FinishDrain(ch.at)
    requires ThreadOk(i, to, ch.Apply(leases), listeners)
    ensures Shape(listeners', ch.Apply(leases), threads[i := to])
  {
    var leases', threads' := ch.Apply(leases), threads[i := to];
    forall l | 0 <= l < |leases'|
      ensures LeaseOk(leases'[l], |listeners'|)
    {
      if l < |leases| {
        assert LeaseOk(leases[l], |listeners|);
      }
    }
    forall k | 0 <= k < |threads'|
      ensures ThreadOk(k, threads'[k], leases', listeners')
    {
      assert ThreadOk(k, threads[k], leases, listeners);
      assert ThreadOk(i, threads[i], leases, listeners);
    }
  }

  /** A thread moves and nothing it counts for changes. */
  ghost predicate Silent(s: Controller, s': Controller, i: nat, to: Thread) {
    && i < |s.threads| && s' == s.Go(i, to)
    && !s.threads[i].Settling? && !s.threads[i].SettlingActivity? && !to.Settling? && !to.SettlingActivity?
    && (forall j: nat :: Occupies(to, j) <==> Occupies(s.threads[i], j))
    && ThreadOk(i, to, s.leases, s.listeners)
  }

  lemma {:induction false} SilentKeeps(s: Controller, s': Controller, i: nat, to: Thread)
    requires Inv(s) && Silent(s, s', i, to)
    ensures Inv(s')
  {
    BalancedKeepsCounts(s, s', i, to, Same);
    ActivitiesFollow(s.counters, s'.counters, s.activities, s.threads, i, to);
    ShapeFollows(s.listeners, s'.listeners, s.leases, Same, s.threads, i, to);
  }

  lemma {:induction false} SwapKeeps(s: Controller, s': Controller, i: nat)
    requires Inv(s) && i < |s.threads| && s.threads[i].Swapping? && ThreadStep(s, s', i)
    ensures Inv(s')
  {
    var t := s.threads[i];
    assert ThreadOk(i, t, s.leases, s.listeners);
    if s.listeners[t.at].used == t.seen {
      var to := Admitting(t.peer, Some(t.at));
      BalancedKeepsCounts(s, s', i, to, Same);
      ActivitiesFollow(s.counters, s'.counters, s.activities, s.threads, i, to);
      ShapeFollows(s.listeners, s'.listeners, s.leases, Same, s.threads, i, to);
    } else {
      SilentKeeps(s, s', i, Acquiring(t.peer, Some(t.at)));
    }
  }

  lemma {:induction false} SwapBackKeeps(s: Controller, s': Controller, i: nat)
    requires Inv(s) && i < |s.threads| && s.threads[i].SwappingBack? && ThreadStep(s, s', i)
    ensures Inv(s')
  {
    var t := s.threads[i];
    assert ThreadOk(i, t, s.leases, s.listeners);
    if s.listeners[t.at].used == t.seen {
      BalancedKeepsCounts(s, s', i, Idle, Same);
      ActivitiesFollow(s.counters, s'.counters, s.activities, s.threads, i, Idle);
      ShapeFollows(s.listeners, s'.listeners, s.leases, Same, s.threads, i, Idle);
    } else {
      SilentKeeps(s, s', i, GivingBack(t.at));
    }
  }

  lemma {:induction false} AdmitKeeps(s: Controller, s': Controller, i: nat)
    requires Inv(s) && i < |s.threads| && s.threads[i].Admitting? && ThreadStep(s, s', i)
    ensures Inv(s')
  {
    var t := s.threads[i];
    assert ThreadOk(i, t, s.leases, s.listeners);
    if Rejects(s.limits, s.counters, t.peer) {
      SilentKeeps(s, s', i, Back(t.listener));
    } else {
      var ch := Add(Lease(t.peer, t.listener, Opening, Free, 0));
      BalancedKeepsCounts(s, s', i, Idle, ch);
      ActivitiesFollow(s.counters, s'.counters, s.activities, s.threads, i, Idle);
      ShapeFollows(s.listeners, s'.listeners, s.leases, ch, s.threads, i, Idle);
      AdmitKeepsLimits(s, t.peer);
    }
  }

  lemma {:induction false} AdmitKeepsLimits(s: Controller, peer: Maybe<nat>)
    requires WithinLimits(s.limits, s.counters, s.listeners) && !Rejects(s.limits, s.counters, peer)
    ensures WithinLimits(s.limits, Admit(s.counters, peer), s.listeners)
  {
    forall p: nat
      ensures PeerCount(Admit(s.counters, peer), p) == PeerCount(s.counters, p) + (if peer == Some(p) then 1 else 0)
    {
    }
  }

  lemma {:induction false} StartActivateKeeps(s: Controller, s': Controller, i: nat, l: nat)
    requires Inv(s) && StartActivate(s, s', i, l) && s.threads[i] == Idle
    ensures Inv(s')
  {
    assert LeaseOk(s.leases[l], |s.listeners|);
    LeaseFindsCounter(s, l);
    var ch := Put(l, s.leases[l].(mid := Activating(i)));
    BalancedKeepsCounts(s, s', i, FinishActivate(l), ch);
    ActivitiesFollow(s.counters, s'.counters, s.activities, s.threads, i, FinishActivate(l));
    ShapeFollows(s.listeners, s'.listeners, s.leases, ch, s.threads, i, FinishActivate(l));
  }

  lemma {:induction false} StartDrainKeeps(s: Controller, s': Controller, i: nat, l: nat)
    requires Inv(s) && StartDrain(s, s', i, l) && s.threads[i] == Idle
    ensures Inv(s')
  {
    assert LeaseOk(s.leases[l], |s.listeners|);
    LeaseFindsCounter(s, l);
    var ch := Put(l, s.leases[l].(mid := StartingDrain(i)));
    BalancedKeepsCounts(s, s', i, FinishDrain(l), ch);
    ActivitiesFollow(s.counters, s'.counters, s.activities, s.threads, i, FinishDrain(l));
    ShapeFollows(s.listeners, s'.listeners, s.leases, ch, s.threads, i, FinishDrain(l));
  }

  lemma {:induction false} StartReleaseKeeps(s: Controller, s': Controller, i: nat, l: nat)
    requires Inv(s) && StartRelease(s, s', i, l) && s.threads[i] == Idle
    ensures Inv(s')
  {
    var x := s.leases[l];
    assert LeaseOk(x, |s.listeners|);
    var ch := Put(l, x.(state := Released, releases := x.releases + 1));
    var to := Settling(x.peer, x.listener, x.state);
    BalancedKeepsCounts(s, s', i, to, ch);
    ActivitiesFollow(s.counters, s'.counters, s.activities, s.threads, i, to);
    ShapeFollows(s.listeners, s'.listeners, s.leases, ch, s.threads, i, to);
  }

  lemma {:induction false} FinishKeeps(s: Controller, s': Controller, i: nat)
    requires Inv(s) && i < |s.threads| && ThreadStep(s, s', i)
    requires s.threads[i].FinishActivate? || s.threads[i].FinishDrain?
    ensures Inv(s')
  {
    var l := s.threads[i].lease;
    assert ThreadOk(i, s.threads[i], s.leases, s.listeners);
    assert LeaseOk(s.leases[l], |s.listeners|);
    var ch := Put(l, s.leases[l].(state := if s.threads[i].FinishActivate? then Active else Draining, mid := Free));
    BalancedKeepsCounts(s, s', i, Idle, ch);
    ActivitiesFollow(s.counters, s'.counters, s.activities, s.threads, i, Idle);
    ShapeFollows(s.listeners, s'.listeners, s.leases, ch, s.threads, i, Idle);
  }

  lemma {:induction false} SettleKeeps(s: Controller, s': Controller, i: nat)
    requires Inv(s) && i < |s.threads| && s.threads[i].Settling? && ThreadStep(s, s', i)
    ensures Inv(s')
  {
    var t := s.threads[i];
    assert ThreadOk(i, t, s.leases, s.listeners);
    SettlingFindsCounters(s, i);
    var to := Back(t.listener);
    SettleMoves(s.counters, t, to, s.leases);
    BalancedKeepsCounts(s, s', i, to, Same);
    ActivitiesFollow(s.counters, s'.counters, s.activities, s.threads, i, to);
    ShapeFollows(s.listeners, s'.listeners, s.leases, Same, s.threads, i, to);
  }

  lemma {:induction false} SettleMoves(c: Counters, t: Thread, to: Thread, leases: seq<Lease>)
    requires t.Settling? && t.was != Released && Counter(c, t.was) > 0 && to == Back(t.listener)
    requires t.peer.Some? ==> t.peer.value in c.perPeer
    requires forall p: nat :: p in c.perPeer ==> c.perPeer[p] > 0
    ensures StatesMove(c, Settle(c, t.peer, t.was), leases, Same, t, to)
    ensures PeersMove(c, Settle(c, t.peer, t.was), leases, Same, t, to)
    ensures forall p: nat :: PeerCount(Settle(c, t.peer, t.was), p) <= PeerCount(c, p)
  {
  }

  lemma {:induction false} ActivityKeeps(s: Controller, s': Controller)
    requires Inv(s) && AcquireActivity(s, s')
    ensures Inv(s')
  {
    var a := s'.activities[|s.activities|];
    forall k
      ensures ActivityCounter(s'.counters, k) == Sum(HeldActivity(k), s'.activities) + Sum(SettlingKind(k), s'.threads)
    {
      SumAppend(HeldActivity(k), s.activities, a);
    }
    assert forall st :: Counter(s'.counters, st) == Counter(s.counters, st);
    assert forall p: nat :: PeerCount(s'.counters, p) == PeerCount(s.counters, p);
  }

  lemma {:induction false} StartActivityReleaseKeeps(s: Controller, s': Controller, i: nat, a: nat)
    requires Inv(s) && StartActivityRelease(s, s', i, a) && s.threads[i] == Idle
    ensures Inv(s')
  {
    var to := SettlingActivity(s.activities[a].kind);
    BalancedKeepsCounts(s, s', i, to, Same);
    ShapeFollows(s.listeners, s'.listeners, s.leases, Same, s.threads, i, to);
    forall k
      ensures ActivityCounter(s'.counters, k) == Sum(HeldActivity(k), s'.activities) + Sum(SettlingKind(k), s'.threads)
    {
      SumUpdate(HeldActivity(k), s.activities, a, s.activities[a].(released := true));
      SumUpdate(SettlingKind(k), s.threads, i, to);
    }
  }

  lemma {:induction false} SettleActivityKeeps(s: Controller, s': Controller, i: nat)
    requires Inv(s) && i < |s.threads| && s.threads[i].SettlingActivity? && ThreadStep(s, s', i)
    ensures Inv(s')
  {
    SettlingActivityFindsCounter(s, i);
    assert forall st :: Counter(s'.counters, st) == Counter(s.counters, st);
    assert forall p: nat :: PeerCount(s'.counters, p) == PeerCount(s.counters, p);
    BalancedKeepsCounts(s, s', i, Idle, Same);
    ActivitiesFollow(s.counters, s'.counters, s.activities, s.threads, i, Idle);
    ShapeFollows(s.listeners, s'.listeners, s.leases, Same, s.threads, i, Idle);
  }

  lemma {:induction false} ArriveKeeps(s: Controller, s': Controller)
    requires Inv(s) && Arrive(s, s')
    ensures Inv(s')
  {
    if s'.listeners == s.listeners {
      forall q: Quantity
        ensures q.thread(Idle) == 0 ==> Total(q, s'.leases, s'.threads) == Total(q, s.leases, s.threads)
      {
        SumAppend(q.thread, s.threads, Idle);
      }
      forall k
        ensures Sum(SettlingKind(k), s'.threads) == Sum(SettlingKind(k), s.threads)
      {
        SumAppend(SettlingKind(k), s.threads, Idle);
      }
    } else {
      FreshListenerUnused(s);
      forall i | 0 <= i < |s'.threads|
        ensures ThreadOk(i, s'.threads[i], s'.leases, s'.listeners)
      {
        assert ThreadOk(i, s.threads[i], s.leases, s.listeners);
      }
      forall l | 0 <= l < |s'.leases|
        ensures LeaseOk(s'.leases[l], |s'.listeners|)
      {
        assert LeaseOk(s.leases[l], |s.listeners|);
      }
    }
  }

  lemma {:induction false} FreshListenerUnused(s: Controller)
    requires Shape(s.listeners, s.leases, s.threads)
    ensures Total(OfListener(|s.listeners|), s.leases, s.threads) == 0
  {
    var q := OfListener(|s.listeners|);
    forall l | 0 <= l < |s.leases|
      ensures q.lease(s.leases[l]) == 0
    {
      assert LeaseOk(s.leases[l], |s.listeners|);
    }
    forall i | 0 <= i < |s.threads|
      ensures q.thread(s.threads[i]) == 0
    {
      assert ThreadOk(i, s.threads[i], s.leases, s.listeners);
    }
    SumZero(q.lease, s.leases);
    SumZero(q.thread, s.threads);
  }

  lemma {:induction false} QuietThreadKeeps(s: Controller, s': Controller, i: nat)
    requires Inv(s) && i < |s.threads| && ThreadStep(s, s', i)
    requires s.threads[i].Acquiring? || s.threads[i].GivingBack?
    ensures Inv(s')
  {
    assert ThreadOk(i, s.threads[i], s.leases, s.listeners);
    if s.threads[i].GivingBack? {
      OccupierFindsListener(s, i, s.threads[i].at);
    }
    SilentKeeps(s, s', i, s'.threads[i]);
  }

  lemma {:induction false} ThreadStepKeeps(s: Controller, s': Controller, i: nat)
    requires Inv(s) && ThreadStep(s, s', i)
    ensures Inv(s')
  {
    match s.threads[i] {
      case Acquiring(_, _) => QuietThreadKeeps(s, s', i);
      case Swapping(_, _, _) => SwapKeeps(s, s', i);
      case Admitting(_, _) => AdmitKeeps(s, s', i);
      case GivingBack(_) => QuietThreadKeeps(s, s', i);
      case SwappingBack(_, _) => SwapBackKeeps(s, s', i);
      case FinishActivate(_) => FinishKeeps(s, s', i);
      case FinishDrain(_) => FinishKeeps(s, s', i);
      case Settling(_, _, _) => SettleKeeps(s, s', i);
      case SettlingActivity(_) => SettleActivityKeeps(s, s', i);
    }
  }

  lemma {:induction false} CallStepKeeps(s: Controller, s': Controller, i: nat)
    requires Inv(s) && CallStep(s, s', i)
    ensures Inv(s')
  {
    if AcquireActivity(s, s') {
      ActivityKeeps(s, s');
    } else if l: nat :| StartActivate(s, s', i, l) {
      StartActivateKeeps(s, s', i, l);
    } else if l: nat :| StartDrain(s, s', i, l) {
      StartDrainKeeps(s, s', i, l);
    } else if l: nat :| StartRelease(s, s', i, l) {
      StartReleaseKeeps(s, s', i, l);
    } else if a: nat :| StartActivityRelease(s, s', i, a) {
      StartActivityReleaseKeeps(s, s', i, a);
    } else {
      var peer, listener :| StartAcquire(s, s', i, peer, listener);
      SilentKeeps(s, s', i, Acquiring(peer, listener));
    }
  }

  lemma {:induction false} InvIsInductive()
    ensures Inductive(Init, Next, Inv)
  {
    forall s, s' | Inv(s) && Next(s, s')
      ensures Inv(s')
    {
      if Arrive(s, s') {
        ArriveKeeps(s, s');
      } else if i: nat :| CallStep(s, s', i) {
        CallStepKeeps(s, s', i);
      } else {
        var i: nat :| ThreadStep(s, s', i);
        ThreadStepKeeps(s, s', i);
      }
    }
  }

  lemma {:induction false} Reached(s: Controller)
    requires Reachable(Init, Next, s)
    ensures Inv(s)
  {
    InvIsInductive();
    Invariant(Init, Next, Inv, s);
  }

  // --------------------------------------------------------- theorems

  /** Each counter is the number of leases counted under that state plus the releases still settling it. */
  lemma {:induction false} CountersExact(s: Controller, st: LeaseState)
    requires Reachable(Init, Next, s) && st != Released
    ensures Counter(s.counters, st) == Total(InState(st), s.leases, s.threads) >= 0
  {
    Reached(s);
    SumNonNegative(InState(st).lease, s.leases);
    SumNonNegative(InState(st).thread, s.threads);
  }

  /** A peer has an entry exactly when it has a live lease or a release in progress; no entry is ever zero. */
  lemma {:induction false} PeerEntryIffUsed(s: Controller, p: nat)
    requires Reachable(Init, Next, s)
    ensures p in s.counters.perPeer <==>
            || (exists l :: 0 <= l < |s.leases| && s.leases[l].peer == Some(p) && s.leases[l].state != Released)
            || (exists i :: 0 <= i < |s.threads| && s.threads[i].Settling? && s.threads[i].peer == Some(p))
  {
    Reached(s);
    var q := OfPeer(p);
    if l :| 0 <= l < |s.leases| && s.leases[l].peer == Some(p) && s.leases[l].state != Released {
      LeaseWeighs(q, s.leases, s.threads, l);
      assert PeerCount(s.counters, p) > 0;
    } else if i :| 0 <= i < |s.threads| && s.threads[i].Settling? && s.threads[i].peer == Some(p) {
      ThreadWeighs(q, s.leases, s.threads, i);
      assert PeerCount(s.counters, p) > 0;
    } else {
      SumZero(q.lease, s.leases);
      SumZero(q.thread, s.threads);
      assert PeerCount(s.counters, p) == 0;
    }
  }

  /** The connections that count: leases that are not released, and released ones not yet subtracted. */
  function Present(s: Controller): int {
    Total(InState(Opening), s.leases, s.threads) + Total(InState(Active), s.leases, s.threads) +
    Total(InState(Draining), s.leases, s.threads)
  }

  /** Every place the limits allow is taken, overall or for this peer. */
  predicate Full(s: Controller, peer: Maybe<nat>) {
    || (s.limits.connections > 0 && Present(s) >= s.limits.connections)
    || (peer.Some? && s.limits.perPeer > 0 && Total(OfPeer(peer.value), s.leases, s.threads) >= s.limits.perPeer)
  }

  /** A connection is turned away exactly when every place is taken; otherwise it gets its lease. */
  lemma {:induction false} AdmitsUnlessFull(s: Controller, s': Controller, i: nat)
    requires Reachable(Init, Next, s) && i < |s.threads| && s.threads[i].Admitting? && ThreadStep(s, s', i)
    ensures var peer, listener := s.threads[i].peer, s.threads[i].listener;
            if Full(s, peer) then
              s'.leases == s.leases && s'.counters == s.counters &&
              s'.threads[i] == if listener.Some? then GivingBack(listener.value) else Idle
            else
              s'.leases == s.leases + [Lease(peer, listener, Opening, Free, 0)] && s'.threads[i] == Idle
  {
    Reached(s);
    var c := s.counters;
    assert c.opening == Counter(c, Opening) && c.active == Counter(c, Active) && c.draining == Counter(c, Draining);
    assert s.threads[i].peer.Some? ==>
        PeerCount(c, s.threads[i].peer.value) == Total(OfPeer(s.threads[i].peer.value), s.leases, s.threads);
  }

  /** A listener turns a connection away exactly when all of its capacity is taken. */
  lemma {:induction false} ListenerRefusesIffFull(s: Controller, s': Controller, i: nat)
    requires Reachable(Init, Next, s) && i < |s.threads| && s.threads[i].Acquiring? && ThreadStep(s, s', i)
    requires s.threads[i].listener.Some?
    ensures var peer, j := s.threads[i].peer, s.threads[i].listener.value;
            && j < |s.listeners|
            && var taken := Total(OfListener(j), s.leases, s.threads);
            s' == s.Go(i, if s.listeners[j].limit > 0 && taken >= s.listeners[j].limit then Idle
                          else Swapping(peer, j, taken))
  {
    Reached(s);
  }

  /** A handshake can start exactly while those in progress are fewer than the limit; and so can an upgrade. */
  lemma {:induction false} ActivityAdmittedIff(s: Controller, k: Activity)
    requires Reachable(Init, Next, s)
    ensures (exists s' :: AcquireActivity(s, s') && s'.activities == s.activities + [ActivityLease(k, false)]) <==>
            var limit := if k == Handshake then s.limits.handshakes else s.limits.upgrades;
            limit == 0 || Sum(HeldActivity(k), s.activities) + Sum(SettlingKind(k), s.threads) < limit
  {
    Reached(s);
    var c := s.counters;
    assert ActivityCounter(c, k) == Sum(HeldActivity(k), s.activities) + Sum(SettlingKind(k), s.threads);
    var s' := s.(counters := if k == Handshake then c.(handshakes := c.handshakes + 1)
                             else c.(upgrades := c.upgrades + 1),
                 activities := s.activities + [ActivityLease(k, false)]);
    if (if k == Handshake then s.limits.handshakes else s.limits.upgrades) == 0
       || ActivityCounter(c, k) < (if k == Handshake then s.limits.handshakes else s.limits.upgrades) {
      assert AcquireActivity(s, s');
    }
    forall t | AcquireActivity(s, t) && t.activities == s.activities + [ActivityLease(k, false)]
      ensures t == s'
    {
      assert t.activities[|s.activities|] == ActivityLease(k, false);
    }
  }

  /** The limits bound the live leases themselves, not only the counters. */
  lemma {:induction false} LimitsHold(s: Controller)
    requires Reachable(Init, Next, s)
    ensures WithinLimits(s.limits, s.counters, s.listeners)
    ensures s.limits.connections > 0 ==> Sum(Live, s.leases) <= s.limits.connections
    ensures s.limits.perPeer > 0 ==> forall p: nat :: Sum(OfPeer(p).lease, s.leases) <= s.limits.perPeer
    ensures forall j: nat :: j < |s.listeners| && s.listeners[j].limit > 0 ==>
        Sum(OfListener(j).lease, s.leases) <= s.listeners[j].limit
  {
    Reached(s);
    LiveIsSumOfStates(s.leases);
    forall st: LeaseState
      ensures Sum(InState(st).thread, s.threads) >= 0
    {
      SumNonNegative(InState(st).thread, s.threads);
    }
    assert forall st :: st != Released ==> Counter(s.counters, st) >= Sum(InState(st).lease, s.leases);
    assert s.Connections() == Counter(s.counters, Opening) + Counter(s.counters, Active) +
        Counter(s.counters, Draining);
    forall p: nat
      ensures Sum(OfPeer(p).lease, s.leases) <= PeerCount(s.counters, p)
    {
      SumNonNegative(OfPeer(p).thread, s.threads);
    }
    forall j: nat | j < |s.listeners|
      ensures Sum(OfListener(j).lease, s.leases) <= s.listeners[j].used
    {
      SumNonNegative(OfListener(j).thread, s.threads);
    }
  }

  function Live(l: Lease): int { if Phase(l) != Released then 1 else 0 }

  lemma {:induction false} LiveIsSumOfStates(leases: seq<Lease>)
    ensures Sum(Live, leases) ==
            Sum(InState(Opening).lease, leases) + Sum(InState(Active).lease, leases) +
                Sum(InState(Draining).lease, leases)
  {
    if leases != [] {
      LiveIsSumOfStates(leases[1..]);
    }
  }

  /** Every guarded decrement finds something to take: no clamp ever hides a missing count. */
  lemma {:induction false} ClampsNeverFire(s: Controller)
    requires Reachable(Init, Next, s)
    ensures forall l :: 0 <= l < |s.leases| && Phase(s.leases[l]) != Released ==>
        Counter(s.counters, Phase(s.leases[l])) > 0
    ensures forall i :: 0 <= i < |s.threads| && s.threads[i].Settling? ==>
              && Counter(s.counters, s.threads[i].was) > 0
              && (s.threads[i].peer.Some? ==> PeerCount(s.counters, s.threads[i].peer.value) > 0)
    ensures forall i :: 0 <= i < |s.threads| && s.threads[i].SettlingActivity? ==>
        ActivityCounter(s.counters, s.threads[i].kind) > 0
    ensures forall i, j: nat :: 0 <= i < |s.threads| && j < |s.listeners| && Occupies(s.threads[i], j) ==>
        s.listeners[j].used > 0
  {
    Reached(s);
    forall l | 0 <= l < |s.leases| && Phase(s.leases[l]) != Released
      ensures Counter(s.counters, Phase(s.leases[l])) > 0
    {
      LeaseFindsCounter(s, l);
    }
    forall i | 0 <= i < |s.threads| && s.threads[i].Settling?
      ensures Counter(s.counters, s.threads[i].was) > 0
      ensures s.threads[i].peer.Some? ==> PeerCount(s.counters, s.threads[i].peer.value) > 0
    {
      SettlingFindsCounters(s, i);
    }
    forall i | 0 <= i < |s.threads| && s.threads[i].SettlingActivity?
      ensures ActivityCounter(s.counters, s.threads[i].kind) > 0
    {
      SettlingActivityFindsCounter(s, i);
    }
    forall i, j: nat | 0 <= i < |s.threads| && j < |s.listeners| && Occupies(s.threads[i], j)
      ensures s.listeners[j].used > 0
    {
      OccupierFindsListener(s, i, j);
    }
  }

  /** However many threads release a lease, one release takes effect, and exactly when the lease is released. */
  lemma {:induction false} ReleasedAtMostOnce(s: Controller, l: nat)
    requires Reachable(Init, Next, s) && l < |s.leases|
    ensures s.leases[l].releases == if s.leases[l].state == Released then 1 else 0
  {
    Reached(s);
    assert LeaseOk(s.leases[l], |s.listeners|);
  }

  /** Nothing is outstanding: every lease is released and every release has reached the counters. */
  ghost predicate Settled(s: Controller) {
    && (forall l :: 0 <= l < |s.leases| ==> s.leases[l].state == Released)
    && (forall a :: 0 <= a < |s.activities| ==> s.activities[a].released)
    && (forall i :: 0 <= i < |s.threads| ==> !s.threads[i].Settling? && !s.threads[i].SettlingActivity?)
  }

  /** `idle()` answers true exactly when nothing is outstanding. */
  lemma {:induction false} IdleIffSettled(s: Controller)
    requires Reachable(Init, Next, s)
    ensures Idling(s.counters) <==> Settled(s)
  {
    Reached(s);
    if Idling(s.counters) {
      IdleMeansSettled(s);
    } else if Settled(s) {
      SettledMeansIdle(s);
    }
  }

  lemma {:induction false} IdleMeansSettled(s: Controller)
    requires Inv(s) && Idling(s.counters)
    ensures Settled(s)
  {
    forall l | 0 <= l < |s.leases|
      ensures s.leases[l].state == Released
    {
      assert LeaseOk(s.leases[l], |s.listeners|);
      if Phase(s.leases[l]) != Released {
        LeaseFindsCounter(s, l);
      }
    }
    forall i | 0 <= i < |s.threads|
      ensures !s.threads[i].Settling? && !s.threads[i].SettlingActivity?
    {
      if s.threads[i].Settling? {
        SettlingFindsCounters(s, i);
      } else if s.threads[i].SettlingActivity? {
        SettlingActivityFindsCounter(s, i);
      }
    }
    forall a | 0 <= a < |s.activities|
      ensures s.activities[a].released
    {
      var k := s.activities[a].kind;
      SumAtLeast(HeldActivity(k), s.activities, a);
      SumNonNegative(SettlingKind(k), s.threads);
      assert ActivityCounter(s.counters, k) == 0;
    }
  }

  lemma {:induction false} SettledMeansIdle(s: Controller)
    requires Inv(s) && Settled(s)
    ensures Idling(s.counters)
  {
    forall st | st != Released
      ensures Counter(s.counters, st) == 0
    {
      forall l | 0 <= l < |s.leases|
        ensures InState(st).lease(s.leases[l]) == 0
      {
        assert LeaseOk(s.leases[l], |s.listeners|);
      }
      SumZero(InState(st).lease, s.leases);
      SumZero(InState(st).thread, s.threads);
    }
    forall k
      ensures ActivityCounter(s.counters, k) == 0
    {
      SumZero(HeldActivity(k), s.activities);
      SumZero(SettlingKind(k), s.threads);
    }
    assert Counter(s.counters, Opening) == 0 && Counter(s.counters, Active) == 0 && Counter(s.counters, Draining) == 0;
    assert ActivityCounter(s.counters, Handshake) == 0 && ActivityCounter(s.counters, Upgrade) == 0;
  }

  /** Once everything is released and no thread is in a call, the controller is back where it started. */
  lemma {:induction false} QuiescentIsEmpty(s: Controller)
    requires Reachable(Init, Next, s) && Settled(s) && (forall i :: 0 <= i < |s.threads| ==> s.threads[i] == Idle)
    ensures s.counters == Counters(0, 0, 0, 0, 0, map[])
    ensures forall j :: 0 <= j < |s.listeners| ==> s.listeners[j].used == 0
  {
    Reached(s);
    SettledMeansIdle(s);
    forall p: nat
      ensures p !in s.counters.perPeer
    {
      PeerEntryIffUsed(s, p);
    }
    assert s.counters.perPeer == map[];
    forall j: nat | j < |s.listeners|
      ensures s.listeners[j].used == 0
    {
      SumZero(OfListener(j).lease, s.leases);
      SumZero(OfListener(j).thread, s.threads);
    }
  }

  // --------------------------------------------------------- who holds a lease's mutex

  /** A lease caught between its counter and its state is held by the thread it names. */
  predicate HeldBy(l: nat, x: Lease, threads: seq<Thread>) {
    match x.mid
    case Free => true
    case Activating(t) => t < |threads| && threads[t] == FinishActivate(l)
    case StartingDrain(t) => t < |threads| && threads[t] == FinishDrain(l)
  }

  ghost predicate LocksHeld(s: Controller) {
    forall l :: 0 <= l < |s.leases| ==> HeldBy(l, s.leases[l], s.threads)
  }

  /** One thread moves and at most one lease changes; if the thread held a lease, it is that one. */
  lemma {:induction false} LocksFollow(s: Controller, s': Controller, i: nat, to: Thread, ch: Change)
    requires LocksHeld(s) && i < |s.threads| && ch.Fits(s.leases)
    requires s'.threads == s.threads[i := to] && s'.leases == ch.Apply(s.leases)
    requires s.threads[i].FinishActivate? || s.threads[i].FinishDrain? ==> ch.Put? && ch.at == s.threads[i].lease
    requires ch.Put? ==> HeldBy(ch.at, ch.lease, s'.threads)
    requires ch.Add? ==> ch.lease.mid == Free
    ensures LocksHeld(s')
  {
    forall l | 0 <= l < |s'.leases|
      ensures HeldBy(l, s'.leases[l], s'.threads)
    {
      assert l < |s.leases| ==> HeldBy(l, s.leases[l], s.threads);
    }
  }

  lemma {:induction false} CallLocks(s: Controller, s': Controller, i: nat)
    requires LocksHeld(s) && CallStep(s, s', i)
    ensures LocksHeld(s')
  {
    if AcquireActivity(s, s') {
      assert forall l :: 0 <= l < |s.leases| ==>
          HeldBy(l, s.leases[l], s.threads) && HeldBy(l, s'.leases[l], s'.threads);
    } else if l: nat :| StartActivate(s, s', i, l) || StartDrain(s, s', i, l) || StartRelease(s, s', i, l) {
      LocksFollow(s, s', i, s'.threads[i], Put(l, s'.leases[l]));
    } else {
      LocksFollow(s, s', i, s'.threads[i], Same);
    }
  }

  lemma {:induction false} ThreadLocks(s: Controller, s': Controller, i: nat)
    requires LocksHeld(s) && ThreadStep(s, s', i)
    ensures LocksHeld(s')
  {
    if s.threads[i].FinishActivate? || s.threads[i].FinishDrain? {
      LocksFollow(s, s', i, Idle, Put(s.threads[i].lease, s'.leases[s.threads[i].lease]));
    } else if |s'.leases| > |s.leases| {
      LocksFollow(s, s', i, Idle, Add(s'.leases[|s.leases|]));
    } else {
      LocksFollow(s, s', i, s'.threads[i], Same);
    }
  }

  lemma {:induction false} LocksStay(s: Controller, s': Controller)
    requires LocksHeld(s) && Next(s, s')
    ensures LocksHeld(s')
  {
    if Arrive(s, s') {
      forall l | 0 <= l < |s'.leases|
        ensures HeldBy(l, s'.leases[l], s'.threads)
      {
        assert HeldBy(l, s.leases[l], s.threads);
      }
    } else if i: nat :| CallStep(s, s', i) {
      CallLocks(s, s', i);
    } else {
      var i: nat :| ThreadStep(s, s', i);
      ThreadLocks(s, s', i);
    }
  }

  // --------------------------------------------------------- a round of a lease

  /** A controller with one listener and one thread, and nothing else yet. */
  function Fresh(limits: Limits, capacity: nat): Controller {
    Controller(limits, Counters(0, 0, 0, 0, 0, map[]), [Listener(capacity, 0)], [], [], [Idle])
  }

  lemma {:induction false} FreshIsReachable(limits: Limits, capacity: nat)
    ensures Reachable(Init, Next, Fresh(limits, capacity))
  {
    var s0 := Controller(limits, Counters(0, 0, 0, 0, 0, map[]), [], [], [], []);
    var s1 := s0.(listeners := [Listener(capacity, 0)]);
    ReachableInit(Init, Next, s0);
    assert s1.listeners == s0.listeners + [Listener(capacity, 0)];
    assert Arrive(s0, s1);
    ReachableStep(Init, Next, s0, s1);
    assert Arrive(s1, Fresh(limits, capacity));
    ReachableStep(Init, Next, s1, Fresh(limits, capacity));
  }

  lemma {:induction false} ByThread(s: Controller, s': Controller)
    requires Reachable(Init, Next, s) && ThreadStep(s, s', 0)
    ensures Reachable(Init, Next, s')
  {
    assert Next(s, s');
    ReachableStep(Init, Next, s, s');
  }

  lemma {:induction false} ByCall(s: Controller, s': Controller)
    requires Reachable(Init, Next, s) && CallStep(s, s', 0)
    ensures Reachable(Init, Next, s')
  {
    assert Next(s, s');
    ReachableStep(Init, Next, s, s');
  }

  /** The same controller with one lease in the given state, counted everywhere. */
  function WithLease(limits: Limits, capacity: nat, peer: nat, state: LeaseState): Controller {
    Controller(limits, Counters(if state == Opening then 1 else 0, if state == Active then 1 else 0,
                                if state == Draining then 1 else 0, 0, 0, map[peer := 1]),
               [Listener(capacity, 1)], [Lease(Some(peer), Some(0), state, Free, 0)], [], [Idle])
  }

  /** Whatever the limits, a first connection is admitted. */
  lemma {:induction false} FirstIsAdmitted(limits: Limits, capacity: nat, peer: nat)
    ensures Reachable(Init, Next, WithLease(limits, capacity, peer, Opening))
  {
    var s0 := Fresh(limits, capacity);
    FreshIsReachable(limits, capacity);
    var s1 := s0.Go(0, Acquiring(Some(peer), Some(0)));
    assert StartAcquire(s0, s1, 0, Some(peer), Some(0));
    ByCall(s0, s1);
    var s2 := s1.Go(0, Swapping(Some(peer), 0, 0));
    ByThread(s1, s2);
    var s3 := s2.(listeners := [Listener(capacity, 1)]).Go(0, Admitting(Some(peer), Some(0)));
    ByThread(s2, s3);
    ByThread(s3, WithLease(limits, capacity, peer, Opening));
  }

  lemma {:induction false} ThenActivated(limits: Limits, capacity: nat, peer: nat)
    ensures Reachable(Init, Next, WithLease(limits, capacity, peer, Active))
  {
    var s0 := WithLease(limits, capacity, peer, Opening);
    FirstIsAdmitted(limits, capacity, peer);
    var s1 := s0.(counters := CountActivate(s0.counters), leases := [s0.leases[0].(mid := Activating(0))])
                .Go(0, FinishActivate(0));
    assert StartActivate(s0, s1, 0, 0);
    ByCall(s0, s1);
    ByThread(s1, WithLease(limits, capacity, peer, Active));
  }

  lemma {:induction false} ThenDrained(limits: Limits, capacity: nat, peer: nat)
    ensures Reachable(Init, Next, WithLease(limits, capacity, peer, Draining))
  {
    var s0 := WithLease(limits, capacity, peer, Active);
    ThenActivated(limits, capacity, peer);
    var s1 := s0.(counters := CountDrain(s0.counters), leases := [s0.leases[0].(mid := StartingDrain(0))])
                .Go(0, FinishDrain(0));
    assert StartDrain(s0, s1, 0, 0);
    ByCall(s0, s1);
    ByThread(s1, WithLease(limits, capacity, peer, Draining));
  }

  /** And it can go through all its states and be released, leaving nothing behind but its record. */
  lemma {:induction false} RoundOfALease(limits: Limits, capacity: nat, peer: nat)
    ensures Reachable(Init, Next, Fresh(limits, capacity).(leases := [Lease(Some(peer), Some(0), Released, Free, 1)]))
  {
    var s0 := WithLease(limits, capacity, peer, Draining);
    ThenDrained(limits, capacity, peer);
    var s1 := s0.(leases := [Lease(Some(peer), Some(0), Released, Free, 1)])
                .Go(0, Settling(Some(peer), Some(0), Draining));
    assert StartRelease(s0, s1, 0, 0);
    ByCall(s0, s1);
    var s2 := s1.(counters := Counters(0, 0, 0, 0, 0, map[])).Go(0, GivingBack(0));
    assert map[peer := 1] - {peer} == map[];
    ByThread(s1, s2);
    var s3 := s2.Go(0, SwappingBack(0, 1));
    ByThread(s2, s3);
    ByThread(s3, Fresh(limits, capacity).(leases := s1.leases));
  }
}
