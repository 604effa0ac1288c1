/**
 The HTTP connection tracker: which admission lease belongs to which connection.

 Two maps, connection to holder and holder to connection, must stay each other's inverse while
 connections are rebound and holders give up their lease. A holder's state changes under its own
 mutex and the maps under the tracker's, so a rebind may come in between.
 */
module Tracker {
  import opened Counting
  import opened Runs

  datatype HolderState = Held | Transferred | Released

  /** `given` counts how often the holder's lease was handed out, by a take or by a release. */
  datatype Holder = Holder(state: HolderState, given: nat)

  /** Connections and holders are named by numbers; holders are numbered in order of registration. */
  datatype Maps = Maps(leases: map<nat, nat>, byLease: map<nat, nat>)

  ghost predicate Inverse(m: Maps) {
    && (forall c :: c in m.leases ==> m.leases[c] in m.byLease && m.byLease[m.leases[c]] == c)
    && (forall h :: h in m.byLease ==> m.byLease[h] in m.leases && m.leases[m.byLease[h]] == h)
  }

  function Registered(m: Maps, conn: nat, h: nat): Maps {
    Maps(m.leases[conn := h], m.byLease[h := conn])
  }

  function Rebound(m: Maps, oldConn: nat, newConn: nat): Maps {
    if oldConn !in m.leases then m
    else
      var h := m.leases[oldConn];
      Maps((m.leases - {oldConn})[newConn := h], m.byLease[h := newConn])
  }

  function Detached(m: Maps, h: nat): Maps {
    if h in m.byLease then Maps(m.leases - {m.byLease[h]}, m.byLease - {h}) else m
  }

  /** Registering keeps the maps inverse exactly when the connection is not tracked yet. */
  lemma RegisterKeepsInverseIff(m: Maps, conn: nat, h: nat)
    requires Inverse(m) && h !in m.byLease
    ensures Inverse(Registered(m, conn, h)) <==> conn !in m.leases
  {
    var m' := Registered(m, conn, h);
    if conn in m.leases {
      var g := m.leases[conn];
      assert g in m'.byLease && m'.leases[m'.byLease[g]] == h;
    }
  }

  /** Rebinding keeps them inverse exactly when the new connection is not somebody else's. */
  lemma RebindKeepsInverseIff(m: Maps, oldConn: nat, newConn: nat)
    requires Inverse(m) && oldConn in m.leases
    ensures Inverse(Rebound(m, oldConn, newConn)) <==> newConn == oldConn || newConn !in m.leases
  {
    var m' := Rebound(m, oldConn, newConn);
    var h := m.leases[oldConn];
    if newConn != oldConn && newConn in m.leases {
      var g := m.leases[newConn];
      assert g != h by {
        assert m.byLease[g] == newConn && m.byLease[h] == oldConn;
      }
      assert g in m'.byLease && m'.leases[m'.byLease[g]] == h;
    } else {
      forall c | c in m'.leases
        ensures m'.leases[c] in m'.byLease && m'.byLease[m'.leases[c]] == c
      {
        if c != newConn {
          assert c in m.leases && m.byLease[m.leases[c]] == c;
        }
      }
    }
  }

  /** What a rebind moves: the holder is found under the new connection and no longer under the old one. */
  lemma RebindMoves(m: Maps, oldConn: nat, newConn: nat, h: nat)
    requires oldConn in m.leases && m.leases[oldConn] == h
    ensures var m' := Rebound(m, oldConn, newConn);
            && newConn in m'.leases && m'.leases[newConn] == h && h in m'.byLease && m'.byLease[h] == newConn
            && (oldConn in m'.leases <==> oldConn == newConn)
            && (forall c :: c != oldConn && c != newConn ==>
                  (c in m'.leases <==> c in m.leases) && (c in m.leases ==> m'.leases[c] == m.leases[c]))
            && (forall g :: g != h ==>
                  (g in m'.byLease <==> g in m.byLease) && (g in m.byLease ==> m'.byLease[g] == m.byLease[g]))
  {
  }

  /** Detaching always keeps them inverse, and leaves the holder in neither. */
  lemma DetachKeepsInverse(m: Maps, h: nat)
    requires Inverse(m)
    ensures Inverse(Detached(m, h)) && h !in Detached(m, h).byLease
    ensures forall c :: c in Detached(m, h).leases ==> Detached(m, h).leases[c] != h
  {
    var m' := Detached(m, h);
    forall c | c in m'.leases
      ensures m'.leases[c] != h && m'.leases[c] in m'.byLease && m'.byLease[m'.leases[c]] == c
    {
      assert m.byLease[m.leases[c]] == c;
    }
  }

  class HttpConnTracker {
    var leases: map<nat, nat>
    var byLease: map<nat, nat>
    var holders: seq<Holder>

    ghost function State(): Maps
      reads this
    {
      Maps(leases, byLease)
    }

    ghost predicate Valid()
      reads this
    {
      Inverse(State()) && forall h :: h in byLease ==> h < |holders|
    }

    constructor ()
      ensures Valid() && State() == Maps(map[], map[]) && holders == []
    {
      leases, byLease, holders := map[], map[], [];
    }

    method Register(conn: nat) returns (h: nat)
      requires Valid()
      modifies this
      ensures h == old(|holders|) && holders == old(holders) + [Holder(Held, 0)]
      ensures leases == old(leases)[conn := h] && byLease == old(byLease)[h := conn]
      ensures State() == Registered(old(State()), conn, h)
      ensures Valid() <==> conn !in old(leases)
    {
      h := |holders|;
      RegisterKeepsInverseIff(State(), conn, h);
      holders := holders + [Holder(Held, 0)];
      leases := leases[conn := h];
      byLease := byLease[h := conn];
    }

    method Rebind(oldConn: nat, newConn: nat) returns (ok: bool)
      requires Valid()
      modifies this`leases, this`byLease
      ensures ok == (oldConn in old(leases))
      ensures !ok ==> leases == old(leases) && byLease == old(byLease)
      ensures ok ==> newConn in leases && leases[newConn] == old(leases)[oldConn]
      ensures ok ==> leases[newConn] in byLease && byLease[leases[newConn]] == newConn
      ensures ok ==> leases == map c | c in old(leases).Keys + {newConn} && (c == newConn || c != oldConn) ::
                                 if c == newConn then old(leases)[oldConn] else old(leases)[c]
      ensures ok ==> byLease == old(byLease)[old(leases)[oldConn] := newConn]
      ensures State() == Rebound(old(State()), oldConn, newConn)
      ensures Valid() <==> oldConn !in old(leases) || newConn == oldConn || newConn !in old(leases)
    {
      if oldConn !in leases {
        return false;
      }
      RebindKeepsInverseIff(State(), oldConn, newConn);
      var h := leases[oldConn];
      leases := leases - {oldConn};
      leases := leases[newConn := h];
      byLease := byLease[h := newConn];
      ok := true;
    }

    method DetachHolder(h: nat)
      requires Valid()
      modifies this`leases, this`byLease
      ensures Valid() && State() == Detached(old(State()), h)
      ensures byLease == old(byLease) - {h}
      ensures leases == if h in old(byLease) then old(leases) - {old(byLease)[h]} else old(leases)
    {
      DetachKeepsInverse(State(), h);
      if h in byLease {
        var conn := byLease[h];
        byLease := byLease - {h};
        leases := leases - {conn};
      }
    }

    /** Hands the lease out if nobody has yet; `to` says whether as a transfer or as a release. */
    method GiveUp(h: nat, to: HolderState) returns (given: bool)
      requires Valid() && h < |holders| && to != Held
      modifies this
      ensures Valid() && given == (old(holders)[h].state == Held)
      ensures holders == if given then old(holders)[h := Holder(to, old(holders)[h].given + 1)] else old(holders)
      ensures State() == if given then Detached(old(State()), h) else old(State())
    {
      if holders[h].state != Held {
        return false;
      }
      holders := holders[h := Holder(to, holders[h].given + 1)];
      DetachHolder(h);
      given := true;
    }

    /** Releases every tracked holder. */
    method CloseAll()
      requires Valid()
      modifies this
      ensures Valid() && ClosedExcept(old(byLease), old(holders), byLease, holders, {})
    {
      var all := leases.Values;
      TrackedValues(State());
      while all != {}
        invariant Valid() && ClosedExcept(old(byLease), old(holders), byLease, holders, all)
        decreases all
      {
        var h :| h in all;
        ClosedOne(old(byLease), old(holders), State(), holders, all, h);
        var given := GiveUp(h, Released);
        all := all - {h};
      }
    }
  }

  /** What `closeAll` has done when the holders in `todo` remain: the tracked ones that held are released and gone. */
  ghost predicate ClosedExcept(tracked: map<nat, nat>, before: seq<Holder>, byLease: map<nat, nat>,
      holders: seq<Holder>, todo: set<nat>) {
    && |holders| == |before|
    && (forall h :: h in tracked ==> h < |before|)
    && (forall h :: h in todo ==> h in tracked)
    && (forall h :: 0 <= h < |before| ==>
        holders[h] == if h in tracked && h !in todo then Closed(before[h]) else before[h])
    && (forall h :: h in byLease <==> h in tracked && (h in todo || before[h].state != Held))
  }

  function Closed(x: Holder): Holder { if x.state == Held then Holder(Released, x.given + 1) else x }

  lemma TrackedValues(m: Maps)
    requires Inverse(m)
    ensures forall h :: h in m.leases.Values <==> h in m.byLease
  {
    forall h | h in m.byLease
      ensures h in m.leases.Values
    {
      assert m.byLease[h] in m.leases.Keys;
    }
  }

  lemma ClosedOne(tracked: map<nat, nat>, before: seq<Holder>, m: Maps, holders: seq<Holder>, todo: set<nat>, h: nat)
    requires ClosedExcept(tracked, before, m.byLease, holders, todo) && h in todo
    ensures holders[h] == before[h]
    ensures ClosedExcept(tracked, before, (if holders[h].state == Held then Detached(m, h) else m).byLease,
        holders[h := Closed(holders[h])], todo - {h})
  {
  }

  // --------------------------------------------------------- the machine

  /** A call of take or release, past the holder's mutex. */
  datatype Call = Detaching(holder: nat) | Returned(holder: nat)

  datatype System = System(maps: Maps, holders: seq<Holder>, calls: seq<Call>)

  ghost predicate Init(s: System) { s == System(Maps(map[], map[]), [], []) }

  /** Accepted connections are new values, and so are the wrapped ones they are rebound to. */
  ghost predicate RegisterStep(s: System, s': System, conn: nat) {
    conn !in s.maps.leases && s' ==
        s.(maps := Registered(s.maps, conn, |s.holders|), holders := s.holders + [Holder(Held, 0)])
  }

  ghost predicate RebindStep(s: System, s': System, oldConn: nat, newConn: nat) {
    newConn !in s.maps.leases && s' == s.(maps := Rebound(s.maps, oldConn, newConn))
  }

  /** Several threads may try; the first finds the holder holding. */
  ghost predicate GiveUpStep(s: System, s': System, h: nat, to: HolderState) {
    && h < |s.holders| && s.holders[h].state == Held && to != Held
    && s' == s.(holders := s.holders[h := Holder(to, s.holders[h].given + 1)], calls := s.calls + [Detaching(h)])
  }

  ghost predicate DetachStep(s: System, s': System, i: nat) {
    && i < |s.calls| && s.calls[i].Detaching?
    && s' == s.(maps := Detached(s.maps, s.calls[i].holder), calls := s.calls[i := Returned(s.calls[i].holder)])
  }

  ghost predicate Next(s: System, s': System) {
    || (exists conn :: RegisterStep(s, s', conn)) || (exists o, n :: RebindStep(s, s', o, n))
    || (exists h, to :: GiveUpStep(s, s', h, to)) || (exists i :: DetachStep(s, s', i))
  }

  function CallOf(h: nat): Call -> int { (c: Call) => if c.holder == h then 1 else 0 }

  ghost predicate HolderOk(h: nat, x: Holder, calls: seq<Call>) {
    x.given == (if x.state == Held then 0 else 1) && Sum(CallOf(h), calls) == x.given
  }

  ghost predicate Inv(s: System) {
    && Inverse(s.maps)
    && (forall h :: h in s.maps.byLease ==> h < |s.holders|)
    && (forall h :: 0 <= h < |s.holders| ==> HolderOk(h, s.holders[h], s.calls))
    && (forall h :: 0 <= h < |s.holders| && s.holders[h].state == Held ==> h in s.maps.byLease)
    && (forall i :: 0 <= i < |s.calls| ==> CallOk(s.calls[i], s.maps, |s.holders|))
  }

  predicate CallOk(c: Call, m: Maps, holders: nat) {
    c.holder < holders && (c.Returned? ==> c.holder !in m.byLease)
  }

  lemma RegisterKeeps(s: System, s': System, conn: nat)
    requires Inv(s) && RegisterStep(s, s', conn)
    ensures Inv(s')
  {
    var n := |s.holders|;
    RegisterKeepsInverseIff(s.maps, conn, n);
    assert forall i :: 0 <= i < |s.calls| ==> CallOk(s.calls[i], s.maps, n);
    SumZero(CallOf(n), s.calls);
    forall h | 0 <= h < |s'.holders|
      ensures HolderOk(h, s'.holders[h], s'.calls)
    {
      assert h < n ==> HolderOk(h, s.holders[h], s.calls);
    }
  }

  lemma RebindKeeps(s: System, s': System, o: nat, n: nat)
    requires Inv(s) && RebindStep(s, s', o, n)
    ensures Inv(s')
  {
    if o in s.maps.leases {
      RebindKeepsInverseIff(s.maps, o, n);
    }
    forall i | 0 <= i < |s'.calls|
      ensures CallOk(s'.calls[i], s'.maps, |s'.holders|)
    {
      assert CallOk(s.calls[i], s.maps, |s.holders|);
    }
  }

  lemma GiveUpKeeps(s: System, s': System, h: nat, to: HolderState)
    requires Inv(s) && GiveUpStep(s, s', h, to)
    ensures Inv(s')
  {
    forall k | 0 <= k < |s'.holders|
      ensures HolderOk(k, s'.holders[k], s'.calls)
    {
      assert HolderOk(k, s.holders[k], s.calls);
      SumAppend(CallOf(k), s.calls, Detaching(h));
    }
    forall i | 0 <= i < |s'.calls|
      ensures CallOk(s'.calls[i], s'.maps, |s'.holders|)
    {
      assert i < |s.calls| ==> CallOk(s.calls[i], s.maps, |s.holders|);
    }
  }

  lemma DetachKeeps(s: System, s': System, i: nat)
    requires Inv(s) && DetachStep(s, s', i)
    ensures Inv(s')
  {
    var h := s.calls[i].holder;
    DetachKeepsInverse(s.maps, h);
    assert CallOk(s.calls[i], s.maps, |s.holders|);
    forall k | 0 <= k < |s'.holders|
      ensures HolderOk(k, s'.holders[k], s'.calls)
    {
      assert HolderOk(k, s.holders[k], s.calls);
      SumUpdate(CallOf(k), s.calls, i, Returned(h));
    }
    forall j | 0 <= j < |s'.calls|
      ensures CallOk(s'.calls[j], s'.maps, |s'.holders|)
    {
      assert CallOk(s.calls[j], s.maps, |s.holders|);
    }
    assert s.holders[h].state != Held by {
      assert HolderOk(h, s.holders[h], s.calls);
      SumAtLeast(CallOf(h), s.calls, i);
    }
  }

  lemma InvIsInductive()
    ensures Inductive(Init, Next, Inv)
  {
    forall s, s' | Inv(s) && Next(s, s')
      ensures Inv(s')
    {
      if conn: nat :| RegisterStep(s, s', conn) {
        RegisterKeeps(s, s', conn);
      } else if o: nat, n: nat :| RebindStep(s, s', o, n) {
        RebindKeeps(s, s', o, n);
      } else if h: nat, to :| GiveUpStep(s, s', h, to) {
        GiveUpKeeps(s, s', h, to);
      } else {
        var i: nat :| DetachStep(s, s', i);
        DetachKeeps(s, s', i);
      }
    }
  }

  lemma Reached(s: System)
    requires Reachable(Init, Next, s)
    ensures Inv(s)
  {
    InvIsInductive();
    Invariant(Init, Next, Inv, s);
  }

  /** The two maps are each other's inverse in every reachable state, and a holder that still holds is tracked. */
  lemma MapsStayInverse(s: System)
    requires Reachable(Init, Next, s)
    ensures Inverse(s.maps)
    ensures forall h :: 0 <= h < |s.holders| && s.holders[h].state == Held ==> h in s.maps.byLease
  {
    Reached(s);
  }

  /**
   However many threads take or release, the lease is handed out at most once, and exactly when it is no
   longer held.
   */
  lemma HandedOutAtMostOnce(s: System, h: nat)
    requires Reachable(Init, Next, s) && h < |s.holders|
    ensures s.holders[h].given == (if s.holders[h].state == Held then 0 else 1)
    ensures Sum(CallOf(h), s.calls) == s.holders[h].given
  {
    Reached(s);
    assert HolderOk(h, s.holders[h], s.calls);
  }

  /** Once a take or release has returned, its holder is in neither map, even if it was rebound on the way. */
  lemma ReturnedMeansUntracked(s: System, i: nat)
    requires Reachable(Init, Next, s) && i < |s.calls| && s.calls[i].Returned?
    ensures s.calls[i].holder !in s.maps.byLease
    ensures forall c :: c in s.maps.leases ==> s.maps.leases[c] != s.calls[i].holder
  {
    Reached(s);
    assert CallOk(s.calls[i], s.maps, |s.holders|);
  }

  /**
   Nothing but registrations can leave entries: with every call returned, exactly the holders that hold are
   tracked.
   */
  lemma TrackedIffHeld(s: System, h: nat)
    requires Reachable(Init, Next, s) && h < |s.holders|
    requires forall i :: 0 <= i < |s.calls| ==> s.calls[i].Returned?
    ensures h in s.maps.byLease <==> s.holders[h].state == Held
  {
    Reached(s);
    assert HolderOk(h, s.holders[h], s.calls);
    if s.holders[h].state != Held {
      var i := SumWitness(CallOf(h), s.calls);
      assert CallOk(s.calls[i], s.maps, |s.holders|);
    }
  }

  /** A rebind that finds its connection moves the holder, in the machine as in the maps. */
  lemma RebindIsSeen(s: System, s': System, oldConn: nat, newConn: nat)
    requires Reachable(Init, Next, s) && RebindStep(s, s', oldConn, newConn) && oldConn in s.maps.leases
    ensures var h := s.maps.leases[oldConn];
            && newConn in s'.maps.leases && s'.maps.leases[newConn] == h && s'.maps.byLease[h] == newConn
            && oldConn !in s'.maps.leases && s'.holders == s.holders && s'.calls == s.calls
  {
    RebindMoves(s.maps, oldConn, newConn, s.maps.leases[oldConn]);
  }

  /** One connection tracked by holder zero. */
  function Only(conn: nat): Maps { Maps(map[conn := 0], map[0 := conn]) }

  lemma OnlyRebound(s: System, oldConn: nat, newConn: nat)
    requires Reachable(Init, Next, s) && s.maps == Only(oldConn) && oldConn != newConn
    ensures Reachable(Init, Next, s.(maps := Only(newConn)))
  {
    assert Only(newConn) == Rebound(s.maps, oldConn, newConn);
    assert RebindStep(s, s.(maps := Only(newConn)), oldConn, newConn);
    ReachableStep(Init, Next, s, s.(maps := Only(newConn)));
  }

  lemma OnlyRegistered(conn: nat)
    ensures Reachable(Init, Next, System(Only(conn), [Holder(Held, 0)], []))
  {
    var s0 := System(Maps(map[], map[]), [], []);
    ReachableInit(Init, Next, s0);
    assert RegisterStep(s0, System(Only(conn), [Holder(Held, 0)], []), conn);
    ReachableStep(Init, Next, s0, System(Only(conn), [Holder(Held, 0)], []));
  }

  /**
   Every connection can be registered, rebound, and given up while a rebind comes in between, and the call
   then returns with nothing left of it.
   */
  lemma RoundOfAConnection(first: nat, second: nat, third: nat, to: HolderState) returns (s: System)
    requires first != second && second != third && to != Held
    ensures Reachable(Init, Next, s) && s == System(Maps(map[], map[]), [Holder(to, 1)], [Returned(0)])
  {
    var s1 := System(Only(first), [Holder(Held, 0)], []);
    OnlyRegistered(first);
    OnlyRebound(s1, first, second);
    var s2 := s1.(maps := Only(second));
    var s3 := s2.(holders := [Holder(to, 1)], calls := [Detaching(0)]);
    assert GiveUpStep(s2, s3, 0, to);
    ReachableStep(Init, Next, s2, s3);
    OnlyRebound(s3, second, third);
    var s4 := s3.(maps := Only(third));
    s := System(Maps(map[], map[]), [Holder(to, 1)], [Returned(0)]);
    assert s.maps == Detached(s4.maps, 0);
    assert DetachStep(s4, s, 0);
    ReachableStep(Init, Next, s4, s);
  }
}
