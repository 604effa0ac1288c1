/**
 The send gate: sends enter and leave, a close request shuts the gate, and `drained` is closed
 when the last send inside a shut gate leaves.
 */
module Gate {

  /** `drains` counts how often the `drained` channel was closed; closing it twice would panic. */
  datatype GateState = GateState(closed: bool, active: int, drains: nat) {
    predicate Drained() { drains > 0 }
  }

  const OPEN := GateState(false, 0, 0)

  function Enter(g: GateState): GateState {
    if g.closed then g else g.(active := g.active + 1)
  }

  function Leave(g: GateState): GateState {
    var left := g.(active := g.active - 1);
    if left.closed && left.active == 0 then left.(drains := left.drains + 1) else left
  }

  function Shut(g: GateState): GateState {
    if g.closed then g
    else if g.active == 0 then g.(closed := true, drains := g.drains + 1)
    else g.(closed := true)
  }

  /** `inside` sends are inside, and `drained` is closed exactly when the gate is shut and empty. */
  ghost predicate Tracks(g: GateState, inside: int) {
    g.active == inside >= 0 && g.drains == if g.closed && inside == 0 then 1 else 0
  }

  lemma GateSteps(g: GateState, inside: int)
    requires Tracks(g, inside)
    ensures !g.closed ==> Tracks(Enter(g), inside + 1)
    ensures inside > 0 ==> Tracks(Leave(g), inside - 1)
    ensures Tracks(Shut(g), inside)
  {
  }

  class SendGate {
    var closed: bool
    var active: int
    var drains: nat

    ghost function State(): GateState
      reads this
    {
      GateState(closed, active, drains)
    }

    constructor ()
      ensures State() == OPEN
    {
      closed, active, drains := false, 0, 0;
    }

    method EnterGate() returns (ok: bool)
      modifies this
      ensures ok == !old(closed) && closed == old(closed) && drains == old(drains)
      ensures active == old(active) + if ok then 1 else 0
      ensures State() == Enter(old(State()))
    {
      if closed {
        return false;
      }
      active := active + 1;
      return true;
    }

    method LeaveGate()
      modifies this
      ensures active == old(active) - 1 && closed == old(closed)
      ensures drains == old(drains) + if closed && active == 0 then 1 else 0
      ensures State() == Leave(old(State()))
    {
      active := active - 1;
      if closed && active == 0 {
        drains := drains + 1;
      }
    }

    method ShutGate()
      modifies this
      ensures closed && active == old(active)
      ensures drains == old(drains) + if !old(closed) && active == 0 then 1 else 0
      ensures State() == Shut(old(State()))
    {
      if !closed {
        closed := true;
        if active == 0 {
          drains := drains + 1;
        }
      }
    }
  }
}
