/** The gate every library-touching client passes. A `Some` reason means closed;
    a ticket proves the gate was open when its holder entered. */
module LibraryGates {
  import opened Wrappers

  const MOVE_BUSY := "The library is being moved. Wait until the move finishes, then try again."
  const UNREACHABLE_BUSY := "The library folder cannot be reached. Relocate the library or close GRID."

  /** The value behind the gate's mutex. */
  datatype GateState = GateState(reason: Option<string>, tickets: nat) {
    predicate Closed() {
      reason.Some?
    }

    function Close(why: string): GateState {
      if Closed() then this else this.(reason := Some(why))
    }

    function Open(): GateState {
      this.(reason := None)
    }

    function Enter(): GateState {
      if Closed() then this else this.(tickets := tickets + 1)
    }

    function Leave(): GateState {
      this.(tickets := if tickets == 0 then 0 else tickets - 1)
    }
  }

  /** The shared gate object. Each method is one critical section of its mutex. */
  class LibraryGate {
    var reason: Option<string>
    var tickets: nat

    ghost function State(): GateState
      reads this
    {
      GateState(reason, tickets)
    }

    constructor ()
      ensures State() == GateState(None, 0)
    {
      reason, tickets := None, 0;
    }

    method Close(why: string) returns (wasOpen: bool)
      modifies this
      ensures State() == old(State()).Close(why)
      ensures wasOpen == !old(State().Closed())
    {
      if reason.Some? {
        return false;
      }
      reason := Some(why);
      return true;
    }

    method Open()
      modifies this
      ensures State() == old(State()).Open()
    {
      reason := None;
    }

    method Enter() returns (admitted: bool)
      modifies this
      ensures State() == old(State()).Enter()
      ensures admitted == !old(State().Closed())
    {
      if reason.Some? {
        return false;
      }
      tickets := tickets + 1;
      return true;
    }

    method DropTicket()
      modifies this
      ensures State() == old(State()).Leave()
    {
      tickets := if tickets == 0 then 0 else tickets - 1;
    }
  }

  /** Closing keeps a first reason and revokes no ticket; a ticket dropped is gone and
      opens nothing. */
  lemma CloseKeepsFirstReasonAndTickets(g: GateState, first: string, second: string)
    requires !g.Closed()
    ensures g.Close(first).Close(second).reason == Some(first)
    ensures g.Enter().Close(first).tickets == g.tickets + 1
    ensures g.Close(first).Enter() == g.Close(first)
    ensures g.Close(first).Open() == g
    ensures g.Enter().Leave() == g && !g.Enter().Closed()
    ensures g.Enter().Close(first).Leave() == g.Close(first) != g
  {
  }
}
