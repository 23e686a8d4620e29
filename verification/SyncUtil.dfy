/** Handing a call to another thread and waiting, for a limited time, for its result. */
module SyncUtil {

  /** The shared record of which calls are still waited for. */
  datatype TicketState = TicketState(nextTicket: nat, outstanding: set<nat>)

  function NextTicket(t: TicketState): (TicketState, nat) {
    (TicketState(t.nextTicket + 1, t.outstanding + {t.nextTicket + 1}), t.nextTicket + 1)
  }

  function Cleared(t: TicketState, ticket: nat): TicketState {
    t.(outstanding := t.outstanding - {ticket})
  }

  class Tickets {
    var nextTicket: nat
    var tickets: set<nat>

    ghost function View(): TicketState
      reads this
    {
      TicketState(nextTicket, tickets)
    }

    constructor ()
      ensures View() == TicketState(0, {})
    {
      nextTicket, tickets := 0, {};
    }

    method LockedGetNextTicket() returns (ticket: nat)
      modifies this
      ensures (View(), ticket) == NextTicket(old(View()))
    {
      nextTicket := nextTicket + 1;
      ticket := nextTicket;
      tickets := tickets + {ticket};
    }

    method LockedFindTicket(ticket: nat) returns (found: bool)
      ensures found <==> ticket in View().outstanding
    {
      found := ticket in tickets;
    }

    method LockedClearTicket(ticket: nat)
      modifies this
      ensures View() == Cleared(old(View()), ticket)
    {
      tickets := tickets - {ticket};
    }
  }

}
