/** The gate for asynchronous status replies of src/addon/dbus/status_poll_gate.h. */
module StatusPollGate {
  import opened Wrappers

  datatype Ticket = Ticket(id: nat, generation: nat)

  /** The gate as a value. */
  datatype Gate = Gate(generation: nat, requestId: nat, active: bool) {
    function Begun(): Gate {
      if active then this else this.(requestId := requestId + 1, active := true)
    }

    function Invalidated(): Gate {
      this.(generation := generation + 1)
    }

    predicate IsActive(t: Ticket) {
      active && requestId == t.id
    }

    function Completed(t: Ticket): Gate {
      if IsActive(t) then this.(active := false) else this
    }

    predicate Current(t: Ticket) {
      IsActive(t) && t.generation == generation
    }

    function Cancelled(): Gate {
      Gate(generation + 1, requestId + 1, false)
    }
  }

  class StatusPollGate {
    var generation: nat
    var requestId: nat
    var active: bool

    function View(): Gate
      reads this
    {
      Gate(generation, requestId, active)
    }

    predicate IsActive(t: Ticket)
      reads this
    {
      active && requestId == t.id
    }

    constructor ()
      ensures View() == Gate(0, 0, false)
    {
      generation, requestId, active := 0, 0, false;
    }

    /** Hands out a ticket unless a request is pending: at most one is ever active. */
    method TryBegin() returns (t: Option<Ticket>)
      modifies this
      ensures View() == old(View()).Begun()
      ensures t.Some? <==> !old(active)
      ensures t.Some? ==> View().Current(t.value) && t.value.id == old(requestId) + 1
    {
      if active {
        return None;
      }
      active := true;
      requestId := requestId + 1;
      t := Some(Ticket(requestId, generation));
    }

    method Invalidate()
      modifies this
      ensures View() == old(View()).Invalidated()
      ensures forall t: Ticket :: old(View()).Current(t) ==> !View().Current(t)
    {
      generation := generation + 1;
    }

    /** Ends the request of t, and tells whether its reply is still current; a second reply is never current. */
    method Complete(t: Ticket) returns (current: bool)
      modifies this
      ensures View() == old(View()).Completed(t)
      ensures current == old(View()).Current(t)
      ensures !View().IsActive(t)
    {
      if !IsActive(t) {
        return false;
      }
      active := false;
      current := t.generation == generation;
    }

    method Cancel()
      modifies this
      ensures View() == old(View()).Cancelled()
      ensures forall t: Ticket :: !View().IsActive(t)
    {
      active := false;
      generation := generation + 1;
      requestId := requestId + 1;
    }
  }
}
