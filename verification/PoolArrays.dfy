/**
 The two arrays of struct wsp_pool, in place: what the critical sections of module AddProtocol do to them.
 */
module PoolArrays {
  import opened AddProtocol

  class PoolArrays {
    const clients: array<nat>
    const pending: array<nat>
    var nClients: nat
    var nPending: nat

    ghost predicate Valid()
      reads this
    {
      && clients.Length == pending.Length == MAX_CLIENTS && clients != pending
      && nClients <= MAX_CLIENTS && nPending <= MAX_CLIENTS
    }

    ghost function Clients(): seq<nat>
      reads this, clients
      requires Valid()
    {
      clients[..nClients]
    }

    ghost function Pending(): seq<nat>
      reads this, pending
      requires Valid()
    {
      pending[..nPending]
    }

    constructor ()
      ensures Valid() && Clients() == [] && Pending() == [] && fresh(clients) && fresh(pending)
    {
      clients := new nat[MAX_CLIENTS];
      pending := new nat[MAX_CLIENTS];
      nClients, nPending := 0, 0;
    }

    /** The critical section of wsp_pool_add. */
    method Add(c: nat) returns (ok: bool)
      requires Valid()
      modifies this, clients, pending
      ensures Valid()
      ensures ok <==> |old(Clients())| + |old(Pending())| < MAX_CLIENTS
      ensures Clients() == if ok then old(Clients()) + [c] else old(Clients())
      ensures Pending() == if ok then old(Pending()) + [c] else old(Pending())
    {
      if nClients + nPending >= MAX_CLIENTS {
        return false;
      }
      clients[nClients] := c;
      nClients := nClients + 1;
      pending[nPending] := c;
      nPending := nPending + 1;
      return true;
    }

    /** The first critical section of WAIT_CANCELLED: the copy that the service thread goes through afterwards. */
    method TakePending() returns (pend: array<nat>, np: nat)
      requires Valid()
      modifies this`nPending
      ensures Valid() && fresh(pend) && np <= pend.Length == MAX_CLIENTS
      ensures pend[..np] == old(Pending()) && Pending() == [] && Clients() == old(Clients())
    {
      np := nPending;
      pend := new nat[MAX_CLIENTS];
      forall i | 0 <= i < np {
        pend[i] := pending[i];
      }
      nPending := 0;
    }
  }
}
