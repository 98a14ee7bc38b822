/** The in-process lease store. */
module Leases {

  class MemoryLeaseStore {
    var leases: set<string>

    constructor ()
      ensures leases == {}
    {
      leases := {};
    }

    /** At most one holder: the lease is given exactly when nobody has it. */
    method Acquire(id: string) returns (acquired: bool)
      modifies this
      ensures acquired == (id !in old(leases))
      ensures leases == old(leases) + {id}
    {
      if id in leases {
        assert leases == leases + {id};
        return false;
      }
      leases := leases + {id};
      return true;
    }

    method Release(id: string)
      modifies this
      ensures leases == old(leases) - {id}
    {
      leases := leases - {id};
    }

    method IsHeld(id: string) returns (held: bool)
      ensures held == (id in leases)
    {
      held := id in leases;
    }
  }
}
