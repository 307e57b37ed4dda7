/** What the services cannot control: time and faults. */
module Outside {
  /** The clock, and how many more faults the outside world has in store; those of the order cache are counted apart. */
  class Environment {
    var now: int
    var faultsLeft: nat
    var cacheFaultsLeft: nat

    constructor (faults: nat, cacheFaults: nat)
      ensures now == 0 && faultsLeft == faults && cacheFaultsLeft == cacheFaults
    {
      now, faultsLeft, cacheFaultsLeft := 0, faults, cacheFaults;
    }

    /** Whether the next call fails; a failure uses up one fault. */
    method Fails() returns (fails: bool)
      modifies this`faultsLeft
      ensures faultsLeft == old(faultsLeft) - if fails then 1 else 0
    {
      fails := false;
      if faultsLeft > 0 {
        fails := *;
        if fails {
          faultsLeft := faultsLeft - 1;
        }
      }
    }

    /** Whether the next call of the order cache fails. */
    method CacheFails() returns (fails: bool)
      modifies this`cacheFaultsLeft
      ensures cacheFaultsLeft == old(cacheFaultsLeft) - if fails then 1 else 0
    {
      fails := false;
      if cacheFaultsLeft > 0 {
        fails := *;
        if fails {
          cacheFaultsLeft := cacheFaultsLeft - 1;
        }
      }
    }
  }
}
