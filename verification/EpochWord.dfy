/** The packed status word of `yaay-mt-runtime/src/epoch.rs`: an active count in the low 9 bits and an epoch counter in
    the high 23 bits of one `u32`, changed by wrapping atomic additions and subtractions. */
module EpochWord {

  const EPOCH: nat := 0x200
  const EPOCHS: nat := 0x80_0000
  const WORDS: nat := 0x1_0000_0000

  /** `MAX_DURATION`, in microseconds. */
  const MAX_DURATION: nat := 1_000

  /** `active_count`: the low 9 bits. */
  function ActiveCount(status: nat): nat
  {
    status % 0x200
  }

  /** `epoch`: the high 23 bits. */
  function EpochNumber(status: nat): nat
  {
    status / 0x200
  }

  /** The mask and the shift of the source are the remainder and the quotient above. */
  lemma MaskAndShift(word: bv32)
    ensures word & !((!0 >> 9) << 9) == word % 512
    ensures word >> 9 == word / 512
  {
  }

  /** `fetch_add` and `fetch_sub` on an `AtomicU32` wrap around. */
  function FetchAdd(word: nat, k: nat): nat
  {
    (word + k) % 0x1_0000_0000
  }

  function FetchSub(word: nat, k: nat): nat
    requires k <= WORDS
  {
    (word + (0x1_0000_0000 - k)) % 0x1_0000_0000
  }

  /** The word that stands for `active` counted workers after `bumps` epoch bumps since start-up. */
  function Pack(active: nat, bumps: nat): nat
  {
    active + 0x200 * (bumps % 0x80_0000)
  }

  lemma PackReads(active: nat, bumps: nat)
    requires active < EPOCH
    ensures Pack(active, bumps) < WORDS
    ensures ActiveCount(Pack(active, bumps)) == active
    ensures EpochNumber(Pack(active, bumps)) == bumps % EPOCHS
  {
  }

  /** Adding one activates one worker: it never carries into the epoch, and `status + 1` does not overflow. */
  lemma PackIncrement(active: nat, bumps: nat)
    requires active + 1 < EPOCH
    ensures Pack(active, bumps) + 1 < WORDS
    ensures FetchAdd(Pack(active, bumps), 1) == Pack(active, bumps) + 1 == Pack(active + 1, bumps)
  {
  }

  /** Subtracting one deactivates one worker: it never borrows, and `fetch_sub(1) - 1` does not underflow. */
  lemma PackDecrement(active: nat, bumps: nat)
    requires 0 < active < EPOCH
    ensures 0 < Pack(active, bumps)
    ensures FetchSub(Pack(active, bumps), 1) == Pack(active, bumps) - 1 == Pack(active - 1, bumps)
  {
  }

  /** Adding `EPOCH` is one bump: the count is untouched, and the epoch wraps alone. */
  lemma PackBump(active: nat, bumps: nat)
    requires active < EPOCH
    ensures FetchAdd(Pack(active, bumps), EPOCH) == Pack(active, bumps + 1)
  {
    var e := bumps % EPOCHS;
    if e + 1 == EPOCHS {
      assert (bumps + 1) % EPOCHS == 0;
    } else {
      assert (bumps + 1) % EPOCHS == e + 1;
    }
  }

  /** Equal words separated by fewer than `EPOCHS` bumps are separated by none. */
  lemma EqualWordsWithinWindow(active: nat, bumps: nat, active': nat, bumps': nat)
    requires active < EPOCH && active' < EPOCH
    requires bumps <= bumps' < bumps + EPOCHS
    requires Pack(active, bumps) == Pack(active', bumps')
    ensures active == active' && bumps == bumps'
  {
    PackReads(active, bumps);
    PackReads(active', bumps');
    var k := bumps' - bumps;
    assert bumps' % EPOCHS == (bumps % EPOCHS + k) % EPOCHS;
  }

  /** The shared `Epoch`, with the parking lot of its address as the set of parked threads. */
  class Epoch {
    var word: nat
    var parked: set<nat>
    ghost var active: nat
    ghost var bumps: nat

    ghost predicate Valid()
      reads this
    {
      active < EPOCH && word == Pack(active, bumps)
    }

    /** `new`: `n_threads` active threads, no bump. */
    constructor (n_threads: nat)
      requires n_threads < EPOCH
      ensures Valid() && active == n_threads && bumps == 0 && parked == {}
    {
      word, parked, active, bumps := n_threads, {}, n_threads, 0;
    }

    /** `set_active`. */
    method SetActive() returns (status: nat)
      requires Valid() && active + 1 < EPOCH
      modifies this
      ensures Valid() && active == old(active) + 1 && bumps == old(bumps)
      ensures status == word
      ensures parked == if old(active) == 0 then {} else old(parked)
    {
      PackReads(active, bumps);
      PackIncrement(active, bumps);
      var before := word;
      word, active := FetchAdd(word, 1), active + 1;
      if ActiveCount(before) == 0 {
        WakeAllSlow();
      }
      status := before + 1;
    }

    /** `set_inactive`. */
    method SetInactive() returns (status: nat)
      requires Valid() && active > 0
      modifies this
      ensures Valid() && active == old(active) - 1 && bumps == old(bumps)
      ensures status == word && parked == old(parked)
    {
      PackDecrement(active, bumps);
      var before := word;
      word, active := FetchSub(word, 1), active - 1;
      status := before - 1;
    }

    /** `next_epoch`. */
    method NextEpoch()
      requires Valid()
      modifies this
      ensures Valid() && active == old(active) && bumps == old(bumps) + 1
      ensures parked == if active == 0 then {} else old(parked)
    {
      PackReads(active, bumps);
      PackBump(active, bumps);
      var before := word;
      word, bumps := FetchAdd(word, EPOCH), bumps + 1;
      if ActiveCount(before) == 0 {
        WakeAllSlow();
      }
    }

    /** `wait_next_epoch` with `wait_slow`: `thread` enters the parking lot exactly when the status it passes still is
        the current one, was read at most `MAX_DURATION` ago, and the weak compare-exchange does not fail for no
        reason. */
    method WaitNextEpoch(thread: nat, oldStatus: nat, elapsed: nat, spurious: bool)
      requires Valid()
      modifies this`parked
      ensures Valid()
      ensures parked ==
              if word == oldStatus && !spurious && elapsed <= MAX_DURATION then old(parked) + {thread} else old(parked)
    {
      if word == oldStatus {
        var valid := word == oldStatus && !spurious;
        if valid && elapsed > MAX_DURATION {
          valid := false;
        }
        if valid {
          parked := parked + {thread};
        }
      }
    }

    /** `wake_all_slow`. */
    method WakeAllSlow()
      modifies this`parked
      ensures parked == {}
    {
      parked := {};
    }
  }
}
