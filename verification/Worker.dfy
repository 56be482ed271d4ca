/** The queue operations of one worker (`defer`, `spawn` and `try_steal` in `yaay-mt-runtime/src/worker.rs`), each
    inside its lock section, with the indices they draw from the seed. */
module Worker {
  import L = TaskList
  import E = EpochWord
  import P = Parking
  import R = Rng

  class Worker {
    const id: nat
    const n: nat
    const queue: L.TaskList
    var seed: R.Word
    var others: seq<Worker>

    constructor (id: nat, n: nat, seed: R.Word)
      ensures this.id == id && this.n == n && this.seed == seed && others == []
      ensures fresh(queue) && queue.Valid() && queue.elems == []
    {
      this.id, this.n, this.seed, this.others := id, n, seed, [];
      queue := new L.TaskList();
    }

    /** What `Startup` establishes: `other_workers` are all workers but this one, in order. */
    ghost predicate Linked()
      reads this
    {
      && id < n && |others| == n - 1
      && forall k :: 0 <= k < n - 1 ==> others[k].id == P.Other(id, k) && others[k].n == n
    }

    /** `defer`: to the front of the own queue. */
    method Defer(task: L.Task)
      requires queue.Valid() && task !in queue.elems && !task.freed
      modifies queue, task`next
      ensures queue.Valid() && queue.elems == [task] + old(queue.elems)
    {
      queue.PushFront(task);
    }

    /** The worker that the next `spawn` pushes to. The index drawn is in range: the last one stands for the own
        queue. */
    ghost function SpawnTarget(): (w: Worker)
      requires Linked()
      reads this
      ensures w.id == if R.Target(seed, n) == n - 1 then id else P.Other(id, R.Target(seed, n))
    {
      var k := R.Target(seed, n);
      if k + 1 != n then others[k] else this
    }

    /** `spawn`: to the back of the drawn worker's queue; another worker's queue gets a `next_epoch`, the own does
        not. */
    method Spawn(task: L.Task, epoch: E.Epoch)
      requires Linked() && epoch.Valid()
      requires var q := SpawnTarget().queue; q.Valid() && L.Live(q.elems) && task !in q.elems
      modifies `seed, SpawnTarget().queue, SpawnTarget().queue.elems`next, epoch
      ensures old(SpawnTarget()).queue.Valid()
      ensures old(SpawnTarget()).queue.elems == old(SpawnTarget().queue.elems) + [task]
      ensures seed == R.NextSeed(old(seed))
      ensures epoch.Valid() && epoch.active == old(epoch.active)
      ensures epoch.bumps == old(epoch.bumps) + if old(SpawnTarget()) == this then 0 else 1
    {
      var k := R.Target(seed, n);
      ghost var target := SpawnTarget();
      seed := R.NextSeed(seed);
      if k + 1 != n {
        others[k].queue.PushBack(task);
        epoch.NextEpoch();
        assert P.Other(id, k) != id;
      } else {
        queue.PushBack(task);
      }
    }

    /** The worker that the next `try_steal` looks at. */
    ghost function Victim(): (w: Worker)
      requires Linked() && n >= 2
      reads this
      ensures w.id == P.Other(id, R.Target(seed, n - 1)) && w.id != id && w.id < n
    {
      others[R.Target(seed, n - 1)]
    }

    /** `try_steal`: the front task of the victim's queue now belongs to this worker; when there is none, only the seed
        moves on. `ParkingTheorems.StealingNeedsTwoWorkers` proves that a stealing worker has `n >= 2`. */
    method TrySteal() returns (task: L.Task?)
      requires Linked() && n >= 2 && Victim().queue.Valid() && L.Live(Victim().queue.elems)
      modifies `seed, Victim().queue, Victim().queue.elems`workerId
      ensures old(Victim()).queue.Valid()
      ensures old(Victim().queue.elems) == [] ==>
                task == null && old(Victim()).queue.elems == [] && seed == R.NextSeed(old(seed))
      ensures old(Victim().queue.elems) != [] ==>
                && task == old(Victim().queue.elems)[0] && task.workerId == id
                && old(Victim()).queue.elems == old(Victim().queue.elems)[1..] && seed == old(seed)
    {
      var victim := others[R.Target(seed, n - 1)];
      var empty := victim.queue.IsEmpty();
      if empty {
        task := null;
      } else {
        task := victim.queue.PopFront();
      }
      if task != null {
        task.workerId := id;
      } else {
        seed := R.NextSeed(seed);
      }
    }
  }

  /** The victim a thief looks at after `misses` unsuccessful attempts. */
  function VictimAfter(seed: R.Word, id: nat, n: nat, misses: nat): nat
    requires n >= 2
  {
    P.Other(id, R.Target(R.After(seed, misses), n - 1))
  }

  /** However often a thief misses, it looks at no more than the first eight victims it draws. */
  lemma ThiefTriesAtMostEight(seed: R.Word, id: nat, n: nat, misses: nat)
    requires n >= 2
    ensures exists i: nat :: i < 8 && VictimAfter(seed, id, n, misses) == VictimAfter(seed, id, n, i)
  {
    R.TargetsAreAtMostEight(seed, n - 1, misses);
    var i: nat :| i < 8 && R.Target(R.After(seed, misses), n - 1) == R.Target(R.After(seed, i), n - 1);
    assert i < 8 && VictimAfter(seed, id, n, misses) == VictimAfter(seed, id, n, i);
  }

  /** Whatever the seed, a missing thief keeps its first victim. */
  ghost predicate KeepsItsVictim(id: nat, n: nat)
    requires n >= 2
  {
    forall seed: R.Word, misses: nat :: VictimAfter(seed, id, n, misses) == VictimAfter(seed, id, n, 0)
  }

  /** With 2, 3, 5, 9, 17 or 33 workers, and with no other number, a thief looks at one victim forever. */
  lemma ThiefNeverChangesVictimIff(id: nat, n: nat)
    requires n >= 2
    ensures KeepsItsVictim(id, n) <==> 32 % (n - 1) == 0
  {
    R.TargetIsConstantIff(n - 1);
    forall seed: R.Word, misses: nat
      ensures R.After(seed, 0) == seed
      ensures VictimAfter(seed, id, n, misses) == VictimAfter(seed, id, n, 0) <==>
              R.Target(R.After(seed, misses), n - 1) == R.Target(seed, n - 1)
    {
      assert R.After(seed, 0) == seed;
    }
    if KeepsItsVictim(id, n) {
      forall seed: R.Word, misses: nat
        ensures R.Target(R.After(seed, misses), n - 1) == R.Target(seed, n - 1)
      {
        assert VictimAfter(seed, id, n, misses) == VictimAfter(seed, id, n, 0);
      }
    }
  }
}
