/** What holds in every reachable state of the parking protocol, for every number of workers and outside threads. */
module ParkingTheorems {
  import opened EpochWord
  import opened Options
  import opened Parking
  import opened ParkingInvariant

  // ----- the packed word refines a pair of counters -----

  function ActiveAmong(pcs: seq<Pc>, k: nat): set<nat>
    requires k <= |pcs|
  {
    set w: nat | w < k && Active(pcs[w])
  }

  lemma {:induction false} CountIsCardinality(pcs: seq<Pc>, k: nat)
    requires k <= |pcs|
    ensures Count(pcs, k) == |ActiveAmong(pcs, k)|
  {
    if k > 0 {
      CountIsCardinality(pcs, k - 1);
      assert ActiveAmong(pcs, k) == ActiveAmong(pcs, k - 1) + (if Active(pcs[k - 1]) then {k - 1} else {});
    }
  }

  lemma WordRefinesPair(s: State)
    requires Reachable(s)
    ensures Shape(s) && s.word < WORDS
    ensures ActiveCount(s.word) == |set w: nat | w < s.n && Active(s.pcs[w])|
    ensures EpochNumber(s.word) == s.bumps % EPOCHS
  {
    ReachableHasInv(s);
    CountBound(s.pcs, s.n);
    CountIsCardinality(s.pcs, s.n);
    PackReads(Count(s.pcs, s.n), s.bumps);
    assert ActiveAmong(s.pcs, s.n) == set w: nat | w < s.n && Active(s.pcs[w]);
  }

  /** `set_active` never carries into the epoch, `set_inactive` never borrows from it, and neither `status + 1` nor
      `fetch_sub(1) - 1` leaves the `u32` range. */
  lemma WordNeverCarries(s: State, w: nat, a: Action)
    requires Reachable(s) && Enabled(s, w, a) && (a.SetActive? || a.SetInactive?)
    ensures a.SetActive? ==> s.word + 1 < WORDS && Next(s, w, a).word == s.word + 1
    ensures a.SetInactive? ==> 1 <= s.word && Next(s, w, a).word == s.word - 1
    ensures EpochNumber(Next(s, w, a).word) == EpochNumber(s.word)
  {
    ReachableHasInv(s);
    assert PcOk(s.n, s.bumps, w < s.n, s.pcs[w]);
    CountBound(s.pcs, s.n);
    ChangesKeepEpoch(s, w, a, Count(s.pcs, s.n));
  }

  lemma ChangesKeepEpoch(s: State, w: nat, a: Action, count: nat)
    requires Enabled(s, w, a) && s.word == Pack(count, s.bumps) && count <= s.n < EPOCH
    requires (a.SetActive? && count < s.n) || (a.SetInactive? && count > 0)
    ensures a.SetActive? ==> s.word + 1 < WORDS && Next(s, w, a).word == s.word + 1
    ensures a.SetInactive? ==> 1 <= s.word && Next(s, w, a).word == s.word - 1
    ensures EpochNumber(Next(s, w, a).word) == EpochNumber(s.word)
  {
    PackReads(count, s.bumps);
    if a.SetActive? {
      PackIncrement(count, s.bumps);
      PackReads(count + 1, s.bumps);
    } else {
      PackDecrement(count, s.bumps);
      PackReads(count - 1, s.bumps);
    }
  }

  // ----- Lemmas A and B: an outdated sleeper has a wake-up owed to it -----

  /** While a worker is parked on a status that is no longer the current one, some thread is between its `fetch_add` and
      its `unpark_all`; if there are active workers, it is the one whose `set_active` moved the count from 0 to 1. */
  lemma OutdatedSleeperIsOwedAWake(s: State, p: nat)
    requires Reachable(s) && p < s.n <= |s.pcs| && s.pcs[p].Parked?
    ensures s.word != s.pcs[p].snap.status ==> UnparkOwed(s)
    ensures ActiveCount(s.word) != 0 ==> ActivatorOwes(s)
  {
    ReachableHasInv(s);
    assert PcOk(s.n, s.bumps, true, s.pcs[p]);
    CountBound(s.pcs, s.n);
    PackReads(Count(s.pcs, s.n), s.bumps);
    if ActivatorOwes(s) {
      var u :| 0 <= u < |s.pcs| && Activator(s.pcs[u]);
      assert s.pcs[u].Unpark?;
    }
  }

  // ----- Lemma D: no deadlock -----

  /** When no thread owes a `next_epoch` and none owes an `unpark_all`, every parked worker's queue is empty. */
  lemma ParkedQueueIsEmpty(s: State, p: nat)
    requires Reachable(s) && Shape(s) && p < s.n && s.pcs[p].Parked?
    requires !BumpOwed(s) && !UnparkOwed(s)
    ensures s.queues[p] == []
  {
    ReachableHasInv(s);
    assert Committed(s.pcs[p]);
  }

  predicate OutsideQuiet(s: State)
  {
    forall x :: s.n <= x < |s.pcs| ==> s.pcs[x].Running?
  }

  /** When all workers are parked and no outside thread is inside an operation, all queues are empty and nobody counts
      as active. So as long as a job is queued somewhere, some worker is awake. */
  lemma AllParkedMeansAllEmpty(s: State)
    requires Reachable(s) && Shape(s) && OutsideQuiet(s)
    requires forall p :: 0 <= p < s.n ==> s.pcs[p].Parked?
    ensures forall q :: 0 <= q < s.n ==> s.queues[q] == []
    ensures ActiveCount(s.word) == 0
  {
    assert forall u :: 0 <= u < |s.pcs| ==> s.pcs[u].Parked? || s.pcs[u].Running?;
    forall q | 0 <= q < s.n
      ensures s.queues[q] == []
    {
      ParkedQueueIsEmpty(s, q);
    }
    ReachableHasInv(s);
    CountBound(s.pcs, s.n);
    PackReads(0, s.bumps);
  }

  /** The step a thread can take at its program counter. */
  function OwnAction(pc: Pc): Action
    requires !pc.Parked? && !pc.Exited? && !pc.Running?
  {
    match pc
    case Local => PopOwn
    case Announcing(_) => AnnouncePush
    case StoreFlag => SetFlag
    case Scan(_) => LoadFlag
    case Forward(_) => ForwardPush
    case Bump(_) => NextEpoch
    case Unpark(_) => UnparkAll
    case Test => TestFlag
    case TakeInstant => ReadClock
    case Deactivate(_) => SetInactive
    case Steal(_, _) => PeekVictim(0)
    case StealPop(_, _, _) => PopVictim
    case Recheck(_) => PopRecheck
    case Wait(_) => LoadStatus
    case Validate(_) => FailPark
    case Reinstant(_) => RereadClock
    case Restatus(_, _) => RereadStatus
    case Repop(_) => PopRefresh
    case Holding(_) => SetActive
  }

  /** Nothing but parking and leaving stops a worker: at every other program counter it can take its next step. */
  lemma OnlyParkingBlocks(s: State, w: nat)
    requires Reachable(s) && Shape(s) && w < s.n && !s.pcs[w].Parked? && !s.pcs[w].Exited?
    ensures exists a :: Enabled(s, w, a)
  {
    ReachableHasInv(s);
    assert PcOk(s.n, s.bumps, true, s.pcs[w]);
    if s.pcs[w].Running? {
      assert Enabled(s, w, Finish);
    } else {
      assert Enabled(s, w, OwnAction(s.pcs[w]));
    }
  }

  /** A worker that has left still counts as active, so a sleeper beside it has a third worker about to wake it. */
  lemma SleeperBesideLeaver(s: State, p: nat, e: nat) returns (u: nat)
    requires Reachable(s) && Shape(s) && p < s.n && e < s.n && s.pcs[p].Parked? && s.pcs[e].Exited?
    ensures u < s.n && s.pcs[u].Unpark?
  {
    ReachableHasInv(s);
    CountBound(s.pcs, s.n);
    assert Active(s.pcs[e]);
    u :| 0 <= u < |s.pcs| && Activator(s.pcs[u]);
    assert PcOk(s.n, s.bumps, u < s.n, s.pcs[u]);
  }

  /** Deadlock freedom: with no outside thread inside an operation and a job queued, some worker can take a step, unless
      all workers have left. And they have not left unless `shutdown_async` was called. */
  lemma QueuedJobMeansSomeWorkerGoesOn(s: State, q: nat)
    requires Reachable(s) && Shape(s) && OutsideQuiet(s) && q < s.n && s.queues[q] != []
    ensures || (s.called && forall w :: 0 <= w < s.n ==> s.pcs[w].Exited? && s.flags[w])
            || exists w: nat, a :: w < s.n && Enabled(s, w, a)
  {
    if (forall p :: 0 <= p < s.n ==> s.pcs[p].Parked?) {
      AllParkedMeansAllEmpty(s);
    } else if exists p: nat, e: nat :: p < s.n && e < s.n && s.pcs[p].Parked? && s.pcs[e].Exited? {
      var p: nat, e: nat :| p < s.n && e < s.n && s.pcs[p].Parked? && s.pcs[e].Exited?;
      var u := SleeperBesideLeaver(s, p, e);
      OnlyParkingBlocks(s, u);
    } else if w: nat :| w < s.n && !s.pcs[w].Parked? && !s.pcs[w].Exited? {
      OnlyParkingBlocks(s, w);
    } else {
      NobodyLeavesUncalled(s);
    }
  }

  // ----- leaving -----

  /** A worker leaves `main_loop` only with its shutdown flag set, and a flag is set only by a shutdown job in that
      worker's own hands: so without a call of `shutdown_async` nobody leaves, and there is no shutdown job anywhere.
      */
  lemma NobodyLeavesUncalled(s: State)
    requires Reachable(s) && Shape(s)
    ensures forall w :: 0 <= w < s.n && s.pcs[w].Exited? ==> s.flags[w]
    ensures !s.called ==> forall w :: 0 <= w < s.n ==> !s.pcs[w].Exited? && !s.flags[w] && Shutdown !in s.queues[w]
  {
    ReachableHasInv(s);
  }

  /** It leaves at once when it tests the flag with the flag set, and otherwise goes back to its queue. */
  lemma TestDecides(s: State, w: nat)
    requires Reachable(s) && Enabled(s, w, TestFlag)
    ensures w < s.n && Next(s, w, TestFlag) == s.(pcs := s.pcs[w := if s.flags[w] then Exited else Local])
  {
    ReachableHasInv(s);
    assert PcOk(s.n, s.bumps, w < s.n, s.pcs[w]);
  }

  /** `called` says what it should: somebody has called `shutdown_async` in this run. */
  lemma {:induction false} CalledMeansAnnounced(path: seq<State>, trace: seq<(nat, Action)>, i: nat)
    requires IsRun(path, trace) && !path[0].called && i <= |trace|
    ensures path[i].called <==> exists j: nat :: j < i && trace[j].1.Announce?
  {
    if i > 0 {
      CalledMeansAnnounced(path, trace, i - 1);
      assert Step(path[i - 1], trace[i - 1].0, trace[i - 1].1, path[i]);
      CallIsAnnounce(path[i - 1], trace[i - 1].0, trace[i - 1].1);
      if trace[i - 1].1.Announce? {
        assert i - 1 < i && trace[i - 1].1.Announce?;
      }
    }
  }

  lemma CallIsAnnounce(s: State, w: nat, a: Action)
    requires Enabled(s, w, a)
    ensures Next(s, w, a).called == (s.called || a.Announce?)
  {
  }

  // ----- shutdown -----

  /** After `shutdown_async` has pushed its jobs, every worker is flagged, or a shutdown job is in its own queue, or
      some thread holds one whose polling still reaches it: stealing cannot lose it. */
  lemma ShutdownIsNeverLost(s: State, w: nat)
    requires Reachable(s) && Shape(s) && s.requested && w < s.n
    ensures Covered(s, w)
  {
    ReachableHasInv(s);
  }

  /** After `shutdown_async`, the workers cannot all fall asleep: when each is parked or has left and no outside
      thread is inside an operation, all have left. */
  lemma ShutdownLeavesNoSleeper(s: State)
    requires Reachable(s) && Shape(s) && s.requested && OutsideQuiet(s)
    requires forall p :: 0 <= p < s.n ==> s.pcs[p].Parked? || s.pcs[p].Exited?
    ensures forall p :: 0 <= p < s.n ==> s.pcs[p].Exited?
  {
    ReachableHasInv(s);
    assert forall u :: 0 <= u < |s.pcs| ==> s.pcs[u].Parked? || s.pcs[u].Exited? || s.pcs[u].Running?;
    forall p | 0 <= p < s.n && s.pcs[p].Parked?
      ensures false
    {
      assert Covered(s, p);
      ParkedQueueIsEmpty(s, p);
    }
  }

  // ----- indices -----

  /** A stealing worker has another worker to steal from: `% (n_workers - 1)` never divides by zero. */
  lemma StealingNeedsTwoWorkers(s: State, w: nat)
    requires Reachable(s) && w < |s.pcs| && (s.pcs[w].Steal? || s.pcs[w].StealPop?)
    ensures s.n >= 2
  {
    ReachableHasInv(s);
    assert PcOk(s.n, s.bumps, w < s.n, s.pcs[w]);
  }

  /** Every queue a step pushes to or pops from exists. */
  lemma QueueIndicesAreInRange(s: State, w: nat, a: Action)
    requires Reachable(s) && Enabled(s, w, a)
    ensures MoveOf(s, w, a).Push? || MoveOf(s, w, a).Take? ==> MoveOf(s, w, a).q < s.n
  {
    ReachableHasInv(s);
    assert PcOk(s.n, s.bumps, w < s.n, s.pcs[w]);
    MoveIsLawful(s, w, a);
  }

  // ----- Lemma C does not hold of the code -----

  /** Exactly when a refreshing worker looks into its own queue: the 23-bit epoch it reads is larger than the one it
      had. */
  lemma RefreshChecksOwnQueueIff(s: State, w: nat)
    requires Reachable(s) && Shape(s) && w < |s.pcs| && s.pcs[w].Restatus?
    ensures Enabled(s, w, RereadStatus)
    ensures Next(s, w, RereadStatus).pcs[w].Repop? <==> s.bumps % EPOCHS > s.pcs[w].snap.seen % EPOCHS
    ensures s.bumps / EPOCHS == s.pcs[w].snap.seen / EPOCHS ==>
              (Next(s, w, RereadStatus).pcs[w].Repop? <==> s.bumps > s.pcs[w].snap.seen)
  {
    ReachableHasInv(s);
    var snap := s.pcs[w].snap;
    assert PcOk(s.n, s.bumps, w < s.n, s.pcs[w]);
    CountBound(s.pcs, s.n);
    PackReads(Count(s.pcs, s.n), s.bumps);
    PackReads(ActiveCount(snap.status), snap.seen);
  }

  /** The pass of the inner loop that finds nothing at its first victim and an unchanged status. */
  function Spin(w: nat, tries: nat): seq<(nat, Action)>
  {
    if tries == 0 then [(w, RereadClock), (w, RereadStatus)] else [(w, PeekVictim(0))] + Spin(w, tries - 1)
  }

  predicate Missing(s: State, w: nat)
  {
    Shape(s) && w < s.n && s.n >= 2 && s.queues[Other(w, 0)] == [] && ActiveCount(s.word) != 0
  }

  lemma OneStepRuns(s: State, w: nat, a: Action, t: State)
    requires Enabled(s, w, a) && Next(s, w, a) == t
    ensures Runs(s, [(w, a)], t)
  {
    assert IsRun([s, t], [(w, a)]);
  }

  lemma RunsCompose(s: State, first: seq<(nat, Action)>, t: State, second: seq<(nat, Action)>, u: State)
    requires Runs(s, first, t) && Runs(t, second, u)
    ensures Runs(s, first + second, u)
  {
    var p :| IsRun(p, first) && p[0] == s && p[|first|] == t;
    var q :| IsRun(q, second) && q[0] == t && q[|second|] == u;
    PathsCompose(p, first, q, second);
    assert (p + q[1..])[|first + second|] == u;
  }

  lemma PathsCompose(p: seq<State>, first: seq<(nat, Action)>, q: seq<State>, second: seq<(nat, Action)>)
    requires IsRun(p, first) && IsRun(q, second) && p[|first|] == q[0]
    ensures IsRun(p + q[1..], first + second)
  {
  }

  /** A worker whose snapshot is current. */
  function At(s: State, w: nat, pc: Pc): State
    requires w < |s.pcs|
  {
    s.(pcs := s.pcs[w := pc])
  }

  lemma RefreshRuns(s: State, w: nat)
    requires Missing(s, w) && s.pcs[w] == Reinstant(Snapshot(s.word, s.bumps, s.bumps))
    ensures Runs(s, Spin(w, 0), At(s, w, Steal(Snapshot(s.word, s.bumps, s.bumps), 4 * s.n)))
  {
    var snap := Snapshot(s.word, s.bumps, s.bumps);
    var mid := At(s, w, Restatus(snap, s.bumps));
    var end := At(s, w, Steal(snap, 4 * s.n));
    assert end.pcs == mid.pcs[w := Steal(snap, 4 * s.n)];
    assert Step(s, w, RereadClock, mid) && Step(mid, w, RereadStatus, end);
    assert IsRun([s, mid, end], Spin(w, 0));
  }

  lemma {:induction false} SpinRuns(s: State, w: nat, tries: nat)
    requires Missing(s, w) && 1 <= tries
    requires s.pcs[w] == Steal(Snapshot(s.word, s.bumps, s.bumps), tries)
    ensures Runs(s, Spin(w, tries), At(s, w, Steal(Snapshot(s.word, s.bumps, s.bumps), 4 * s.n)))
    decreases tries
  {
    var snap := Snapshot(s.word, s.bumps, s.bumps);
    var mid := At(s, w, AfterMiss(snap, tries));
    var end := At(s, w, Steal(snap, 4 * s.n));
    assert end.pcs == mid.pcs[w := Steal(snap, 4 * s.n)];
    OneStepRuns(s, w, PeekVictim(0), mid);
    if tries == 1 {
      RefreshRuns(mid, w);
    } else {
      SpinRuns(mid, w, tries - 1);
    }
    RunsCompose(s, [(w, PeekVictim(0))], mid, Spin(w, tries - 1), end);
  }

  /** Two workers and one producer. */
  function Scene(word: nat, q0: seq<Job>, q1: seq<Job>, pc0: Pc, pc1: Pc, pc2: Pc, bumps: nat): State
  {
    State(2, word, [q0, q1], [false, false], [pc0, pc1, pc2], bumps, false, false)
  }

  /** A job for worker 1 is pushed and polled. Then a push and `next_epoch` land between worker 0's empty pop
      (worker.rs:108) and its `set_inactive` (worker.rs:120). */
  function Story(): seq<(nat, Action)>
  {
    [(2, OutsidePush(1)), (2, NextEpoch), (1, PopOwn),
     (0, PopOwn), (2, OutsidePush(0)), (2, NextEpoch), (0, ReadClock), (0, SetInactive)]
  }

  function StoryAt(i: nat): State
  {
    if i == 0 then Scene(2, [], [], Local, Local, Running, 0)
    else if i == 1 then Scene(2, [], [Ordinary], Local, Local, Bump(ToRunning), 0)
    else if i == 2 then Scene(514, [], [Ordinary], Local, Local, Running, 1)
    else if i == 3 then Scene(514, [], [], Local, Running, Running, 1)
    else if i == 4 then Scene(514, [], [], TakeInstant, Running, Running, 1)
    else if i == 5 then Scene(514, [Ordinary], [], TakeInstant, Running, Bump(ToRunning), 1)
    else if i == 6 then Scene(1026, [Ordinary], [], TakeInstant, Running, Running, 2)
    else if i == 7 then Scene(1026, [Ordinary], [], Deactivate(2), Running, Running, 2)
    else Starved()
  }

  /** Worker 0 steals with a job in its own queue, while worker 1 polls a long future. */
  function Starved(): State
  {
    Scene(1025, [Ordinary], [], Steal(Snapshot(1025, 2, 2), 8), Running, Running, 2)
  }

  lemma StoryPushes(i: nat)
    requires i == 0 || i == 4
    ensures Step(StoryAt(i), Story()[i].0, Story()[i].1, StoryAt(i + 1))
  {
    assert [] + [Ordinary] == [Ordinary];
    assert Next(StoryAt(i), Story()[i].0, Story()[i].1).queues == StoryAt(i + 1).queues;
  }

  lemma StoryBumps(i: nat)
    requires i == 1 || i == 5
    ensures Step(StoryAt(i), Story()[i].0, Story()[i].1, StoryAt(i + 1))
  {
  }

  lemma StoryPops(i: nat)
    requires i == 2 || i == 3
    ensures Step(StoryAt(i), Story()[i].0, Story()[i].1, StoryAt(i + 1))
  {
    assert [Ordinary][1..] == [];
    assert Next(StoryAt(i), Story()[i].0, Story()[i].1).queues == StoryAt(i + 1).queues;
  }

  lemma StoryDeactivates(i: nat)
    requires i == 6 || i == 7
    ensures Step(StoryAt(i), Story()[i].0, Story()[i].1, StoryAt(i + 1))
  {
  }

  lemma StarvedIsReachable()
    ensures Reachable(Starved())
  {
    var path := seq(9, i requires 0 <= i < 9 => StoryAt(i));
    forall i | 0 <= i < 8
      ensures Step(path[i], Story()[i].0, Story()[i].1, path[i + 1])
    {
      if i == 0 || i == 4 {
        StoryPushes(i);
      } else if i == 1 || i == 5 {
        StoryBumps(i);
      } else if i == 2 || i == 3 {
        StoryPops(i);
      } else {
        StoryDeactivates(i);
      }
    }
    assert IsRun(path, Story());
    assert Start(2, 1) == StoryAt(0);
    assert Runs(Start(2, 1), Story(), Starved());
  }

  /** Lemma C fails: a reachable state with a job in worker 0's queue, nothing owed by anyone, and a pass of worker 0's
      inner loop, not once looking into that queue, that ends where it began and can be repeated forever. */
  lemma OwnQueueMayNeverBeChecked()
    ensures Reachable(Starved()) && !BumpOwed(Starved()) && !UnparkOwed(Starved()) && Starved().queues[0] != []
    ensures Runs(Starved(), Spin(0, 8), Starved())
    ensures forall i :: 0 <= i < |Spin(0, 8)| ==>
              Spin(0, 8)[i].0 == 0 && !Spin(0, 8)[i].1.PopOwn? && !Spin(0, 8)[i].1.PopRecheck? &&
                !Spin(0, 8)[i].1.PopRefresh?
  {
    StarvedIsReachable();
    SpinRuns(Starved(), 0, 8);
    assert At(Starved(), 0, Starved().pcs[0]) == Starved();
    SpinPopsNothing(0, 8);
  }

  lemma {:induction false} SpinPopsNothing(w: nat, tries: nat)
    ensures forall i :: 0 <= i < |Spin(w, tries)| ==>
              Spin(w, tries)[i].0 == w && !Spin(w, tries)[i].1.PopOwn? && !Spin(w, tries)[i].1.PopRecheck? &&
              !Spin(w, tries)[i].1.PopRefresh?
  {
    if tries > 0 {
      SpinPopsNothing(w, tries - 1);
    }
  }
}
