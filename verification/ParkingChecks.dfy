/** When a worker looks into its own queue: how much of Lemma C of `epoch.rs` holds of the code. */
module ParkingChecks {
  import opened EpochWord
  import opened Options
  import opened Parking
  import opened ParkingInvariant
  import opened ParkingOperations

  /** In step `i` of the run, worker `w` looks into its own queue. */
  predicate LooksAt(trace: seq<(nat, Action)>, w: nat, i: nat)
  {
    i < |trace| && trace[i].0 == w && Looks(trace[i].1)
  }

  /** In step `i` of the run, worker `w` takes a job, its own or a stolen one. */
  predicate TakesAt(path: seq<State>, trace: seq<(nat, Action)>, w: nat, i: nat)
    requires |path| == |trace| + 1
  {
    i < |trace| && trace[i].0 == w && w < |path[i + 1].pcs| && path[i + 1].pcs[w].Holding?
  }

  /** In step `i` of the run, worker `w` refreshes its status and reads that nobody is active. */
  predicate ReadsZeroAt(path: seq<State>, trace: seq<(nat, Action)>, w: nat, i: nat)
    requires |path| == |trace| + 1
  {
    i < |trace| && trace[i] == (w, RereadStatus) && ActiveCount(path[i].word) == 0
  }

  /** Worker `w` neither looks nor takes. */
  predicate Ignores(path: seq<State>, trace: seq<(nat, Action)>, w: nat)
    requires |path| == |trace| + 1
  {
    forall i: nat :: i < |trace| ==> !LooksAt(trace, w, i) && !TakesAt(path, trace, w, i)
  }

  /** How many of the first `i` steps are steps of worker `w`. */
  function OwnSteps(trace: seq<(nat, Action)>, w: nat, i: nat): nat
    requires i <= |trace|
  {
    if i == 0 then 0 else OwnSteps(trace, w, i - 1) + (if trace[i - 1].0 == w then 1 else 0)
  }

  // ----- one step -----

  /** What the invariant says of one worker and the word. */
  predicate WorkerOk(s: State, w: nat)
  {
    Shape(s) && w < s.n && WordOk(s) && PcOk(s.n, s.bumps, true, s.pcs[w])
  }

  /** How many steps of its own an inactive worker can take before it has to look, if its snapshot is out of date. */
  function Left(pc: Pc): nat
  {
    match pc
    case Steal(_, tries) => 2 * tries + 2
    case StealPop(_, tries, _) => 2 * tries + 1
    case Wait(_) => 4
    case Validate(_) => 3
    case Parked(_) => 2
    case Reinstant(_) => 2
    case Restatus(_, _) => 1
    case _ => 0
  }

  /** A step of another thread at most takes the worker out of the parking lot. */
  lemma OthersStep(s: State, v: nat, a: Action, w: nat)
    requires Enabled(s, v, a) && v != w && w < s.n
    ensures var s' := Next(s, v, a);
            w < |s'.pcs| && (s'.pcs[w] == s.pcs[w] || (s.pcs[w].Parked? && s'.pcs[w] == Reinstant(s.pcs[w].snap)))
  {
  }

  /** The epochs that a refreshing worker compares are the bumps, within a block of 2^23. */
  lemma RefreshCompares(s: State, w: nat)
    requires WorkerOk(s, w) && s.pcs[w].Restatus? && s.bumps / EPOCHS == s.pcs[w].snap.seen / EPOCHS
    ensures EpochNumber(s.word) > EpochNumber(s.pcs[w].snap.status) <==> s.bumps > s.pcs[w].snap.seen
  {
    var snap := s.pcs[w].snap;
    CountBound(s.pcs, s.n);
    PackReads(Count(s.pcs, s.n), s.bumps);
    PackReads(ActiveCount(snap.status), snap.seen);
    SameBlock(snap.seen, s.bumps);
  }

  lemma SameBlock(a: nat, b: nat)
    requires a / EPOCHS == b / EPOCHS
    ensures a % EPOCHS < b % EPOCHS <==> a < b
  {
  }

  /** A step that neither looks nor takes keeps the snapshot as old as it was, or leads to `Repop`, where the worker
      has to look next. */
  lemma OwnStep(s: State, w: nat, a: Action)
    requires WorkerOk(s, w) && Enabled(s, w, a) && HasSnap(s.pcs[w]) && !Looks(a)
    requires s.bumps / EPOCHS == s.pcs[w].snap.seen / EPOCHS && !Next(s, w, a).pcs[w].Holding?
    ensures var pc, pc' := s.pcs[w], Next(s, w, a).pcs[w];
            && HasSnap(pc') && (pc'.Repop? || pc'.snap.seen == pc.snap.seen)
            && (pc.snap.seen < s.bumps ==> Left(pc') < Left(pc))
            && (pc.snap.seen == s.bumps && !pc.Repop? && !pc.Recheck? &&
                (a.RereadStatus? ==> ActiveCount(s.word) != 0) ==>
                  !pc'.Repop? && !pc'.Recheck?)
  {
    if a.RereadStatus? {
      RefreshCompares(s, w);
    }
  }

  // ----- runs -----

  lemma {:induction false} BumpsGrow(path: seq<State>, trace: seq<(nat, Action)>, i: nat, j: nat)
    requires IsRun(path, trace) && i <= j <= |trace|
    ensures path[i].bumps <= path[j].bumps && path[i].n == path[j].n
    decreases j
  {
    if i < j {
      BumpsGrow(path, trace, i, j - 1);
      assert Step(path[j - 1], trace[j - 1].0, trace[j - 1].1, path[j]);
    }
  }

  lemma Between(a: nat, b: nat, c: nat)
    requires a <= b <= c && a / EPOCHS == c / EPOCHS
    ensures b / EPOCHS == a / EPOCHS
  {
  }

  /** A run from an inactive worker's snapshot on, within one block of 2^23 bumps. */
  ghost predicate FromSnapshot(path: seq<State>, trace: seq<(nat, Action)>, w: nat)
  {
    && IsRun(path, trace) && Reachable(path[0]) && Shape(path[0]) && w < path[0].n && HasSnap(path[0].pcs[w])
    && path[|trace|].bumps / EPOCHS == path[0].pcs[w].snap.seen / EPOCHS
  }

  /** All states of such a run satisfy the invariant and are in the same block. */
  lemma AlongTheRun(path: seq<State>, trace: seq<(nat, Action)>, w: nat, i: nat)
    requires FromSnapshot(path, trace, w) && i <= |trace|
    ensures WorkerOk(path[i], w) && path[i].n == path[0].n && path[0].bumps <= path[i].bumps
    ensures path[i].bumps / EPOCHS == path[0].pcs[w].snap.seen / EPOCHS
  {
    ReachableHasInv(path[0]);
    PathKeepsInv(path, trace, i);
    BumpsGrow(path, trace, 0, i);
    BumpsGrow(path, trace, i, |trace|);
    assert PcOk(path[0].n, path[0].bumps, true, path[0].pcs[w]);
    Between(path[0].pcs[w].snap.seen, path[i].bumps, path[|trace|].bumps);
  }

  lemma IgnoringStep(s: State, v: nat, a: Action, s': State, w: nat, seen: nat)
    requires WorkerOk(s, w) && Step(s, v, a, s') && HasSnap(s.pcs[w]) && s.bumps / EPOCHS == seen / EPOCHS
    requires s.pcs[w].Repop? || s.pcs[w].snap.seen == seen
    requires v == w ==> !Looks(a) && w < |s'.pcs| && !s'.pcs[w].Holding?
    ensures w < |s'.pcs| && HasSnap(s'.pcs[w]) && (s'.pcs[w].Repop? || s'.pcs[w].snap.seen == seen)
    ensures seen < s.bumps ==> Left(s'.pcs[w]) + (if v == w then 1 else 0) <= Left(s.pcs[w])
  {
    if v == w {
      OwnStep(s, w, a);
    } else {
      OthersStep(s, v, a, w);
    }
  }

  /** While the worker neither looks nor takes, its snapshot stays as old as it was until it reaches `Repop`; and if
      it is out of date, the worker has only so many steps left. */
  lemma {:induction false} IgnoringRun(path: seq<State>, trace: seq<(nat, Action)>, w: nat, i: nat)
    requires FromSnapshot(path, trace, w) && i <= |trace| && Ignores(path, trace, w)
    ensures w < |path[i].pcs| && HasSnap(path[i].pcs[w])
    ensures path[i].pcs[w].Repop? || path[i].pcs[w].snap.seen == path[0].pcs[w].snap.seen
    ensures path[0].pcs[w].snap.seen < path[0].bumps ==>
              OwnSteps(trace, w, i) + Left(path[i].pcs[w]) <= Left(path[0].pcs[w])
  {
    if i > 0 {
      IgnoringRun(path, trace, w, i - 1);
      AlongTheRun(path, trace, w, i - 1);
      assert !LooksAt(trace, w, i - 1) && !TakesAt(path, trace, w, i - 1);
      IgnoringStep(path[i - 1], trace[i - 1].0, trace[i - 1].1, path[i], w, path[0].pcs[w].snap.seen);
    }
  }

  // ----- what looking and taking amount to -----

  /** In step `i` of the run, worker `w` sees its own queue empty, or takes the front job of a queue and goes on with
      it. */
  ghost predicate ChecksAt(path: seq<State>, trace: seq<(nat, Action)>, w: nat, i: nat)
    requires |path| == |trace| + 1
  {
    && i < |trace| && trace[i].0 == w
    && ((Looks(trace[i].1) && SeesEmpty(path[i], path[i + 1], w, w)) || Takes(path[i], path[i + 1], w))
  }

  ghost predicate Takes(s: State, s': State, w: nat)
  {
    exists q :: TakesFront(s, s', w, q)
  }

  lemma HoldingWasTaken(s: State, w: nat, a: Action)
    requires Enabled(s, w, a) && w < s.n && PcOk(s.n, s.bumps, true, s.pcs[w]) && !Looks(a)
    requires w < |Next(s, w, a).pcs| && Next(s, w, a).pcs[w].Holding?
    ensures a.PopVictim? && TakesFront(s, Next(s, w, a), w, s.pcs[w].victim)
  {
    if a.PopVictim? {
      VictimGivesTheFront(s, w);
    }
  }

  lemma VictimGivesTheFront(s: State, w: nat)
    requires Enabled(s, w, PopVictim) && w < s.n && PcOk(s.n, s.bumps, true, s.pcs[w])
    requires w < |Next(s, w, PopVictim).pcs| && Next(s, w, PopVictim).pcs[w].Holding?
    ensures TakesFront(s, Next(s, w, PopVictim), w, s.pcs[w].victim)
  {
  }

  lemma LooksAndTakesCheck(path: seq<State>, trace: seq<(nat, Action)>, w: nat, i: nat)
    requires FromSnapshot(path, trace, w) && (LooksAt(trace, w, i) || TakesAt(path, trace, w, i))
    ensures ChecksAt(path, trace, w, i)
  {
    var s, a := path[i], trace[i].1;
    AlongTheRun(path, trace, w, i);
    assert Step(s, w, a, path[i + 1]);
    if LooksAt(trace, w, i) {
      LookingTakes(s, w, a);
      assert TakesFront(s, path[i + 1], w, w) || SeesEmpty(s, path[i + 1], w, w);
    } else {
      HoldingWasTaken(s, w, a);
    }
  }

  lemma NotIgnoring(path: seq<State>, trace: seq<(nat, Action)>, w: nat)
    requires FromSnapshot(path, trace, w) && !Ignores(path, trace, w)
    ensures exists i: nat :: ChecksAt(path, trace, w, i)
  {
    var i: nat :| LooksAt(trace, w, i) || TakesAt(path, trace, w, i);
    LooksAndTakesCheck(path, trace, w, i);
  }

  /** Lemma C, where it holds: a worker whose status is older than the last bump sees its own queue empty, or takes a
      job, within `8 * n + 3` steps of its own. */
  lemma OutdatedWorkerLooksSoon(path: seq<State>, trace: seq<(nat, Action)>, w: nat)
    requires FromSnapshot(path, trace, w) && path[0].pcs[w].snap.seen < path[0].bumps
    requires OwnSteps(trace, w, |trace|) >= 8 * path[0].n + 3
    ensures exists i: nat :: ChecksAt(path, trace, w, i)
  {
    ReachableHasInv(path[0]);
    assert PcOk(path[0].n, path[0].bumps, true, path[0].pcs[w]);
    if Ignores(path, trace, w) {
      IgnoringRun(path, trace, w, |trace|);
    } else {
      NotIgnoring(path, trace, w);
    }
  }

  /** So it never stands anywhere else in the inner loop with a newer status unless it has seen its queue empty or
      taken a job. */
  lemma NewerStatusMeansItLooked(path: seq<State>, trace: seq<(nat, Action)>, w: nat)
    requires FromSnapshot(path, trace, w) && w < |path[|trace|].pcs|
    requires var pc := path[|trace|].pcs[w]; HasSnap(pc) && !pc.Repop? && pc.snap.seen > path[0].pcs[w].snap.seen
    ensures exists i: nat :: ChecksAt(path, trace, w, i)
  {
    if Ignores(path, trace, w) {
      IgnoringRun(path, trace, w, |trace|);
    } else {
      NotIgnoring(path, trace, w);
    }
  }

  /** The worker's status is as new as the last bump, and it is not about to look. */
  predicate Current(s: State, w: nat)
  {
    && w < |s.pcs| && HasSnap(s.pcs[w]) && s.pcs[w].snap.seen == s.bumps
    && !s.pcs[w].Recheck? && !s.pcs[w].Repop?
  }

  lemma StaysCurrent(s: State, v: nat, a: Action, s': State, w: nat)
    requires WorkerOk(s, w) && Step(s, v, a, s') && Current(s, w) && s'.bumps == s.bumps
    requires v == w ==> (w < |s'.pcs| ==> !s'.pcs[w].Holding?) && (a.RereadStatus? ==> ActiveCount(s.word) != 0)
    ensures Current(s', w) && (v == w ==> !Looks(a))
  {
    if v == w {
      OwnStep(s, w, a);
    } else {
      OthersStep(s, v, a, w);
    }
  }

  /** The converse: a worker whose status is as new as the last bump does not look into its own queue, whatever is in
      it, until it takes a job, reads an active count of 0, or the epoch is bumped again. */
  lemma {:induction false} CurrentWorkerDoesNotLook(path: seq<State>, trace: seq<(nat, Action)>, w: nat, i: nat)
    requires FromSnapshot(path, trace, w) && i <= |trace|
    requires Current(path[0], w) && path[|trace|].bumps == path[0].bumps
    requires forall j: nat :: j < |trace| ==> !TakesAt(path, trace, w, j)
    requires forall j: nat :: j < |trace| ==> !ReadsZeroAt(path, trace, w, j)
    ensures Current(path[i], w) && forall j: nat :: j < i ==> !LooksAt(trace, w, j)
  {
    if i > 0 {
      CurrentWorkerDoesNotLook(path, trace, w, i - 1);
      AlongTheRun(path, trace, w, i - 1);
      BumpsGrow(path, trace, i - 1, i);
      BumpsGrow(path, trace, i, |trace|);
      assert !TakesAt(path, trace, w, i - 1) && !ReadsZeroAt(path, trace, w, i - 1);
      StaysCurrent(path[i - 1], trace[i - 1].0, trace[i - 1].1, path[i], w);
    }
  }

  // ----- which bumps a worker notices -----

  /** A bump puts the snapshot of every inactive worker out of date. */
  lemma BumpOutdatesSnapshots(s: State, u: nat, w: nat)
    requires Reachable(s) && Enabled(s, u, NextEpoch) && w < s.n
    ensures var s' := Next(s, u, NextEpoch);
            w < |s'.pcs| && (HasSnap(s'.pcs[w]) ==> s'.pcs[w].snap.seen < s'.bumps)
  {
    ReachableHasInv(s);
    assert PcOk(s.n, s.bumps, true, s.pcs[w]);
  }

  /** A worker that deactivates takes a current snapshot: it misses every bump since its empty pop. */
  lemma DeactivationMissesBumps(s: State, w: nat)
    requires Reachable(s) && Enabled(s, w, SetInactive)
    ensures w < |Next(s, w, SetInactive).pcs| && HasSnap(Next(s, w, SetInactive).pcs[w])
    ensures Next(s, w, SetInactive).pcs[w].snap.seen == Next(s, w, SetInactive).bumps
  {
  }

  /** Between its empty pop and `set_inactive`, or already inactive. */
  predicate PastItsPop(pc: Pc)
  {
    pc.TakeInstant? || pc.Deactivate? || HasSnap(pc)
  }

  lemma OwnStepToDeactivation(s: State, w: nat, a: Action)
    requires Enabled(s, w, a) && !PastItsPop(s.pcs[w]) && !Looks(a)
    ensures w < |Next(s, w, a).pcs| && !PastItsPop(Next(s, w, a).pcs[w])
  {
  }

  /** Every other worker is active and looks into its own queue before it becomes inactive. */
  lemma {:induction false} ActiveWorkerLooksFirst(path: seq<State>, trace: seq<(nat, Action)>, w: nat, i: nat)
    requires IsRun(path, trace) && Shape(path[0]) && w < path[0].n && !PastItsPop(path[0].pcs[w]) && i <= |trace|
    requires forall j: nat :: j < i ==> !LooksAt(trace, w, j)
    ensures path[i].n == path[0].n && w < |path[i].pcs| && !PastItsPop(path[i].pcs[w])
  {
    if i > 0 {
      ActiveWorkerLooksFirst(path, trace, w, i - 1);
      var s, v, a := path[i - 1], trace[i - 1].0, trace[i - 1].1;
      assert Step(s, v, a, path[i]);
      assert !LooksAt(trace, w, i - 1);
      BumpsGrow(path, trace, 0, i);
      if v == w {
        OwnStepToDeactivation(s, w, a);
      } else {
        OthersStep(s, v, a, w);
      }
    }
  }
}
