/** Every step of the parking protocol keeps its invariant. */
module ParkingInvariant {
  import opened EpochWord
  import opened Options
  import opened Parking

  // ----- counting active workers -----

  lemma {:induction false} CountUpdate(pcs: seq<Pc>, k: nat, i: nat, pc: Pc)
    requires k <= |pcs| && i < |pcs|
    ensures Count(pcs[i := pc], k) ==
            if i < k then Count(pcs, k) - (if Active(pcs[i]) then 1 else 0) + (if Active(pc) then 1 else 0)
            else Count(pcs, k)
  {
    if k > 0 {
      CountUpdate(pcs, k - 1, i, pc);
    }
  }

  lemma {:induction false} CountBound(pcs: seq<Pc>, k: nat)
    requires k <= |pcs|
    ensures Count(pcs, k) <= k
    ensures Count(pcs, k) == k <==> forall i :: 0 <= i < k ==> Active(pcs[i])
    ensures Count(pcs, k) == 0 <==> forall i :: 0 <= i < k ==> !Active(pcs[i])
  {
    if k > 0 {
      CountBound(pcs, k - 1);
    }
  }

  /** `unpark_all` changes no worker's activity: parked workers and the place they go on to are both inactive. */
  lemma {:induction false} CountReleased(pcs: seq<Pc>, k: nat)
    requires k <= |pcs|
    ensures Count(Released(pcs), k) == Count(pcs, k)
  {
    if k > 0 {
      CountReleased(pcs, k - 1);
    }
  }

  // ----- what every operation's move looks like, one law per concern -----

  /** A worker's activity changes exactly with the word. */
  predicate ActivityLaw(s: State, w: nat, m: Move)
    requires w < |s.pcs|
  {
    var pc := s.pcs[w];
    && (m.Activated? ==> w < s.n && !Active(pc) && Active(m.pc))
    && (m.Deactivated? ==> w < s.n && Active(pc) && !Active(m.pc))
    && (!m.Activated? && !m.Deactivated? ==> Active(m.pc) == Active(pc))
  }

  /** Every index is in range, and the next program counter fits the new state. */
  predicate RangeLaw(s: State, w: nat, m: Move)
    requires Shape(s)
  {
    && PcOk(s.n, if m.Bumped? then s.bumps + 1 else s.bumps, w < s.n, m.pc)
    && (m.Push? ==> m.q < s.n)
    && (m.Take? ==> m.q < s.n && s.queues[m.q] != [])
    && (m.Raise? ==> w < s.n)
  }

  /** Who pushes owes a bump until it bumps, unless it pushes to its own queue; who commits to waiting saw its queue
      empty. */
  predicate OweLaw(s: State, w: nat, m: Move)
    requires Shape(s) && w < |s.pcs|
  {
    var pc := s.pcs[w];
    && (OwesBump(pc) && !m.Bumped? ==> OwesBump(m.pc))
    && (m.Push? ==> OwesBump(m.pc) || (m.q == w && !Committed(m.pc)))
    && (Committed(m.pc) ==>
          && m.Quiet? && w < s.n
          && (if Committed(pc) then pc.snap == m.pc.snap else s.queues[w] == []))
  }

  /** Who changes the word while nobody is active owes an unpark until it unparks; who parks validated the word. */
  predicate WakeLaw(s: State, w: nat, m: Move)
    requires w < |s.pcs|
  {
    var pc := s.pcs[w];
    && !pc.Parked?
    && (pc.Unpark? ==> m.Unparked?)
    && (m.Bumped? && ActiveCount(s.word) == 0 ==> m.pc.Unpark?)
    && (m.Activated? && ActiveCount(s.word) == 0 ==> Activator(m.pc))
    && (m.Unparked? ==> !m.pc.Parked?)
    && (m.pc.Parked? ==> m.Quiet? && s.word == m.pc.snap.status && s.bumps < m.pc.snap.stamp + EPOCHS)
  }

  /** A shutdown job on its way to `v` stays so until `v` is found flagged, is pushed to, or is the holder itself. */
  predicate ReachLaw(s: State, w: nat, m: Move, v: nat)
    requires Shape(s) && w < |s.pcs| && v < s.n
  {
    var pc := s.pcs[w];
    && (WillReach(pc, w, v) ==>
          WillReach(m.pc, w, v) || (m.Quiet? && s.flags[v]) || (m.Push? && m.q == v && m.job.Shutdown?) ||
            (m.Raise? && v == w))
    && (m.Take? && FrontOf(s, m.q).Shutdown? ==> WillReach(m.pc, w, v))
  }

  /** Flags are raised on the way out, and `shutdown_async` visits the workers in order. */
  predicate FlagLaw(s: State, w: nat, m: Move)
    requires Shape(s) && w < |s.pcs|
  {
    var pc := s.pcs[w];
    && (w < s.n && (s.flags[w] ==> Leaving(pc)) && (s.flags[w] || m.Raise?) ==> Leaving(m.pc))
    && (w < s.n && (Leaving(pc) && !pc.Test? ==> s.flags[w]) && Leaving(m.pc) && !m.pc.Test? ==> s.flags[w] || m.Raise?)
    && (m.Raise? ==> w < s.n)
    && (m.pc.Announcing? && m.pc.next > 0 ==> m.Push? && pc.Announcing? && pc.next + 1 == m.pc.next)
    && (m.Push? && m.done ==> pc.Announcing? && pc.next + 1 == s.n)
    && (m.Push? && pc.Announcing? ==> m.q == pc.next && m.job.Shutdown?)
  }

  /** Shutdown begins with a call of `shutdown_async`, and comes from a shutdown job. */
  predicate CallLaw(s: State, w: nat, m: Move)
    requires Shape(s) && w < |s.pcs|
  {
    var pc := s.pcs[w];
    && (m.pc.Announcing? ==> m.Call? || pc.Announcing?)
    && (InHand(m.pc) == Some(Shutdown) ==>
          InHand(pc) == Some(Shutdown) || (m.Take? && FrontOf(s, m.q).Shutdown?))
    && (m.Push? && m.job.Shutdown? ==> InHand(pc) == Some(Shutdown) || pc.Announcing?)
    && (m.Raise? ==> InHand(pc) == Some(Shutdown))
    && (m.pc.Exited? ==> w < s.n && s.flags[w])
  }

  predicate Lawful(s: State, w: nat, m: Move)
    requires Shape(s) && w < |s.pcs|
  {
    && ActivityLaw(s, w, m) && RangeLaw(s, w, m) && OweLaw(s, w, m) && WakeLaw(s, w, m) && FlagLaw(s, w, m)
    && CallLaw(s, w, m)
    && forall v: nat :: v < s.n ==> ReachLaw(s, w, m, v)
  }

  /** A status read now makes a sound snapshot; `others` is the count it shows. */
  lemma FreshSnapshot(s: State, status: nat, stamp: nat, others: nat)
    requires Shape(s) && others < s.n && stamp <= s.bumps && status == Pack(others, s.bumps)
    ensures SnapOk(s.n, s.bumps, Snapshot(status, s.bumps, stamp))
  {
  }

  lemma PushesAreLawful(s: State, w: nat, a: Action)
    requires Enabled(s, w, a) && PcOk(s.n, s.bumps, w < s.n, s.pcs[w])
    requires a.Spawn? || a.Defer? || a.Announce? || a.AnnouncePush? || a.Finish? || a.OutsidePush?
    ensures Lawful(s, w, MoveOf(s, w, a))
  {
  }

  lemma ShutdownIsLawful(s: State, w: nat, a: Action)
    requires Enabled(s, w, a) && PcOk(s.n, s.bumps, w < s.n, s.pcs[w])
    requires a.SetFlag? || a.LoadFlag? || a.ForwardPush? || a.TestFlag? || a.ReadClock?
    ensures Lawful(s, w, MoveOf(s, w, a))
  {
  }

  lemma PopsAreLawful(s: State, w: nat, a: Action)
    requires Enabled(s, w, a) && PcOk(s.n, s.bumps, w < s.n, s.pcs[w])
    requires a.PopOwn? || a.PopRecheck? || a.PopRefresh?
    ensures Lawful(s, w, MoveOf(s, w, a))
  {
  }

  lemma StealingIsLawful(s: State, w: nat, a: Action)
    requires Enabled(s, w, a) && PcOk(s.n, s.bumps, w < s.n, s.pcs[w])
    requires a.PeekVictim? || a.PopVictim?
    ensures Lawful(s, w, MoveOf(s, w, a))
  {
  }

  lemma WaitsAreLawful(s: State, w: nat, a: Action)
    requires Enabled(s, w, a) && PcOk(s.n, s.bumps, w < s.n, s.pcs[w])
    requires a.LoadStatus? || a.Park? || a.FailPark? || a.RereadClock?
    ensures Lawful(s, w, MoveOf(s, w, a))
  {
  }

  lemma BumpsAreLawful(s: State, w: nat, a: Action)
    requires Enabled(s, w, a) && PcOk(s.n, s.bumps, w < s.n, s.pcs[w]) && (a.NextEpoch? || a.UnparkAll?)
    ensures Lawful(s, w, MoveOf(s, w, a))
  {
  }

  lemma ActivationIsLawful(s: State, w: nat, a: Action)
    requires Enabled(s, w, a) && PcOk(s.n, s.bumps, w < s.n, s.pcs[w]) && a.SetActive?
    ensures Lawful(s, w, MoveOf(s, w, a))
  {
  }

  lemma SnapshotsAreLawful(s: State, w: nat, a: Action)
    requires Enabled(s, w, a) && PcOk(s.n, s.bumps, w < s.n, s.pcs[w]) && WordOk(s)
    requires a.SetInactive? || a.RereadStatus?
    ensures Lawful(s, w, MoveOf(s, w, a))
  {
    var pc, count := s.pcs[w], Count(s.pcs, s.n);
    CountBound(s.pcs, s.n);
    if a.SetInactive? {
      PackDecrement(count, s.bumps);
      FreshSnapshot(s, FetchSub(s.word, 1), pc.stamp, count - 1);
    } else {
      FreshSnapshot(s, s.word, pc.stamp, count);
    }
  }

  lemma MoveIsLawful(s: State, w: nat, a: Action)
    requires Enabled(s, w, a) && PcOk(s.n, s.bumps, w < s.n, s.pcs[w]) && WordOk(s)
    ensures Lawful(s, w, MoveOf(s, w, a))
  {
    if a.Spawn? || a.Defer? || a.Announce? || a.AnnouncePush? || a.Finish? || a.OutsidePush? {
      PushesAreLawful(s, w, a);
    } else if a.SetFlag? || a.LoadFlag? || a.ForwardPush? || a.TestFlag? || a.ReadClock? {
      ShutdownIsLawful(s, w, a);
    } else if a.PopOwn? || a.PopRecheck? || a.PopRefresh? {
      PopsAreLawful(s, w, a);
    } else if a.PeekVictim? || a.PopVictim? {
      StealingIsLawful(s, w, a);
    } else if a.SetActive? {
      ActivationIsLawful(s, w, a);
    } else if a.SetInactive? || a.RereadStatus? {
      SnapshotsAreLawful(s, w, a);
    } else if a.NextEpoch? || a.UnparkAll? {
      BumpsAreLawful(s, w, a);
    } else {
      WaitsAreLawful(s, w, a);
    }
  }

  // ----- a lawful move keeps each part of the invariant -----

  /** How a move changes the number of active workers. */
  lemma CountAfter(s: State, w: nat, m: Move)
    requires Shape(s) && w < |s.pcs| && ActivityLaw(s, w, m)
    ensures Shape(Apply(s, w, m)) && Apply(s, w, m).n == s.n
    ensures Count(Apply(s, w, m).pcs, s.n) ==
            Count(s.pcs, s.n) + if m.Activated? then 1 else if m.Deactivated? then -1 else 0
  {
    CountUpdate(s.pcs, s.n, w, m.pc);
    CountReleased(s.pcs[w := m.pc], s.n);
  }

  lemma WordKept(s: State, w: nat, m: Move)
    requires Shape(s) && w < |s.pcs| && WordOk(s) && ActivityLaw(s, w, m)
    ensures Shape(Apply(s, w, m)) && WordOk(Apply(s, w, m))
  {
    var count := Count(s.pcs, s.n);
    CountAfter(s, w, m);
    CountBound(Apply(s, w, m).pcs, s.n);
    CountBound(s.pcs, s.n);
    match m
    case Bumped(_) => PackBump(count, s.bumps);
    case Activated(_) => PackIncrement(count, s.bumps);
    case Deactivated(_) => PackDecrement(count, s.bumps);
    case _ =>
  }

  lemma PcsKept(s: State, w: nat, m: Move)
    requires Shape(s) && w < |s.pcs| && PcsOk(s) && RangeLaw(s, w, m)
    ensures PcsOk(Apply(s, w, m))
  {
  }

  lemma QueuesKept(s: State, w: nat, m: Move)
    requires Shape(s) && w < |s.pcs| && PcsOk(s) && QueuesOk(s) && RangeLaw(s, w, m) && OweLaw(s, w, m) &&
             WakeLaw(s, w, m)
    ensures QueuesOk(Apply(s, w, m))
  {
    var s' := Apply(s, w, m);
    forall v | 0 <= v < s.n && Committed(s'.pcs[v]) && s'.queues[v] != []
      ensures s'.bumps > s'.pcs[v].snap.seen || BumpOwed(s')
    {
      assert PcOk(s.n, s.bumps, v < s.n, s.pcs[v]);
      if !m.Bumped? {
        if OwesBump(m.pc) {
          assert OwesBump(s'.pcs[w]);
        } else if s.bumps <= s'.pcs[v].snap.seen {
          assert BumpOwed(s);
          var u :| 0 <= u < |s.pcs| && OwesBump(s.pcs[u]);
          assert OwesBump(s'.pcs[u]);
        }
      }
    }
  }

  /** A worker that has just parked validated the current word: nobody is active, and no bump happened since it read. */
  lemma ParkedOnCurrentWord(s: State, snap: Snapshot)
    requires Shape(s) && WordOk(s) && SnapOk(s.n, s.bumps, snap)
    requires s.word == snap.status && s.bumps < snap.stamp + EPOCHS
    ensures Count(s.pcs, s.n) == ActiveCount(snap.status) && snap.seen == s.bumps
  {
    CountBound(s.pcs, s.n);
    EqualWordsWithinWindow(ActiveCount(snap.status), snap.seen, Count(s.pcs, s.n), s.bumps);
  }

  /** An owed unpark stays owed by the same thread until it is made. */
  lemma OwedUnparkStays(s: State, w: nat, m: Move)
    requires Shape(s) && w < |s.pcs| && WakeLaw(s, w, m) && !m.Unparked?
    ensures UnparkOwed(s) ==> UnparkOwed(Apply(s, w, m))
    ensures ActivatorOwes(s) ==> ActivatorOwes(Apply(s, w, m)) && UnparkOwed(Apply(s, w, m))
    ensures m.pc.Unpark? ==> UnparkOwed(Apply(s, w, m))
    ensures Activator(m.pc) ==> ActivatorOwes(Apply(s, w, m))
  {
    var s' := Apply(s, w, m);
    assert s'.pcs == s.pcs[w := m.pc];
    if u :| 0 <= u < |s.pcs| && s.pcs[u].Unpark? {
      assert s'.pcs[u].Unpark?;
    }
    if u :| 0 <= u < |s.pcs| && Activator(s.pcs[u]) {
      assert Activator(s'.pcs[u]) && s'.pcs[u].Unpark?;
    }
    assert s'.pcs[w] == m.pc;
  }

  lemma WakesKept(s: State, w: nat, m: Move)
    requires Shape(s) && w < |s.pcs| && WordOk(s) && PcsOk(s) && WakesOk(s)
    requires ActivityLaw(s, w, m) && RangeLaw(s, w, m) && WakeLaw(s, w, m) && OweLaw(s, w, m)
    ensures WakesOk(Apply(s, w, m))
  {
    var s', count := Apply(s, w, m), Count(s.pcs, s.n);
    if !m.Unparked? {
      CountBound(s.pcs, s.n);
      CountUpdate(s.pcs, s.n, w, m.pc);
      PackReads(count, s.bumps);
      OwedUnparkStays(s, w, m);
      forall p | 0 <= p < s.n && s'.pcs[p].Parked?
        ensures Count(s'.pcs, s.n) != 0 ==> ActivatorOwes(s')
        ensures s'.bumps != s'.pcs[p].snap.seen ==> UnparkOwed(s')
      {
        if p == w {
          ParkedOnCurrentWord(s, m.pc.snap);
        } else {
          assert s.pcs[p].Parked?;
        }
      }
    }
  }

  lemma FlagsKept(s: State, w: nat, m: Move)
    requires Shape(s) && w < |s.pcs| && FlagsOk(s) && FlagLaw(s, w, m)
    ensures FlagsOk(Apply(s, w, m))
  {
  }

  lemma CallsKept(s: State, w: nat, m: Move)
    requires Shape(s) && w < |s.pcs| && CallsOk(s) && CallLaw(s, w, m)
    ensures CallsOk(Apply(s, w, m))
  {
  }

  // ----- shutdown -----

  /** Once shutdown is not lost for a worker, no step of any thread loses it. */
  lemma CoverageKept(s: State, w: nat, m: Move, v: nat)
    requires Shape(s) && w < |s.pcs| && v < s.n && Covered(s, v)
    requires RangeLaw(s, w, m) && WakeLaw(s, w, m) && ReachLaw(s, w, m, v)
    ensures Shape(Apply(s, w, m)) && Covered(Apply(s, w, m), v)
  {
    var s' := Apply(s, w, m);
    if s.flags[v] {
      assert s'.flags[v];
    } else if Shutdown in s.queues[v] {
      if m.Take? && m.q == v && s.queues[v][0] == Shutdown {
        assert WillReach(s'.pcs[w], w, v);
      } else {
        assert Shutdown in s'.queues[v] by { StillQueued(s, w, m, v); }
      }
    } else {
      var u: nat :| u < |s.pcs| && WillReach(s.pcs[u], u, v);
      if u != w {
        assert WillReach(s'.pcs[u], u, v);
      } else if WillReach(m.pc, w, v) {
        assert WillReach(s'.pcs[w], w, v);
      } else if m.Push? && m.q == v && m.job.Shutdown? {
        PushedIsQueued(s, w, m);
      }
    }
  }

  lemma StillQueued(s: State, w: nat, m: Move, v: nat)
    requires Shape(s) && w < |s.pcs| && v < s.n && Shutdown in s.queues[v] && RangeLaw(s, w, m)
    requires m.Take? && m.q == v ==> s.queues[v][0] != Shutdown
    ensures Shutdown in Apply(s, w, m).queues[v]
  {
  }

  lemma PushedIsQueued(s: State, w: nat, m: Move)
    requires Shape(s) && w < |s.pcs| && m.Push? && m.q < s.n
    ensures m.job in Apply(s, w, m).queues[m.q]
  {
  }

  lemma ShutdownKept(s: State, w: nat, m: Move)
    requires Shape(s) && w < |s.pcs| && ShutdownOk(s) && Lawful(s, w, m)
    ensures Shape(Apply(s, w, m)) && ShutdownOk(Apply(s, w, m))
  {
    var s' := Apply(s, w, m);
    forall v: nat | v < s.n && Covered(s, v)
      ensures Covered(s', v)
    {
      CoverageKept(s, w, m, v);
    }
    if m.Push? && s.pcs[w].Announcing? {
      PushedIsQueued(s, w, m);
      assert Covered(s', m.q);
    }
    forall u, v: nat | 0 <= u < |s'.pcs| && s'.pcs[u].Announcing? && v < s'.pcs[u].next && v < s.n
      ensures Covered(s', v)
    {
    }
  }

  // ----- all runs -----

  lemma StepKeepsInv(s: State, w: nat, a: Action)
    requires Inv(s) && Enabled(s, w, a)
    ensures Inv(Next(s, w, a))
  {
    var m := MoveOf(s, w, a);
    assert PcOk(s.n, s.bumps, w < s.n, s.pcs[w]);
    MoveIsLawful(s, w, a);
    WordKept(s, w, m);
    PcsKept(s, w, m);
    QueuesKept(s, w, m);
    WakesKept(s, w, m);
    FlagsKept(s, w, m);
    CallsKept(s, w, m);
    ShutdownKept(s, w, m);
  }

  lemma StartHasInv(n: nat, m: nat)
    requires 1 <= n < EPOCH
    ensures Inv(Start(n, m))
  {
    var s := Start(n, m);
    CountBound(s.pcs, n);
    assert forall i :: 0 <= i < n ==> s.pcs[i] == Local;
    assert s.word == Pack(n, 0);
  }

  lemma {:induction false} PathKeepsInv(path: seq<State>, trace: seq<(nat, Action)>, i: nat)
    requires IsRun(path, trace) && Inv(path[0]) && i <= |trace|
    ensures Inv(path[i])
  {
    if i > 0 {
      PathKeepsInv(path, trace, i - 1);
      StepKeepsInv(path[i - 1], trace[i - 1].0, trace[i - 1].1);
    }
  }

  lemma ReachableHasInv(s: State)
    requires Reachable(s)
    ensures Inv(s)
  {
    var m, trace :| Runs(Start(s.n, m), trace, s);
    var path :| IsRun(path, trace) && path[0] == Start(s.n, m) && path[|trace|] == s;
    StartHasInv(s.n, m);
    PathKeepsInv(path, trace, |trace|);
  }
}
