/** What the operations of the readiness handshake do, said of the states before and after them: when an event wakes,
    what it wakes, and how a future goes through `io_poll!`. */
module ReadinessOperations {
  import T = TaskLife
  import TO = TaskLifeOperations
  import opened Readiness
  import opened ReadinessInvariant

  // ----- the status byte -----

  /** The byte is 0, `MUTED` or `NOTIFIED | MUTED`; the last says that an event came since the last `prepare_io`, and 0
      that the future went to wait after one. */
  predicate StatusTells(disp: Dispatcher)
  {
    && (disp.status == 0 || disp.status == 1 || disp.status == 3)
    && (disp.status == 3 <==> disp.event)
    && (disp.status == 0 || disp.io.Prepared? || disp.io.Blocked? ==> disp.tries > 0)
  }

  predicate AllTell(s: State)
  {
    forall d :: d in s.disps ==> StatusTells(s.disps[d])
  }

  lemma StepTellsOf(s: State, th: T.Thread, a: Action, d: nat)
    requires AllTell(s) && Enabled(s, th, a) && d in Next(s, th, a).disps
    ensures StatusTells(Next(s, th, a).disps[d])
  {
  }

  lemma StepTells(s: State, th: T.Thread, a: Action, s': State)
    requires AllTell(s) && Step(s, th, a, s')
    ensures AllTell(s')
  {
    forall d | d in s'.disps
      ensures StatusTells(s'.disps[d])
    {
      StepTellsOf(s, th, a, d);
    }
  }

  lemma {:induction false} PathTells(path: seq<State>, trace: seq<(T.Thread, Action)>, i: nat)
    requires IsRun(path, trace) && AllTell(path[0]) && i <= |trace|
    ensures AllTell(path[i])
  {
    if i > 0 {
      PathTells(path, trace, i - 1);
      StepTells(path[i - 1], trace[i - 1].0, trace[i - 1].1, path[i]);
    }
  }

  /** The status byte tells whether an event came. */
  lemma StatusTellsOfEvents(s: State, d: nat)
    requires Reachable(s) && d in s.disps
    ensures StatusTells(s.disps[d])
  {
    var trace :| Runs(Start(s.rt.n, s.rt.batchers), trace, s);
    var path :| IsRun(path, trace) && path[0] == Start(s.rt.n, s.rt.batchers) && path[|trace|] == s;
    PathTells(path, trace, |trace|);
  }

  /** `notify` records the event, and leaves the reactor with a wake to make exactly if the future waits: it has gone to
      wait since `prepare_io`, and no event came since. */
  lemma NotifyOwesIffWaiting(s: State, th: T.Thread, d: nat)
    requires Reachable(s) && Enabled(s, th, Notify(d))
    ensures var s', disp := Next(s, th, Notify(d)), s.disps[d];
            && d in s'.disps && s'.disps[d] == disp.(status := 3, event := true) && s'.rt == s.rt
            && (forall e :: e in s.disps && e != d ==> e in s'.disps && s'.disps[e] == s.disps[e])
            && s'.owing == (if disp.status == 0 then s.owing[th.x := d] else s.owing)
            && (disp.io.Suspending? || disp.io.Suspended? ==> (disp.status == 0 <==> !disp.event))
            && (disp.io.Prepared? || disp.io.Blocked? ==> disp.status != 0)
  {
    ReachableHasInv(s);
    assert IoOk(s, d);
  }

  // ----- an event wakes a waiting task -----

  /** The task is idle, its future waits on dispatcher `d`, and nothing came since. */
  predicate Waits(s: State, d: nat)
  {
    && d in s.disps && s.disps[d].io.Suspended? && s.disps[d].link.Linked? && s.disps[d].status == 0
    && s.disps[d].task in s.rt.tasks && s.rt.tasks[s.disps[d].task].status == T.NOBITS
  }

  /** The steps of the reactor. */
  function WakeSteps(th: T.Thread, d: nat): seq<(T.Thread, Action)>
  {
    [(th, Notify(d)), (th, NotifyWake), (th, Runtime(T.WakeOr)), (th, Runtime(T.Schedule))]
  }

  lemma NotifyOwes(s: State, th: T.Thread, d: nat, s': State)
    requires Waits(s, d) && Step(s, th, Notify(d), s')
    ensures th.Outside? && th.x in s'.owing && s'.owing[th.x] == d && s'.rt == s.rt
    ensures d in s'.disps && s'.disps[d] == s.disps[d].(status := 3, event := true)
  {
  }

  lemma OwedWakeStarts(s: State, th: T.Thread, d: nat)
    requires Inv(s) && th.Outside? && th.x in s.owing && s.owing[th.x] == d && d in s.disps
    ensures Enabled(s, th, NotifyWake)
    ensures var disp, s' := s.disps[d], Next(s, th, NotifyWake);
            && s' == s.(rt := s'.rt, owing := s.owing - {th.x}) && s'.rt.tasks == s.rt.tasks
            && s'.rt == s.rt.(tasks := s'.rt.tasks, pcs := s.rt.pcs[th := T.Waking(disp.task, disp.waker, false)])
  {
    assert OwingOk(s, th.x);
    OwedWakeIsSafe(s, th);
  }

  lemma WakeSchedules(s: State, th: T.Thread, t: nat, k: nat)
    requires th.Outside? && th.x !in s.owing && t in s.rt.tasks && s.rt.tasks[t].status == T.NOBITS
    requires T.PcOf(s.rt.pcs, th) == T.Waking(t, k, false)
    ensures Enabled(s, th, Runtime(T.WakeOr))
    ensures var s' := Next(s, th, Runtime(T.WakeOr));
            && t in s'.rt.tasks && s'.rt.tasks[t].status == T.Status(true, true, false)
            && s'.rt.tasks[t].workerId == s.rt.tasks[t].workerId && s'.rt.lists == s.rt.lists
            && s'.rt.batchers == s.rt.batchers && s'.owing == s.owing
            && T.PcOf(s'.rt.pcs, th) == T.Scheduling(t, k, false)
  {
  }

  lemma ScheduleLists(s: State, th: T.Thread, t: nat, k: nat, p: T.Place)
    requires th.Outside? && th.x !in s.owing && t in s.rt.tasks && T.PcOf(s.rt.pcs, th) == T.Scheduling(t, k, false)
    requires p in s.rt.lists && p == T.WakeTarget(s.rt, th, s.rt.tasks[t])
    ensures Enabled(s, th, Runtime(T.Schedule))
    ensures var s' := Next(s, th, Runtime(T.Schedule));
            p in s'.rt.lists && s'.rt.lists[p] == s.rt.lists[p] + [t] && T.PcOf(s'.rt.pcs, th).Rest?
  {
    TO.TaskListAfter(s.rt, th, T.Schedule, p);
  }

  lemma WakeTargetExists(s: State, th: T.Thread, t: nat)
    requires Inv(s) && t in s.rt.tasks
    ensures T.WakeTarget(s.rt, th, s.rt.tasks[t]) in s.rt.lists
  {
    assert T.TaskOk(s.rt, t);
  }

  lemma FourSteps(s: State, s1: State, s2: State, s3: State, s4: State, th: T.Thread, d: nat)
    requires Step(s, th, Notify(d), s1) && Step(s1, th, NotifyWake, s2)
    requires Step(s2, th, Runtime(T.WakeOr), s3) && Step(s3, th, Runtime(T.Schedule), s4)
    ensures Runs(s, WakeSteps(th, d), s4)
  {
    var path, trace := [s, s1, s2, s3, s4], WakeSteps(th, d);
    forall i | 0 <= i < |trace|
      ensures Step(path[i], trace[i].0, trace[i].1, path[i + 1])
    {
      assert i == 0 || i == 1 || i == 2 || i == 3;
    }
    assert IsRun(path, trace) && path[|trace|] == s4;
  }

  /** The reactor is about to wake task `t`, and nothing else has happened to it. */
  predicate AboutToWake(s: State, s': State, th: T.Thread, t: nat, k: nat)
  {
    && th.Outside? && th.x !in s'.owing && T.PcOf(s'.rt.pcs, th) == T.Waking(t, k, false)
    && s'.rt.tasks == s.rt.tasks && s'.rt.lists == s.rt.lists && s'.rt.batchers == s.rt.batchers
  }

  lemma EventStartsWake(s: State, th: T.Thread, d: nat) returns (s1: State, s2: State)
    requires Inv(s) && Waits(s, d) && Enabled(s, th, Notify(d))
    ensures Step(s, th, Notify(d), s1) && Step(s1, th, NotifyWake, s2)
    ensures AboutToWake(s, s2, th, s.disps[d].task, s.disps[d].waker)
  {
    s1 := Next(s, th, Notify(d));
    StepKeepsInv(s, th, Notify(d));
    NotifyOwes(s, th, d, s1);
    OwedWakeStarts(s1, th, d);
    s2 := Next(s1, th, NotifyWake);
  }

  lemma WakeEnqueues(s: State, s2: State, th: T.Thread, t: nat, k: nat, p: T.Place) returns (s3: State, s4: State)
    requires AboutToWake(s, s2, th, t, k) && t in s.rt.tasks && s.rt.tasks[t].status == T.NOBITS
    requires p in s.rt.lists && p == T.WakeTarget(s.rt, th, s.rt.tasks[t])
    ensures Step(s2, th, Runtime(T.WakeOr), s3) && Step(s3, th, Runtime(T.Schedule), s4)
    ensures p in s4.rt.lists && s4.rt.lists[p] == s.rt.lists[p] + [t]
  {
    WakeSchedules(s2, th, t, k);
    s3 := Next(s2, th, Runtime(T.WakeOr));
    ScheduleLists(s3, th, t, k, p);
    s4 := Next(s3, th, Runtime(T.Schedule));
  }

  /** An event wakes the task that waits for it: four steps of the reactor after the event, the task is at the end of
      the list for its worker, for a reactor its own batch list. */
  lemma EventWakesWaitingTask(s: State, th: T.Thread, d: nat) returns (s': State)
    requires Reachable(s) && Waits(s, d) && Enabled(s, th, Notify(d))
    ensures Runs(s, WakeSteps(th, d), s')
    ensures var t := s.disps[d].task; var p := T.WakeTarget(s.rt, th, s.rt.tasks[t]);
            p in s.rt.lists && p in s'.rt.lists && s'.rt.lists[p] == s.rt.lists[p] + [t]
  {
    var t := s.disps[d].task;
    var p := T.WakeTarget(s.rt, th, s.rt.tasks[t]);
    ReachableHasInv(s);
    WakeTargetExists(s, th, t);
    var s1, s2 := EventStartsWake(s, th, d);
    var s3, s4 := WakeEnqueues(s, s2, th, t, s.disps[d].waker, p);
    FourSteps(s, s1, s2, s3, s4, th, d);
    s' := s4;
  }

  // ----- `io_poll!` -----

  /** The I/O succeeds or fails for good: the future leaves `io_poll!` after one try. */
  lemma SuccessLeaves(s: State, th: T.Thread, d: nat) returns (s': State)
    requires Enabled(s, th, Enter(d))
    ensures Runs(s, [(th, Enter(d)), (th, Prepare(d)), (th, Done(d))], s')
    ensures d in s'.disps && s'.disps[d] == s.disps[d].(status := 1, event := false, tries := s.disps[d].tries + 1)
  {
    var s1 := Next(s, th, Enter(d));
    var s2 := Next(s1, th, Prepare(d));
    s' := Next(s2, th, Done(d));
    assert Step(s, th, Enter(d), s1) && Step(s1, th, Prepare(d), s2) && Step(s2, th, Done(d), s');
    assert IsRun([s, s1, s2, s'], [(th, Enter(d)), (th, Prepare(d)), (th, Done(d))]);
  }

  /** The I/O would block, and no event comes: the future goes to wait, with status 0. */
  lemma BlockingWaits(s: State, th: T.Thread, d: nat) returns (s': State)
    requires Enabled(s, th, Prepare(d))
    ensures Runs(s, [(th, Prepare(d)), (th, WouldBlock(d)), (th, Wait(d))], s')
    ensures d in s'.disps &&
            s'.disps[d] == s.disps[d].(status := 0, event := false, tries := s.disps[d].tries + 1, io := Suspending)
  {
    var s1 := Next(s, th, Prepare(d));
    var s2 := Next(s1, th, WouldBlock(d));
    s' := Next(s2, th, Wait(d));
    assert Step(s, th, Prepare(d), s1) && Step(s1, th, WouldBlock(d), s2) && Step(s2, th, Wait(d), s');
    assert IsRun([s, s1, s2, s'], [(th, Prepare(d)), (th, WouldBlock(d)), (th, Wait(d))]);
  }

  /** A future that waits tries again in its next poll. */
  lemma PollRetries(s: State, th: T.Thread, d: nat)
    requires Reachable(s) && d in s.disps && s.disps[d].io.Suspended? && Enabled(s, th, Runtime(T.Call))
    requires PcOf(s, th) == T.Calling(s.disps[d].task)
    ensures Enabled(Next(s, th, Runtime(T.Call)), th, Prepare(d))
  {
    ReachableHasInv(s);
    assert IoOk(s, d);
  }

  // ----- giving up -----

  /** The dispatchers on which the future of task `t` is inside `io_poll!`. */
  function Busy(s: State, t: nat): set<nat>
  {
    set d | d in s.disps && s.disps[d].task == t && !s.disps[d].io.Elsewhere?
  }

  lemma GivingUpHelps(s: State, th: T.Thread, d: nat)
    requires Inv(s) && d in s.disps && !s.disps[d].io.Elsewhere? && PcOf(s, th) == T.Polling(s.disps[d].task)
    ensures Enabled(s, th, Cancel(d))
    ensures Busy(Next(s, th, Cancel(d)), s.disps[d].task) == Busy(s, s.disps[d].task) - {d}
    ensures Next(s, th, Cancel(d)).rt == s.rt && Next(s, th, Cancel(d)).owing == s.owing
  {
    assert IoOk(s, d);
  }

  lemma ThenReturns(s: State, th: T.Thread, t: nat)
    requires PcOf(s, th) == T.Polling(t) && Busy(s, t) == {} && !Owes(s, th)
    ensures Enabled(s, th, Runtime(T.Ready))
  {
    assert forall d :: d in s.disps && s.disps[d].task == t && !s.disps[d].io.Elsewhere? ==> d in Busy(s, t);
  }

  /** A future in its poll can give up all its waits, one after the other, and then return `Ready`. */
  lemma {:induction false} FutureCanFinish(s: State, th: T.Thread, t: nat)
    returns (trace: seq<(T.Thread, Action)>, s': State)
    requires Inv(s) && PcOf(s, th) == T.Polling(t) && !Owes(s, th)
    ensures Runs(s, trace, s') && |trace| == |Busy(s, t)| && Enabled(s', th, Runtime(T.Ready))
    decreases |Busy(s, t)|
  {
    if Busy(s, t) == {} {
      trace, s' := [], s;
      assert IsRun([s], trace);
      ThenReturns(s, th, t);
    } else {
      var d :| d in Busy(s, t);
      GivingUpHelps(s, th, d);
      var s1 := Next(s, th, Cancel(d));
      StepKeepsInv(s, th, Cancel(d));
      var rest;
      rest, s' := FutureCanFinish(s1, th, t);
      trace := [(th, Cancel(d))] + rest;
      StepThenRuns(s, th, Cancel(d), s1, rest, s');
    }
  }

  lemma StepThenRuns(s: State, th: T.Thread, a: Action, s1: State, rest: seq<(T.Thread, Action)>, s': State)
    requires Step(s, th, a, s1) && Runs(s1, rest, s')
    ensures Runs(s, [(th, a)] + rest, s')
  {
    var path :| IsRun(path, rest) && path[0] == s1 && path[|rest|] == s';
    StepThenPath(s, th, a, path, rest);
    assert ([s] + path)[|[(th, a)] + rest|] == s';
  }

  lemma StepThenPath(s: State, th: T.Thread, a: Action, path: seq<State>, rest: seq<(T.Thread, Action)>)
    requires IsRun(path, rest) && Step(s, th, a, path[0])
    ensures IsRun([s] + path, [(th, a)] + rest)
  {
  }

  // ----- the life of a dispatcher -----

  /** A new dispatcher is linked into its slot, and then its future can enter `io_poll!` on it. */
  lemma NewDispatcherCanBeUsed(s: State, th: T.Thread, d: nat, k: nat, r: nat) returns (s': State)
    requires Enabled(s, th, NewDispatcher(d, k, r)) && r !in s.locked
    ensures Runs(s, [(th, NewDispatcher(d, k, r)), (th, LinkIn(d))], s')
    ensures d in s'.disps && s'.disps[d].link.Linked? && s'.disps[d].task == PcOf(s, th).t && s'.disps[d].status == 1
    ensures Enabled(s', th, Enter(d))
  {
    var s1 := Next(s, th, NewDispatcher(d, k, r));
    s' := Next(s1, th, LinkIn(d));
    assert Step(s, th, NewDispatcher(d, k, r), s1) && Step(s1, th, LinkIn(d), s');
    assert IsRun([s, s1, s'], [(th, NewDispatcher(d, k, r)), (th, LinkIn(d))]);
  }

  /** A dispatcher that is not in use can be unlinked, and then its memory be dropped. */
  lemma UnlinkedCanBeFreed(s: State, th: T.Thread, d: nat)
    requires Enabled(s, th, Unlink(d)) && th.Outside? && th.x !in s.owing && PcOf(s, th).Rest?
    ensures Enabled(Next(s, th, Unlink(d)), th, Free(d))
    ensures Next(s, th, Unlink(d)) == s.(disps := s.disps[d := s.disps[d].(link := Unlinked)])
  {
  }

  /** `del` drops the waker with the dispatcher's memory: the thread goes on with the waker's drop, of which
      `TaskLifeOperations.EndedWakerGoes` proves that it ends the waker. */
  lemma FreeingDropsTheWaker(s: State, th: T.Thread, d: nat)
    requires Reachable(s) && Enabled(s, th, Free(d))
    ensures var disp, s' := s.disps[d], Next(s, th, Free(d));
            && d in s'.disps && s'.disps[d] == disp.(link := Freed) && !s'.broken
            && T.Enabled(s.rt, th, T.StartDrop(disp.task, disp.waker))
            && PcOf(s', th) == T.Unref(disp.task, disp.waker)
  {
    ReachableHasInv(s);
    assert WakerOk(s, d);
    UnlinkedIsUnused(s, d);
  }
}
