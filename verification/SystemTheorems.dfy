/** What holds in every reachable state of the whole system: nobody sleeps on a wake or on an event, work always goes
    on, and no worker misses shutdown. */
module SystemTheorems {
  import P = Parking
  import PI = ParkingInvariant
  import PT = ParkingTheorems
  import T = TaskLife
  import R = Readiness
  import RI = ReadinessInvariant
  import opened System
  import opened SystemInvariant

  // ----- nobody sleeps on work -----

  /** A reactor never blocks in `poll` with a task in a batch list, whatever the workers and other threads did
      meanwhile. */
  lemma PollingReactorHasNoTask(c: State, x: nat, w: nat)
    requires Reachable(c) && x in c.loops && c.loops[x].InPoll? && T.Batch(x, w) in c.io.rt.lists
    ensures c.io.rt.lists[T.Batch(x, w)] == []
  {
    RunsProject(c);
    RI.ReachableHasInv(c.io);
    assert LoopOk(c, x);
  }

  /** Every reactor is in `poll`, and no other outside thread is inside an operation. */
  ghost predicate OutsideIdle(c: State)
  {
    && (forall x :: x in c.loops ==> c.loops[x].InPoll?)
    && (forall x: nat :: x !in c.loops ==>
          TaskPc(c, T.Outside(x)).Rest? && (Exists(c, T.Outside(x)) ==> ParkPc(c, T.Outside(x)).Running?))
  }

  predicate Asleep(c: State)
  {
    P.Shape(c.park) && forall w: nat :: w < c.park.n ==> c.park.pcs[w].Parked?
  }

  /** What follows for the outside threads. */
  lemma OutsideIsQuiet(c: State)
    requires LoopsOk(c) && OutsideIdle(c) && P.Shape(c.park)
    ensures PT.OutsideQuiet(c.park)
    ensures forall x: nat :: TaskPc(c, T.Outside(x)).Rest? && x !in c.io.locked
    ensures forall x: nat, w: nat :: w < c.park.n && x in c.loops && T.Batch(x, w) in c.io.rt.lists ==>
              c.io.rt.lists[T.Batch(x, w)] == []
  {
    forall i | c.park.n <= i < |c.park.pcs|
      ensures c.park.pcs[i].Running?
    {
      var x := i - c.park.n;
      assert x in c.loops ==> LoopOk(c, x);
      assert ParkPc(c, T.Outside(x)).Running?;
    }
    forall x: nat
      ensures TaskPc(c, T.Outside(x)).Rest? && x !in c.io.locked
    {
      assert x in c.loops ==> LoopOk(c, x);
    }
  }

  /** A live task that nobody has in hand and that is in no list is idle, and its last wake was answered. */
  lemma UnlistedIsAnswered(rt: T.State, t: nat)
    requires t in rt.tasks && T.TaskOk(rt, t) && !rt.tasks[t].status.dropped
    requires forall p :: p in rt.lists ==> rt.lists[p] == []
    requires forall th :: !T.Holds(T.PcOf(rt.pcs, th))
    ensures rt.tasks[t].status == T.NOBITS && rt.tasks[t].wokeAt < rt.tasks[t].polls
  {
  }

  lemma NoListHoldsATask(c: State)
    requires Agreed(c) && LoopsOk(c) && T.ListsOk(c.io.rt) && OutsideIdle(c)
    requires forall w: nat :: w < c.park.n ==> c.park.queues[w] == []
    ensures forall p :: p in c.io.rt.lists ==> c.io.rt.lists[p] == []
  {
    OutsideIsQuiet(c);
    forall w: nat | w < c.park.n
      ensures T.Queue(w) in c.io.rt.lists && c.io.rt.lists[T.Queue(w)] == []
    {
      assert AgreeOn(c, w);
    }
  }

  lemma SleeperHoldsNothing(c: State, th: T.Thread)
    requires Agreed(c) && Asleep(c) && T.ThreadOk(c.io.rt, th, TaskPc(c, th)) && (th.Outside? ==> TaskPc(c, th).Rest?)
    ensures !T.Holds(TaskPc(c, th))
  {
    if th.Worker? && th.w < c.park.n {
      assert AgreeOn(c, th.w);
    }
  }

  lemma SleepersHoldNothing(c: State)
    requires Agreed(c) && LoopsOk(c) && Asleep(c) && OutsideIdle(c) && T.ThreadsOk(c.io.rt)
    ensures forall th :: !T.Holds(T.PcOf(c.io.rt.pcs, th))
  {
    OutsideIsQuiet(c);
    forall th
      ensures !T.Holds(T.PcOf(c.io.rt.pcs, th))
    {
      assert th.Outside? ==> TaskPc(c, T.Outside(th.x)).Rest?;
      SleeperHoldsNothing(c, th);
    }
  }

  lemma SleepingTaskIsAnswered(c: State, t: nat)
    requires Agreed(c) && LoopsOk(c) && Asleep(c) && OutsideIdle(c) && T.ListsOk(c.io.rt) && T.ThreadsOk(c.io.rt)
    requires forall w: nat :: w < c.park.n ==> c.park.queues[w] == []
    requires t in c.io.rt.tasks && T.TaskOk(c.io.rt, t) && !c.io.rt.tasks[t].status.dropped
    ensures c.io.rt.tasks[t].status == T.NOBITS && c.io.rt.tasks[t].wokeAt < c.io.rt.tasks[t].polls
  {
    NoListHoldsATask(c);
    SleepersHoldNothing(c);
    UnlistedIsAnswered(c.io.rt, t);
  }

  /** When all workers are parked, every reactor is in `poll` and no other thread is inside an operation, every live
      task is idle with status 0, and its future was polled after its last wake: nobody sleeps on a wake. */
  lemma NobodySleepsOnAWake(c: State, t: nat)
    requires Reachable(c) && Asleep(c) && OutsideIdle(c) && t in c.io.rt.tasks && !c.io.rt.tasks[t].status.dropped
    ensures c.io.rt.tasks[t].status == T.NOBITS && c.io.rt.tasks[t].wokeAt < c.io.rt.tasks[t].polls
  {
    RunsProject(c);
    OutsideIsQuiet(c);
    PT.AllParkedMeansAllEmpty(c.park);
    RI.ReachableHasInv(c.io);
    SleepingTaskIsAnswered(c, t);
  }

  lemma NothingOwed(c: State, t: nat)
    requires LoopsOk(c) && P.Shape(c.park) && OutsideIdle(c) && T.ThreadsOk(c.io.rt) && R.IoInv(c.io)
    ensures !R.OwesWake(c.io, t)
  {
  }

  /** And nobody sleeps on an event: on every dispatcher that a future waits on in `wait_io` there was none since
      `prepare_io`, and the dispatcher's status is 0, so that the next event wakes the task. */
  lemma NobodySleepsOnAnEvent(c: State, d: nat)
    requires Reachable(c) && Asleep(c) && OutsideIdle(c) && d in c.io.disps && c.io.disps[d].io.Suspended?
    ensures c.io.disps[d].status == 0 && !c.io.disps[d].event
  {
    RunsProject(c);
    RI.ReachableHasInv(c.io);
    assert R.IoOk(c.io, d);
    NobodySleepsOnAWake(c, c.io.disps[d].task);
    NothingOwed(c, c.io.disps[d].task);
    RI.IdleMeansNoEvent(c.io, d);
  }

  // ----- progress -----

  /** The step a worker can take with the task in its hands, outside the future's poll. */
  function OwnStep(pc: T.Pc): T.Action
  {
    match pc
    case Stolen(_) => T.SetId
    case Held(_) => T.Begin
    case Calling(_) => T.Call
    case Settling(_, _) => T.Cas
    case Finishing(_) => T.MarkDropped
    case Dropping(_) => T.DropFuture
    case Releasing(_) => T.Release
    case _ => T.Dealloc
  }

  /** What the worker's own step needs is there. */
  lemma OwnActionIsEnabled(s: P.State, w: nat)
    requires P.Reachable(s) && P.Shape(s) && w < s.n && !s.pcs[w].Parked? && !s.pcs[w].Exited?
    ensures var a := if s.pcs[w].Running? then P.Finish else PT.OwnAction(s.pcs[w]);
            P.Enabled(s, w, a) && PI.RangeLaw(s, w, P.MoveOf(s, w, a))
  {
    PI.ReachableHasInv(s);
    assert P.PcOk(s.n, s.bumps, true, s.pcs[w]);
    ParkLaws(s, w, if s.pcs[w].Running? then P.Finish else PT.OwnAction(s.pcs[w]));
  }

  /** A worker whose hands are empty can go on in `main_loop`. */
  lemma FreeWorkerGoesOn(c: State, w: nat)
    requires P.Reachable(c.park) && Agreed(c) && w < c.park.n && TaskPc(c, T.Worker(w)).Rest?
    requires !c.park.pcs[w].Parked? && !c.park.pcs[w].Exited?
    ensures exists act :: Enabled(c, T.Worker(w), act)
  {
    var pc := c.park.pcs[w];
    var a := if pc.Running? then P.Finish else PT.OwnAction(pc);
    OwnActionIsEnabled(c.park, w);
    OwnActionFits(c, w, a);
    var m := P.MoveOf(c.park, w, a);
    assert Enabled(c, T.Worker(w), if m.Take? then Both(a, T.Pop(m.q)) else Sched(a));
  }

  lemma OwnActionFits(c: State, w: nat, a: P.Action)
    requires Agreed(c) && w < c.park.n && TaskPc(c, T.Worker(w)).Rest?
    requires !c.park.pcs[w].Parked? && !c.park.pcs[w].Exited?
    requires a == if c.park.pcs[w].Running? then P.Finish else PT.OwnAction(c.park.pcs[w])
    requires P.Enabled(c.park, w, a) && PI.RangeLaw(c.park, w, P.MoveOf(c.park, w, a))
    ensures SchedFits(a, T.Rest) && !P.MoveOf(c.park, w, a).Push?
    ensures P.MoveOf(c.park, w, a).Take? ==> R.RuntimeEnabled(c.io, T.Worker(w), T.Pop(P.MoveOf(c.park, w, a).q))
  {
    assert AgreeOn(c, w);
    var m := P.MoveOf(c.park, w, a);
    assert m.Take? ==> AgreeOn(c, m.q);
  }

  /** A worker with a task in its hands goes on with it, or activates itself first. */
  lemma BusyWorkerGoesOn(c: State, w: nat)
    requires Agreed(c) && w < c.park.n
    requires !TaskPc(c, T.Worker(w)).Rest? && !TaskPc(c, T.Worker(w)).Polling?
    ensures exists act :: Enabled(c, T.Worker(w), act)
  {
    var th, pc, task := T.Worker(w), c.park.pcs[w], TaskPc(c, T.Worker(w));
    assert AgreeOn(c, w);
    if pc.Holding? && task.Held? {
      assert Enabled(c, th, Sched(P.SetActive));
    } else if P.Activator(pc) {
      assert Enabled(c, th, Sched(P.UnparkAll));
    } else {
      assert Enabled(c, th, Work(R.Runtime(OwnStep(task))));
    }
  }

  lemma {:induction false} FreshName(s: set<nat>) returns (t: nat)
    ensures forall x :: x in s ==> x < t
    decreases |s|
  {
    if s == {} {
      t := 0;
    } else {
      var x :| x in s;
      var u := FreshName(s - {x});
      t := if x < u then u else x + 1;
      assert forall y :: y in s ==> y == x || y in s - {x};
    }
  }

  /** A worker inside the poll of a shutdown future, or of one that spawns or requests shutdown, goes on with that. */
  lemma InsideOperationGoesOn(c: State, w: nat)
    requires P.Reachable(c.park) && Agreed(c) && w < c.park.n && TaskPc(c, T.Worker(w)).Polling?
    requires !c.park.pcs[w].Running? && !c.park.pcs[w].Test?
    ensures exists act :: Enabled(c, T.Worker(w), act)
  {
    var th, pc := T.Worker(w), c.park.pcs[w];
    assert AgreeOn(c, w);
    OwnActionIsEnabled(c.park, w);
    var a := PT.OwnAction(pc);
    var m := P.MoveOf(c.park, w, a);
    if m.Push? {
      var t := FreshName(c.io.rt.tasks.Keys);
      assert AgreeOn(c, m.q);
      assert T.Enabled(c.io.rt, th, T.Create(t, m.q, m.front));
      assert Enabled(c, th, Both(a, T.Create(t, m.q, m.front)));
    } else {
      assert Enabled(c, th, Sched(a));
    }
  }

  lemma WaitCanBeGivenUp(c: State, w: nat, d: nat)
    requires Exists(c, T.Worker(w)) && d in c.io.disps && R.IoOk(c.io, d) && !c.io.disps[d].io.Elsewhere?
    requires TaskPc(c, T.Worker(w)) == T.Polling(c.io.disps[d].task)
    ensures Enabled(c, T.Worker(w), Work(R.Cancel(d)))
  {
  }

  lemma FutureCanReturn(c: State, w: nat)
    requires Exists(c, T.Worker(w)) && TaskPc(c, T.Worker(w)).Polling? && R.AllIo(c.io, TaskPc(c, T.Worker(w)).t, false)
    requires ParkPc(c, T.Worker(w)).Running? || ParkPc(c, T.Worker(w)).Test?
    ensures Enabled(c, T.Worker(w), Work(R.Runtime(T.Ready)))
  {
  }

  /** A future can give up its waits, and return `Ready`. */
  lemma FutureGoesOn(c: State, w: nat)
    requires Agreed(c) && R.IoInv(c.io) && w < c.park.n && TaskPc(c, T.Worker(w)).Polling?
    requires c.park.pcs[w].Running? || c.park.pcs[w].Test?
    ensures exists act :: Enabled(c, T.Worker(w), act)
  {
    var t := TaskPc(c, T.Worker(w)).t;
    if d :| d in c.io.disps && c.io.disps[d].task == t && !c.io.disps[d].io.Elsewhere? {
      assert R.IoOk(c.io, d);
      WaitCanBeGivenUp(c, w, d);
    } else {
      FutureCanReturn(c, w);
    }
  }

  /** A worker that is not parked and has not left can always take a step. */
  lemma WorkersAreNeverStuck(c: State, w: nat)
    requires Reachable(c) && P.Shape(c.park) && w < c.park.n && !c.park.pcs[w].Parked? && !c.park.pcs[w].Exited?
    ensures exists act :: Enabled(c, T.Worker(w), act)
  {
    RunsProject(c);
    RI.ReachableHasInv(c.io);
    if TaskPc(c, T.Worker(w)).Rest? {
      FreeWorkerGoesOn(c, w);
    } else if !TaskPc(c, T.Worker(w)).Polling? {
      BusyWorkerGoesOn(c, w);
    } else if c.park.pcs[w].Running? || c.park.pcs[w].Test? {
      FutureGoesOn(c, w);
    } else {
      InsideOperationGoesOn(c, w);
    }
  }

  /** A wake is worked on: if a live task was woken and not polled since, every reactor is in `poll` and no other
      thread is inside an operation, then some worker can take a step; unless somebody has called `shutdown_async`, and
      all workers have left with their shutdown flags set. */
  lemma WokenTaskMeansSomeWorkerGoesOn(c: State, t: nat)
    requires Reachable(c) && P.Shape(c.park) && OutsideIdle(c)
    requires t in c.io.rt.tasks && !c.io.rt.tasks[t].status.dropped && c.io.rt.tasks[t].wokeAt == c.io.rt.tasks[t].polls
    ensures || (c.park.called && forall w: nat :: w < c.park.n ==> c.park.pcs[w].Exited? && c.park.flags[w])
            || exists w: nat, act :: w < c.park.n && Enabled(c, T.Worker(w), act)
  {
    if w: nat :| w < c.park.n && !c.park.pcs[w].Parked? && !c.park.pcs[w].Exited? {
      WorkersAreNeverStuck(c, w);
    } else if p: nat, e: nat :| p < c.park.n && e < c.park.n && c.park.pcs[p].Parked? && c.park.pcs[e].Exited? {
      RunsProject(c);
      var u := PT.SleeperBesideLeaver(c.park, p, e);
      assert false;
    } else if Asleep(c) {
      NobodySleepsOnAWake(c, t);
      assert false;
    } else {
      RunsProject(c);
      PT.NobodyLeavesUncalled(c.park);
    }
  }

  // ----- shutdown -----

  /** Thread `v` has a shutdown task in hand, whose poll will still reach worker `w`. */
  predicate Brings(c: State, v: nat, w: nat)
    requires P.Shape(c.park)
  {
    && v < c.park.n && P.WillReach(c.park.pcs[v], v, w)
    && !TaskPc(c, T.Worker(v)).Rest? && TaskPc(c, T.Worker(v)).t in c.shutdowns
  }

  lemma ReachingIsBringing(c: State, v: nat, w: nat)
    requires P.Reachable(c.park) && Agreed(c) && v < |c.park.pcs| && P.WillReach(c.park.pcs[v], v, w)
    ensures Brings(c, v, w)
  {
    PI.ReachableHasInv(c.park);
    assert P.PcOk(c.park.n, c.park.bumps, v < c.park.n, c.park.pcs[v]);
    assert AgreeOn(c, v);
  }

  /** After `shutdown_async`, every worker is flagged, or a task with a shutdown future is in its own queue, or some
      worker has one in hand whose poll will still reach it, however tasks were stolen, polled, woken and flushed
      since. */
  lemma ShutdownReachesEveryWorker(c: State, w: nat)
    requires Reachable(c) && P.Shape(c.park) && c.park.requested && w < c.park.n
    ensures T.Queue(w) in c.io.rt.lists
    ensures || c.park.flags[w]
            || (exists t :: t in c.io.rt.lists[T.Queue(w)] && t in c.shutdowns)
            || exists v: nat :: Brings(c, v, w)
  {
    RunsProject(c);
    PT.ShutdownIsNeverLost(c.park, w);
    assert AgreeOn(c, w);
    if P.Shutdown in c.park.queues[w] {
      var i :| 0 <= i < |c.park.queues[w]| && c.park.queues[w][i] == P.Shutdown;
      var t := c.io.rt.lists[T.Queue(w)][i];
      assert t in c.io.rt.lists[T.Queue(w)] && t in c.shutdowns;
    } else if v: nat :| v < |c.park.pcs| && P.WillReach(c.park.pcs[v], v, w) {
      ReachingIsBringing(c, v, w);
    }
  }
}
