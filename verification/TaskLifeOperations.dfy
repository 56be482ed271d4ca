/** What the operations of the task life cycle do, said of the states before and after them, and what follows for whole
    runs: a future is polled no more often than it is woken, a task that nobody woke goes idle, a popped task is polled,
    a waker that is ended is gone, and a task is scheduled where it was last stolen to. */
module TaskLifeOperations {
  import opened TaskLife
  import opened TaskLifeInvariant
  import opened TaskLifeTheorems

  /** The effect of a step. */
  ghost function EffectAt(s: State, th: Thread, a: Action): Effect
    requires Enabled(s, th, a) && !a.Flush?
  {
    EffectOf(s, th, a, TaskAt(s, Subject(s, th, a)))
  }

  /** What the invariant says of a step: it is lawful, and of its thread. */
  lemma StepIsLawful(s: State, th: Thread, a: Action)
    requires Inv(s) && Enabled(s, th, a) && !a.Flush?
    ensures EffectLaw(s, th, Subject(s, th, a), EffectAt(s, th, a)) && ThreadOk(s, th, PcOf(s.pcs, th))
    ensures forall t :: t in s.tasks ==> TaskOk(s, t)
  {
    var t := Subject(s, th, a);
    assert ThreadOk(s, th, PcOf(s.pcs, th));
    assert t in s.tasks ==> TaskOk(s, t);
    EffectIsLawful(s, th, a);
  }

  // ----- a future is polled no more often than it is woken -----

  /** The step calls the poll of task `t`'s future. */
  predicate Calls(s: State, th: Thread, a: Action, t: nat)
  {
    a.Call? && PcOf(s.pcs, th) == Calling(t)
  }

  /** The step is the atomic operation of a `wake` of task `t`. */
  predicate Wakes(s: State, th: Thread, a: Action, t: nat)
  {
    a.WakeOr? && PcOf(s.pcs, th).Waking? && PcOf(s.pcs, th).t == t
  }

  function CallsIn(path: seq<State>, trace: seq<(Thread, Action)>, t: nat, i: nat): nat
    requires i <= |trace| < |path|
  {
    if i == 0 then 0
    else CallsIn(path, trace, t, i - 1) + if Calls(path[i - 1], trace[i - 1].0, trace[i - 1].1, t) then 1 else 0
  }

  function WakesIn(path: seq<State>, trace: seq<(Thread, Action)>, t: nat, i: nat): nat
    requires i <= |trace| < |path|
  {
    if i == 0 then 0
    else WakesIn(path, trace, t, i - 1) + if Wakes(path[i - 1], trace[i - 1].0, trace[i - 1].1, t) then 1 else 0
  }

  /** The polls that are still due: one if NOTIFIED is set, and one if a poll is about to be called. */
  function Due(pcs: map<Thread, Pc>, task: Task, t: nat): nat
  {
    (if task.status.notified && !task.status.dropped then 1 else 0) +
    (if task.place.Hand? && PcOf(pcs, task.place.th) == Calling(t) then 1 else 0)
  }

  function DueAt(s: State, t: nat): nat
  {
    if t in s.tasks then Due(s.pcs, s.tasks[t], t) else 0
  }

  /** What a step on task `t` does to the polls that are due. */
  lemma OwnDue(s: State, th: Thread, a: Action, t: nat)
    requires Enabled(s, th, a) && !a.Flush? && !a.Create? && t in s.tasks && Subject(s, th, a) == t
    requires TaskOk(s, t) && ThreadOk(s, th, PcOf(s.pcs, th))
    ensures var e := EffectAt(s, th, a);
            Due(s.pcs[th := e.pc], e.task, t) + (if Calls(s, th, a, t) then 1 else 0) <=
            Due(s.pcs, s.tasks[t], t) + if Wakes(s, th, a, t) then 1 else 0
  {
  }

  /** A step on another task changes nothing. */
  lemma OthersDue(s: State, th: Thread, u: nat, e: Effect, t: nat)
    requires EffectLaw(s, th, u, e) && t in s.tasks && u != t && TaskOk(s, t)
    ensures var s' := Apply(s, th, u, e);
            t in s'.tasks && Due(s'.pcs, s'.tasks[t], t) == Due(s.pcs, s.tasks[t], t)
  {
  }

  /** A task that does not exist is not called or woken. */
  lemma NothingBeforeCreation(s: State, th: Thread, a: Action, t: nat)
    requires Enabled(s, th, a) && t !in s.tasks && ThreadOk(s, th, PcOf(s.pcs, th))
    ensures !Calls(s, th, a, t) && !Wakes(s, th, a, t)
  {
  }

  /** A created task is due one poll. */
  lemma CreatedIsDueOnce(s: State, th: Thread, a: Action, t: nat)
    requires Enabled(s, th, a) && t !in s.tasks && ThreadOk(s, th, PcOf(s.pcs, th))
    ensures !Calls(s, th, a, t) && !Wakes(s, th, a, t)
    ensures DueAt(Next(s, th, a), t) <= if t in Next(s, th, a).tasks then 1 else 0
  {
    NothingBeforeCreation(s, th, a, t);
  }

  lemma DueStep(s: State, th: Thread, a: Action, t: nat)
    requires Inv(s) && Enabled(s, th, a) && t in s.tasks
    ensures t in Next(s, th, a).tasks
    ensures DueAt(Next(s, th, a), t) + (if Calls(s, th, a, t) then 1 else 0) <=
            DueAt(s, t) + if Wakes(s, th, a, t) then 1 else 0
  {
    if !a.Flush? {
      StepIsLawful(s, th, a);
      if Subject(s, th, a) == t && !a.Create? {
        OwnDue(s, th, a, t);
      } else {
        OthersDue(s, th, Subject(s, th, a), EffectAt(s, th, a), t);
      }
    }
  }

  /** In every run from the start, a future is called once for its creation and once for each wake at most; and as long
      as a call is due, there is one call less. */
  lemma {:induction false} PollsAreEarned(path: seq<State>, trace: seq<(Thread, Action)>, t: nat, i: nat)
    requires IsRun(path, trace) && Inv(path[0]) && path[0].tasks == map[] && i <= |trace|
    ensures CallsIn(path, trace, t, i) + DueAt(path[i], t) <=
            WakesIn(path, trace, t, i) + if t in path[i].tasks then 1 else 0
  {
    if i > 0 {
      PollsAreEarned(path, trace, t, i - 1);
      PathKeepsInv(path, trace, i - 1);
      var s, th, a := path[i - 1], trace[i - 1].0, trace[i - 1].1;
      assert Step(s, th, a, path[i]);
      if t in s.tasks {
        DueStep(s, th, a, t);
      } else {
        assert ThreadOk(s, th, PcOf(s.pcs, th));
        CreatedIsDueOnce(s, th, a, t);
      }
    }
  }

  // ----- phases of a task -----

  /** A task that the thread is polling and that has not been woken since NOTIFIED was cleared, or that has gone idle,
      or come to its end, since. */
  predicate Unwoken(task: Task, pc: Pc, th: Thread, t: nat)
  {
    match task.place
    case Hand(h) =>
      h == th && ((task.status == MUTED && (pc == Polling(t) || pc == Settling(t, MUTED))) || Ended(pc, t))
    case Idle => true
    case Gone => true
    case _ => false
  }

  /** The future has returned `Ready`. */
  predicate Ended(pc: Pc, t: nat)
  {
    (pc.Finishing? || pc.Dropping? || pc.Releasing?) && pc.t == t
  }

  predicate Finished(task: Task, pc: Pc, th: Thread, t: nat)
  {
    task.place.Gone? || (task.place == Hand(th) && Ended(pc, t))
  }

  /** The worker has popped the task, and not yet called its future's poll. */
  predicate Popped(task: Task, pc: Pc, th: Thread, t: nat)
  {
    task.place == Hand(th) && (pc.Stolen? || pc.Held? || pc.Calling?) && pc.t == t
  }

  /** A compare-exchange of task `t`'s status by its poller. */
  predicate Settles(s: State, th: Thread, a: Action, t: nat)
  {
    a.Cas? && PcOf(s.pcs, th).Settling? && PcOf(s.pcs, th).t == t
  }

  /** A step on task `t`, by its holder `th` or some other thread `v`. */
  lemma PhasesOnTask(s: State, v: Thread, a: Action, th: Thread, t: nat)
    requires Enabled(s, v, a) && !a.Flush? && !a.Create? && Subject(s, v, a) == t && t in s.tasks && TaskOk(s, t)
    requires ThreadOk(s, v, PcOf(s.pcs, v)) && ListsOk(s)
    ensures var e, task, pc := EffectAt(s, v, a), s.tasks[t], PcOf(s.pcs, th); var pc' := if v == th then e.pc else pc;
            && (Finished(task, pc, th, t) ==> Finished(e.task, pc', th, t) && e.task.polls == task.polls)
            && (Popped(task, pc, th, t) && !(Popped(e.task, pc', th, t) && e.task.polls == task.polls) ==>
                  e.task.polls == task.polls + 1)
  {
  }

  lemma UnwokenOnTask(s: State, v: Thread, a: Action, th: Thread, t: nat)
    requires Enabled(s, v, a) && !a.Flush? && !a.Create? && Subject(s, v, a) == t && t in s.tasks && TaskOk(s, t)
    requires ThreadOk(s, v, PcOf(s.pcs, v)) && ListsOk(s) && !Wakes(s, v, a, t)
    ensures var e, task, pc := EffectAt(s, v, a), s.tasks[t], PcOf(s.pcs, th); var pc' := if v == th then e.pc else pc;
            && (Unwoken(task, pc, th, t) ==> Unwoken(e.task, pc', th, t) && e.task.polls == task.polls)
            && (Unwoken(task, pc, th, t) && Settles(s, v, a, t) ==> e.task.place.Idle? && e.task.status == NOBITS)
            && (task.place.Idle? ==> e.task.place.Idle?)
  {
  }

  /** A step on another task leaves this one, and its holder's program counter. */
  lemma ElsewhereNothingChanges(s: State, v: Thread, a: Action, t: nat)
    requires Inv(s) && Enabled(s, v, a) && t in s.tasks && (!a.Flush? ==> Subject(s, v, a) != t)
    ensures t in Next(s, v, a).tasks
    ensures s.tasks[t].place.Hand? || s.tasks[t].place.Idle? || s.tasks[t].place.Gone? ==>
              Next(s, v, a).tasks[t] == s.tasks[t]
    ensures s.tasks[t].place.Hand? ==> var th := s.tasks[t].place.th; PcOf(Next(s, v, a).pcs, th) == PcOf(s.pcs, th)
    ensures !Calls(s, v, a, t) && !Settles(s, v, a, t)
  {
    assert TaskOk(s, t);
    if a.Flush? {
      assert forall u :: u in s.lists[Batch(v.x, a.w)] ==> s.tasks[u].place == Batch(v.x, a.w);
    }
  }

  lemma UnwokenStep(s: State, v: Thread, a: Action, s': State, th: Thread, t: nat)
    requires Inv(s) && Step(s, v, a, s') && t in s.tasks && !Wakes(s, v, a, t)
    requires Unwoken(s.tasks[t], PcOf(s.pcs, th), th, t)
    ensures t in s'.tasks && Unwoken(s'.tasks[t], PcOf(s'.pcs, th), th, t) && s'.tasks[t].polls == s.tasks[t].polls
    ensures Settles(s, v, a, t) || s.tasks[t].place.Idle? ==> s'.tasks[t].place.Idle?
  {
    assert TaskOk(s, t) && ThreadOk(s, v, PcOf(s.pcs, v));
    if !a.Flush? && Subject(s, v, a) == t {
      UnwokenOnTask(s, v, a, th, t);
    } else {
      ElsewhereNothingChanges(s, v, a, t);
    }
  }

  predicate UnwokenUpTo(path: seq<State>, trace: seq<(Thread, Action)>, t: nat, i: nat)
    requires i <= |trace| < |path|
  {
    forall j :: 0 <= j < i ==> !Wakes(path[j], trace[j].0, trace[j].1, t)
  }

  predicate SettledIn(path: seq<State>, trace: seq<(Thread, Action)>, t: nat, i: nat)
    requires i <= |trace| < |path|
  {
    exists j :: 0 <= j < i && Settles(path[j], trace[j].0, trace[j].1, t)
  }

  /** The task has not been woken, nor its future called, since `polls` calls; and if it is `settled`, it is idle. */
  predicate Rested(s: State, th: Thread, t: nat, polls: nat, settled: bool)
  {
    && t in s.tasks && Unwoken(s.tasks[t], PcOf(s.pcs, th), th, t) && s.tasks[t].polls == polls
    && (settled ==> s.tasks[t].place.Idle?)
  }

  lemma RestedStep(s: State, v: Thread, a: Action, s': State, th: Thread, t: nat, polls: nat, settled: bool)
    requires Inv(s) && Step(s, v, a, s') && !Wakes(s, v, a, t) && Rested(s, th, t, polls, settled)
    ensures Rested(s', th, t, polls, settled || Settles(s, v, a, t))
  {
    UnwokenStep(s, v, a, s', th, t);
  }

  lemma SettledInSplit(path: seq<State>, trace: seq<(Thread, Action)>, t: nat, i: nat)
    requires 0 < i <= |trace| < |path|
    ensures SettledIn(path, trace, t, i) <==>
            SettledIn(path, trace, t, i - 1) || Settles(path[i - 1], trace[i - 1].0, trace[i - 1].1, t)
  {
  }

  lemma RestedNext(path: seq<State>, trace: seq<(Thread, Action)>, th: Thread, t: nat, polls: nat, i: nat)
    requires 0 < i <= |trace| < |path| && Step(path[i - 1], trace[i - 1].0, trace[i - 1].1, path[i]) && Inv(path[i - 1])
    requires !Wakes(path[i - 1], trace[i - 1].0, trace[i - 1].1, t)
    requires Rested(path[i - 1], th, t, polls, SettledIn(path, trace, t, i - 1))
    ensures Rested(path[i], th, t, polls, SettledIn(path, trace, t, i))
  {
    SettledInSplit(path, trace, t, i);
    RestedStep(path[i - 1], trace[i - 1].0, trace[i - 1].1, path[i], th, t, polls, SettledIn(path, trace, t, i - 1));
  }

  lemma {:induction false} RestedStays(path: seq<State>, trace: seq<(Thread, Action)>, th: Thread, t: nat, i: nat)
    requires IsRun(path, trace) && Inv(path[0]) && i <= |trace| && t in path[0].tasks
    requires Rested(path[0], th, t, path[0].tasks[t].polls, false) && UnwokenUpTo(path, trace, t, i)
    ensures Rested(path[i], th, t, path[0].tasks[t].polls, SettledIn(path, trace, t, i))
  {
    if i > 0 {
      RestedStays(path, trace, th, t, i - 1);
      PathKeepsInv(path, trace, i - 1);
      RestedNext(path, trace, th, t, path[0].tasks[t].polls, i);
    }
  }

  /** A task that nobody wakes from some moment of its poll on, NOTIFIED being clear, is not polled again; and as soon
      as its poller has compared and exchanged its status once, it is idle with no status bit set, and stays so. */
  lemma UnwokenTaskGoesIdle(path: seq<State>, trace: seq<(Thread, Action)>, th: Thread, t: nat, i: nat)
    requires IsRun(path, trace) && Inv(path[0]) && i <= |trace| && t in path[0].tasks
    requires PcOf(path[0].pcs, th) == Polling(t) && !path[0].tasks[t].status.notified
    requires UnwokenUpTo(path, trace, t, i)
    ensures t in path[i].tasks && Unwoken(path[i].tasks[t], PcOf(path[i].pcs, th), th, t)
    ensures path[i].tasks[t].polls == path[0].tasks[t].polls
    ensures SettledIn(path, trace, t, i) ==> path[i].tasks[t].place.Idle? && path[i].tasks[t].status == NOBITS
  {
    assert ThreadOk(path[0], th, path[0].pcs[th]) && TaskOk(path[0], t);
    RestedStays(path, trace, th, t, i);
    PathKeepsInv(path, trace, i);
    assert TaskOk(path[i], t);
  }

  lemma PhaseStep(s: State, v: Thread, a: Action, s': State, th: Thread, t: nat)
    requires Inv(s) && Step(s, v, a, s') && t in s.tasks
    ensures t in s'.tasks
    ensures Finished(s.tasks[t], PcOf(s.pcs, th), th, t) ==>
              Finished(s'.tasks[t], PcOf(s'.pcs, th), th, t) && s'.tasks[t].polls == s.tasks[t].polls
    ensures Popped(s.tasks[t], PcOf(s.pcs, th), th, t) ==>
              || (Popped(s'.tasks[t], PcOf(s'.pcs, th), th, t) && s'.tasks[t].polls == s.tasks[t].polls)
              || s'.tasks[t].polls == s.tasks[t].polls + 1
  {
    assert TaskOk(s, t) && ThreadOk(s, v, PcOf(s.pcs, v));
    if !a.Flush? && Subject(s, v, a) == t {
      PhasesOnTask(s, v, a, th, t);
    } else {
      ElsewhereNothingChanges(s, v, a, t);
    }
  }

  lemma {:induction false} FinishedStays(
      path: seq<State>, trace: seq<(Thread, Action)>, th: Thread, t: nat, i: nat, j: nat)
    requires IsRun(path, trace) && Inv(path[0]) && j <= i <= |trace|
    requires t in path[j].tasks && Finished(path[j].tasks[t], PcOf(path[j].pcs, th), th, t)
    ensures t in path[i].tasks && Finished(path[i].tasks[t], PcOf(path[i].pcs, th), th, t)
    ensures path[i].tasks[t].polls == path[j].tasks[t].polls
  {
    if j < i {
      FinishedStays(path, trace, th, t, i - 1, j);
      PathKeepsInv(path, trace, i - 1);
      PhaseStep(path[i - 1], trace[i - 1].0, trace[i - 1].1, path[i], th, t);
    }
  }

  lemma ReadyFinishes(s: State, th: Thread, s': State, t: nat)
    requires Inv(s) && Step(s, th, Ready, s') && PcOf(s.pcs, th) == Polling(t)
    ensures t in s.tasks && t in s'.tasks && Finished(s'.tasks[t], PcOf(s'.pcs, th), th, t)
    ensures s'.tasks[t].polls == s.tasks[t].polls
  {
    assert ThreadOk(s, th, s.pcs[th]);
  }

  /** After `Ready`, a future is never polled again, and the thread lets go of its task only by releasing it, with the
      future dropped. */
  lemma ReadyIsTheEnd(path: seq<State>, trace: seq<(Thread, Action)>, t: nat, j: nat, i: nat)
    requires IsRun(path, trace) && Inv(path[0]) && j < i <= |trace|
    requires trace[j].1.Ready? && PcOf(path[j].pcs, trace[j].0) == Polling(t)
    ensures t in path[j].tasks && t in path[i].tasks && path[i].tasks[t].polls == path[j].tasks[t].polls
    ensures Finished(path[i].tasks[t], PcOf(path[i].pcs, trace[j].0), trace[j].0, t)
    ensures path[i].tasks[t].place.Gone? ==> path[i].tasks[t].drops == 1
  {
    PathKeepsInv(path, trace, j);
    ReadyFinishes(path[j], trace[j].0, path[j + 1], t);
    FinishedStays(path, trace, trace[j].0, t, i, j + 1);
    PathKeepsInv(path, trace, i);
    assert TaskOk(path[i], t);
  }

  /** The task waits in its worker's hands for its next poll, or has had it. */
  predicate Expected(s: State, th: Thread, t: nat, polls: nat)
  {
    && t in s.tasks
    && ((Popped(s.tasks[t], PcOf(s.pcs, th), th, t) && s.tasks[t].polls == polls) || s.tasks[t].polls > polls)
  }

  lemma ExpectedStep(s: State, v: Thread, a: Action, s': State, th: Thread, t: nat, polls: nat)
    requires Inv(s) && Step(s, v, a, s') && Expected(s, th, t, polls)
    ensures Expected(s', th, t, polls)
  {
    PhaseStep(s, v, a, s', th, t);
    StepGrows(s, v, a, t);
  }

  lemma PoppedIsExpected(s: State, th: Thread, a: Action, s': State, t: nat)
    requires Inv(s) && Step(s, th, a, s') && a.Pop? && Subject(s, th, a) == t
    ensures t in s.tasks && Expected(s', th, t, s.tasks[t].polls)
  {
  }

  lemma {:induction false} ExpectedStays(
      path: seq<State>, trace: seq<(Thread, Action)>, th: Thread, t: nat, polls: nat, j: nat, i: nat)
    requires IsRun(path, trace) && Inv(path[0]) && j <= i <= |trace| && Expected(path[j], th, t, polls)
    ensures Expected(path[i], th, t, polls)
  {
    if j < i {
      ExpectedStays(path, trace, th, t, polls, j, i - 1);
      PathKeepsInv(path, trace, i - 1);
      ExpectedStep(path[i - 1], trace[i - 1].0, trace[i - 1].1, path[i], th, t, polls);
    }
  }

  /** A popped task stays in its worker's hands until its future's poll has been called. */
  lemma PoppedTaskIsPolled(path: seq<State>, trace: seq<(Thread, Action)>, t: nat, j: nat, i: nat)
    requires IsRun(path, trace) && Inv(path[0]) && j < i <= |trace|
    requires trace[j].1.Pop? && Subject(path[j], trace[j].0, trace[j].1) == t
    ensures t in path[j].tasks && Expected(path[i], trace[j].0, t, path[j].tasks[t].polls)
  {
    PathKeepsInv(path, trace, j);
    PoppedIsExpected(path[j], trace[j].0, trace[j].1, path[j + 1], t);
    ExpectedStays(path, trace, trace[j].0, t, path[j].tasks[t].polls, j + 1, i);
  }

  // ----- wakers end -----

  /** A waker that nobody uses can be used in every way: woken by reference and by value, cloned, and dropped. */
  lemma UnusedWakerCanBeUsed(s: State, th: Thread, t: nat, k: nat, k': nat)
    requires MayEnd(s, t, k) && th.Outside? && PcOf(s.pcs, th).Rest? && k' !in s.tasks[t].wakers
    ensures Enabled(s, th, StartWake(t, k, false)) && Enabled(s, th, StartWake(t, k, true))
    ensures Enabled(s, th, Clone(t, k, k')) && Enabled(s, th, StartDrop(t, k))
  {
  }

  /** Whoever ends a waker is at it until the waker is gone. */
  lemma EndingStep(s: State, v: Thread, a: Action, th: Thread, t: nat, k: nat)
    requires Inv(s) && Enabled(s, v, a) && Consumes(PcOf(s.pcs, th), t, k)
    ensures t in s.tasks && t in Next(s, v, a).tasks
    ensures Consumes(PcOf(Next(s, v, a).pcs, th), t, k) || k !in Next(s, v, a).tasks[t].wakers
  {
    assert ThreadOk(s, th, s.pcs[th]);
    assert TaskOk(s, t);
    if !a.Flush? {
      StepIsLawful(s, v, a);
    }
  }

  ghost predicate WasGone(path: seq<State>, t: nat, k: nat, i: nat)
    requires i < |path|
  {
    exists j :: 1 <= j <= i && t in path[j].tasks && k !in path[j].tasks[t].wakers
  }

  /** `drop` and `wake` by value end their waker: the thread is busy with it until the waker is gone. */
  lemma {:induction false} EndedWakerGoes(path: seq<State>, trace: seq<(Thread, Action)>, t: nat, k: nat, i: nat)
    requires IsRun(path, trace) && Inv(path[0]) && 1 <= i <= |trace|
    requires trace[0].1 == StartDrop(t, k) || trace[0].1 == StartWake(t, k, true)
    ensures Consumes(PcOf(path[i].pcs, trace[0].0), t, k) || WasGone(path, t, k, i)
  {
    if i == 1 {
      assert Step(path[0], trace[0].0, trace[0].1, path[1]);
    } else {
      EndedWakerGoes(path, trace, t, k, i - 1);
      PathKeepsInv(path, trace, i - 1);
      assert Step(path[i - 1], trace[i - 1].0, trace[i - 1].1, path[i]);
      if Consumes(PcOf(path[i - 1].pcs, trace[0].0), t, k) {
        EndingStep(path[i - 1], trace[i - 1].0, trace[i - 1].1, trace[0].0, t, k);
      }
    }
  }

  // ----- references -----

  /** The step makes a reference to task `t`: its creation, or a clone of a waker. */
  predicate MakesReference(s: State, th: Thread, a: Action, t: nat)
  {
    match a
    case Create(u, _, _) => u == t
    case Clone(u, _, _) => u == t
    case CloneInPoll(_) => PcOf(s.pcs, th) == Polling(t)
    case _ => false
  }

  /** The step gives one up: the drop of a waker, or of the runtime's reference. */
  predicate EndsReference(s: State, th: Thread, a: Action, t: nat)
  {
    match a
    case Drop => PcOf(s.pcs, th).Unref? && PcOf(s.pcs, th).t == t
    case Release => PcOf(s.pcs, th) == Releasing(t)
    case _ => false
  }

  function RcAt(s: State, t: nat): nat
  {
    if t in s.tasks then s.tasks[t].rc else 0
  }

  function MadeIn(path: seq<State>, trace: seq<(Thread, Action)>, t: nat, i: nat): nat
    requires i <= |trace| < |path|
  {
    if i == 0 then 0
    else
      MadeIn(path, trace, t, i - 1) + if MakesReference(path[i - 1], trace[i - 1].0, trace[i - 1].1, t) then 1 else 0
  }

  function EndedIn(path: seq<State>, trace: seq<(Thread, Action)>, t: nat, i: nat): nat
    requires i <= |trace| < |path|
  {
    if i == 0 then 0
    else
      EndedIn(path, trace, t, i - 1) + if EndsReference(path[i - 1], trace[i - 1].0, trace[i - 1].1, t) then 1 else 0
  }

  lemma OwnReferences(s: State, th: Thread, a: Action, t: nat)
    requires Enabled(s, th, a) && !a.Flush? && Subject(s, th, a) == t
    requires ThreadOk(s, th, PcOf(s.pcs, th)) && (t in s.tasks ==> TaskOk(s, t))
    ensures EffectAt(s, th, a).task.rc + (if EndsReference(s, th, a, t) then 1 else 0) ==
            (if t in s.tasks then s.tasks[t].rc else if a.Create? then 0 else 1) +
            if MakesReference(s, th, a, t) then 1 else 0
  {
  }

  lemma ReferenceStep(s: State, th: Thread, a: Action, t: nat)
    requires Inv(s) && Enabled(s, th, a)
    ensures RcAt(Next(s, th, a), t) + (if EndsReference(s, th, a, t) then 1 else 0) ==
            RcAt(s, t) + if MakesReference(s, th, a, t) then 1 else 0
  {
    assert ThreadOk(s, th, PcOf(s.pcs, th));
    if !a.Flush? && Subject(s, th, a) == t {
      assert t in s.tasks ==> TaskOk(s, t);
      OwnReferences(s, th, a, t);
    }
  }

  /** In every run from the start, `rc` is the number of references made less the number of those given up. */
  lemma {:induction false} ReferencesAreCounted(path: seq<State>, trace: seq<(Thread, Action)>, t: nat, i: nat)
    requires IsRun(path, trace) && Inv(path[0]) && path[0].tasks == map[] && i <= |trace|
    ensures RcAt(path[i], t) + EndedIn(path, trace, t, i) == MadeIn(path, trace, t, i)
  {
    if i > 0 {
      ReferencesAreCounted(path, trace, t, i - 1);
      PathKeepsInv(path, trace, i - 1);
      assert Step(path[i - 1], trace[i - 1].0, trace[i - 1].1, path[i]);
      ReferenceStep(path[i - 1], trace[i - 1].0, trace[i - 1].1, t);
    }
  }

  // ----- `worker_id`, and where a woken task goes -----

  /** The step is a theft of task `t`: a worker pops it from another worker's queue. */
  predicate Steals(s: State, th: Thread, a: Action, t: nat)
  {
    && a.Pop? && th.Worker? && a.q != th.w
    && Queue(a.q) in s.lists && s.lists[Queue(a.q)] != [] && s.lists[Queue(a.q)][0] == t
  }

  /** The worker that last stole task `t`, and worker 0 if none did. */
  function LastThief(path: seq<State>, trace: seq<(Thread, Action)>, t: nat, i: nat): nat
    requires i <= |trace| < |path|
  {
    if i == 0 then 0
    else if Steals(path[i - 1], trace[i - 1].0, trace[i - 1].1, t) then trace[i - 1].0.w
    else LastThief(path, trace, t, i - 1)
  }

  /** The worker that has task `t` now, if it is a thief about to set `worker_id`, and else the task's `worker_id`. */
  function Keeper(s: State, t: nat): nat
  {
    if t !in s.tasks then 0
    else
      var task := s.tasks[t];
      if task.place.Hand? && task.place.th.Worker? && PcOf(s.pcs, task.place.th).Stolen? then task.place.th.w
      else task.workerId
  }

  lemma PoppedKeeper(s: State, th: Thread, a: Action, t: nat)
    requires Enabled(s, th, a) && a.Pop? && Subject(s, th, a) == t && ListsOk(s)
    ensures Keeper(Next(s, th, a), t) == if Steals(s, th, a, t) then th.w else Keeper(s, t)
  {
  }

  lemma OwnKeeper(s: State, th: Thread, a: Action, t: nat)
    requires Enabled(s, th, a) && !a.Flush? && !a.Pop? && Subject(s, th, a) == t
    requires ThreadOk(s, th, PcOf(s.pcs, th)) && (t in s.tasks ==> TaskOk(s, t))
    ensures Keeper(Next(s, th, a), t) == Keeper(s, t)
  {
  }

  lemma OtherKeeper(s: State, th: Thread, a: Action, t: nat)
    requires Inv(s) && Enabled(s, th, a) && (a.Flush? || Subject(s, th, a) != t)
    ensures !Steals(s, th, a, t) && Keeper(Next(s, th, a), t) == Keeper(s, t)
  {
    if t in s.tasks {
      assert TaskOk(s, t);
      ElsewhereNothingChanges(s, th, a, t);
    }
  }

  /** In every run from the start, `worker_id` names the worker that last stole the task. */
  lemma {:induction false} WorkerIdIsLastThief(path: seq<State>, trace: seq<(Thread, Action)>, t: nat, i: nat)
    requires IsRun(path, trace) && Inv(path[0]) && path[0].tasks == map[] && i <= |trace|
    ensures Keeper(path[i], t) == LastThief(path, trace, t, i)
  {
    if i > 0 {
      WorkerIdIsLastThief(path, trace, t, i - 1);
      PathKeepsInv(path, trace, i - 1);
      var s, th, a := path[i - 1], trace[i - 1].0, trace[i - 1].1;
      assert Step(s, th, a, path[i]);
      if a.Flush? || Subject(s, th, a) != t {
        OtherKeeper(s, th, a, t);
      } else {
        assert ThreadOk(s, th, PcOf(s.pcs, th)) && (t in s.tasks ==> TaskOk(s, t));
        if a.Pop? {
          PoppedKeeper(s, th, a, t);
        } else {
          OwnKeeper(s, th, a, t);
        }
      }
    }
  }

  /** A wake schedules its task exactly when it found no status bit set, and leaves MUTED and NOTIFIED set. */
  lemma FirstWakeSchedules(s: State, th: Thread, t: nat)
    requires Reachable(s) && Enabled(s, th, WakeOr) && PcOf(s.pcs, th).t == t
    ensures t in s.tasks && t in Next(s, th, WakeOr).tasks
    ensures PcOf(Next(s, th, WakeOr).pcs, th).Scheduling? <==> s.tasks[t].status == NOBITS
    ensures Next(s, th, WakeOr).tasks[t].status == Status(true, true, s.tasks[t].status.dropped)
  {
    ReachableHasInv(s);
    assert ThreadOk(s, th, PcOf(s.pcs, th));
    assert TaskOk(s, t);
  }

  function Pushing<V>(l: seq<V>, v: V, front: bool): seq<V>
  {
    if front then [v] + l else l + [v]
  }

  lemma OpOnList(lists: map<Place, seq<nat>>, op: ListOp, t: nat, p: Place)
    requires p in lists && (op.Dequeue? ==> op.p in lists && lists[op.p] != [])
    ensures p in ListsAfter(lists, op, t)
    ensures ListsAfter(lists, op, t)[p] ==
            if op.Keep? || op.p != p then lists[p]
            else if op.Enqueue? then Pushing(lists[p], t, op.front)
            else lists[p][1..]
  {
  }

  /** What a task step does to list `p`. */
  ghost function ListAfter(s: State, th: Thread, a: Action, p: Place): seq<nat>
    requires p in s.lists
  {
    var l, t := s.lists[p], Subject(s, th, a);
    if a.Pop? && Queue(a.q) == p && l != [] then l[1..]
    else if a.Create? && Queue(a.q) == p then Pushing(l, t, a.front)
    else if a.Schedule? && WakeTarget(s, th, TaskAt(s, t)) == p then l + [t]
    else l
  }

  lemma TaskListAfter(s: State, th: Thread, a: Action, p: Place)
    requires Enabled(s, th, a) && !a.Flush? && p in s.lists
    ensures p in Next(s, th, a).lists && Next(s, th, a).lists[p] == ListAfter(s, th, a, p)
  {
    var t := Subject(s, th, a);
    OpOnList(s.lists, EffectOf(s, th, a, TaskAt(s, t)).op, t, p);
  }

  /** In every run from the start, a wake puts its task behind the queue of the worker that last stole it, or, on a
      thread with a batch guard, behind that thread's batch list for this worker; and changes no other list. */
  lemma WakeGoesToLastThief(path: seq<State>, trace: seq<(Thread, Action)>, i: nat, p: Place)
    requires IsRun(path, trace) && Inv(path[0]) && path[0].tasks == map[] && i < |trace| && trace[i].1.Schedule?
    requires p in path[i].lists
    ensures PcOf(path[i].pcs, trace[i].0).Scheduling? && p in path[i + 1].lists
    ensures var s, th := path[i], trace[i].0; var t := PcOf(s.pcs, th).t;
            var w := LastThief(path, trace, t, i);
            path[i + 1].lists[p] ==
              if p == (if th.Outside? && th.x in s.batchers then Batch(th.x, w) else Queue(w)) then s.lists[p] + [t]
              else s.lists[p]
  {
    var s, th := path[i], trace[i].0;
    assert Step(s, th, Schedule, path[i + 1]);
    var t := PcOf(s.pcs, th).t;
    PathKeepsInv(path, trace, i);
    assert ThreadOk(s, th, PcOf(s.pcs, th));
    WorkerIdIsLastThief(path, trace, t, i);
    TaskListAfter(s, th, Schedule, p);
  }
}
