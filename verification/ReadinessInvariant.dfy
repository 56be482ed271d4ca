/** Every step of the readiness handshake keeps its invariant, and what follows for readiness events. */
module ReadinessInvariant {
  import T = TaskLife
  import I = TaskLifeInvariant
  import opened Readiness

  // ----- what a runtime step does to a task whose future is in `io_poll!` -----

  /** The effect of a step, and its law. */
  ghost function Effect(s: T.State, th: T.Thread, a: T.Action): T.Effect
    requires T.Enabled(s, th, a) && !a.Flush?
  {
    T.EffectOf(s, th, a, T.TaskAt(s, T.Subject(s, th, a)))
  }

  lemma Lawful(s: T.State, th: T.Thread, a: T.Action)
    requires T.Inv(s) && T.Enabled(s, th, a) && !a.Flush?
    ensures I.EffectLaw(s, th, T.Subject(s, th, a), Effect(s, th, a))
    ensures T.ThreadOk(s, th, T.PcOf(s.pcs, th))
  {
    var u := T.Subject(s, th, a);
    assert T.ThreadOk(s, th, T.PcOf(s.pcs, th));
    assert u in s.tasks ==> T.TaskOk(s, u);
    I.EffectIsLawful(s, th, a);
  }

  /** The poll's call and return are the only steps that move a live task in or out of its future's poll. */
  lemma PollGoesOn(s: T.State, th: T.Thread, a: T.Action, t: nat)
    requires T.Inv(s) && T.Enabled(s, th, a) && t in s.tasks && InPoll(s, t)
    requires !((a.Pend? || a.Ready?) && T.PcOf(s.pcs, th) == T.Polling(t))
    ensures InPoll(T.Next(s, th, a), t)
  {
    if !a.Flush? {
      Lawful(s, th, a);
      if T.PcOf(s.pcs, th) == T.Polling(t) {
        PollerStays(s, th, a, t);
      }
      PollGoesOnUnder(s, th, T.Subject(s, th, a), Effect(s, th, a), t);
    }
  }

  lemma PollerStays(s: T.State, th: T.Thread, a: T.Action, t: nat)
    requires T.Enabled(s, th, a) && !a.Flush? && !a.Pend? && !a.Ready? && T.PcOf(s.pcs, th) == T.Polling(t) &&
             t in s.tasks
    ensures Effect(s, th, a).pc == T.Polling(t)
    ensures T.Subject(s, th, a) == t ==> Effect(s, th, a).task.place == s.tasks[t].place
  {
  }

  lemma PollGoesOnUnder(s: T.State, th: T.Thread, u: nat, e: T.Effect, t: nat)
    requires I.EffectLaw(s, th, u, e) && InPoll(s, t)
    requires T.PcOf(s.pcs, th) == T.Polling(t) ==> e.pc == T.Polling(t) && (u == t ==> e.task.place == s.tasks[t].place)
    ensures InPoll(T.Apply(s, th, u, e), t)
  {
  }

  lemma PauseGoesOn(s: T.State, th: T.Thread, a: T.Action, t: nat)
    requires T.Inv(s) && T.Enabled(s, th, a) && t in s.tasks && BetweenPolls(s, t)
    requires !(a.Call? && T.PcOf(s.pcs, th) == T.Calling(t))
    ensures BetweenPolls(T.Next(s, th, a), t)
  {
    assert T.TaskOk(s, t);
    if !a.Flush? {
      Lawful(s, th, a);
      if T.Subject(s, th, a) == t {
        OwnPauseGoesOn(s, th, a, t);
      }
      PauseGoesOnUnder(s, th, T.Subject(s, th, a), Effect(s, th, a), t);
    }
  }

  /** The step leaves the future alive, and does not bring the task into its poll. */
  predicate Pauses(th: T.Thread, task: T.Task, pc: T.Pc, e: T.Effect)
  {
    && !e.task.status.dropped
    && (e.task.place == task.place || e.task.place == T.Hand(th) || !e.task.place.Hand?)
    && (e.pc.Polling? || e.pc.Finishing? ==> e.pc == pc && e.task.place == task.place)
  }

  lemma OwnPauseGoesOn(s: T.State, th: T.Thread, a: T.Action, t: nat)
    requires T.Enabled(s, th, a) && !a.Flush? && t in s.tasks && BetweenPolls(s, t) && T.Subject(s, th, a) == t
    requires T.ThreadOk(s, th, T.PcOf(s.pcs, th)) && T.TaskOk(s, t)
    requires !(a.Call? && T.PcOf(s.pcs, th) == T.Calling(t))
    ensures Pauses(th, s.tasks[t], T.PcOf(s.pcs, th), Effect(s, th, a))
  {
  }

  lemma PauseGoesOnUnder(s: T.State, th: T.Thread, u: nat, e: T.Effect, t: nat)
    requires I.EffectLaw(s, th, u, e) && BetweenPolls(s, t) && T.TaskOk(s, t)
    requires u == t ==> Pauses(th, s.tasks[t], T.PcOf(s.pcs, th), e)
    ensures BetweenPolls(T.Apply(s, th, u, e), t)
  {
  }

  lemma CallAndReturn(s: T.State, th: T.Thread, a: T.Action, t: nat)
    requires T.Inv(s) && T.Enabled(s, th, a) && t in s.tasks
    ensures a.Call? && T.PcOf(s.pcs, th) == T.Calling(t) ==> InPoll(T.Next(s, th, a), t)
    ensures a.Pend? && T.PcOf(s.pcs, th) == T.Polling(t) ==> BetweenPolls(T.Next(s, th, a), t)
  {
  }

  /** Only the call of its poll makes a task's last wake an old one. */
  lemma WakeStaysRecent(s: T.State, th: T.Thread, a: T.Action, t: nat)
    requires T.Enabled(s, th, a) && t in s.tasks && T.ThreadOk(s, th, T.PcOf(s.pcs, th))
    requires s.tasks[t].wokeAt == s.tasks[t].polls && !(a.Call? && T.PcOf(s.pcs, th) == T.Calling(t))
    ensures t in T.Next(s, th, a).tasks
    ensures T.Next(s, th, a).tasks[t].wokeAt == T.Next(s, th, a).tasks[t].polls
  {
    if !a.Flush? && T.Subject(s, th, a) == t {
      OwnWakeStaysRecent(s, th, a, s.tasks[t]);
    }
  }

  lemma OwnWakeStaysRecent(s: T.State, th: T.Thread, a: T.Action, task: T.Task)
    requires T.Enabled(s, th, a) && !a.Flush? && !a.Call? && !a.Create? && task.wokeAt == task.polls
    ensures T.EffectOf(s, th, a, task).task.wokeAt == T.EffectOf(s, th, a, task).task.polls
  {
  }

  lemma WakeIsRecent(s: T.State, th: T.Thread, t: nat)
    requires T.Enabled(s, th, T.WakeOr) && T.PcOf(s.pcs, th).t == t && t in s.tasks && !s.tasks[t].status.dropped
    ensures t in T.Next(s, th, T.WakeOr).tasks
    ensures T.Next(s, th, T.WakeOr).tasks[t].wokeAt == T.Next(s, th, T.WakeOr).tasks[t].polls
  {
  }

  lemma TaskStays(s: T.State, th: T.Thread, a: T.Action, t: nat)
    requires T.Enabled(s, th, a) && t in s.tasks
    ensures t in T.Next(s, th, a).tasks
  {
  }

  /** A waker that nobody ends or starts to end can still be borrowed. */
  lemma WakerStays(s: T.State, th: T.Thread, a: T.Action, t: nat, k: nat)
    requires T.Inv(s) && T.Enabled(s, th, a) && T.MayBorrow(s, t, k)
    requires !(a.StartDrop? && a.t == t && a.k == k) && !(a.StartWake? && a.consume && a.t == t && a.k == k)
    ensures T.MayBorrow(T.Next(s, th, a), t, k)
  {
    if !a.Flush? {
      Lawful(s, th, a);
      assert th in s.pcs ==> !T.Consumes(s.pcs[th], t, k);
      StaysUnconsumed(s, th, a, t, k);
      WakerStaysUnder(s, th, T.Subject(s, th, a), Effect(s, th, a), t, k);
    }
  }

  lemma StaysUnconsumed(s: T.State, th: T.Thread, a: T.Action, t: nat, k: nat)
    requires T.Enabled(s, th, a) && !a.Flush? && !T.Consumes(T.PcOf(s.pcs, th), t, k)
    requires !(a.StartDrop? && a.t == t && a.k == k) && !(a.StartWake? && a.consume && a.t == t && a.k == k)
    ensures !T.Consumes(Effect(s, th, a).pc, t, k)
  {
  }

  lemma WakerStaysUnder(s: T.State, th: T.Thread, u: nat, e: T.Effect, t: nat, k: nat)
    requires I.EffectLaw(s, th, u, e) && T.MayBorrow(s, t, k) && !T.Consumes(e.pc, t, k)
    ensures T.MayBorrow(T.Apply(s, th, u, e), t, k)
  {
  }

  // ----- steps of the runtime -----

  /** What a future's code allows of a runtime step. */
  ghost predicate IoAllows(s: State, th: T.Thread, a: T.Action)
  {
    && T.Enabled(s.rt, th, a) && !Owes(s, th)
    && (a.Pend? ==> AllIo(s, Polled(s, th), true))
    && (a.Ready? ==> AllIo(s, Polled(s, th), false))
  }

  ghost function RuntimeNext(s: State, th: T.Thread, a: T.Action): State
    requires T.Enabled(s.rt, th, a)
  {
    s.(rt := T.Next(s.rt, th, a), disps := DispsAfter(s, th, a))
  }

  /** An owed wake stays owed, or is delivered. */
  lemma OwedOrWoken(s: State, th: T.Thread, a: T.Action, t: nat)
    requires T.Enabled(s.rt, th, a) && t in s.rt.tasks && !s.rt.tasks[t].status.dropped && OwesWake(s, t)
    ensures t in T.Next(s.rt, th, a).tasks
    ensures var s' := RuntimeNext(s, th, a);
            OwesWake(s', t) || s'.rt.tasks[t].wokeAt == s'.rt.tasks[t].polls
  {
    TaskStays(s.rt, th, a, t);
    if x :| x in s.owing && s.owing[x] in s.disps && s.disps[s.owing[x]].task == t {
      StillOwing(s, th, a, x, t);
    } else {
      var w :| w in s.rt.pcs && s.rt.pcs[w].Waking? && s.rt.pcs[w].t == t;
      if w == th && a.WakeOr? {
        WakeIsRecent(s.rt, th, t);
      } else {
        StillWaking(s, th, a, w, t);
      }
    }
  }

  lemma StillOwing(s: State, th: T.Thread, a: T.Action, x: nat, t: nat)
    requires T.Enabled(s.rt, th, a) && x in s.owing && s.owing[x] in s.disps && s.disps[s.owing[x]].task == t
    ensures OwesWake(RuntimeNext(s, th, a), t)
  {
  }

  lemma StillWaking(s: State, th: T.Thread, a: T.Action, w: T.Thread, t: nat)
    requires T.Enabled(s.rt, th, a) && w in s.rt.pcs && s.rt.pcs[w].Waking? && s.rt.pcs[w].t == t &&
             !(w == th && a.WakeOr?)
    ensures OwesWake(RuntimeNext(s, th, a), t)
  {
    var s' := RuntimeNext(s, th, a);
    WakerThreadStays(s.rt, th, a, w);
    assert s'.rt.pcs[w].Waking? && s'.rt.pcs[w].t == t;
  }

  lemma WakerThreadStays(s: T.State, th: T.Thread, a: T.Action, w: T.Thread)
    requires T.Enabled(s, th, a) && w in s.pcs && s.pcs[w].Waking? && !(w == th && a.WakeOr?)
    ensures w in T.Next(s, th, a).pcs && T.Next(s, th, a).pcs[w] == s.pcs[w]
  {
  }

  /** An event that met a suspended future is still answered by an owed or a recent wake. */
  lemma WokenKept(s: State, th: T.Thread, a: T.Action, t: nat)
    requires T.Enabled(s.rt, th, a) && t in s.rt.tasks && !s.rt.tasks[t].status.dropped && Woken(s, t)
    requires T.ThreadOk(s.rt, th, PcOf(s, th)) && !(a.Call? && PcOf(s, th) == T.Calling(t))
    ensures Woken(RuntimeNext(s, th, a), t)
  {
    TaskStays(s.rt, th, a, t);
    if OwesWake(s, t) {
      OwedOrWoken(s, th, a, t);
    } else {
      WakeStaysRecent(s.rt, th, a, t);
    }
  }

  /** How a runtime step moves a future: the poll is called between polls, and returns from within. */
  predicate Moves(a: T.Action, pc: T.Pc, t: nat, io: Io, io': Io)
  {
    if a.Call? && pc == T.Calling(t) then io.Suspended? && io'.Retrying?
    else if a.Pend? && pc == T.Polling(t) then io.Suspending? && io'.Suspended?
    else !(a.Ready? && pc == T.Polling(t)) && io' == io
  }

  lemma CallsAndReturns(s: State, th: T.Thread, a: T.Action, d: nat)
    requires IoAllows(s, th, a) && T.ThreadOk(s.rt, th, PcOf(s, th))
    requires d in s.disps && !s.disps[d].io.Elsewhere? && PlaceOk(s.rt, s.disps[d])
    ensures Moves(a, PcOf(s, th), s.disps[d].task, s.disps[d].io, DispsAfter(s, th, a)[d].io)
  {
  }

  lemma PlaceKept(rt: T.State, th: T.Thread, a: T.Action, disp: Dispatcher, disp': Dispatcher)
    requires T.Inv(rt) && T.Enabled(rt, th, a) && !disp.io.Elsewhere? && PlaceOk(rt, disp) && disp'.task == disp.task
    requires Moves(a, T.PcOf(rt.pcs, th), disp.task, disp.io, disp'.io)
    ensures PlaceOk(T.Next(rt, th, a), disp')
  {
    var t, pc := disp.task, T.PcOf(rt.pcs, th);
    if (a.Pend? && pc == T.Polling(t)) || (a.Call? && pc == T.Calling(t)) {
      CallAndReturn(rt, th, a, t);
    } else if disp.io.Suspended? {
      PauseGoesOn(rt, th, a, t);
    } else {
      PollGoesOn(rt, th, a, t);
    }
  }

  /** A dispatcher after a step that changes at most its position. */
  lemma IoOkAfter(s: State, s': State, d: nat)
    requires d in s.disps && IoOk(s, d) && d in s'.disps && s'.disps[d] == s.disps[d].(io := s'.disps[d].io)
    requires var io, io' := s.disps[d].io, s'.disps[d].io;
             io' == io || (io.Suspending? && io'.Suspended?) || (io.Suspended? && io'.Retrying?)
    requires PlaceOk(s'.rt, s'.disps[d])
    requires (s'.disps[d].io.Suspending? || s'.disps[d].io.Suspended?) && s.disps[d].event ==>
             Woken(s', s.disps[d].task)
    ensures IoOk(s', d)
  {
  }

  lemma EventKept(s: State, th: T.Thread, a: T.Action, d: nat)
    requires IoAllows(s, th, a) && d in s.disps && IoOk(s, d) && !s.disps[d].io.Elsewhere? && s.disps[d].event
    requires T.ThreadOk(s.rt, th, PcOf(s, th)) && s.disps[d].task in s.rt.tasks && T.TaskOk(s.rt, s.disps[d].task)
    requires var io' := DispsAfter(s, th, a)[d].io; io'.Suspending? || io'.Suspended?
    ensures Woken(RuntimeNext(s, th, a), s.disps[d].task)
  {
    CallsAndReturns(s, th, a, d);
    WokenKept(s, th, a, s.disps[d].task);
  }

  lemma RuntimeKeepsIo(s: State, th: T.Thread, a: T.Action, d: nat)
    requires IoAllows(s, th, a) && d in s.disps && IoOk(s, d) && T.ThreadOk(s.rt, th, PcOf(s, th))
    requires s.disps[d].task in s.rt.tasks ==> T.TaskOk(s.rt, s.disps[d].task)
    requires PlaceOk(T.Next(s.rt, th, a), DispsAfter(s, th, a)[d])
    ensures IoOk(RuntimeNext(s, th, a), d)
  {
    if !s.disps[d].io.Elsewhere? {
      CallsAndReturns(s, th, a, d);
      var io' := DispsAfter(s, th, a)[d].io;
      if (io'.Suspending? || io'.Suspended?) && s.disps[d].event {
        EventKept(s, th, a, d);
      }
      IoOkAfter(s, RuntimeNext(s, th, a), d);
    }
  }

  /** Nobody but its reactor starts to use a dispatcher's waker. */
  lemma NoNewUse(s: T.State, th: T.Thread, a: T.Action, t: nat, k: nat)
    requires T.Enabled(s, th, a) && !a.Flush?
    requires !((a.StartDrop? || a.StartWake?) && a.t == t && a.k == k)
    ensures T.Uses(Effect(s, th, a).pc, t, k) ==> T.Uses(T.PcOf(s.pcs, th), t, k)
  {
  }

  lemma OldUse(s: T.State, th: T.Thread, a: T.Action, t: nat, k: nat, w: T.Thread)
    requires T.Enabled(s, th, a) && !((a.StartDrop? || a.StartWake?) && a.t == t && a.k == k)
    requires w in T.Next(s, th, a).pcs && T.Uses(T.Next(s, th, a).pcs[w], t, k)
    ensures w in s.pcs && T.Uses(s.pcs[w], t, k)
  {
    if w != th {
      OtherThreadsRest(s, th, a, w);
    } else if !a.Flush? {
      NoNewUse(s, th, a, t, k);
    }
  }

  lemma RuntimeKeepsUse(rt: T.State, th: T.Thread, a: T.Action, locked: set<nat>, disp: Dispatcher)
    requires T.Enabled(rt, th, a) && !((a.StartDrop? || a.StartWake?) && a.t == disp.task && a.k == disp.waker)
    requires UsedUnderLock(rt, locked, disp)
    ensures UsedUnderLock(T.Next(rt, th, a), locked, disp)
  {
    forall w | w in T.Next(rt, th, a).pcs && T.Uses(T.Next(rt, th, a).pcs[w], disp.task, disp.waker)
      ensures w in rt.pcs && T.Uses(rt.pcs[w], disp.task, disp.waker)
    {
      OldUse(rt, th, a, disp.task, disp.waker, w);
    }
  }

  lemma OtherThreadsRest(s: T.State, th: T.Thread, a: T.Action, w: T.Thread)
    requires T.Enabled(s, th, a) && w != th
    ensures T.PcOf(T.Next(s, th, a).pcs, w) == T.PcOf(s.pcs, w)
    ensures w in T.Next(s, th, a).pcs <==> w in s.pcs
  {
  }

  lemma ThreadIsOk(s: T.State, th: T.Thread)
    requires T.Inv(s)
    ensures T.ThreadOk(s, th, T.PcOf(s.pcs, th)) && T.TasksOk(s)
  {
  }

  lemma PlacesKept(s: State, th: T.Thread, a: T.Action)
    requires T.Inv(s.rt) && T.Enabled(s.rt, th, a)
    requires forall d :: d in s.disps && !s.disps[d].io.Elsewhere? ==>
               && PlaceOk(s.rt, s.disps[d])
               && Moves(a, PcOf(s, th), s.disps[d].task, s.disps[d].io, DispsAfter(s, th, a)[d].io)
    ensures forall d :: d in s.disps ==> PlaceOk(T.Next(s.rt, th, a), DispsAfter(s, th, a)[d])
  {
    forall d | d in s.disps && !s.disps[d].io.Elsewhere?
      ensures PlaceOk(T.Next(s.rt, th, a), DispsAfter(s, th, a)[d])
    {
      PlaceKept(s.rt, th, a, s.disps[d], DispsAfter(s, th, a)[d]);
    }
  }

  lemma AllMove(s: State, th: T.Thread, a: T.Action)
    requires IoAllows(s, th, a) && T.ThreadOk(s.rt, th, PcOf(s, th)) && forall d :: d in s.disps ==> IoOk(s, d)
    ensures forall d :: d in s.disps && !s.disps[d].io.Elsewhere? ==>
              && PlaceOk(s.rt, s.disps[d])
              && Moves(a, PcOf(s, th), s.disps[d].task, s.disps[d].io, DispsAfter(s, th, a)[d].io)
  {
    forall d | d in s.disps && !s.disps[d].io.Elsewhere?
      ensures PlaceOk(s.rt, s.disps[d])
      ensures Moves(a, PcOf(s, th), s.disps[d].task, s.disps[d].io, DispsAfter(s, th, a)[d].io)
    {
      assert IoOk(s, d);
      CallsAndReturns(s, th, a, d);
    }
  }

  lemma AllIoKept(s: State, th: T.Thread, a: T.Action)
    requires IoAllows(s, th, a) && T.ThreadOk(s.rt, th, PcOf(s, th)) && T.TasksOk(s.rt)
    requires forall d :: d in s.disps ==> IoOk(s, d) && PlaceOk(T.Next(s.rt, th, a), DispsAfter(s, th, a)[d])
    ensures forall d :: d in s.disps ==> IoOk(RuntimeNext(s, th, a), d)
  {
    forall d | d in s.disps
      ensures IoOk(RuntimeNext(s, th, a), d)
    {
      RuntimeKeepsIo(s, th, a, d);
    }
  }

  lemma RuntimeKeepsWaker(s: State, th: T.Thread, a: T.Action, d: nat)
    requires T.Enabled(s.rt, th, a) && d in s.disps && UsedUnderLock(s.rt, s.locked, s.disps[d])
    requires T.MayBorrow(T.Next(s.rt, th, a), s.disps[d].task, s.disps[d].waker)
    requires !((a.StartDrop? || a.StartWake?) && a.t == s.disps[d].task && a.k == s.disps[d].waker)
    ensures WakerOk(RuntimeNext(s, th, a), d)
  {
    RuntimeKeepsUse(s.rt, th, a, s.locked, s.disps[d]);
    SameUse(T.Next(s.rt, th, a), s.locked, s.disps[d], DispsAfter(s, th, a)[d]);
  }

  lemma SameUse(rt: T.State, locked: set<nat>, disp: Dispatcher, disp': Dispatcher)
    requires UsedUnderLock(rt, locked, disp) && disp' == disp.(io := disp'.io)
    ensures UsedUnderLock(rt, locked, disp')
  {
  }

  lemma AllBorrowsKept(s: State, th: T.Thread, a: T.Action)
    requires T.Inv(s.rt) && T.Enabled(s.rt, th, a) && forall d :: d in s.disps ==> WakerOk(s, d)
    requires a.StartDrop? || a.StartWake? ==> !OwnedByDispatcher(s, a.t, a.k)
    ensures forall d :: d in s.disps && !s.disps[d].link.Freed? ==>
              T.MayBorrow(T.Next(s.rt, th, a), s.disps[d].task, s.disps[d].waker)
  {
    forall d | d in s.disps && !s.disps[d].link.Freed?
      ensures T.MayBorrow(T.Next(s.rt, th, a), s.disps[d].task, s.disps[d].waker)
    {
      assert WakerOk(s, d);
      WakerStays(s.rt, th, a, s.disps[d].task, s.disps[d].waker);
    }
  }

  lemma AllWakersKept(s: State, th: T.Thread, a: T.Action)
    requires T.Enabled(s.rt, th, a)
    requires forall d :: d in s.disps && !s.disps[d].link.Freed? ==>
               WakerOk(s, d) && T.MayBorrow(T.Next(s.rt, th, a), s.disps[d].task, s.disps[d].waker)
    requires a.StartDrop? || a.StartWake? ==> !OwnedByDispatcher(s, a.t, a.k)
    ensures forall d :: d in s.disps ==> WakerOk(RuntimeNext(s, th, a), d)
  {
    forall d | d in s.disps && !s.disps[d].link.Freed?
      ensures WakerOk(RuntimeNext(s, th, a), d)
    {
      RuntimeKeepsWaker(s, th, a, d);
    }
  }

  lemma RuntimeKeepsOwing(s: State, th: T.Thread, a: T.Action, x: nat)
    requires T.Enabled(s.rt, th, a) && x in s.owing && OwingOk(s, x) && th != T.Outside(x)
    ensures OwingOk(RuntimeNext(s, th, a), x)
  {
  }

  lemma AllOwingKept(s: State, th: T.Thread, a: T.Action)
    requires T.Enabled(s.rt, th, a) && !Owes(s, th) && forall x :: x in s.owing ==> OwingOk(s, x)
    ensures forall x :: x in s.owing ==> OwingOk(RuntimeNext(s, th, a), x)
  {
    forall x | x in s.owing
      ensures OwingOk(RuntimeNext(s, th, a), x)
    {
      RuntimeKeepsOwing(s, th, a, x);
    }
  }

  lemma StillDiffer(s: State, s': State)
    requires WakersDiffer(s) && s'.disps.Keys == s.disps.Keys
    requires forall d :: d in s.disps ==> s'.disps[d] == s.disps[d].(io := s'.disps[d].io)
    ensures WakersDiffer(s')
  {
  }

  lemma RuntimeKeepsIoInv(s: State, th: T.Thread, a: T.Action)
    requires IoInv(s) && RuntimeEnabled(s, th, a) && T.ThreadOk(s.rt, th, PcOf(s, th)) && T.TasksOk(s.rt)
    requires forall d :: d in s.disps ==>
               && PlaceOk(T.Next(s.rt, th, a), DispsAfter(s, th, a)[d])
               && (!s.disps[d].link.Freed? ==> T.MayBorrow(T.Next(s.rt, th, a), s.disps[d].task, s.disps[d].waker))
    ensures IoInv(RuntimeNext(s, th, a))
  {
    AllIoKept(s, th, a);
    AllWakersKept(s, th, a);
    AllOwingKept(s, th, a);
    StillDiffer(s, RuntimeNext(s, th, a));
  }

  lemma RuntimeKeepsInv(s: State, th: T.Thread, a: T.Action)
    requires Inv(s) && RuntimeEnabled(s, th, a)
    ensures Inv(RuntimeNext(s, th, a))
  {
    I.StepKeepsInv(s.rt, th, a);
    ThreadIsOk(s.rt, th);
    AllMove(s, th, a);
    PlacesKept(s, th, a);
    AllBorrowsKept(s, th, a);
    RuntimeKeepsIoInv(s, th, a);
  }

  /** Only the call of a poll and its `Pending` move futures. */
  lemma NothingMoves(s: State, th: T.Thread, a: T.Action)
    requires !a.Pend? && !a.Call?
    ensures DispsAfter(s, th, a) == s.disps
  {
  }

  // ----- changing one dispatcher -----

  /** Owed wakes depend on the tasks of dispatchers only. */
  lemma SameOwing(s: State, s': State, t: nat)
    requires s'.rt == s.rt && Woken(s, t)
    requires forall x :: x in s.owing ==> x in s'.owing && s'.owing[x] == s.owing[x]
    requires forall d :: d in s.disps ==> d in s'.disps && s'.disps[d].task == s.disps[d].task
    ensures Woken(s', t)
  {
  }

  /** A change of one dispatcher, with at most one more owed wake. */
  ghost predicate Changes(s: State, s': State, d: nat)
  {
    && d in s.disps && d in s'.disps && s' == s.(disps := s.disps[d := s'.disps[d]], owing := s'.owing)
    && s'.disps[d].task == s.disps[d].task && s'.disps[d].waker == s.disps[d].waker
    && s'.disps[d].reactor == s.disps[d].reactor && (s.disps[d].link.Freed? ==> s'.disps[d].link.Freed?)
    && forall x :: x in s.owing ==> x in s'.owing && s'.owing[x] == s.owing[x]
  }

  lemma OthersIoKept(s: State, s': State, d: nat, e: nat)
    requires Changes(s, s', d) && e in s.disps && e != d && IoOk(s, e)
    ensures IoOk(s', e)
  {
  }

  lemma ChangeKeepsIoInv(s: State, s': State, d: nat)
    requires IoInv(s) && Changes(s, s', d) && IoOk(s', d) && WakerOk(s', d)
    requires forall x :: x in s'.owing ==> OwingOk(s', x)
    ensures IoInv(s')
  {
    forall e | e in s'.disps
      ensures IoOk(s', e) && WakerOk(s', e)
    {
      if e != d {
        assert IoOk(s, e) && WakerOk(s, e);
        OthersIoKept(s, s', d, e);
      }
    }
  }

  /** A step of the future inside `io_poll!` leaves the dispatcher's link and waker as they are. */
  lemma SameLinkKeepsIoInv(s: State, s': State, d: nat)
    requires IoInv(s) && Changes(s, s', d) && s'.owing == s.owing && s'.disps[d].link == s.disps[d].link && IoOk(s', d)
    ensures IoInv(s')
  {
    assert WakerOk(s, d);
    SameWaker(s, s', d);
    forall x | x in s'.owing
      ensures OwingOk(s', x)
    {
      assert OwingOk(s, x);
    }
    ChangeKeepsIoInv(s, s', d);
  }

  lemma SameWaker(s: State, s': State, d: nat)
    requires Changes(s, s', d) && s'.disps[d].link == s.disps[d].link && WakerOk(s, d)
    ensures WakerOk(s', d)
  {
  }

  predicate InIoPoll(a: Action)
  {
    a.Enter? || a.Prepare? || a.Done? || a.WouldBlock? || a.Wait? || a.Cancel?
  }

  lemma FutureKeepsOwnIo(s: State, th: T.Thread, a: Action)
    requires InIoPoll(a) && Enabled(s, th, a) && IoOk(s, a.d) && T.ThreadOk(s.rt, th, PcOf(s, th))
    ensures IoOk(Next(s, th, a), a.d) && Changes(s, Next(s, th, a), a.d)
    ensures Next(s, th, a).owing == s.owing && Next(s, th, a).disps[a.d].link == s.disps[a.d].link
  {
  }

  lemma FutureKeepsInv(s: State, th: T.Thread, a: Action)
    requires InIoPoll(a) && Inv(s) && Enabled(s, th, a)
    ensures Inv(Next(s, th, a))
  {
    ThreadIsOk(s.rt, th);
    FutureKeepsOwnIo(s, th, a);
    SameLinkKeepsIoInv(s, Next(s, th, a), a.d);
  }

  lemma LinkKeepsInv(s: State, th: T.Thread, a: Action)
    requires Inv(s) && Enabled(s, th, a) && (a.LinkIn? || a.Unlink?)
    ensures Inv(Next(s, th, a))
  {
    var s' := Next(s, th, a);
    assert IoOk(s, a.d) && WakerOk(s, a.d);
    forall x | x in s'.owing
      ensures OwingOk(s', x)
    {
      assert OwingOk(s, x);
    }
    ChangeKeepsIoInv(s, s', a.d);
  }

  // ----- a dispatcher's waker begins and ends -----

  /** A new waker is used by nobody. */
  lemma NewWakerIsUnused(s: T.State, th: T.Thread, k: nat, w: T.Thread)
    requires T.Enabled(s, th, T.CloneInPoll(k)) && T.ThreadsOk(s) && w in T.Next(s, th, T.CloneInPoll(k)).pcs
    ensures !T.Uses(T.Next(s, th, T.CloneInPoll(k)).pcs[w], T.PcOf(s.pcs, th).t, k)
  {
  }

  lemma AddingKeepsIoInv(s: State, d: nat, disp: Dispatcher)
    requires IoInv(s) && d !in s.disps && disp.link.Fresh? && disp.io.Elsewhere?
    requires T.MayBorrow(s.rt, disp.task, disp.waker)
    requires forall th :: th in s.rt.pcs ==> !T.Uses(s.rt.pcs[th], disp.task, disp.waker)
    requires !OwnedByDispatcher(s, disp.task, disp.waker)
    ensures IoInv(s.(disps := s.disps[d := disp]))
  {
    var s' := s.(disps := s.disps[d := disp]);
    forall e | e in s'.disps
      ensures IoOk(s', e) && WakerOk(s', e)
    {
      if e != d {
        assert IoOk(s, e) && WakerOk(s, e);
        if Woken(s, s.disps[e].task) {
          SameOwing(s, s', s.disps[e].task);
        }
      }
    }
    forall x | x in s'.owing
      ensures OwingOk(s', x)
    {
      assert OwingOk(s, x);
    }
  }

  lemma OwnedExists(s: State, t: nat, k: nat)
    requires (forall d :: d in s.disps ==> WakerOk(s, d)) && OwnedByDispatcher(s, t, k)
    ensures T.MayBorrow(s.rt, t, k)
  {
  }

  lemma NewDispatcherKeepsInv(s: State, th: T.Thread, d: nat, k: nat, r: nat)
    requires Inv(s) && Enabled(s, th, NewDispatcher(d, k, r))
    ensures Inv(Next(s, th, NewDispatcher(d, k, r)))
  {
    var s1, s', t := RuntimeNext(s, th, T.CloneInPoll(k)), Next(s, th, NewDispatcher(d, k, r)), PcOf(s, th).t;
    NothingMoves(s, th, T.CloneInPoll(k));
    RuntimeKeepsInv(s, th, T.CloneInPoll(k));
    forall w | w in s1.rt.pcs
      ensures !T.Uses(s1.rt.pcs[w], t, k)
    {
      NewWakerIsUnused(s.rt, th, k, w);
    }
    if OwnedByDispatcher(s, t, k) {
      OwnedExists(s, t, k);
    }
    AddingKeepsIoInv(s1, d, s'.disps[d]);
    assert s' == s1.(disps := s1.disps[d := s'.disps[d]]);
  }

  /** An unlinked dispatcher's waker is used by nobody: the lock was free when it was unlinked, and nobody reaches it
      since. */
  lemma UnlinkedIsUnused(s: State, d: nat)
    requires d in s.disps && WakerOk(s, d) && s.disps[d].link.Unlinked?
    ensures T.MayEnd(s.rt, s.disps[d].task, s.disps[d].waker)
  {
  }

  lemma FreeKeepsInv(s: State, th: T.Thread, d: nat)
    requires Inv(s) && Enabled(s, th, Free(d))
    ensures Inv(Next(s, th, Free(d)))
  {
    var disp := s.disps[d];
    var s0 := s.(disps := s.disps[d := disp.(link := Freed)]);
    var a := T.StartDrop(disp.task, disp.waker);
    assert IoOk(s, d) && WakerOk(s, d);
    UnlinkedIsUnused(s, d);
    forall x | x in s0.owing
      ensures OwingOk(s0, x)
    {
      assert OwingOk(s, x);
    }
    ChangeKeepsIoInv(s, s0, d);
    NothingMoves(s0, th, a);
    RuntimeKeepsInv(s0, th, a);
    assert Next(s, th, Free(d)) == RuntimeNext(s0, th, a);
  }

  // ----- the reactors -----

  lemma LockKeepsInv(s: State, th: T.Thread, a: Action)
    requires Inv(s) && Enabled(s, th, a) && (a.TakeLock? || a.DropLock?)
    ensures Inv(Next(s, th, a))
  {
    var s' := Next(s, th, a);
    forall d | d in s'.disps
      ensures IoOk(s', d) && WakerOk(s', d)
    {
      assert IoOk(s, d) && WakerOk(s, d);
      if Woken(s, s.disps[d].task) {
        SameOwing(s, s', s.disps[d].task);
      }
    }
    forall x | x in s'.owing
      ensures OwingOk(s', x)
    {
      assert OwingOk(s, x);
    }
  }

  lemma NotifyKeepsOwnIo(s: State, th: T.Thread, d: nat)
    requires Enabled(s, th, Notify(d)) && IoOk(s, d) && WakerOk(s, d)
    ensures var s' := Next(s, th, Notify(d)); Changes(s, s', d) && IoOk(s', d) && WakerOk(s', d)
  {
    var s' := Next(s, th, Notify(d));
    SameWaker(s, s', d);
    if s.disps[d].status == 0 {
      assert th.x in s'.owing && s'.disps[s'.owing[th.x]].task == s.disps[d].task;
    } else if Woken(s, s.disps[d].task) {
      SameOwing(s, s', s.disps[d].task);
    }
  }

  lemma NotifyKeepsInv(s: State, th: T.Thread, d: nat)
    requires Inv(s) && Enabled(s, th, Notify(d))
    ensures Inv(Next(s, th, Notify(d)))
  {
    var s' := Next(s, th, Notify(d));
    assert IoOk(s, d) && WakerOk(s, d);
    NotifyKeepsOwnIo(s, th, d);
    forall x | x in s'.owing
      ensures OwingOk(s', x)
    {
      assert x in s.owing ==> OwingOk(s, x);
    }
    ChangeKeepsIoInv(s, s', d);
  }

  /** The reactor starts the wake that it owes: its next state, and the wake. */
  ghost predicate StartsWake(s: State, s': State, x: nat)
  {
    && x in s.owing && s.owing[x] in s.disps && T.PcOf(s.rt.pcs, T.Outside(x)).Rest?
    && var disp := s.disps[s.owing[x]];
       && s' == s.(rt := s'.rt, owing := s.owing - {x}) && s'.rt.tasks == s.rt.tasks
       && s'.rt.pcs == s.rt.pcs[T.Outside(x) := T.Waking(disp.task, disp.waker, false)]
  }

  /** The wake that the reactor owed is now the wake it is performing. */
  lemma WakingCounts(s: State, s': State, x: nat, t: nat)
    requires StartsWake(s, s', x) && Woken(s, t)
    ensures Woken(s', t)
  {
    if y :| y in s.owing && s.owing[y] in s.disps && s.disps[s.owing[y]].task == t {
      if y == x {
        assert s'.rt.pcs[T.Outside(x)].Waking? && s'.rt.pcs[T.Outside(x)].t == t;
      } else {
        assert y in s'.owing && s'.disps[s'.owing[y]].task == t;
      }
    } else if w :| w in s.rt.pcs && s.rt.pcs[w].Waking? && s.rt.pcs[w].t == t {
      assert s'.rt.pcs[w].Waking? && s'.rt.pcs[w].t == t;
    }
  }

  lemma WakingKeepsIo(s: State, s': State, x: nat, d: nat)
    requires StartsWake(s, s', x) && d in s.disps && IoOk(s, d)
    ensures IoOk(s', d)
  {
    if Woken(s, s.disps[d].task) {
      WakingCounts(s, s', x, s.disps[d].task);
    }
  }

  lemma WakingKeepsWaker(s: State, s': State, x: nat, d: nat)
    requires StartsWake(s, s', x) && d in s.disps && WakerOk(s, d) && WakersDiffer(s) && OwingOk(s, x)
    ensures WakerOk(s', d)
  {
  }

  lemma WakingKeepsIoInv(s: State, s': State, x: nat)
    requires IoInv(s) && StartsWake(s, s', x)
    ensures IoInv(s')
  {
    assert OwingOk(s, x);
    forall d | d in s'.disps
      ensures IoOk(s', d) && WakerOk(s', d)
    {
      assert IoOk(s, d) && WakerOk(s, d);
      WakingKeepsIo(s, s', x, d);
      WakingKeepsWaker(s, s', x, d);
    }
    forall y | y in s'.owing
      ensures OwingOk(s', y)
    {
      assert OwingOk(s, y);
    }
  }

  /** An owed wake can be made: the waker it needs exists. */
  lemma OwedWakeIsSafe(s: State, th: T.Thread)
    requires IoInv(s) && Enabled(s, th, NotifyWake)
    ensures var disp := s.disps[s.owing[th.x]]; T.Enabled(s.rt, th, T.StartWake(disp.task, disp.waker, false))
  {
  }

  lemma StartWakeEffect(s: T.State, th: T.Thread, t: nat, k: nat)
    requires T.Enabled(s, th, T.StartWake(t, k, false))
    ensures var s' := T.Next(s, th, T.StartWake(t, k, false));
            s'.tasks == s.tasks && s'.pcs == s.pcs[th := T.Waking(t, k, false)]
  {
  }

  lemma NotifyWakeKeepsInv(s: State, th: T.Thread)
    requires Inv(s) && Enabled(s, th, NotifyWake)
    ensures Inv(Next(s, th, NotifyWake))
  {
    var disp := s.disps[s.owing[th.x]];
    OwedWakeIsSafe(s, th);
    I.StepKeepsInv(s.rt, th, T.StartWake(disp.task, disp.waker, false));
    StartWakeEffect(s.rt, th, disp.task, disp.waker);
    WakingKeepsIoInv(s, Next(s, th, NotifyWake), th.x);
  }

  // ----- all runs -----

  lemma StepKeepsInv(s: State, th: T.Thread, a: Action)
    requires Inv(s) && Enabled(s, th, a)
    ensures Inv(Next(s, th, a))
  {
    match a
    case Runtime(ra) => RuntimeKeepsInv(s, th, ra);
    case NewDispatcher(d, k, r) => NewDispatcherKeepsInv(s, th, d, k, r);
    case LinkIn(_) => LinkKeepsInv(s, th, a);
    case Unlink(_) => LinkKeepsInv(s, th, a);
    case Free(d) => FreeKeepsInv(s, th, d);
    case TakeLock => LockKeepsInv(s, th, a);
    case DropLock => LockKeepsInv(s, th, a);
    case Notify(d) => NotifyKeepsInv(s, th, d);
    case NotifyWake => NotifyWakeKeepsInv(s, th);
    case _ => FutureKeepsInv(s, th, a);
  }

  lemma TakenStepKeepsInv(s: State, th: T.Thread, a: Action, s': State)
    requires Inv(s) && Step(s, th, a, s')
    ensures Inv(s')
  {
    StepKeepsInv(s, th, a);
  }

  lemma {:induction false} PathKeepsInv(path: seq<State>, trace: seq<(T.Thread, Action)>, i: nat)
    requires IsRun(path, trace) && Inv(path[0]) && i <= |trace|
    ensures Inv(path[i])
  {
    if i > 0 {
      PathKeepsInv(path, trace, i - 1);
      TakenStepKeepsInv(path[i - 1], trace[i - 1].0, trace[i - 1].1, path[i]);
    }
  }

  lemma ReachableHasInv(s: State)
    requires Reachable(s)
    ensures Inv(s)
  {
    var trace :| Runs(Start(s.rt.n, s.rt.batchers), trace, s);
    var path :| IsRun(path, trace) && path[0] == Start(s.rt.n, s.rt.batchers) && path[|trace|] == s;
    assert T.ListsOk(T.Start(s.rt.n, s.rt.batchers));
    PathKeepsInv(path, trace, |trace|);
  }

  // ----- what follows -----

  /** In no interleaving is a dispatcher's waker used after its end, or ended while it is used. */
  lemma NeverBroken(s: State)
    requires Reachable(s)
    ensures !s.broken
    ensures forall d :: d in s.disps && !s.disps[d].link.Freed? ==> T.MayBorrow(s.rt, s.disps[d].task, s.disps[d].waker)
  {
    ReachableHasInv(s);
    assert forall d :: d in s.disps ==> WakerOk(s, d);
  }

  /** A reactor that has swapped a 0 out of a status can make the wake: the waker behind the raw pointer exists and is
      not being dropped, because the reactor still holds its lock. */
  lemma OwedWakeCanBeMade(s: State, x: nat)
    requires Reachable(s) && x in s.owing
    ensures Enabled(s, T.Outside(x), NotifyWake) && x in s.locked
    ensures var disp := s.disps[s.owing[x]];
            disp.link.Linked? && T.Enabled(s.rt, T.Outside(x), T.StartWake(disp.task, disp.waker, false))
  {
    ReachableHasInv(s);
    assert OwingOk(s, x);
    OwedWakeIsSafe(s, T.Outside(x));
  }

  /** When `del` drops a dispatcher's memory, and the waker in it, no thread is inside an operation on that waker. */
  lemma DroppedWakerIsUnused(s: State, d: nat)
    requires Reachable(s) && d in s.disps && s.disps[d].link.Unlinked?
    ensures T.MayEnd(s.rt, s.disps[d].task, s.disps[d].waker)
  {
    ReachableHasInv(s);
    assert WakerOk(s, d);
    UnlinkedIsUnused(s, d);
  }

  lemma IdleMeansNoEvent(s: State, d: nat)
    requires Inv(s) && d in s.disps
    ensures var disp := s.disps[d];
            disp.io.Suspended? && disp.task in s.rt.tasks && s.rt.tasks[disp.task].status == T.NOBITS &&
            !OwesWake(s, disp.task) ==>
              disp.status == 0 && !disp.event
  {
  }

  /** No lost readiness: a task idle inside `wait_io` has had no event, on any dispatcher that it waits on, since
      `prepare_io`, and that dispatcher's status is 0, so that the next event wakes it; or some thread already owes it a
      wake. */
  lemma IdleTaskMissedNothing(s: State, d: nat)
    requires Reachable(s) && d in s.disps && s.disps[d].io.Suspended?
    ensures s.disps[d].task in s.rt.tasks && s.disps[d].link.Linked?
    ensures s.rt.tasks[s.disps[d].task].status == T.NOBITS ==>
              (s.disps[d].status == 0 && !s.disps[d].event) || OwesWake(s, s.disps[d].task)
  {
    ReachableHasInv(s);
    assert IoOk(s, d);
    IdleMeansNoEvent(s, d);
  }

  /** The compare-exchange of `wait_io` suspends exactly when no event came since `prepare_io`; otherwise the I/O is
      retried. */
  lemma WaitSuspendsIffNoEvent(s: State, th: T.Thread, d: nat)
    requires Reachable(s) && Enabled(s, th, Wait(d))
    ensures Next(s, th, Wait(d)).disps[d].io == if s.disps[d].event then Retrying else Suspending
  {
    ReachableHasInv(s);
    assert IoOk(s, d);
  }

  lemma StepKeepsEvent(s: State, th: T.Thread, a: Action, s': State, d: nat)
    requires Step(s, th, a, s') && d in s.disps
    ensures d in s'.disps && s'.disps[d].task == s.disps[d].task && s.disps[d].tries <= s'.disps[d].tries
    ensures s.disps[d].event && s.disps[d].tries == s'.disps[d].tries ==> s'.disps[d].event
  {
  }

  /** Until the next `prepare_io`, an event stays recorded. */
  lemma {:induction false} EventStays(path: seq<State>, trace: seq<(T.Thread, Action)>, i: nat, d: nat)
    requires IsRun(path, trace) && i <= |trace| && d in path[0].disps
    ensures d in path[i].disps && path[0].disps[d].tries <= path[i].disps[d].tries
    ensures path[0].disps[d].event && path[0].disps[d].tries == path[i].disps[d].tries ==> path[i].disps[d].event
  {
    if i > 0 {
      EventStays(path, trace, i - 1, d);
      StepKeepsEvent(path[i - 1], trace[i - 1].0, trace[i - 1].1, path[i], d);
    }
  }

  /** An event leads to a retry: once a dispatcher is notified, its task is never again suspended on it, idle, and with
      nobody about to wake it, before the I/O has been tried again. */
  lemma NotifiedIoIsRetried(s: State, th: T.Thread, d: nat, trace: seq<(T.Thread, Action)>, u: State)
    requires Reachable(s) && Enabled(s, th, Notify(d)) && Runs(Next(s, th, Notify(d)), trace, u)
    ensures d in u.disps
    ensures var disp := u.disps[d];
            disp.io.Suspended? && disp.task in u.rt.tasks && u.rt.tasks[disp.task].status == T.NOBITS &&
            !OwesWake(u, disp.task) ==>
              disp.tries > s.disps[d].tries
  {
    ReachableHasInv(s);
    StepKeepsInv(s, th, Notify(d));
    var path :| IsRun(path, trace) && path[0] == Next(s, th, Notify(d)) && path[|trace|] == u;
    PathKeepsInv(path, trace, |trace|);
    EventStays(path, trace, |trace|, d);
    IdleMeansNoEvent(u, d);
  }
}
