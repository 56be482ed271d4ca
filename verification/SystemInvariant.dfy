/** Every run of the whole system is a run of both machines that it is made of, and they stay in agreement. */
module SystemInvariant {
  import P = Parking
  import PI = ParkingInvariant
  import PT = ParkingTheorems
  import T = TaskLife
  import TO = TaskLifeOperations
  import R = Readiness
  import RI = ReadinessInvariant
  import opened System

  // ----- projections -----

  lemma ParkReachesNext(s: P.State, w: nat, a: P.Action)
    requires P.Reachable(s) && P.Enabled(s, w, a)
    ensures P.Reachable(P.Next(s, w, a)) && P.Next(s, w, a).n == s.n
  {
    var s' := P.Next(s, w, a);
    var m, trace :| P.Runs(P.Start(s.n, m), trace, s);
    PT.OneStepRuns(s, w, a, s');
    PT.RunsCompose(P.Start(s.n, m), trace, s, [(w, a)], s');
  }

  /** A lock section of `push_batch` is a run of single pushes. */
  lemma {:induction false} ParkReachesPushed(s: P.State, i: nat, q: nat, k: nat)
    requires P.Reachable(s) && P.Shape(s) && s.n <= i < |s.pcs| && q < s.n && (s.pcs[i].Running? || s.pcs[i].Bump?)
    ensures P.Reachable(Pushed(s, i, q, k))
  {
    if k > 0 {
      ParkReachesPushed(s, i, q, k - 1);
      PushOneMore(s, i, q, k - 1);
      ParkReachesNext(Pushed(s, i, q, k - 1), i, P.OutsidePush(q));
    }
  }

  lemma PushOneMore(s: P.State, i: nat, q: nat, k: nat)
    requires P.Shape(s) && s.n <= i < |s.pcs| && q < s.n && (s.pcs[i].Running? || s.pcs[i].Bump?)
    ensures P.Enabled(Pushed(s, i, q, k), i, P.OutsidePush(q))
    ensures P.Next(Pushed(s, i, q, k), i, P.OutsidePush(q)) == Pushed(s, i, q, k + 1)
  {
    var s1, s2 := Pushed(s, i, q, k), Pushed(s, i, q, k + 1);
    assert s.queues[q] + Copies(k + 1) == s1.queues[q] + [P.Ordinary];
    assert P.Next(s1, i, P.OutsidePush(q)).queues == s2.queues;
  }

  lemma SizesStay(s: R.State, th: T.Thread, b: R.Action)
    requires R.Enabled(s, th, b)
    ensures R.Next(s, th, b).rt.n == s.rt.n && R.Next(s, th, b).rt.batchers == s.rt.batchers
  {
  }

  lemma IoReachesNext(s: R.State, th: T.Thread, b: R.Action)
    requires R.Reachable(s) && R.Enabled(s, th, b)
    ensures R.Reachable(R.Next(s, th, b))
  {
    var s' := R.Next(s, th, b);
    var trace :| R.Runs(R.Start(s.rt.n, s.rt.batchers), trace, s);
    var path :| R.IsRun(path, trace) && path[0] == R.Start(s.rt.n, s.rt.batchers) && path[|trace|] == s;
    RunExtends(path, trace, th, b, s');
    SizesStay(s, th, b);
    assert R.Runs(R.Start(s'.rt.n, s'.rt.batchers), trace + [(th, b)], s');
  }

  lemma RunExtends(path: seq<R.State>, trace: seq<(T.Thread, R.Action)>, th: T.Thread, b: R.Action, s': R.State)
    requires R.IsRun(path, trace) && R.Step(path[|trace|], th, b, s')
    ensures R.IsRun(path + [s'], trace + [(th, b)])
  {
  }

  lemma StepProjects(c: State, th: T.Thread, act: Action)
    requires P.Reachable(c.park) && R.Reachable(c.io) && Enabled(c, th, act)
    ensures P.Reachable(Next(c, th, act).park) && R.Reachable(Next(c, th, act).io)
  {
    var i := Index(c.park.n, th);
    match act
    case Sched(a) => ParkReachesNext(c.park, i, a);
    case Work(b) => IoReachesNext(c.io, th, b);
    case Both(a, b) =>
      ParkReachesNext(c.park, i, a);
      IoReachesNext(c.io, th, R.Runtime(b));
    case Flush =>
      var w := c.loops[th.x].w;
      ParkReachesPushed(c.park, i, w, |c.io.rt.lists[T.Batch(th.x, w)]|);
      IoReachesNext(c.io, th, R.Runtime(T.Flush(w)));
    case _ =>
  }

  // ----- the queues stay the same -----

  lemma JobQueueAfter(s: P.State, i: nat, m: P.Move, w: nat)
    requires P.Shape(s) && i < |s.pcs| && w < s.n && PI.RangeLaw(s, i, m)
    ensures P.Shape(P.Apply(s, i, m)) && P.Apply(s, i, m).n == s.n
    ensures P.Apply(s, i, m).queues[w] ==
            if m.Push? && m.q == w then TO.Pushing(s.queues[w], m.job, m.front)
            else if m.Take? && m.q == w then s.queues[w][1..]
            else s.queues[w]
  {
  }

  lemma KindsPush(sh: set<nat>, l: seq<nat>, t: nat, front: bool)
    ensures Kinds(sh, TO.Pushing(l, t, front)) == TO.Pushing(Kinds(sh, l), KindOf(sh, t), front)
  {
    var a, b := Kinds(sh, TO.Pushing(l, t, front)), TO.Pushing(Kinds(sh, l), KindOf(sh, t), front);
    assert |a| == |b|;
    if front {
      assert forall i :: 0 <= i < |a| ==> a[i] == b[i];
    } else {
      assert forall i :: 0 <= i < |a| ==> a[i] == b[i];
    }
  }

  lemma KindsGrow(sh: set<nat>, l: seq<nat>, t: nat)
    requires t !in l
    ensures Kinds(sh + {t}, l) == Kinds(sh, l)
  {
  }

  lemma KindsTail(sh: set<nat>, l: seq<nat>)
    requires l != []
    ensures Kinds(sh, l[1..]) == Kinds(sh, l)[1..]
  {
  }

  lemma KindsCopies(sh: set<nat>, l: seq<nat>, moved: seq<nat>)
    requires forall i :: 0 <= i < |moved| ==> moved[i] !in sh
    ensures Kinds(sh, l + moved) == Kinds(sh, l) + Copies(|moved|)
  {
    CopiesAreOrdinary(|moved|);
  }

  lemma {:induction false} CopiesAreOrdinary(k: nat)
    ensures forall i :: 0 <= i < k ==> Copies(k)[i] == P.Ordinary
  {
    if k > 0 {
      CopiesAreOrdinary(k - 1);
    }
  }

  // ----- the workers stay in agreement with their tasks -----

  /** A step of `main_loop` that moves no task. */
  lemma SchedKeepsFit(s: P.State, w: nat, a: P.Action, task: T.Pc, sh: set<nat>)
    requires P.Enabled(s, w, a) && w < s.n && Fits(s.pcs[w], task, sh) && SchedFits(a, task)
    requires P.PcOk(s.n, s.bumps, true, s.pcs[w])
    requires !P.MoveOf(s, w, a).Push? && !P.MoveOf(s, w, a).Take?
    ensures Fits(P.MoveOf(s, w, a).pc, task, sh)
  {
  }

  /** A step of a worker with its task. */
  lemma WorkKeepsFit(rt: T.State, w: nat, b: T.Action, pc: P.Pc, sh: set<nat>)
    requires T.Enabled(rt, T.Worker(w), b) && MovesNothing(rt, T.Worker(w), b) && WorkFits(b, pc)
    requires Fits(pc, T.PcOf(rt.pcs, T.Worker(w)), sh)
    ensures Fits(pc, T.PcOf(T.Next(rt, T.Worker(w), b).pcs, T.Worker(w)), sh)
  {
  }

  lemma PushKeepsFit(s: P.State, w: nat, a: P.Action, task: T.Pc, sh: set<nat>)
    requires P.Enabled(s, w, a) && w < s.n && Fits(s.pcs[w], task, sh) && SchedFits(a, task) && P.MoveOf(s, w, a).Push?
    ensures task.Polling? && Fits(P.MoveOf(s, w, a).pc, task, sh)
  {
  }

  lemma PopKeepsFit(s: P.State, w: nat, a: P.Action, t: nat, sh: set<nat>)
    requires P.Enabled(s, w, a) && w < s.n && P.MoveOf(s, w, a).Take? &&
             P.FrontOf(s, P.MoveOf(s, w, a).q) == KindOf(sh, t)
    ensures Fits(P.MoveOf(s, w, a).pc, if P.MoveOf(s, w, a).q == w then T.Held(t) else T.Stolen(t), sh)
  {
  }

  lemma PcAfterMove(rt: T.State, w: nat, b: T.Action, m: P.Move)
    requires T.Enabled(rt, T.Worker(w), b) && Matches(rt, T.Worker(w), m, b)
    requires m.Push? ==> T.PcOf(rt.pcs, T.Worker(w)).Polling?
    ensures T.PcOf(T.Next(rt, T.Worker(w), b).pcs, T.Worker(w)) ==
            if m.Push? then T.PcOf(rt.pcs, T.Worker(w))
            else var t := T.Subject(rt, T.Worker(w), b); if m.q == w then T.Held(t) else T.Stolen(t)
  {
  }

  /** A new shutdown task is nobody's task in hand. */
  lemma FitsGrow(pc: P.Pc, task: T.Pc, sh: set<nat>, t: nat)
    requires Fits(pc, task, sh) && (task.Rest? || task.t != t)
    ensures Fits(pc, task, sh + {t})
  {
  }

  /** A step of `Parking` changes no other worker's fit: at most it is released from the parking lot. */
  lemma OthersKeepFit(s: P.State, i: nat, m: P.Move, v: nat, task: T.Pc, sh: set<nat>)
    requires P.Shape(s) && i < |s.pcs| && v < s.n && v != i && Fits(s.pcs[v], task, sh)
    ensures v < |P.Apply(s, i, m).pcs| && Fits(P.Apply(s, i, m).pcs[v], task, sh)
  {
  }

  lemma SelfMovesTo(s: P.State, i: nat, m: P.Move)
    requires i < |s.pcs| && PI.WakeLaw(s, i, m)
    ensures i < |P.Apply(s, i, m).pcs| && P.Apply(s, i, m).pcs[i] == m.pc
  {
  }

  lemma ParkLaws(s: P.State, i: nat, a: P.Action)
    requires P.Reachable(s) && P.Enabled(s, i, a)
    ensures PI.RangeLaw(s, i, P.MoveOf(s, i, a)) && PI.WakeLaw(s, i, P.MoveOf(s, i, a))
    ensures P.PcOk(s.n, s.bumps, i < s.n, s.pcs[i])
  {
    PI.ReachableHasInv(s);
    assert P.PcOk(s.n, s.bumps, i < s.n, s.pcs[i]);
    PI.MoveIsLawful(s, i, a);
  }

  // ----- every step keeps the agreement -----

  lemma SchedKeepsAgreement(c: State, th: T.Thread, a: P.Action, m: P.Move, w: nat)
    requires P.Shape(c.park) && w < c.park.n && AgreeOn(c, w)
    requires Enabled(c, th, Sched(a)) && m == P.MoveOf(c.park, Index(c.park.n, th), a)
    requires P.PcOk(c.park.n, c.park.bumps, th.Worker?, ParkPc(c, th))
    requires PI.WakeLaw(c.park, Index(c.park.n, th), m) && PI.RangeLaw(c.park, Index(c.park.n, th), m)
    ensures var s' := P.Apply(c.park, Index(c.park.n, th), m);
            P.Shape(s') && s'.n == c.park.n && AgreeOn(c.(park := s'), w)
  {
    var i := Index(c.park.n, th);
    JobQueueAfter(c.park, i, m, w);
    if w == i {
      SchedKeepsFit(c.park, w, a, TaskPc(c, th), c.shutdowns);
      SelfMovesTo(c.park, i, m);
    } else {
      OthersKeepFit(c.park, i, m, w, TaskPc(c, T.Worker(w)), c.shutdowns);
    }
  }

  lemma TaskStepKeepsAgreement(c: State, th: T.Thread, b: T.Action, io': R.State, w: nat)
    requires P.Shape(c.park) && w < c.park.n && AgreeOn(c, w) && Exists(c, th)
    requires T.Enabled(c.io.rt, th, b) && io'.rt == T.Next(c.io.rt, th, b)
    requires MovesNothing(c.io.rt, th, b) && (th.Worker? ==> WorkFits(b, ParkPc(c, th)))
    ensures AgreeOn(c.(io := io'), w)
  {
    TO.TaskListAfter(c.io.rt, th, b, T.Queue(w));
    if th == T.Worker(w) {
      WorkKeepsFit(c.io.rt, w, b, c.park.pcs[w], c.shutdowns);
    } else {
      RI.OtherThreadsRest(c.io.rt, th, b, T.Worker(w));
    }
  }

  /** The runtime's part in a step of tasks, futures and reactors. */
  ghost predicate RuntimePart(s: R.State, th: T.Thread, b: R.Action, ta: T.Action)
    requires R.Enabled(s, th, b)
  {
    && T.Enabled(s.rt, th, ta) && R.Next(s, th, b).rt == T.Next(s.rt, th, ta)
    && match b
       case Runtime(a) => ta == a
       case NewDispatcher(_, k, _) => ta == T.CloneInPoll(k)
       case Free(_) => ta.StartDrop?
       case NotifyWake => ta.StartWake?
       case _ => false
  }

  lemma PartOf(s: R.State, th: T.Thread, b: R.Action)
    requires R.Enabled(s, th, b)
    ensures R.Next(s, th, b).rt == s.rt || exists ta :: RuntimePart(s, th, b, ta)
  {
    match b
    case Runtime(a) => assert RuntimePart(s, th, b, a);
    case NewDispatcher(_, k, _) => assert RuntimePart(s, th, b, T.CloneInPoll(k));
    case Free(d) =>
      var disp := s.disps[d];
      if T.MayEnd(s.rt, disp.task, disp.waker) {
        assert RuntimePart(s, th, b, T.StartDrop(disp.task, disp.waker));
      }
    case NotifyWake =>
      var disp := s.disps[s.owing[th.x]];
      if T.Enabled(s.rt, th, T.StartWake(disp.task, disp.waker, false)) {
        assert RuntimePart(s, th, b, T.StartWake(disp.task, disp.waker, false));
      }
    case _ =>
  }

  lemma WorkKeepsAgreement(c: State, th: T.Thread, b: R.Action, w: nat)
    requires P.Shape(c.park) && w < c.park.n && AgreeOn(c, w) && Enabled(c, th, Work(b))
    ensures AgreeOn(c.(io := R.Next(c.io, th, b)), w)
  {
    PartOf(c.io, th, b);
    if ta :| RuntimePart(c.io, th, b, ta) {
      TaskStepKeepsAgreement(c, th, ta, R.Next(c.io, th, b), w);
    }
  }

  lemma SameAgreement(c: State, c': State, w: nat)
    requires P.Shape(c.park) && w < c.park.n && AgreeOn(c, w) && c' == c.(loops := c'.loops)
    ensures AgreeOn(c', w)
  {
  }

  /** The shutdown tasks after a push or pop. */
  function ShutdownsAfter(sh: set<nat>, m: P.Move, b: T.Action): set<nat>
  {
    if b.Create? && m.Push? && m.job.Shutdown? then sh + {b.t} else sh
  }

  /** What a push or pop relies on: a created task is new, and a woken task is not a shutdown task. */
  predicate KnownTasks(rt: T.State, th: T.Thread, b: T.Action, sh: set<nat>)
  {
    && (b.Create? ==> b.t !in sh && forall p, i :: p in rt.lists && 0 <= i < |rt.lists[p]| ==> rt.lists[p][i] != b.t)
    && (b.Schedule? ==> T.Subject(rt, th, b) !in sh)
  }

  lemma TasksAreKnown(c: State, th: T.Thread, b: T.Action)
    requires T.ListsOk(c.io.rt) && T.ThreadsOk(c.io.rt) && T.Enabled(c.io.rt, th, b)
    requires forall t :: t in c.shutdowns ==> t in c.io.rt.tasks && c.io.rt.tasks[t].wakers == {}
    ensures KnownTasks(c.io.rt, th, b, c.shutdowns)
  {
  }

  lemma QueueAfterBoth(c: State, i: nat, th: T.Thread, m: P.Move, b: T.Action, w: nat)
    requires P.Shape(c.park) && w < c.park.n && AgreeOn(c, w) && i < |c.park.pcs| && PI.RangeLaw(c.park, i, m)
    requires T.Enabled(c.io.rt, th, b) && Matches(c.io.rt, th, m, b) && KnownTasks(c.io.rt, th, b, c.shutdowns)
    ensures P.Shape(P.Apply(c.park, i, m)) && P.Apply(c.park, i, m).n == c.park.n
    ensures T.Queue(w) in T.Next(c.io.rt, th, b).lists
    ensures P.Apply(c.park, i, m).queues[w] ==
            Kinds(ShutdownsAfter(c.shutdowns, m, b), T.Next(c.io.rt, th, b).lists[T.Queue(w)])
  {
    var l, sh, sh' := c.io.rt.lists[T.Queue(w)], c.shutdowns, ShutdownsAfter(c.shutdowns, m, b);
    var t := T.Subject(c.io.rt, th, b);
    JobQueueAfter(c.park, i, m, w);
    TO.TaskListAfter(c.io.rt, th, b, T.Queue(w));
    if b.Create? {
      KindsGrow(sh, l, t);
    }
    if m.q == w && m.Push? {
      KindsPush(sh', l, t, m.front);
    } else if m.q == w {
      KindsTail(sh, l);
    }
  }

  lemma FitAfterMove(c: State, w: nat, a: P.Action, m: P.Move, b: T.Action)
    requires P.Shape(c.park) && w < c.park.n && AgreeOn(c, w)
    requires P.Enabled(c.park, w, a) && m == P.MoveOf(c.park, w, a) && SchedFits(a, TaskPc(c, T.Worker(w)))
    requires T.Enabled(c.io.rt, T.Worker(w), b) && Matches(c.io.rt, T.Worker(w), m, b)
    requires m.Take? ==> m.q < c.park.n && AgreeOn(c, m.q)
    ensures Fits(m.pc, T.PcOf(T.Next(c.io.rt, T.Worker(w), b).pcs, T.Worker(w)), c.shutdowns)
  {
    if m.Push? {
      PushKeepsFit(c.park, w, a, TaskPc(c, T.Worker(w)), c.shutdowns);
    } else {
      PopKeepsFit(c.park, w, a, T.Subject(c.io.rt, T.Worker(w), b), c.shutdowns);
    }
    PcAfterMove(c.io.rt, w, b, m);
  }

  lemma OthersFitAfterBoth(c: State, i: nat, th: T.Thread, m: P.Move, b: T.Action, w: nat)
    requires P.Shape(c.park) && i < |c.park.pcs| && w < c.park.n && w != i && th != T.Worker(w) && AgreeOn(c, w)
    requires T.Enabled(c.io.rt, th, b)
    ensures w < |P.Apply(c.park, i, m).pcs|
    ensures Fits(P.Apply(c.park, i, m).pcs[w], T.PcOf(T.Next(c.io.rt, th, b).pcs, T.Worker(w)), c.shutdowns)
  {
    RI.OtherThreadsRest(c.io.rt, th, b, T.Worker(w));
    OthersKeepFit(c.park, i, m, w, TaskPc(c, T.Worker(w)), c.shutdowns);
  }

  /** No thread has a task in hand that does not exist yet. */
  lemma HandsAreOld(rt: T.State, th: T.Thread, b: T.Action, v: T.Thread)
    requires T.ThreadsOk(rt) && T.Enabled(rt, th, b) && b.Create?
    ensures var pc := T.PcOf(T.Next(rt, th, b).pcs, v); pc.Rest? || pc.t != b.t
  {
  }

  lemma BothKeepsAgreement(c: State, i: nat, th: T.Thread, m: P.Move, b: T.Action, w: nat)
    requires P.Shape(c.park) && w < c.park.n && AgreeOn(c, w) && i < |c.park.pcs| && i == Index(c.park.n, th)
    requires PI.WakeLaw(c.park, i, m) && PI.RangeLaw(c.park, i, m)
    requires T.Enabled(c.io.rt, th, b) && Matches(c.io.rt, th, m, b)
    requires w == i ==> Fits(m.pc, T.PcOf(T.Next(c.io.rt, th, b).pcs, T.Worker(w)), c.shutdowns)
    requires KnownTasks(c.io.rt, th, b, c.shutdowns) && T.ThreadsOk(c.io.rt)
    ensures var s', io' := P.Apply(c.park, i, m), c.io.(rt := T.Next(c.io.rt, th, b));
            && P.Shape(s') && s'.n == c.park.n
            && AgreeOn(c.(park := s', io := io', shutdowns := ShutdownsAfter(c.shutdowns, m, b)), w)
  {
    QueueAfterBoth(c, i, th, m, b, w);
    if w == i {
      SelfMovesTo(c.park, i, m);
    } else {
      OthersFitAfterBoth(c, i, th, m, b, w);
    }
    if b.Create? {
      HandsAreOld(c.io.rt, th, b, T.Worker(w));
      FitsGrow(P.Apply(c.park, i, m).pcs[w], T.PcOf(T.Next(c.io.rt, th, b).pcs, T.Worker(w)), c.shutdowns, b.t);
    }
  }

  lemma FlushKeepsAgreement(c: State, th: T.Thread, w: nat)
    requires P.Shape(c.park) && w < c.park.n && AgreeOn(c, w) && Enabled(c, th, Flush)
    requires forall x: nat, v: nat, i :: T.Batch(x, v) in c.io.rt.lists && 0 <= i < |c.io.rt.lists[T.Batch(x, v)]| ==>
               c.io.rt.lists[T.Batch(x, v)][i] !in c.shutdowns
    ensures var c' := Next(c, th, Flush); P.Shape(c'.park) && c'.park.n == c.park.n && AgreeOn(c', w)
  {
    var v := c.loops[th.x].w;
    KindsCopies(c.shutdowns, c.io.rt.lists[T.Queue(v)], c.io.rt.lists[T.Batch(th.x, v)]);
  }

  // ----- the reactors' loops -----

  /** Nothing changes for reactor `x`. */
  ghost predicate SameReactor(c: State, c': State, x: nat)
  {
    && x in c.loops && x in c'.loops && c'.loops[x] == c.loops[x] && c'.park.n == c.park.n &&
      |c'.park.pcs| == |c.park.pcs|
    && (x in c'.io.locked <==> x in c.io.locked) && (x in c'.io.owing ==> x in c.io.owing)
    && TaskPc(c', T.Outside(x)) == TaskPc(c, T.Outside(x))
    && (Exists(c, T.Outside(x)) ==> ParkPc(c', T.Outside(x)) == ParkPc(c, T.Outside(x)))
    && forall w: nat :: T.Batch(x, w) in c'.io.rt.lists ==>
         T.Batch(x, w) in c.io.rt.lists && c'.io.rt.lists[T.Batch(x, w)] == c.io.rt.lists[T.Batch(x, w)]
  }

  lemma SameLoop(c: State, c': State, x: nat)
    requires SameReactor(c, c', x) && LoopOk(c, x)
    ensures LoopOk(c', x)
  {
  }

  /** An outside thread is never parked, so no other thread moves it. */
  lemma OutsideStays(s: P.State, i: nat, m: P.Move, j: nat)
    requires P.Shape(s) && i < |s.pcs| && s.n <= j < |s.pcs| && j != i && P.PcOk(s.n, s.bumps, false, s.pcs[j])
    ensures |P.Apply(s, i, m).pcs| == |s.pcs| && P.Apply(s, i, m).pcs[j] == s.pcs[j]
  {
  }

  lemma ListsStay(rt: T.State, th: T.Thread, b: T.Action)
    requires T.Enabled(rt, th, b)
    ensures T.Next(rt, th, b).lists.Keys == rt.lists.Keys
  {
  }

  lemma BatchStays(rt: T.State, th: T.Thread, b: T.Action, x: nat, w: nat)
    requires T.Enabled(rt, th, b) && th != T.Outside(x) && T.Batch(x, w) in rt.lists
    ensures T.Batch(x, w) in T.Next(rt, th, b).lists
    ensures T.Next(rt, th, b).lists[T.Batch(x, w)] == rt.lists[T.Batch(x, w)]
  {
    if !b.Flush? {
      TO.TaskListAfter(rt, th, b, T.Batch(x, w));
    }
  }

  /** What another thread's step of the runtime leaves to reactor `x`. */
  lemma RuntimeLeaves(rt: T.State, th: T.Thread, b: T.Action, x: nat)
    requires T.Enabled(rt, th, b) && th != T.Outside(x)
    ensures var rt' := T.Next(rt, th, b);
            && T.PcOf(rt'.pcs, T.Outside(x)) == T.PcOf(rt.pcs, T.Outside(x))
            && forall w: nat :: T.Batch(x, w) in rt'.lists ==>
                 T.Batch(x, w) in rt.lists && rt'.lists[T.Batch(x, w)] == rt.lists[T.Batch(x, w)]
  {
    RI.OtherThreadsRest(rt, th, b, T.Outside(x));
    ListsStay(rt, th, b);
    forall w: nat | T.Batch(x, w) in rt.lists
      ensures T.Next(rt, th, b).lists[T.Batch(x, w)] == rt.lists[T.Batch(x, w)]
    {
      BatchStays(rt, th, b, x, w);
    }
  }

  lemma LockLeaves(s: R.State, th: T.Thread, b: R.Action, x: nat)
    requires R.Enabled(s, th, b) && th != T.Outside(x)
    ensures var s' := R.Next(s, th, b);
            (x in s'.locked <==> x in s.locked) && (x in s'.owing <==> x in s.owing)
  {
  }

  lemma IoLeaves(s: R.State, th: T.Thread, b: R.Action, x: nat)
    requires R.Enabled(s, th, b) && th != T.Outside(x)
    ensures var rt' := R.Next(s, th, b).rt;
            && T.PcOf(rt'.pcs, T.Outside(x)) == T.PcOf(s.rt.pcs, T.Outside(x))
            && forall w: nat :: T.Batch(x, w) in rt'.lists ==>
                 T.Batch(x, w) in s.rt.lists && rt'.lists[T.Batch(x, w)] == s.rt.lists[T.Batch(x, w)]
  {
    PartOf(s, th, b);
    if ta :| RuntimePart(s, th, b, ta) {
      RuntimeLeaves(s.rt, th, ta, x);
    }
  }

  lemma OtherLoopAfterSched(c: State, th: T.Thread, a: P.Action, x: nat)
    requires P.Shape(c.park) && Enabled(c, th, Sched(a)) && x in c.loops && LoopOk(c, x) && th != T.Outside(x)
    requires Exists(c, T.Outside(x)) ==> P.PcOk(c.park.n, c.park.bumps, false, ParkPc(c, T.Outside(x)))
    requires |P.Next(c.park, Index(c.park.n, th), a).pcs| == |c.park.pcs| &&
             P.Next(c.park, Index(c.park.n, th), a).n == c.park.n
    ensures LoopOk(Next(c, th, Sched(a)), x)
  {
    var i := Index(c.park.n, th);
    if Exists(c, T.Outside(x)) {
      OutsideStays(c.park, i, P.MoveOf(c.park, i, a), c.park.n + x);
    }
    SameLoop(c, Next(c, th, Sched(a)), x);
  }

  lemma OtherLoopAfterWork(c: State, th: T.Thread, b: R.Action, x: nat)
    requires Enabled(c, th, Work(b)) && x in c.loops && LoopOk(c, x) && th != T.Outside(x)
    ensures LoopOk(Next(c, th, Work(b)), x)
  {
    LockLeaves(c.io, th, b, x);
    IoLeaves(c.io, th, b, x);
    SameLoop(c, Next(c, th, Work(b)), x);
  }

  /** Nothing changes for reactor `x` when another thread pushes or pops. */
  lemma OtherLoopAfterBoth(c: State, c': State, i: nat, m: P.Move, th: T.Thread, b: T.Action, x: nat)
    requires P.Shape(c.park) && i == Index(c.park.n, th) && i < |c.park.pcs| && x in c.loops && th != T.Outside(x)
    requires LoopOk(c, x) && T.Enabled(c.io.rt, th, b)
    requires c'.park == P.Apply(c.park, i, m) && c'.io.rt == T.Next(c.io.rt, th, b) && c'.loops == c.loops
    requires c'.io.locked == c.io.locked && c'.io.owing == c.io.owing
    requires |c'.park.pcs| == |c.park.pcs| && c'.park.n == c.park.n && (th.Worker? ==> th.w < c.park.n)
    requires Exists(c, T.Outside(x)) ==> P.PcOk(c.park.n, c.park.bumps, false, ParkPc(c, T.Outside(x)))
    ensures LoopOk(c', x)
  {
    if Exists(c, T.Outside(x)) {
      OutsideStays(c.park, i, m, c.park.n + x);
    }
    RuntimeLeaves(c.io.rt, th, b, x);
    SameLoop(c, c', x);
  }

  lemma OtherLoopAfterFlush(c: State, th: T.Thread, x: nat)
    requires P.Shape(c.park) && Enabled(c, th, Flush) && x in c.loops && LoopOk(c, x) && th != T.Outside(x)
    ensures LoopOk(Next(c, th, Flush), x)
  {
  }

  lemma OwnLoopAfterWork(c: State, th: T.Thread, b: R.Action)
    requires Enabled(c, th, Work(b)) && Reactor(c, th) && LoopOk(c, th.x)
    ensures LoopOk(Next(c, th, Work(b)), th.x)
  {
  }

  lemma OwnLoopAfterFlush(c: State, th: T.Thread)
    requires P.Shape(c.park) && Enabled(c, th, Flush) && LoopOk(c, th.x)
    ensures LoopOk(Next(c, th, Flush), th.x)
  {
  }

  lemma LoopTurns(c: State, th: T.Thread, act: Action, x: nat)
    requires Enabled(c, th, act) && (act.BeginFlush? || act.EndFlush?) && x in c.loops && LoopOk(c, x)
    ensures LoopOk(Next(c, th, act), x)
  {
  }

  lemma OwnLoopAfterSched(c: State, th: T.Thread, a: P.Action)
    requires Enabled(c, th, Sched(a)) && Reactor(c, th) && LoopOk(c, th.x)
    requires P.Next(c.park, Index(c.park.n, th), a).n == c.park.n
    ensures LoopOk(Next(c, th, Sched(a)), th.x)
  {
  }

  // ----- shutdown tasks -----

  /** A task without wakers gets one only from its own poll. */
  lemma NoNewWakers(rt: T.State, th: T.Thread, b: T.Action, t: nat)
    requires T.Enabled(rt, th, b) && t in rt.tasks && rt.tasks[t].wakers == {}
    requires !(b.CloneInPoll? && T.PcOf(rt.pcs, th).t == t)
    ensures t in T.Next(rt, th, b).tasks && T.Next(rt, th, b).tasks[t].wakers == {}
  {
  }

  ghost predicate BatchesOk(rt: T.State, sh: set<nat>)
  {
    forall x: nat, w: nat, i :: T.Batch(x, w) in rt.lists && 0 <= i < |rt.lists[T.Batch(x, w)]| ==>
      rt.lists[T.Batch(x, w)][i] !in sh
  }

  lemma BatchesKept(rt: T.State, th: T.Thread, b: T.Action, sh: set<nat>)
    requires T.Enabled(rt, th, b) && BatchesOk(rt, sh) && KnownTasks(rt, th, b, sh)
    ensures BatchesOk(T.Next(rt, th, b), sh)
  {
    ListsStay(rt, th, b);
    if !b.Flush? {
      forall x: nat, w: nat, i | T.Batch(x, w) in rt.lists && 0 <= i < |T.Next(rt, th, b).lists[T.Batch(x, w)]|
        ensures T.Next(rt, th, b).lists[T.Batch(x, w)][i] !in sh
      {
        TO.TaskListAfter(rt, th, b, T.Batch(x, w));
      }
    }
  }

  /** A worker that clones its waker polls an ordinary future. */
  lemma ShutdownsDoNotClone(c: State, th: T.Thread, b: R.Action, ta: T.Action)
    requires Coupled(c) && T.ThreadsOk(c.io.rt) && Enabled(c, th, Work(b)) && RuntimePart(c.io, th, b, ta) &&
             ta.CloneInPoll?
    ensures TaskPc(c, th).t !in c.shutdowns && TaskPc(c, th).t in c.io.rt.tasks
  {
    assert T.ThreadOk(c.io.rt, th, TaskPc(c, th));
    assert AgreeOn(c, th.w);
  }

  lemma WorkKeepsTasks(c: State, th: T.Thread, b: R.Action, ta: T.Action)
    requires Coupled(c) && T.ListsOk(c.io.rt) && T.ThreadsOk(c.io.rt)
    requires Enabled(c, th, Work(b)) && RuntimePart(c.io, th, b, ta)
    ensures forall t :: t in c.shutdowns ==>
              t in T.Next(c.io.rt, th, ta).tasks && T.Next(c.io.rt, th, ta).tasks[t].wakers == {}
    ensures BatchesOk(T.Next(c.io.rt, th, ta), c.shutdowns)
  {
    TasksAreKnown(c, th, ta);
    BatchesKept(c.io.rt, th, ta, c.shutdowns);
    if ta.CloneInPoll? {
      ShutdownsDoNotClone(c, th, b, ta);
    }
    forall t | t in c.shutdowns
      ensures t in T.Next(c.io.rt, th, ta).tasks && T.Next(c.io.rt, th, ta).tasks[t].wakers == {}
    {
      NoNewWakers(c.io.rt, th, ta, t);
    }
  }

  lemma DispatchersStay(s: R.State, th: T.Thread, b: R.Action, d: nat)
    requires R.Enabled(s, th, b) && d in R.Next(s, th, b).disps
    ensures if d in s.disps then R.Next(s, th, b).disps[d].task == s.disps[d].task
            else b.NewDispatcher? && R.Next(s, th, b).disps[d].task == R.PcOf(s, th).t
  {
  }

  lemma TasksStay(s: R.State, th: T.Thread, b: R.Action, t: nat)
    requires R.Enabled(s, th, b) && t in s.rt.tasks
    ensures t in R.Next(s, th, b).rt.tasks
  {
    PartOf(s, th, b);
    if ta :| RuntimePart(s, th, b, ta) {
      RI.TaskStays(s.rt, th, ta, t);
    }
  }

  // ----- all together -----

  lemma SchedKeepsAgreed(c: State, th: T.Thread, a: P.Action)
    requires P.Reachable(c.park) && Agreed(c) && Enabled(c, th, Sched(a))
    ensures Agreed(Next(c, th, Sched(a)))
  {
    var i := Index(c.park.n, th);
    var m := P.MoveOf(c.park, i, a);
    ParkLaws(c.park, i, a);
    JobQueueAfter(c.park, i, m, 0);
    forall w: nat | w < c.park.n
      ensures AgreeOn(Next(c, th, Sched(a)), w)
    {
      assert AgreeOn(c, w);
      SchedKeepsAgreement(c, th, a, m, w);
    }
  }

  lemma WorkKeepsAgreed(c: State, th: T.Thread, b: R.Action)
    requires Agreed(c) && Enabled(c, th, Work(b))
    ensures Agreed(Next(c, th, Work(b)))
  {
    var c1 := c.(io := R.Next(c.io, th, b));
    SizesStay(c.io, th, b);
    forall w: nat | w < c.park.n
      ensures AgreeOn(Next(c, th, Work(b)), w)
    {
      assert AgreeOn(c, w);
      WorkKeepsAgreement(c, th, b, w);
      SameAgreement(c1, Next(c, th, Work(b)), w);
    }
  }

  /** The tasks of a push or pop are the tasks of its dispatchers, too. */
  lemma BothSplits(c: State, th: T.Thread, a: P.Action, b: T.Action)
    requires Enabled(c, th, Both(a, b))
    ensures var c', i := Next(c, th, Both(a, b)), Index(c.park.n, th); var m := P.MoveOf(c.park, i, a);
            && c'.park == P.Apply(c.park, i, m) && c'.io.rt == T.Next(c.io.rt, th, b)
            && c'.shutdowns == ShutdownsAfter(c.shutdowns, m, b) && c'.loops == c.loops
            && c'.io.disps == c.io.disps && c'.io.locked == c.io.locked && c'.io.owing == c.io.owing
  {
    RI.NothingMoves(c.io, th, b);
  }

  lemma SameIo(c: State, c': State, w: nat)
    requires P.Shape(c.park) && w < c.park.n && AgreeOn(c, w)
    requires c'.park == c.park && c'.io.rt == c.io.rt && c'.shutdowns == c.shutdowns
    ensures AgreeOn(c', w)
  {
  }

  lemma BothKeepsOne(c: State, th: T.Thread, a: P.Action, b: T.Action, w: nat)
    requires P.Reachable(c.park) && Agreed(c) && Enabled(c, th, Both(a, b)) && w < c.park.n
    requires KnownTasks(c.io.rt, th, b, c.shutdowns) && T.ThreadsOk(c.io.rt)
    ensures var c' := Next(c, th, Both(a, b)); P.Shape(c'.park) && c'.park.n == c.park.n && AgreeOn(c', w)
  {
    var i := Index(c.park.n, th);
    var m := P.MoveOf(c.park, i, a);
    ParkLaws(c.park, i, a);
    assert AgreeOn(c, w) && (m.Take? ==> AgreeOn(c, m.q));
    if w == i {
      FitAfterMove(c, w, a, m, b);
    }
    BothKeepsAgreement(c, i, th, m, b, w);
    BothSplits(c, th, a, b);
    SameIo(c.(park := P.Apply(c.park, i, m), io := c.io.(rt := T.Next(c.io.rt, th, b)),
              shutdowns := ShutdownsAfter(c.shutdowns, m, b)), Next(c, th, Both(a, b)), w);
  }

  lemma BothKeepsAgreed(c: State, th: T.Thread, a: P.Action, b: T.Action)
    requires P.Reachable(c.park) && Agreed(c) && Enabled(c, th, Both(a, b))
    requires KnownTasks(c.io.rt, th, b, c.shutdowns) && T.ThreadsOk(c.io.rt)
    ensures Agreed(Next(c, th, Both(a, b)))
  {
    SizesStay(c.io, th, R.Runtime(b));
    BothKeepsOne(c, th, a, b, 0);
    forall w: nat | w < c.park.n
      ensures AgreeOn(Next(c, th, Both(a, b)), w)
    {
      BothKeepsOne(c, th, a, b, w);
    }
  }

  lemma FlushKeepsAgreed(c: State, th: T.Thread)
    requires Agreed(c) && Enabled(c, th, Flush) && BatchesOk(c.io.rt, c.shutdowns)
    ensures Agreed(Next(c, th, Flush))
  {
    SizesStay(c.io, th, R.Runtime(T.Flush(c.loops[th.x].w)));
    assert AgreeOn(c, 0);
    FlushKeepsAgreement(c, th, 0);
    forall w: nat | w < c.park.n
      ensures AgreeOn(Next(c, th, Flush), w)
    {
      assert AgreeOn(c, w);
      FlushKeepsAgreement(c, th, w);
    }
  }

  lemma TurnsKeepAgreed(c: State, th: T.Thread, act: Action)
    requires Agreed(c) && Enabled(c, th, act) && (act.BeginFlush? || act.EndFlush?)
    ensures Agreed(Next(c, th, act))
  {
    forall w: nat | w < c.park.n
      ensures AgreeOn(Next(c, th, act), w)
    {
      assert AgreeOn(c, w);
      SameAgreement(c, Next(c, th, act), w);
    }
  }

  lemma OutsidePcOk(c: State, x: nat)
    requires P.Reachable(c.park)
    ensures Exists(c, T.Outside(x)) ==> P.PcOk(c.park.n, c.park.bumps, false, ParkPc(c, T.Outside(x)))
  {
    PI.ReachableHasInv(c.park);
  }

  lemma SizesOfPark(s: P.State, i: nat, a: P.Action)
    requires P.Enabled(s, i, a)
    ensures |P.Next(s, i, a).pcs| == |s.pcs| && P.Next(s, i, a).n == s.n
  {
  }

  lemma SchedKeepsLoops(c: State, th: T.Thread, a: P.Action)
    requires P.Reachable(c.park) && P.Shape(c.park) && LoopsOk(c) && Enabled(c, th, Sched(a))
    ensures LoopsOk(Next(c, th, Sched(a)))
  {
    SizesOfPark(c.park, Index(c.park.n, th), a);
    forall x | x in c.loops
      ensures LoopOk(Next(c, th, Sched(a)), x)
    {
      if th == T.Outside(x) {
        OwnLoopAfterSched(c, th, a);
      } else {
        OutsidePcOk(c, x);
        OtherLoopAfterSched(c, th, a, x);
      }
    }
  }

  lemma LockedAfterWork(c: State, th: T.Thread, b: R.Action)
    requires c.io.locked <= c.loops.Keys && Enabled(c, th, Work(b))
    ensures R.Next(c.io, th, b).locked <= c.loops.Keys && Next(c, th, Work(b)).loops.Keys == c.loops.Keys
  {
  }

  lemma WorkKeepsLoops(c: State, th: T.Thread, b: R.Action)
    requires LoopsOk(c) && Enabled(c, th, Work(b))
    ensures LoopsOk(Next(c, th, Work(b)))
  {
    SizesStay(c.io, th, b);
    LockedAfterWork(c, th, b);
    forall x | x in c.loops
      ensures LoopOk(Next(c, th, Work(b)), x)
    {
      if th == T.Outside(x) {
        OwnLoopAfterWork(c, th, b);
      } else {
        OtherLoopAfterWork(c, th, b, x);
      }
    }
  }

  lemma BothKeepsLoops(c: State, th: T.Thread, a: P.Action, b: T.Action)
    requires P.Reachable(c.park) && P.Shape(c.park) && LoopsOk(c) && Enabled(c, th, Both(a, b))
    ensures LoopsOk(Next(c, th, Both(a, b)))
  {
    SizesOfPark(c.park, Index(c.park.n, th), a);
    SizesStay(c.io, th, R.Runtime(b));
    BothSplits(c, th, a, b);
    forall x | x in c.loops
      ensures LoopOk(Next(c, th, Both(a, b)), x)
    {
      OutsidePcOk(c, x);
      var i := Index(c.park.n, th);
      OtherLoopAfterBoth(c, Next(c, th, Both(a, b)), i, P.MoveOf(c.park, i, a), th, b, x);
    }
  }

  lemma FlushKeepsLoops(c: State, th: T.Thread)
    requires P.Shape(c.park) && LoopsOk(c) && Enabled(c, th, Flush)
    ensures LoopsOk(Next(c, th, Flush))
  {
    SizesStay(c.io, th, R.Runtime(T.Flush(c.loops[th.x].w)));
    forall x | x in c.loops
      ensures LoopOk(Next(c, th, Flush), x)
    {
      if th == T.Outside(x) {
        OwnLoopAfterFlush(c, th);
      } else {
        OtherLoopAfterFlush(c, th, x);
      }
    }
  }

  lemma TurnsKeepLoops(c: State, th: T.Thread, act: Action)
    requires LoopsOk(c) && Enabled(c, th, act) && (act.BeginFlush? || act.EndFlush?)
    ensures LoopsOk(Next(c, th, act))
  {
    forall x | x in c.loops
      ensures LoopOk(Next(c, th, act), x)
    {
      LoopTurns(c, th, act, x);
    }
  }

  lemma WorkKeepsDispatchers(c: State, th: T.Thread, b: R.Action, d: nat)
    requires Coupled(c) && T.ThreadsOk(c.io.rt) && Enabled(c, th, Work(b)) && d in R.Next(c.io, th, b).disps
    ensures var io' := R.Next(c.io, th, b); io'.disps[d].task in io'.rt.tasks && io'.disps[d].task !in c.shutdowns
  {
    DispatchersStay(c.io, th, b, d);
    if d !in c.io.disps {
      assert RuntimePart(c.io, th, b, T.CloneInPoll(b.k));
      ShutdownsDoNotClone(c, th, b, T.CloneInPoll(b.k));
    }
    TasksStay(c.io, th, b, R.Next(c.io, th, b).disps[d].task);
  }

  lemma WorkKeepsShutdowns(c: State, th: T.Thread, b: R.Action)
    requires Coupled(c) && T.ListsOk(c.io.rt) && T.ThreadsOk(c.io.rt) && Enabled(c, th, Work(b))
    ensures ShutdownsOk(Next(c, th, Work(b)))
  {
    PartOf(c.io, th, b);
    if ta :| RuntimePart(c.io, th, b, ta) {
      WorkKeepsTasks(c, th, b, ta);
    }
    forall d | d in R.Next(c.io, th, b).disps
      ensures var io' := R.Next(c.io, th, b); io'.disps[d].task in io'.rt.tasks && io'.disps[d].task !in c.shutdowns
    {
      WorkKeepsDispatchers(c, th, b, d);
    }
  }

  lemma CreatedIsNew(rt: T.State, th: T.Thread, b: T.Action)
    requires T.Enabled(rt, th, b) && b.Create?
    ensures b.t in T.Next(rt, th, b).tasks && T.Next(rt, th, b).tasks[b.t].wakers == {} && b.t !in rt.tasks
  {
  }

  lemma BatchesGrow(rt: T.State, th: T.Thread, b: T.Action, sh: set<nat>)
    requires T.Enabled(rt, th, b) && b.Create? && BatchesOk(rt, sh) && KnownTasks(rt, th, b, sh)
    ensures BatchesOk(T.Next(rt, th, b), sh + {b.t})
  {
  }

  /** Pushing and popping clones no waker, and a created task has none. */
  lemma WakersAfterBoth(rt: T.State, th: T.Thread, m: P.Move, b: T.Action, sh: set<nat>, t: nat)
    requires T.Enabled(rt, th, b) && Matches(rt, th, m, b) && t in ShutdownsAfter(sh, m, b)
    requires t in sh ==> t in rt.tasks && rt.tasks[t].wakers == {}
    ensures t in T.Next(rt, th, b).tasks && T.Next(rt, th, b).tasks[t].wakers == {}
  {
    if t in sh {
      NoNewWakers(rt, th, b, t);
    } else {
      CreatedIsNew(rt, th, b);
    }
  }

  lemma BatchesAfterBoth(rt: T.State, th: T.Thread, m: P.Move, b: T.Action, sh: set<nat>)
    requires T.Enabled(rt, th, b) && BatchesOk(rt, sh) && KnownTasks(rt, th, b, sh)
    ensures BatchesOk(T.Next(rt, th, b), ShutdownsAfter(sh, m, b))
  {
    BatchesKept(rt, th, b, sh);
    if b.Create? {
      BatchesGrow(rt, th, b, sh);
    }
  }

  /** The task of a dispatcher is an old one, and no shutdown task. */
  lemma DispatcherAfterBoth(rt: T.State, th: T.Thread, m: P.Move, b: T.Action, sh: set<nat>, t: nat)
    requires T.Enabled(rt, th, b) && t in rt.tasks && t !in sh
    ensures t in T.Next(rt, th, b).tasks && t !in ShutdownsAfter(sh, m, b)
  {
  }

  lemma ShutdownsAfterBoth(c: State, c': State, th: T.Thread, m: P.Move, b: T.Action)
    requires ShutdownsOk(c) && T.Enabled(c.io.rt, th, b) && Matches(c.io.rt, th, m, b)
    requires KnownTasks(c.io.rt, th, b, c.shutdowns)
    requires c'.io.rt == T.Next(c.io.rt, th, b) && c'.io.disps == c.io.disps
    requires c'.shutdowns == ShutdownsAfter(c.shutdowns, m, b)
    ensures ShutdownsOk(c')
  {
    BatchesAfterBoth(c.io.rt, th, m, b, c.shutdowns);
    forall t | t in c'.shutdowns
      ensures t in c'.io.rt.tasks && c'.io.rt.tasks[t].wakers == {}
    {
      WakersAfterBoth(c.io.rt, th, m, b, c.shutdowns, t);
    }
    forall d | d in c'.io.disps
      ensures c'.io.disps[d].task in c'.io.rt.tasks && c'.io.disps[d].task !in c'.shutdowns
    {
      DispatcherAfterBoth(c.io.rt, th, m, b, c.shutdowns, c.io.disps[d].task);
    }
  }

  lemma BothKeepsShutdowns(c: State, th: T.Thread, a: P.Action, b: T.Action)
    requires ShutdownsOk(c) && Enabled(c, th, Both(a, b)) && KnownTasks(c.io.rt, th, b, c.shutdowns)
    ensures ShutdownsOk(Next(c, th, Both(a, b)))
  {
    BothSplits(c, th, a, b);
    ShutdownsAfterBoth(c, Next(c, th, Both(a, b)), th, P.MoveOf(c.park, Index(c.park.n, th), a), b);
  }

  lemma FlushKeepsShutdowns(c: State, th: T.Thread)
    requires ShutdownsOk(c) && Enabled(c, th, Flush)
    ensures ShutdownsOk(Next(c, th, Flush))
  {
    RI.NothingMoves(c.io, th, T.Flush(c.loops[th.x].w));
  }

  lemma StepKeepsCoupling(c: State, th: T.Thread, act: Action)
    requires P.Reachable(c.park) && T.Inv(c.io.rt) && Coupled(c) && Enabled(c, th, act)
    ensures Coupled(Next(c, th, act))
  {
    match act
    case Sched(a) =>
      SchedKeepsAgreed(c, th, a);
      SchedKeepsLoops(c, th, a);
    case Work(b) =>
      WorkKeepsAgreed(c, th, b);
      WorkKeepsLoops(c, th, b);
      WorkKeepsShutdowns(c, th, b);
    case Both(a, b) =>
      TasksAreKnown(c, th, b);
      BothKeepsAgreed(c, th, a, b);
      BothKeepsLoops(c, th, a, b);
      BothKeepsShutdowns(c, th, a, b);
    case Flush =>
      FlushKeepsAgreed(c, th);
      FlushKeepsLoops(c, th);
      FlushKeepsShutdowns(c, th);
    case _ =>
      TurnsKeepAgreed(c, th, act);
      TurnsKeepLoops(c, th, act);
  }

  // ----- all runs -----

  lemma StartIsReachable(n: nat, m: nat, batchers: set<nat>)
    requires 1 <= n < 0x200
    ensures P.Reachable(P.Start(n, m)) && R.Reachable(R.Start(n, batchers))
  {
    assert P.IsRun([P.Start(n, m)], []);
    assert P.Runs(P.Start(n, m), [], P.Start(n, m));
    assert R.IsRun([R.Start(n, batchers)], []);
    assert R.Runs(R.Start(n, batchers), [], R.Start(n, batchers));
  }

  lemma StartIsCoupled(n: nat, m: nat, batchers: set<nat>)
    requires 1 <= n < 0x200
    ensures Coupled(Start(n, m, batchers))
  {
  }

  ghost predicate Projects(c: State)
  {
    P.Reachable(c.park) && R.Reachable(c.io) && Coupled(c)
  }

  lemma TakenStepProjects(c: State, th: T.Thread, act: Action, c': State)
    requires Projects(c) && Step(c, th, act, c')
    ensures Projects(c')
  {
    StepProjects(c, th, act);
    RI.ReachableHasInv(c.io);
    StepKeepsCoupling(c, th, act);
  }

  lemma {:induction false} PathProjects(path: seq<State>, trace: seq<(T.Thread, Action)>, i: nat)
    requires IsRun(path, trace) && i <= |trace| && Projects(path[0])
    ensures Projects(path[i])
  {
    if i > 0 {
      PathProjects(path, trace, i - 1);
      TakenStepProjects(path[i - 1], trace[i - 1].0, trace[i - 1].1, path[i]);
    }
  }

  /** Every run of the system is a run of the parking protocol and a run of the tasks, futures and reactors, so all
      that is proved of either holds of the system; and the two agree on every queue, task by job, and on every worker
      and reactor. */
  lemma RunsProject(c: State)
    requires Reachable(c)
    ensures P.Reachable(c.park) && R.Reachable(c.io) && Coupled(c)
  {
    var m, batchers, path, trace :|
      IsRun(path, trace) && path[0] == Start(c.park.n, m, batchers) && path[|trace|] == c;
    StartIsReachable(c.park.n, m, batchers);
    StartIsCoupled(c.park.n, m, batchers);
    PathProjects(path, trace, |trace|);
  }
}
