/** Every step of the task life cycle keeps its invariant. */
module TaskLifeInvariant {
  import opened TaskLife

  // ----- lists -----

  /** A step may move its task into a list only from outside all lists, and out of a list only from its front. */
  ghost predicate OpFits(s: State, t: nat, task': Task, op: ListOp)
  {
    match op
    case Keep =>
      t in s.tasks &&
      (task'.place == s.tasks[t].place ||
       (!s.tasks[t].place.Queue? && !s.tasks[t].place.Batch? && !task'.place.Queue? && !task'.place.Batch?))
    case Enqueue(p, _) =>
      p in s.lists && task'.place == p && (t in s.tasks ==> !s.tasks[t].place.Queue? && !s.tasks[t].place.Batch?)
    case Dequeue(p) =>
      p in s.lists && s.lists[p] != [] && s.lists[p][0] == t && !task'.place.Queue? && !task'.place.Batch?
  }

  lemma ListsKept(s: State, th: Thread, t: nat, e: Effect)
    requires ListsOk(s) && OpFits(s, t, e.task, e.op)
    ensures ListsOk(Apply(s, th, t, e))
  {
    var s' := Apply(s, th, t, e);
    assert forall p :: p in s'.lists <==> p in s.lists;
    forall p, i | p in s'.lists && 0 <= i < |s'.lists[p]|
      ensures s'.lists[p][i] in s'.tasks && s'.tasks[s'.lists[p][i]].place == p
    {
      OldElement(s, e.op, t, p, i);
    }
    forall p, i, j | p in s'.lists && 0 <= i < j < |s'.lists[p]|
      ensures s'.lists[p][i] != s'.lists[p][j]
    {
      OldElement(s, e.op, t, p, i);
      OldElement(s, e.op, t, p, j);
    }
  }

  /** Where an element of a changed list was before. */
  lemma OldElement(s: State, op: ListOp, t: nat, p: Place, i: nat)
    requires p in s.lists && i < |ListsAfter(s.lists, op, t)[p]|
    ensures var l, l' := s.lists[p], ListsAfter(s.lists, op, t)[p];
            match op
            case Keep => i < |l| && l'[i] == l[i]
            case Enqueue(p', front) =>
              if p' != p then i < |l| && l'[i] == l[i]
              else if front then l'[i] == (if i == 0 then t else l[i - 1])
              else l'[i] == (if i == |l| then t else l[i])
            case Dequeue(p') =>
              if p' != p || l == [] then i < |l| && l'[i] == l[i] else i + 1 < |l| && l'[i] == l[i + 1]
  {
  }

  // ----- what every step does to its task and to the others that know it -----

  /** A thread leaves its program counter only by acting on the task it names, and enters an operation only with its
      task. */
  predicate PcLaw(t: nat, pc: Pc, pc': Pc)
  {
    pc' == pc ||
    (&& (pc.Rest? || pc.t == t) && (pc'.Rest? || pc'.t == t)
     && (OnWaker(pc') && !pc.Rest? ==>
           OnWaker(pc) && pc.k == pc'.k && (Consumes(pc', t, pc'.k) ==> Consumes(pc, t, pc.k))))
  }

  predicate OnWaker(pc: Pc)
  {
    pc.Waking? || pc.Scheduling? || pc.Unref?
  }

  /** What other threads know about a task stays true: it stays in their hands, its wakers stay, its free memory stays
      free. */
  predicate OthersLaw(th: Thread, t: nat, task: Task, pc: Pc, task': Task)
  {
    && (task.place.Hand? && task.place.th != th ==> task'.place == task.place)
    && (task.place.Gone? ==> task'.place.Gone?)
    && (forall k :: k in task.wakers ==> k in task'.wakers || pc == Unref(t, k))
    && (task.place.Gone? && task.rc == 0 && task.frees == 0 ==> task'.rc == 0 && (task'.frees == 0 || pc == Freeing(t)))
  }

  /** The thread that takes the last reference goes on to free the memory, and only it. */
  predicate FreeLaw(t: nat, task: Task, pc: Pc, e: Effect)
  {
    && (e.pc.Freeing? && e.pc != pc ==> e.task.rc == 0 && task.rc == 1)
    && (e.task.place.Gone? && e.task.rc == 0 && e.task.frees == 0 ==>
          e.pc == Freeing(t) || (pc != Freeing(t) && task.place.Gone? && task.rc == 0 && task.frees == 0))
  }

  ghost predicate EffectLaw(s: State, th: Thread, t: nat, e: Effect)
  {
    var pc, s' := PcOf(s.pcs, th), Apply(s, th, t, e);
    && OpFits(s, t, e.task, e.op)
    && TaskOk(s', t) && ThreadOk(s', th, e.pc)
    && PcLaw(t, pc, e.pc)
    && (if t in s.tasks then OthersLaw(th, t, s.tasks[t], pc, e.task) && FreeLaw(t, s.tasks[t], pc, e)
        else !e.task.place.Gone? && e.pc == pc)
  }

  ghost predicate LocalInv(s: State, th: Thread, t: nat)
  {
    ListsOk(s) && (t in s.tasks ==> TaskOk(s, t)) && ThreadOk(s, th, PcOf(s.pcs, th))
  }

  lemma PopIsLawful(s: State, th: Thread, a: Action)
    requires Enabled(s, th, a) && LocalInv(s, th, Subject(s, th, a))
    requires a.Create? || a.Pop? || a.SetId?
    ensures var t := Subject(s, th, a); EffectLaw(s, th, t, EffectOf(s, th, a, TaskAt(s, t)))
  {
  }

  lemma PollIsLawful(s: State, th: Thread, a: Action)
    requires Enabled(s, th, a) && LocalInv(s, th, Subject(s, th, a))
    requires a.Begin? || a.Call? || a.Pend? || a.Ready?
    ensures var t := Subject(s, th, a); EffectLaw(s, th, t, EffectOf(s, th, a, TaskAt(s, t)))
  {
  }

  lemma SettlingIsLawful(s: State, th: Thread, a: Action)
    requires Enabled(s, th, a) && LocalInv(s, th, Subject(s, th, a))
    requires a.Cas? || a.CasFail?
    ensures var t := Subject(s, th, a); EffectLaw(s, th, t, EffectOf(s, th, a, TaskAt(s, t)))
  {
  }

  lemma FinishIsLawful(s: State, th: Thread, a: Action)
    requires Enabled(s, th, a) && LocalInv(s, th, Subject(s, th, a))
    requires a.MarkDropped? || a.DropFuture?
    ensures var t := Subject(s, th, a); EffectLaw(s, th, t, EffectOf(s, th, a, TaskAt(s, t)))
  {
  }

  lemma ReleaseIsLawful(s: State, th: Thread, a: Action)
    requires Enabled(s, th, a) && LocalInv(s, th, Subject(s, th, a))
    requires a.Release? || a.Dealloc?
    ensures var t := Subject(s, th, a); EffectLaw(s, th, t, EffectOf(s, th, a, TaskAt(s, t)))
  {
  }

  lemma StartIsLawful(s: State, th: Thread, a: Action)
    requires Enabled(s, th, a) && LocalInv(s, th, Subject(s, th, a))
    requires a.StartWake? || a.StartDrop?
    ensures var t := Subject(s, th, a); EffectLaw(s, th, t, EffectOf(s, th, a, TaskAt(s, t)))
  {
  }

  lemma WakeOrIsLawful(s: State, th: Thread, a: Action)
    requires Enabled(s, th, a) && LocalInv(s, th, Subject(s, th, a)) && a.WakeOr?
    ensures var t := Subject(s, th, a); EffectLaw(s, th, t, EffectOf(s, th, a, TaskAt(s, t)))
  {
  }

  lemma ScheduleIsLawful(s: State, th: Thread, a: Action)
    requires Enabled(s, th, a) && LocalInv(s, th, Subject(s, th, a)) && a.Schedule?
    ensures var t := Subject(s, th, a); EffectLaw(s, th, t, EffectOf(s, th, a, TaskAt(s, t)))
  {
  }

  /** A clone or a drop changes the count and the wakers alike, and nothing a place says about its task. */
  predicate Recounted(task: Task, task': Task)
  {
    task' == task.(rc := task'.rc, wakers := task'.wakers) && task'.rc - |task'.wakers| == task.rc - |task.wakers| &&
    (task'.rc == 0 || task.rc > 0)
  }

  lemma RecountingKeepsTaskOk(s: State, th: Thread, t: nat, e: Effect)
    requires t in s.tasks && TaskOk(s, t) && Recounted(s.tasks[t], e.task) && e.op.Keep?
    requires !Holds(PcOf(s.pcs, th)) || e.pc == PcOf(s.pcs, th)
    ensures TaskOk(Apply(s, th, t, e), t)
  {
  }

  lemma CloneIsLawful(s: State, th: Thread, a: Action)
    requires Enabled(s, th, a) && LocalInv(s, th, Subject(s, th, a))
    requires a.CloneInPoll? || a.Clone?
    ensures var t := Subject(s, th, a); EffectLaw(s, th, t, EffectOf(s, th, a, TaskAt(s, t)))
  {
    var t := Subject(s, th, a);
    RecountingKeepsTaskOk(s, th, t, EffectOf(s, th, a, TaskAt(s, t)));
  }

  lemma DropIsLawful(s: State, th: Thread, a: Action)
    requires Enabled(s, th, a) && LocalInv(s, th, Subject(s, th, a)) && a.Drop?
    ensures var t := Subject(s, th, a); EffectLaw(s, th, t, EffectOf(s, th, a, TaskAt(s, t)))
  {
    var t := Subject(s, th, a);
    LiveWakerCounts(s, t, PcOf(s.pcs, th).k);
    RecountingKeepsTaskOk(s, th, t, EffectOf(s, th, a, TaskAt(s, t)));
  }

  /** Every existing waker is counted: the memory it points to is not free. */
  lemma LiveWakerCounts(s: State, t: nat, k: nat)
    requires t in s.tasks && TaskOk(s, t) && k in s.tasks[t].wakers
    ensures s.tasks[t].rc >= |s.tasks[t].wakers| >= 1 && s.tasks[t].frees == 0
    ensures |s.tasks[t].wakers - {k}| == |s.tasks[t].wakers| - 1
  {
  }

  lemma EffectIsLawful(s: State, th: Thread, a: Action)
    requires Enabled(s, th, a) && LocalInv(s, th, Subject(s, th, a)) && !a.Flush?
    ensures var t := Subject(s, th, a); EffectLaw(s, th, t, EffectOf(s, th, a, TaskAt(s, t)))
  {
    if a.Create? || a.Pop? || a.SetId? {
      PopIsLawful(s, th, a);
    } else if a.Begin? || a.Call? || a.Pend? || a.Ready? {
      PollIsLawful(s, th, a);
    } else if a.Cas? || a.CasFail? {
      SettlingIsLawful(s, th, a);
    } else if a.MarkDropped? || a.DropFuture? {
      FinishIsLawful(s, th, a);
    } else if a.Release? || a.Dealloc? {
      ReleaseIsLawful(s, th, a);
    } else if a.StartWake? || a.StartDrop? {
      StartIsLawful(s, th, a);
    } else if a.WakeOr? {
      WakeOrIsLawful(s, th, a);
    } else if a.Schedule? {
      ScheduleIsLawful(s, th, a);
    } else if a.Drop? {
      DropIsLawful(s, th, a);
    } else {
      CloneIsLawful(s, th, a);
    }
  }

  // ----- a lawful step keeps the invariant -----

  lemma TasksKept(s: State, th: Thread, t: nat, e: Effect)
    requires ListsOk(s) && TasksOk(s) && EffectLaw(s, th, t, e)
    ensures TasksOk(Apply(s, th, t, e))
  {
  }

  lemma ThreadsKept(s: State, th: Thread, t: nat, e: Effect)
    requires ThreadsOk(s) && ExclusiveOk(s) && EffectLaw(s, th, t, e)
    ensures ThreadsOk(Apply(s, th, t, e))
  {
    var s', pc := Apply(s, th, t, e), PcOf(s.pcs, th);
    forall th' | th' in s'.pcs
      ensures ThreadOk(s', th', s'.pcs[th'])
    {
      if th' != th {
        var pc' := s.pcs[th'];
        assert ThreadOk(s, th', pc');
        if th in s.pcs {
          assert Exclusive(pc, pc') && Exclusive(pc', pc);
        }
      }
    }
  }

  /** A thread that starts to use a waker has the right to. */
  ghost predicate EntryLaw(s: State, pc: Pc, pc': Pc)
  {
    pc.Rest? && OnWaker(pc') ==>
      if pc'.Unref? || pc'.consume then MayEnd(s, pc'.t, pc'.k) else MayBorrow(s, pc'.t, pc'.k)
  }

  lemma EntryIsLawful(s: State, th: Thread, a: Action)
    requires Enabled(s, th, a) && !a.Flush?
    ensures EntryLaw(s, PcOf(s.pcs, th), EffectOf(s, th, a, TaskAt(s, Subject(s, th, a))).pc)
  {
  }

  lemma ExclusiveKept(s: State, th: Thread, t: nat, e: Effect)
    requires ThreadsOk(s) && ExclusiveOk(s) && EffectLaw(s, th, t, e) && EntryLaw(s, PcOf(s.pcs, th), e.pc)
    ensures ExclusiveOk(Apply(s, th, t, e))
  {
    var s', pc := Apply(s, th, t, e), PcOf(s.pcs, th);
    forall th' | th' in s.pcs && th' != th
      ensures Exclusive(e.pc, s.pcs[th']) && Exclusive(s.pcs[th'], e.pc)
    {
      var pc' := s.pcs[th'];
      assert ThreadOk(s, th', pc');
      if th in s.pcs {
        assert Exclusive(pc, pc') && Exclusive(pc', pc);
      }
    }
  }

  lemma LeaksKept(s: State, th: Thread, t: nat, e: Effect)
    requires ThreadsOk(s) && ExclusiveOk(s) && EffectLaw(s, th, t, e)
    requires forall u :: u in s.tasks ==> LeaksNothing(s, u)
    ensures forall u :: u in Apply(s, th, t, e).tasks ==> LeaksNothing(Apply(s, th, t, e), u)
  {
    var s', pc := Apply(s, th, t, e), PcOf(s.pcs, th);
    forall u | u in s'.tasks && s'.tasks[u].place.Gone? && s'.tasks[u].rc == 0 && s'.tasks[u].frees == 0
      ensures exists th' :: th' in s'.pcs && s'.pcs[th'] == Freeing(u)
    {
      if u == t && e.pc == Freeing(t) {
        assert s'.pcs[th] == Freeing(u);
      } else {
        assert u in s.tasks && LeaksNothing(s, u);
        var th' :| th' in s.pcs && s.pcs[th'] == Freeing(u);
        assert s'.pcs[th'] == Freeing(u);
      }
    }
  }

  // ----- flushing a batch list -----

  lemma FlushKeepsLists(s: State, x: nat, w: nat)
    requires ListsOk(s) && Batch(x, w) in s.lists && Queue(w) in s.lists
    ensures ListsOk(FlushNext(s, x, w))
  {
  }

  lemma FlushKeepsInv(s: State, x: nat, w: nat)
    requires Inv(s) && Batch(x, w) in s.lists && Queue(w) in s.lists
    ensures Inv(FlushNext(s, x, w))
  {
    var s' := FlushNext(s, x, w);
    var queue, moved := s.lists[Queue(w)], s.lists[Batch(x, w)];
    FlushKeepsLists(s, x, w);
    assert forall t :: t in moved ==> t in s.tasks && s.tasks[t].place == Batch(x, w);
    forall t | t in s'.tasks
      ensures TaskOk(s', t) && LeaksNothing(s', t)
    {
      assert TaskOk(s, t) && LeaksNothing(s, t);
    }
    forall th | th in s'.pcs
      ensures ThreadOk(s', th, s'.pcs[th])
    {
      assert ThreadOk(s, th, s.pcs[th]);
    }
  }

  // ----- all runs -----

  lemma StepKeepsInv(s: State, th: Thread, a: Action)
    requires Inv(s) && Enabled(s, th, a)
    ensures Inv(Next(s, th, a))
  {
    if a.Flush? {
      FlushKeepsInv(s, th.x, a.w);
    } else {
      var t := Subject(s, th, a);
      var e := EffectOf(s, th, a, TaskAt(s, t));
      assert ThreadOk(s, th, PcOf(s.pcs, th));
      assert t in s.tasks ==> TaskOk(s, t);
      EffectIsLawful(s, th, a);
      ListsKept(s, th, t, e);
      TasksKept(s, th, t, e);
      ThreadsKept(s, th, t, e);
      EntryIsLawful(s, th, a);
      ExclusiveKept(s, th, t, e);
      LeaksKept(s, th, t, e);
    }
  }

  lemma {:induction false} PathKeepsInv(path: seq<State>, trace: seq<(Thread, Action)>, i: nat)
    requires IsRun(path, trace) && Inv(path[0]) && i <= |trace|
    ensures Inv(path[i])
  {
    if i > 0 {
      PathKeepsInv(path, trace, i - 1);
      StepKeepsInv(path[i - 1], trace[i - 1].0, trace[i - 1].1);
    }
  }

  lemma RunKeepsInv(s: State, trace: seq<(Thread, Action)>, t: State)
    requires Inv(s) && Runs(s, trace, t)
    ensures Inv(t)
  {
    var path :| IsRun(path, trace) && path[0] == s && path[|trace|] == t;
    PathKeepsInv(path, trace, |trace|);
  }

  lemma ReachableHasInv(s: State)
    requires Reachable(s)
    ensures Inv(s)
  {
    var trace :| Runs(Start(s.n, s.batchers), trace, s);
    assert ListsOk(Start(s.n, s.batchers));
    RunKeepsInv(Start(s.n, s.batchers), trace, s);
  }
}
