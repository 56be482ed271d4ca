/** What holds in every reachable state of the task life cycle, for every number of workers, outside threads and
    tasks. */
module TaskLifeTheorems {
  import opened TaskLife
  import opened TaskLifeInvariant

  // ----- one place, one poller -----

  /** The thread has task `t` in its hands. */
  predicate HasInHand(pc: Pc, t: nat)
  {
    Holds(pc) && pc.t == t
  }

  /** Task `t` occurs at position `i` of list `p`. */
  predicate Occurs(s: State, t: nat, p: Place, i: nat)
  {
    p in s.lists && i < |s.lists[p]| && s.lists[p][i] == t
  }

  lemma ListedOnce(s: State, t: nat, p: Place, i: nat, q: Place, j: nat)
    requires ListsOk(s) && Occurs(s, t, p, i) && Occurs(s, t, q, j)
    ensures p == q && i == j
  {
  }

  lemma HandKnowsPlace(s: State, t: nat, th: Thread)
    requires ThreadsOk(s) && th in s.pcs && HasInHand(s.pcs[th], t)
    ensures t in s.tasks && s.tasks[t].place == Hand(th)
  {
  }

  /** A task occurs at most once in all worker queues and batch lists together, is in the hands of at most one thread,
      and never both. */
  lemma TaskIsInOnePlace(s: State, t: nat)
    requires Reachable(s)
    ensures forall p, i: nat, q, j: nat :: Occurs(s, t, p, i) && Occurs(s, t, q, j) ==> p == q && i == j
    ensures forall th, th' :: th in s.pcs && th' in s.pcs && HasInHand(s.pcs[th], t) && HasInHand(s.pcs[th'], t) ==>
            th == th'
    ensures forall th, p, i: nat :: th in s.pcs && HasInHand(s.pcs[th], t) ==> !Occurs(s, t, p, i)
  {
    ReachableHasInv(s);
    forall p, i: nat, q, j: nat | Occurs(s, t, p, i) && Occurs(s, t, q, j)
      ensures p == q && i == j
    {
      ListedOnce(s, t, p, i, q, j);
    }
    forall th | th in s.pcs && HasInHand(s.pcs[th], t)
      ensures t in s.tasks && s.tasks[t].place == Hand(th)
    {
      HandKnowsPlace(s, t, th);
    }
    forall p, i: nat | Occurs(s, t, p, i)
      ensures t in s.tasks && !s.tasks[t].place.Hand?
    {
      assert s.tasks[s.lists[p][i]].place == p;
    }
  }

  /** Every task the runtime has not released is in a list, or in a thread's hands, or idle with no status bit set;
      and the last excludes the other two, which `TaskIsInOnePlace` proves to exclude each other. */
  lemma LiveTaskIsSomewhere(s: State, t: nat)
    requires Reachable(s) && t in s.tasks && !s.tasks[t].status.dropped
    ensures (exists p, i :: Occurs(s, t, p, i)) ||
            (exists th :: th in s.pcs && HasInHand(s.pcs[th], t)) ||
            s.tasks[t].status == NOBITS
    ensures s.tasks[t].status == NOBITS ==>
              (forall p, i: nat :: !Occurs(s, t, p, i)) && (forall th :: th in s.pcs ==> !HasInHand(s.pcs[th], t))
  {
    ReachableHasInv(s);
    assert TaskOk(s, t);
    var p := s.tasks[t].place;
    if p.Queue? || p.Batch? {
      var i: nat :| i < |s.lists[p]| && s.lists[p][i] == t;
      assert Occurs(s, t, p, i);
    } else if p.Hand? {
      assert HasInHand(s.pcs[p.th], t);
    } else {
      IdleIsNowhere(s, t);
    }
  }

  lemma IdleIsNowhere(s: State, t: nat)
    requires ListsOk(s) && ThreadsOk(s) && t in s.tasks
    requires !s.tasks[t].place.Queue? && !s.tasks[t].place.Batch? && !s.tasks[t].place.Hand?
    ensures forall p, i: nat :: !Occurs(s, t, p, i)
    ensures forall th :: th in s.pcs ==> !HasInHand(s.pcs[th], t)
  {
  }

  /** No two threads are ever inside the same future's poll. */
  lemma PollingIsExclusive(s: State, th: Thread, th': Thread, t: nat)
    requires Reachable(s) && th in s.pcs && th' in s.pcs
    requires s.pcs[th] == Polling(t) && s.pcs[th'] == Polling(t)
    ensures th == th'
  {
    TaskIsInOnePlace(s, t);
    assert HasInHand(s.pcs[th], t) && HasInHand(s.pcs[th'], t);
  }

  /** The status `| !MUTED | NOTIFIED | !DROPPED |` is never seen, and `poll` compares only against MUTED, with or
      without NOTIFIED. */
  lemma StatusIsLegal(s: State, t: nat)
    requires Reachable(s) && t in s.tasks
    ensures !s.tasks[t].status.dropped && s.tasks[t].status.notified ==> s.tasks[t].status.muted
    ensures forall th :: th in s.pcs && s.pcs[th].Settling? ==> s.pcs[th].prev.muted && !s.pcs[th].prev.dropped
  {
    ReachableHasInv(s);
    assert TaskOk(s, t);
    forall th | th in s.pcs && s.pcs[th].Settling?
      ensures s.pcs[th].prev.muted && !s.pcs[th].prev.dropped
    {
      assert ThreadOk(s, th, s.pcs[th]);
      assert TaskOk(s, s.pcs[th].t);
    }
  }

  /** Only workers poll, `worker_id` always names a worker, and so does every list a step touches. */
  lemma WorkerIdIsInRange(s: State, t: nat)
    requires Reachable(s) && t in s.tasks
    ensures s.tasks[t].workerId < s.n && Queue(s.tasks[t].workerId) in s.lists
    ensures forall x :: x in s.batchers ==> Batch(x, s.tasks[t].workerId) in s.lists
  {
    ReachableHasInv(s);
    assert TaskOk(s, t);
  }

  // ----- no lost wake -----

  /** A task woken after its last poll began, and not dropped, is not idle: it is queued or in some thread's hands,
      and it is marked NOTIFIED unless its poll is just about to be called. */
  lemma WokenTaskIsNotIdle(s: State, t: nat)
    requires Reachable(s) && t in s.tasks && !s.tasks[t].status.dropped && s.tasks[t].wokeAt == s.tasks[t].polls
    ensures s.tasks[t].status != NOBITS
    ensures s.tasks[t].status.notified || exists th :: th in s.pcs && s.pcs[th] == Calling(t)
    ensures (exists p, i :: Occurs(s, t, p, i)) || exists th :: th in s.pcs && HasInHand(s.pcs[th], t)
  {
    ReachableHasInv(s);
    assert TaskOk(s, t);
    LiveTaskIsSomewhere(s, t);
  }

  /** `polls` and `wokeAt` only grow, along every run, and tasks do not disappear. */
  lemma {:induction false} HistoryGrows(path: seq<State>, trace: seq<(Thread, Action)>, i: nat, t: nat)
    requires IsRun(path, trace) && Inv(path[0]) && t in path[0].tasks && i <= |trace|
    ensures t in path[i].tasks
    ensures path[0].tasks[t].polls <= path[i].tasks[t].polls && path[0].tasks[t].wokeAt <= path[i].tasks[t].wokeAt
  {
    if i > 0 {
      HistoryGrows(path, trace, i - 1, t);
      PathKeepsInv(path, trace, i - 1);
      StepGrows(path[i - 1], trace[i - 1].0, trace[i - 1].1, t);
    }
  }

  lemma StepGrows(s: State, th: Thread, a: Action, t: nat)
    requires Inv(s) && Enabled(s, th, a) && t in s.tasks
    ensures t in Next(s, th, a).tasks
    ensures s.tasks[t].polls <= Next(s, th, a).tasks[t].polls && s.tasks[t].wokeAt <= Next(s, th, a).tasks[t].wokeAt
  {
    assert TaskOk(s, t);
    assert ThreadOk(s, th, PcOf(s.pcs, th));
  }

  /** A wake is answered by a poll: if `wake` hits a task that is not dropped, then before the task is next idle, its
      future's poll has been called again. */
  lemma WakeIsAnswered(s: State, th: Thread, trace: seq<(Thread, Action)>, u: State, t: nat)
    requires Reachable(s) && Enabled(s, th, WakeOr) && PcOf(s.pcs, th).t == t && t in s.tasks &&
             !s.tasks[t].status.dropped
    requires Runs(Next(s, th, WakeOr), trace, u)
    ensures t in u.tasks
    ensures u.tasks[t].status == NOBITS ==> u.tasks[t].polls > s.tasks[t].polls
  {
    ReachableHasInv(s);
    StepKeepsInv(s, th, WakeOr);
    var s' := Next(s, th, WakeOr);
    assert s'.tasks[t].wokeAt == s'.tasks[t].polls == s.tasks[t].polls;
    var path :| IsRun(path, trace) && path[0] == s' && path[|trace|] == u;
    HistoryGrows(path, trace, |trace|, t);
    RunKeepsInv(s', trace, u);
    assert TaskOk(u, t);
  }

  // ----- reference counts and memory -----

  /** `rc` is the number of waker clones, plus one until the runtime has released its reference. The future is dropped
      at most once, the memory freed at most once, after the drop and with no reference left, and never leaked. */
  lemma ReferenceCountIsExact(s: State, t: nat)
    requires Reachable(s) && t in s.tasks
    ensures s.tasks[t].rc == |s.tasks[t].wakers| + (if s.tasks[t].place.Gone? then 0 else 1)
    ensures s.tasks[t].drops <= 1 && s.tasks[t].frees <= 1
    ensures s.tasks[t].frees == 1 ==> s.tasks[t].drops == 1 && s.tasks[t].rc == 0
    ensures s.tasks[t].rc == 0 ==> s.tasks[t].frees == 1 || exists th :: th in s.pcs && s.pcs[th] == Freeing(t)
  {
    ReachableHasInv(s);
    assert TaskOk(s, t);
    assert LeaksNothing(s, t);
  }

  /** The tasks whose memory a step reads or writes: the one it acts on, and the tail of a list it appends to. */
  ghost function Touched(s: State, th: Thread, a: Action): set<nat>
    requires Enabled(s, th, a)
  {
    if a.Flush? then Tail(s, Queue(a.w))
    else
      var t := Subject(s, th, a);
      var op := EffectOf(s, th, a, TaskAt(s, t)).op;
      (if a.Create? then {} else {t}) + (if op.Enqueue? && !op.front then Tail(s, op.p) else {})
  }

  function Tail(s: State, p: Place): set<nat>
  {
    if p in s.lists && s.lists[p] != [] then {s.lists[p][|s.lists[p]| - 1]} else {}
  }

  lemma TailIsAlive(s: State, p: Place, t: nat)
    requires Inv(s) && t in Tail(s, p)
    ensures t in s.tasks && s.tasks[t].frees == 0
  {
  }

  lemma SubjectIsAlive(s: State, th: Thread, a: Action)
    requires Inv(s) && Enabled(s, th, a) && !a.Flush? && !a.Create?
    ensures Subject(s, th, a) in s.tasks && s.tasks[Subject(s, th, a)].frees == 0
  {
  }

  /** A step touches its own task, or the tail of some list. */
  lemma TouchedIsSubjectOrTail(s: State, th: Thread, a: Action, t: nat)
    requires Enabled(s, th, a) && t in Touched(s, th, a)
    ensures (!a.Flush? && !a.Create? && t == Subject(s, th, a)) || exists p :: t in Tail(s, p)
  {
  }

  /** No step of any run touches freed memory. */
  lemma NothingFreedIsTouched(s: State, th: Thread, a: Action, t: nat)
    requires Reachable(s) && Enabled(s, th, a) && t in Touched(s, th, a)
    ensures t in s.tasks && s.tasks[t].frees == 0
  {
    ReachableHasInv(s);
    TouchedIsSubjectOrTail(s, th, a, t);
    if !a.Flush? && !a.Create? && t == Subject(s, th, a) {
      SubjectIsAlive(s, th, a);
    } else {
      var p :| t in Tail(s, p);
      TailIsAlive(s, p, t);
    }
  }
}
