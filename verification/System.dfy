/** The whole system: the parking protocol and the tasks, futures and reactors of `Readiness` as one state machine.
    Threads are shared, and a lock section on a worker's queue is one step of both: the queue of jobs in `Parking` and
    the queue of tasks in `TaskLife` are the same queue. The threads with a batch guard are the reactors, each in its
    event loop. */
module System {
  import P = Parking
  import T = TaskLife
  import R = Readiness

  /** Where a reactor is in its event loop (`yaay-mio/src/shared.rs:98-121`): in `poll`; delivering events under its
      lock; or in `push_batch`, about to look at the batch list for worker `w`, at the end or in between. */
  datatype Loop = InPoll | Delivering | Flushing(w: nat, last: bool)

  /** `shutdowns` are the tasks whose future is `Shutdown`. */
  datatype State = State(park: P.State, io: R.State, loops: map<nat, Loop>, shutdowns: set<nat>)

  datatype Action =
    | Sched(a: P.Action)              // `main_loop`, `Epoch` and shutdown, where no task is pushed or popped
    | Work(b: R.Action)               // tasks, wakers, futures and reactors, where no worker's queue is touched
    | Both(a: P.Action, t: T.Action)  // one task is pushed to or popped from a worker's queue
    | BeginFlush | Flush | EndFlush   // `push_batch` of a reactor

  /** The number of a thread in `Parking`: the workers first. */
  function Index(n: nat, th: T.Thread): nat
  {
    match th
    case Worker(w) => w
    case Outside(x) => n + x
  }

  predicate Exists(c: State, th: T.Thread)
  {
    Index(c.park.n, th) < |c.park.pcs| && (th.Worker? ==> th.w < c.park.n)
  }

  function ParkPc(c: State, th: T.Thread): P.Pc
    requires Exists(c, th)
  {
    c.park.pcs[Index(c.park.n, th)]
  }

  function TaskPc(c: State, th: T.Thread): T.Pc
  {
    T.PcOf(c.io.rt.pcs, th)
  }

  predicate Reactor(c: State, th: T.Thread)
  {
    th.Outside? && th.x in c.loops
  }

  function LoopOf(c: State, th: T.Thread): Loop
  {
    if Reactor(c, th) then c.loops[th.x] else InPoll
  }

  /** Where a worker has to be with its task when it takes a step of `main_loop` or of `Shutdown::poll`: the latter, and
      spawning, happen inside a future's poll; a thief sets `worker_id` before `set_active`; and a turn ends when
      `Task::poll` has returned. */
  predicate SchedFits(a: P.Action, pc: T.Pc)
  {
    && (a.Finish? || a.TestFlag? ==> pc.Rest?)
    && (a.SetActive? ==> pc.Held?)
    && (a.SetFlag? || a.LoadFlag? || a.ForwardPush? || a.Spawn? || a.Defer? || a.Announce? || a.AnnouncePush? ==>
          pc.Polling?)
  }

  /** A reactor only bumps the epoch, at the end of `push_batch`. */
  predicate ReactorSched(a: P.Action, loop: Loop, n: nat)
  {
    loop.Flushing? && loop.w >= n && (a.NextEpoch? || a.UnparkAll?)
  }

  /** Where a worker has to be in `main_loop` when it takes a step with its task: `Task::poll` starts after
      `set_active`, and the shutdown future returns `Ready` at its end and has no use for its waker. */
  predicate WorkFits(b: T.Action, pc: P.Pc)
  {
    && (b.Begin? ==> pc.Running? || pc.StoreFlag?)
    && (b.Pend? || b.CloneInPoll? ==> pc.Running?)
    && (b.Ready? ==> pc.Running? || pc.Test?)
  }

  predicate WorkerFits(b: R.Action, pc: P.Pc)
  {
    match b
    case Runtime(a) => WorkFits(a, pc)
    case NewDispatcher(_, _, _) => pc.Running?
    case _ => true
  }

  /** What a reactor does in its event loop, and where. */
  predicate ReactorWork(b: R.Action, loop: Loop)
  {
    match b
    case TakeLock => loop.InPoll?
    case DropLock => loop.Delivering?
    case Notify(_) => loop.Delivering?
    case NotifyWake => loop.Delivering?
    case Runtime(a) => loop.Delivering? && (a.WakeOr? || a.Schedule?)
    case _ => false
  }

  function LoopAfter(b: R.Action, loop: Loop): Loop
  {
    if b.TakeLock? then Delivering else if b.DropLock? then Flushing(0, true) else loop
  }

  /** The step pushes to or pops from no worker's queue. */
  predicate MovesNothing(rt: T.State, th: T.Thread, b: T.Action)
  {
    && !b.Create? && !b.Pop? && !b.Flush?
    && (b.Schedule? ==> !T.WakeTarget(rt, th, T.TaskAt(rt, T.Subject(rt, th, b))).Queue?)
  }

  /** The same push or pop, seen from both sides. What is woken is an ordinary job. */
  predicate Matches(rt: T.State, th: T.Thread, m: P.Move, b: T.Action)
  {
    match m
    case Take(_, q) => b == T.Pop(q)
    case Push(_, q, front, job, _) =>
      || (b.Create? && b.q == q && b.front == front)
      || (b.Schedule? && !front && job.Ordinary? &&
          T.WakeTarget(rt, th, T.TaskAt(rt, T.Subject(rt, th, b))) == T.Queue(q))
    case _ => false
  }

  ghost predicate Enabled(c: State, th: T.Thread, act: Action)
  {
    Exists(c, th) &&
    var i, rt := Index(c.park.n, th), c.io.rt;
    match act
    case Sched(a) =>
      && P.Enabled(c.park, i, a) && (th.Worker? ==> SchedFits(a, TaskPc(c, th)))
      && (Reactor(c, th) ==> ReactorSched(a, LoopOf(c, th), c.park.n))
      && !P.MoveOf(c.park, i, a).Push? && !P.MoveOf(c.park, i, a).Take?
    case Work(b) =>
      && R.Enabled(c.io, th, b) && (b.Runtime? ==> MovesNothing(rt, th, b.a))
      && (th.Worker? ==> WorkerFits(b, ParkPc(c, th)))
      && (if Reactor(c, th) then ReactorWork(b, LoopOf(c, th)) else !b.TakeLock?)
      // An outside thread that has pushed calls `next_epoch` before it does anything else.
      && (th.Outside? ==> ParkPc(c, th).Running?)
    case Both(a, b) =>
      && P.Enabled(c.park, i, a) && (th.Worker? ==> SchedFits(a, TaskPc(c, th))) && !Reactor(c, th)
      && R.Enabled(c.io, th, R.Runtime(b)) && Matches(rt, th, P.MoveOf(c.park, i, a), b)
    case BeginFlush => Reactor(c, th) && LoopOf(c, th).Delivering? && R.Delivers(c.io, th)
    case Flush =>
      && Reactor(c, th) && LoopOf(c, th).Flushing? && LoopOf(c, th).w < c.park.n && P.Shape(c.park)
      && (ParkPc(c, th).Running? || ParkPc(c, th).Bump?)
      && R.Enabled(c.io, th, R.Runtime(T.Flush(LoopOf(c, th).w)))
    case EndFlush =>
      Reactor(c, th) && LoopOf(c, th).Flushing? && LoopOf(c, th).w >= c.park.n && ParkPc(c, th).Running?
  }

  function Copies(k: nat): (jobs: seq<P.Job>)
    ensures |jobs| == k
  {
    if k == 0 then [] else Copies(k - 1) + [P.Ordinary]
  }

  /** Thread `i` has pushed `k` jobs to queue `q` in one lock section, and now owes a `next_epoch`. */
  function Pushed(s: P.State, i: nat, q: nat, k: nat): P.State
    requires i < |s.pcs| && q < |s.queues|
  {
    if k == 0 then s else s.(queues := s.queues[q := s.queues[q] + Copies(k)], pcs := s.pcs[i := P.Bump(P.ToRunning)])
  }

  ghost function Next(c: State, th: T.Thread, act: Action): State
    requires Enabled(c, th, act)
  {
    var i := Index(c.park.n, th);
    match act
    case Sched(a) => c.(park := P.Next(c.park, i, a))
    case Work(b) =>
      c.(io := R.Next(c.io, th, b),
         loops := if Reactor(c, th) then c.loops[th.x := LoopAfter(b, c.loops[th.x])] else c.loops)
    case Both(a, b) =>
      var m := P.MoveOf(c.park, i, a);
      c.(park := P.Next(c.park, i, a), io := R.Next(c.io, th, R.Runtime(b)),
         shutdowns := if b.Create? && m.Push? && m.job.Shutdown? then c.shutdowns + {b.t} else c.shutdowns)
    case BeginFlush => c.(loops := c.loops[th.x := Flushing(0, false)])
    case Flush =>
      var w := c.loops[th.x].w;
      c.(park := Pushed(c.park, i, w, |c.io.rt.lists[T.Batch(th.x, w)]|), io := R.Next(c.io, th, R.Runtime(T.Flush(w))),
         loops := c.loops[th.x := c.loops[th.x].(w := w + 1)])
    case EndFlush => c.(loops := c.loops[th.x := if c.loops[th.x].last then InPoll else Delivering])
  }

  ghost predicate Step(c: State, th: T.Thread, act: Action, c': State)
  {
    Enabled(c, th, act) && c' == Next(c, th, act)
  }

  ghost predicate IsRun(path: seq<State>, trace: seq<(T.Thread, Action)>)
  {
    && |path| == |trace| + 1
    && forall i {:trigger trace[i]} :: 0 <= i < |trace| ==> Step(path[i], trace[i].0, trace[i].1, path[i + 1])
  }

  /** `n` workers and `m` outside threads, some of them reactors, which begin in `poll`. */
  ghost function Start(n: nat, m: nat, batchers: set<nat>): State
  {
    State(P.Start(n, m), R.Start(n, batchers), map x | x in batchers :: InPoll, {})
  }

  ghost predicate Reachable(c: State)
  {
    1 <= c.park.n < 0x200 &&
    exists m, batchers, path, trace ::
      IsRun(path, trace) && path[0] == Start(c.park.n, m, batchers) && path[|trace|] == c
  }

  // ----- how the two machines fit together -----

  function KindOf(shutdowns: set<nat>, t: nat): P.Job
  {
    if t in shutdowns then P.Shutdown else P.Ordinary
  }

  /** What the tasks in a queue are as jobs. */
  function Kinds(shutdowns: set<nat>, l: seq<nat>): (jobs: seq<P.Job>)
    ensures |jobs| == |l| && forall i :: 0 <= i < |l| ==> jobs[i] == KindOf(shutdowns, l[i])
  {
    seq(|l|, i requires 0 <= i < |l| => KindOf(shutdowns, l[i]))
  }

  /** What a worker is doing with a task, and with which kind of task, by its place in `main_loop`. */
  predicate Fits(pc: P.Pc, task: T.Pc, shutdowns: set<nat>)
  {
    if pc.Running? then
      Ending(task) || ((task.Held? || task.Calling? || task.Polling? || task.Settling?) && task.t !in shutdowns)
    else if pc.Test? then Ending(task) || (task.Polling? && task.t in shutdowns)
    else if pc.StoreFlag? then (task.Held? || task.Calling? || task.Polling?) && task.t in shutdowns
    else if pc.Holding? then (task.Stolen? || task.Held?) && KindOf(shutdowns, task.t) == pc.job
    else if P.Activator(pc) then task.Held? && KindOf(shutdowns, task.t) == pc.ret.job
    else if pc.Scan? || pc.Forward? || (pc.Bump? && pc.ret.ToTest?) || (pc.Unpark? && pc.ret.ToTest?) then
      task.Polling? && task.t in shutdowns
    else if pc.Announcing? || pc.Bump? || pc.Unpark? then task.Polling? && task.t !in shutdowns
    else task.Rest?
  }

  predicate Ending(task: T.Pc)
  {
    task.Finishing? || task.Dropping? || task.Releasing? || task.Freeing? || task.Rest?
  }

  /** The two machines agree on worker `w`'s queue, job by task, and on what it is doing. */
  predicate AgreeOn(c: State, w: nat)
    requires P.Shape(c.park) && w < c.park.n
  {
    && T.Queue(w) in c.io.rt.lists && c.park.queues[w] == Kinds(c.shutdowns, c.io.rt.lists[T.Queue(w)])
    && Fits(c.park.pcs[w], TaskPc(c, T.Worker(w)), c.shutdowns)
  }

  /** A reactor between batches has left nothing behind: in `poll` all its batch lists are empty, and in `push_batch`
      those that it has passed. It holds its lock while it delivers. */
  predicate LoopOk(c: State, x: nat)
    requires x in c.loops
  {
    var loop, th := c.loops[x], T.Outside(x);
    && (x in c.io.locked <==> loop.Delivering? || (loop.Flushing? && !loop.last))
    && (!loop.Delivering? ==> TaskPc(c, th).Rest? && x !in c.io.owing)
    && (!loop.Flushing? && Exists(c, th) ==> ParkPc(c, th).Running?)
    && (!loop.Delivering? ==>
          forall w: nat :: w < c.park.n && (loop.InPoll? || w < loop.w) && T.Batch(x, w) in c.io.rt.lists ==>
            c.io.rt.lists[T.Batch(x, w)] == [])
  }

  /** A shutdown future's waker is never cloned, it does no I/O, and so it is never woken. */
  ghost predicate ShutdownsOk(c: State)
  {
    && (forall t :: t in c.shutdowns ==> t in c.io.rt.tasks && c.io.rt.tasks[t].wakers == {})
    && (forall d :: d in c.io.disps ==> c.io.disps[d].task in c.io.rt.tasks && c.io.disps[d].task !in c.shutdowns)
    && (forall x: nat, w: nat, i :: T.Batch(x, w) in c.io.rt.lists && 0 <= i < |c.io.rt.lists[T.Batch(x, w)]| ==>
          c.io.rt.lists[T.Batch(x, w)][i] !in c.shutdowns)
  }

  predicate Agreed(c: State)
  {
    P.Shape(c.park) && c.park.n == c.io.rt.n && forall w: nat :: w < c.park.n ==> AgreeOn(c, w)
  }

  predicate LoopsOk(c: State)
  {
    && c.loops.Keys == c.io.rt.batchers && c.io.locked <= c.io.rt.batchers
    && forall x :: x in c.loops ==> LoopOk(c, x)
  }

  ghost predicate Coupled(c: State)
  {
    Agreed(c) && LoopsOk(c) && ShutdownsOk(c)
  }
}
