/** The life of tasks as a state machine: status bits, reference count and queue membership across concurrent waking,
    polling, cloning and dropping (`yaay-mt-runtime/src/task.rs`, `task_waker.rs`), with the queues they move through.

    Every atomic operation and every lock-protected section is one step of one thread, under sequential consistency.
    When a worker pops, and from which queue, is left open: `Parking` says when. An operation on wakers inside a
    future's poll is a step of some outside thread, which only adds interleavings. Task names are never reused: a new
    allocation is a new name. `place`, `polls`, `wokeAt`, `drops` and `frees` only record history; `wakers` serves
    Rust's ownership rules. */
module TaskLife {

  datatype Thread = Worker(w: nat) | Outside(x: nat)

  /** Where a task is: in a worker's queue, in a list of a thread's `BatchGuard`, in a thread's hands, nowhere until
      it is woken, or released by the runtime. */
  datatype Place = Queue(w: nat) | Batch(x: nat, w: nat) | Hand(th: Thread) | Idle | Gone

  datatype Status = Status(muted: bool, notified: bool, dropped: bool)

  const MUTED := Status(true, false, false)
  const NOBITS := Status(false, false, false)

  datatype Task = Task(
    status: Status,
    rc: nat,
    workerId: nat,
    place: Place,
    wakers: set<nat>,   // the waker clones that exist
    polls: nat,         // how often the future's poll was called
    wokeAt: int,        // the value of `polls` at the last wake
    drops: nat,         // how often the future was dropped
    frees: nat)         // how often the memory was freed

  datatype Pc =
    | Rest
    | Stolen(t: nat) | Held(t: nat)             // popped: about to set `worker_id`; about to clear NOTIFIED
    | Calling(t: nat) | Polling(t: nat)         // about to call, or inside, the future's poll
    | Settling(t: nat, prev: Status)            // in the compare-exchange loop after `Pending`
    | Finishing(t: nat) | Dropping(t: nat)      // after `Ready`: about to set DROPPED, to drop the future,
    | Releasing(t: nat)                         // and to `fetch_sub` for the runtime
    | Freeing(t: nat)                           // about to deallocate
    | Waking(t: nat, k: nat, consume: bool)     // in `wake`: about to `fetch_or`
    | Scheduling(t: nat, k: nat, consume: bool) // in `wake`: about to push
    | Unref(t: nat, k: nat)                     // about to `fetch_sub` for a waker

  datatype State = State(
    n: nat,
    batchers: set<nat>,
    tasks: map<nat, Task>,
    lists: map<Place, seq<nat>>,
    pcs: map<Thread, Pc>)

  datatype Action =
    | Create(t: nat, q: nat, front: bool) | Pop(q: nat) | SetId | Begin | Call | CloneInPoll(k: nat)
    | Pend | Cas | CasFail | Ready | MarkDropped | DropFuture | Release | Dealloc
    | StartWake(t: nat, k: nat, consume: bool) | WakeOr | Schedule | StartDrop(t: nat, k: nat) | Drop
    | Clone(t: nat, k: nat, k': nat) | Flush(w: nat)

  function PcOf(pcs: map<Thread, Pc>, th: Thread): Pc
  {
    if th in pcs then pcs[th] else Rest
  }

  /** The thread is inside an operation on waker `k` of task `t`. */
  predicate Uses(pc: Pc, t: nat, k: nat)
  {
    (pc.Waking? || pc.Scheduling? || pc.Unref?) && pc.t == t && pc.k == k
  }

  /** It is an operation that ends the waker: `wake` by value, or `drop`. */
  predicate Consumes(pc: Pc, t: nat, k: nat)
  {
    Uses(pc, t, k) && (pc.Unref? || pc.consume)
  }

  // ----- the steps -----

  function NewTask(q: nat): Task
  {
    Task(Status(true, true, false), 1, 0, Queue(q), {}, 0, -1, 0, 0)
  }

  /** What a step does to the lists. */
  datatype ListOp = Keep | Enqueue(p: Place, front: bool) | Dequeue(p: Place)

  /** What a step does: the thread's next program counter, the task it acts on, and the list it changes. */
  datatype Effect = Effect(pc: Pc, task: Task, op: ListOp)

  /** The task a step acts on. */
  function Subject(s: State, th: Thread, a: Action): nat
  {
    var pc := PcOf(s.pcs, th);
    match a
    case Create(t, _, _) => t
    case Pop(q) => if Queue(q) in s.lists && s.lists[Queue(q)] != [] then s.lists[Queue(q)][0] else 0
    case StartWake(t, _, _) => t
    case StartDrop(t, _) => t
    case Clone(t, _, _) => t
    case _ => if pc.Rest? then 0 else pc.t
  }

  /** Rust's ownership rules for wakers: a waker is used only while it exists and nobody ends it, and ended only by a
      thread that has it alone. */
  ghost predicate MayBorrow(s: State, t: nat, k: nat)
  {
    t in s.tasks && k in s.tasks[t].wakers && forall th :: th in s.pcs ==> !Consumes(s.pcs[th], t, k)
  }

  ghost predicate MayEnd(s: State, t: nat, k: nat)
  {
    t in s.tasks && k in s.tasks[t].wakers && forall th :: th in s.pcs ==> !Uses(s.pcs[th], t, k)
  }

  ghost predicate Enabled(s: State, th: Thread, a: Action)
  {
    var pc := PcOf(s.pcs, th);
    match a
    case Create(t, q, _) => t !in s.tasks && Queue(q) in s.lists
    case Pop(q) => th.Worker? && th.w < s.n && pc.Rest? && Queue(q) in s.lists && s.lists[Queue(q)] != []
    case SetId => pc.Stolen? && th.Worker?
    case Begin => pc.Held?
    case Call => pc.Calling?
    case CloneInPoll(k) => pc.Polling? && pc.t in s.tasks && k !in s.tasks[pc.t].wakers
    case Pend => pc.Polling?
    case Cas => pc.Settling?
    case CasFail => pc.Settling?
    case Ready => pc.Polling?
    case MarkDropped => pc.Finishing?
    case DropFuture => pc.Dropping?
    case Release => pc.Releasing?
    case Dealloc => pc.Freeing?
    // A wake is called on an outside thread: see "Left out" for worker threads.
    case StartWake(t, k, consume) => th.Outside? && pc.Rest? && if consume then MayEnd(s, t, k) else MayBorrow(s, t, k)
    case WakeOr => pc.Waking?
    case Schedule => pc.Scheduling?
    case StartDrop(t, k) => th.Outside? && pc.Rest? && MayEnd(s, t, k)
    case Drop => pc.Unref?
    case Clone(t, k, k') => MayBorrow(s, t, k) && k' !in s.tasks[t].wakers
    case Flush(w) => th.Outside? && pc.Rest? && Batch(th.x, w) in s.lists && Queue(w) in s.lists
  }

  function AfterWake(pc: Pc): Pc
    requires pc.Waking? || pc.Scheduling?
  {
    if pc.consume then Unref(pc.t, pc.k) else Rest
  }

  /** `rc_dec`: the memory is freed by whoever takes the count from 1 to 0. */
  function Decrement(task: Task): Task
  {
    task.(rc := if task.rc > 0 then task.rc - 1 else 0)
  }

  function AfterDecrement(task: Task, t: nat): Pc
  {
    if task.rc == 1 then Freeing(t) else Rest
  }

  /** The list `wake` pushes to: the thread's own batch list for the task's worker, or that worker's queue. */
  function WakeTarget(s: State, th: Thread, task: Task): Place
  {
    if th.Outside? && th.x in s.batchers then Batch(th.x, task.workerId) else Queue(task.workerId)
  }

  ghost function EffectOf(s: State, th: Thread, a: Action, task: Task): Effect
    requires Enabled(s, th, a) && !a.Flush?
  {
    var pc, status := PcOf(s.pcs, th), task.status;
    match a
    case Create(t, q, front) => Effect(pc, NewTask(q), Enqueue(Queue(q), front))
    case Pop(q) =>
      var t := Subject(s, th, a);
      Effect(if q == th.w then Held(t) else Stolen(t), task.(place := Hand(th)), Dequeue(Queue(q)))
    case SetId => Effect(Held(pc.t), task.(workerId := th.w), Keep)
    case Begin => Effect(Calling(pc.t), task.(status := status.(notified := false)), Keep)
    case Call => Effect(Polling(pc.t), task.(polls := task.polls + 1), Keep)
    case CloneInPoll(k) => Effect(pc, task.(rc := task.rc + 1, wakers := task.wakers + {k}), Keep)
    case Pend => Effect(Settling(pc.t, MUTED), task, Keep)
    case Cas =>
      if status != pc.prev then Effect(Settling(pc.t, status), task, Keep)
      else if pc.prev == MUTED then Effect(Rest, task.(status := NOBITS, place := Idle), Keep)
      else Effect(Calling(pc.t), task.(status := MUTED), Keep)
    case CasFail => Effect(Settling(pc.t, status), task, Keep)
    case Ready => Effect(Finishing(pc.t), task, Keep)
    case MarkDropped => Effect(Dropping(pc.t), task.(status := status.(dropped := true)), Keep)
    case DropFuture => Effect(Releasing(pc.t), task.(drops := task.drops + 1), Keep)
    case Release => Effect(AfterDecrement(task, pc.t), Decrement(task).(place := Gone), Keep)
    case Dealloc => Effect(Rest, task.(frees := task.frees + 1), Keep)
    case StartWake(t, k, consume) => Effect(Waking(t, k, consume), task, Keep)
    case WakeOr =>
      var woken := task.(status := Status(true, true, status.dropped),
                         wokeAt := if status.dropped then task.wokeAt else task.polls);
      if status.muted || status.dropped then Effect(AfterWake(pc), woken, Keep)
      else Effect(Scheduling(pc.t, pc.k, pc.consume), woken.(place := Hand(th)), Keep)
    case Schedule =>
      var p := WakeTarget(s, th, task);
      Effect(AfterWake(pc), task.(place := p), Enqueue(p, false))
    case StartDrop(t, k) => Effect(Unref(t, k), task, Keep)
    case Drop => Effect(AfterDecrement(task, pc.t), Decrement(task).(wakers := task.wakers - {pc.k}), Keep)
    case Clone(t, k, k') => Effect(pc, task.(rc := task.rc + 1, wakers := task.wakers + {k'}), Keep)
  }

  function ListsAfter(lists: map<Place, seq<nat>>, op: ListOp, t: nat): map<Place, seq<nat>>
  {
    match op
    case Keep => lists
    case Enqueue(p, front) =>
      if p !in lists then lists else lists[p := if front then [t] + lists[p] else lists[p] + [t]]
    case Dequeue(p) => if p in lists && lists[p] != [] then lists[p := lists[p][1..]] else lists
  }

  function Apply(s: State, th: Thread, t: nat, e: Effect): State
  {
    s.(tasks := s.tasks[t := e.task], lists := ListsAfter(s.lists, e.op, t), pcs := s.pcs[th := e.pc])
  }

  function TaskAt(s: State, t: nat): Task
  {
    if t in s.tasks then s.tasks[t] else NewTask(0)
  }

  /** One lock section of `push_batch`: the whole batch list for worker `w` moves to the back of `w`'s queue. */
  function FlushNext(s: State, x: nat, w: nat): State
    requires Batch(x, w) in s.lists && Queue(w) in s.lists
  {
    var moved := s.lists[Batch(x, w)];
    s.(lists := s.lists[Queue(w) := s.lists[Queue(w)] + moved][Batch(x, w) := []],
       tasks := map t | t in s.tasks :: if t in moved then s.tasks[t].(place := Queue(w)) else s.tasks[t])
  }

  ghost function Next(s: State, th: Thread, a: Action): State
    requires Enabled(s, th, a)
  {
    if a.Flush? then FlushNext(s, th.x, a.w)
    else var t := Subject(s, th, a); Apply(s, th, t, EffectOf(s, th, a, TaskAt(s, t)))
  }

  /** `n` workers, some outside threads with a batch guard, and no task. */
  ghost function Start(n: nat, batchers: set<nat>): State
  {
    State(n, batchers, map[],
          (map w: nat | w < n :: Queue(w) := []) + (map x: nat, w: nat | x in batchers && w < n :: Batch(x, w) := []),
          map[])
  }

  /** `path` goes through the states of a run that takes the steps of `trace`, each a thread and its action. */
  ghost predicate IsRun(path: seq<State>, trace: seq<(Thread, Action)>)
  {
    && |path| == |trace| + 1
    && forall i {:trigger trace[i]} :: 0 <= i < |trace| ==> Step(path[i], trace[i].0, trace[i].1, path[i + 1])
  }

  ghost predicate Step(s: State, th: Thread, a: Action, s': State)
  {
    Enabled(s, th, a) && s' == Next(s, th, a)
  }

  ghost predicate Runs(s: State, trace: seq<(Thread, Action)>, t: State)
  {
    exists path :: IsRun(path, trace) && path[0] == s && path[|trace|] == t
  }

  ghost predicate Reachable(s: State)
  {
    1 <= s.n && exists trace :: Runs(Start(s.n, s.batchers), trace, s)
  }

  // ----- the invariant -----

  /** The lists are the workers' queues and the batch lists; their elements know where they are and are distinct. */
  ghost predicate ListsOk(s: State)
  {
    && 1 <= s.n
    && (forall w: nat :: w < s.n <==> Queue(w) in s.lists)
    && (forall x: nat, w: nat :: x in s.batchers && w < s.n <==> Batch(x, w) in s.lists)
    && (forall p :: p in s.lists ==> p.Queue? || p.Batch?)
    && (forall p, i :: p in s.lists && 0 <= i < |s.lists[p]| ==>
          s.lists[p][i] in s.tasks && s.tasks[s.lists[p][i]].place == p)
    && (forall p, i, j :: p in s.lists && 0 <= i < j < |s.lists[p]| ==> s.lists[p][i] != s.lists[p][j])
  }

  /** The runtime holds its reference, and the future is alive. */
  predicate Alive(task: Task)
  {
    task.drops == 0 && task.frees == 0 && task.rc == |task.wakers| + 1 && !task.status.dropped
  }

  /** A thread has the task in its hands, and the task looks as that thread's program counter says. */
  predicate HandOk(t: nat, task: Task, pc: Pc)
  {
    match pc
    case Stolen(u) => u == t && Alive(task) && task.status.muted && task.status.notified
    case Held(u) => u == t && Alive(task) && task.status.muted && task.status.notified
    case Calling(u) => u == t && Alive(task) && task.status.muted
    case Polling(u) => u == t && Alive(task) && task.status.muted
    case Settling(u, prev) => u == t && Alive(task) && task.status.muted && prev.muted && !prev.dropped
    case Finishing(u) => u == t && Alive(task) && task.status.muted
    case Dropping(u) =>
      u == t && task.status.dropped && task.drops == 0 && task.frees == 0 && task.rc == |task.wakers| + 1
    case Releasing(u) =>
      u == t && task.status.dropped && task.drops == 1 && task.frees == 0 && task.rc == |task.wakers| + 1
    case Scheduling(u, _, _) => u == t && Alive(task) && task.status.muted && task.status.notified
    case _ => false
  }

  /** A wake after the last call of the future's poll is not forgotten. */
  predicate WakeOk(t: nat, task: Task, pcs: map<Thread, Pc>)
  {
    && task.wokeAt <= task.polls
    && (task.wokeAt == task.polls && !task.status.dropped ==>
          task.status.notified || (task.place.Hand? && PcOf(pcs, task.place.th) == Calling(t)))
  }

  predicate TaskOk(s: State, t: nat)
    requires t in s.tasks
  {
    var task := s.tasks[t];
    && task.workerId < s.n
    && WakeOk(t, task, s.pcs)
    && match task.place
       case Hand(th) => HandOk(t, task, PcOf(s.pcs, th))
       case Idle => Alive(task) && task.status == NOBITS
       case Gone =>
         && task.status.dropped && task.drops == 1 && task.rc == |task.wakers|
         && (task.frees == 0 || (task.frees == 1 && task.rc == 0))
       case _ =>
         && task.place in s.lists && t in s.lists[task.place]
         && Alive(task) && task.status.muted && task.status.notified
  }

  predicate TasksOk(s: State)
  {
    forall t :: t in s.tasks ==> TaskOk(s, t)
  }

  predicate Holds(pc: Pc)
  {
    pc.Stolen? || pc.Held? || pc.Calling? || pc.Polling? || pc.Settling? || pc.Finishing? || pc.Dropping? ||
    pc.Releasing? || pc.Scheduling?
  }

  /** A program counter tells the truth about the task it names. */
  predicate ThreadOk(s: State, th: Thread, pc: Pc)
  {
    && (Holds(pc) ==> pc.t in s.tasks && s.tasks[pc.t].place == Hand(th))
    && (pc.Freeing? ==>
          pc.t in s.tasks && s.tasks[pc.t].place.Gone? && s.tasks[pc.t].rc == 0 && s.tasks[pc.t].frees == 0)
    && (pc.Waking? || pc.Scheduling? || pc.Unref? ==> th.Outside? && pc.t in s.tasks && pc.k in s.tasks[pc.t].wakers)
    && (Holds(pc) && !pc.Scheduling? ==> th.Worker? && th.w < s.n)
  }

  predicate ThreadsOk(s: State)
  {
    forall th :: th in s.pcs ==> ThreadOk(s, th, s.pcs[th])
  }

  /** A waker that is being ended is used by nobody else, and memory is freed by one thread only. */
  predicate Exclusive(pc: Pc, pc': Pc)
  {
    && !(pc.Freeing? && pc'.Freeing? && pc.t == pc'.t)
    && ((pc.Waking? || pc.Scheduling? || pc.Unref?) && Consumes(pc, pc.t, pc.k) ==> !Uses(pc', pc.t, pc.k))
  }

  predicate ExclusiveOk(s: State)
  {
    forall th, th' :: th in s.pcs && th' in s.pcs && th != th' ==> Exclusive(s.pcs[th], s.pcs[th'])
  }

  /** Memory without references is freed, or about to be: no leak. */
  ghost predicate LeaksNothing(s: State, t: nat)
    requires t in s.tasks
  {
    s.tasks[t].place.Gone? && s.tasks[t].rc == 0 && s.tasks[t].frees == 0 ==>
      exists th :: th in s.pcs && s.pcs[th] == Freeing(t)
  }

  ghost predicate Inv(s: State)
  {
    && ListsOk(s) && TasksOk(s) && ThreadsOk(s) && ExclusiveOk(s)
    && forall t :: t in s.tasks ==> LeaksNothing(s, t)
  }
}
