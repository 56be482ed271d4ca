/** The parking protocol as a state machine: `Worker::main_loop` (`yaay-mt-runtime/src/worker.rs`) over `Epoch`
    (`yaay-mt-runtime/src/epoch.rs`), with spawning, stealing, shutdown and outside producers.

    Every atomic operation and every lock-protected section is one step of one thread, under sequential consistency.
    Threads `0..n` are the workers; the threads after them are outside threads (wakers, reactors, the main thread).
    `bumps` (the unbounded epoch), `Snapshot.seen`, `Snapshot.stamp`, `called` and `requested` only record history. */
module Parking {
  import opened EpochWord
  import opened Options

  datatype Job = Ordinary | Shutdown

  /** `old_status`, with the number of bumps when it was read (`seen`) and when `old_instant` was taken (`stamp`). */
  datatype Snapshot = Snapshot(status: nat, seen: nat, stamp: nat)

  /** Where a thread goes on after `next_epoch` or `set_active` is complete. */
  datatype Return = ToRunning | ToTest | ToPoll(job: Job)

  datatype Pc =
    | Local                                              // about to pop its own queue, worker.rs:108
    | Running                                            // in an ordinary future's poll; or an outside thread's code
    | Announcing(next: nat)                              // in the loop of `shutdown_async`
    | StoreFlag | Scan(k: nat) | Forward(k: nat)         // in `Shutdown::poll`
    | Bump(ret: Return)                                  // about to `fetch_add(EPOCH)`
    | Unpark(ret: Return)                                // about to `unpark_all`
    | Test                                               // about to read its shutdown flag, worker.rs:112 and 153
    | TakeInstant | Deactivate(stamp: nat)               // worker.rs:119, 120
    | Steal(snap: Snapshot, tries: nat)                  // worker.rs:125, 180
    | StealPop(snap: Snapshot, tries: nat, victim: nat)  // worker.rs:183
    | Recheck(snap: Snapshot)                            // worker.rs:133
    | Wait(snap: Snapshot) | Validate(snap: Snapshot)    // epoch.rs:210, 243-251
    | Parked(snap: Snapshot)
    | Reinstant(snap: Snapshot)                          // worker.rs:140
    | Restatus(snap: Snapshot, stamp: nat)               // worker.rs:141
    | Repop(snap: Snapshot)                              // worker.rs:143
    | Holding(job: Job)                                  // about to `set_active`, worker.rs:151
    | Exited

  datatype State = State(
    n: nat,
    word: nat,
    queues: seq<seq<Job>>,
    flags: seq<bool>,
    pcs: seq<Pc>,
    bumps: nat,
    called: bool,
    requested: bool)

  datatype Action =
    | PopOwn | Spawn(k: nat) | Defer | Announce | AnnouncePush | Finish
    | SetFlag | LoadFlag | ForwardPush | NextEpoch | UnparkAll | TestFlag
    | ReadClock | SetInactive | PeekVictim(k: nat) | PopVictim | PopRecheck
    | LoadStatus | Park | FailPark | RereadClock | RereadStatus | PopRefresh | SetActive
    | OutsidePush(q: nat)

  /** `other_workers[k]` of worker `w`: all workers but `w`, in order. */
  function Other(w: nat, k: nat): nat
  {
    if k < w then k else k + 1
  }

  /** The position of worker `v` in `other_workers` of worker `w`. */
  function IndexOf(w: nat, v: nat): nat
    requires v != w
  {
    if v < w then v else v - 1
  }

  /** A worker counted by the status word. A worker that has exited is still counted. */
  predicate Active(pc: Pc)
  {
    !(HasSnap(pc) || pc.Holding?)
  }

  /** The program counters of the inner loop that carry `old_status`. */
  predicate HasSnap(pc: Pc)
  {
    pc.Steal? || pc.StealPop? || pc.Recheck? || pc.Wait? || pc.Validate? || pc.Parked? || pc.Reinstant? ||
    pc.Restatus? || pc.Repop?
  }

  /** How many of the first `k` threads are active. */
  function Count(pcs: seq<Pc>, k: nat): nat
    requires k <= |pcs|
  {
    if k == 0 then 0 else Count(pcs, k - 1) + (if Active(pcs[k - 1]) then 1 else 0)
  }

  // ----- the steps -----

  /** `n` workers, all counted active and about to pop, and `m` outside threads. */
  function Start(n: nat, m: nat): State
  {
    State(n, n, seq(n, _ => []), seq(n, _ => false), seq(n, _ => Local) + seq(m, _ => Running), 0, false, false)
  }

  predicate Shape(s: State)
  {
    1 <= s.n < EPOCH && |s.queues| == |s.flags| == s.n <= |s.pcs|
  }

  /** The effect of one step on shared state, and the acting thread's next program counter. */
  datatype Move =
    | Quiet(pc: Pc)
    | Call(pc: Pc)
    | Push(pc: Pc, q: nat, front: bool, job: Job, done: bool)
    | Take(pc: Pc, q: nat)
    | Raise(pc: Pc)
    | Bumped(pc: Pc)
    | Activated(pc: Pc)
    | Deactivated(pc: Pc)
    | Unparked(pc: Pc)

  /** Where polling a job begins. */
  function PollPc(job: Job): Pc
  {
    if job.Shutdown? then StoreFlag else Running
  }

  function AfterReturn(ret: Return): Pc
  {
    match ret
    case ToRunning => Running
    case ToTest => Test
    case ToPoll(job) => PollPc(job)
  }

  /** The top of the inner loop: steal when the snapshot shows active workers, otherwise prepare to wait. */
  function Decide(n: nat, snap: Snapshot): Pc
  {
    if ActiveCount(snap.status) != 0 then Steal(snap, 4 * n) else Recheck(snap)
  }

  /** One unsuccessful `try_steal`. */
  function AfterMiss(snap: Snapshot, tries: nat): Pc
  {
    if tries <= 1 then Reinstant(snap) else Steal(snap, tries - 1)
  }

  predicate Enabled(s: State, w: nat, a: Action)
  {
    Shape(s) && w < |s.pcs| &&
    var pc := s.pcs[w];
    match a
    case PopOwn => pc.Local?
    case Spawn(k) => pc.Running? && w < s.n && k < s.n
    case Defer => pc.Running? && w < s.n
    case Announce => pc.Running?
    case AnnouncePush => pc.Announcing?
    case Finish => pc.Running? && w < s.n
    case SetFlag => pc.StoreFlag?
    case LoadFlag => pc.Scan?
    case ForwardPush => pc.Forward?
    case NextEpoch => pc.Bump?
    case UnparkAll => pc.Unpark?
    case TestFlag => pc.Test?
    case ReadClock => pc.TakeInstant?
    case SetInactive => pc.Deactivate?
    case PeekVictim(k) => pc.Steal? && k + 1 < s.n
    case PopVictim => pc.StealPop?
    case PopRecheck => pc.Recheck?
    case LoadStatus => pc.Wait?
    // Validation succeeds only on the unchanged word and within the time limit, that is, fewer than EPOCHS bumps.
    case Park => pc.Validate? && s.word == pc.snap.status && s.bumps < pc.snap.stamp + EPOCHS
    // Otherwise, or when the weak compare-exchange fails for no reason, the worker goes on.
    case FailPark => pc.Validate?
    case RereadClock => pc.Reinstant?
    case RereadStatus => pc.Restatus?
    case PopRefresh => pc.Repop?
    case SetActive => pc.Holding?
    // An outside producer may push to several queues before its one `next_epoch`, as `push_batch` does.
    case OutsidePush(q) => s.n <= w && (pc.Running? || pc.Bump?) && q < s.n
  }

  /** What each operation does. Indices are those of the source, unchecked; `MoveIsLawful` proves them in range. */
  function MoveOf(s: State, w: nat, a: Action): Move
    requires Enabled(s, w, a)
  {
    var pc := s.pcs[w];
    match a
    case PopOwn => PopMove(s, w, PollPc(FrontOf(s, w)), TakeInstant)
    case Spawn(k) =>
      if k + 1 != s.n then Push(Bump(ToRunning), Other(w, k), false, Ordinary, false)
      else Push(Running, w, false, Ordinary, false)
    case Defer => Push(Running, w, true, Ordinary, false)
    case Announce => Call(Announcing(0))
    case AnnouncePush =>
      if pc.next + 1 == s.n then Push(Bump(ToRunning), pc.next, true, Shutdown, true)
      else Push(Announcing(pc.next + 1), pc.next, true, Shutdown, false)
    case Finish => Quiet(Test)
    case SetFlag => Raise(Scan(0))
    case LoadFlag =>
      if pc.k + 1 == s.n then Quiet(Bump(ToTest))
      else if FlagOf(s, Other(w, pc.k)) then Quiet(Scan(pc.k + 1))
      else Quiet(Forward(pc.k))
    case ForwardPush => Push(Scan(pc.k + 1), Other(w, pc.k), true, Shutdown, false)
    case NextEpoch => Bumped(if ActiveCount(s.word) == 0 then Unpark(pc.ret) else AfterReturn(pc.ret))
    case UnparkAll => Unparked(AfterReturn(pc.ret))
    case TestFlag => Quiet(if FlagOf(s, w) then Exited else Local)
    case ReadClock => Quiet(Deactivate(s.bumps))
    case SetInactive => Deactivated(Decide(s.n, Snapshot(FetchSub(s.word, 1), s.bumps, pc.stamp)))
    case PeekVictim(k) =>
      if Nonempty(s, Other(w, k)) then Quiet(StealPop(pc.snap, pc.tries, Other(w, k)))
      else Quiet(AfterMiss(pc.snap, pc.tries))
    case PopVictim => PopMove(s, pc.victim, Holding(FrontOf(s, pc.victim)), AfterMiss(pc.snap, pc.tries))
    case PopRecheck => PopMove(s, w, Holding(FrontOf(s, w)), Wait(pc.snap))
    case LoadStatus => Quiet(if s.word == pc.snap.status then Validate(pc.snap) else Reinstant(pc.snap))
    case Park => Quiet(Parked(pc.snap))
    case FailPark => Quiet(Reinstant(pc.snap))
    case RereadClock => Quiet(Restatus(pc.snap, s.bumps))
    case RereadStatus =>
      var snap := Snapshot(s.word, s.bumps, pc.stamp);
      Quiet(if EpochNumber(s.word) > EpochNumber(pc.snap.status) then Repop(snap) else Decide(s.n, snap))
    case PopRefresh => PopMove(s, w, Holding(FrontOf(s, w)), Decide(s.n, pc.snap))
    case SetActive => Activated(if ActiveCount(s.word) == 0 then Unpark(ToPoll(pc.job)) else PollPc(pc.job))
    case OutsidePush(q) => Push(Bump(ToRunning), q, false, Ordinary, false)
  }

  predicate Nonempty(s: State, q: nat)
  {
    q < |s.queues| && s.queues[q] != []
  }

  function FrontOf(s: State, q: nat): Job
  {
    if Nonempty(s, q) then s.queues[q][0] else Ordinary
  }

  predicate FlagOf(s: State, w: nat)
  {
    w < |s.flags| && s.flags[w]
  }

  /** `pop_front` on queue `q`: continue at `some` with its front job, or at `none` when it is empty. */
  function PopMove(s: State, q: nat, some: Pc, none: Pc): Move
  {
    if Nonempty(s, q) then Take(some, q) else Quiet(none)
  }

  /** `unpark_all`: every parked worker leaves the parking lot and goes on to refresh its status. */
  function Released(pcs: seq<Pc>): (r: seq<Pc>)
    ensures |r| == |pcs|
    ensures forall i :: 0 <= i < |pcs| ==> r[i] == if pcs[i].Parked? then Reinstant(pcs[i].snap) else pcs[i]
  {
    seq(|pcs|, i requires 0 <= i < |pcs| => if pcs[i].Parked? then Reinstant(pcs[i].snap) else pcs[i])
  }

  function Apply(s: State, w: nat, m: Move): State
    requires w < |s.pcs|
  {
    var s1 := s.(pcs := s.pcs[w := m.pc]);
    match m
    case Quiet(_) => s1
    case Call(_) => s1.(called := true)
    case Push(_, q, front, job, done) =>
      if q < |s.queues| then
        s1.(queues := s.queues[q := if front then [job] + s.queues[q] else s.queues[q] + [job]],
            requested := s.requested || done)
      else s1
    case Take(_, q) => if Nonempty(s, q) then s1.(queues := s.queues[q := s.queues[q][1..]]) else s1
    case Raise(_) => if w < |s.flags| then s1.(flags := s.flags[w := true]) else s1
    case Bumped(_) => s1.(word := FetchAdd(s.word, EPOCH), bumps := s.bumps + 1)
    case Activated(_) => s1.(word := FetchAdd(s.word, 1))
    case Deactivated(_) => s1.(word := FetchSub(s.word, 1))
    case Unparked(_) => s1.(pcs := Released(s1.pcs))
  }

  function Next(s: State, w: nat, a: Action): State
    requires Enabled(s, w, a)
  {
    Apply(s, w, MoveOf(s, w, a))
  }

  ghost predicate Step(s: State, w: nat, a: Action, s': State)
  {
    Enabled(s, w, a) && s' == Next(s, w, a)
  }

  /** `path` goes through the states of a run that takes the steps of `trace`, each a thread and its action. */
  ghost predicate IsRun(path: seq<State>, trace: seq<(nat, Action)>)
  {
    && |path| == |trace| + 1
    && forall i {:trigger trace[i]} :: 0 <= i < |trace| ==> Step(path[i], trace[i].0, trace[i].1, path[i + 1])
  }

  ghost predicate Runs(s: State, trace: seq<(nat, Action)>, t: State)
  {
    exists path :: IsRun(path, trace) && path[0] == s && path[|trace|] == t
  }

  /** The states that runs of any number of workers and outside threads reach. `Epoch::new` refuses 512 workers. */
  ghost predicate Reachable(s: State)
  {
    1 <= s.n < EPOCH && exists m, trace :: Runs(Start(s.n, m), trace, s)
  }

  // ----- the invariant -----

  /** The packed word is exactly the counted workers and the bumps. */
  predicate WordOk(s: State)
    requires Shape(s)
  {
    s.word == Pack(Count(s.pcs, s.n), s.bumps)
  }

  predicate SnapOk(n: nat, bumps: nat, snap: Snapshot)
  {
    && ActiveCount(snap.status) < n
    && snap.status == Pack(ActiveCount(snap.status), snap.seen)
    && snap.stamp <= snap.seen <= bumps
  }

  /** What a program counter says about the thread's own data. */
  predicate PcOk(n: nat, bumps: nat, worker: bool, pc: Pc)
  {
    && (HasSnap(pc) ==> SnapOk(n, bumps, pc.snap))
    && (pc.Steal? || pc.StealPop? ==> ActiveCount(pc.snap.status) != 0 && 1 <= pc.tries <= 4 * n)
    && (pc.Recheck? || pc.Wait? || pc.Validate? || pc.Parked? ==> ActiveCount(pc.snap.status) == 0)
    && (pc.Deactivate? || pc.Restatus? ==> pc.stamp <= bumps)
    && (pc.Announcing? ==> pc.next < n)
    && (pc.Scan? ==> pc.k < n)
    && (pc.Forward? ==> pc.k + 1 < n)
    && (pc.StealPop? ==> pc.victim < n)
    && (pc.Bump? ==> !pc.ret.ToPoll?)
    && (!worker ==>
          pc.Running? || pc.Announcing? || (pc.Bump? && pc.ret.ToRunning?) || (pc.Unpark? && pc.ret.ToRunning?))
  }

  predicate PcsOk(s: State)
  {
    forall w :: 0 <= w < |s.pcs| ==> PcOk(s.n, s.bumps, w < s.n, s.pcs[w])
  }

  /** The thread has pushed, or may have, and will still call `next_epoch`. */
  predicate OwesBump(pc: Pc)
  {
    pc.Announcing? || pc.Scan? || pc.Forward? || pc.Bump?
  }

  ghost predicate BumpOwed(s: State)
  {
    exists u :: 0 <= u < |s.pcs| && OwesBump(s.pcs[u])
  }

  /** Some thread is between its `fetch_add` and its `unpark_all`. */
  ghost predicate UnparkOwed(s: State)
  {
    exists u :: 0 <= u < |s.pcs| && s.pcs[u].Unpark?
  }

  /** That thread is a worker whose `set_active` moved the active count from 0 to 1. */
  predicate Activator(pc: Pc)
  {
    pc.Unpark? && pc.ret.ToPoll?
  }

  ghost predicate ActivatorOwes(s: State)
  {
    exists u :: 0 <= u < |s.pcs| && Activator(s.pcs[u])
  }

  predicate Committed(pc: Pc)
  {
    pc.Wait? || pc.Validate? || pc.Parked?
  }

  /** A worker that has found its queue empty and goes to wait, with a job in that queue, has a bump past or coming. */
  ghost predicate QueuesOk(s: State)
    requires Shape(s)
  {
    forall w :: 0 <= w < s.n && Committed(s.pcs[w]) && s.queues[w] != [] ==>
      s.bumps > s.pcs[w].snap.seen || BumpOwed(s)
  }

  /** Lemmas A and B of `epoch.rs`. */
  ghost predicate WakesOk(s: State)
    requires Shape(s)
  {
    forall p :: 0 <= p < s.n && s.pcs[p].Parked? ==>
      && (Count(s.pcs, s.n) != 0 ==> ActivatorOwes(s))
      && (s.bumps != s.pcs[p].snap.seen ==> UnparkOwed(s))
  }

  /** A worker whose flag is set is on its way out of `main_loop`. */
  predicate Leaving(pc: Pc)
  {
    pc.Scan? || pc.Forward? || (pc.Bump? && pc.ret.ToTest?) || (pc.Unpark? && pc.ret.ToTest?) || pc.Test? || pc.Exited?
  }

  predicate FlagsOk(s: State)
    requires Shape(s)
  {
    forall w :: 0 <= w < s.n ==>
      && (s.flags[w] ==> Leaving(s.pcs[w]))
      && (Leaving(s.pcs[w]) && !s.pcs[w].Test? ==> s.flags[w])
  }

  /** The job a worker has popped and not finished. */
  function InHand(pc: Pc): Option<Job>
  {
    match pc
    case Holding(job) => Some(job)
    case Running => Some(Ordinary)
    case Announcing(_) => Some(Ordinary)
    case StoreFlag => Some(Shutdown)
    case Scan(_) => Some(Shutdown)
    case Forward(_) => Some(Shutdown)
    case Bump(ret) => Some(if ret.ToTest? then Shutdown else if ret.ToPoll? then ret.job else Ordinary)
    case Unpark(ret) => Some(if ret.ToTest? then Shutdown else if ret.ToPoll? then ret.job else Ordinary)
    case _ => None
  }

  /** As long as nobody has called `shutdown_async`, there is no shutdown job anywhere, and no flag is set. */
  predicate CallsOk(s: State)
    requires Shape(s)
  {
    !s.called ==>
      && (forall w :: 0 <= w < s.n ==> !s.flags[w] && !s.pcs[w].Exited?)
      && (forall w, i :: 0 <= w < s.n && 0 <= i < |s.queues[w]| ==> s.queues[w][i] == Ordinary)
      && (forall w :: 0 <= w < |s.pcs| ==> InHand(s.pcs[w]) != Some(Shutdown) && !s.pcs[w].Announcing?)
  }

  /** Thread `v` holds a shutdown job, and polling it will still set, test or push for worker `w`. */
  predicate WillReach(pc: Pc, v: nat, w: nat)
  {
    || (pc.Holding? && pc.job.Shutdown?)
    || (pc.Unpark? && pc.ret.ToPoll? && pc.ret.job.Shutdown?)
    || pc.StoreFlag?
    || ((pc.Scan? || pc.Forward?) && v != w && pc.k <= IndexOf(v, w))
  }

  /** Shutdown is not lost for `w`: it is flagged, or a shutdown job is in its queue, or one is on its way to it. */
  ghost predicate Covered(s: State, w: nat)
    requires Shape(s) && w < s.n
  {
    s.flags[w] || Shutdown in s.queues[w] || exists v: nat :: v < |s.pcs| && WillReach(s.pcs[v], v, w)
  }

  ghost predicate ShutdownOk(s: State)
    requires Shape(s)
  {
    && (s.requested ==> forall w: nat :: w < s.n ==> Covered(s, w))
    && (forall u, w: nat :: 0 <= u < |s.pcs| && s.pcs[u].Announcing? && w < s.pcs[u].next && w < s.n ==> Covered(s, w))
  }

  ghost predicate Inv(s: State)
  {
    Shape(s) && WordOk(s) && PcsOk(s) && QueuesOk(s) && WakesOk(s) && FlagsOk(s) && CallsOk(s) && ShutdownOk(s)
  }
}
