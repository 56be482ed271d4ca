/** The I/O readiness handshake on top of the task life cycle: `Dispatcher` (`yaay-mio/src/dispatcher.rs`), the retry
    loop of `io_poll!` (`yaay-mio/src/macros.rs`) and the reactors' delivery of events under their `dispatchers` lock
    (`yaay-mio/src/shared.rs`). A task may have any number of dispatchers and wait on any number of them at once.

    A reactor reaches a dispatcher, and the waker in it, through a raw pointer. Ownership does not protect that waker:
    only the lock does. `broken` becomes true where a waker would be used after its end, or ended while it is used;
    `NeverBroken` proves that it never does. `tries` and `event` only record history, and names of dispatchers are
    never reused. */
module Readiness {
  import T = TaskLife

  /** A dispatcher's way: allocated, its pointer in the slot, its pointer cleared, its memory and waker dropped. */
  datatype Link = Fresh | Linked | Unlinked | Freed

  /** Where a future is in `io_poll!` on one dispatcher. */
  datatype Io =
    | Elsewhere    // outside it
    | Retrying     // about to `prepare_io`
    | Prepared     // about to try the I/O
    | Blocked      // in `wait_io`: about to compare-exchange
    | Suspending   // in `wait_io`: `PendingOnce` has returned `Pending`
    | Suspended    // and so has the task's poll

  /** The status byte: `MUTED` is 1, `NOTIFIED | MUTED` is 3. `event` says whether a notification came since the last
      `prepare_io`, and `tries` counts the `prepare_io`s. */
  datatype Dispatcher = Dispatcher(
    status: nat,
    task: nat,
    waker: nat,
    reactor: nat,
    link: Link,
    io: Io,
    event: bool,
    tries: nat)

  /** `locked` are the reactors that hold their `dispatchers` lock, to deliver events. `owing` maps a reactor that has
      swapped a 0 out of a dispatcher's status to that dispatcher, until it wakes. Reactor `x` is thread
      `Outside(x)`. */
  datatype State = State(
    rt: T.State,
    disps: map<nat, Dispatcher>,
    locked: set<nat>,
    owing: map<nat, nat>,
    broken: bool)

  datatype Action =
    | Runtime(a: T.Action)
    | NewDispatcher(d: nat, k: nat, r: nat) | LinkIn(d: nat) | Unlink(d: nat) | Free(d: nat)
    | Enter(d: nat) | Prepare(d: nat) | Done(d: nat) | WouldBlock(d: nat) | Wait(d: nat) | Cancel(d: nat)
    | TakeLock | DropLock | Notify(d: nat) | NotifyWake

  function PcOf(s: State, th: T.Thread): T.Pc
  {
    T.PcOf(s.rt.pcs, th)
  }

  /** The task whose future thread `th` is polling or about to poll. */
  function Polled(s: State, th: T.Thread): nat
  {
    var pc := PcOf(s, th);
    if pc.Polling? || pc.Calling? then pc.t else 0
  }

  /** Some dispatcher holds this waker. */
  predicate OwnedByDispatcher(s: State, t: nat, k: nat)
  {
    exists d :: d in s.disps && !s.disps[d].link.Freed? && s.disps[d].task == t && s.disps[d].waker == k
  }

  /** The future of task `t` is outside `io_poll!`, or, where `waiting` says so, pending in `wait_io`, on all
      dispatchers. */
  predicate AllIo(s: State, t: nat, waiting: bool)
  {
    forall d :: d in s.disps && s.disps[d].task == t ==>
      s.disps[d].io.Elsewhere? || (waiting && s.disps[d].io.Suspending?)
  }

  predicate Owes(s: State, th: T.Thread)
  {
    th.Outside? && th.x in s.owing
  }

  /** A step of the runtime, as the futures allow it: a future returns `Pending` when it is pending on all dispatchers
      that it waits on, and `Ready` from outside `io_poll!`; wakers inside dispatchers are used by dispatchers only. */
  ghost predicate RuntimeEnabled(s: State, th: T.Thread, a: T.Action)
  {
    && T.Enabled(s.rt, th, a)
    && !Owes(s, th)
    && (a.Pend? ==> AllIo(s, Polled(s, th), true))
    && (a.Ready? ==> AllIo(s, Polled(s, th), false))
    && (a.StartDrop? || a.StartWake? ==> !OwnedByDispatcher(s, a.t, a.k))
  }

  /** What a runtime step does to a future's position: `Pending` completes a suspension, and the next call of the poll
      resumes behind it, at the top of the retry loop. */
  function IoAfter(s: State, th: T.Thread, a: T.Action, disp: Dispatcher): Dispatcher
  {
    if disp.task != Polled(s, th) then disp
    else if a.Pend? && disp.io.Suspending? then disp.(io := Suspended)
    else if a.Call? && disp.io.Suspended? then disp.(io := Retrying)
    else disp
  }

  function DispsAfter(s: State, th: T.Thread, a: T.Action): map<nat, Dispatcher>
  {
    map d | d in s.disps :: IoAfter(s, th, a, s.disps[d])
  }

  /** Thread `th` is polling the future that uses dispatcher `d`. */
  predicate Uses(s: State, th: T.Thread, d: nat)
  {
    d in s.disps && s.disps[d].link.Linked? && PcOf(s, th) == T.Polling(s.disps[d].task)
  }

  /** Reactor `x` delivers events, and is not in the middle of a wake. */
  predicate Delivers(s: State, th: T.Thread)
  {
    th.Outside? && th.x in s.locked && th.x !in s.owing && PcOf(s, th).Rest?
  }

  ghost predicate Enabled(s: State, th: T.Thread, a: Action)
  {
    match a
    case Runtime(ra) => RuntimeEnabled(s, th, ra)
    case NewDispatcher(d, k, _) => RuntimeEnabled(s, th, T.CloneInPoll(k)) && d !in s.disps
    case LinkIn(d) => d in s.disps && s.disps[d].link.Fresh? && s.disps[d].reactor !in s.locked
    // An `MIO` is borrowed by `io_poll!`, and can be dropped, by whatever thread has it, only outside of it.
    case Unlink(d) =>
      d in s.disps && s.disps[d].link.Linked? && s.disps[d].io.Elsewhere? && s.disps[d].reactor !in s.locked
    case Free(d) => d in s.disps && s.disps[d].link.Unlinked? && th.Outside? && th.x !in s.owing && PcOf(s, th).Rest?
    case Enter(d) => Uses(s, th, d) && s.disps[d].io.Elsewhere?
    case Prepare(d) => Uses(s, th, d) && s.disps[d].io.Retrying?
    case Done(d) => Uses(s, th, d) && s.disps[d].io.Prepared?
    case WouldBlock(d) => Uses(s, th, d) && s.disps[d].io.Prepared?
    case Wait(d) => Uses(s, th, d) && s.disps[d].io.Blocked?
    case Cancel(d) => Uses(s, th, d)
    case TakeLock => th.Outside? && th.x !in s.locked && th.x !in s.owing && PcOf(s, th).Rest?
    case DropLock => Delivers(s, th)
    case Notify(d) => Delivers(s, th) && d in s.disps && s.disps[d].link.Linked? && s.disps[d].reactor == th.x
    case NotifyWake => th.Outside? && th.x in s.owing && s.owing[th.x] in s.disps
  }

  function SetIo(s: State, d: nat, io: Io): State
    requires d in s.disps
  {
    s.(disps := s.disps[d := s.disps[d].(io := io)])
  }

  ghost function Next(s: State, th: T.Thread, a: Action): State
    requires Enabled(s, th, a)
  {
    match a
    case Runtime(ra) => s.(rt := T.Next(s.rt, th, ra), disps := DispsAfter(s, th, ra))
    case NewDispatcher(d, k, r) =>
      s.(rt := T.Next(s.rt, th, T.CloneInPoll(k)),
         disps := s.disps[d := Dispatcher(1, PcOf(s, th).t, k, r, Fresh, Elsewhere, false, 0)])
    case LinkIn(d) => s.(disps := s.disps[d := s.disps[d].(link := Linked)])
    case Unlink(d) => s.(disps := s.disps[d := s.disps[d].(link := Unlinked)])
    case Free(d) =>
      // The waker is dropped, whoever uses it.
      var disp := s.disps[d];
      if T.MayEnd(s.rt, disp.task, disp.waker) then
        s.(rt := T.Next(s.rt, th, T.StartDrop(disp.task, disp.waker)), disps := s.disps[d := disp.(link := Freed)])
      else s.(broken := true)
    case Enter(d) => SetIo(s, d, Retrying)
    case Prepare(d) =>
      s.(disps := s.disps[d := s.disps[d].(status := 1, io := Prepared, event := false, tries := s.disps[d].tries + 1)])
    case Done(d) => SetIo(s, d, Elsewhere)
    case WouldBlock(d) => SetIo(s, d, Blocked)
    case Wait(d) =>
      if s.disps[d].status == 1 then s.(disps := s.disps[d := s.disps[d].(status := 0, io := Suspending)])
      else SetIo(s, d, Retrying)
    case Cancel(d) => SetIo(s, d, Elsewhere)
    case TakeLock => s.(locked := s.locked + {th.x})
    case DropLock => s.(locked := s.locked - {th.x})
    case Notify(d) =>
      s.(disps := s.disps[d := s.disps[d].(status := 3, event := true)],
         owing := if s.disps[d].status == 0 then s.owing[th.x := d] else s.owing)
    case NotifyWake =>
      // The waker is borrowed, whether it still exists or not.
      var disp := s.disps[s.owing[th.x]];
      if T.Enabled(s.rt, th, T.StartWake(disp.task, disp.waker, false)) then
        s.(rt := T.Next(s.rt, th, T.StartWake(disp.task, disp.waker, false)), owing := s.owing - {th.x})
      else s.(broken := true)
  }

  ghost predicate Step(s: State, th: T.Thread, a: Action, s': State)
  {
    Enabled(s, th, a) && s' == Next(s, th, a)
  }

  ghost predicate IsRun(path: seq<State>, trace: seq<(T.Thread, Action)>)
  {
    && |path| == |trace| + 1
    && forall i {:trigger trace[i]} :: 0 <= i < |trace| ==> Step(path[i], trace[i].0, trace[i].1, path[i + 1])
  }

  ghost predicate Runs(s: State, trace: seq<(T.Thread, Action)>, t: State)
  {
    exists path :: IsRun(path, trace) && path[0] == s && path[|trace|] == t
  }

  ghost function Start(n: nat, batchers: set<nat>): State
  {
    State(T.Start(n, batchers), map[], {}, map[], false)
  }

  ghost predicate Reachable(s: State)
  {
    1 <= s.rt.n && exists trace :: Runs(Start(s.rt.n, s.rt.batchers), trace, s)
  }

  // ----- the invariant -----

  /** Some thread is about to wake task `t`: a reactor that swapped a 0 out, or a thread already inside `wake`. */
  ghost predicate OwesWake(s: State, t: nat)
  {
    || (exists x :: x in s.owing && s.owing[x] in s.disps && s.disps[s.owing[x]].task == t)
    || (exists th :: th in s.rt.pcs && s.rt.pcs[th].Waking? && s.rt.pcs[th].t == t)
  }

  /** The future is being polled right now. */
  predicate InPoll(rt: T.State, t: nat)
  {
    t in rt.tasks && rt.tasks[t].place.Hand? && T.PcOf(rt.pcs, rt.tasks[t].place.th) == T.Polling(t)
  }

  /** The future is alive and not being polled. */
  predicate BetweenPolls(rt: T.State, t: nat)
  {
    && t in rt.tasks && !rt.tasks[t].status.dropped
    && (rt.tasks[t].place.Hand? ==> var pc := T.PcOf(rt.pcs, rt.tasks[t].place.th); !pc.Polling? && !pc.Finishing?)
  }

  /** The future's position fits the task's place. */
  predicate PlaceOk(rt: T.State, disp: Dispatcher)
  {
    !disp.io.Elsewhere? ==> if disp.io.Suspended? then BetweenPolls(rt, disp.task) else InPoll(rt, disp.task)
  }

  /** The task was woken since its poll was last called, or is about to be. */
  ghost predicate Woken(s: State, t: nat)
  {
    t in s.rt.tasks && (OwesWake(s, t) || s.rt.tasks[t].wokeAt == s.rt.tasks[t].polls)
  }

  /** The future's position fits the task's place, and the status byte fits the events: an event that came when the
      future was suspended is answered by an owed or a recent wake. */
  ghost predicate IoOk(s: State, d: nat)
    requires d in s.disps
  {
    var disp := s.disps[d];
    !disp.io.Elsewhere? ==>
      && disp.link.Linked? && PlaceOk(s.rt, disp)
      && (disp.io.Prepared? || disp.io.Blocked? ==> disp.status == if disp.event then 3 else 1)
      && (disp.io.Suspending? || disp.io.Suspended? ==>
            if disp.event then disp.status == 3 && Woken(s, disp.task) else disp.status == 0)
  }

  /** Only the dispatcher's reactor uses its waker, and only under its lock and while the dispatcher is linked. */
  predicate UsedUnderLock(rt: T.State, locked: set<nat>, disp: Dispatcher)
  {
    forall th :: th in rt.pcs && T.Uses(rt.pcs[th], disp.task, disp.waker) ==>
      disp.link.Linked? && th == T.Outside(disp.reactor) && disp.reactor in locked
  }

  /** The waker in a dispatcher exists, and nobody ends it. */
  ghost predicate WakerOk(s: State, d: nat)
    requires d in s.disps
  {
    var disp := s.disps[d];
    !disp.link.Freed? ==> T.MayBorrow(s.rt, disp.task, disp.waker) && UsedUnderLock(s.rt, s.locked, disp)
  }

  /** No two dispatchers have the same waker. */
  predicate WakersDiffer(s: State)
  {
    forall d, e :: d in s.disps && e in s.disps && d != e && !s.disps[d].link.Freed? && !s.disps[e].link.Freed? ==>
      s.disps[d].task != s.disps[e].task || s.disps[d].waker != s.disps[e].waker
  }

  /** A reactor that owes a wake holds its lock, and its dispatcher is linked. */
  predicate OwingOk(s: State, x: nat)
    requires x in s.owing
  {
    && x in s.locked && PcOf(s, T.Outside(x)).Rest?
    && s.owing[x] in s.disps && s.disps[s.owing[x]].link.Linked? && s.disps[s.owing[x]].reactor == x
  }

  /** What the dispatchers and reactors keep. */
  ghost predicate IoInv(s: State)
  {
    && !s.broken && WakersDiffer(s)
    && (forall d :: d in s.disps ==> IoOk(s, d) && WakerOk(s, d))
    && (forall x :: x in s.owing ==> OwingOk(s, x))
  }

  ghost predicate Inv(s: State)
  {
    T.Inv(s.rt) && IoInv(s)
  }
}
