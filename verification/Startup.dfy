/** The start-up barrier (`WorkerBuilder::build` and `WorkerManager::wait` in `yaay-mt-runtime/src/worker_manager.rs`)
    as a state machine: first every worker publishes its pointer, then every worker writes its structure, and only
    then do the workers enter `main_loop` and does the main thread go on.

    Threads `0..n` are the workers, thread `n` is the main thread. A step is one lock section; testing a condition and
    waiting on the condition variable is one step, because the lock is held in between. `broken` becomes true where
    the source would unwrap a null pointer. */
module Startup {
  import opened Options

  datatype Pc =
    | Publish                          // about to lock `worker_ptrs`, store its pointer and test for completeness
    | NotifyPtrs | CheckPtrs | WaitPtrs
    | Copy                             // about to lock `worker_ptrs` and collect `other_workers`
    | Write(others: seq<nat>)          // about to write the worker structure
    | Count                            // about to lock `n_built` and add one
    | NotifyBuilt | CheckBuilt | WaitBuilt
    | Collect                          // the main thread, about to collect `worker_ptrs`
    | Done                             // in `main_loop`; or, for the main thread, returned from `wait`

  /** `written[i]` is `other_workers` of worker `i` once its structure is written, and `shared` are the workers in
      `RuntimeSharedData` once the main thread has collected them. */
  datatype State = State(
    n: nat,
    ptrs: seq<bool>,
    written: seq<Option<seq<nat>>>,
    built: nat,
    shared: Option<seq<nat>>,
    pcs: seq<Pc>,
    broken: bool)

  predicate AllPublished(s: State)
  {
    forall i :: 0 <= i < |s.ptrs| ==> s.ptrs[i]
  }

  /** `iter().enumerate().filter(|i| i != id).map(unwrap)`, from position `i` on. */
  function Others(n: nat, id: nat, i: nat): seq<nat>
    decreases n - i
  {
    if i >= n then [] else if i == id then Others(n, id, i + 1) else [i] + Others(n, id, i + 1)
  }

  /** `iter().map(unwrap)`, from position `i` on. */
  function All(n: nat, i: nat): seq<nat>
    decreases n - i
  {
    if i >= n then [] else [i] + All(n, i + 1)
  }

  function Notified(pcs: seq<Pc>, from: Pc, to: Pc): (r: seq<Pc>)
    ensures |r| == |pcs|
    ensures forall i :: 0 <= i < |pcs| ==> r[i] == if pcs[i] == from then to else pcs[i]
  {
    seq(|pcs|, i requires 0 <= i < |pcs| => if pcs[i] == from then to else pcs[i])
  }

  predicate Shape(s: State)
  {
    |s.ptrs| == |s.written| == s.n && |s.pcs| == s.n + 1
  }

  /** A thread that is neither waiting nor through can take its step. */
  predicate Enabled(s: State, i: nat)
  {
    Shape(s) && i <= s.n && !s.pcs[i].WaitPtrs? && !s.pcs[i].WaitBuilt? && !s.pcs[i].Done?
  }

  function Goto(s: State, i: nat, pc: Pc): State
    requires i < |s.pcs|
  {
    s.(pcs := s.pcs[i := pc])
  }

  function Next(s: State, i: nat): State
    requires Enabled(s, i)
  {
    match s.pcs[i]
    case Publish =>
      if i >= s.n then s.(broken := true)
      else
        var s' := s.(ptrs := s.ptrs[i := true]);
        Goto(s', i, if AllPublished(s') then NotifyPtrs else CheckPtrs)
    case NotifyPtrs => s.(pcs := Notified(s.pcs[i := Copy], WaitPtrs, CheckPtrs))
    case CheckPtrs => Goto(s, i, if AllPublished(s) then Copy else WaitPtrs)
    case Copy =>
      if !AllPublished(s) then s.(broken := true) else Goto(s, i, Write(Others(s.n, i, 0)))
    case Write(others) =>
      if i >= s.n then s.(broken := true) else Goto(s, i, Count).(written := s.written[i := Some(others)])
    case Count => Goto(s, i, if s.built + 1 == s.n then NotifyBuilt else CheckBuilt).(built := s.built + 1)
    case NotifyBuilt => s.(pcs := Notified(s.pcs[i := Done], WaitBuilt, CheckBuilt))
    case CheckBuilt =>
      Goto(s, i, if s.built != s.n then WaitBuilt else if i == s.n then Collect else Done)
    case Collect => if !AllPublished(s) then s.(broken := true) else Goto(s, i, Done).(shared := Some(All(s.n, 0)))
  }

  /** A wait may also end for no reason: then the condition is tested again. */
  predicate WakesForNothing(s: State, i: nat)
  {
    Shape(s) && i <= s.n && (s.pcs[i].WaitPtrs? || s.pcs[i].WaitBuilt?)
  }

  function Rewoken(s: State, i: nat): State
    requires WakesForNothing(s, i)
  {
    Goto(s, i, if s.pcs[i].WaitPtrs? then CheckPtrs else CheckBuilt)
  }

  function Start(n: nat): State
  {
    State(n, seq(n, _ => false), seq(n, _ => None), 0, None, seq(n, _ => Publish) + [CheckBuilt], false)
  }

  /** A step of thread `i`, or a spurious end of its wait. */
  predicate Step(s: State, i: nat, spurious: bool, s': State)
  {
    if spurious then WakesForNothing(s, i) && s' == Rewoken(s, i) else Enabled(s, i) && s' == Next(s, i)
  }

  /** `path` goes through the states of a run that takes the steps of `trace`. */
  predicate IsRun(path: seq<State>, trace: seq<(nat, bool)>)
  {
    && |path| == |trace| + 1
    && forall i {:trigger trace[i]} :: 0 <= i < |trace| ==> Step(path[i], trace[i].0, trace[i].1, path[i + 1])
  }

  ghost predicate Reachable(s: State)
  {
    exists path, trace :: IsRun(path, trace) && path[0] == Start(s.n) && path[|trace|] == s
  }

  // ----- the invariant -----

  predicate PastFirst(pc: Pc)
  {
    pc.NotifyPtrs? || pc.Copy? || pc.Write? || pc.Count? || Counted(pc)
  }

  predicate Counted(pc: Pc)
  {
    pc.NotifyBuilt? || pc.CheckBuilt? || pc.WaitBuilt? || pc.Done?
  }

  function CountedUpTo(pcs: seq<Pc>, k: nat): nat
    requires k <= |pcs|
  {
    if k == 0 then 0 else CountedUpTo(pcs, k - 1) + (if Counted(pcs[k - 1]) then 1 else 0)
  }

  /** What a worker's program counter says about its pointer and its structure. */
  predicate WorkerOk(s: State, i: nat)
    requires Shape(s) && i < s.n
  {
    var pc := s.pcs[i];
    && !pc.Collect?
    && s.ptrs[i] == !pc.Publish?
    && (PastFirst(pc) ==> AllPublished(s))
    && (pc.Write? ==> pc.others == Others(s.n, i, 0))
    && s.written[i] == (if pc.Count? || Counted(pc) then Some(Others(s.n, i, 0)) else None)
    && (pc.NotifyBuilt? || pc.Done? ==> s.built == s.n)
  }

  predicate MainOk(s: State)
    requires Shape(s)
  {
    var pc := s.pcs[s.n];
    && (pc.CheckBuilt? || pc.WaitBuilt? || pc.Collect? || pc.Done?)
    && (pc.Collect? || pc.Done? ==> s.built == s.n)
    && s.shared == if pc.Done? then Some(All(s.n, 0)) else None
  }

  /** No waiter misses its notification: when what it waits for is true, somebody is about to notify. */
  ghost predicate WaitersOk(s: State)
    requires Shape(s)
  {
    && (forall i :: 0 <= i <= s.n && s.pcs[i].WaitPtrs? && AllPublished(s) ==>
          exists j :: 0 <= j <= s.n && s.pcs[j].NotifyPtrs?)
    && (forall i :: 0 <= i <= s.n && s.pcs[i].WaitBuilt? && s.built == s.n ==>
          exists j :: 0 <= j <= s.n && s.pcs[j].NotifyBuilt?)
  }

  ghost predicate Inv(s: State)
  {
    && Shape(s) && !s.broken
    && (forall i: nat :: i < s.n ==> WorkerOk(s, i))
    && MainOk(s)
    && s.built == CountedUpTo(s.pcs, s.n)
    && WaitersOk(s)
  }
}
