/** What the operations of the parking protocol do, said of the states before and after them: which job goes where, who
    goes on with it, who is woken, and what follows for whole runs. */
module ParkingOperations {
  import opened Options
  import opened EpochWord
  import opened Parking
  import opened ParkingInvariant
  import opened ParkingTheorems

  /** What every reachable state knows about a thread. */
  lemma PcIsOk(s: State, w: nat)
    requires Reachable(s) && w < |s.pcs|
    ensures Shape(s) && PcOk(s.n, s.bumps, w < s.n, s.pcs[w])
  {
    ReachableHasInv(s);
  }

  // ----- popping -----

  /** The three places where a worker looks into its own queue: worker.rs:108, 133 and 143. */
  predicate Looks(a: Action)
  {
    a.PopOwn? || a.PopRecheck? || a.PopRefresh?
  }

  /** Worker `w` takes the front job of queue `q`, and goes on with that very job. */
  predicate TakesFront(s: State, s': State, w: nat, q: nat)
  {
    && w < |s'.pcs| && q < |s.queues| && s.queues[q] != []
    && s'.queues == s.queues[q := s.queues[q][1..]] && InHand(s'.pcs[w]) == Some(s.queues[q][0])
  }

  /** Queue `q` is empty, and worker `w` takes nothing. */
  predicate SeesEmpty(s: State, s': State, w: nat, q: nat)
  {
    w < |s'.pcs| && q < |s.queues| && s.queues[q] == [] && s'.queues == s.queues && InHand(s'.pcs[w]).None?
  }

  lemma LookingTakes(s: State, w: nat, a: Action)
    requires Enabled(s, w, a) && Looks(a) && PcOk(s.n, s.bumps, w < s.n, s.pcs[w])
    ensures w < s.n
    ensures if s.queues[w] == [] then SeesEmpty(s, Next(s, w, a), w, w) else TakesFront(s, Next(s, w, a), w, w)
  {
  }

  /** A worker that looks into its own queue takes the front job, if there is one. */
  lemma LookingTakesTheFront(s: State, w: nat, a: Action)
    requires Reachable(s) && Enabled(s, w, a) && Looks(a)
    ensures w < s.n
    ensures if s.queues[w] == [] then SeesEmpty(s, Next(s, w, a), w, w) else TakesFront(s, Next(s, w, a), w, w)
  {
    PcIsOk(s, w);
    LookingTakes(s, w, a);
  }

  /** A thief goes for the queue of a victim in which it has seen a job, and otherwise counts a miss: after the last
      one it refreshes its status. */
  lemma PeekingDecides(s: State, w: nat, k: nat)
    requires Reachable(s) && Enabled(s, w, PeekVictim(k))
    ensures w < s.n && k + 1 < s.n && Other(w, k) < s.n && Other(w, k) != w
    ensures var pc, s' := s.pcs[w], Next(s, w, PeekVictim(k));
            s' == s.(pcs := s.pcs[w :=
              if s.queues[Other(w, k)] != [] then StealPop(pc.snap, pc.tries, Other(w, k))
              else if pc.tries <= 1 then Reinstant(pc.snap)
              else Steal(pc.snap, pc.tries - 1)])
  {
    ReachableHasInv(s);
    assert PcOk(s.n, s.bumps, w < s.n, s.pcs[w]);
  }

  /** There it takes the front job, unless somebody was faster. */
  lemma StealingTakesTheFront(s: State, w: nat)
    requires Reachable(s) && Enabled(s, w, PopVictim)
    ensures var v, s' := s.pcs[w].victim, Next(s, w, PopVictim);
            && v < s.n
            && (if s.queues[v] == [] then SeesEmpty(s, s', w, v) else TakesFront(s, s', w, v) && s'.pcs[w].Holding?)
  {
    PcIsOk(s, w);
  }

  // ----- pushing -----

  predicate Pushes(a: Action)
  {
    a.Spawn? || a.Defer? || a.AnnouncePush? || a.ForwardPush? || a.OutsidePush?
  }

  /** The queue a push goes to. */
  function Destination(s: State, w: nat, a: Action): nat
    requires w < |s.pcs| && Pushes(a)
  {
    match a
    case Spawn(k) => if k + 1 == s.n then w else if k < w then k else k + 1
    case Defer => w
    case AnnouncePush => if s.pcs[w].Announcing? then s.pcs[w].next else 0
    case ForwardPush => if s.pcs[w].Forward? then (if s.pcs[w].k < w then s.pcs[w].k else s.pcs[w].k + 1) else 0
    case OutsidePush(q) => q
  }

  /** A push adds one job to one queue: spawned tasks and those of outside threads at the back, deferred tasks and
      shutdown jobs in front. */
  lemma PushingLands(s: State, w: nat, a: Action)
    requires Reachable(s) && Enabled(s, w, a) && Pushes(a)
    ensures var q := Destination(s, w, a);
            && q < s.n
            && Next(s, w, a).queues ==
               s.queues[q := if a.Spawn? || a.OutsidePush? then s.queues[q] + [Ordinary]
                             else if a.Defer? then [Ordinary] + s.queues[q]
                             else [Shutdown] + s.queues[q]]
  {
    PcIsOk(s, w);
  }

  /** Whoever runs may push: a worker in its future's poll can spawn at every index it may draw, and defer; an outside
      thread can push to every queue; and both can begin `shutdown_async`. */
  lemma RunningMayPush(s: State, w: nat, k: nat)
    requires Reachable(s) && w < |s.pcs| && s.pcs[w].Running? && k < s.n
    ensures if w < s.n then Enabled(s, w, Spawn(k)) && Enabled(s, w, Defer) else Enabled(s, w, OutsidePush(k))
    ensures Enabled(s, w, Announce)
  {
    PcIsOk(s, w);
  }

  /** All other operations leave the queues alone. */
  lemma OthersLeaveQueues(s: State, w: nat, a: Action)
    requires Enabled(s, w, a) && !Pushes(a) && !Looks(a) && !a.PopVictim?
    ensures Next(s, w, a).queues == s.queues
  {
  }

  // ----- no job is lost or doubled -----

  /** The worker has popped a job, and not yet come back to the top of its loop. */
  predicate Busy(pc: Pc)
  {
    InHand(pc).Some? || pc.Test?
  }

  function BusyUpTo(pcs: seq<Pc>, k: nat): nat
    requires k <= |pcs|
  {
    if k == 0 then 0 else BusyUpTo(pcs, k - 1) + (if Busy(pcs[k - 1]) then 1 else 0)
  }

  function Queued(queues: seq<seq<Job>>, k: nat): nat
    requires k <= |queues|
  {
    if k == 0 then 0 else Queued(queues, k - 1) + |queues[k - 1]|
  }

  /** How many jobs were pushed in the first `i` steps. */
  function PushedIn(trace: seq<(nat, Action)>, i: nat): nat
    requires i <= |trace|
  {
    if i == 0 then 0 else PushedIn(trace, i - 1) + (if Pushes(trace[i - 1].1) then 1 else 0)
  }

  /** How often a worker came back from a job in the first `i` steps. */
  function DoneIn(trace: seq<(nat, Action)>, i: nat): nat
    requires i <= |trace|
  {
    if i == 0 then 0 else DoneIn(trace, i - 1) + (if trace[i - 1].1.TestFlag? then 1 else 0)
  }

  lemma {:induction false} BusyUpdate(pcs: seq<Pc>, k: nat, i: nat, pc: Pc)
    requires k <= |pcs| && i < |pcs|
    ensures BusyUpTo(pcs[i := pc], k) ==
            BusyUpTo(pcs, k) + if i < k then (if Busy(pc) then 1 else 0) - (if Busy(pcs[i]) then 1 else 0) else 0
  {
    if k > 0 {
      BusyUpdate(pcs, k - 1, i, pc);
    }
  }

  lemma {:induction false} BusyReleased(pcs: seq<Pc>, k: nat)
    requires k <= |pcs|
    ensures BusyUpTo(Released(pcs), k) == BusyUpTo(pcs, k)
  {
    if k > 0 {
      BusyReleased(pcs, k - 1);
    }
  }

  lemma {:induction false} QueuedUpdate(queues: seq<seq<Job>>, k: nat, q: nat, l: seq<Job>)
    requires k <= |queues| && q < |queues|
    ensures Queued(queues[q := l], k) == Queued(queues, k) + if q < k then |l| - |queues[q]| else 0
  {
    if k > 0 {
      QueuedUpdate(queues, k - 1, q, l);
    }
  }

  /** A step changes the number of queued jobs by its push or pop. */
  lemma QueuedAfter(s: State, w: nat, m: Move)
    requires Shape(s) && w < |s.pcs| && RangeLaw(s, w, m)
    ensures Shape(Apply(s, w, m)) && Apply(s, w, m).n == s.n
    ensures Queued(Apply(s, w, m).queues, s.n) ==
            Queued(s.queues, s.n) + if m.Push? then 1 else if m.Take? then -1 else 0
  {
    if m.Push? || m.Take? {
      QueuedUpdate(s.queues, s.n, m.q, Apply(s, w, m).queues[m.q]);
    }
  }

  /** And the number of busy workers by what the acting thread does. */
  lemma BusyAfter(s: State, w: nat, m: Move)
    requires Shape(s) && w < |s.pcs|
    ensures |Apply(s, w, m).pcs| == |s.pcs|
    ensures BusyUpTo(Apply(s, w, m).pcs, s.n) ==
            BusyUpTo(s.pcs, s.n) +
            if w < s.n then (if Busy(m.pc) then 1 else 0) - (if Busy(s.pcs[w]) then 1 else 0) else 0
  {
    BusyUpdate(s.pcs, s.n, w, m.pc);
    BusyReleased(s.pcs[w := m.pc], s.n);
  }

  lemma OnlyPushesPush(s: State, w: nat, a: Action)
    requires Enabled(s, w, a)
    ensures MoveOf(s, w, a).Push? <==> Pushes(a)
  {
  }

  /** A worker becomes busy with a popped job, and stops being so when it comes back from it. */
  lemma PopsMakeBusy(s: State, w: nat, a: Action)
    requires Enabled(s, w, a) && PcOk(s.n, s.bumps, w < s.n, s.pcs[w]) && (Looks(a) || a.PopVictim? || a.TestFlag?)
    ensures var m := MoveOf(s, w, a);
            && w < s.n && (a.TestFlag? ==> !m.Take? && Busy(s.pcs[w]) && !Busy(m.pc))
            && (!a.TestFlag? ==> !Busy(s.pcs[w]) && (Busy(m.pc) <==> m.Take?))
  {
  }

  lemma OthersStayBusy(s: State, w: nat, a: Action)
    requires Enabled(s, w, a) && PcOk(s.n, s.bumps, w < s.n, s.pcs[w]) && !Looks(a) && !a.PopVictim? && !a.TestFlag?
    ensures !MoveOf(s, w, a).Take? && (w < s.n ==> Busy(MoveOf(s, w, a).pc) == Busy(s.pcs[w]))
  {
  }

  lemma StepConserves(s: State, w: nat, a: Action)
    requires Inv(s) && Enabled(s, w, a)
    ensures var s' := Next(s, w, a);
            && Shape(s') && s'.n == s.n
            && Queued(s'.queues, s.n) + BusyUpTo(s'.pcs, s.n) + (if a.TestFlag? then 1 else 0) ==
               Queued(s.queues, s.n) + BusyUpTo(s.pcs, s.n) + (if Pushes(a) then 1 else 0)
  {
    var m := MoveOf(s, w, a);
    assert PcOk(s.n, s.bumps, w < s.n, s.pcs[w]);
    MoveIsLawful(s, w, a);
    QueuedAfter(s, w, m);
    BusyAfter(s, w, m);
    OnlyPushesPush(s, w, a);
    if Looks(a) || a.PopVictim? || a.TestFlag? {
      PopsMakeBusy(s, w, a);
    } else {
      OthersStayBusy(s, w, a);
    }
  }

  lemma {:induction false} NothingAtFirst(n: nat, m: nat, k: nat)
    requires k <= n
    ensures Queued(Start(n, m).queues, k) == 0 && BusyUpTo(Start(n, m).pcs, k) == 0
  {
    if k > 0 {
      NothingAtFirst(n, m, k - 1);
    }
  }

  /** The jobs that are queued or in the hands of workers. */
  predicate Holds(s: State, n: nat, jobs: int)
  {
    Shape(s) && s.n == n && Queued(s.queues, n) + BusyUpTo(s.pcs, n) == jobs
  }

  lemma HoldsAfter(s: State, w: nat, a: Action, s': State, n: nat, jobs: int)
    requires Inv(s) && Step(s, w, a, s') && Holds(s, n, jobs)
    ensures Inv(s') && Holds(s', n, jobs + (if Pushes(a) then 1 else 0) - if a.TestFlag? then 1 else 0)
  {
    StepKeepsInv(s, w, a);
    StepConserves(s, w, a);
  }

  /** No job is lost or doubled: in every run, each job that was pushed is queued, or in the hands of one worker, or was
      finished, and whoever finished one came back to the top of its loop. */
  lemma {:induction false} JobsAreConserved(path: seq<State>, trace: seq<(nat, Action)>, n: nat, m: nat, i: nat)
    requires IsRun(path, trace) && 1 <= n < EPOCH && path[0] == Start(n, m) && i <= |trace|
    ensures Inv(path[i]) && Holds(path[i], n, PushedIn(trace, i) - DoneIn(trace, i))
  {
    if i == 0 {
      StartHasInv(n, m);
      NothingAtFirst(n, m, n);
    } else {
      JobsAreConserved(path, trace, n, m, i - 1);
      var jobs := PushedIn(trace, i - 1) - DoneIn(trace, i - 1);
      HoldsAfter(path[i - 1], trace[i - 1].0, trace[i - 1].1, path[i], n, jobs);
    }
  }

  // ----- what happens to a job in hand -----

  lemma PollStays(s: State, w: nat, a: Action)
    requires Enabled(s, w, a) && w < s.n && (s.pcs[w].Running? || s.pcs[w].Announcing? || s.pcs[w].Holding?)
    ensures w < |Next(s, w, a).pcs|
    ensures InHand(Next(s, w, a).pcs[w]) == InHand(s.pcs[w]) || Next(s, w, a).pcs[w].Test?
  {
  }

  /** A job in hand stays the same job until it is finished, whatever the worker does for it. */
  lemma HandStays(s: State, w: nat, a: Action)
    requires Enabled(s, w, a) && w < s.n && InHand(s.pcs[w]).Some?
    ensures w < |Next(s, w, a).pcs|
    ensures InHand(Next(s, w, a).pcs[w]) == InHand(s.pcs[w]) || Next(s, w, a).pcs[w].Test?
  {
    if s.pcs[w].Running? || s.pcs[w].Announcing? || s.pcs[w].Holding? {
      PollStays(s, w, a);
    }
  }

  // ----- waking -----

  /** Who changes the word goes on to wake the sleepers exactly when it found nobody active, and otherwise goes on. */
  lemma WakesIffNobodyIsActive(s: State, w: nat, a: Action)
    requires Enabled(s, w, a) && (a.NextEpoch? || a.SetActive?)
    ensures var pc, s' := s.pcs[w], Next(s, w, a);
            var ret := if pc.Bump? then pc.ret else ToPoll(pc.job);
            && w < |s'.pcs| && (s'.pcs[w] == Unpark(ret) <==> ActiveCount(s.word) == 0)
            && (ActiveCount(s.word) != 0 ==> InHand(s'.pcs[w]) == InHand(pc) || s'.pcs[w].Test?)
  {
  }

  /** `unpark_all` sends every parked worker to refresh its status, and nobody else. */
  lemma UnparkingWakesAllSleepers(s: State, w: nat, v: nat)
    requires Enabled(s, w, UnparkAll) && v < |s.pcs| && v != w
    ensures var s' := Next(s, w, UnparkAll);
            v < |s'.pcs| && s'.pcs[v] == if s.pcs[v].Parked? then Reinstant(s.pcs[v].snap) else s.pcs[v]
  {
  }

  // ----- the inner loop -----

  /** The status a worker goes on with is the one it has read: with active workers it steals, `4 * n` times, and
      without it looks into its own queue and prepares to park. */
  lemma StatusDecides(s: State, w: nat, a: Action)
    requires Enabled(s, w, a) && (a.SetInactive? || a.RereadStatus?) && w < |Next(s, w, a).pcs|
    requires !Next(s, w, a).pcs[w].Repop?
    ensures var s' := Next(s, w, a); var pc := s'.pcs[w];
            && (pc.Steal? || pc.Recheck?) && pc.snap.seen == s'.bumps && pc.snap.stamp == s.pcs[w].stamp
            && (a.RereadStatus? ==> pc.snap.status == s'.word)
            && (pc.Steal? <==> ActiveCount(pc.snap.status) != 0) && (pc.Steal? ==> pc.tries == 4 * s.n)
  {
  }

  /** A worker that parks does so on the status it has read, while it is current. */
  lemma ParkingIsOnCurrentStatus(s: State, w: nat, a: Action)
    requires Enabled(s, w, a) && (a.LoadStatus? || a.Park? || a.FailPark?)
    ensures var pc := s.pcs[w];
            Next(s, w, a) == s.(pcs := s.pcs[w :=
              if a.Park? then Parked(pc.snap)
              else if a.LoadStatus? && s.word == pc.snap.status then Validate(pc.snap)
              else Reinstant(pc.snap)])
    ensures a.Park? ==> s.word == s.pcs[w].snap.status
  {
  }

  /** How many victims a worker looked at in the first `i` steps. */
  function PeeksIn(trace: seq<(nat, Action)>, w: nat, i: nat): nat
    requires i <= |trace|
  {
    if i == 0 then 0
    else PeeksIn(trace, w, i - 1) + if trace[i - 1].0 == w && trace[i - 1].1.PeekVictim? then 1 else 0
  }

  /** The attempts that are left. */
  function Attempts(pc: Pc): nat
  {
    if pc.Steal? then pc.tries else if pc.StealPop? && pc.tries > 0 then pc.tries - 1 else 0
  }

  predicate Trying(pc: Pc)
  {
    pc.Steal? || pc.StealPop? || pc.Reinstant?
  }

  lemma OwnAttemptCounts(s: State, a: Action, w: nat)
    requires Enabled(s, w, a) && w < s.n && Trying(s.pcs[w]) && PcOk(s.n, s.bumps, true, s.pcs[w]) && !a.RereadClock?
    requires w < |Next(s, w, a).pcs| ==> !Next(s, w, a).pcs[w].Holding?
    ensures var s' := Next(s, w, a);
            && w < |s'.pcs| && Trying(s'.pcs[w])
            && Attempts(s'.pcs[w]) + (if a.PeekVictim? then 1 else 0) == Attempts(s.pcs[w])
  {
  }

  lemma OthersKeepTrying(s: State, v: nat, a: Action, w: nat)
    requires Enabled(s, v, a) && v != w && w < s.n && Trying(s.pcs[w])
    ensures w < |Next(s, v, a).pcs| && Next(s, v, a).pcs[w] == s.pcs[w]
  {
  }

  lemma AttemptCounts(s: State, v: nat, a: Action, s': State, w: nat)
    requires Step(s, v, a, s') && w < s.n && Trying(s.pcs[w]) && PcOk(s.n, s.bumps, true, s.pcs[w])
    requires v == w ==> !a.RereadClock? && (w < |s'.pcs| ==> !s'.pcs[w].Holding?)
    ensures w < |s'.pcs| && Trying(s'.pcs[w]) && s'.n == s.n
    ensures Attempts(s'.pcs[w]) + (if v == w && a.PeekVictim? then 1 else 0) == Attempts(s.pcs[w])
  {
    if v == w {
      OwnAttemptCounts(s, a, w);
    } else {
      OthersKeepTrying(s, v, a, w);
    }
  }

  lemma PcOkAlong(path: seq<State>, trace: seq<(nat, Action)>, w: nat, i: nat)
    requires IsRun(path, trace) && Inv(path[0]) && i <= |trace| && w < path[i].n
    ensures w < |path[i].pcs| && PcOk(path[i].n, path[i].bumps, true, path[i].pcs[w])
  {
    PathKeepsInv(path, trace, i);
  }

  /** In step `i` of the run, worker `w` has success, or goes on to refresh its status. */
  predicate EndsTrying(path: seq<State>, trace: seq<(nat, Action)>, w: nat, i: nat)
    requires |path| == |trace| + 1
  {
    && i < |trace| && trace[i].0 == w
    && (trace[i].1.RereadClock? || (w < |path[i + 1].pcs| && path[i + 1].pcs[w].Holding?))
  }

  /** A worker that steals without success makes exactly its `4 * n` attempts before it refreshes its status. */
  lemma {:induction false} ThiefMakesAllAttempts(path: seq<State>, trace: seq<(nat, Action)>, w: nat, i: nat)
    requires IsRun(path, trace) && Inv(path[0]) && w < path[0].n && path[0].pcs[w].Steal? && i <= |trace|
    requires forall j: nat :: j < i ==> !EndsTrying(path, trace, w, j)
    ensures path[i].n == path[0].n && w < |path[i].pcs| && Trying(path[i].pcs[w])
    ensures PeeksIn(trace, w, i) + Attempts(path[i].pcs[w]) == path[0].pcs[w].tries
    ensures path[i].pcs[w].Reinstant? ==> PeeksIn(trace, w, i) == path[0].pcs[w].tries
  {
    if i > 0 {
      ThiefMakesAllAttempts(path, trace, w, i - 1);
      var s, v, a := path[i - 1], trace[i - 1].0, trace[i - 1].1;
      PcOkAlong(path, trace, w, i - 1);
      assert !EndsTrying(path, trace, w, i - 1);
      AttemptCounts(s, v, a, path[i], w);
    }
  }
}
