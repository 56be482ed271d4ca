/** Every step of the start-up barrier keeps its invariant, and start-up always completes. */
module StartupTheorems {
  import opened Options
  import opened Startup
  import P = Parking

  // ----- counting -----

  lemma {:induction false} CountedUpdate(pcs: seq<Pc>, k: nat, i: nat, pc: Pc)
    requires k <= |pcs| && i < |pcs|
    ensures CountedUpTo(pcs[i := pc], k) ==
            if i < k then CountedUpTo(pcs, k) - (if Counted(pcs[i]) then 1 else 0) + (if Counted(pc) then 1 else 0)
            else CountedUpTo(pcs, k)
  {
    if k > 0 {
      CountedUpdate(pcs, k - 1, i, pc);
    }
  }

  lemma {:induction false} CountedBound(pcs: seq<Pc>, k: nat)
    requires k <= |pcs|
    ensures CountedUpTo(pcs, k) <= k
    ensures CountedUpTo(pcs, k) == k <==> forall i :: 0 <= i < k ==> Counted(pcs[i])
  {
    if k > 0 {
      CountedBound(pcs, k - 1);
    }
  }

  lemma {:induction false} CountedNotified(pcs: seq<Pc>, from: Pc, to: Pc, k: nat)
    requires k <= |pcs| && Counted(from) == Counted(to)
    ensures CountedUpTo(Notified(pcs, from, to), k) == CountedUpTo(pcs, k)
  {
    if k > 0 {
      CountedNotified(pcs, from, to, k - 1);
    }
  }

  // ----- every step keeps the invariant -----

  lemma BuiltKept(s: State, i: nat)
    requires Inv(s) && Enabled(s, i)
    ensures Next(s, i).built == CountedUpTo(Next(s, i).pcs, s.n)
  {
    var s', pc := Next(s, i), s.pcs[i];
    assert i < s.n ==> WorkerOk(s, i);
    if pc.NotifyPtrs? {
      CountedUpdate(s.pcs, s.n, i, Copy);
      CountedNotified(s.pcs[i := Copy], WaitPtrs, CheckPtrs, s.n);
    } else if pc.NotifyBuilt? {
      CountedUpdate(s.pcs, s.n, i, Done);
      CountedNotified(s.pcs[i := Done], WaitBuilt, CheckBuilt, s.n);
    } else {
      CountedUpdate(s.pcs, s.n, i, s'.pcs[i]);
    }
  }

  /** A worker that has not counted itself is missing in the count. */
  lemma CountIsIncomplete(s: State, i: nat)
    requires Inv(s) && i < s.n && !Counted(s.pcs[i])
    ensures s.built < s.n
  {
    CountedBound(s.pcs, s.n);
  }

  lemma OwnStepKept(s: State, i: nat)
    requires Enabled(s, i) && i < s.n && WorkerOk(s, i) && !s.broken
    ensures Shape(Next(s, i)) && !Next(s, i).broken && WorkerOk(Next(s, i), i)
  {
  }

  /** What a step leaves to another worker: its place, unless a notification wakes it, its pointer and its structure. */
  predicate LeavesOther(s: State, s': State, j: nat)
    requires Shape(s) && j < s.n
  {
    && Shape(s') && s'.n == s.n && s'.ptrs[j] == s.ptrs[j] && s'.written[j] == s.written[j]
    && (s'.pcs[j] == s.pcs[j] || (s.pcs[j].WaitPtrs? && s'.pcs[j].CheckPtrs?) ||
        (s.pcs[j].WaitBuilt? && s'.pcs[j].CheckBuilt?))
    && (AllPublished(s) ==> AllPublished(s'))
    && (s.built == s.n ==> s'.built == s.n)
  }

  lemma StepLeavesOther(s: State, i: nat, j: nat)
    requires Enabled(s, i) && j < s.n && j != i && (s.pcs[i].Count? ==> s.built < s.n)
    ensures LeavesOther(s, Next(s, i), j)
  {
  }

  lemma OtherKept(s: State, s': State, j: nat)
    requires Shape(s) && j < s.n && WorkerOk(s, j) && LeavesOther(s, s', j)
    ensures WorkerOk(s', j)
  {
  }

  lemma MainKept(s: State, i: nat)
    requires Enabled(s, i) && MainOk(s) && (i < s.n ==> WorkerOk(s, i)) && (s.pcs[i].Count? ==> s.built < s.n)
    requires !s.broken && (s.built == s.n ==> AllPublished(s))
    ensures Shape(Next(s, i)) && MainOk(Next(s, i)) && (i == s.n ==> !Next(s, i).broken)
  {
  }

  lemma WorkersKept(s: State, i: nat)
    requires Inv(s) && Enabled(s, i)
    ensures Shape(Next(s, i)) && !Next(s, i).broken && MainOk(Next(s, i))
    ensures forall j: nat :: j < s.n ==> WorkerOk(Next(s, i), j)
  {
    CountedBound(s.pcs, s.n);
    assert i < s.n ==> WorkerOk(s, i);
    if s.pcs[i].Count? {
      CountIsIncomplete(s, i);
    }
    if s.built == s.n {
      AllBuiltMeansAllPublished(s);
    }
    MainKept(s, i);
    forall j: nat | j < s.n
      ensures WorkerOk(Next(s, i), j) && (j == i ==> !Next(s, i).broken)
    {
      if j == i {
        OwnStepKept(s, i);
      } else {
        StepLeavesOther(s, i, j);
        OtherKept(s, Next(s, i), j);
      }
    }
  }

  lemma AllBuiltMeansAllPublished(s: State)
    requires Inv(s) && s.built == s.n
    ensures AllPublished(s)
    ensures forall j: nat :: j < s.n ==> s.written[j] == Some(Others(s.n, j, 0))
  {
    CountedBound(s.pcs, s.n);
    forall j: nat | j < s.n
      ensures s.ptrs[j] && s.written[j] == Some(Others(s.n, j, 0))
    {
      assert WorkerOk(s, j);
    }
  }

  lemma WaitersKept(s: State, i: nat)
    requires Inv(s) && Enabled(s, i)
    ensures Shape(Next(s, i)) && WaitersOk(Next(s, i))
  {
    var s', pc := Next(s, i), s.pcs[i];
    assert i < s.n ==> WorkerOk(s, i);
    forall k | 0 <= k <= s.n && s'.pcs[k].WaitPtrs? && AllPublished(s')
      ensures exists j :: 0 <= j <= s.n && s'.pcs[j].NotifyPtrs?
    {
      if pc.Publish? {
        assert s'.pcs[i].NotifyPtrs?;
      } else {
        assert s.pcs[k].WaitPtrs?;
        var j :| 0 <= j <= s.n && s.pcs[j].NotifyPtrs?;
        assert s'.pcs[j].NotifyPtrs?;
      }
    }
    forall k | 0 <= k <= s.n && s'.pcs[k].WaitBuilt? && s'.built == s.n
      ensures exists j :: 0 <= j <= s.n && s'.pcs[j].NotifyBuilt?
    {
      if pc.Count? {
        assert s'.pcs[i].NotifyBuilt?;
      } else {
        assert s.pcs[k].WaitBuilt?;
        var j :| 0 <= j <= s.n && s.pcs[j].NotifyBuilt?;
        assert s'.pcs[j].NotifyBuilt?;
      }
    }
  }

  lemma StepKeepsInv(s: State, i: nat)
    requires Inv(s) && Enabled(s, i)
    ensures Inv(Next(s, i))
  {
    BuiltKept(s, i);
    WorkersKept(s, i);
    WaitersKept(s, i);
  }

  lemma RewakingKeepsInv(s: State, i: nat)
    requires Inv(s) && WakesForNothing(s, i)
    ensures Inv(Rewoken(s, i))
  {
    var s' := Rewoken(s, i);
    CountedUpdate(s.pcs, s.n, i, s'.pcs[i]);
    forall j: nat | j < s.n
      ensures WorkerOk(s', j)
    {
      assert WorkerOk(s, j);
    }
    if j :| 0 <= j <= s.n && s.pcs[j].NotifyPtrs? {
      assert s'.pcs[j].NotifyPtrs?;
    }
    if j :| 0 <= j <= s.n && s.pcs[j].NotifyBuilt? {
      assert s'.pcs[j].NotifyBuilt?;
    }
  }

  lemma StartHasInv(n: nat)
    ensures Inv(Start(n))
  {
    var s := Start(n);
    assert forall i :: 0 <= i < n ==> s.pcs[i] == Publish;
    NothingCounted(s.pcs, n);
    if n > 0 {
      assert !s.ptrs[0];
    }
  }

  lemma {:induction false} NothingCounted(pcs: seq<Pc>, k: nat)
    requires k <= |pcs| && forall i :: 0 <= i < k ==> pcs[i] == Publish
    ensures CountedUpTo(pcs, k) == 0
  {
    if k > 0 {
      NothingCounted(pcs, k - 1);
    }
  }

  lemma {:induction false} PathKeepsInv(path: seq<State>, trace: seq<(nat, bool)>, i: nat)
    requires IsRun(path, trace) && Inv(path[0]) && i <= |trace|
    ensures Inv(path[i])
  {
    if i > 0 {
      PathKeepsInv(path, trace, i - 1);
      var (th, spurious) := trace[i - 1];
      if spurious {
        RewakingKeepsInv(path[i - 1], th);
      } else {
        StepKeepsInv(path[i - 1], th);
      }
    }
  }

  lemma ReachableHasInv(s: State)
    requires Reachable(s)
    ensures Inv(s)
  {
    var path, trace :| IsRun(path, trace) && path[0] == Start(s.n) && path[|trace|] == s;
    StartHasInv(s.n);
    PathKeepsInv(path, trace, |trace|);
  }

  // ----- what follows -----

  /** The collected `other_workers` are the other workers in order: position `k` holds worker `Other(id, k)`. */
  lemma {:induction false} OthersAreTheOthers(n: nat, id: nat, i: nat)
    requires id < n && i <= n
    ensures |Others(n, id, i)| == n - i - (if i <= id then 1 else 0)
    ensures forall k :: 0 <= k < |Others(n, id, i)| ==>
              Others(n, id, i)[k] == P.Other(id, k + i - (if i > id then 1 else 0))
    decreases n - i
  {
    if i < n {
      OthersAreTheOthers(n, id, i + 1);
    }
  }

  lemma {:induction false} AllAreAll(n: nat, i: nat)
    requires i <= n
    ensures |All(n, i)| == n - i && forall k :: 0 <= k < n - i ==> All(n, i)[k] == k + i
    decreases n - i
  {
    if i < n {
      AllAreAll(n, i + 1);
    }
  }

  /** In every interleaving: no worker is in `main_loop`, and `wait` has not returned, before every worker's structure
      is written with exactly the other workers; when `wait` has returned, all workers are shared, in order; and no null
      pointer is ever unwrapped. */
  lemma NobodyStartsEarly(s: State, i: nat)
    requires Reachable(s) && Shape(s) && i <= s.n && s.pcs[i].Done?
    ensures forall j: nat :: j < s.n ==>
              && s.written[j].Some? && |s.written[j].value| == s.n - 1
              && forall k :: 0 <= k < s.n - 1 ==> s.written[j].value[k] == P.Other(j, k)
    ensures !s.broken
    ensures i == s.n ==>
              s.shared.Some? && |s.shared.value| == s.n && forall k :: 0 <= k < s.n ==> s.shared.value[k] == k
  {
    ReachableHasInv(s);
    AllAreAll(s.n, 0);
    assert i < s.n ==> WorkerOk(s, i);
    AllBuiltMeansAllPublished(s);
    forall j: nat | j < s.n
      ensures |Others(s.n, j, 0)| == s.n - 1 && forall k :: 0 <= k < s.n - 1 ==> Others(s.n, j, 0)[k] == P.Other(j, k)
    {
      OthersAreTheOthers(s.n, j, 0);
    }
  }

  /** No waiter sleeps on a condition that has become true without somebody about to wake it, so somebody can always
      go on until everybody is through. */
  lemma StartupNeverDeadlocks(s: State)
    requires Reachable(s) && Shape(s) && forall i: nat :: i <= s.n ==> !Enabled(s, i)
    ensures forall i :: 0 <= i <= s.n ==> s.pcs[i].Done?
  {
    ReachableHasInv(s);
    forall i: nat | i <= s.n
      ensures s.pcs[i].WaitPtrs? || s.pcs[i].WaitBuilt? || s.pcs[i].Done?
    {
      assert !Enabled(s, i);
    }
    forall i: nat | i < s.n
      ensures s.ptrs[i]
    {
      assert WorkerOk(s, i);
    }
    assert AllPublished(s);
    assert forall i :: 0 <= i < s.n ==> Counted(s.pcs[i]);
    CountedBound(s.pcs, s.n);
  }

  // ----- every run ends -----

  /** How far a thread still has to go. Waiting and testing count less once their condition is true. */
  function Rank(pc: Pc, published: bool, complete: bool): nat
  {
    match pc
    case Publish => 13
    case CheckPtrs => if published then 9 else 12
    case WaitPtrs => if published then 10 else 11
    case NotifyPtrs => 9
    case Copy => 8
    case Write(_) => 7
    case Count => 6
    case CheckBuilt => if complete then 2 else 5
    case WaitBuilt => if complete then 3 else 4
    case NotifyBuilt => 2
    case Collect => 1
    case Done => 0
  }

  function RankAt(s: State, i: nat): nat
    requires i < |s.pcs|
  {
    Rank(s.pcs[i], AllPublished(s), s.built == s.n)
  }

  function Total(s: State, k: nat): nat
    requires k <= |s.pcs|
  {
    if k == 0 then 0 else Total(s, k - 1) + RankAt(s, k - 1)
  }

  lemma {:induction false} TotalShrinks(s: State, s': State, i: nat, k: nat)
    requires k <= |s.pcs| == |s'.pcs| && i < |s.pcs|
    requires RankAt(s', i) < RankAt(s, i)
    requires forall j: nat :: j < |s.pcs| ==> RankAt(s', j) <= RankAt(s, j)
    ensures Total(s', k) <= Total(s, k) - (if i < k then 1 else 0)
  {
    if k > 0 {
      TotalShrinks(s, s', i, k - 1);
    }
  }

  lemma {:induction false} TotalBound(s: State, k: nat)
    requires k <= |s.pcs|
    ensures Total(s, k) <= 13 * k
  {
    if k > 0 {
      TotalBound(s, k - 1);
    }
  }

  /** Conditions that were true stay true. */
  lemma ConditionsStay(s: State, i: nat)
    requires Inv(s) && Enabled(s, i)
    ensures Shape(Next(s, i)) && Next(s, i).n == s.n
    ensures AllPublished(s) ==> AllPublished(Next(s, i))
    ensures s.built == s.n ==> Next(s, i).built == s.n
    ensures AllPublished(s) == AllPublished(Next(s, i)) || s.pcs[i].Publish?
    ensures s.built == Next(s, i).built || s.pcs[i].Count?
  {
    assert i < s.n ==> WorkerOk(s, i);
    CountedBound(s.pcs, s.n);
    WorkersKept(s, i);
  }

  lemma StepShrinksOwnRank(s: State, i: nat)
    requires Inv(s) && Enabled(s, i)
    ensures Shape(Next(s, i)) && RankAt(Next(s, i), i) < RankAt(s, i)
  {
    assert i < s.n ==> WorkerOk(s, i);
    WorkersKept(s, i);
    ConditionsStay(s, i);
  }

  lemma StepShrinksRanks(s: State, i: nat)
    requires Inv(s) && Enabled(s, i)
    ensures Shape(Next(s, i)) && RankAt(Next(s, i), i) < RankAt(s, i)
    ensures forall j: nat :: j <= s.n ==> RankAt(Next(s, i), j) <= RankAt(s, j)
  {
    var s' := Next(s, i);
    ConditionsStay(s, i);
    StepShrinksOwnRank(s, i);
    assert i < s.n ==> WorkerOk(s, i);
    forall j: nat | j <= s.n && j != i
      ensures RankAt(s', j) <= RankAt(s, j)
    {
      assert s'.pcs[j] == s.pcs[j] ||
             (s.pcs[i].NotifyPtrs? && s.pcs[j].WaitPtrs? && s'.pcs[j].CheckPtrs?) ||
             (s.pcs[i].NotifyBuilt? && s.pcs[j].WaitBuilt? && s'.pcs[j].CheckBuilt?);
    }
  }

  /** Every step but a spurious wake-up takes something away from what is left to do. */
  lemma {:induction false} RunsAreBounded(path: seq<State>, trace: seq<(nat, bool)>, i: nat)
    requires IsRun(path, trace) && Inv(path[0]) && i <= |trace| && forall k :: 0 <= k < |trace| ==> !trace[k].1
    ensures Shape(path[i]) && path[i].n == path[0].n
    ensures i + Total(path[i], path[0].n + 1) <= Total(path[0], path[0].n + 1)
  {
    if i > 0 {
      RunsAreBounded(path, trace, i - 1);
      PathKeepsInv(path, trace, i - 1);
      var s, th := path[i - 1], trace[i - 1].0;
      StepShrinksRanks(s, th);
      TotalShrinks(s, path[i], th, s.n + 1);
    }
  }

  /** Without spurious wake-ups, a run of `n` workers takes at most `13 * (n + 1)` steps. Together with
      `StartupNeverDeadlocks`: start-up always completes. */
  lemma StartupIsBounded(n: nat, path: seq<State>, trace: seq<(nat, bool)>)
    requires IsRun(path, trace) && path[0] == Start(n) && forall k :: 0 <= k < |trace| ==> !trace[k].1
    ensures |trace| <= 13 * (n + 1)
  {
    StartHasInv(n);
    RunsAreBounded(path, trace, |trace|);
    TotalBound(Start(n), n + 1);
  }
}
