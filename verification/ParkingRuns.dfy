/** What whole functions of the runtime do when nobody interferes: `Shutdown::poll`, `shutdown_async`, falling asleep
    and waking up, step by step; and that `shutdown_async` completes whoever interferes. */
module ParkingRuns {
  import opened Options
  import opened EpochWord
  import opened Parking
  import opened ParkingInvariant
  import opened ParkingTheorems
  import C = ParkingChecks

  // ----- `Shutdown::poll` -----

  /** What the loop over the other workers, from position `k` on, does to the queues. */
  function Told(s: State, w: nat, k: nat): (queues: seq<seq<Job>>)
    requires Shape(s) && w < s.n
    ensures |queues| == s.n
    decreases s.n - k
  {
    if k + 1 >= s.n then s.queues
    else
      var queues, v := Told(s, w, k + 1), Other(w, k);
      if s.flags[v] then queues else queues[v := [Shutdown] + queues[v]]
  }

  /** Every other worker that is not flagged has a shutdown job in front of its queue; nothing else changes. */
  lemma {:induction false} ToldAt(s: State, w: nat, k: nat, v: nat)
    requires Shape(s) && w < s.n && v < s.n
    ensures Told(s, w, k)[v] ==
            if v != w && IndexOf(w, v) >= k && !s.flags[v] then [Shutdown] + s.queues[v] else s.queues[v]
    decreases s.n - k
  {
    if k + 1 < s.n {
      ToldAt(s, w, k + 1, v);
    }
  }

  /** The state of that loop: queue after queue is told. */
  function Scanning(s: State, w: nat, pc: Pc, queues: seq<seq<Job>>): State
    requires w < |s.pcs|
  {
    s.(pcs := s.pcs[w := pc], queues := queues)
  }

  function TurnSteps(s: State, w: nat, k: nat): seq<(nat, Action)>
    requires Shape(s) && w < s.n && k + 1 < s.n
  {
    if s.flags[Other(w, k)] then [(w, LoadFlag)] else [(w, LoadFlag), (w, ForwardPush)]
  }

  function TurnQueues(s: State, w: nat, k: nat): seq<seq<Job>>
    requires Shape(s) && w < s.n && k + 1 < s.n
  {
    var v := Other(w, k);
    if s.flags[v] then s.queues else s.queues[v := [Shutdown] + s.queues[v]]
  }

  function ScanSteps(s: State, w: nat, k: nat): seq<(nat, Action)>
    requires Shape(s) && w < s.n
    decreases s.n - k
  {
    if k + 1 >= s.n then [(w, LoadFlag)] else TurnSteps(s, w, k) + ScanSteps(s, w, k + 1)
  }

  /** One turn of the loop, for a worker that is flagged, and for one that is not. */
  lemma FlaggedIsPassed(s: State, w: nat, k: nat)
    requires Shape(s) && w < s.n && k + 1 < s.n && s.pcs[w] == Scan(k) && s.flags[Other(w, k)]
    ensures Runs(s, TurnSteps(s, w, k), Scanning(s, w, Scan(k + 1), TurnQueues(s, w, k)))
  {
    OneStepRuns(s, w, LoadFlag, Scanning(s, w, Scan(k + 1), s.queues));
  }

  lemma UnflaggedIsTold(s: State, w: nat, k: nat)
    requires Shape(s) && w < s.n && k + 1 < s.n && s.pcs[w] == Scan(k) && !s.flags[Other(w, k)]
    ensures Runs(s, TurnSteps(s, w, k), Scanning(s, w, Scan(k + 1), TurnQueues(s, w, k)))
  {
    var s1, s2 := Scanning(s, w, Forward(k), s.queues), Scanning(s, w, Scan(k + 1), TurnQueues(s, w, k));
    assert s1.pcs[w := Scan(k + 1)] == s2.pcs;
    assert Step(s, w, LoadFlag, s1) && Step(s1, w, ForwardPush, s2);
    assert IsRun([s, s1, s2], [(w, LoadFlag), (w, ForwardPush)]);
  }

  lemma TurnRuns(s: State, w: nat, k: nat)
    requires Shape(s) && w < s.n && k + 1 < s.n && s.pcs[w] == Scan(k)
    ensures Runs(s, TurnSteps(s, w, k), Scanning(s, w, Scan(k + 1), TurnQueues(s, w, k)))
  {
    if s.flags[Other(w, k)] {
      FlaggedIsPassed(s, w, k);
    } else {
      UnflaggedIsTold(s, w, k);
    }
  }

  /** Telling one worker first, or last, is the same. */
  lemma {:induction false} ToldOnceMore(s: State, w: nat, k: nat, j: nat)
    requires Shape(s) && w < s.n && k < j && k + 1 < s.n
    ensures var v := Other(w, k);
            var s' := Scanning(s, w, Scan(k + 1), s.queues[v := [Shutdown] + s.queues[v]]);
            Shape(s') && Told(s', w, j) == Told(s, w, j)[v := [Shutdown] + Told(s, w, j)[v]]
    decreases s.n - j
  {
    if j + 1 < s.n {
      ToldOnceMore(s, w, k, j + 1);
    }
  }

  lemma TurnTellsOne(s: State, w: nat, k: nat)
    requires Shape(s) && w < s.n && k + 1 < s.n
    ensures var s1 := Scanning(s, w, Scan(k + 1), TurnQueues(s, w, k));
            Shape(s1) && Told(s1, w, k + 1) == Told(s, w, k)
  {
    if s.flags[Other(w, k)] {
      SameTold(s, Scanning(s, w, Scan(k + 1), s.queues), w, k + 1);
    } else {
      ToldOnceMore(s, w, k, k + 1);
    }
  }

  /** What is left to do after a turn. */
  lemma TurnLeaves(s: State, w: nat, k: nat)
    requires Shape(s) && w < s.n && k + 1 < s.n
    ensures var s1 := Scanning(s, w, Scan(k + 1), TurnQueues(s, w, k));
            && Shape(s1) && ScanSteps(s1, w, k + 1) == ScanSteps(s, w, k + 1)
            && Scanning(s1, w, Bump(ToTest), Told(s1, w, k + 1)) == Scanning(s, w, Bump(ToTest), Told(s, w, k))
  {
    var s1 := Scanning(s, w, Scan(k + 1), TurnQueues(s, w, k));
    assert s1.pcs[w := Bump(ToTest)] == s.pcs[w := Bump(ToTest)];
    TurnTellsOne(s, w, k);
    SameScan(s, s1, w, k + 1);
  }

  lemma {:induction false} ScanRuns(s: State, w: nat, k: nat)
    requires Shape(s) && w < s.n && k < s.n && s.pcs[w] == Scan(k)
    ensures Runs(s, ScanSteps(s, w, k), Scanning(s, w, Bump(ToTest), Told(s, w, k)))
    decreases s.n - k
  {
    if k + 1 == s.n {
      OneStepRuns(s, w, LoadFlag, Scanning(s, w, Bump(ToTest), s.queues));
    } else {
      var s1 := Scanning(s, w, Scan(k + 1), TurnQueues(s, w, k));
      TurnRuns(s, w, k);
      TurnLeaves(s, w, k);
      ScanRuns(s1, w, k + 1);
      RunsCompose(s, TurnSteps(s, w, k), s1, ScanSteps(s, w, k + 1), Scanning(s, w, Bump(ToTest), Told(s, w, k)));
    }
  }

  /** The steps depend on the flags only. */
  lemma {:induction false} SameScan(s: State, s': State, w: nat, k: nat)
    requires Shape(s) && Shape(s') && w < s.n && s'.n == s.n && s'.flags == s.flags
    ensures ScanSteps(s', w, k) == ScanSteps(s, w, k)
    decreases s.n - k
  {
    if k + 1 < s.n {
      SameScan(s, s', w, k + 1);
    }
  }

  lemma {:induction false} SameTold(s: State, s': State, w: nat, k: nat)
    requires Shape(s) && Shape(s') && w < s.n && s'.n == s.n && s'.flags == s.flags && s'.queues == s.queues
    ensures Told(s', w, k) == Told(s, w, k)
    decreases s.n - k
  {
    if k + 1 < s.n {
      SameTold(s, s', w, k + 1);
    }
  }

  /** `Shutdown::poll`: the worker's flag is set, and every other worker that is not flagged gets a shutdown job in
      front of its queue; then the epoch is bumped. */
  lemma ShutdownPollRuns(s: State, w: nat) returns (trace: seq<(nat, Action)>, s': State)
    requires Shape(s) && w < s.n && s.pcs[w] == StoreFlag
    ensures Runs(s, trace, s') && |s'.queues| == s.n
    ensures s' == s.(pcs := s.pcs[w := Bump(ToTest)], flags := s.flags[w := true], queues := s'.queues)
    ensures forall v: nat :: v < s.n ==>
              s'.queues[v] == if v != w && !s.flags[v] then [Shutdown] + s.queues[v] else s.queues[v]
  {
    var s1 := s.(pcs := s.pcs[w := Scan(0)], flags := s.flags[w := true]);
    OneStepRuns(s, w, SetFlag, s1);
    ScanRuns(s1, w, 0);
    s' := Scanning(s1, w, Bump(ToTest), Told(s1, w, 0));
    trace := [(w, SetFlag)] + ScanSteps(s1, w, 0);
    assert s1.pcs[w := Bump(ToTest)] == s.pcs[w := Bump(ToTest)];
    RunsCompose(s, [(w, SetFlag)], s1, ScanSteps(s1, w, 0), s');
    forall v: nat | v < s.n
      ensures s'.queues[v] == if v != w && !s.flags[v] then [Shutdown] + s.queues[v] else s.queues[v]
    {
      ToldAt(s1, w, 0, v);
    }
  }

  // ----- `shutdown_async` -----

  /** The first `k` queues have their shutdown job. */
  function Asked(queues: seq<seq<Job>>, k: nat): (r: seq<seq<Job>>)
    requires k <= |queues|
    ensures |r| == |queues|
    ensures forall v :: 0 <= v < |queues| ==> r[v] == if v < k then [Shutdown] + queues[v] else queues[v]
  {
    seq(|queues|, v requires 0 <= v < |queues| => if v < k then [Shutdown] + queues[v] else queues[v])
  }

  function AskSteps(u: nat, k: nat): seq<(nat, Action)>
  {
    if k == 0 then [(u, Announce)] else AskSteps(u, k - 1) + [(u, AnnouncePush)]
  }

  /** The state after `k` turns of the loop. */
  function Asking(s: State, u: nat, k: nat): State
    requires Shape(s) && u < |s.pcs| && k <= s.n
  {
    s.(pcs := s.pcs[u := if k == s.n then Bump(ToRunning) else Announcing(k)], queues := Asked(s.queues, k),
       called := true, requested := s.requested || k == s.n)
  }

  lemma AskOneMore(s: State, u: nat, k: nat)
    requires Shape(s) && u < |s.pcs| && k < s.n
    ensures Enabled(Asking(s, u, k), u, AnnouncePush) && Next(Asking(s, u, k), u, AnnouncePush) == Asking(s, u, k + 1)
  {
    var s1, s2 := Asking(s, u, k), Asking(s, u, k + 1);
    assert Next(s1, u, AnnouncePush).queues == s2.queues;
    assert Next(s1, u, AnnouncePush).pcs == s2.pcs;
  }

  lemma AskFirst(s: State, u: nat)
    requires Shape(s) && u < |s.pcs| && s.pcs[u].Running?
    ensures Runs(s, AskSteps(u, 0), Asking(s, u, 0))
  {
    assert Asked(s.queues, 0) == s.queues;
    OneStepRuns(s, u, Announce, Asking(s, u, 0));
  }

  /** `shutdown_async`: every worker gets a shutdown job in front of its queue, and then the epoch is bumped. */
  lemma {:induction false} ShutdownAsyncRuns(s: State, u: nat, k: nat)
    requires Shape(s) && u < |s.pcs| && s.pcs[u].Running? && k <= s.n
    ensures Runs(s, AskSteps(u, k), Asking(s, u, k))
  {
    if k == 0 {
      AskFirst(s, u);
    } else {
      ShutdownAsyncRuns(s, u, k - 1);
      AskOneMore(s, u, k - 1);
      OneStepRuns(Asking(s, u, k - 1), u, AnnouncePush, Asking(s, u, k));
      RunsCompose(s, AskSteps(u, k - 1), Asking(s, u, k - 1), [(u, AnnouncePush)], Asking(s, u, k));
    }
  }

  /** Where a thread is in the loop of `shutdown_async`, or whether somebody has completed one. */
  lemma AskingGoesOn(s: State, v: nat, a: Action, s': State, u: nat)
    requires Step(s, v, a, s') && u < |s.pcs| && (s.requested || (s.pcs[u].Announcing? && s.pcs[u].next < s.n))
    ensures u < |s'.pcs| && s'.n == s.n && (s.requested ==> s'.requested)
    ensures !s'.requested ==>
              s'.pcs[u].Announcing? && s'.pcs[u].next < s.n && s'.pcs[u].next == s.pcs[u].next + if v == u then 1 else 0
  {
  }

  /** Whoever interferes, a thread in that loop completes it with its own steps, one for each worker. */
  lemma {:induction false} RequestCompletes(path: seq<State>, trace: seq<(nat, Action)>, u: nat, i: nat)
    requires IsRun(path, trace) && i <= |trace|
    requires u < |path[0].pcs| && path[0].pcs[u] == Announcing(0) && 1 <= path[0].n
    ensures u < |path[i].pcs| && path[i].n == path[0].n
    ensures || path[i].requested
            || (path[i].pcs[u] == Announcing(C.OwnSteps(trace, u, i)) && C.OwnSteps(trace, u, i) < path[0].n)
    ensures C.OwnSteps(trace, u, i) >= path[0].n ==> path[i].requested
  {
    if i > 0 {
      RequestCompletes(path, trace, u, i - 1);
      AskingGoesOn(path[i - 1], trace[i - 1].0, trace[i - 1].1, path[i], u);
    }
  }

  // ----- falling asleep and waking up -----

  function SleepSteps(w: nat): seq<(nat, Action)>
  {
    [(w, PopOwn), (w, ReadClock), (w, SetInactive), (w, PopRecheck), (w, LoadStatus), (w, Park)]
  }

  /** The states on the way to sleep. */
  function Falling(s: State, w: nat, i: nat): State
    requires w < |s.pcs|
  {
    var snap := Snapshot(Pack(0, s.bumps), s.bumps, s.bumps);
    if i == 0 then s
    else if i == 1 then s.(pcs := s.pcs[w := TakeInstant])
    else if i == 2 then s.(pcs := s.pcs[w := Deactivate(s.bumps)])
    else if i == 3 then s.(pcs := s.pcs[w := Recheck(snap)], word := Pack(0, s.bumps))
    else if i == 4 then s.(pcs := s.pcs[w := Wait(snap)], word := Pack(0, s.bumps))
    else if i == 5 then s.(pcs := s.pcs[w := Validate(snap)], word := Pack(0, s.bumps))
    else s.(pcs := s.pcs[w := Parked(snap)], word := Pack(0, s.bumps))
  }

  lemma FallsStep(s: State, w: nat, i: nat)
    requires Shape(s) && w < s.n && s.pcs[w] == Local && s.queues[w] == [] && s.word == Pack(1, s.bumps) && i < 6
    ensures Step(Falling(s, w, i), SleepSteps(w)[i].0, SleepSteps(w)[i].1, Falling(s, w, i + 1))
  {
    PackDecrement(1, s.bumps);
    PackReads(0, s.bumps);
    assert Falling(s, w, i).pcs[w := Falling(s, w, i + 1).pcs[w]] == Falling(s, w, i + 1).pcs;
  }

  /** The last active worker, with an empty queue, falls asleep when nobody interferes. */
  lemma IdleWorkerFallsAsleep(s: State, w: nat)
    requires Shape(s) && w < s.n && s.pcs[w] == Local && s.queues[w] == [] && s.word == Pack(1, s.bumps)
    ensures Runs(s, SleepSteps(w), s.(pcs := s.pcs[w := Parked(Snapshot(Pack(0, s.bumps), s.bumps, s.bumps))],
                                      word := Pack(0, s.bumps)))
  {
    var path := seq(7, i requires 0 <= i < 7 => Falling(s, w, i));
    forall i | 0 <= i < 6
      ensures Step(path[i], SleepSteps(w)[i].0, SleepSteps(w)[i].1, path[i + 1])
    {
      FallsStep(s, w, i);
    }
    assert IsRun(path, SleepSteps(w));
  }

  function WakeSteps(w: nat, u: nat): seq<(nat, Action)>
  {
    [(u, OutsidePush(w)), (u, NextEpoch), (u, UnparkAll), (w, RereadClock), (w, RereadStatus), (w, PopRefresh),
     (w, SetActive), (w, UnparkAll)]
  }

  /** The states on the way from a push to a sleeper's queue to the poll of the pushed task. */
  function Rising(s: State, w: nat, u: nat, i: nat): State
    requires w < |s.pcs| && u < |s.pcs| && w < |s.queues| && s.pcs[w].Parked?
  {
    var b, was := s.bumps + 1, s.pcs[w].snap;
    var up := Released(s.pcs[u := Running]);
    var pushed := s.(queues := s.queues[w := [Ordinary]]);
    var bumped := pushed.(word := Pack(0, b), bumps := b);
    var popped := s.(queues := s.queues[w := []], word := Pack(1, b), bumps := b);
    if i == 0 then s
    else if i == 1 then pushed.(pcs := s.pcs[u := Bump(ToRunning)])
    else if i == 2 then bumped.(pcs := s.pcs[u := Unpark(ToRunning)])
    else if i == 3 then bumped.(pcs := up)
    else if i == 4 then bumped.(pcs := up[w := Restatus(was, b)])
    else if i == 5 then bumped.(pcs := up[w := Repop(Snapshot(Pack(0, b), b, b))])
    else if i == 6 then popped.(pcs := up[w := Holding(Ordinary)], word := Pack(0, b))
    else if i == 7 then popped.(pcs := up[w := Unpark(ToPoll(Ordinary))])
    else popped.(pcs := up[w := Running])
  }

  predicate Sleeping(s: State, w: nat, u: nat)
  {
    && Shape(s) && w < s.n <= u < |s.pcs| && s.pcs[u].Running? && s.queues[w] == [] && s.word == Pack(0, s.bumps)
    && s.pcs[w] == Parked(Snapshot(s.word, s.bumps, s.bumps)) && (s.bumps + 1) % EPOCHS != 0
  }

  lemma BumpShows(bumps: nat)
    requires (bumps + 1) % EPOCHS != 0
    ensures EpochNumber(Pack(0, bumps + 1)) > EpochNumber(Pack(0, bumps))
  {
    PackReads(0, bumps);
    PackReads(0, bumps + 1);
  }

  lemma RisesAwake(s: State, w: nat, u: nat, i: nat)
    requires Sleeping(s, w, u) && i < 3
    ensures Step(Rising(s, w, u, i), WakeSteps(w, u)[i].0, WakeSteps(w, u)[i].1, Rising(s, w, u, i + 1))
  {
    PackBump(0, s.bumps);
    PackReads(0, s.bumps);
    assert [] + [Ordinary] == [Ordinary];
    assert s.pcs[u := Bump(ToRunning)][u := Unpark(ToRunning)] == s.pcs[u := Unpark(ToRunning)];
    assert s.pcs[u := Unpark(ToRunning)][u := Running] == s.pcs[u := Running];
  }

  lemma RisesLooking(s: State, w: nat, u: nat, i: nat)
    requires Sleeping(s, w, u) && 3 <= i < 6
    ensures Step(Rising(s, w, u, i), WakeSteps(w, u)[i].0, WakeSteps(w, u)[i].1, Rising(s, w, u, i + 1))
  {
    var s1, s2 := Rising(s, w, u, i), Rising(s, w, u, i + 1);
    BumpShows(s.bumps);
    assert Released(s.pcs[u := Running])[w] == Reinstant(s.pcs[w].snap);
    assert s1.pcs[w := s2.pcs[w]] == s2.pcs;
    assert i == 5 ==> s1.queues[w] == [Ordinary] && [Ordinary][1..] == [] && s1.queues[w := []] == s2.queues;
  }

  lemma RisesActive(s: State, w: nat, u: nat)
    requires Sleeping(s, w, u)
    ensures Step(Rising(s, w, u, 6), w, SetActive, Rising(s, w, u, 7))
  {
    PackReads(0, s.bumps + 1);
    PackIncrement(0, s.bumps + 1);
    assert Rising(s, w, u, 6).pcs[w := Unpark(ToPoll(Ordinary))] == Rising(s, w, u, 7).pcs;
  }

  lemma RisesToPoll(s: State, w: nat, u: nat)
    requires Sleeping(s, w, u)
    ensures Step(Rising(s, w, u, 7), w, UnparkAll, Rising(s, w, u, 8))
  {
    var up := Released(s.pcs[u := Running])[w := Running];
    assert Rising(s, w, u, 7).pcs[w := Running] == up;
    assert Released(up) == up;
  }

  /** A task pushed to a sleeping worker wakes it, and is polled by it, when nobody interferes. */
  lemma SleeperWakesForItsTask(s: State, w: nat, u: nat)
    requires Sleeping(s, w, u)
    ensures Runs(s, WakeSteps(w, u), Rising(s, w, u, 8))
    ensures var s' := Rising(s, w, u, 8);
            s'.pcs[w].Running? && s'.queues == s.queues && s'.word == Pack(1, s.bumps + 1)
  {
    var path := seq(9, i requires 0 <= i < 9 => Rising(s, w, u, i));
    forall i | 0 <= i < 8
      ensures Step(path[i], WakeSteps(w, u)[i].0, WakeSteps(w, u)[i].1, path[i + 1])
    {
      if i < 3 {
        RisesAwake(s, w, u, i);
      } else if i < 6 {
        RisesLooking(s, w, u, i);
      } else if i == 6 {
        RisesActive(s, w, u);
      } else {
        RisesToPoll(s, w, u);
      }
    }
    assert IsRun(path, WakeSteps(w, u));
    assert s.queues[w := []] == s.queues;
  }
}
