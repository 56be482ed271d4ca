/** What a reactor does in `push_batch` and in its event loop, as runs of the whole system. */
module SystemRuns {
  import P = Parking
  import PI = ParkingInvariant
  import T = TaskLife
  import R = Readiness
  import RI = ReadinessInvariant
  import opened System
  import opened SystemInvariant

  ghost predicate Runs(c: State, trace: seq<(T.Thread, Action)>, c': State)
  {
    exists path :: IsRun(path, trace) && path[0] == c && path[|trace|] == c'
  }

  lemma NoSteps(c: State)
    ensures Runs(c, [], c)
  {
    assert IsRun([c], []);
  }

  lemma RunsOn(c: State, trace: seq<(T.Thread, Action)>, c1: State, th: T.Thread, act: Action, c': State)
    requires Runs(c, trace, c1) && Step(c1, th, act, c')
    ensures Runs(c, trace + [(th, act)], c')
  {
    var path :| IsRun(path, trace) && path[0] == c && path[|trace|] == c1;
    var longer, steps := path + [c'], trace + [(th, act)];
    forall i | 0 <= i < |steps|
      ensures Step(longer[i], steps[i].0, steps[i].1, longer[i + 1])
    {
      assert i < |trace| ==> steps[i] == trace[i];
    }
    assert IsRun(longer, steps) && longer[0] == c && longer[|steps|] == c';
  }

  /** What every reachable state of the system has, and every step keeps. */
  ghost predicate Sound(c: State)
  {
    P.Reachable(c.park) && R.Reachable(c.io) && Coupled(c)
  }

  lemma StepKeepsSound(c: State, th: T.Thread, act: Action, c': State)
    requires Sound(c) && Step(c, th, act, c')
    ensures Sound(c')
  {
    RI.ReachableHasInv(c.io);
    StepProjects(c, th, act);
    StepKeepsCoupling(c, th, act);
  }

  /** The reactor is in `push_batch`, before the list for worker `w`, and owes no more than its `next_epoch`. */
  predicate Pushes(c: State, x: nat, w: nat, last: bool)
  {
    && x in c.loops && c.loops[x] == Flushing(w, last) && Exists(c, T.Outside(x))
    && (ParkPc(c, T.Outside(x)).Running? || ParkPc(c, T.Outside(x)).Bump?)
  }

  lemma FlushIsEnabled(c: State, x: nat, w: nat, last: bool)
    requires Sound(c) && Pushes(c, x, w, last) && w < c.park.n
    ensures Enabled(c, T.Outside(x), Flush)
  {
    RI.ReachableHasInv(c.io);
    assert LoopOk(c, x);
    assert AgreeOn(c, w);
  }

  lemma FlushGoesOn(c: State, x: nat, w: nat, last: bool)
    requires Pushes(c, x, w, last) && Enabled(c, T.Outside(x), Flush)
    ensures Pushes(Next(c, T.Outside(x), Flush), x, w + 1, last) && Next(c, T.Outside(x), Flush).park.n == c.park.n
  {
  }

  lemma FlushStep(c: State, x: nat, w: nat, last: bool) returns (c': State)
    requires Sound(c) && Pushes(c, x, w, last) && w < c.park.n
    ensures Step(c, T.Outside(x), Flush, c') && Sound(c') && Pushes(c', x, w + 1, last) && c'.park.n == c.park.n
  {
    FlushIsEnabled(c, x, w, last);
    FlushGoesOn(c, x, w, last);
    c' := Next(c, T.Outside(x), Flush);
    StepKeepsSound(c, T.Outside(x), Flush, c');
  }

  /** The reactor has flushed its first `w` batch lists. */
  ghost predicate FlushesTo(c: State, trace: seq<(T.Thread, Action)>, c': State, x: nat, w: nat, last: bool)
  {
    Runs(c, trace, c') && Sound(c') && c'.park.n == c.park.n && Pushes(c', x, w, last)
  }

  lemma FlushesOn(c: State, trace: seq<(T.Thread, Action)>, c1: State, x: nat, w: nat, last: bool) returns (c': State)
    requires FlushesTo(c, trace, c1, x, w, last) && w < c.park.n
    ensures FlushesTo(c, trace + [(T.Outside(x), Flush)], c', x, w + 1, last)
  {
    c' := FlushStep(c1, x, w, last);
    RunsOn(c, trace, c1, T.Outside(x), Flush, c');
  }

  lemma {:induction false} FlushesRun(c: State, x: nat, w: nat, last: bool)
    returns (trace: seq<(T.Thread, Action)>, c': State)
    requires Sound(c) && Pushes(c, x, 0, last) && w <= c.park.n
    ensures FlushesTo(c, trace, c', x, w, last)
  {
    if w == 0 {
      trace, c' := [], c;
      NoSteps(c);
    } else {
      var before, c1 := FlushesRun(c, x, w - 1, last);
      c' := FlushesOn(c, before, c1, x, w - 1, last);
      trace := before + [(T.Outside(x), Flush)];
    }
  }

  /** The reactor may announce what it has pushed, and changes nothing else. */
  predicate Announces(c: State, x: nat, a: P.Action, c': State)
  {
    && c'.io == c.io && c'.loops == c.loops && c'.park.n == c.park.n && Exists(c', T.Outside(x))
    && (if a.NextEpoch? then ParkPc(c', T.Outside(x)).Running? || ParkPc(c', T.Outside(x)).Unpark?
        else ParkPc(c', T.Outside(x)).Running?)
  }

  lemma AnnounceStep(c: State, x: nat, last: bool, a: P.Action)
    requires Sound(c) && x in c.loops && c.loops[x] == Flushing(c.park.n, last) && Exists(c, T.Outside(x))
    requires if a.NextEpoch? then ParkPc(c, T.Outside(x)).Bump? else a.UnparkAll? && ParkPc(c, T.Outside(x)).Unpark?
    ensures Enabled(c, T.Outside(x), Sched(a)) && Announces(c, x, a, Next(c, T.Outside(x), Sched(a)))
  {
    PI.ReachableHasInv(c.park);
    var i := Index(c.park.n, T.Outside(x));
    assert P.PcOk(c.park.n, c.park.bumps, false, c.park.pcs[i]);
  }

  lemma AnnouncesRun(c: State, x: nat, last: bool) returns (trace: seq<(T.Thread, Action)>, c': State)
    requires Sound(c) && Pushes(c, x, c.park.n, last)
    ensures Runs(c, trace, c') && Sound(c') && c'.io == c.io && c'.loops == c.loops && c'.park.n == c.park.n
    ensures Exists(c', T.Outside(x)) && ParkPc(c', T.Outside(x)).Running?
  {
    var th := T.Outside(x);
    trace, c' := [], c;
    NoSteps(c);
    if ParkPc(c', th).Bump? {
      AnnounceStep(c', x, last, P.NextEpoch);
      var c1 := Next(c', th, Sched(P.NextEpoch));
      StepKeepsSound(c', th, Sched(P.NextEpoch), c1);
      RunsOn(c, trace, c', th, Sched(P.NextEpoch), c1);
      trace, c' := trace + [(th, Sched(P.NextEpoch))], c1;
    }
    if ParkPc(c', th).Unpark? {
      AnnounceStep(c', x, last, P.UnparkAll);
      var c2 := Next(c', th, Sched(P.UnparkAll));
      StepKeepsSound(c', th, Sched(P.UnparkAll), c2);
      RunsOn(c, trace, c', th, Sched(P.UnparkAll), c2);
      trace, c' := trace + [(th, Sched(P.UnparkAll))], c2;
    }
  }

  /** All batch lists of the reactor are empty. */
  predicate NothingBatched(c: State, x: nat)
  {
    forall w: nat :: w < c.park.n && T.Batch(x, w) in c.io.rt.lists ==> c.io.rt.lists[T.Batch(x, w)] == []
  }

  lemma EndStep(c: State, x: nat, last: bool)
    requires Sound(c) && x in c.loops && c.loops[x] == Flushing(c.park.n, last)
    requires Exists(c, T.Outside(x)) && ParkPc(c, T.Outside(x)).Running?
    ensures Enabled(c, T.Outside(x), EndFlush)
    ensures var c' := Next(c, T.Outside(x), EndFlush);
            c'.loops[x] == (if last then InPoll else Delivering) && NothingBatched(c', x)
  {
    assert LoopOk(c, x);
  }

  lemma RunsCompose(c: State, first: seq<(T.Thread, Action)>, c1: State, second: seq<(T.Thread, Action)>, c': State)
    requires Runs(c, first, c1) && Runs(c1, second, c')
    ensures Runs(c, first + second, c')
  {
    var p :| IsRun(p, first) && p[0] == c && p[|first|] == c1;
    var q :| IsRun(q, second) && q[0] == c1 && q[|second|] == c';
    var path, trace := p + q[1..], first + second;
    forall i | 0 <= i < |trace|
      ensures Step(path[i], trace[i].0, trace[i].1, path[i + 1])
    {
      if i < |first| {
        assert trace[i] == first[i];
      } else {
        assert trace[i] == second[i - |first|];
      }
    }
    assert IsRun(path, trace) && path[|trace|] == c';
  }

  /** `push_batch` completes: from its beginning the reactor's own steps lead back to where it was called, to `poll` or
      into the middle of a batch of events, and then no task is left in its batch lists, and its bump is done. */
  lemma PushBatchRuns(c: State, x: nat, last: bool) returns (trace: seq<(T.Thread, Action)>, c': State)
    requires Reachable(c) && Pushes(c, x, 0, last)
    ensures Runs(c, trace, c') && x in c'.loops && c'.loops[x] == if last then InPoll else Delivering
    ensures NothingBatched(c', x)
  {
    RunsProject(c);
    var flushes, c1 := FlushesRun(c, x, c.park.n, last);
    var bumps, c2 := AnnouncesRun(c1, x, last);
    EndStep(c2, x, last);
    c' := Next(c2, T.Outside(x), EndFlush);
    RunsCompose(c, flushes, c1, bumps, c2);
    RunsOn(c, flushes + bumps, c2, T.Outside(x), EndFlush, c');
    trace := flushes + bumps + [(T.Outside(x), EndFlush)];
  }

  /** It is called in two places: before every 128th event of a batch, and behind the batch, when the lock is
      dropped. */
  lemma PushBatchBegins(c: State, x: nat, act: Action)
    requires Reachable(c) && Enabled(c, T.Outside(x), act) && x in c.loops
    requires act.BeginFlush? || (act.Work? && act.b.DropLock?)
    ensures Pushes(Next(c, T.Outside(x), act), x, 0, act.Work?)
  {
    RunsProject(c);
    assert LoopOk(c, x);
  }
}
