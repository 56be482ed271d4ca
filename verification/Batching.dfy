/** Batched wakes: `BatchGuard::push_batch` (`yaay-mt-runtime/src/batch.rs`), the batch branch of `Task::wake`
    (`yaay-mt-runtime/src/task.rs`) and the reactor's pass over a batch of events (`yaay-mio/src/shared.rs`). */
module Batching {
  import L = TaskList
  import E = EpochWord

  /** What the lists hold. */
  ghost function Contents(ls: seq<L.TaskList>): (c: seq<seq<L.Task>>)
    reads ls
    ensures |c| == |ls| && forall i :: 0 <= i < |ls| ==> c[i] == ls[i].elems
  {
    seq(|ls|, i requires 0 <= i < |ls| reads ls => ls[i].elems)
  }

  /** The lists share no node: `owner` says for every node in which of the lists it may be. */
  predicate Owned(c: seq<seq<L.Task>>, owner: map<L.Task, nat>)
  {
    forall i, k :: 0 <= i < |c| && 0 <= k < |c[i]| ==> c[i][k] in owner && owner[c[i][k]] == i
  }

  /** The lists are different objects, each valid, and no node of theirs is freed. */
  ghost predicate Sound(ls: seq<L.TaskList>, owner: map<L.Task, nat>)
    reads ls, owner.Keys
  {
    && (forall i, j :: 0 <= i < j < |ls| ==> ls[i] != ls[j])
    && Owned(Contents(ls), owner)
    && (forall i :: 0 <= i < |ls| ==> ls[i].Valid())
    && forall t :: t in owner ==> !t.freed
  }

  /** The nodes in `tasks` are handed to list `to`. */
  function Reassign(owner: map<L.Task, nat>, tasks: seq<L.Task>, to: nat): map<L.Task, nat>
  {
    map t | t in owner :: if t in tasks then to else owner[t]
  }

  function Moved(c: seq<seq<L.Task>>, from: nat, to: nat): seq<seq<L.Task>>
    requires from < |c| && to < |c|
  {
    c[to := c[to] + c[from]][from := []]
  }

  lemma MovedIsOwned(c: seq<seq<L.Task>>, from: nat, to: nat, owner: map<L.Task, nat>)
    requires from < |c| && to < |c| && from != to && Owned(c, owner)
    ensures Owned(Moved(c, from, to), Reassign(owner, c[from], to))
  {
  }

  lemma OwnedIsDisjoint(c: seq<seq<L.Task>>, i: nat, j: nat, owner: map<L.Task, nat>)
    requires i < |c| && j < |c| && i != j && Owned(c, owner)
    ensures L.Disjoint(c[i], c[j])
  {
  }

  /** One turn of the loop of `push_batch`: if the list `from` is not empty, it moves to the back of the queue `to`. */
  method MoveList(ls: seq<L.TaskList>, from: nat, to: nat, ghost owner: map<L.Task, nat>) returns (moved: bool)
    requires Sound(ls, owner) && from < |ls| && to < |ls| && from != to
    modifies ls[from], ls[to], owner.Keys`next
    ensures Sound(ls, Reassign(owner, old(Contents(ls))[from], to))
    ensures Contents(ls) == Moved(old(Contents(ls)), from, to)
    ensures moved <==> old(Contents(ls))[from] != []
  {
    ghost var c := Contents(ls);
    var empty := ls[from].IsEmpty();
    moved := !empty;
    if moved {
      MoveTasks(ls, from, to, owner);
    } else {
      MovedNothing(c, from, to, owner);
    }
  }

  lemma MovedNothing(c: seq<seq<L.Task>>, from: nat, to: nat, owner: map<L.Task, nat>)
    requires from < |c| && to < |c| && from != to && c[from] == []
    ensures Moved(c, from, to) == c && Reassign(owner, c[from], to) == owner
  {
    assert c[to] + c[from] == c[to];
  }

  /** The body of that turn. */
  method MoveTasks(ls: seq<L.TaskList>, from: nat, to: nat, ghost owner: map<L.Task, nat>)
    requires Sound(ls, owner) && from < |ls| && to < |ls| && from != to && Contents(ls)[from] != []
    modifies ls[from], ls[to], owner.Keys`next
    ensures Sound(ls, Reassign(owner, old(Contents(ls))[from], to))
    ensures Contents(ls) == Moved(old(Contents(ls)), from, to)
  {
    ghost var c := Contents(ls);
    MovedIsOwned(c, from, to, owner);
    OwnedIsDisjoint(c, to, from, owner);
    var tasks := TakeAll(ls, from, owner);
    MoveInto(ls, to, tasks, owner);
    assert c[from := []][to := c[to] + c[from]] == Moved(c, from, to);
  }

  /** `tasks.pop_all()`. */
  method TakeAll(ls: seq<L.TaskList>, from: nat, ghost owner: map<L.Task, nat>) returns (tasks: L.TaskList)
    requires Sound(ls, owner) && from < |ls|
    modifies ls[from]
    ensures Sound(ls, owner) && Contents(ls) == old(Contents(ls))[from := []]
    ensures fresh(tasks) && tasks.Valid() && tasks.elems == old(ls[from].elems)
  {
    tasks := ls[from].PopAll();
  }

  /** `worker.task_list.lock().push_back_batch(tasks)`. */
  method MoveInto(ls: seq<L.TaskList>, to: nat, tasks: L.TaskList, ghost owner: map<L.Task, nat>)
    requires Sound(ls, owner) && to < |ls| && tasks !in ls && tasks.Valid() && tasks.elems != []
    requires L.Disjoint(ls[to].elems, tasks.elems)
    modifies ls[to], owner.Keys`next
    ensures forall i :: 0 <= i < |ls| ==> ls[i].Valid()
    ensures Contents(ls) == old(Contents(ls))[to := old(ls[to].elems) + tasks.elems] && tasks.elems == old(tasks.elems)
  {
    ghost var c := Contents(ls);
    assert c[to] != [] ==> ls[to].tail == c[to][|c[to]| - 1];
    ls[to].PushBackBatch(tasks);
    forall i | 0 <= i < |ls| && i != to
      ensures ls[i].Valid() && ls[i].elems == c[i]
    {
      OwnedIsDisjoint(c, i, to, owner);
      assert ls[i] != ls[to];
      StaysValid(ls[i]);
    }
  }

  // ----- push_batch: lists 0..n are the batch lists, lists n..2n the workers' queues -----

  /** The first `w` batch lists are flushed, one after the other. */
  function FlushedUpTo(c: seq<seq<L.Task>>, n: nat, w: nat): (r: seq<seq<L.Task>>)
    requires |c| == 2 * n && w <= n
    ensures |r| == 2 * n
  {
    if w == 0 then c else Moved(FlushedUpTo(c, n, w - 1), w - 1, n + w - 1)
  }

  /** Each flushed list is empty, and at the back of its worker's queue; nothing else changes. */
  lemma {:induction false} FlushedAt(c: seq<seq<L.Task>>, n: nat, w: nat, i: nat)
    requires |c| == 2 * n && w <= n && i < 2 * n
    ensures FlushedUpTo(c, n, w)[i] == if i < w then [] else if n <= i < n + w then c[i] + c[i - n] else c[i]
  {
    if w > 0 {
      FlushedAt(c, n, w - 1, i);
      FlushedAt(c, n, w - 1, w - 1);
    }
  }

  lemma FlushOneMore(c: seq<seq<L.Task>>, n: nat, w: nat)
    requires |c| == 2 * n && w < n
    ensures FlushedUpTo(c, n, w)[w] == c[w] && FlushedUpTo(c, n, w + 1) == Moved(FlushedUpTo(c, n, w), w, n + w)
  {
    FlushedAt(c, n, w, w);
  }

  predicate AllEmpty(c: seq<seq<L.Task>>, n: nat)
    requires n <= |c|
  {
    forall w :: 0 <= w < n ==> c[w] == []
  }

  lemma FlushedIsEmpty(c: seq<seq<L.Task>>, n: nat)
    requires |c| == 2 * n
    ensures AllEmpty(FlushedUpTo(c, n, n), n)
  {
    forall w | 0 <= w < n
      ensures FlushedUpTo(c, n, n)[w] == []
    {
      FlushedAt(c, n, n, w);
    }
  }

  /** Worker `w`'s turn in the loop of `push_batch`. */
  method FlushList(ls: seq<L.TaskList>, n: nat, w: nat, ghost c: seq<seq<L.Task>>, ghost owner: map<L.Task, nat>)
    returns (moved: bool, ghost owner': map<L.Task, nat>)
    requires |ls| == |c| == 2 * n && w < n && Sound(ls, owner) && Contents(ls) == FlushedUpTo(c, n, w)
    modifies ls, owner.Keys`next
    ensures Sound(ls, owner') && owner'.Keys == owner.Keys
    ensures Contents(ls) == FlushedUpTo(c, n, w + 1)
    ensures moved <==> c[w] != []
  {
    FlushOneMore(c, n, w);
    owner' := Reassign(owner, Contents(ls)[w], n + w);
    moved := MoveList(ls, w, n + w, owner);
  }

  /** The loop of `push_batch`. */
  method FlushLists(ls: seq<L.TaskList>, n: nat, ghost owner: map<L.Task, nat>)
    returns (allEmpty: bool, ghost owner': map<L.Task, nat>)
    requires |ls| == 2 * n && Sound(ls, owner)
    modifies ls, owner.Keys`next
    ensures Sound(ls, owner') && owner'.Keys == owner.Keys
    ensures Contents(ls) == FlushedUpTo(old(Contents(ls)), n, n)
    ensures allEmpty <==> AllEmpty(old(Contents(ls)), n)
  {
    ghost var c := Contents(ls);
    owner', allEmpty := owner, true;
    for w := 0 to n
      invariant Sound(ls, owner') && owner'.Keys == owner.Keys
      invariant Contents(ls) == FlushedUpTo(c, n, w)
      invariant allEmpty <==> AllEmpty(c, w)
    {
      var moved;
      moved, owner' := FlushList(ls, n, w, c, owner');
      if moved {
        allEmpty := false;
      }
    }
  }

  /** `push_batch`: every batch list moves to the back of its worker's queue, and the epoch is bumped, once, exactly
      when something moved. */
  method PushBatch(ls: seq<L.TaskList>, n: nat, epoch: E.Epoch, ghost owner: map<L.Task, nat>)
    returns (ghost owner': map<L.Task, nat>)
    requires |ls| == 2 * n && Sound(ls, owner) && epoch.Valid()
    modifies ls, owner.Keys`next, epoch
    ensures Sound(ls, owner') && owner'.Keys == owner.Keys
    ensures Contents(ls) == FlushedUpTo(old(Contents(ls)), n, n)
    ensures epoch.Valid() && epoch.active == old(epoch.active)
    ensures epoch.bumps == old(epoch.bumps) + if AllEmpty(old(Contents(ls)), n) then 0 else 1
  {
    var allEmpty;
    allEmpty, owner' := FlushLists(ls, n, owner);
    if !allEmpty {
      epoch.NextEpoch();
    }
  }

  /** The batch branch of `wake`: the task goes to the back of the batch list of its worker. */
  method WakeIntoBatch(ls: seq<L.TaskList>, n: nat, task: L.Task, ghost owner: map<L.Task, nat>)
    returns (ghost owner': map<L.Task, nat>)
    requires |ls| == 2 * n && Sound(ls, owner) && task.workerId < n && !task.freed && NotIn(Contents(ls), task)
    modifies ls, owner.Keys`next
    ensures owner' == owner[task := task.workerId] && Sound(ls, owner')
    ensures Contents(ls) == old(Contents(ls))[task.workerId := old(Contents(ls))[task.workerId] + [task]]
  {
    owner' := WakeFor(ls, task.workerId, task, owner);
  }

  predicate NotIn(c: seq<seq<L.Task>>, t: L.Task)
  {
    forall i :: 0 <= i < |c| ==> t !in c[i]
  }

  lemma StillOwned(c: seq<seq<L.Task>>, w: nat, t: L.Task, owner: map<L.Task, nat>)
    requires w < |c| && Owned(c, owner) && NotIn(c, t)
    ensures Owned(c[w := c[w] + [t]], owner[t := w])
  {
  }

  /** A list whose head, tail and inner links nobody wrote is still valid. */
  twostate lemma StaysValid(l: L.TaskList)
    requires old(l.Valid()) && l.head == old(l.head) && l.tail == old(l.tail) && l.elems == old(l.elems)
    requires forall k :: 0 <= k < |l.elems| - 1 ==> L.Linked(l.elems)[k].next == old(L.Linked(l.elems)[k].next)
    ensures l.Valid()
  {
  }

  /** The push itself: no other list changes. */
  method PushOnto(ls: seq<L.TaskList>, w: nat, task: L.Task, ghost owner: map<L.Task, nat>)
    requires w < |ls| && Sound(ls, owner) && NotIn(Contents(ls), task)
    modifies ls[w], owner.Keys`next
    ensures forall i :: 0 <= i < |ls| ==> ls[i].Valid()
    ensures Contents(ls) == old(Contents(ls))[w := old(Contents(ls))[w] + [task]]
  {
    ghost var c := Contents(ls);
    LiveIn(ls, w, owner);
    assert task !in c[w] && (c[w] != [] ==> ls[w].tail == c[w][|c[w]| - 1]);
    ls[w].PushBack(task);
    forall i | 0 <= i < |ls| && i != w
      ensures ls[i].Valid() && ls[i].elems == c[i]
    {
      OwnedIsDisjoint(c, i, w, owner);
      assert ls[i] != ls[w];
      StaysValid(ls[i]);
    }
    assert Contents(ls) == c[w := c[w] + [task]];
  }

  /** A task that is in no list, maybe no more, goes to the back of list `w`. */
  method WakeFor(ls: seq<L.TaskList>, w: nat, task: L.Task, ghost owner: map<L.Task, nat>)
    returns (ghost owner': map<L.Task, nat>)
    requires w < |ls| && Sound(ls, owner) && !task.freed && NotIn(Contents(ls), task)
    modifies ls[w], owner.Keys`next
    ensures owner' == owner[task := w] && Sound(ls, owner')
    ensures Contents(ls) == old(Contents(ls))[w := old(Contents(ls))[w] + [task]]
  {
    owner' := owner[task := w];
    StillOwned(Contents(ls), w, task, owner);
    PushOnto(ls, w, task, owner);
  }

  /** A worker, or a thief, takes the front task of list `q`, if there is one. */
  method TakeFront(ls: seq<L.TaskList>, q: nat, ghost owner: map<L.Task, nat>)
    requires q < |ls| && Sound(ls, owner)
    modifies ls[q]
    ensures Sound(ls, owner)
    ensures Contents(ls) == var c := old(Contents(ls)); if c[q] == [] then c else c[q := c[q][1..]]
  {
    ghost var c := Contents(ls);
    LiveIn(ls, q, owner);
    var _ := ls[q].PopFront();
    assert Contents(ls) == if c[q] == [] then c else c[q := c[q][1..]];
  }

  lemma LiveIn(ls: seq<L.TaskList>, q: nat, owner: map<L.Task, nat>)
    requires q < |ls| && Sound(ls, owner)
    ensures L.Live(ls[q].elems)
  {
  }

  // ----- batching refines direct wakes -----

  /** What happens while a reactor works through its events: a worker or thief takes a task from a worker's queue, the
      reactor wakes a task for a worker, or the reactor calls `push_batch`. */
  datatype Turn = Take(w: nat) | Wake(w: nat, t: L.Task) | Push

  function TurnAfter(c: seq<seq<L.Task>>, n: nat, turn: Turn): (r: seq<seq<L.Task>>)
    requires |c| == 2 * n
    ensures |r| == 2 * n
  {
    match turn
    case Take(w) => if w < n && c[n + w] != [] then c[n + w := c[n + w][1..]] else c
    case Wake(w, t) => if w < n then c[w := c[w] + [t]] else c
    case Push => FlushedUpTo(c, n, n)
  }

  /** A task is woken into a list only when it is in none: `TaskLife` proves that of every run. It may have been
      flushed and taken before, and be woken again. */
  predicate Allowed(c: seq<seq<L.Task>>, n: nat, turn: Turn)
  {
    match turn
    case Take(w) => w < n
    case Wake(w, t) => w < n && NotIn(c, t)
    case Push => true
  }

  function Play(c: seq<seq<L.Task>>, n: nat, script: seq<Turn>): (r: seq<seq<L.Task>>)
    requires |c| == 2 * n
    ensures |r| == 2 * n
  {
    if script == [] then c else TurnAfter(Play(c, n, script[..|script| - 1]), n, script[|script| - 1])
  }

  predicate CanPlay(c: seq<seq<L.Task>>, n: nat, script: seq<Turn>)
    requires |c| == 2 * n
  {
    script == [] ||
    (var rest := script[..|script| - 1]; CanPlay(c, n, rest) && Allowed(Play(c, n, rest), n, script[|script| - 1]))
  }

  /** What was taken from worker `w`'s queue, in order. */
  function TakenFrom(c: seq<seq<L.Task>>, n: nat, script: seq<Turn>, w: nat): seq<L.Task>
    requires |c| == 2 * n && w < n
  {
    if script == [] then []
    else
      var rest := script[..|script| - 1];
      var queue := Play(c, n, rest)[n + w];
      TakenFrom(c, n, rest, w) + if script[|script| - 1] == Take(w) && queue != [] then [queue[0]] else []
  }

  /** The tasks woken for worker `w`, in wake order. */
  function WokenFor(script: seq<Turn>, w: nat): seq<L.Task>
  {
    if script == [] then []
    else
      var last := script[|script| - 1];
      WokenFor(script[..|script| - 1], w) + if last.Wake? && last.w == w then [last.t] else []
  }

  /** How often `push_batch` moved something, and so bumped the epoch. */
  function Bumps(c: seq<seq<L.Task>>, n: nat, script: seq<Turn>): nat
    requires |c| == 2 * n
  {
    if script == [] then 0
    else
      var rest := script[..|script| - 1];
      Bumps(c, n, rest) + if script[|script| - 1].Push? && !AllEmpty(Play(c, n, rest), n) then 1 else 0
  }

  lemma OneTake(c: seq<seq<L.Task>>, n: nat, turn: Turn, w: nat)
    requires |c| == 2 * n && w < n && turn.Take?
    ensures var c' := TurnAfter(c, n, turn);
            (if turn == Take(w) && c[n + w] != [] then [c[n + w][0]] else []) + (c'[n + w] + c'[w]) == c[n + w] + c[w]
  {
  }

  lemma OneTurn(c: seq<seq<L.Task>>, n: nat, turn: Turn, w: nat)
    requires |c| == 2 * n && w < n
    ensures var c' := TurnAfter(c, n, turn);
            (if turn == Take(w) && c[n + w] != [] then [c[n + w][0]] else []) + (c'[n + w] + c'[w]) ==
            c[n + w] + c[w] + (if turn.Wake? && turn.w == w then [turn.t] else [])
  {
    var c' := TurnAfter(c, n, turn);
    if turn.Take? {
      OneTake(c, n, turn, w);
    } else if turn.Wake? {
      assert c'[n + w] == c[n + w];
    } else {
      FlushedAt(c, n, n, n + w);
      FlushedAt(c, n, n, w);
    }
  }

  /** Batching refines direct wakes: whatever was taken meanwhile, each worker's tasks, first those taken from its
      queue, then those in its queue, then those in its batch list, are those it had and those woken for it, one by
      one in wake order: none is lost, doubled or overtaken. */
  lemma {:induction false} BatchingKeepsWakeOrder(c: seq<seq<L.Task>>, n: nat, script: seq<Turn>, w: nat)
    requires |c| == 2 * n && w < n
    ensures TakenFrom(c, n, script, w) + (Play(c, n, script)[n + w] + Play(c, n, script)[w]) ==
            c[n + w] + c[w] + WokenFor(script, w)
  {
    if script != [] {
      var rest, last := script[..|script| - 1], script[|script| - 1];
      var c1, c2 := Play(c, n, rest), Play(c, n, script);
      BatchingKeepsWakeOrder(c, n, rest, w);
      OneTurn(c1, n, last, w);
      Regroup(TakenFrom(c, n, rest, w),
              if last == Take(w) && c1[n + w] != [] then [c1[n + w][0]] else [],
              c2[n + w] + c2[w]);
      Regroup(TakenFrom(c, n, rest, w), c1[n + w] + c1[w], if last.Wake? && last.w == w then [last.t] else []);
      Regroup(c[n + w] + c[w], WokenFor(rest, w), if last.Wake? && last.w == w then [last.t] else []);
    }
  }

  lemma Regroup(a: seq<L.Task>, b: seq<L.Task>, c: seq<L.Task>)
    ensures (a + b) + c == a + (b + c)
  {
  }

  predicate Wakes(script: seq<Turn>)
  {
    exists i :: 0 <= i < |script| && script[i].Wake?
  }

  lemma WakesSplit(script: seq<Turn>)
    requires script != []
    ensures Wakes(script) <==> Wakes(script[..|script| - 1]) || script[|script| - 1].Wake?
  {
  }

  /** One turn: a wake puts something into a batch list, and only `push_batch` takes it out again, and bumps. */
  lemma TurnBumpsOrBatches(c: seq<seq<L.Task>>, n: nat, turn: Turn)
    requires |c| == 2 * n && Allowed(c, n, turn)
    ensures (turn.Push? && !AllEmpty(c, n)) || !AllEmpty(TurnAfter(c, n, turn), n) <==> !AllEmpty(c, n) || turn.Wake?
  {
    var c' := TurnAfter(c, n, turn);
    match turn
    case Take(_) => assert forall w :: 0 <= w < n ==> c'[w] == c[w];
    case Wake(w, t) => assert c'[w] != [];
    case Push => FlushedIsEmpty(c, n);
  }

  /** What was woken has been announced by a bump, or is still in a batch list. */
  lemma {:induction false} WokenIsBumpedOrBatched(c: seq<seq<L.Task>>, n: nat, script: seq<Turn>)
    requires |c| == 2 * n && AllEmpty(c, n) && CanPlay(c, n, script)
    ensures Bumps(c, n, script) > 0 || !AllEmpty(Play(c, n, script), n) <==> Wakes(script)
  {
    if script != [] {
      var rest, last := script[..|script| - 1], script[|script| - 1];
      WokenIsBumpedOrBatched(c, n, rest);
      WakesSplit(script);
      TurnBumpsOrBatches(Play(c, n, rest), n, last);
    }
  }

  // ----- the reactor's pass: `owner` knows all live tasks, whether they are in a list or not -----

  predicate Known(script: seq<Turn>, tasks: set<L.Task>)
  {
    forall i :: 0 <= i < |script| && script[i].Wake? ==> script[i].t in tasks
  }

  /** One turn. */
  method PlayTurn(ls: seq<L.TaskList>, n: nat, epoch: E.Epoch, turn: Turn, ghost owner: map<L.Task, nat>)
    returns (ghost owner': map<L.Task, nat>)
    requires |ls| == 2 * n && Sound(ls, owner) && epoch.Valid() && Allowed(Contents(ls), n, turn)
    requires turn.Wake? ==> turn.t in owner
    modifies ls, owner.Keys`next, epoch
    ensures Sound(ls, owner') && owner'.Keys == owner.Keys
    ensures Contents(ls) == TurnAfter(old(Contents(ls)), n, turn)
    ensures epoch.Valid() && epoch.active == old(epoch.active)
    ensures epoch.bumps == old(epoch.bumps) + if turn.Push? && !AllEmpty(old(Contents(ls)), n) then 1 else 0
  {
    match turn
    case Take(w) =>
      TakeFront(ls, n + w, owner);
      owner' := owner;
    case Wake(w, t) => owner' := WakeFor(ls, w, t, owner);
    case Push => owner' := PushBatch(ls, n, epoch, owner);
  }

  /** The lists and the epoch after a script. */
  ghost predicate Played(ls: seq<L.TaskList>, n: nat, epoch: E.Epoch, owner: map<L.Task, nat>, c: seq<seq<L.Task>>,
                         bumps: nat, script: seq<Turn>)
    reads ls, owner.Keys, epoch
  {
    && |ls| == |c| == 2 * n && Sound(ls, owner) && Contents(ls) == Play(c, n, script)
    && epoch.Valid() && epoch.bumps == bumps + Bumps(c, n, script)
  }

  lemma OneMoreTurn(c: seq<seq<L.Task>>, n: nat, script: seq<Turn>, turn: Turn)
    requires |c| == 2 * n
    ensures Play(c, n, script + [turn]) == TurnAfter(Play(c, n, script), n, turn)
    ensures Bumps(c, n, script + [turn]) ==
            Bumps(c, n, script) + if turn.Push? && !AllEmpty(Play(c, n, script), n) then 1 else 0
    ensures CanPlay(c, n, script + [turn]) <==> CanPlay(c, n, script) && Allowed(Play(c, n, script), n, turn)
  {
  }

  lemma {:induction false} PrefixCanBePlayed(c: seq<seq<L.Task>>, n: nat, first: seq<Turn>, second: seq<Turn>)
    requires |c| == 2 * n && CanPlay(c, n, first + second)
    ensures CanPlay(c, n, first)
    decreases |second|
  {
    if second != [] {
      var rest := second[..|second| - 1];
      assert first + second == (first + rest) + [second[|second| - 1]];
      OneMoreTurn(c, n, first + rest, second[|second| - 1]);
      PrefixCanBePlayed(c, n, first, rest);
    } else {
      assert first + second == first;
    }
  }

  /** One turn after a script. */
  method PlayNext(ls: seq<L.TaskList>, n: nat, epoch: E.Epoch, ghost script: seq<Turn>, turn: Turn,
                  ghost owner: map<L.Task, nat>, ghost c: seq<seq<L.Task>>, ghost bumps: nat)
    returns (ghost owner': map<L.Task, nat>)
    requires Played(ls, n, epoch, owner, c, bumps, script) && CanPlay(c, n, script + [turn])
    requires turn.Wake? ==> turn.t in owner
    modifies ls, owner.Keys`next, epoch
    ensures Played(ls, n, epoch, owner', c, bumps, script + [turn]) && epoch.active == old(epoch.active)
    ensures owner'.Keys == owner.Keys
  {
    OneMoreTurn(c, n, script, turn);
    owner' := PlayTurn(ls, n, epoch, turn, owner);
  }

  lemma NthCanBePlayed(c: seq<seq<L.Task>>, n: nat, done: seq<Turn>, turns: seq<Turn>, i: nat)
    requires |c| == 2 * n && CanPlay(c, n, done + turns) && i < |turns|
    ensures done + turns[..i + 1] == (done + turns[..i]) + [turns[i]] && CanPlay(c, n, done + turns[..i + 1])
  {
    SplitTurns(done, turns, i);
    PrefixCanBePlayed(c, n, done + turns[..i + 1], turns[i + 1..]);
  }

  lemma SplitTurns(done: seq<Turn>, turns: seq<Turn>, i: nat)
    requires i < |turns|
    ensures done + turns[..i + 1] == (done + turns[..i]) + [turns[i]]
    ensures done + turns == (done + turns[..i + 1]) + turns[i + 1..]
  {
  }

  /** The `i`th of some turns after a script. */
  method PlayNth(ls: seq<L.TaskList>, n: nat, epoch: E.Epoch, ghost done: seq<Turn>, turns: seq<Turn>, i: nat,
                 ghost owner: map<L.Task, nat>, ghost c: seq<seq<L.Task>>, ghost bumps: nat)
    returns (ghost owner': map<L.Task, nat>)
    requires i < |turns| && Played(ls, n, epoch, owner, c, bumps, done + turns[..i]) && CanPlay(c, n, done + turns)
    requires Known(turns, owner.Keys)
    modifies ls, owner.Keys`next, epoch
    ensures Played(ls, n, epoch, owner', c, bumps, done + turns[..i + 1]) && epoch.active == old(epoch.active)
    ensures owner'.Keys == owner.Keys
  {
    NthCanBePlayed(c, n, done, turns, i);
    owner' := PlayNext(ls, n, epoch, done + turns[..i], turns[i], owner, c, bumps);
  }

  /** Some turns after a script. */
  method PlayTurns(ls: seq<L.TaskList>, n: nat, epoch: E.Epoch, ghost done: seq<Turn>, turns: seq<Turn>,
                   ghost owner: map<L.Task, nat>, ghost c: seq<seq<L.Task>>, ghost bumps: nat)
    returns (ghost owner': map<L.Task, nat>)
    requires Played(ls, n, epoch, owner, c, bumps, done) && CanPlay(c, n, done + turns) && Known(turns, owner.Keys)
    modifies ls, owner.Keys`next, epoch
    ensures Played(ls, n, epoch, owner', c, bumps, done + turns) && epoch.active == old(epoch.active)
    ensures owner'.Keys == owner.Keys
  {
    owner' := owner;
    assert done + turns[..0] == done;
    for i := 0 to |turns|
      invariant Played(ls, n, epoch, owner', c, bumps, done + turns[..i]) && epoch.active == old(epoch.active)
      invariant owner'.Keys == owner.Keys
    {
      owner' := PlayNth(ls, n, epoch, done, turns, i, owner', c, bumps);
    }
    assert turns[..|turns|] == turns;
  }

  /** The turns of the first `k` parts. */
  function Joined(parts: seq<seq<Turn>>, k: nat): seq<Turn>
    requires k <= |parts|
  {
    if k == 0 then [] else Joined(parts, k - 1) + parts[k - 1]
  }

  lemma {:induction false} PartsCanBePlayed(c: seq<seq<L.Task>>, n: nat, parts: seq<seq<Turn>>, k: nat)
    requires |c| == 2 * n && CanPlay(c, n, Joined(parts, |parts|)) && k <= |parts|
    ensures CanPlay(c, n, Joined(parts, k))
    decreases |parts| - k
  {
    if k < |parts| {
      PartsCanBePlayed(c, n, parts, k + 1);
      PrefixCanBePlayed(c, n, Joined(parts, k), parts[k]);
    }
  }

  /** Part `k`: what happens at one event. */
  method EventTurn(ls: seq<L.TaskList>, n: nat, epoch: E.Epoch, parts: seq<seq<Turn>>, k: nat,
                   ghost owner: map<L.Task, nat>, ghost c: seq<seq<L.Task>>, ghost bumps: nat)
    returns (ghost owner': map<L.Task, nat>)
    requires k < |parts| && Played(ls, n, epoch, owner, c, bumps, Joined(parts, k))
    requires CanPlay(c, n, Joined(parts, |parts|)) && Known(parts[k], owner.Keys)
    modifies ls, owner.Keys`next, epoch
    ensures Played(ls, n, epoch, owner', c, bumps, Joined(parts, k + 1)) && epoch.active == old(epoch.active)
    ensures owner'.Keys == owner.Keys
  {
    PartsCanBePlayed(c, n, parts, k + 1);
    owner' := PlayTurns(ls, n, epoch, Joined(parts, k), parts[k], owner, c, bumps);
  }

  /** The loop over the events of a batch. */
  method Events(ls: seq<L.TaskList>, n: nat, epoch: E.Epoch, parts: seq<seq<Turn>>,
                ghost owner: map<L.Task, nat>, ghost c: seq<seq<L.Task>>, ghost bumps: nat)
    returns (ghost owner': map<L.Task, nat>)
    requires Played(ls, n, epoch, owner, c, bumps, []) && CanPlay(c, n, Joined(parts, |parts|))
    requires forall k :: 0 <= k < |parts| ==> Known(parts[k], owner.Keys)
    modifies ls, owner.Keys`next, epoch
    ensures Played(ls, n, epoch, owner', c, bumps, Joined(parts, |parts|)) && epoch.active == old(epoch.active)
    ensures owner'.Keys == owner.Keys
  {
    owner' := owner;
    for k := 0 to |parts|
      invariant Played(ls, n, epoch, owner', c, bumps, Joined(parts, k)) && epoch.active == old(epoch.active)
      invariant owner'.Keys == owner.Keys
    {
      owner' := EventTurn(ls, n, epoch, parts, k, owner', c, bumps);
    }
  }

  /** The events, with the `push_batch` before every 128th of them: an event is the reactor's wakes for it,
      interleaved with what workers and thieves take. */
  function WithPushes(events: seq<seq<Turn>>): (parts: seq<seq<Turn>>)
    ensures |parts| == |events|
  {
    seq(|events|, k requires 0 <= k < |events| => if (k + 1) % 128 == 0 then [Push] + events[k] else events[k])
  }

  /** A whole pass: all events, and the `push_batch` behind the last one. */
  function PassScript(events: seq<seq<Turn>>): seq<Turn>
  {
    Joined(WithPushes(events), |events|) + [Push]
  }

  // ----- what the pass does, said of the events alone -----

  /** The tasks that the first `k` events wake for worker `w`, in order. */
  function WokenByEvents(events: seq<seq<Turn>>, w: nat, k: nat): seq<L.Task>
    requires k <= |events|
  {
    if k == 0 then [] else WokenByEvents(events, w, k - 1) + WokenFor(events[k - 1], w)
  }

  /** The script without its `push_batch`es, and their number. */
  function Unpushed(script: seq<Turn>): seq<Turn>
  {
    if script == [] then []
    else
      var last := script[|script| - 1];
      Unpushed(script[..|script| - 1]) + if last.Push? then [] else [last]
  }

  function PushesIn(script: seq<Turn>): nat
  {
    if script == [] then 0
    else PushesIn(script[..|script| - 1]) + if script[|script| - 1].Push? then 1 else 0
  }

  predicate NoPush(script: seq<Turn>)
  {
    forall i :: 0 <= i < |script| ==> !script[i].Push?
  }

  /** All that is counted of a script is counted part by part. */
  lemma {:induction false} Concatenated(a: seq<Turn>, b: seq<Turn>, w: nat)
    ensures WokenFor(a + b, w) == WokenFor(a, w) + WokenFor(b, w)
    ensures Unpushed(a + b) == Unpushed(a) + Unpushed(b)
    ensures PushesIn(a + b) == PushesIn(a) + PushesIn(b)
  {
    if b == [] {
      assert a + b == a;
    } else {
      var rest := b[..|b| - 1];
      assert (a + b)[..|a + b| - 1] == a + rest;
      Concatenated(a, rest, w);
    }
  }

  lemma {:induction false} NothingToUnpush(script: seq<Turn>)
    requires NoPush(script)
    ensures Unpushed(script) == script && PushesIn(script) == 0
  {
    if script != [] {
      NothingToUnpush(script[..|script| - 1]);
    }
  }

  /** What a script amounts to: the tasks woken for worker `w`, its turns without pushes, and the number of those. */
  predicate Amounts(script: seq<Turn>, w: nat, woken: seq<L.Task>, turns: seq<Turn>, pushes: nat)
  {
    WokenFor(script, w) == woken && Unpushed(script) == turns && PushesIn(script) == pushes
  }

  lemma AmountsAdd(a: seq<Turn>, b: seq<Turn>, w: nat, woken: seq<L.Task>, turns: seq<Turn>, p: nat,
                   woken': seq<L.Task>, turns': seq<Turn>, p': nat)
    requires Amounts(a, w, woken, turns, p) && Amounts(b, w, woken', turns', p')
    ensures Amounts(a + b, w, woken + woken', turns + turns', p + p')
  {
    Concatenated(a, b, w);
  }

  lemma LonePush(w: nat)
    ensures Amounts([Push], w, [], [], 1)
  {
    assert [Push][..0] == [];
  }

  /** One event of the pass. */
  lemma OnePart(events: seq<seq<Turn>>, k: nat, w: nat)
    requires k < |events| && NoPush(events[k])
    ensures Amounts(WithPushes(events)[k], w, WokenFor(events[k], w), events[k], if (k + 1) % 128 == 0 then 1 else 0)
  {
    var turns, part := events[k], WithPushes(events)[k];
    NothingToUnpush(turns);
    if (k + 1) % 128 == 0 {
      LonePush(w);
      AmountsAdd([Push], turns, w, [], [], 1, WokenFor(turns, w), turns, 0);
      assert [] + WokenFor(turns, w) == WokenFor(turns, w) && [] + turns == turns;
      assert part == [Push] + turns;
    } else {
      assert part == turns;
    }
  }

  lemma AnotherPush(k: nat)
    ensures k / 128 + (if (k + 1) % 128 == 0 then 1 else 0) == (k + 1) / 128
  {
  }

  predicate NoPushes(events: seq<seq<Turn>>)
  {
    forall k :: 0 <= k < |events| ==> NoPush(events[k])
  }

  /** Part `k` of the pass amounts to event `k`, with one push if it is a 128th. */
  predicate PartFits(part: seq<Turn>, turns: seq<Turn>, k: nat, w: nat)
  {
    Amounts(part, w, WokenFor(turns, w), turns, if (k + 1) % 128 == 0 then 1 else 0)
  }

  lemma OneMorePart(parts: seq<seq<Turn>>, events: seq<seq<Turn>>, k: nat, w: nat, pushes: nat, pushes': nat)
    requires k < |events| == |parts| && PartFits(parts[k], events[k], k, w)
    requires Amounts(Joined(parts, k), w, WokenByEvents(events, w, k), Joined(events, k), pushes)
    requires pushes' == pushes + if (k + 1) % 128 == 0 then 1 else 0
    ensures Amounts(Joined(parts, k + 1), w, WokenByEvents(events, w, k + 1), Joined(events, k + 1), pushes')
  {
    AmountsAdd(Joined(parts, k), parts[k], w, WokenByEvents(events, w, k), Joined(events, k), pushes,
               WokenFor(events[k], w), events[k], if (k + 1) % 128 == 0 then 1 else 0);
  }

  lemma {:induction false} PartsAmount(parts: seq<seq<Turn>>, events: seq<seq<Turn>>, k: nat, w: nat)
    requires k <= |events| == |parts| && forall j :: 0 <= j < |parts| ==> PartFits(parts[j], events[j], j, w)
    ensures Amounts(Joined(parts, k), w, WokenByEvents(events, w, k), Joined(events, k), k / 128)
  {
    if k > 0 {
      PartsAmount(parts, events, k - 1, w);
      AnotherPush(k - 1);
      OneMorePart(parts, events, k - 1, w, (k - 1) / 128, k / 128);
    }
  }

  /** The first `k` events of the pass. */
  lemma FirstParts(events: seq<seq<Turn>>, k: nat, w: nat)
    requires k <= |events| && NoPushes(events)
    ensures Amounts(Joined(WithPushes(events), k), w, WokenByEvents(events, w, k), Joined(events, k), k / 128)
  {
    forall j | 0 <= j < |events|
      ensures PartFits(WithPushes(events)[j], events[j], j, w)
    {
      OnePart(events, j, w);
    }
    PartsAmount(WithPushes(events), events, k, w);
  }

  /** The pass wakes what the events wake, in the same order, and takes what is taken meanwhile: without its
      `push_batch`es it is the events' turns one after the other, and there is one `push_batch` for every 128 events and
      one at the end. */
  lemma PassIsTheEvents(events: seq<seq<Turn>>, w: nat)
    requires NoPushes(events)
    ensures WokenFor(PassScript(events), w) == WokenByEvents(events, w, |events|)
    ensures Unpushed(PassScript(events)) == Joined(events, |events|)
    ensures PushesIn(PassScript(events)) == |events| / 128 + 1
    ensures PassScript(events)[|PassScript(events)| - 1] == Push
  {
    var m := |events|;
    FirstParts(events, m, w);
    LonePush(w);
    var woken, turns := WokenByEvents(events, w, m), Joined(events, m);
    AmountsAdd(Joined(WithPushes(events), m), [Push], w, woken, turns, m / 128, [], [], 1);
    assert woken + [] == woken && turns + [] == turns;
  }

  /** Where event `k` stands in the pass: behind all events before it, and behind `(k + 1) / 128` calls of
      `push_batch`. */
  lemma EventStandsBehind(events: seq<seq<Turn>>, k: nat) returns (before: seq<Turn>, after: seq<Turn>)
    requires k < |events| && NoPushes(events)
    ensures PassScript(events) == before + events[k] + after
    ensures Unpushed(before) == Joined(events, k) && PushesIn(before) == (k + 1) / 128
  {
    before := BeforeEvent(events, k);
    var rest := PartsBehind(WithPushes(events), k + 1, |events|);
    after := rest + [Push];
  }

  lemma BeforeEvent(events: seq<seq<Turn>>, k: nat) returns (before: seq<Turn>)
    requires k < |events| && NoPushes(events)
    ensures Joined(WithPushes(events), k + 1) == before + events[k]
    ensures Unpushed(before) == Joined(events, k) && PushesIn(before) == (k + 1) / 128
  {
    FirstParts(events, k, 0);
    AnotherPush(k);
    var first := Joined(WithPushes(events), k);
    if (k + 1) % 128 == 0 {
      before := first + [Push];
      PushBefore(first, events[k], Joined(events, k), k / 128);
    } else {
      before := first;
    }
  }

  lemma PushBefore(first: seq<Turn>, turns: seq<Turn>, played: seq<Turn>, p: nat)
    requires Unpushed(first) == played && PushesIn(first) == p
    ensures Unpushed(first + [Push]) == played && PushesIn(first + [Push]) == p + 1
    ensures first + ([Push] + turns) == first + [Push] + turns
  {
    LonePush(0);
    AmountsAdd(first, [Push], 0, WokenFor(first, 0), played, p, [], [], 1);
    assert played + [] == played;
  }

  lemma {:induction false} PartsBehind(parts: seq<seq<Turn>>, k: nat, m: nat) returns (after: seq<Turn>)
    requires k <= m <= |parts|
    ensures Joined(parts, m) == Joined(parts, k) + after
    decreases m - k
  {
    if k == m {
      after := [];
    } else {
      after := PartsBehind(parts, k, m - 1);
      after := after + parts[m - 1];
    }
  }

  lemma WakesOfBoth(a: seq<Turn>, b: seq<Turn>)
    ensures Wakes(a + b) <==> Wakes(a) || Wakes(b)
  {
    if Wakes(a) {
      var i :| 0 <= i < |a| && a[i].Wake?;
      assert (a + b)[i].Wake?;
    }
    if Wakes(b) {
      var i :| 0 <= i < |b| && b[i].Wake?;
      assert (a + b)[|a| + i].Wake?;
    }
  }

  lemma {:induction false} FirstWake(events: seq<seq<Turn>>, k: nat)
    requires k <= |events|
    ensures Wakes(Joined(WithPushes(events), k)) <==> exists j :: 0 <= j < k && Wakes(events[j])
  {
    if k > 0 {
      var parts := WithPushes(events);
      FirstWake(events, k - 1);
      WakesOfBoth(Joined(parts, k - 1), parts[k - 1]);
      WakesOfBoth([Push], events[k - 1]);
    }
  }

  /** The pass wakes something exactly if some event does. */
  lemma PassWakesIff(events: seq<seq<Turn>>)
    ensures Wakes(PassScript(events)) <==> exists k :: 0 <= k < |events| && Wakes(events[k])
  {
    FirstWake(events, |events|);
    WakesOfBoth(Joined(WithPushes(events), |events|), [Push]);
  }

  /** What follows from it for the lists. */
  lemma PassServes(c: seq<seq<L.Task>>, n: nat, events: seq<seq<Turn>>, w: nat)
    requires |c| == 2 * n && w < n && AllEmpty(c, n) && NoPushes(events)
    requires AllEmpty(Play(c, n, PassScript(events)), n)
    ensures TakenFrom(c, n, PassScript(events), w) + Play(c, n, PassScript(events))[n + w] ==
            c[n + w] + WokenByEvents(events, w, |events|)
  {
    var script := PassScript(events);
    BatchingKeepsWakeOrder(c, n, script, w);
    PassIsTheEvents(events, w);
    var queue := Play(c, n, script)[n + w];
    assert Play(c, n, script)[w] == [] && c[w] == [];
    assert queue + [] == queue && c[n + w] + [] == c[n + w];
  }

  lemma LastPush(c: seq<seq<L.Task>>, n: nat, script: seq<Turn>)
    requires |c| == 2 * n
    ensures AllEmpty(Play(c, n, script + [Push]), n)
  {
    OneMoreTurn(c, n, script, Push);
    FlushedIsEmpty(Play(c, n, script), n);
  }

  lemma PassServesAll(c: seq<seq<L.Task>>, n: nat, events: seq<seq<Turn>>)
    requires |c| == 2 * n && AllEmpty(c, n) && NoPushes(events)
    requires AllEmpty(Play(c, n, PassScript(events)), n)
    ensures forall w :: 0 <= w < n ==>
              TakenFrom(c, n, PassScript(events), w) + Play(c, n, PassScript(events))[n + w] ==
              c[n + w] + WokenByEvents(events, w, |events|)
  {
    forall w | 0 <= w < n
      ensures TakenFrom(c, n, PassScript(events), w) + Play(c, n, PassScript(events))[n + w] ==
              c[n + w] + WokenByEvents(events, w, |events|)
    {
      PassServes(c, n, events, w);
    }
  }

  /** All that is said of the lists and the bumps behind a pass. */
  lemma PassEnds(c: seq<seq<L.Task>>, n: nat, events: seq<seq<Turn>>)
    requires |c| == 2 * n && AllEmpty(c, n) && NoPushes(events) && CanPlay(c, n, PassScript(events))
    ensures AllEmpty(Play(c, n, PassScript(events)), n)
    ensures Bumps(c, n, PassScript(events)) > 0 <==> exists k :: 0 <= k < |events| && Wakes(events[k])
    ensures forall w :: 0 <= w < n ==>
              TakenFrom(c, n, PassScript(events), w) + Play(c, n, PassScript(events))[n + w] ==
              c[n + w] + WokenByEvents(events, w, |events|)
  {
    LastPush(c, n, Joined(WithPushes(events), |events|));
    WokenIsBumpedOrBatched(c, n, PassScript(events));
    PassWakesIff(events);
    PassServesAll(c, n, events);
  }

  /** The reactor's pass over a batch of events, with its `push_batch` before every 128th event and at the end, while
      workers and thieves take tasks and tasks are woken again. What was taken from a worker's queue and what is in it
      at the end are what was there before and what the events woke for that worker, in wake order; no batch list
      keeps a task when the reactor polls again; and the epoch was bumped exactly if some event woke something. */
  method ReactorPass(ls: seq<L.TaskList>, n: nat, epoch: E.Epoch, events: seq<seq<Turn>>, ghost owner: map<L.Task, nat>)
    returns (ghost owner': map<L.Task, nat>)
    requires |ls| == 2 * n && Sound(ls, owner) && epoch.Valid() && AllEmpty(Contents(ls), n)
    requires CanPlay(Contents(ls), n, PassScript(events))
    requires NoPushes(events) && forall k :: 0 <= k < |events| ==> Known(events[k], owner.Keys)
    modifies ls, owner.Keys`next, epoch
    ensures Sound(ls, owner') && AllEmpty(Contents(ls), n)
    ensures Contents(ls) == Play(old(Contents(ls)), n, PassScript(events))
    ensures forall w :: 0 <= w < n ==>
              TakenFrom(old(Contents(ls)), n, PassScript(events), w) + Contents(ls)[n + w] ==
              old(Contents(ls))[n + w] + WokenByEvents(events, w, |events|)
    ensures epoch.Valid() && epoch.active == old(epoch.active)
    ensures epoch.bumps > old(epoch.bumps) <==> exists k :: 0 <= k < |events| && Wakes(events[k])
  {
    ghost var c, bumps, script := Contents(ls), epoch.bumps, Joined(WithPushes(events), |events|);
    PrefixCanBePlayed(c, n, script, [Push]);
    owner' := Events(ls, n, epoch, WithPushes(events), owner, c, bumps);
    owner' := PlayNext(ls, n, epoch, script, Push, owner', c, bumps);
    PassEnds(c, n, events);
  }
}
