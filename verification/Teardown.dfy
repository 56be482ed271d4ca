/** Teardown: `WorkerGuard::drop` (`yaay-mt-runtime/src/worker_manager.rs`) collects the tasks left in the workers'
    queues, drops each and releases the runtime's reference to it. */
module Teardown {
  import L = TaskList
  import opened Batching

  // ----- the reference counts -----

  /** How many of these wakers, collected by the futures that own them, are for task `t`. */
  function Clones(c: seq<seq<L.Task>>, t: L.Task): nat
  {
    if c == [] then 0 else Clones(c[..|c| - 1], t) + multiset(c[|c| - 1])[t]
  }

  lemma {:induction false} ClonesAfter(c: seq<seq<L.Task>>, i: nat, s: seq<L.Task>, t: L.Task)
    requires i < |c|
    ensures Clones(c[i := s], t) == Clones(c, t) - multiset(c[i])[t] + multiset(s)[t]
  {
    var last := |c| - 1;
    if i < last {
      ClonesAfter(c[..last], i, s, t);
      assert c[i := s][..last] == c[..last][i := s];
    } else {
      assert c[i := s][..last] == c[..last];
    }
  }

  lemma FirstWaker(c: seq<seq<L.Task>>, i: nat, t: L.Task)
    requires i < |c| && c[i] != []
    ensures Clones(c[i := c[i][1..]], t) == Clones(c, t) - if c[i][0] == t then 1 else 0
  {
    ClonesAfter(c, i, c[i][1..], t);
    assert c[i] == [c[i][0]] + c[i][1..];
  }

  /** Task `t` has the references it should have: the runtime's, if it holds it, the wakers inside futures, and
      `outside` others; and its memory is freed exactly when there is none. */
  ghost predicate Exact(t: L.Task, c: seq<seq<L.Task>>, outside: nat)
    reads t`rc, t`held, t`freed
  {
    t.rc == (if t.held then 1 else 0) + Clones(c, t) + outside && t.freed == (t.rc == 0)
  }

  /** All tasks there are, what their futures own, and how many wakers of each there are outside of futures. */
  ghost predicate Balanced(univ: seq<L.Task>, c: seq<seq<L.Task>>, outside: seq<nat>)
    reads univ`rc, univ`held, univ`freed, univ`owned
  {
    && L.Distinct(univ) && |c| == |outside| == |univ|
    && (forall i :: 0 <= i < |univ| ==> univ[i].owned == c[i] && Exact(univ[i], c, outside[i]))
    && Closed(c, univ)
  }

  predicate Closed(c: seq<seq<L.Task>>, univ: seq<L.Task>)
  {
    forall i, k :: 0 <= i < |c| && 0 <= k < |c[i]| ==> c[i][k] in univ
  }

  lemma ClosedAfter(c: seq<seq<L.Task>>, univ: seq<L.Task>, i: nat)
    requires Closed(c, univ) && i < |c| && c[i] != []
    ensures c[i][0] in univ && Closed(c[i := c[i][1..]], univ)
  {
  }

  /** `Task::rc_dec`: whoever takes the last reference frees the memory. */
  method RcDec(task: L.Task)
    requires !task.freed && task.rc > 0
    modifies task`rc, task`freed
    ensures task.rc == old(task.rc) - 1 && task.freed == (old(task.rc) == 1)
  {
    var prev := task.rc;
    task.rc := task.rc - 1;
    if prev == 1 {
      task.freed := true;
    }
  }

  /** A future's destructor drops one of its wakers, of its own task or of another: that may free the task. */
  method DropWaker(task: L.Task, ghost univ: seq<L.Task>, ghost k: nat, ghost c: seq<seq<L.Task>>,
                   ghost outside: seq<nat>)
    requires k < |univ| && univ[k] == task && Balanced(univ, c, outside) && task.owned != []
    modifies task`owned, univ`rc, univ`freed
    ensures Balanced(univ, c[k := c[k][1..]], outside)
  {
    var t := task.owned[0];
    ghost var c' := c[k := c[k][1..]];
    FirstWaker(c, k, t);
    ClosedAfter(c, univ, k);
    task.owned := task.owned[1..];
    RcDec(t);
    forall i | 0 <= i < |univ|
      ensures Exact(univ[i], c', outside[i])
    {
      FirstWaker(c, k, univ[i]);
    }
  }

  /** One turn of the destructor: `rest` is what the future still owns. */
  method DropNext(task: L.Task, ghost univ: seq<L.Task>, ghost k: nat, ghost c: seq<seq<L.Task>>,
                  ghost rest: seq<L.Task>,
                  ghost outside: seq<nat>)
    requires k < |univ| == |c| && univ[k] == task && rest != [] && Balanced(univ, c[k := rest], outside)
    modifies task`owned, univ`rc, univ`freed
    ensures Balanced(univ, c[k := rest[1..]], outside)
  {
    assert c[k := rest][k := rest[1..]] == c[k := rest[1..]];
    DropWaker(task, univ, k, c[k := rest], outside);
  }

  /** The destructor of a future, as far as wakers are concerned. */
  method DropFuture(task: L.Task, ghost univ: seq<L.Task>, ghost k: nat, ghost c: seq<seq<L.Task>>,
                    ghost outside: seq<nat>)
    requires k < |univ| && univ[k] == task && Balanced(univ, c, outside)
    modifies task`owned, univ`rc, univ`freed
    ensures Balanced(univ, c[k := []], outside)
  {
    ghost var rest := c[k];
    assert c == c[k := rest];
    while task.owned != []
      invariant Balanced(univ, c[k := rest], outside)
      decreases |rest|
    {
      DropNext(task, univ, k, c, rest, outside);
      rest := rest[1..];
    }
  }

  /** `Task::drop_in_place`: the future is dropped, and with it the wakers it owns, unless it was before. */
  method DropInPlace(task: L.Task, ghost univ: seq<L.Task>, ghost k: nat, ghost c: seq<seq<L.Task>>,
                     ghost outside: seq<nat>)
    requires k < |univ| && univ[k] == task && Balanced(univ, c, outside)
    requires !task.freed && (task.dropped ==> c[k] == [])
    modifies task`dropped, task`drops, task`owned, univ`rc, univ`freed
    ensures Balanced(univ, c[k := []], outside) && task.dropped
    ensures task.drops == old(task.drops) + if old(task.dropped) then 0 else 1
  {
    var prev := task.dropped;
    task.dropped := true;
    assert c[k] == [] ==> c == c[k := []];
    if !prev {
      task.drops := task.drops + 1;
      DropFuture(task, univ, k, c, outside);
    }
  }

  function Concat(c: seq<seq<L.Task>>): seq<L.Task>
  {
    if c == [] then [] else Concat(c[..|c| - 1]) + c[|c| - 1]
  }

  lemma {:induction false} ConcatHolds(c: seq<seq<L.Task>>, t: L.Task)
    ensures t in Concat(c) <==> exists i :: 0 <= i < |c| && t in c[i]
  {
    if c != [] {
      ConcatHolds(c[..|c| - 1], t);
      if i :| 0 <= i < |c| && t in c[i] {
        assert i < |c| - 1 ==> c[..|c| - 1][i] == c[i];
      }
    }
  }

  /** The first `w` queues are emptied into the list behind them. */
  function GatheredUpTo(c: seq<seq<L.Task>>, w: nat): seq<seq<L.Task>>
    requires w <= |c|
  {
    seq(|c|, i requires 0 <= i < |c| => if i < w then [] else c[i]) + [Concat(c[..w])]
  }

  lemma GatherOneMore(c: seq<seq<L.Task>>, w: nat)
    requires w < |c|
    ensures Moved(GatheredUpTo(c, w), w, |c|) == GatheredUpTo(c, w + 1)
  {
    assert c[..w + 1][..w] == c[..w];
    assert GatheredUpTo(c, w)[w] == c[w];
  }

  /** One worker's turn: its tasks move to the back of the collecting list. */
  method GatherOne(ls: seq<L.TaskList>, w: nat, ghost c: seq<seq<L.Task>>, ghost owner: map<L.Task, nat>)
    returns (ghost owner': map<L.Task, nat>)
    requires |ls| == |c| + 1 && w < |c| && Sound(ls, owner) && Contents(ls) == GatheredUpTo(c, w)
    modifies ls, owner.Keys`next
    ensures Sound(ls, owner') && owner'.Keys == owner.Keys && Contents(ls) == GatheredUpTo(c, w + 1)
  {
    GatherOneMore(c, w);
    owner' := Reassign(owner, Contents(ls)[w], |ls| - 1);
    var _ := MoveList(ls, w, |ls| - 1, owner);
  }

  /** The collecting loop: afterwards the last list holds everything, in queue order. */
  method Gather(ls: seq<L.TaskList>, ghost c: seq<seq<L.Task>>, ghost owner: map<L.Task, nat>)
    returns (ghost owner': map<L.Task, nat>)
    requires |ls| == |c| + 1 && Sound(ls, owner) && Contents(ls) == GatheredUpTo(c, 0)
    modifies ls, owner.Keys`next
    ensures Sound(ls, owner') && owner'.Keys == owner.Keys && Contents(ls) == GatheredUpTo(c, |c|)
  {
    owner' := owner;
    for w := 0 to |ls| - 1
      invariant Sound(ls, owner') && owner'.Keys == owner.Keys && Contents(ls) == GatheredUpTo(c, w)
    {
      owner' := GatherOne(ls, w, c, owner');
    }
  }

  lemma WithCollector(queues: seq<L.TaskList>, tasks: L.TaskList, owner: map<L.Task, nat>)
    requires Sound(queues, owner) && tasks !in queues && tasks.Valid() && tasks.elems == []
    ensures Sound(queues + [tasks], owner) && Contents(queues + [tasks]) == GatheredUpTo(Contents(queues), 0)
  {
  }

  /** The first half: everything left in the queues is now in one new list. */
  method CollectAll(queues: seq<L.TaskList>, ghost owner: map<L.Task, nat>) returns (tasks: L.TaskList)
    requires Sound(queues, owner)
    modifies queues, owner.Keys`next
    ensures fresh(tasks) && tasks.Valid() && tasks.elems == Concat(old(Contents(queues)))
    ensures forall i :: 0 <= i < |tasks.elems| ==> tasks.elems[i] in owner
    ensures forall i :: 0 <= i < |queues| ==> queues[i].elems == []
  {
    ghost var c := Contents(queues);
    tasks := new L.TaskList();
    var ls := queues + [tasks];
    WithCollector(queues, tasks, owner);
    ghost var owner' := Gather(ls, c, owner);
    Collected(ls, c, owner', |queues|);
    assert tasks == ls[|queues|];
    assert forall i :: 0 <= i < |queues| ==> queues[i] == ls[i];
  }

  lemma Collected(ls: seq<L.TaskList>, c: seq<seq<L.Task>>, owner: map<L.Task, nat>, m: nat)
    requires |c| == m && |ls| == m + 1 && Sound(ls, owner) && Contents(ls) == GatheredUpTo(c, m)
    ensures ls[m].Valid() && ls[m].elems == Concat(c)
    ensures forall i :: 0 <= i < |ls[m].elems| ==> ls[m].elems[i] in owner
    ensures forall i :: 0 <= i < m ==> ls[i].elems == []
  {
    assert c[..m] == c;
    assert Contents(ls)[m] == Concat(c);
    forall i | 0 <= i < |ls[m].elems|
      ensures ls[m].elems[i] in owner
    {
      assert Contents(ls)[m][i] in owner;
    }
    forall i | 0 <= i < m
      ensures ls[i].elems == []
    {
      assert Contents(ls)[i] == [];
    }
  }

  // ----- the final loop -----

  /** What the final loop does to a task: the future is dropped once and owns nothing, and the runtime's reference is
      gone. */
  datatype Account = Account(dropped: bool, drops: nat, held: bool)

  ghost function AccountOf(t: L.Task): Account
    reads t`dropped, t`drops, t`held
  {
    Account(t.dropped, t.drops, t.held)
  }

  ghost function Released(a: Account): Account
  {
    Account(true, a.drops + if a.dropped then 0 else 1, false)
  }

  /** The runtime's reference goes. */
  method ReleaseReference(task: L.Task, ghost univ: seq<L.Task>, ghost k: nat, ghost c: seq<seq<L.Task>>,
                          ghost outside: seq<nat>)
    requires k < |univ| && univ[k] == task && Balanced(univ, c, outside) && task.held
    modifies task`held, task`rc, task`freed
    ensures Balanced(univ, c, outside) && !task.held && task.freed == (old(task.rc) == 1)
  {
    RcDec(task);
    task.held := false;
  }

  /** The body of the final loop. It warns about a memory leak exactly when it does not free the task. */
  method Release(task: L.Task, ghost univ: seq<L.Task>, ghost k: nat, ghost c: seq<seq<L.Task>>,
                 ghost outside: seq<nat>)
    returns (leak: bool)
    requires k < |univ| && univ[k] == task && Balanced(univ, c, outside) && task.held && (task.dropped ==> c[k] == [])
    modifies task`dropped, task`drops, task`owned, task`held, univ`rc, univ`freed
    ensures Balanced(univ, c[k := []], outside)
    ensures AccountOf(task) == Released(old(AccountOf(task))) && leak == !task.freed
  {
    assert task.rc > 0;
    DropInPlace(task, univ, k, c, outside);
    leak := task.rc != 1;
    ReleaseReference(task, univ, k, c[k := []], outside);
  }

  /** What the futures own when those of `done` are dropped. */
  function Without(c: seq<seq<L.Task>>, univ: seq<L.Task>, done: seq<L.Task>): (r: seq<seq<L.Task>>)
    requires |c| == |univ|
    ensures |r| == |c|
  {
    seq(|c|, k requires 0 <= k < |c| => if univ[k] in done then [] else c[k])
  }

  lemma WithoutOneMore(c: seq<seq<L.Task>>, univ: seq<L.Task>, all: seq<L.Task>, i: nat, k: nat)
    requires |c| == |univ| && L.Distinct(univ) && i < |all| && k < |univ| && univ[k] == all[i]
    ensures Without(c, univ, all[..i])[k := []] == Without(c, univ, all[..i + 1])
  {
  }

  /** A dropped future owns no waker. */
  ghost predicate Tidy(univ: seq<L.Task>)
    reads univ`dropped, univ`owned
  {
    forall k :: 0 <= k < |univ| && univ[k].dropped ==> univ[k].owned == []
  }

  /** How far the final loop is: the tasks of `done` are released, all others are as they were. */
  ghost predicate Progress(univ: seq<L.Task>, was: seq<Account>, done: seq<L.Task>)
    reads univ`dropped, univ`drops, univ`held
  {
    && |was| == |univ|
    && forall k :: 0 <= k < |univ| ==> AccountOf(univ[k]) == if univ[k] in done then Released(was[k]) else was[k]
  }

  /** The state of the final loop: `c` is what the futures owned at first. */
  ghost predicate Ledger(univ: seq<L.Task>, c: seq<seq<L.Task>>, outside: seq<nat>, was: seq<Account>,
                         done: seq<L.Task>)
    reads univ`rc, univ`held, univ`freed, univ`owned, univ`dropped, univ`drops
  {
    |c| == |univ| && Balanced(univ, Without(c, univ, done), outside) && Tidy(univ) && Progress(univ, was, done)
  }

  /** The tasks in the list are held by the runtime when the loop begins. */
  predicate AllHeld(univ: seq<L.Task>, was: seq<Account>, all: seq<L.Task>)
  {
    && |was| == |univ|
    && (forall j :: 0 <= j < |all| ==> all[j] in univ)
    && (forall k :: 0 <= k < |univ| && univ[k] in all ==> was[k].held)
  }

  /** A task that the runtime still holds is not freed, whatever the destructors of others did. */
  lemma WaitingIsLive(univ: seq<L.Task>, c: seq<seq<L.Task>>, outside: seq<nat>, was: seq<Account>, all: seq<L.Task>,
                      i: nat, j: nat)
    requires L.Distinct(all) && AllHeld(univ, was, all) && i <= j < |all| && Ledger(univ, c, outside, was, all[..i])
    ensures !all[j].freed && all[j].held
  {
  }

  lemma WaitingAreLive(univ: seq<L.Task>, c: seq<seq<L.Task>>, outside: seq<nat>, was: seq<Account>, all: seq<L.Task>,
                       i: nat)
    requires L.Distinct(all) && AllHeld(univ, was, all) && i <= |all| && Ledger(univ, c, outside, was, all[..i])
    ensures L.Live(all[i..])
  {
  }

  /** The release of the `i`th task. */
  method ReleaseOne(task: L.Task, ghost univ: seq<L.Task>, ghost c: seq<seq<L.Task>>, ghost outside: seq<nat>,
                    ghost was: seq<Account>, ghost all: seq<L.Task>, ghost i: nat)
    requires i < |all| && task == all[i] && L.Distinct(all) && AllHeld(univ, was, all)
    requires Ledger(univ, c, outside, was, all[..i])
    modifies task`dropped, task`drops, task`owned, task`held, univ`rc, univ`freed
    ensures Ledger(univ, c, outside, was, all[..i + 1])
  {
    WaitingIsLive(univ, c, outside, was, all, i, i);
    ghost var k :| 0 <= k < |univ| && univ[k] == task;
    ghost var c' := Without(c, univ, all[..i]);
    WithoutOneMore(c, univ, all, i, k);
    assert all[..i + 1] == all[..i] + [task];
    assert task !in all[..i] && AccountOf(task) == was[k] && c'[k := []][k] == [];
    var _ := Release(task, univ, k, c', outside);
    forall j | 0 <= j < |univ|
      ensures AccountOf(univ[j]) == if univ[j] in all[..i + 1] then Released(was[j]) else was[j]
      ensures univ[j].dropped ==> univ[j].owned == []
    {
      assert j != k ==> univ[j] != task;
    }
  }

  method PopWaiting(tasks: L.TaskList, ghost all: seq<L.Task>, ghost i: nat) returns (task: L.Task?)
    requires tasks.Valid() && i <= |all| && tasks.elems == all[i..] && L.Live(all[i..])
    modifies tasks
    ensures tasks.Valid() && (i == |all| ==> task == null && tasks.elems == [])
    ensures i < |all| ==> task == all[i] && tasks.elems == all[i + 1..]
  {
    task := tasks.PopFront();
  }

  /** One round of the final loop: the front task is popped and released. */
  method ReleaseFront(tasks: L.TaskList, ghost univ: seq<L.Task>, ghost c: seq<seq<L.Task>>, ghost outside: seq<nat>,
                      ghost was: seq<Account>, ghost all: seq<L.Task>, ghost i: nat)
    returns (more: bool)
    requires tasks.Valid() && i <= |all| && tasks.elems == all[i..] && L.Distinct(all) && AllHeld(univ, was, all)
    requires Ledger(univ, c, outside, was, all[..i])
    modifies tasks, all`dropped, all`drops, all`owned, all`held, univ`rc, univ`freed
    ensures more == (i < |all|) && tasks.Valid() && tasks.elems == (if more then all[i + 1..] else [])
    ensures Ledger(univ, c, outside, was, all[..if more then i + 1 else i])
  {
    WaitingAreLive(univ, c, outside, was, all, i);
    var task := PopWaiting(tasks, all, i);
    more := task != null;
    if more {
      ReleaseOne(task, univ, c, outside, was, all, i);
    }
  }

  /** The final loop: each task is popped, dropped and released, exactly once and in list order; the iteration reads
      no node that is freed, although the destructors free nodes. */
  method ReleaseAll(tasks: L.TaskList, ghost univ: seq<L.Task>, ghost c: seq<seq<L.Task>>, ghost outside: seq<nat>,
                    ghost was: seq<Account>, ghost all: seq<L.Task>)
    requires tasks.Valid() && all == tasks.elems && AllHeld(univ, was, all) && Ledger(univ, c, outside, was, [])
    modifies tasks, all`dropped, all`drops, all`owned, all`held, univ`rc, univ`freed
    ensures tasks.Valid() && tasks.elems == [] && Ledger(univ, c, outside, was, all)
  {
    ghost var i := 0;
    var more := true;
    assert all[..0] == [];
    while more
      invariant tasks.Valid() && i <= |all| && tasks.elems == all[i..] && (!more ==> i == |all|)
      invariant Ledger(univ, c, outside, was, all[..i])
      decreases |all| - i, more
    {
      more := ReleaseFront(tasks, univ, c, outside, was, all, i);
      i := if more then i + 1 else i;
    }
    assert all[..i] == all;
  }

  /** What the loop leaves of a task that was in the list: its future is dropped, and owns no waker; the runtime's
      reference is gone; what is left of its count are the wakers outside of futures and those in futures that were
      not in the list; and it is freed exactly if there are none. The others are as they were, but for references
      dropped with futures. */
  ghost predicate Outcome(univ: seq<L.Task>, c: seq<seq<L.Task>>, outside: seq<nat>, was: seq<Account>,
                          order: seq<L.Task>)
    reads univ`rc, univ`held, univ`freed, univ`owned, univ`dropped, univ`drops
  {
    && |c| == |outside| == |was| == |univ|
    && forall k :: 0 <= k < |univ| ==>
         && AccountOf(univ[k]) == (if univ[k] in order then Released(was[k]) else was[k])
         && univ[k].owned == (if univ[k] in order then [] else c[k])
         && univ[k].rc == (if univ[k].held then 1 else 0) + Clones(Without(c, univ, order), univ[k]) + outside[k]
         && univ[k].freed == (univ[k].rc == 0)
  }

  lemma LedgerIsOutcome(univ: seq<L.Task>, c: seq<seq<L.Task>>, outside: seq<nat>, was: seq<Account>,
                        order: seq<L.Task>)
    requires Ledger(univ, c, outside, was, order)
    ensures Outcome(univ, c, outside, was, order)
  {
  }

  lemma HeldAtFirst(univ: seq<L.Task>, was: seq<Account>, owner: map<L.Task, nat>, order: seq<L.Task>)
    requires Progress(univ, was, []) && (forall i :: 0 <= i < |order| ==> order[i] in owner)
    requires forall t :: t in owner ==> t in univ && t.held
    ensures AllHeld(univ, was, order)
  {
  }

  /** The second half: everything in the collected list is released. */
  method ReleaseCollected(tasks: L.TaskList, ghost owner: map<L.Task, nat>, ghost univ: seq<L.Task>,
                          ghost c: seq<seq<L.Task>>, ghost outside: seq<nat>, ghost was: seq<Account>)
    requires tasks.Valid() && Ledger(univ, c, outside, was, [])
    requires forall i :: 0 <= i < |tasks.elems| ==> tasks.elems[i] in owner
    requires forall t :: t in owner ==> t in univ && t.held
    modifies tasks, owner.Keys`dropped, owner.Keys`drops, owner.Keys`owned, owner.Keys`held, univ`rc, univ`freed
    ensures Outcome(univ, c, outside, was, old(tasks.elems))
  {
    ghost var order := tasks.elems;
    HeldAtFirst(univ, was, owner, order);
    ReleaseAll(tasks, univ, c, outside, was, order);
    LedgerIsOutcome(univ, c, outside, was, order);
  }

  /** Collecting touches no count. */
  method CollectUncounted(queues: seq<L.TaskList>, ghost owner: map<L.Task, nat>, ghost univ: seq<L.Task>,
                          ghost c: seq<seq<L.Task>>, ghost outside: seq<nat>, ghost was: seq<Account>)
    returns (tasks: L.TaskList)
    requires Sound(queues, owner) && Ledger(univ, c, outside, was, [])
    modifies queues, owner.Keys`next
    ensures fresh(tasks) && tasks.Valid() && tasks.elems == Concat(old(Contents(queues)))
    ensures forall i :: 0 <= i < |tasks.elems| ==> tasks.elems[i] in owner
    ensures forall i :: 0 <= i < |queues| ==> queues[i].elems == []
    ensures Ledger(univ, c, outside, was, [])
  {
    tasks := CollectAll(queues, owner);
  }

  /** `WorkerGuard::drop` on the workers' queues, where `univ` are all tasks that exist: everything left in the queues
      is released exactly once, queue after queue and in queue order. `TaskLife` proves that queued tasks are held. */
  method DropWorkers(queues: seq<L.TaskList>, ghost owner: map<L.Task, nat>, ghost univ: seq<L.Task>,
                     ghost c: seq<seq<L.Task>>, ghost outside: seq<nat>, ghost was: seq<Account>)
    returns (ghost order: seq<L.Task>)
    requires Sound(queues, owner) && Ledger(univ, c, outside, was, [])
    requires forall t :: t in owner ==> t in univ && t.held
    modifies queues, owner.Keys, univ`rc, univ`freed
    ensures order == Concat(old(Contents(queues))) && L.Distinct(order)
    ensures forall i :: 0 <= i < |queues| ==> queues[i].elems == []
    ensures Outcome(univ, c, outside, was, order)
  {
    var tasks := CollectUncounted(queues, owner, univ, c, outside, was);
    order := tasks.elems;
    ReleaseCollected(tasks, owner, univ, c, outside, was);
  }
}
