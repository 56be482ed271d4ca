/** The intrusive list of `yaay-mt-runtime/src/task_list.rs`: nodes are tasks, linked through their own `next` field. */
module TaskList {

  /** The part of a `Task` that lists, teardown and stealing work on. `owned` are the tasks to which the future owns
      wakers, one entry for each waker, its own task's among them. `freed`, `drops` and `held` record whether its
      memory was freed, how often its future was dropped, and whether the runtime still has its reference. */
  class Task {
    var next: Task?
    var workerId: nat
    var dropped: bool
    var rc: nat
    var owned: seq<Task>
    ghost var freed: bool
    ghost var drops: nat
    ghost var held: bool

    /** `get_next`: reads the task's memory. */
    method GetNext() returns (t: Task?)
      requires !freed
      ensures t == next
    {
      t := next;
    }

    /** `set_next`: writes the task's memory. */
    method SetNext(t: Task?)
      requires !freed
      modifies this`next
      ensures next == t
    {
      next := t;
    }
  }

  predicate Distinct(s: seq<Task>)
  {
    forall i, j :: 0 <= i < j < |s| ==> s[i] != s[j]
  }

  predicate Disjoint(s: seq<Task>, t: seq<Task>)
  {
    forall i, j :: 0 <= i < |s| && 0 <= j < |t| ==> s[i] != t[j]
  }

  ghost predicate Live(s: seq<Task>)
    reads s`freed
  {
    forall i :: 0 <= i < |s| ==> !s[i].freed
  }

  /** All elements but the last: the nodes whose `next` field means something. */
  function Linked(s: seq<Task>): seq<Task>
  {
    if s == [] then [] else s[..|s| - 1]
  }

  class TaskList {
    var head: Task?
    var tail: Task?
    ghost var elems: seq<Task>

    /** The list holds `elems`. By its frame, this says nothing about the last node's `next` field: that field is never
        cleared, and may still point into a list the node was in before. */
    ghost predicate Valid()
      reads this, Linked(elems)`next
    {
      && Distinct(elems)
      && (elems == [] ==> head == null && tail == null)
      && (elems != [] ==> head == elems[0] && tail == elems[|elems| - 1])
      && forall i :: 0 <= i < |elems| - 1 ==> Linked(elems)[i].next == elems[i + 1]
    }

    /** `TaskList::new`. */
    constructor ()
      ensures Valid() && elems == []
    {
      head, tail, elems := null, null, [];
    }

    /** The one-element list that `push_back` and `push_front` build. */
    constructor Single(task: Task)
      ensures Valid() && elems == [task]
    {
      head, tail, elems := task, task, [task];
    }

    /** `push_back_batch`: appends another non-empty list, which is used up. */
    method PushBackBatch(tasks: TaskList)
      requires Valid() && tasks.Valid() && tasks != this
      requires tasks.elems != [] && Disjoint(elems, tasks.elems) && Live(elems)
      modifies this, (if tail == null then {} else {tail})`next
      ensures Valid() && elems == old(elems) + tasks.elems
      ensures tasks.Valid() && tasks.elems == old(tasks.elems)
    {
      ghost var before, n := elems, |elems|;
      if tail == null {
        head := tasks.head;
      } else {
        tail.SetNext(tasks.head);
      }
      tail := tasks.tail;
      elems := elems + tasks.elems;
      forall i | 0 <= i < |elems| - 1
        ensures Linked(elems)[i].next == elems[i + 1]
      {
        if i < n - 1 {
          assert Linked(elems)[i] == Linked(before)[i];
        } else if i >= n {
          assert Linked(elems)[i] == Linked(tasks.elems)[i - n];
        }
      }
    }

    /** `push_back`. */
    method PushBack(task: Task)
      requires Valid() && Live(elems) && task !in elems
      modifies this, (if tail == null then {} else {tail})`next
      ensures Valid() && elems == old(elems) + [task]
    {
      var single := new TaskList.Single(task);
      PushBackBatch(single);
    }

    /** `push_front_batch`: puts another non-empty list, which is used up, in front. */
    method PushFrontBatch(tasks: TaskList)
      requires Valid() && tasks.Valid() && tasks != this
      requires tasks.elems != [] && Disjoint(elems, tasks.elems) && Live(tasks.elems)
      modifies this, tasks.tail`next
      ensures Valid() && elems == tasks.elems + old(elems)
      ensures tasks.Valid() && tasks.elems == old(tasks.elems)
    {
      ghost var before, n := elems, |tasks.elems|;
      if head == null {
        tail := tasks.tail;
      } else {
        tasks.tail.SetNext(head);
      }
      head := tasks.head;
      elems := tasks.elems + elems;
      forall i | 0 <= i < |elems| - 1
        ensures Linked(elems)[i].next == elems[i + 1]
      {
        if i < n - 1 {
          assert Linked(elems)[i] == Linked(tasks.elems)[i];
        } else if i >= n {
          assert Linked(elems)[i] == Linked(before)[i - n];
        }
      }
    }

    /** `push_front`. */
    method PushFront(task: Task)
      requires Valid() && !task.freed && task !in elems
      modifies this, task`next
      ensures Valid() && elems == [task] + old(elems)
    {
      var single := new TaskList.Single(task);
      PushFrontBatch(single);
    }

    /** `pop_front`. With one element left it does not look at that element's `next`. */
    method PopFront() returns (task: Task?)
      requires Valid() && Live(elems)
      modifies this
      ensures Valid()
      ensures old(elems) == [] ==> task == null && elems == []
      ensures old(elems) != [] ==> task == old(elems)[0] && elems == old(elems)[1..]
    {
      if head == null {
        task := null;
      } else {
        task := head;
        if head == tail {
          head, tail := null, null;
        } else {
          assert Linked(elems)[0] == head;
          head := task.GetNext();
        }
        ghost var before := elems;
        elems := elems[1..];
        assert forall i :: 0 <= i < |elems| - 1 ==> Linked(elems)[i] == Linked(before)[i + 1];
      }
    }

    /** `is_empty`. */
    method IsEmpty() returns (empty: bool)
      requires Valid()
      ensures empty <==> elems == []
    {
      empty := head == null;
    }

    /** `pop_all`: the list's content moves to a new list. */
    method PopAll() returns (all: TaskList)
      requires Valid()
      modifies this
      ensures Valid() && elems == []
      ensures fresh(all) && all.Valid() && all.elems == old(elems)
    {
      all := new TaskList();
      all.head, all.tail, all.elems := head, tail, elems;
      head, tail, elems := null, null, [];
    }
  }
}
