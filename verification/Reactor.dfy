/** One reactor's slots as a state machine: registration and deletion from any thread, and the event loop, over the
    slab of slots (`yaay-mio/src/shared.rs`, `container.rs`, `dispatcher.rs`).

    The `dispatchers` lock is held by the reactor while it goes through a batch of events, and otherwise for one step.
    `broken` becomes true where the source would panic, index a vacant slot, or use freed memory: `NeverBroken` proves
    that it never does. Names of cells and dispatchers are never reused; keys are, as the slab hands them out again.
    The record of which registration a slot or an event belongs to, `removals` and `log` only record history. */
module Reactor {
  import opened Options

  datatype Side = Readable | Writable

  /** A slab slot: the two dispatcher pointers, and the registration it was inserted for. */
  datatype Slot = Slot(readable: Option<nat>, writable: Option<nat>, reg: nat)

  /** A cell's way: slot inserted, registered with the poll, deregistered, key queued for removal, key removed. */
  datatype Phase = Inserted | Registered | Deregistered | Retired | Removed

  datatype Cell = Cell(key: nat, phase: Phase, removals: nat)

  /** A `DispatcherInner`. */
  datatype Inner = Inner(reg: nat, side: Side, freed: bool)

  /** The `MIO` on one side of a cell: dispatcher allocated, linked into the slot, about to be unlinked, unlinked. */
  datatype Mio = Creating(p: nat) | Live(p: nat) | Deleting(p: nat) | Unlinked(p: nat)

  /** An event of a batch, with the registration that produced it. */
  datatype Event = Event(key: nat, reg: nat, readable: bool, writable: bool)

  datatype Loop =
    | Poll
    | Lock(batch: seq<Event>)
    | Deliver(batch: seq<Event>, i: nat)   // the `dispatchers` lock is held
    | Drain                                // about to pop a deferred key
    | Remove(key: nat)                     // about to remove it from the slab

  /** `log` are the dispatchers notified since the reactor last took its lock for a batch. */
  datatype State = State(
    slab: map<nat, Slot>,
    deferred: seq<nat>,
    cells: map<nat, Cell>,
    inners: map<nat, Inner>,
    mios: map<(nat, Side), Mio>,
    loop: Loop,
    log: seq<nat>,
    broken: bool)

  datatype Action =
    | Insert(reg: nat, key: nat) | Register(reg: nat)
    | New(reg: nat, side: Side, p: nat) | Link(reg: nat, side: Side)
    | Delete(reg: nat, side: Side) | Unlink(reg: nat, side: Side) | Free(reg: nat, side: Side)
    | Deregister(reg: nat) | Retire(reg: nat)
    | GetBatch(batch: seq<Event>) | TakeLock | Dispatch | DropLock | PopKey | RemoveKey

  predicate LockFree(s: State)
  {
    !s.loop.Deliver?
  }

  predicate MioIs(s: State, reg: nat, side: Side, mio: Mio)
  {
    (reg, side) in s.mios && s.mios[(reg, side)] == mio
  }

  predicate Enabled(s: State, a: Action)
  {
    match a
    case Insert(reg, key) => reg !in s.cells && key !in s.slab && LockFree(s)
    case Register(reg) => reg in s.cells && s.cells[reg].phase.Inserted?
    // An `MIO` borrows its handle mutably: at most one per side, and only while the cell lives.
    case New(reg, side, p) =>
      reg in s.cells && s.cells[reg].phase.Registered? && (reg, side) !in s.mios && p !in s.inners
    case Link(reg, side) => (reg, side) in s.mios && s.mios[(reg, side)].Creating? && reg in s.cells && LockFree(s)
    case Delete(reg, side) => (reg, side) in s.mios && s.mios[(reg, side)].Live?
    case Unlink(reg, side) => (reg, side) in s.mios && s.mios[(reg, side)].Deleting? && reg in s.cells && LockFree(s)
    case Free(reg, side) => (reg, side) in s.mios && s.mios[(reg, side)].Unlinked? && s.mios[(reg, side)].p in s.inners
    // A cell is dropped when no handle, and so no `MIO`, is left.
    case Deregister(reg) =>
      reg in s.cells && s.cells[reg].phase.Registered? && (reg, Readable) !in s.mios && (reg, Writable) !in s.mios
    case Retire(reg) => reg in s.cells && s.cells[reg].phase.Deregistered? && LockFree(s)
    // A poll returns events of sources that are registered at that moment.
    case GetBatch(batch) =>
      s.loop.Poll? &&
      forall i :: 0 <= i < |batch| ==>
        batch[i].reg in s.cells && s.cells[batch[i].reg].phase.Registered? && s.cells[batch[i].reg].key == batch[i].key
    case TakeLock => s.loop.Lock?
    case Dispatch => s.loop.Deliver? && s.loop.i < |s.loop.batch|
    case DropLock => s.loop.Deliver? && s.loop.i >= |s.loop.batch|
    case PopKey => s.loop.Drain?
    case RemoveKey => s.loop.Remove?
  }

  function Pointer(slot: Slot, side: Side): Option<nat>
  {
    if side.Readable? then slot.readable else slot.writable
  }

  function WithPointer(slot: Slot, side: Side, pointer: Option<nat>): Slot
  {
    if side.Readable? then slot.(readable := pointer) else slot.(writable := pointer)
  }

  /** `notify` through a slot pointer is sound: the pointer is null, or points to memory that is not freed. */
  predicate Sound(s: State, pointer: Option<nat>)
  {
    pointer.None? || (pointer.value in s.inners && !s.inners[pointer.value].freed)
  }

  /** What is called behind a pointer. */
  function Called(pointer: Option<nat>): seq<nat>
  {
    if pointer.Some? then [pointer.value] else []
  }

  function Break(s: State): State
  {
    s.(broken := true)
  }

  /** `del` looks for itself behind the readable, then behind the writable pointer; neither is `unreachable!()`. */
  function Unlinking(s: State, key: nat, p: nat): State
    requires key in s.slab
  {
    var slot := s.slab[key];
    if slot.readable == Some(p) then s.(slab := s.slab[key := slot.(readable := None)])
    else if slot.writable == Some(p) then s.(slab := s.slab[key := slot.(writable := None)])
    else Break(s)
  }

  function Next(s: State, a: Action): State
    requires Enabled(s, a)
  {
    match a
    case Insert(reg, key) =>
      s.(slab := s.slab[key := Slot(None, None, reg)], cells := s.cells[reg := Cell(key, Inserted, 0)])
    case Register(reg) => s.(cells := s.cells[reg := s.cells[reg].(phase := Registered)])
    case New(reg, side, p) =>
      s.(inners := s.inners[p := Inner(reg, side, false)], mios := s.mios[(reg, side) := Creating(p)])
    case Link(reg, side) =>
      var key, p := s.cells[reg].key, s.mios[(reg, side)].p;
      if key !in s.slab || Pointer(s.slab[key], side) != None then Break(s)
      else s.(slab := s.slab[key := WithPointer(s.slab[key], side, Some(p))], mios := s.mios[(reg, side) := Live(p)])
    case Delete(reg, side) => s.(mios := s.mios[(reg, side) := Deleting(s.mios[(reg, side)].p)])
    case Unlink(reg, side) =>
      var key, p := s.cells[reg].key, s.mios[(reg, side)].p;
      if key !in s.slab then Break(s)
      else Unlinking(s, key, p).(mios := s.mios[(reg, side) := Unlinked(p)])
    case Free(reg, side) =>
      var p := s.mios[(reg, side)].p;
      if s.inners[p].freed then Break(s)
      else s.(inners := s.inners[p := s.inners[p].(freed := true)], mios := s.mios - {(reg, side)})
    case Deregister(reg) => s.(cells := s.cells[reg := s.cells[reg].(phase := Deregistered)])
    case Retire(reg) =>
      var key := s.cells[reg].key;
      if key !in s.slab || s.slab[key].readable != None || s.slab[key].writable != None then Break(s)
      else s.(deferred := s.deferred + [key], cells := s.cells[reg := s.cells[reg].(phase := Retired)])
    case GetBatch(batch) => s.(loop := Lock(batch))
    case TakeLock => s.(loop := Deliver(s.loop.batch, 0), log := [])
    case Dispatch =>
      var event := s.loop.batch[s.loop.i];
      var s' := s.(loop := Deliver(s.loop.batch, s.loop.i + 1));
      if event.key !in s.slab then Break(s')
      else
        var readable := if event.readable then s.slab[event.key].readable else None;
        var writable := if event.writable then s.slab[event.key].writable else None;
        if !Sound(s, readable) || !Sound(s, writable) then Break(s')
        else s'.(log := s.log + Called(readable) + Called(writable))
    case DropLock => s.(loop := Drain)
    case PopKey =>
      if s.deferred == [] then s.(loop := Poll)
      else s.(deferred := s.deferred[..|s.deferred| - 1], loop := Remove(s.deferred[|s.deferred| - 1]))
    case RemoveKey =>
      var key := s.loop.key;
      if key !in s.slab then Break(s)
      else
        var reg := s.slab[key].reg;
        s.(slab := s.slab - {key}, loop := Drain,
           cells := if reg !in s.cells then s.cells
                    else s.cells[reg := s.cells[reg].(phase := Removed, removals := s.cells[reg].removals + 1)])
  }

  function Start(): State
  {
    State(map[], [], map[], map[], map[], Poll, [], false)
  }

  predicate Step(s: State, a: Action, s': State)
  {
    Enabled(s, a) && s' == Next(s, a)
  }

  /** `path` goes through the states of a run that takes the steps of `trace`. */
  predicate IsRun(path: seq<State>, trace: seq<Action>)
  {
    && |path| == |trace| + 1
    && forall i {:trigger trace[i]} :: 0 <= i < |trace| ==> Step(path[i], trace[i], path[i + 1])
  }

  ghost predicate Reachable(s: State)
  {
    exists path, trace :: IsRun(path, trace) && path[0] == Start() && path[|trace|] == s
  }

  // ----- the invariant -----

  /** The key waits in the deferred list, or is in the reactor's hands. */
  predicate AwaitsRemoval(s: State, key: nat)
  {
    key in s.deferred || (s.loop.Remove? && s.loop.key == key)
  }

  /** A registration owns its slot until the reactor removes the key, which it does once. */
  predicate CellOk(s: State, reg: nat)
    requires reg in s.cells
  {
    var cell := s.cells[reg];
    && cell.removals == (if cell.phase.Removed? then 1 else 0)
    && (!cell.phase.Removed? ==> cell.key in s.slab && s.slab[cell.key].reg == reg)
    && (cell.phase.Retired? ==> AwaitsRemoval(s, cell.key))
  }

  /** A slot's pointers are exactly the linked dispatchers of its registration. */
  predicate PointerOk(s: State, reg: nat, side: Side, pointer: Option<nat>)
  {
    if pointer.None? then (reg, side) in s.mios ==> s.mios[(reg, side)].Creating? || s.mios[(reg, side)].Unlinked?
    else MioIs(s, reg, side, Live(pointer.value)) || MioIs(s, reg, side, Deleting(pointer.value))
  }

  predicate SlotOk(s: State, key: nat)
    requires key in s.slab
  {
    var slot := s.slab[key];
    && slot.reg in s.cells && s.cells[slot.reg].key == key && !s.cells[slot.reg].phase.Removed?
    && PointerOk(s, slot.reg, Readable, slot.readable)
    && PointerOk(s, slot.reg, Writable, slot.writable)
  }

  /** A live `MIO` has its dispatcher to itself, and its cell is registered. */
  predicate MioOk(s: State, reg: nat, side: Side)
    requires (reg, side) in s.mios
  {
    var p := s.mios[(reg, side)].p;
    && reg in s.cells && s.cells[reg].phase.Registered?
    && p in s.inners && s.inners[p] == Inner(reg, side, false)
  }

  predicate DeferredOk(s: State)
  {
    && (forall i :: 0 <= i < |s.deferred| ==>
          s.deferred[i] in s.slab && s.slab[s.deferred[i]].reg in s.cells &&
            s.cells[s.slab[s.deferred[i]].reg].phase.Retired?)
    && (forall i, j :: 0 <= i < j < |s.deferred| ==> s.deferred[i] != s.deferred[j])
    && (s.loop.Remove? ==>
          && s.loop.key !in s.deferred
          && s.loop.key in s.slab && s.slab[s.loop.key].reg in s.cells &&
            s.cells[s.slab[s.loop.key].reg].phase.Retired?)
  }

  /** An event of the batch in flight still belongs to the slot it names. */
  predicate EventOk(s: State, event: Event)
  {
    event.key in s.slab && s.slab[event.key].reg == event.reg
  }

  predicate BatchOk(s: State)
  {
    s.loop.Lock? || s.loop.Deliver? ==> forall i :: 0 <= i < |s.loop.batch| ==> EventOk(s, s.loop.batch[i])
  }

  ghost predicate Inv(s: State)
  {
    && !s.broken
    && (forall reg :: reg in s.cells ==> CellOk(s, reg))
    && (forall key :: key in s.slab ==> SlotOk(s, key))
    && (forall reg, side :: (reg, side) in s.mios ==> MioOk(s, reg, side))
    && DeferredOk(s) && BatchOk(s)
  }
}
