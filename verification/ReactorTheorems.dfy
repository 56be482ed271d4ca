/** Every step of the reactor's slot protocol keeps its invariant, and what follows. */
module ReactorTheorems {
  import opened Options
  import opened Reactor

  /** An `MIO` lives on a registered cell. */
  lemma MiosAreRegistered(s: State)
    requires Inv(s)
    ensures forall reg, side :: (reg, side) in s.mios ==> reg in s.cells && s.cells[reg].phase.Registered?
  {
  }

  // ----- cells -----

  lemma InsertKeepsInv(s: State, reg: nat, key: nat)
    requires Inv(s) && Enabled(s, Insert(reg, key))
    ensures Inv(Next(s, Insert(reg, key)))
  {
  }

  lemma PhaseKeepsInv(s: State, a: Action)
    requires Inv(s) && Enabled(s, a) && (a.Register? || a.Deregister?)
    ensures Inv(Next(s, a))
  {
    var s' := Next(s, a);
    MiosAreRegistered(s);
    forall r | r in s'.cells
      ensures CellOk(s', r)
    {
      assert CellOk(s, r);
    }
    forall k | k in s'.slab
      ensures SlotOk(s', k)
    {
      assert SlotOk(s, k);
    }
    forall reg, side | (reg, side) in s'.mios
      ensures MioOk(s', reg, side)
    {
      assert side == Readable || side == Writable;
      assert MioOk(s, reg, side);
    }
  }

  /** A retiring cell's key is not in the list yet. */
  lemma RetiringKeepsDeferred(s: State, s': State, reg: nat)
    requires DeferredOk(s) && reg in s.cells && s.cells[reg].phase.Deregistered?
    requires s.cells[reg].key in s.slab && s.slab[s.cells[reg].key].reg == reg
    requires s' == s.(deferred := s.deferred + [s.cells[reg].key],
                      cells := s.cells[reg := s.cells[reg].(phase := Retired)])
    ensures DeferredOk(s')
  {
  }

  lemma RetiringKeepsCell(s: State, s': State, reg: nat, r: nat)
    requires reg in s.cells && s.cells[reg].phase.Deregistered? && r in s.cells && CellOk(s, r)
    requires s' == s.(deferred := s.deferred + [s.cells[reg].key],
                      cells := s.cells[reg := s.cells[reg].(phase := Retired)])
    ensures CellOk(s', r)
  {
  }

  lemma RetireKeepsInv(s: State, reg: nat)
    requires Inv(s) && Enabled(s, Retire(reg))
    ensures Inv(Next(s, Retire(reg)))
  {
    var s', key := Next(s, Retire(reg)), s.cells[reg].key;
    assert CellOk(s, reg) && SlotOk(s, key);
    MiosAreRegistered(s);
    RetiringKeepsDeferred(s, s', reg);
    forall r | r in s'.cells
      ensures CellOk(s', r)
    {
      assert CellOk(s, r);
      RetiringKeepsCell(s, s', reg, r);
    }
    forall k | k in s'.slab
      ensures SlotOk(s', k)
    {
      assert SlotOk(s, k);
    }
  }

  // ----- dispatchers -----

  lemma NewKeepsInv(s: State, reg: nat, side: Side, p: nat)
    requires Inv(s) && Enabled(s, New(reg, side, p))
    ensures Inv(Next(s, New(reg, side, p)))
  {
    var s' := Next(s, New(reg, side, p));
    forall k | k in s'.slab
      ensures SlotOk(s', k)
    {
      assert SlotOk(s, k);
    }
    forall r, sd | (r, sd) in s'.mios
      ensures MioOk(s', r, sd)
    {
      assert (r, sd) in s.mios ==> MioOk(s, r, sd);
    }
    assert forall r :: r in s.cells ==> CellOk(s, r);
  }

  /** The slot pointer and the `MIO` of one side change together. */
  predicate Repoints(s: State, s': State, reg: nat, side: Side, pointer: Option<nat>, mio: Mio)
  {
    && (reg, side) in s.mios && mio.p == s.mios[(reg, side)].p && reg in s.cells && s.cells[reg].key in s.slab
    && s.slab[s.cells[reg].key].reg == reg
    && (if pointer.None? then mio.Creating? || mio.Unlinked?
        else mio == Live(pointer.value) || mio == Deleting(pointer.value))
    && s' == s.(slab := s.slab[s.cells[reg].key := WithPointer(s.slab[s.cells[reg].key], side, pointer)],
                mios := s.mios[(reg, side) := mio])
  }

  lemma RepointingKeepsSlot(s: State, s': State, reg: nat, side: Side, pointer: Option<nat>, mio: Mio, key: nat)
    requires Repoints(s, s', reg, side, pointer, mio) && key in s.slab && SlotOk(s, key)
    ensures key in s'.slab && SlotOk(s', key)
  {
  }

  lemma RepointingKeepsMio(s: State, s': State, reg: nat, side: Side, pointer: Option<nat>, mio: Mio, r: nat, sd: Side)
    requires Repoints(s, s', reg, side, pointer, mio) && (r, sd) in s.mios && MioOk(s, r, sd)
    ensures (r, sd) in s'.mios && MioOk(s', r, sd)
  {
  }

  /** No registration and no event notices. */
  lemma RepointingKeepsRest(s: State, s': State, reg: nat, side: Side, pointer: Option<nat>, mio: Mio)
    requires Repoints(s, s', reg, side, pointer, mio) && DeferredOk(s) && BatchOk(s)
    requires forall r :: r in s.cells ==> CellOk(s, r)
    ensures DeferredOk(s') && BatchOk(s') && forall r :: r in s'.cells ==> CellOk(s', r)
  {
  }

  lemma RepointingKeepsInv(s: State, s': State, reg: nat, side: Side, pointer: Option<nat>, mio: Mio)
    requires Inv(s) && Repoints(s, s', reg, side, pointer, mio)
    ensures Inv(s')
  {
    RepointingKeepsRest(s, s', reg, side, pointer, mio);
    forall k | k in s'.slab
      ensures SlotOk(s', k)
    {
      RepointingKeepsSlot(s, s', reg, side, pointer, mio, k);
    }
    forall r, sd | (r, sd) in s'.mios
      ensures MioOk(s', r, sd)
    {
      RepointingKeepsMio(s, s', reg, side, pointer, mio, r, sd);
    }
  }

  lemma LinkKeepsInv(s: State, reg: nat, side: Side)
    requires Inv(s) && Enabled(s, Link(reg, side))
    ensures Inv(Next(s, Link(reg, side)))
  {
    var p := s.mios[(reg, side)].p;
    assert MioOk(s, reg, side) && CellOk(s, reg) && SlotOk(s, s.cells[reg].key);
    RepointingKeepsInv(s, Next(s, Link(reg, side)), reg, side, Some(p), Live(p));
  }

  lemma DeleteKeepsInv(s: State, reg: nat, side: Side)
    requires Inv(s) && Enabled(s, Delete(reg, side))
    ensures Inv(Next(s, Delete(reg, side)))
  {
    var p, key := s.mios[(reg, side)].p, s.cells[reg].key;
    assert MioOk(s, reg, side) && CellOk(s, reg) && SlotOk(s, key);
    assert WithPointer(s.slab[key], side, Some(p)) == s.slab[key];
    RepointingKeepsInv(s, Next(s, Delete(reg, side)), reg, side, Some(p), Deleting(p));
  }

  /** `del` finds its dispatcher behind the pointer of its own side. */
  lemma DeletedFindsItself(s: State, reg: nat, side: Side)
    requires Inv(s) && Enabled(s, Unlink(reg, side))
    ensures s.cells[reg].key in s.slab && s.slab[s.cells[reg].key].reg == reg
    ensures var key := s.cells[reg].key;
            Unlinking(s, key, s.mios[(reg, side)].p) == s.(slab := s.slab[key := WithPointer(s.slab[key], side, None)])
  {
  }

  lemma UnlinkKeepsInv(s: State, reg: nat, side: Side)
    requires Inv(s) && Enabled(s, Unlink(reg, side))
    ensures Inv(Next(s, Unlink(reg, side)))
  {
    DeletedFindsItself(s, reg, side);
    RepointingKeepsInv(s, Next(s, Unlink(reg, side)), reg, side, None, Unlinked(s.mios[(reg, side)].p));
  }

  lemma FreeKeepsInv(s: State, reg: nat, side: Side)
    requires Inv(s) && Enabled(s, Free(reg, side))
    ensures Inv(Next(s, Free(reg, side)))
  {
  }

  // ----- the event loop -----

  /** The pointers of a slot name dispatchers that are not freed. */
  lemma PointersAreSound(s: State, key: nat)
    requires Inv(s) && key in s.slab
    ensures Sound(s, s.slab[key].readable) && Sound(s, s.slab[key].writable)
  {
  }

  /** A change of the loop's position, and of its history, only. */
  lemma PositionKeepsInv(s: State, s': State)
    requires Inv(s) && s' == s.(loop := s'.loop, log := s'.log) && BatchOk(s')
    requires !s.loop.Remove? && !s'.loop.Remove?
    ensures Inv(s')
  {
  }

  lemma LoopKeepsInv(s: State, a: Action)
    requires Inv(s) && Enabled(s, a) && (a.GetBatch? || a.TakeLock? || a.Dispatch? || a.DropLock?)
    ensures Inv(Next(s, a))
  {
    if a.Dispatch? {
      assert EventOk(s, s.loop.batch[s.loop.i]);
      PointersAreSound(s, s.loop.batch[s.loop.i].key);
    } else if a.GetBatch? {
      assert forall i :: 0 <= i < |a.batch| ==> CellOk(s, a.batch[i].reg);
    }
    PositionKeepsInv(s, Next(s, a));
  }

  lemma PopKeyKeepsInv(s: State)
    requires Inv(s) && Enabled(s, PopKey)
    ensures Inv(Next(s, PopKey))
  {
    var s' := Next(s, PopKey);
    forall r | r in s'.cells
      ensures CellOk(s', r)
    {
      assert CellOk(s, r);
      var key := s.cells[r].key;
      if s.deferred != [] && key in s.deferred {
        var i :| 0 <= i < |s.deferred| && s.deferred[i] == key;
        assert i < |s'.deferred| ==> s'.deferred[i] == key;
      }
    }
    forall k | k in s'.slab
      ensures SlotOk(s', k)
    {
      assert SlotOk(s, k);
    }
    forall r, sd | (r, sd) in s'.mios
      ensures MioOk(s', r, sd)
    {
      assert MioOk(s, r, sd);
    }
  }

  lemma RemoveKeyKeepsInv(s: State)
    requires Inv(s) && Enabled(s, RemoveKey)
    ensures Inv(Next(s, RemoveKey))
  {
  }

  // ----- all runs -----

  lemma StepKeepsInv(s: State, a: Action)
    requires Inv(s) && Enabled(s, a)
    ensures Inv(Next(s, a))
  {
    match a
    case Insert(reg, key) => InsertKeepsInv(s, reg, key);
    case Register(_) => PhaseKeepsInv(s, a);
    case Deregister(_) => PhaseKeepsInv(s, a);
    case Retire(reg) => RetireKeepsInv(s, reg);
    case New(reg, side, p) => NewKeepsInv(s, reg, side, p);
    case Link(reg, side) => LinkKeepsInv(s, reg, side);
    case Delete(reg, side) => DeleteKeepsInv(s, reg, side);
    case Unlink(reg, side) => UnlinkKeepsInv(s, reg, side);
    case Free(reg, side) => FreeKeepsInv(s, reg, side);
    case PopKey => PopKeyKeepsInv(s);
    case RemoveKey => RemoveKeyKeepsInv(s);
    case _ => LoopKeepsInv(s, a);
  }

  lemma {:induction false} PathKeepsInv(path: seq<State>, trace: seq<Action>, i: nat)
    requires IsRun(path, trace) && Inv(path[0]) && i <= |trace|
    ensures Inv(path[i])
  {
    if i > 0 {
      PathKeepsInv(path, trace, i - 1);
      StepKeepsInv(path[i - 1], trace[i - 1]);
    }
  }

  lemma ReachableHasInv(s: State)
    requires Reachable(s)
    ensures Inv(s)
  {
    var path, trace :| IsRun(path, trace) && path[0] == Start() && path[|trace|] == s;
    PathKeepsInv(path, trace, |trace|);
  }

  // ----- what follows -----

  /** In no interleaving does the reactor index a vacant slot or use a freed dispatcher, does a second dispatcher meet
      an occupied pointer, does `del` miss itself, does a cell die with a pointer set, or is a vacant key removed. */
  lemma NeverBroken(s: State)
    requires Reachable(s)
    ensures !s.broken
  {
    ReachableHasInv(s);
  }

  /** Every event of the batch in flight names an occupied slot of the registration that produced it, whatever was
      registered, deleted and dropped since the poll; and the pointers behind it are null or not freed. */
  lemma EventsReachTheirRegistration(s: State, i: nat)
    requires Reachable(s) && (s.loop.Lock? || s.loop.Deliver?) && i < |s.loop.batch|
    ensures s.loop.batch[i].key in s.slab
    ensures var slot := s.slab[s.loop.batch[i].key];
            slot.reg == s.loop.batch[i].reg && Sound(s, slot.readable) && Sound(s, slot.writable)
  {
    ReachableHasInv(s);
    assert EventOk(s, s.loop.batch[i]);
    PointersAreSound(s, s.loop.batch[i].key);
  }

  /** A slot pointer belongs to the slot's own registration and side. */
  lemma PointersBelongToTheirSlot(s: State, key: nat, side: Side)
    requires Reachable(s) && key in s.slab && Pointer(s.slab[key], side).Some?
    ensures var p := Pointer(s.slab[key], side).value;
            p in s.inners && s.inners[p] == Inner(s.slab[key].reg, side, false)
  {
    ReachableHasInv(s);
    assert SlotOk(s, key);
    assert MioOk(s, s.slab[key].reg, side);
  }

  /** A cell's key is removed at most once, after the cell is dropped, and two live cells never share a key. */
  lemma KeysAreRemovedOnce(s: State, reg: nat, reg': nat)
    requires Reachable(s) && reg in s.cells && reg' in s.cells
    ensures s.cells[reg].removals <= 1 && (s.cells[reg].removals == 1 <==> s.cells[reg].phase.Removed?)
    ensures !s.cells[reg].phase.Removed? && !s.cells[reg'].phase.Removed? && s.cells[reg].key == s.cells[reg'].key ==>
            reg == reg'
    ensures s.cells[reg].phase.Retired? ==> AwaitsRemoval(s, s.cells[reg].key)
  {
    ReachableHasInv(s);
    assert CellOk(s, reg) && CellOk(s, reg');
  }

  /** Both pointers are null when a cell is dropped. */
  lemma DroppedCellHasNoPointers(s: State, reg: nat)
    requires Reachable(s) && reg in s.cells && (s.cells[reg].phase.Deregistered? || s.cells[reg].phase.Retired?)
    ensures s.cells[reg].key in s.slab
    ensures s.slab[s.cells[reg].key].readable == None && s.slab[s.cells[reg].key].writable == None
  {
    ReachableHasInv(s);
    assert CellOk(s, reg) && SlotOk(s, s.cells[reg].key);
    MiosAreRegistered(s);
  }

  // ----- every event is delivered -----

  predicate Ready(event: Event, side: Side)
  {
    if side.Readable? then event.readable else event.writable
  }

  /** The dispatcher that an event is for on one side, if there is one in the event's slot. */
  function Addressee(slab: map<nat, Slot>, event: Event, side: Side): seq<nat>
  {
    if event.key in slab && Ready(event, side) && Pointer(slab[event.key], side).Some?
    then [Pointer(slab[event.key], side).value] else []
  }

  /** The dispatchers that the first `i` events are for, the readable before the writable side. */
  function Addressees(slab: map<nat, Slot>, batch: seq<Event>, i: nat): seq<nat>
    requires i <= |batch|
  {
    if i == 0 then []
    else
      Addressees(slab, batch, i - 1) + Addressee(slab, batch[i - 1], Readable) + Addressee(slab, batch[i - 1], Writable)
  }

  /** The reactor has notified exactly those that the events it has gone through are for. */
  predicate Delivered(s: State)
  {
    s.loop.Deliver? ==> s.loop.i <= |s.loop.batch| && s.log == Addressees(s.slab, s.loop.batch, s.loop.i)
  }

  lemma DispatchCalls(s: State, event: Event)
    requires Enabled(s, Dispatch) && event == s.loop.batch[s.loop.i] && event.key in s.slab
    requires Sound(s, s.slab[event.key].readable) && Sound(s, s.slab[event.key].writable)
    ensures Next(s, Dispatch).log == s.log + Addressee(s.slab, event, Readable) + Addressee(s.slab, event, Writable)
    ensures Next(s, Dispatch).slab == s.slab && Next(s, Dispatch).loop == Deliver(s.loop.batch, s.loop.i + 1)
  {
  }

  lemma DispatchDelivers(s: State)
    requires Inv(s) && Delivered(s) && Enabled(s, Dispatch)
    ensures Delivered(Next(s, Dispatch))
  {
    var event := s.loop.batch[s.loop.i];
    assert EventOk(s, event);
    PointersAreSound(s, event.key);
    DispatchCalls(s, event);
  }

  /** Nobody changes a slot while the reactor holds its lock. */
  lemma SlotsAreLocked(s: State, a: Action)
    requires Inv(s) && Enabled(s, a) && s.loop.Deliver? && !a.Dispatch?
    ensures Next(s, a).slab == s.slab && Next(s, a).log == s.log
    ensures Next(s, a).loop == if a.DropLock? then Drain else s.loop
  {
  }

  lemma StepDelivers(s: State, a: Action)
    requires Inv(s) && Delivered(s) && Enabled(s, a)
    ensures Delivered(Next(s, a))
  {
    if a.Dispatch? {
      DispatchDelivers(s);
    } else if s.loop.Deliver? {
      SlotsAreLocked(s, a);
    }
  }

  lemma {:induction false} PathDelivers(path: seq<State>, trace: seq<Action>, i: nat)
    requires IsRun(path, trace) && Inv(path[0]) && Delivered(path[0]) && i <= |trace|
    ensures Inv(path[i]) && Delivered(path[i])
  {
    if i > 0 {
      PathDelivers(path, trace, i - 1);
      StepKeepsInv(path[i - 1], trace[i - 1]);
      StepDelivers(path[i - 1], trace[i - 1]);
    }
  }

  /** The reactor has this batch in its hands. */
  predicate Carries(s: State, batch: seq<Event>)
  {
    (s.loop.Lock? || s.loop.Deliver?) && s.loop.batch == batch
  }

  lemma BatchStays(s: State, a: Action, batch: seq<Event>)
    requires Inv(s) && Enabled(s, a) && Carries(s, batch) && !a.DropLock?
    ensures Carries(Next(s, a), batch)
  {
  }

  lemma {:induction false} BatchIsCarried(path: seq<State>, trace: seq<Action>, j: nat, i: nat)
    requires IsRun(path, trace) && Inv(path[0]) && j < i <= |trace| && trace[j].GetBatch?
    requires forall k :: j <= k < i ==> !trace[k].DropLock?
    ensures Carries(path[i], trace[j].batch)
  {
    if i > j + 1 {
      BatchIsCarried(path, trace, j, i - 1);
      PathKeepsInv(path, trace, i - 1);
      BatchStays(path[i - 1], trace[i - 1], trace[j].batch);
    }
  }

  /** Every event is delivered: when the reactor drops its lock, it has notified the dispatchers that the events of the
      batch it got from the poll are for, event by event in their order, each once, and no other. */
  lemma EveryEventIsDelivered(path: seq<State>, trace: seq<Action>, j: nat, i: nat)
    requires IsRun(path, trace) && path[0] == Start() && j < i < |trace| && trace[j].GetBatch? && trace[i].DropLock?
    requires forall k :: j <= k < i ==> !trace[k].DropLock?
    ensures path[i].log == Addressees(path[i].slab, trace[j].batch, |trace[j].batch|)
  {
    BatchIsCarried(path, trace, j, i);
    PathDelivers(path, trace, i);
    assert Step(path[i], trace[i], path[i + 1]);
  }

  /** The `MIO` on this side is between `new` and `del`: its dispatcher is in its slot. */
  predicate Linked(s: State, reg: nat, side: Side, p: nat)
  {
    MioIs(s, reg, side, Live(p)) || MioIs(s, reg, side, Deleting(p))
  }

  lemma AddresseeIsLinked(s: State, event: Event, side: Side, p: nat)
    requires Inv(s) && EventOk(s, event)
    ensures p in Addressee(s.slab, event, side) <==> Ready(event, side) && Linked(s, event.reg, side, p)
  {
    assert SlotOk(s, event.key);
    if Linked(s, event.reg, side, p) {
      assert MioOk(s, event.reg, side) && CellOk(s, event.reg);
    }
  }

  lemma {:induction false} AddresseesAreLinked(s: State, batch: seq<Event>, i: nat, p: nat)
    requires Inv(s) && i <= |batch| && forall k :: 0 <= k < |batch| ==> EventOk(s, batch[k])
    ensures p in Addressees(s.slab, batch, i) <==>
            exists k, side :: 0 <= k < i && Ready(batch[k], side) && Linked(s, batch[k].reg, side, p)
  {
    if i > 0 {
      AddresseesAreLinked(s, batch, i - 1, p);
      AddresseeIsLinked(s, batch[i - 1], Readable, p);
      AddresseeIsLinked(s, batch[i - 1], Writable, p);
    }
  }

  /** Said of registrations: a dispatcher has been notified exactly if an event, of those gone through, came for its
      registration and side while it was linked. */
  lemma NotifiedIffReady(path: seq<State>, trace: seq<Action>, i: nat, p: nat)
    requires IsRun(path, trace) && path[0] == Start() && i <= |trace| && path[i].loop.Deliver?
    ensures var s := path[i];
            && s.loop.i <= |s.loop.batch|
            && (p in s.log <==>
                exists k, side :: 0 <= k < s.loop.i && Ready(s.loop.batch[k], side) &&
                  Linked(s, s.loop.batch[k].reg, side, p))
  {
    PathDelivers(path, trace, i);
    AddresseesAreLinked(path[i], path[i].loop.batch, path[i].loop.i, p);
  }

  // ----- nothing is left behind -----

  /** When the reactor goes back to `poll`, it has removed the keys of all cells that were retired until then; and if
      there is one left, it removes the last. */
  lemma DrainLeavesNothing(s: State)
    requires Reachable(s) && s.loop.Drain?
    ensures Enabled(s, PopKey) && (Next(s, PopKey).loop.Poll? <==> s.deferred == [])
    ensures Next(s, PopKey).loop.Poll? ==> forall reg :: reg in s.cells ==> !Next(s, PopKey).cells[reg].phase.Retired?
    ensures s.deferred != [] ==>
              var last := |s.deferred| - 1;
              Next(s, PopKey) == s.(deferred := s.deferred[..last], loop := Remove(s.deferred[last]))
  {
    ReachableHasInv(s);
    assert forall reg :: reg in s.cells ==> CellOk(s, reg);
  }

  /** And then the cell that had the key is removed, and its slot vacant. */
  lemma RemovingFreesTheSlot(s: State)
    requires Reachable(s) && s.loop.Remove?
    ensures Enabled(s, RemoveKey) && s.loop.key in s.slab && s.slab[s.loop.key].reg in s.cells
    ensures var reg, s' := s.slab[s.loop.key].reg, Next(s, RemoveKey);
            && s.cells[reg].key == s.loop.key && s.cells[reg].phase.Retired? && s'.cells[reg].phase.Removed?
            && s'.slab == s.slab - {s.loop.key} && s'.loop.Drain?
  {
    ReachableHasInv(s);
    assert SlotOk(s, s.loop.key);
  }

  /** No dispatcher leaks: one that is not freed belongs to the `MIO` on its side of its cell. */
  predicate InnersOk(s: State)
  {
    forall p :: p in s.inners && !s.inners[p].freed ==>
      (s.inners[p].reg, s.inners[p].side) in s.mios && s.mios[(s.inners[p].reg, s.inners[p].side)].p == p
  }

  /** Only `new` and the end of `del` make or free a dispatcher; the other steps leave it with its `MIO`. */
  lemma OthersKeepInners(s: State, a: Action)
    requires Enabled(s, a) && !a.New? && !a.Free?
    ensures Next(s, a).inners == s.inners
    ensures forall key :: key in s.mios ==> key in Next(s, a).mios && Next(s, a).mios[key].p == s.mios[key].p
  {
    if a.Insert? || a.Register? || a.Deregister? || a.Retire? {
      CellsKeepMios(s, a);
    } else if !a.Link? && !a.Delete? && !a.Unlink? {
      LoopKeepsMios(s, a);
    }
  }

  lemma CellsKeepMios(s: State, a: Action)
    requires Enabled(s, a) && (a.Insert? || a.Register? || a.Deregister? || a.Retire?)
    ensures Next(s, a).inners == s.inners && Next(s, a).mios == s.mios
  {
  }

  lemma LoopKeepsMios(s: State, a: Action)
    requires Enabled(s, a)
    requires a.GetBatch? || a.TakeLock? || a.Dispatch? || a.DropLock? || a.PopKey? || a.RemoveKey?
    ensures Next(s, a).inners == s.inners && Next(s, a).mios == s.mios
  {
  }

  lemma StepKeepsInners(s: State, a: Action)
    requires Inv(s) && InnersOk(s) && Enabled(s, a)
    ensures InnersOk(Next(s, a))
  {
    if !a.New? && !a.Free? {
      OthersKeepInners(s, a);
    }
  }

  lemma {:induction false} PathKeepsInners(path: seq<State>, trace: seq<Action>, i: nat)
    requires IsRun(path, trace) && Inv(path[0]) && InnersOk(path[0]) && i <= |trace|
    ensures InnersOk(path[i])
  {
    if i > 0 {
      PathKeepsInners(path, trace, i - 1);
      PathKeepsInv(path, trace, i - 1);
      StepKeepsInners(path[i - 1], trace[i - 1]);
    }
  }

  lemma NoDispatcherLeaks(s: State, p: nat)
    requires Reachable(s) && p in s.inners && !s.inners[p].freed
    ensures (s.inners[p].reg, s.inners[p].side) in s.mios && s.mios[(s.inners[p].reg, s.inners[p].side)].p == p
  {
    var path, trace :| IsRun(path, trace) && path[0] == Start() && path[|trace|] == s;
    PathKeepsInners(path, trace, |trace|);
  }

  // ----- the life of a registration -----

  /** The steps of registration, and of the end of a cell that has no `MIO` any more. */
  function OpenSteps(reg: nat, key: nat): seq<Action>
  {
    [Insert(reg, key), Register(reg)]
  }

  function CloseSteps(reg: nat): seq<Action>
  {
    [Deregister(reg), Retire(reg)]
  }

  ghost predicate Runs(s: State, trace: seq<Action>, s': State)
  {
    exists path :: IsRun(path, trace) && path[0] == s && path[|trace|] == s'
  }

  lemma TwoStepsRun(s: State, a: Action, s1: State, b: Action, s2: State)
    requires Step(s, a, s1) && Step(s1, b, s2)
    ensures Runs(s, [a, b], s2)
  {
    assert IsRun([s, s1, s2], [a, b]);
  }

  /** A source is registered in a vacant slot, with both pointers null. */
  lemma OpenRuns(s: State, reg: nat, key: nat) returns (s': State)
    requires Enabled(s, Insert(reg, key))
    ensures Runs(s, OpenSteps(reg, key), s')
    ensures s' == s.(slab := s.slab[key := Slot(None, None, reg)], cells := s.cells[reg := Cell(key, Registered, 0)])
  {
    var s1 := Next(s, Insert(reg, key));
    s' := Next(s1, Register(reg));
    TwoStepsRun(s, Insert(reg, key), s1, Register(reg), s');
    assert s1.cells[reg := Cell(key, Registered, 0)] == s.cells[reg := Cell(key, Registered, 0)];
  }

  /** A registered cell without an `MIO` on a side gets one, whose dispatcher is in the slot. */
  lemma NewRuns(s: State, reg: nat, side: Side, p: nat) returns (s': State)
    requires Reachable(s) && Enabled(s, New(reg, side, p)) && LockFree(s)
    ensures Runs(s, [New(reg, side, p), Link(reg, side)], s') && !s'.broken && MioIs(s', reg, side, Live(p))
    ensures s.cells[reg].key in s'.slab && Pointer(s'.slab[s.cells[reg].key], side) == Some(p)
  {
    ReachableHasInv(s);
    assert CellOk(s, reg) && SlotOk(s, s.cells[reg].key);
    var s1 := Next(s, New(reg, side, p));
    s' := Next(s1, Link(reg, side));
    TwoStepsRun(s, New(reg, side, p), s1, Link(reg, side), s');
  }

  /** And when it is dropped, its pointer is null again, its dispatcher freed, and the side free for the next. */
  lemma DelRuns(s: State, reg: nat, side: Side, p: nat) returns (s': State)
    requires Reachable(s) && MioIs(s, reg, side, Deleting(p)) && LockFree(s)
    ensures Runs(s, [Unlink(reg, side), Free(reg, side)], s') && !s'.broken && (reg, side) !in s'.mios
    ensures p in s'.inners && s'.inners[p].freed
    ensures reg in s.cells && s.cells[reg].key in s'.slab && Pointer(s'.slab[s.cells[reg].key], side) == None
  {
    ReachableHasInv(s);
    assert MioOk(s, reg, side);
    DeletedFindsItself(s, reg, side);
    var s1 := Next(s, Unlink(reg, side));
    s' := Next(s1, Free(reg, side));
    TwoStepsRun(s, Unlink(reg, side), s1, Free(reg, side), s');
  }

  /** A cell without `MIO`s is deregistered, and its key waits for removal. */
  lemma CloseRuns(s: State, reg: nat) returns (s': State)
    requires Reachable(s) && Enabled(s, Deregister(reg)) && LockFree(s)
    ensures Runs(s, CloseSteps(reg), s') && !s'.broken
    ensures s' == s.(deferred := s.deferred + [s.cells[reg].key],
                     cells := s.cells[reg := s.cells[reg].(phase := Retired)])
  {
    ReachableHasInv(s);
    assert CellOk(s, reg) && SlotOk(s, s.cells[reg].key);
    var s1 := Next(s, Deregister(reg));
    s' := Next(s1, Retire(reg));
    TwoStepsRun(s, Deregister(reg), s1, Retire(reg), s');
    assert s1.cells[reg := s.cells[reg].(phase := Retired)] == s.cells[reg := s.cells[reg].(phase := Retired)];
  }
}
