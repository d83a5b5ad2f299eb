/** Counting semaphores. */
module Semaphores {
  import opened KernelTypes
  import opened Lists
  import opened RunQueues
  import opened KernelState
  import opened KernelMoves
  import opened KernelSteps
  import opened Kernel

  /** `sem_create` */
  method SemCreate(k: Kernel, o: Obj, count: SemCount)
    requires k.Valid() && (o in k.objs ==> k.objs[o].Gone? && o in k.waiters && k.waiters[o] == []) && o !in k.next
    modifies k`objs, k`waiters, k`owner, k`sent, k`got
    ensures k.Valid() && k.objs == old(k.objs)[o := Sem(count, count)] && k.waiters == old(k.waiters)[o := []]
    ensures k.owner == old(k.owner) - {o} && k.sent == old(k.sent)[o := []] && k.got == old(k.got)[o := []]
    ensures k.V() == old(k.V()).(objs := k.objs, waiters := k.waiters, owner := k.owner)
  {
    k.CreateObject(o, Sem(count, count));
  }

  /** `krhino_sem_del` */
  method SemDel(k: Kernel, o: Obj) returns (r: Status)
    requires k.Valid() && o in k.objs
    modifies k`objs, k`state, k`waiters, k`tickHead, k`blkState, k`blkObj, k`active, k.rq
    ensures k.Valid() && (r == TypeErr <==> !old(k.objs[o].Sem?)) && (r != TypeErr ==> r == Success)
    ensures r == TypeErr ==> k.V() == old(k.V()) && k.blkState == old(k.blkState)
    ensures r == Success ==> k.objs == old(k.objs)[o := Gone] && o in old(k.waiters)
    ensures r == Success ==>
      ObjectGone(old(k.V()), k.V(), o) && WentOn(old(k.waiters[o]), old(k.state), k.state) &&
      k.blkState == Told(old(k.blkState), old(k.waiters[o]), BlkDel)
    ensures k.schedLock > 0 ==> k.active == old(k.active)
    ensures r == TypeErr ==> k.active == old(k.active)
  {
    hide Kernel.V, Kernel.Sound, Kernel.Linked, Queued, Owned, Inherits, HistoryOk, NestedOk, RunQueue.Valid,
      ObjectGone, WentOn, Told;
    if !k.objs[o].Sem? {
      return TypeErr;
    }
    k.QueueHere(o, k.now);
    k.DeleteObject(o);
    return Success;
  }

  /** One more unit, when nobody waits. */
  method Store(k: Kernel, o: Obj, count: SemCount)
    requires k.Valid() && o in k.objs && k.objs[o].Sem? && o in k.waiters && (k.waiters[o] == [] || count == 0)
    modifies k`objs
    ensures k.Valid() && k.objs == old(k.objs)[o := Counted(old(k.objs[o]), count)]
    ensures k.V() == old(k.V()).(objs := k.objs)
  {
    hide Kernel.V, Kernel.Sound, Kernel.Linked, Queued, Owned, Inherits, RunQueue.Valid;
    k.SetObject(o, Counted(k.objs[o], count));
  }

  /** The new count, and the largest count so far. */
  function Counted(s: Object, count: SemCount): (r: Object)
    requires s.Sem?
    ensures r.Sem? && r.count == count && r.peak >= count && r.peak >= s.peak && r.peak in {count, s.peak}
  {
    Sem(count, if count > s.peak then count else s.peak)
  }

  ghost predicate OneMore(s: Object, s': Object) {
    s.Sem? && s'.Sem? && s'.count == s.count + 1 && s'.peak == if s'.count > s.peak then s'.count else s.peak
  }

  ghost predicate OneLess(s: Object, s': Object) {
    s.Sem? && s'.Sem? && s'.count + 1 == s.count && s'.peak == s.peak
  }

  /** `sem_give`: either the count goes up by one, or a unit goes straight to the most urgent waiter (or to all). */
  method SemGive(k: Kernel, o: Obj, wakeAll: bool) returns (r: Status)
    requires k.Valid() && o in k.objs
    modifies k`objs, k`state, k`waiters, k`tickHead, k`blkState, k`blkObj, k`active, k.rq
    ensures k.Valid() && o in old(k.waiters)
    ensures r == TypeErr <==> !old(k.objs[o].Sem?)
    ensures r == SemOverflow <==> old(k.objs[o].Sem? && k.waiters[o] == [] && k.objs[o].count == SEM_MAX)
    ensures r in {TypeErr, SemOverflow} ==> k.V() == old(k.V()) && k.blkState == old(k.blkState)
    ensures r !in {TypeErr, SemOverflow} ==> r == Success
    ensures r == Success && old(k.waiters[o]) == [] ==>
      o in k.objs && k.V() == old(k.V()).(objs := old(k.objs)[o := k.objs[o]]) && OneMore(old(k.objs[o]), k.objs[o]) &&
      k.blkState == old(k.blkState)
    ensures r == Success && old(k.waiters[o]) != [] ==>
      var q := if wakeAll then old(k.waiters[o]) else [old(k.waiters[o][0])];
      k.V() == AllWoken(old(k.V()), q) && WentOn(q, old(k.state), k.state) &&
      k.blkState == Told(old(k.blkState), q, BlkFinish) && k.objs == old(k.objs)
    ensures k.schedLock > 0 ==> k.active == old(k.active)
    ensures r != Success || old(k.waiters[o]) == [] ==> k.active == old(k.active)
  {
    hide Kernel.Valid, Kernel.V, OneMore, AllWoken, WentOn, Told, Kernel.Steady;
    k.ValidHere(o);
    if !k.objs[o].Sem? {
      return TypeErr;
    }
    if k.waiters[o] == [] {
      if k.objs[o].count == SEM_MAX {
        return SemOverflow;
      }
      AddUnit(k, o);
      return Success;
    }
    if wakeAll {
      k.ValidIsSteady();
      k.Flush(o, BlkFinish);
    } else {
      k.WakeOne(o);
    }
    return Success;
  }

  /** `krhino_sem_take` */
  method SemTake(k: Kernel, o: Obj, ticks: nat) returns (r: Status)
    requires k.Valid() && o in k.objs && k.active != k.idle && (ticks == 0 || Kernel.TicksOk(ticks))
    modifies k`objs, k`state, k`blkObj, k`waiters, k`tickHead, k`tickMatch, k`due, k`active, k.rq
    ensures k.Valid()
    ensures r == TypeErr <==> !old(k.objs[o].Sem?)
    ensures r == Success <==> old(k.objs[o].Sem? && k.objs[o].count > 0)
    ensures r == Success ==>
      o in k.objs && k.V() == old(k.V()).(objs := old(k.objs)[o := k.objs[o]]) && OneLess(old(k.objs[o]), k.objs[o])
    ensures r == Success ==> k.state == old(k.state)
    ensures r == NoPendWait <==> old(k.objs[o].Sem? && k.objs[o].count == 0) && ticks == 0
    ensures r == SchedDisabled <==> old(k.objs[o].Sem? && k.objs[o].count == 0 && k.schedLock > 0) && ticks > 0
    ensures r in {TypeErr, NoPendWait, SchedDisabled} ==> k.V() == old(k.V())
    ensures r !in {TypeErr, NoPendWait, SchedDisabled, Success} ==> r == Blocked
    ensures r == Blocked ==>
      k.state == old(k.state)[old(k.active) := Pend] && k.blkObj == old(k.blkObj)[old(k.active) := o] &&
      k.objs == old(k.objs)
    ensures r == Blocked ==> Entered(old(k.V()), k.V(), old(k.active), o, ticks)
    ensures k.due == if r == Blocked then Kernel.DueAfter(old(k.due), old(k.active), ticks, k.now) else old(k.due)
    ensures r == Blocked ==> (old(k.active) in k.tickHead <==> ticks != WAIT_FOREVER)
    ensures k.schedLock > 0 ==> k.active == old(k.active)
    ensures r != Blocked ==> k.active == old(k.active)
    ensures r != Blocked ==> k.state == old(k.state)
  {
    hide Kernel.V, Kernel.Sound, Kernel.Linked, Queued, Owned, Inherits, HistoryOk, NestedOk, RunQueue.Valid, Entered;
    k.QueueHere(o, k.now);
    if !k.objs[o].Sem? {
      return TypeErr;
    }
    if k.objs[o].count > 0 {
      TakeUnit(k, o);
      return Success;
    }
    if ticks == 0 {
      return NoPendWait;
    }
    if k.schedLock > 0 {
      return SchedDisabled;
    }
    k.BlockOn(o, ticks);
    return Blocked;
  }

  method AddUnit(k: Kernel, o: Obj)
    requires k.Valid() && o in k.objs && k.objs[o].Sem? && k.objs[o].count < SEM_MAX && o in k.waiters &&
      k.waiters[o] == []
    modifies k`objs
    ensures k.Valid() && o in k.objs && k.objs == old(k.objs)[o := k.objs[o]] && OneMore(old(k.objs[o]), k.objs[o])
    ensures k.V() == old(k.V()).(objs := k.objs)
  {
    hide Kernel.V, Kernel.Sound, Kernel.Linked, Queued, Owned, Inherits, RunQueue.Valid;
    Store(k, o, k.objs[o].count + 1);
  }

  method TakeUnit(k: Kernel, o: Obj)
    requires k.Valid() && o in k.objs && k.objs[o].Sem? && k.objs[o].count > 0 && o in k.waiters
    modifies k`objs
    ensures k.Valid() && o in k.objs && k.objs == old(k.objs)[o := k.objs[o]] && OneLess(old(k.objs[o]), k.objs[o])
    ensures k.V() == old(k.V()).(objs := k.objs)
  {
    hide Kernel.V, Kernel.Sound, Kernel.Linked, Queued, Owned, Inherits, RunQueue.Valid;
    k.NobodyWaits(o);
    k.SetObject(o, k.objs[o].(count := k.objs[o].count - 1));
  }

  /** `krhino_sem_count_set` */
  method SemCountSet(k: Kernel, o: Obj, count: SemCount) returns (r: Status)
    requires k.Valid() && o in k.objs
    modifies k`objs
    ensures k.Valid() && o in k.waiters
    ensures r == TypeErr <==> !old(k.objs[o].Sem?)
    ensures r == SemTaskWaiting <==> old(k.objs[o].Sem?) && k.waiters[o] != []
    ensures r in {TypeErr, SemTaskWaiting} ==> k.objs == old(k.objs)
    ensures r !in {TypeErr, SemTaskWaiting} ==>
      r == Success && k.objs == old(k.objs)[o := Counted(old(k.objs[o]), count)]
    ensures k.V() == old(k.V()).(objs := k.objs)
  {
    hide Kernel.V, Kernel.Sound, Kernel.Linked, Queued, Owned, Inherits, HistoryOk, NestedOk, RunQueue.Valid;
    k.ObjectsHere();
    k.QueueHere(o, k.now);
    if !k.objs[o].Sem? {
      return TypeErr;
    }
    k.NobodyWaits(o);
    if k.objs[o].count == 0 && k.waiters[o] != [] {
      return SemTaskWaiting;
    }
    Store(k, o, count);
    return Success;
  }
}
