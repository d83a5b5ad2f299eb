/** Each call as a transition of the whole kernel. */
module KernelCalls {
  import opened KernelTypes
  import opened Lists
  import opened KernelState
  import opened KernelMoves
  import opened KernelSteps
  import opened MutexLinks
  import opened Kernel
  import opened KernelEffects
  import S = Semaphores
  import E = Events
  import B = BufQueues

  predicate Unused(k: Kernel, o: Obj)
    reads k
  {
    o in k.objs ==> k.objs[o].Gone? && o in k.waiters && k.waiters[o] == []
  }

  method TryCreate(k: Kernel, t: Task, pri: nat, slice: nat, autorun: bool)
    requires k.Valid() && (t in k.state ==> k.state[t].Deleted?)
    modifies k`timeTotal, k`timeSlice, k`state, k`prio, k`bprio, k`suspendCount, k`mutexList, k`blkObj, k`dead, k`head,
      k`active, k.rq
    ensures k.Valid()
    ensures pri >= IDLE_PRI ==> k.V() == old(k.V()) && unchanged(k`active, k`timeTotal, k`timeSlice)
    ensures pri < IDLE_PRI ==> Born(old(k.V()), k.V(), t, pri, autorun)
    ensures pri < IDLE_PRI ==> var n := if slice > 0 then slice else TIME_SLICE_DEFAULT;
      k.timeTotal == old(k.timeTotal)[t := n] && k.timeSlice == old(k.timeSlice)[t := n]
  {
    hide Kernel.Valid, Kernel.V, Born;
    var _ := k.TaskCreate(t, pri, slice, autorun);
  }

  method Create(k: Kernel, t: Task, pri: nat, slice: nat, autorun: bool)
    requires k.Valid() && (t in k.state ==> k.state[t].Deleted?)
    modifies k`timeTotal, k`timeSlice, k`state, k`prio, k`bprio, k`suspendCount, k`mutexList, k`blkObj, k`dead, k`head,
      k`active, k.rq
    ensures k.Valid() && k.due == old(k.due) && k.now == old(k.now)
    ensures CreateEffect(old(Now(k)), Now(k), t, pri, slice, autorun)
  {
    hide Kernel.Valid, Kernel.V, Born;
    TryCreate(k, t, pri, slice, autorun);
  }

  method TryDelete(k: Kernel, t: Task, refused: bool, dead: bool)
    requires k.Valid() && t in k.state && (k.state[t].Deleted? ==> k.Harmless(t))
    requires t in k.prio && refused == (k.prio[t] == IDLE_PRI || (t == k.active && k.schedLock > 0)) &&
      dead == k.state[t].Deleted?
    modifies k`state, k`suspendCount, k`waiters, k`tickHead, k`prio, k`mutexList, k`blkState, k`blkObj, k`owner,
      k`active, k`head, k`next, k`rank, k`clock, k`dead, k.rq
    ensures k.Valid() && t in old(k.prio) && t in old(k.mutexList)
    ensures refused ==> k.V() == old(k.V()) && unchanged(k`active, k`blkState)
    ensures !refused && dead ==> k.V() == old(k.V()).(owner := k.V().owner) && unchanged(k`active, k`blkState)
    ensures !refused && !dead ==>
      TaskGone(old(k.V()), k.V(), old(k.active), t) &&
      k.blkState == Told(old(k.blkState), Heirs(old(k.mutexList[t]), old(k.waiters)), BlkFinish)
  {
    hide Kernel.Valid, Kernel.V, TaskGone, Heirs, Told, Kernel.Harmless, Kernel.OnlyWoken, Kernel.HeirsWoken,
      Kernel.Bequeathed, Kernel.StaleGiven, Kernel.Unwanted, Ownership, Kernel.Bestowed;
    Fields(k);
    var _ := k.TaskDel(t);
    Kernel.BestowedIs(old(k.mutexList[t]), old(k.waiters), old(k.blkState), k.blkState, old(k.head), old(k.next),
      k.head,
      k.next);
    Fields(k);
  }

  method Delete(k: Kernel, t: Task)
    requires k.Valid() && t in k.state && (k.state[t].Deleted? ==> k.Harmless(t))
    modifies k`state, k`suspendCount, k`waiters, k`tickHead, k`prio, k`mutexList, k`blkState, k`blkObj, k`owner,
      k`active, k`head, k`next, k`rank, k`clock, k`dead, k.rq
    ensures k.Valid() && k.due == old(k.due) && k.now == old(k.now)
    ensures RemoveEffect(old(Now(k)), Now(k), t)
  {
    hide Kernel.Valid, Kernel.V, TaskGone, Heirs, Told, Kernel.Harmless, RestOf;
    k.ViewHere();
    k.SuspendHere(t);
    TryDelete(k, t, k.prio[t] == IDLE_PRI || (t == k.active && k.schedLock > 0), k.state[t].Deleted?);
  }

  method Suspend(k: Kernel, t: Task)
    requires k.Valid() && t in k.state
    modifies k`state, k`suspendCount, k`active, k.rq
    ensures k.Valid() && k.due == old(k.due) && k.now == old(k.now)
    ensures SuspendEffect(old(Now(k)), Now(k), t)
  {
    hide Kernel.Valid, Kernel.V, SuspendedOnce, RestOf;
    Fields(k);
    var _ := k.TaskSuspend(t);
  }

  method Resume(k: Kernel, t: Task)
    requires k.Valid() && t in k.state
    modifies k`state, k`suspendCount, k`active, k.rq
    ensures k.Valid() && k.due == old(k.due) && k.now == old(k.now)
    ensures ResumeEffect(old(Now(k)), Now(k), t)
  {
    hide Kernel.Valid, Kernel.V, ResumedOnce, RestOf;
    Fields(k);
    var _ := k.TaskResume(t);
  }

  method Abort(k: Kernel, t: Task)
    requires k.Valid() && t in k.state
    modifies k`state, k`suspendCount, k`prio, k`waiters, k`tickHead, k`blkState, k`blkObj, k`active, k.rq
    ensures k.Valid() && k.due == old(k.due) && k.now == old(k.now)
    ensures AbortEffect(old(Now(k)), Now(k), t)
  {
    hide Kernel.Valid, Kernel.V, Aborted, Spare, RestOf;
    Fields(k);
    var _ := k.TaskWaitAbort(t);
  }

  method ChangePri(k: Kernel, t: Task, pri: nat)
    requires k.Valid() && t in k.state
    modifies k`bprio, k`prio, k`waiters, k`active, k.rq
    ensures k.Valid() && k.due == old(k.due) && k.now == old(k.now)
    ensures PriorityEffect(old(Now(k)), Now(k), t, pri)
  {
    hide Kernel.Valid, Kernel.V, Repriced, RestOf;
    Fields(k);
    var _, _ := k.TaskChangePriority(t, pri);
  }

  method Yield(k: Kernel)
    requires k.Valid()
    modifies k`active, k.rq
    ensures k.Valid() && k.due == old(k.due) && k.now == old(k.now)
    ensures YieldEffect(old(Now(k)), Now(k))
  {
    hide Kernel.Valid, Kernel.V, Rotate, RestOf;
    Fields(k);
    k.TaskYield();
  }

  method Disable(k: Kernel)
    requires k.Valid()
    modifies k`schedLock
    ensures k.Valid() && k.due == old(k.due) && k.now == old(k.now)
    ensures Now(k) == old(Now(k)).(lock := if old(k.schedLock) >= SCHED_LOCK_MAX then old(k.schedLock)
      else old(k.schedLock) + 1)
  {
    hide Kernel.Valid, Kernel.V, RestOf;
    Fields(k);
    var _ := k.SchedDisable();
  }

  method Enable(k: Kernel)
    requires k.Valid()
    modifies k`schedLock, k`active
    ensures k.Valid() && k.due == old(k.due) && k.now == old(k.now)
    ensures UnlockSchedEffect(old(Now(k)), Now(k))
  {
    hide Kernel.Valid, Kernel.V, RestOf;
    Fields(k);
    var _ := k.SchedEnable();
  }

  method NewMutex(k: Kernel, o: Obj)
    requires k.Valid() && Unused(k, o)
    modifies k`objs, k`waiters, k`owner, k`next
    ensures k.Valid() && k.due == old(k.due) && k.now == old(k.now)
    ensures Now(k) == old(Now(k)).(v := Placed(old(k.V()), o, Mutex))
  {
    hide Kernel.Valid, Kernel.V, RestOf;
    Fields(k);
    k.MutexCreate(o);
  }

  method Unlock(k: Kernel, o: Obj)
    requires k.Valid() && o in k.objs
    modifies k`prio, k`state, k`waiters, k`tickHead, k`blkState, k`blkObj, k`owner, k`mutexList, k`nested, k`active,
      k`head, k`next, k`rank, k`clock, k.rq
    ensures k.Valid() && k.due == old(k.due) && k.now == old(k.now)
    ensures UnlockEffect(old(Now(k)), Now(k), o)
  {
    hide Kernel.Valid, Kernel.V, Unlocked, Kernel.Relinked, Kernel.HandedOn, RestOf;
    Fields(k);
    var _ := k.MutexUnlock(o);
    Kernel.HandedIs(old(k.waiters[o]), o, old(k.owner), k.owner, old(k.state), k.state, old(k.blkState), k.blkState);
  }

  method DropMutex(k: Kernel, o: Obj)
    requires k.Valid() && o in k.objs
    modifies k`prio, k`waiters, k`mutexList, k`objs, k`head, k`next, k`rank, k`clock, k`state, k`tickHead, k`blkState,
      k`blkObj, k`active, k.rq
    ensures k.Valid() && k.due == old(k.due) && k.now == old(k.now)
    ensures MutexDelEffect(old(Now(k)), Now(k), o)
  {
    hide Kernel.Valid, Kernel.V, MutexGone, Told, WentOn, Kernel.LinksLost, RestOf;
    Fields(k);
    var _ := k.MutexDel(o);
  }

  method NewSem(k: Kernel, o: Obj, count: SemCount)
    requires k.Valid() && Unused(k, o) && o !in k.next
    modifies k`objs, k`waiters, k`owner, k`sent, k`got
    ensures k.Valid() && k.due == old(k.due) && k.now == old(k.now)
    ensures ObjectEffect(old(Now(k)), Now(k), o, Sem(count, count))
  {
    hide Kernel.Valid, Kernel.V;
    Fields(k);
    S.SemCreate(k, o, count);
  }

  method Give(k: Kernel, o: Obj, all: bool)
    requires k.Valid() && o in k.objs
    modifies k`objs, k`state, k`waiters, k`tickHead, k`blkState, k`blkObj, k`active, k.rq
    ensures k.Valid() && k.due == old(k.due) && k.now == old(k.now)
    ensures GiveEffect(old(Now(k)), Now(k), o, all)
  {
    hide Kernel.Valid, Kernel.V, AllWoken, Told, WentOn, S.OneMore, RestOf;
    ghost var w := Now(k);
    Fields(k);
    var r := S.SemGive(k, o, all);
    if r != Success {
      assert Now(k) == w;
    }
  }

  method SetCount(k: Kernel, o: Obj, count: SemCount)
    requires k.Valid() && o in k.objs
    modifies k`objs
    ensures k.Valid() && k.due == old(k.due) && k.now == old(k.now)
    ensures SetSemEffect(old(Now(k)), Now(k), o, count)
  {
    hide Kernel.Valid, Kernel.V, S.Counted, RestOf;
    Fields(k);
    var _ := S.SemCountSet(k, o, count);
  }

  method DropSem(k: Kernel, o: Obj)
    requires k.Valid() && o in k.objs
    modifies k`objs, k`state, k`waiters, k`tickHead, k`blkState, k`blkObj, k`active, k.rq
    ensures k.Valid() && k.due == old(k.due) && k.now == old(k.now)
    ensures old(k.objs[o].Sem?) ==> DeleteEffect(old(Now(k)), Now(k), o)
    ensures !old(k.objs[o].Sem?) ==> Now(k) == old(Now(k))
  {
    hide Kernel.Valid, Kernel.V, ObjectGone, Told, WentOn, RestOf;
    Fields(k);
    var _ := S.SemDel(k, o);
  }

  method NewEvent(k: Kernel, o: Obj, flags: Flags)
    requires k.Valid() && Unused(k, o) && o !in k.next
    modifies k`objs, k`waiters, k`owner, k`sent, k`got
    ensures k.Valid() && k.due == old(k.due) && k.now == old(k.now)
    ensures ObjectEffect(old(Now(k)), Now(k), o, Event(flags))
  {
    hide Kernel.Valid, Kernel.V;
    Fields(k);
    E.EventCreate(k, o, flags);
  }

  method PostFlags(k: Kernel, o: Obj, flags: Flags, mask: bool)
    requires k.Valid() && o in k.objs
    modifies k`objs, k`state, k`waiters, k`tickHead, k`blkState, k`blkObj, k`active, k`pendInfo, k.rq
    ensures k.Valid() && k.due == old(k.due) && k.now == old(k.now)
    ensures SetEventEffect(old(Now(k)), Now(k), o, flags, mask)
  {
    hide Kernel.Valid, Kernel.V, E.Informed, E.Matching, E.LeftOver, E.Progress;
    Fields(k);
    k.ValidHere(o);
    var _ := E.EventSet(k, o, flags, mask);
  }

  method DropEvent(k: Kernel, o: Obj)
    requires k.Valid() && o in k.objs
    modifies k`objs, k`state, k`waiters, k`tickHead, k`blkState, k`blkObj, k`active, k.rq
    ensures k.Valid() && k.due == old(k.due) && k.now == old(k.now)
    ensures old(k.objs[o].Event?) ==> DeleteEffect(old(Now(k)), Now(k), o)
    ensures !old(k.objs[o].Event?) ==> Now(k) == old(Now(k))
  {
    hide Kernel.Valid, Kernel.V, ObjectGone, Told, WentOn, RestOf;
    Fields(k);
    var _ := E.EventDel(k, o);
  }

  method NewQueue(k: Kernel, o: Obj, size: nat, maxMsg: nat)
    requires k.Valid() && Unused(k, o) && o !in k.next
    modifies k`objs, k`waiters, k`owner, k`sent, k`got
    ensures k.Valid() && k.due == old(k.due) && k.now == old(k.now)
    ensures QueueEffect(CreateQueue(o, size, maxMsg), old(Now(k)), Now(k))
  {
    hide Kernel.Valid, Kernel.V;
    Fields(k);
    var _ := B.BufQueueCreate(k, o, size, maxMsg);
  }

  /** The queue does not take the message. */
  predicate Refused(k: Kernel, o: Obj, m: Message)
    requires o in k.objs && o in k.waiters
    reads k
  {
    var obj := k.objs[o];
    !obj.BufQueue? || |m| > obj.maxMsg || |m| == 0 ||
    (k.waiters[o] == [] && B.StoreResult(obj.msgs, obj.capacity, |m|) != Success)
  }

  method TrySend(k: Kernel, o: Obj, m: Message)
    requires k.Valid() && o in k.objs && o in k.waiters
    modifies k`objs, k`msg, k`state, k`waiters, k`tickHead, k`blkState, k`blkObj, k`active, k`sent, k`got, k.rq
    ensures k.Valid()
    ensures old(Refused(k, o, m)) ==> k.V() == old(k.V()) && unchanged(k`active, k`blkState, k`msg, k`sent, k`got)
    ensures !old(Refused(k, o, m)) ==> o in old(k.sent) && k.sent == old(k.sent)[o := old(k.sent[o]) + [m]]
    ensures !old(Refused(k, o, m)) && old(k.waiters[o]) == [] ==>
      k.V() == old(k.V()).(objs := old(k.objs)[o := old(k.objs[o]).(msgs := old(k.objs[o].msgs) + [m])]) &&
      unchanged(k`active, k`blkState, k`msg, k`got)
    ensures !old(Refused(k, o, m)) && old(k.waiters[o]) != [] ==>
      o in old(k.got) && k.got == old(k.got)[o := old(k.got[o]) + [m]] &&
      k.V() == AllWoken(old(k.V()), [old(k.waiters[o][0])]) &&
      k.blkState == Told(old(k.blkState), [old(k.waiters[o][0])], BlkFinish) &&
      k.msg == old(k.msg)[old(k.waiters[o][0]) := m]
  {
    hide Kernel.Valid, Kernel.V, AllWoken, Told, WentOn;
    var _ := B.Send(k, o, m);
  }

  method SendOn(k: Kernel, o: Obj, m: Message)
    requires k.Valid() && o in k.objs
    modifies k`objs, k`msg, k`state, k`waiters, k`tickHead, k`blkState, k`blkObj, k`active, k`sent, k`got, k.rq
    ensures k.Valid() && k.due == old(k.due) && k.now == old(k.now)
    ensures SendEffect(old(Now(k)), Now(k), o, m)
  {
    hide Kernel.Valid, Kernel.V, AllWoken, Told, B.StoreResult;
    k.ValidHere(o);
    k.ViewHere();
    k.ObjectsHere();
    TrySend(k, o, m);
  }

  method DropQueue(k: Kernel, o: Obj)
    requires k.Valid() && o in k.objs
    modifies k`objs, k`state, k`waiters, k`tickHead, k`blkState, k`blkObj, k`active, k.rq
    ensures k.Valid() && k.due == old(k.due) && k.now == old(k.now)
    ensures old(k.objs[o].BufQueue?) ==> DeleteEffect(old(Now(k)), Now(k), o)
    ensures !old(k.objs[o].BufQueue?) ==> Now(k) == old(Now(k))
  {
    hide Kernel.Valid, Kernel.V, ObjectGone, Told, WentOn, RestOf;
    Fields(k);
    var _ := B.BufQueueDel(k, o);
  }

  predicate MayWait(k: Kernel, o: Obj, ticks: nat)
    reads k
  {
    o in k.objs && k.active != k.idle && (ticks == 0 || Kernel.TicksOk(ticks))
  }

  /** The call finds nothing, and the running task has to wait. */
  ghost predicate Blocks(k: Kernel, c: Call)
    requires MayBlock(c)
    reads k
  {
    && k.schedLock == 0 && c.ticks > 0
    && match c
       case SleepFor(_) => true
       case LockMutex(o, _) => o in k.objs && k.objs[o].Mutex? && o in k.owner && k.owner[o] != k.active
       case TakeSem(o, _) => o in k.objs && k.objs[o].Sem? && k.objs[o].count == 0
       case GetEvent(o, want, all, _, _) => o in k.objs && k.objs[o].Event? && !Met(k.objs[o].flags, want, all)
       case RecvMsg(o, _) => o in k.objs && k.objs[o].BufQueue? && k.objs[o].msgs == []
  }

  /** If it has to wait, the task sleeps or pends, and is due in `ticks` ticks unless it waits forever. */
  ghost predicate Parked(blocked: bool, t: Task, asleep: bool, ticks: nat, state0: map<Task, TaskState>,
      state: map<Task, TaskState>, due0: map<Task, nat>, due: map<Task, nat>, head: seq<Task>, now: nat) {
    if blocked then
      && state == state0[t := if asleep then Sleep else Pend]
      && (t in head <==> asleep || ticks != WAIT_FOREVER)
      && due == if asleep || ticks != WAIT_FOREVER then due0[t := now + ticks] else due0
    else
      state == state0 && due == due0
  }

  method SleepForCall(k: Kernel, c: Call) returns (r: Status)
    requires k.Valid() && c.SleepFor? && k.active != k.idle && c.ticks < TICK_RANGE
    modifies k`state, k`tickHead, k`tickMatch, k`due, k`active, k.rq
    ensures k.Valid() && (r == Blocked <==> old(Blocks(k, c)))
    ensures Parked(r == Blocked, old(k.active), c.SleepFor?, c.ticks, old(k.state), k.state, old(k.due), k.due,
      k.tickHead, k.now)
    ensures SleepEffect(old(Now(k)), Now(k), c.ticks)
  {
    hide Kernel.Valid, Kernel.V, FellAsleep, RestOf;
    r := k.TaskSleep(c.ticks);
  }

  method LockMutexCall(k: Kernel, c: Call) returns (r: Status)
    requires k.Valid() && c.LockMutex? && MayWait(k, c.o, c.ticks)
    modifies k`owner, k`mutexList, k`nested, k`head, k`next, k`state, k`blkObj, k`waiters, k`tickHead, k`tickMatch,
      k`due, k`prio, k`active, k.rq
    ensures k.Valid() && (r == Blocked <==> old(Blocks(k, c)))
    ensures Parked(r == Blocked, old(k.active), c.SleepFor?, c.ticks, old(k.state), k.state, old(k.due), k.due,
      k.tickHead, k.now)
    ensures LockEffect(old(Now(k)), Now(k), c.o, c.ticks)
  {
    hide Kernel.Valid, Kernel.V, Taken, LockedOut, Kernel.Pushed, OnlyRaised, RestOf;
    k.ViewHere();
    k.ObjectsHere();
    r := k.MutexLock(c.o, c.ticks);
  }

  method TakeSemCall(k: Kernel, c: Call) returns (r: Status)
    requires k.Valid() && c.TakeSem? && MayWait(k, c.o, c.ticks)
    modifies k`objs, k`state, k`blkObj, k`waiters, k`tickHead, k`tickMatch, k`due, k`active, k.rq
    ensures k.Valid() && (r == Blocked <==> old(Blocks(k, c)))
    ensures Parked(r == Blocked, old(k.active), c.SleepFor?, c.ticks, old(k.state), k.state, old(k.due), k.due,
      k.tickHead, k.now)
    ensures TakeEffect(old(Now(k)), Now(k), c.o, c.ticks)
  {
    hide Kernel.Valid, Kernel.V, Entered, RestOf;
    k.ObjectsHere();
    r := S.SemTake(k, c.o, c.ticks);
  }

  method GetEventCall(k: Kernel, c: Call) returns (r: Status)
    requires k.Valid() && c.GetEvent? && MayWait(k, c.o, c.ticks)
    modifies k`objs, k`pendFlags, k`pendAll, k`pendClear, k`state, k`blkObj, k`waiters, k`tickHead, k`tickMatch, k`due,
      k`active, k.rq
    ensures k.Valid() && (r == Blocked <==> old(Blocks(k, c)))
    ensures Parked(r == Blocked, old(k.active), c.SleepFor?, c.ticks, old(k.state), k.state, old(k.due), k.due,
      k.tickHead, k.now)
    ensures GetEffect(old(Now(k)), Now(k), c.o, c.flags, c.all, c.clear, c.ticks)
  {
    hide Kernel.Valid, Kernel.V, Entered, Met, RestOf;
    k.ObjectsHere();
    k.WantsAre();
    var actual;
    r, actual := E.EventGet(k, c.o, c.flags, c.all, c.clear, c.ticks);
  }

  method RecvMsgCall(k: Kernel, c: Call) returns (r: Status)
    requires k.Valid() && c.RecvMsg? && MayWait(k, c.o, c.ticks)
    modifies k`objs, k`got, k`state, k`blkObj, k`waiters, k`tickHead, k`tickMatch, k`due, k`active, k.rq
    ensures k.Valid() && (r == Blocked <==> old(Blocks(k, c)))
    ensures Parked(r == Blocked, old(k.active), c.SleepFor?, c.ticks, old(k.state), k.state, old(k.due), k.due,
      k.tickHead, k.now)
    ensures ReceiveEffect(old(Now(k)), Now(k), c.o, c.ticks)
  {
    hide Kernel.Valid, Kernel.V, Entered, RestOf;
    k.ObjectsHere();
    var m;
    r, m := B.Recv(k, c.o, c.ticks);
  }
}
