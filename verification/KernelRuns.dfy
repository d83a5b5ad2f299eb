/** Whole runs: any sequence of calls, in any order, by whatever task is running, keeps the kernel invariant; and what
    that invariant means for the tasks. */
module KernelRuns {
  import opened KernelTypes
  import opened Lists
  import opened RunQueues
  import opened TickLists
  import opened KernelState
  import opened KernelMoves
  import opened KernelSteps
  import opened MutexLinks
  import opened Kernel
  import opened KernelEffects
  import PI = PriorityInheritance
  import C = KernelCalls
  import S = Semaphores
  import E = Events
  import B = BufQueues

  /** What the kernel demands of its callers: control blocks exist, or are not in use when something is created; the
      idle task does not block; timeouts are in range. */
  predicate Asked(k: Kernel, c: Call)
    reads k
  {
    match c
    case TickCall => true
    case CreateTask(t, _, _, _) => t in k.state ==> k.state[t].Deleted?
    case DeleteTask(t) => t in k.state
    case SuspendTask(t) => t in k.state
    case ResumeTask(t) => t in k.state
    case AbortWait(t) => t in k.state
    case ChangePriority(t, _) => t in k.state
    case SleepFor(ticks) => k.active != k.idle && ticks < TICK_RANGE
    case YieldCpu => true
    case LockSched => true
    case UnlockSched => true
    case CreateMutex(o) => C.Unused(k, o)
    case CreateSem(o, _) => C.Unused(k, o) && o !in k.next
    case CreateEvent(o, _) => C.Unused(k, o) && o !in k.next
    case CreateQueue(o, _, _) => C.Unused(k, o) && o !in k.next
    case LockMutex(o, ticks) => C.MayWait(k, o, ticks)
    case TakeSem(o, ticks) => C.MayWait(k, o, ticks)
    case GetEvent(o, _, _, _, ticks) => C.MayWait(k, o, ticks)
    case RecvMsg(o, ticks) => C.MayWait(k, o, ticks)
    case UnlockMutex(o) => o in k.objs
    case DeleteMutex(o) => o in k.objs
    case GiveSem(o, _) => o in k.objs
    case SetSem(o, _) => o in k.objs
    case DeleteSem(o) => o in k.objs
    case SetEvent(o, _, _) => o in k.objs
    case DeleteEvent(o) => o in k.objs
    case SendMsg(o, _) => o in k.objs
    case DeleteQueue(o) => o in k.objs
  }

  /** A task that was deleted is deleted again only if that does no harm. */
  ghost predicate Allowed(k: Kernel, c: Call)
    reads k
  {
    Asked(k, c) && (c.DeleteTask? && k.state[c.t].Deleted? ==> k.Harmless(c.t))
  }

  method IsAllowed(k: Kernel, c: Call) returns (b: bool)
    requires k.Valid()
    ensures b <==> Allowed(k, c)
  {
    hide Kernel.Valid, Kernel.Harmless;
    b := Asked(k, c);
    if b && c.DeleteTask? && k.state[c.t].Deleted? {
      b := k.IsHarmless(c.t);
    }
  }

  /** Calls of a task about tasks. */
  method TaskCall(k: Kernel, c: Call)
    requires k.Valid() && Allowed(k, c) && AboutTasks(c)
    modifies k, k.rq
    ensures k.Valid() && k.due == old(k.due) && k.now == old(k.now) && TaskEffect(c, old(Now(k)), Now(k))
  {
    hide Kernel.Valid, Kernel.V, Kernel.Harmless, CreateEffect, RemoveEffect, SuspendEffect, ResumeEffect, AbortEffect,
      PriorityEffect, YieldEffect,
      UnlockSchedEffect;
    match c
    case CreateTask(t, pri, slice, autorun) => C.Create(k, t, pri, slice, autorun);
    case DeleteTask(t) => C.Delete(k, t);
    case SuspendTask(t) => C.Suspend(k, t);
    case ResumeTask(t) => C.Resume(k, t);
    case AbortWait(t) => C.Abort(k, t);
    case ChangePriority(t, pri) => C.ChangePri(k, t, pri);
    case YieldCpu => C.Yield(k);
    case LockSched => C.Disable(k);
    case UnlockSched => C.Enable(k);
  }

  /** Calls of a task about other objects, except those that may block it. */
  method MutexCall(k: Kernel, c: Call)
    requires k.Valid() && Allowed(k, c) && AboutMutexes(c)
    modifies k, k.rq
    ensures k.Valid() && k.due == old(k.due) && k.now == old(k.now) && MutexEffect(c, old(Now(k)), Now(k))
  {
    hide Kernel.Valid, Kernel.V, UnlockEffect, MutexDelEffect, Placed;
    match c
    case CreateMutex(o) => C.NewMutex(k, o);
    case UnlockMutex(o) => C.Unlock(k, o);
    case DeleteMutex(o) => C.DropMutex(k, o);
  }

  method SemCall(k: Kernel, c: Call)
    requires k.Valid() && Allowed(k, c) && AboutSems(c)
    modifies k, k.rq
    ensures k.Valid() && k.due == old(k.due) && k.now == old(k.now) && SemEffect(c, old(Now(k)), Now(k))
  {
    hide Kernel.Valid, ObjectEffect, GiveEffect, SetSemEffect, DeleteEffect;
    match c
    case CreateSem(o, count) => C.NewSem(k, o, count);
    case GiveSem(o, all) => C.Give(k, o, all);
    case SetSem(o, count) => C.SetCount(k, o, count);
    case DeleteSem(o) => C.DropSem(k, o);
  }

  method EventCall(k: Kernel, c: Call)
    requires k.Valid() && Allowed(k, c) && AboutEvents(c)
    modifies k, k.rq
    ensures k.Valid() && k.due == old(k.due) && k.now == old(k.now) && EventEffect(c, old(Now(k)), Now(k))
  {
    hide Kernel.Valid, ObjectEffect, SetEventEffect, DeleteEffect;
    match c
    case CreateEvent(o, flags) => C.NewEvent(k, o, flags);
    case SetEvent(o, flags, mask) => C.PostFlags(k, o, flags, mask);
    case DeleteEvent(o) => C.DropEvent(k, o);
  }

  method QueueCall(k: Kernel, c: Call)
    requires k.Valid() && Allowed(k, c) && AboutQueues(c)
    modifies k, k.rq
    ensures k.Valid() && k.due == old(k.due) && k.now == old(k.now) && QueueEffect(c, old(Now(k)), Now(k))
  {
    hide Kernel.Valid, ObjectEffect, SendEffect, DeleteEffect;
    match c
    case CreateQueue(o, size, maxMsg) => C.NewQueue(k, o, size, maxMsg);
    case SendMsg(o, m) => C.SendOn(k, o, m);
    case DeleteQueue(o) => C.DropQueue(k, o);
  }

  /** The wait has an end. */
  predicate Timed(c: Call)
    requires MayBlock(c)
  {
    c.SleepFor? || c.ticks != WAIT_FOREVER
  }

  /** Calls that may put the running task on the tick list. */
  method WaitingCall(k: Kernel, c: Call) returns (r: Status)
    requires k.Valid() && Allowed(k, c) && MayBlock(c)
    modifies k`state, k`prio, k`mutexList, k`head, k`blkObj, k`pendFlags, k`pendAll, k`pendClear, k`objs, k`waiters,
      k`owner, k`nested, k`next, k`tickHead,
             k`tickMatch, k`due, k`active, k`got, k.rq
    ensures k.Valid() && WaitEffect(c, old(Now(k)), Now(k))
    ensures Kept(old(k.tickHead), old(k.due), k.due) && (r == Blocked <==> old(C.Blocks(k, c)))
    ensures r == Blocked ==> k.state == old(k.state)[old(k.active) := if c.SleepFor? then Sleep else Pend]
    ensures old(k.active) in k.tickHead <==> r == Blocked && Timed(c)
    ensures old(k.active) in k.tickHead ==> old(k.active) in k.due && k.due[old(k.active)] == k.now + c.ticks
  {
    hide Kernel.Valid, WaitEffect, Now, C.Blocks;
    RunnerIsNotTimed(k);
    r := Wait(k, c);
    if r != Blocked {
      ReadyIsNotTimed(k, old(k.active));
    }
  }

  method Wait(k: Kernel, c: Call) returns (r: Status)
    requires k.Valid() && Allowed(k, c) && MayBlock(c)
    modifies k`state, k`prio, k`mutexList, k`head, k`blkObj, k`pendFlags, k`pendAll, k`pendClear, k`objs, k`waiters,
      k`owner, k`nested, k`next, k`tickHead,
             k`tickMatch, k`due, k`active, k`got, k.rq
    ensures k.Valid() && WaitEffect(c, old(Now(k)), Now(k)) && (r == Blocked <==> old(C.Blocks(k, c)))
    ensures C.Parked(r == Blocked, old(k.active), c.SleepFor?, c.ticks, old(k.state), k.state, old(k.due), k.due,
      k.tickHead, k.now)
  {
    hide Kernel.Valid, Now, C.Blocks, C.Parked, SleepEffect, LockEffect, TakeEffect, GetEffect, ReceiveEffect;
    match c
    case SleepFor(ticks) => r := C.SleepForCall(k, c);
    case LockMutex(o, ticks) => r := C.LockMutexCall(k, c);
    case TakeSem(o, ticks) => r := C.TakeSemCall(k, c);
    case GetEvent(o, want, all, clear, ticks) => r := C.GetEventCall(k, c);
    case RecvMsg(o, ticks) => r := C.RecvMsgCall(k, c);
  }

  /** Every call makes the transition it should, and keeps the invariant and the time at which each waiting task is
      due. */
  method Step(k: Kernel, c: Call)
    requires k.Valid() && Allowed(k, c)
    modifies k, k.rq
    ensures k.Valid() && Kept(old(k.tickHead), old(k.due), k.due) && k.now == old(k.now) + Ticks([c])
    ensures Effect(c, old(Now(k)), Now(k))
    ensures c.TickCall? ==>
      Kernel.AllFired(old(k.tickHead), old(k.state), k.tickHead, k.state, k.due, k.now, k.blkState)
  {
    hide Kernel.Valid, Allowed, Kernel.AllFired, Now, TickEffect, WaitEffect, TaskEffect, MutexEffect, SemEffect,
      EventEffect, QueueEffect;
    if c.TickCall? {
      TickOnce(k);
    } else if MayBlock(c) {
      var _ := WaitingCall(k, c);
    } else if AboutTasks(c) {
      TaskCall(k, c);
    } else if AboutMutexes(c) {
      MutexCall(k, c);
    } else if AboutSems(c) {
      SemCall(k, c);
    } else if AboutEvents(c) {
      EventCall(k, c);
    } else {
      QueueCall(k, c);
    }
  }

  method TickOnce(k: Kernel)
    requires k.Valid()
    modifies k`tickCount, k`now, k`state, k`prio, k`waiters, k`tickHead, k`blkState, k`blkObj, k`timeSlice, k`active,
      k.rq
    ensures k.Valid() && k.now == old(k.now) + 1 && TickEffect(old(Now(k)), Now(k))
    ensures Kernel.AllFired(old(k.tickHead), old(k.state), k.tickHead, k.state, k.due, k.now, k.blkState)
  {
    hide Kernel.Valid, Kernel.V, Kernel.AllFired, Ticked, ToldTimes;
    k.Tick();
  }

  ghost predicate Kept(head: seq<Task>, due0: map<Task, nat>, due: map<Task, nat>) {
    forall t :: t in head && t in due0 ==> t in due && due[t] == due0[t]
  }

  lemma ReadyIsNotTimed(k: Kernel, t: Task)
    requires k.Valid() && t in k.state && k.state[t].Ready?
    ensures t !in k.tickHead
  {
    hide Kernel.V, Kernel.Sound, Owned, Inherits, NestedOk, HistoryOk, Kernel.Linked;
    k.Here(t, k.now);
  }

  lemma RunnerIsNotTimed(k: Kernel)
    requires k.Valid()
    ensures k.active in k.state && k.state[k.active].Ready? && k.active !in k.tickHead
  {
    ReadyIsNotTimed(k, k.active);
  }

  /** What every call has in common: time moves with ticks only, and waiting tasks keep their due times. */
  ghost predicate Followed(v: View, v': View, c: Call) {
    v'.now == v.now + Ticks([c]) && Kept(v.tickHead, v.due, v'.due)
  }

  /** One entry of a run: the call was made and had its effect, or it was not allowed and nothing happened. */
  ghost predicate Entry(w: World, w': World, c: Call, made: bool) {
    && (made ==> Fits(w, c) && Effect(c, w, w') && Followed(w.v, w'.v, c)) && (!made ==> w' == w)
    && (Plain(w, c) && Fits(w, c) ==> made)
  }

  /** The data agree, and the running task is the right one. */
  ghost predicate Orderly(w: World) {
    && Consistent(w.v, w.v.now) && w.run in w.v.state && w.v.state[w.run].Ready?
    && (w.lock == 0 ==> exists p :: FirstOf(w.v.list, p, w.run))
  }

  /** `t` is the head of the most urgent ring. */
  ghost predicate FirstOf(list: seq<seq<Task>>, p: int, t: Task) {
    0 <= p < |list| && list[p] != [] && list[p][0] == t && forall q :: 0 <= q < p ==> list[q] == []
  }

  /** From the started system, every call of a run that is allowed makes the transition it should, and every state in
      between satisfies the invariant. `made` tells which calls were allowed, and `past` holds the state before each
      call and at the end. */
  method Run(idle: Task, calls: seq<Call>) returns (k: Kernel, made: seq<bool>, ghost past: seq<World>)
    ensures fresh(k) && k.Valid() && |made| == |calls| && |past| == |calls| + 1 && Started(past[0].v) &&
      past[|calls|] == Now(k)
    ensures forall i :: 0 <= i <= |calls| ==> Orderly(past[i])
    ensures forall i :: 0 <= i < |calls| ==> Entry(past[i], past[i + 1], calls[i], made[i])
  {
    hide Kernel.Valid, Kernel.Linked, Kernel.V, Allowed, Started, Orderly, Entry, RunQueue.Valid;
    k := new Kernel(idle);
    k.StartedIsValid();
    made, past := [], [Now(k)];
    ValidIsOrderly(k);
    for i := 0 to |calls|
      invariant fresh(k) && fresh(k.rq) && k.Valid() && |made| == i && |past| == i + 1 && Started(past[0].v) &&
        past[i] == Now(k)
      invariant forall j :: 0 <= j <= i ==> Orderly(past[j])
      invariant forall j :: 0 <= j < i ==> Entry(past[j], past[j + 1], calls[j], made[j])
    {
      var ok := TryCall(k, calls[i]);
      ValidIsOrderly(k);
      made, past := made + [ok], past + [Now(k)];
    }
  }

  method TryCall(k: Kernel, c: Call) returns (ok: bool)
    requires k.Valid()
    modifies k, k.rq
    ensures k.Valid() && Entry(old(Now(k)), Now(k), c, ok)
  {
    hide Kernel.Valid, Kernel.V, Allowed, Effect, Kernel.AllFired, Kept, Ticks, Fits, Plain;
    AllowedFits(k, c);
    ok := IsAllowed(k, c);
    if ok {
      MakeCall(k, c);
    }
  }

  lemma AllowedFits(k: Kernel, c: Call)
    ensures Allowed(k, c) ==> Fits(Now(k), c)
    ensures Plain(Now(k), c) && Fits(Now(k), c) ==> Allowed(k, c)
  {
    hide Kernel.V, Kernel.Harmless, RestOf;
    Fields(k);
  }

  method MakeCall(k: Kernel, c: Call)
    requires k.Valid() && Allowed(k, c)
    modifies k, k.rq
    ensures k.Valid() && Effect(c, old(Now(k)), Now(k)) && Followed(old(k.V()), k.V(), c)
  {
    hide Kernel.Valid, Allowed, Effect, Now, Kernel.AllFired, Kept, Ticks;
    Step(k, c);
  }

  lemma ValidIsOrderly(k: Kernel)
    requires k.Valid()
    ensures Orderly(Now(k))
  {
    hide Queued, Owned, Inherits, Kernel.Linked, NestedOk, HistoryOk, RestOf;
    if k.schedLock == 0 {
      assert FirstOf(k.rq.list, k.rq.highest, k.active);
    }
  }

  // ----- Timeouts -----

  /** The ticks in a run. */
  function Ticks(calls: seq<Call>): (n: nat) {
    if calls == [] then 0 else Ticks(calls[..|calls| - 1]) + if calls[|calls| - 1].TickCall? then 1 else 0
  }

  lemma TicksMore(calls: seq<Call>, n: nat)
    requires n < |calls|
    ensures Ticks(calls[..n + 1]) == Ticks(calls[..n]) + Ticks([calls[n]])
  {
    assert calls[..n + 1][..n] == calls[..n];
    assert [calls[n]][..0] == [];
  }

  lemma TickIsAllowed(k: Kernel)
    ensures Allowed(k, TickCall)
  {
  }

  lemma NotYetDue(k: Kernel, t: Task)
    requires k.Valid() && t in k.tickHead
    ensures t in k.due && k.now < k.due[t]
  {
    hide TcbOk, ReadyOk, WaitOk, SortedOk, NoLostWakeup, RunQueue.Valid, Owned, Inherits, NestedOk, HistoryOk,
      Kernel.Linked;
  }

  /** Over any run, a task on the tick list stays there, with the same due time, until a call takes it off before that
      time or a tick takes it off at that time exactly. Only a wait of more than half the range of the counter can end
      early. */
  method Watch(k: Kernel, t: Task, calls: seq<Call>) returns (n: nat)
    requires k.Valid() && t in k.tickHead
    modifies k, k.rq
    ensures k.Valid() && n <= |calls| && k.now == old(k.now) + Ticks(calls[..n]) && t in old(k.due)
    ensures t in k.tickHead ==> n == |calls| && k.now < old(k.due[t]) && t in k.due && k.due[t] == old(k.due[t])
    ensures t !in k.tickHead ==> n > 0
    ensures t !in k.tickHead && !calls[n - 1].TickCall? ==> k.now < old(k.due[t])
    ensures t !in k.tickHead && calls[n - 1].TickCall? ==> k.now == old(k.due[t]) || old(k.due[t]) - k.now >= HALF_RANGE
    ensures t !in k.tickHead && calls[n - 1].TickCall? && old(k.due[t] - k.now) <= HALF_RANGE ==> k.now == old(k.due[t])
    ensures t !in k.tickHead && calls[n - 1].TickCall? ==>
      t in k.state && k.state[t] in {Ready, Suspended} && t in k.blkState && k.blkState[t] in {BlkFinish, BlkTimeout}
  {
    hide Kernel.Valid, Allowed, Kernel.AllFired;
    n := 0;
    NotYetDue(k, t);
    while n < |calls|
      invariant n <= |calls| && k.Valid() && t in k.tickHead && t in k.due && k.due[t] == old(k.due[t]) &&
        k.now == old(k.now) + Ticks(calls[..n])
    {
      NotYetDue(k, t);
      ghost var head0, state0 := k.tickHead, k.state;
      var ok := IsAllowed(k, calls[n]);
      if ok {
        Step(k, calls[n]);
      } else {
        TickIsAllowed(k);
      }
      TicksMore(calls, n);
      n := n + 1;
      if t !in k.tickHead {
        if calls[n - 1].TickCall? {
          TimedOut(head0, state0, k.tickHead, k.state, k.due, k.now, k.blkState, t);
        }
        return;
      }
    }
    NotYetDue(k, t);
  }

  /** The running task makes a call that may block it, and `calls` follow. If it has to wait for `c.ticks` ticks, it
      waits until a call takes it off the tick list before that many ticks, or a tick does after exactly that many. */
  method WaitAndWatch(k: Kernel, c: Call, calls: seq<Call>) returns (r: Status, n: nat)
    requires k.Valid() && Allowed(k, c) && MayBlock(c)
    modifies k, k.rq
    ensures k.Valid() && n <= |calls| && k.now == old(k.now) + Ticks(calls[..n]) &&
      (r == Blocked <==> old(C.Blocks(k, c)))
    ensures !(r == Blocked && Timed(c)) ==> n == 0 && old(k.active) !in k.tickHead
    ensures r == Blocked && !Timed(c) ==> k.state == old(k.state)[old(k.active) := Pend]
    ensures r == Blocked && Timed(c) && old(k.active) in k.tickHead ==>
              n == |calls| && Ticks(calls) < c.ticks && old(k.active) in k.due &&
              k.due[old(k.active)] == old(k.now) + c.ticks
    ensures r == Blocked && Timed(c) && old(k.active) !in k.tickHead ==> n > 0
    ensures n > 0 && old(k.active) !in k.tickHead && !calls[n - 1].TickCall? ==> Ticks(calls[..n]) < c.ticks
    ensures n > 0 && old(k.active) !in k.tickHead && calls[n - 1].TickCall? ==>
              Ticks(calls[..n]) == c.ticks || (c.ticks > HALF_RANGE && Ticks(calls[..n]) < c.ticks)
  {
    hide Kernel.Valid, Allowed, Ticks, C.Blocks, WaitEffect, Now;
    var t := k.active;
    NoTicks();
    r := WaitingCall(k, c);
    n := 0;
    assert calls[..0] == [] && calls[..|calls|] == calls;
    if t in k.tickHead {
      n := Watch(k, t, calls);
    }
  }

  lemma NoTicks()
    ensures Ticks([]) == 0
  {
  }

  lemma TimedOut(head0: seq<Task>, state0: map<Task, TaskState>, head: seq<Task>, state: map<Task, TaskState>,
      due: map<Task, nat>, now: nat,
                 why: map<Task, BlkState>, t: Task)
    requires Kernel.AllFired(head0, state0, head, state, due, now, why) && t in head0 && t !in head
    ensures t in due && (due[t] <= now || due[t] - now >= HALF_RANGE)
    ensures t in state && state[t] in {Ready, Suspended} && t in why && why[t] in {BlkFinish, BlkTimeout}
  {
    assert Kernel.Fired(head0, state0, head, state, due, now, why, t);
  }

  // ----- What the invariant means -----

  /** Unless scheduling is locked, no ready task is more urgent than the running one. */
  lemma RunsTheMostUrgent(k: Kernel, t: Task)
    requires k.Valid() && k.schedLock == 0 && t in k.state && k.state[t].Ready?
    ensures t in k.prio && k.active in k.prio && k.prio[k.active] <= k.prio[t]
  {
    hide Queued, Owned, Inherits, NestedOk, HistoryOk;
    LiveFacts(k.V(), k.now, t);
    LiveFacts(k.V(), k.now, k.active);
    RingOf(k.V(), k.now, k.active, k.rq.highest);
  }

  lemma RingOf(v: View, lo: nat, t: Task, p: nat)
    requires Queued(v, lo) && p < |v.list| && t in v.list[p]
    ensures t in v.prio && v.prio[t] == p
  {
    hide TcbOk, WaitOk, SortedOk, TimedOk, TickList, NoLostWakeup;
  }

  /** No priority inversion: if the chain of owners behind a blocked task ends in a ready task, then the running task is
      at least as urgent as the blocked one, by base priority as well. */
  lemma NoInversion(k: Kernel, u: Task, t: Task)
    requires k.Valid() && k.schedLock == 0 && u in k.state && Live(k.state[u]) && PI.WaitsFor(u, t, Wf(k.V())) &&
      t in k.state && k.state[t].Ready?
    ensures u in k.prio && u in k.bprio && k.active in k.prio && k.prio[k.active] <= k.prio[u] <= k.bprio[u]
  {
    RunsTheMostUrgent(k, t);
    hide Queued, Owned, NestedOk, HistoryOk, WaitFor, PI.Fix, PI.Graph;
    LiveFacts(k.V(), k.now, u);
    PI.OwnerAsUrgentAsWaiters(u, t, k.prio, BaseOf(k.V()), Wf(k.V()));
  }

  /** Where no deadlock leads, a task runs at the most urgent base priority among itself and all tasks blocked behind
      it. */
  lemma RunsAtInheritedPriority(k: Kernel, t: Task)
    requires k.Valid() && t in k.state && Live(k.state[t])
    requires forall v :: v in BaseOf(k.V()) && PI.Deadlocked(v, Wf(k.V())) ==> !PI.WaitsFor(v, t, Wf(k.V()))
    ensures t in k.prio
    ensures forall u :: u in BaseOf(k.V()) && PI.WaitsFor(u, t, Wf(k.V())) ==> k.prio[t] <= k.bprio[u]
    ensures exists u :: u in BaseOf(k.V()) && PI.WaitsFor(u, t, Wf(k.V())) && k.prio[t] == k.bprio[u]
  {
    hide Queued, Owned, NestedOk, HistoryOk, WaitFor, PI.Fix, PI.Graph;
    LiveFacts(k.V(), k.now, t);
    PI.FixIsTransitiveMinimum(t, k.prio, BaseOf(k.V()), Wf(k.V()));
  }

  /** A task waits for flags, and others are set: it goes on if and only if its condition is met then, and it learns
      the flags that met it. */
  method WaitThenSet(k: Kernel, o: Obj, want: Flags, all: bool, clear: bool, ticks: nat, flags: Flags)
      returns (r: Status)
    requires k.Valid() && o in k.objs && k.objs[o].Event? && k.active != k.idle && k.schedLock == 0 &&
      Kernel.TicksOk(ticks)
    modifies k, k.rq
    ensures k.Valid() && (r == Blocked <==> !Met(old(k.objs[o].flags), want, all)) && o in k.waiters
    ensures r == Blocked ==>
      Answered(old(k.active), old(k.objs[o].flags) + flags, want, all, k.state, k.waiters[o], k.blkState, k.pendInfo)
  {
    hide Kernel.Valid, Kernel.V, Met, E.Informed, E.Matching, E.LeftOver, Entered, E.EventAnswered;
    var t := k.active;
    var actual;
    r, actual := E.EventGet(k, o, want, all, clear, ticks);
    k.ValidHere(o);
    if r == Blocked {
      Waits(k, t, o);
      var posted := E.EventSet(k, o, flags, false);
    }
  }

  ghost predicate Answered(t: Task, cur: Flags, want: Flags, all: bool, state: map<Task, TaskState>, q: seq<Task>,
      why: map<Task, BlkState>, info: map<Task, Flags>) {
    && t in state && (state[t] == if Met(cur, want, all) then Ready else Pend) && (t in q <==> !Met(cur, want, all))
    && (Met(cur, want, all) ==> t in why && why[t] == BlkFinish && t in info && info[t] == cur)
  }

  lemma Waits(k: Kernel, t: Task, o: Obj)
    requires k.Valid() && t in k.state && Pending(k.state[t]) && t in k.blkObj && k.blkObj[t] == o
    ensures o in k.waiters && t in k.waiters[o]
  {
    hide TcbOk, ReadyOk, SortedOk, TimedOk, TickList, NoLostWakeup, Owned, Inherits, NestedOk, HistoryOk, Kernel.Linked,
      RunQueue.Valid;
  }

  /** A buffer queue delivers every message once and in the order sent. */
  lemma InOrder(k: Kernel, o: Obj)
    requires k.Valid() && o in k.objs && k.objs[o].BufQueue?
    ensures o in k.sent && o in k.got && k.got[o] <= k.sent[o] && k.sent[o] == k.got[o] + k.objs[o].msgs
    ensures o in k.waiters && (k.waiters[o] != [] ==> k.got[o] == k.sent[o])
  {
    hide Queued, Owned, Inherits, NestedOk;
    k.NobodyWaits(o);
  }

  /** The first waiter for a mutex of a deleted task inherits it with the nesting depth the deleted task had reached.
      If it runs next, its first unlock releases the mutex if and only if the deleted task had locked it once. */
  method UnlockAfterDeletion(k: Kernel, t: Task, m: Obj) returns (deleted: Status, runner: Task, unlocked: Status)
    requires k.Valid() && t in k.state && Live(k.state[t]) && t in k.mutexList && m in k.mutexList[t] && m in k.objs &&
      k.objs[m].Mutex?
    requires m in k.nested && m in k.waiters && k.waiters[m] != []
    modifies k, k.rq
    ensures k.Valid()
    ensures deleted == Success && runner == old(k.waiters[m][0]) ==> unlocked == if old(k.nested[m]) == 1 then Success
      else OwnerNested
    ensures deleted == Success && runner != old(k.waiters[m][0]) ==> unlocked == NotOwner
  {
    hide Kernel.Valid, Kernel.OnlyWoken, Kernel.Harmless, Ownership, TaskGone, Kernel.Bestowed, Kernel.StaleGiven,
      Unlocked, Kernel.Relinked, Kernel.HeirsWoken;
    deleted := k.TaskDel(t);
    runner := k.active;
    unlocked := k.MutexUnlock(m);
  }
}
