/** What each call does to the whole kernel: the transitions that runs are made of. */
module KernelEffects {
  import opened KernelTypes
  import opened Lists
  import opened KernelState
  import opened KernelMoves
  import opened KernelSteps
  import opened Kernel
  import S = Semaphores
  import E = Events
  import B = BufQueues

  /** A call of the running task, or the tick interrupt. */
  datatype Call =
    | TickCall
    | CreateTask(t: Task, pri: nat, slice: nat, autorun: bool) | DeleteTask(t: Task)
    | SuspendTask(t: Task) | ResumeTask(t: Task) | AbortWait(t: Task) | ChangePriority(t: Task, pri: nat)
    | SleepFor(ticks: nat) | YieldCpu | LockSched | UnlockSched
    | CreateMutex(o: Obj) | LockMutex(o: Obj, ticks: nat) | UnlockMutex(o: Obj) | DeleteMutex(o: Obj)
    | CreateSem(o: Obj, count: SemCount) | GiveSem(o: Obj, all: bool) | TakeSem(o: Obj, ticks: nat)
    | SetSem(o: Obj, count: SemCount) | DeleteSem(o: Obj)
    | CreateEvent(o: Obj, flags: Flags) | SetEvent(o: Obj, flags: Flags, mask: bool)
    | GetEvent(o: Obj, flags: Flags, all: bool, clear: bool, ticks: nat) | DeleteEvent(o: Obj)
    | CreateQueue(o: Obj, size: nat, maxMsg: nat) | SendMsg(o: Obj, m: Message) | RecvMsg(o: Obj, ticks: nat)
    | DeleteQueue(o: Obj)

  /** What only some calls look at: time slices, and what tasks and queues have been told. */
  datatype Rest = Rest(slice: map<Task, nat>, total: map<Task, nat>, info: map<Task, Flags>, msg: map<Task, Message>,
    sent: map<Obj, seq<Message>>)

  /** The kernel as its callers see it. */
  datatype World = World(v: View, run: Task, lock: nat, nested: map<Obj, nat>, why: map<Task, BlkState>,
    clear: map<Task, bool>, got: map<Obj, seq<Message>>, rest: Rest)

  ghost function RestOf(k: Kernel): Rest
    reads k`timeSlice, k`timeTotal, k`pendInfo, k`msg, k`sent
  {
    Rest(k.timeSlice, k.timeTotal, k.pendInfo, k.msg, k.sent)
  }

  ghost function Now(k: Kernel): World
    reads k, k.rq
  {
    World(k.V(), k.active, k.schedLock, k.nested, k.blkState, k.pendClear, k.got, RestOf(k))
  }

  /** Only the queues change, and with them who runs. */
  ghost predicate Queues(w: World, w': World) {
    w' == w.(v := w'.v, run := w'.run)
  }

  ghost predicate QueuesAndReasons(w: World, w': World) {
    w' == w.(v := w'.v, run := w'.run, why := w'.why)
  }

  ghost predicate CreateEffect(w: World, w': World, t: Task, pri: nat, slice: nat, autorun: bool) {
    if pri >= IDLE_PRI then w' == w
    else
      var n := if slice > 0 then slice else TIME_SLICE_DEFAULT;
      w' == w.(v := w'.v, run := w'.run,
               rest := w.rest.(slice := w.rest.slice[t := n], total := w.rest.total[t := n])) &&
               Born(w.v, w'.v, t, pri, autorun)
  }

  /** A task that was deleted before has only links left, to mutexes that nobody owns or waits for. */
  ghost predicate RemoveEffect(w: World, w': World, t: Task) {
    && t in w.v.state && t in w.v.prio && t in w.v.held
    && if w.v.prio[t] == IDLE_PRI || (t == w.run && w.lock > 0) then w' == w
       else if w.v.state[t].Deleted? then w' == w.(v := w'.v) && w'.v == w.v.(owner := w'.v.owner)
       else QueuesAndReasons(w, w') && TaskGone(w.v, w'.v, w.run, t) &&
            w'.why == Told(w.why, Heirs(w.v.held[t], w.v.waiters), BlkFinish)
  }

  ghost predicate SuspendEffect(w: World, w': World, t: Task) {
    && t in w.v.state && t in w.v.prio && t in w.v.suspend
    && if w.v.prio[t] == IDLE_PRI || (t == w.run && w.lock > 0) || w.v.state[t].Deleted? ||
          (IsSuspended(w.v.state[t]) && w.v.suspend[t] == SUSPEND_MAX) then w' == w
       else Queues(w, w') && SuspendedOnce(w.v, w'.v, t)
  }

  ghost predicate ResumeEffect(w: World, w': World, t: Task) {
    && t in w.v.state
    && if !IsSuspended(w.v.state[t]) then w' == w else Queues(w, w') && ResumedOnce(w.v, w'.v, t)
  }

  ghost predicate AbortEffect(w: World, w': World, t: Task) {
    && t in w.v.state
    && if w.v.state[t].Deleted? then w' == w
       else QueuesAndReasons(w, w') && Aborted(w.v, w'.v, w.run, t) &&
            w'.why == if Sleeping(w.v.state[t]) || Pending(w.v.state[t]) then w.why[t := BlkAbort] else w.why
  }

  ghost predicate PriorityEffect(w: World, w': World, t: Task, pri: nat) {
    && t in w.v.state && t in w.v.prio
    && if w.v.prio[t] >= IDLE_PRI || pri >= IDLE_PRI || w.v.state[t].Deleted? then w' == w
       else Queues(w, w') && Repriced(w.v.(bprio := w.v.bprio[t := pri]), w'.v, w.run)
  }

  ghost predicate YieldEffect(w: World, w': World) {
    && w.run in w.v.prio && w.v.prio[w.run] < |w.v.list| && Queues(w, w')
    && w'.v == w.v.(list := w.v.list[w.v.prio[w.run] := Rotate(w.v.list[w.v.prio[w.run]])])
  }

  ghost predicate UnlockSchedEffect(w: World, w': World) {
    if w.lock == 0 then w' == w
    else w' == w.(lock := w.lock - 1, run := w'.run) && (w.lock > 1 ==> w'.run == w.run)
  }

  ghost predicate TaskEffect(c: Call, w: World, w': World)
    requires AboutTasks(c)
  {
    match c
    case CreateTask(t, pri, slice, autorun) => CreateEffect(w, w', t, pri, slice, autorun)
    case DeleteTask(t) => RemoveEffect(w, w', t)
    case SuspendTask(t) => SuspendEffect(w, w', t)
    case ResumeTask(t) => ResumeEffect(w, w', t)
    case AbortWait(t) => AbortEffect(w, w', t)
    case ChangePriority(t, pri) => PriorityEffect(w, w', t, pri)
    case YieldCpu => YieldEffect(w, w')
    case LockSched => w' == w.(lock := if w.lock >= SCHED_LOCK_MAX then w.lock else w.lock + 1)
    case UnlockSched => UnlockSchedEffect(w, w')
  }

  /** An inner unlock counts down; the last one gives the mutex to its first waiter. */
  ghost predicate UnlockEffect(w: World, w': World, o: Obj) {
    && o in w.v.objs && o in w.v.waiters
    && if !(w.v.objs[o].Mutex? && o in w.v.owner && w.v.owner[o] == w.run) then w' == w
       else if o in w.nested && w.nested[o] > 1 then w' == w.(nested := w.nested[o := w.nested[o] - 1])
       else
         var q := w.v.waiters[o];
         w' == w.(v := w'.v, run := w'.run, nested := w.nested[o := if q == [] then 0 else 1],
                  why := if q == [] then w.why else w.why[q[0] := BlkFinish]) && Unlocked(w.v, w'.v, w.run, o)
  }

  ghost predicate MutexDelEffect(w: World, w': World, o: Obj) {
    && o in w.v.objs
    && if !w.v.objs[o].Mutex? then w' == w
       else QueuesAndReasons(w, w') && MutexGone(w.v, w'.v, w.run, o) && o in w.v.waiters &&
            w'.why == Told(w.why, w.v.waiters[o], BlkDel)
  }

  ghost predicate MutexEffect(c: Call, w: World, w': World)
    requires AboutMutexes(c)
  {
    match c
    case CreateMutex(o) => w' == w.(v := Placed(w.v, o, Mutex))
    case UnlockMutex(o) => UnlockEffect(w, w', o)
    case DeleteMutex(o) => MutexDelEffect(w, w', o)
  }

  /** A new object in a control block that is not in use. */
  ghost function Placed(v: View, o: Obj, obj: Object): View {
    v.(objs := v.objs[o := obj], waiters := v.waiters[o := []], owner := v.owner - {o})
  }

  ghost predicate ObjectEffect(w: World, w': World, o: Obj, obj: Object) {
    w' == w.(v := Placed(w.v, o, obj), got := w.got[o := []], rest := w.rest.(sent := w.rest.sent[o := []]))
  }

  ghost predicate DeleteEffect(w: World, w': World, o: Obj) {
    QueuesAndReasons(w, w') && ObjectGone(w.v, w'.v, o) && o in w.v.waiters &&
    w'.why == Told(w.why, w.v.waiters[o], BlkDel)
  }

  ghost predicate GiveEffect(w: World, w': World, o: Obj, all: bool) {
    && o in w.v.objs && o in w.v.waiters
    && var obj, q := w.v.objs[o], w.v.waiters[o];
       if !obj.Sem? || (q == [] && obj.count == SEM_MAX) then w' == w
       else if q == [] then o in w'.v.objs && w' == w.(v := w.v.(objs := w.v.objs[o := w'.v.objs[o]])) &&
                            S.OneMore(obj, w'.v.objs[o])
       else QueuesAndReasons(w, w') && w'.v == AllWoken(w.v, if all then q else [q[0]]) &&
            w'.why == Told(w.why, if all then q else [q[0]], BlkFinish)
  }

  ghost predicate SetSemEffect(w: World, w': World, o: Obj, count: SemCount) {
    && o in w.v.objs && o in w.v.waiters
    && if !w.v.objs[o].Sem? || w.v.waiters[o] != [] then w' == w
       else w' == w.(v := w.v.(objs := w.v.objs[o := S.Counted(w.v.objs[o], count)]))
  }

  ghost predicate SemEffect(c: Call, w: World, w': World)
    requires AboutSems(c)
  {
    match c
    case CreateSem(o, count) => ObjectEffect(w, w', o, Sem(count, count))
    case GiveSem(o, all) => GiveEffect(w, w', o, all)
    case SetSem(o, count) => SetSemEffect(w, w', o, count)
    case DeleteSem(o) => o in w.v.objs && if w.v.objs[o].Sem? then DeleteEffect(w, w', o) else w' == w
  }

  ghost predicate SetEventEffect(w: World, w': World, o: Obj, flags: Flags, mask: bool) {
    && o in w.v.objs && o in w.v.waiters
    && if !w.v.objs[o].Event? then w' == w
       else if mask then w' == w.(v := w.v.(objs := w.v.objs[o := Event(w.v.objs[o].flags * flags)]))
       else PostEffect(w, w', o, w.v.objs[o].flags + flags)
  }

  ghost predicate PostEffect(w: World, w': World, o: Obj, cur: Flags)
    requires o in w.v.waiters
  {
    var q := w.v.waiters[o];
    && (forall t :: t in q ==> t in w.v.pendFlags && t in w.v.pendAll)
    && w' == w.(v := w'.v, run := w'.run, why := w'.why, rest := w.rest.(info := w'.rest.info))
    && w'.v.objs == w.v.objs[o := Event(E.LeftOver(cur, q, w.v.pendFlags, w.v.pendAll, w.clear))]
    && E.Informed(E.Matching(cur, q, w.v.pendFlags, w.v.pendAll), cur, w.v, w'.v.(objs := w.v.objs), w.why, w'.why,
         w.rest.info, w'.rest.info)
  }

  ghost predicate EventEffect(c: Call, w: World, w': World)
    requires AboutEvents(c)
  {
    match c
    case CreateEvent(o, flags) => ObjectEffect(w, w', o, Event(flags))
    case SetEvent(o, flags, mask) => SetEventEffect(w, w', o, flags, mask)
    case DeleteEvent(o) => o in w.v.objs && if w.v.objs[o].Event? then DeleteEffect(w, w', o) else w' == w
  }

  /** A message is stored, or goes straight to the first receiver. */
  ghost predicate SendEffect(w: World, w': World, o: Obj, m: Message) {
    && o in w.v.objs && o in w.v.waiters
    && var obj, q := w.v.objs[o], w.v.waiters[o];
       if !obj.BufQueue? || |m| > obj.maxMsg || |m| == 0 ||
          (q == [] && B.StoreResult(obj.msgs, obj.capacity, |m|) != Success) then w' == w
       else if q == [] then
         o in w.rest.sent && w' == w.(v := w.v.(objs := w.v.objs[o := obj.(msgs := obj.msgs + [m])]),
                                      rest := w.rest.(sent := w.rest.sent[o := w.rest.sent[o] + [m]]))
       else
         o in w.rest.sent && o in w.got &&
         w' == w.(v := AllWoken(w.v, [q[0]]), run := w'.run, why := Told(w.why, [q[0]], BlkFinish),
                  got := w.got[o := w.got[o] + [m]],
                  rest := w.rest.(msg := w.rest.msg[q[0] := m], sent := w.rest.sent[o := w.rest.sent[o] + [m]]))
  }

  ghost predicate QueueEffect(c: Call, w: World, w': World)
    requires AboutQueues(c)
  {
    match c
    case CreateQueue(o, size, maxMsg) =>
      if maxMsg == 0 || size == 0 then w' == w else ObjectEffect(w, w', o, BufQueue([], size, maxMsg))
    case SendMsg(o, m) => SendEffect(w, w', o, m)
    case DeleteQueue(o) => o in w.v.objs && if w.v.objs[o].BufQueue? then DeleteEffect(w, w', o) else w' == w
  }

  /** The running task cannot wait now. */
  ghost predicate MustNotWait(w: World, ticks: nat) {
    ticks == 0 || w.lock > 0
  }

  ghost predicate SleepEffect(w: World, w': World, ticks: nat) {
    if MustNotWait(w, ticks) then w' == w else Queues(w, w') && FellAsleep(w.v, w'.v, w.run, ticks)
  }

  ghost predicate LockEffect(w: World, w': World, o: Obj, ticks: nat) {
    && o in w.v.objs
    && if !w.v.objs[o].Mutex? then w' == w
       else if o !in w.v.owner then
         w' == w.(v := w'.v, nested := w.nested[o := 1]) && Taken(w.v, w'.v, o, w.run)
       else if w.v.owner[o] == w.run then
         o in w.nested && w' == if w.nested[o] == NESTED_MAX then w else w.(nested := w.nested[o := w.nested[o] + 1])
       else if MustNotWait(w, ticks) then w' == w
       else Queues(w, w') && LockedOut(w.v, w'.v, w.run, o, ticks)
  }

  ghost predicate TakeEffect(w: World, w': World, o: Obj, ticks: nat) {
    && o in w.v.objs
    && var obj := w.v.objs[o];
       if !obj.Sem? then w' == w
       else if obj.count > 0 then w' == w.(v := w.v.(objs := w.v.objs[o := Sem(obj.count - 1, obj.peak)]))
       else if MustNotWait(w, ticks) then w' == w
       else Queues(w, w') && Entered(w.v, w'.v, w.run, o, ticks)
  }

  ghost predicate GetEffect(w: World, w': World, o: Obj, want: Flags, all: bool, clear: bool, ticks: nat) {
    && o in w.v.objs
    && if !w.v.objs[o].Event? then w' == w
       else
         var flags := w.v.objs[o].flags;
         if Met(flags, want, all) then
           w' == w.(v := w.v.(objs := w.v.objs[o := Event(if clear then flags - want else flags)]))
         else if MustNotWait(w, ticks) then w' == w
         else
           var asked := w.v.(pendFlags := w.v.pendFlags[w.run := want], pendAll := w.v.pendAll[w.run := all]);
           w' == w.(v := w'.v, run := w'.run, clear := w.clear[w.run := clear]) &&
           Entered(asked, w'.v, w.run, o, ticks)
  }

  ghost predicate ReceiveEffect(w: World, w': World, o: Obj, ticks: nat) {
    && o in w.v.objs
    && var obj := w.v.objs[o];
       if !obj.BufQueue? then w' == w
       else if obj.msgs != [] then
         o in w.got && w' == w.(v := w.v.(objs := w.v.objs[o := obj.(msgs := obj.msgs[1..])]),
                                got := w.got[o := w.got[o] + [obj.msgs[0]]])
       else if MustNotWait(w, ticks) then w' == w
       else Queues(w, w') && Entered(w.v, w'.v, w.run, o, ticks)
  }

  ghost predicate WaitEffect(c: Call, w: World, w': World)
    requires MayBlock(c)
  {
    match c
    case SleepFor(ticks) => SleepEffect(w, w', ticks)
    case LockMutex(o, ticks) => LockEffect(w, w', o, ticks)
    case TakeSem(o, ticks) => TakeEffect(w, w', o, ticks)
    case GetEvent(o, want, all, clear, ticks) => GetEffect(w, w', o, want, all, clear, ticks)
    case RecvMsg(o, ticks) => ReceiveEffect(w, w', o, ticks)
  }

  ghost predicate TickEffect(w: World, w': World) {
    && w' == w.(v := w'.v, run := w'.run, why := w'.why, rest := w.rest.(slice := w'.rest.slice))
    && Ticked(w.v, w'.v, w.run, w.rest.slice, w'.rest.slice, w.rest.total) && ToldTimes(w.v, w'.v, w.why, w'.why)
  }

  predicate MayBlock(c: Call) {
    c.SleepFor? || c.LockMutex? || c.TakeSem? || c.GetEvent? || c.RecvMsg?
  }

  predicate AboutTasks(c: Call) {
    || c.CreateTask? || c.DeleteTask? || c.SuspendTask? || c.ResumeTask? || c.AbortWait? || c.ChangePriority?
    || c.YieldCpu? || c.LockSched? || c.UnlockSched?
  }

  predicate AboutMutexes(c: Call) {
    c.CreateMutex? || c.UnlockMutex? || c.DeleteMutex?
  }

  predicate AboutSems(c: Call) {
    c.CreateSem? || c.GiveSem? || c.SetSem? || c.DeleteSem?
  }

  predicate AboutEvents(c: Call) {
    c.CreateEvent? || c.SetEvent? || c.DeleteEvent?
  }

  predicate AboutQueues(c: Call) {
    c.CreateQueue? || c.SendMsg? || c.DeleteQueue?
  }

  /** What a call demands of its caller. Where links between mutexes matter, there is more to it. */
  ghost predicate Fits(w: World, c: Call) {
    match c
    case TickCall => true
    case CreateTask(t, _, _, _) => t in w.v.state ==> w.v.state[t].Deleted?
    case DeleteTask(t) => t in w.v.state
    case SuspendTask(t) => t in w.v.state
    case ResumeTask(t) => t in w.v.state
    case AbortWait(t) => t in w.v.state
    case ChangePriority(t, _) => t in w.v.state
    case SleepFor(ticks) => w.run != w.v.idle && ticks < TICK_RANGE
    case YieldCpu => true
    case LockSched => true
    case UnlockSched => true
    case CreateMutex(o) => Vacant(w, o)
    case CreateSem(o, _) => Vacant(w, o)
    case CreateEvent(o, _) => Vacant(w, o)
    case CreateQueue(o, _, _) => Vacant(w, o)
    case LockMutex(o, ticks) => MayPend(w, o, ticks)
    case TakeSem(o, ticks) => MayPend(w, o, ticks)
    case GetEvent(o, _, _, _, ticks) => MayPend(w, o, ticks)
    case RecvMsg(o, ticks) => MayPend(w, o, ticks)
    case UnlockMutex(o) => o in w.v.objs
    case DeleteMutex(o) => o in w.v.objs
    case GiveSem(o, _) => o in w.v.objs
    case SetSem(o, _) => o in w.v.objs
    case DeleteSem(o) => o in w.v.objs
    case SetEvent(o, _, _) => o in w.v.objs
    case DeleteEvent(o) => o in w.v.objs
    case SendMsg(o, _) => o in w.v.objs
    case DeleteQueue(o) => o in w.v.objs
  }

  /** The call has nothing to do with links of mutexes or tasks that are gone. */
  ghost predicate Plain(w: World, c: Call) {
    && !c.CreateSem? && !c.CreateEvent? && !c.CreateQueue?
    && (c.DeleteTask? && c.t in w.v.state ==> !w.v.state[c.t].Deleted?)
  }

  ghost predicate Vacant(w: World, o: Obj) {
    o in w.v.objs ==> w.v.objs[o].Gone? && o in w.v.waiters && w.v.waiters[o] == []
  }

  ghost predicate MayPend(w: World, o: Obj, ticks: nat) {
    o in w.v.objs && w.run != w.v.idle && (ticks == 0 || Kernel.TicksOk(ticks))
  }

  /** The transition that a call makes. */
  ghost predicate Effect(c: Call, w: World, w': World) {
    if c.TickCall? then TickEffect(w, w')
    else if MayBlock(c) then WaitEffect(c, w, w')
    else if AboutTasks(c) then TaskEffect(c, w, w')
    else if AboutMutexes(c) then MutexEffect(c, w, w')
    else if AboutSems(c) then SemEffect(c, w, w')
    else if AboutEvents(c) then EventEffect(c, w, w')
    else QueueEffect(c, w, w')
  }

  /** The parts of the view are the fields. */
  lemma Fields(k: Kernel)
    ensures var v := k.V();
            && v.state == k.state && v.prio == k.prio && v.suspend == k.suspendCount && v.held == k.mutexList
            && v.objs == k.objs && v.waiters == k.waiters && v.owner == k.owner && v.list == k.rq.list
            && v.pendFlags == k.pendFlags && v.pendAll == k.pendAll && v.bprio == k.bprio && v.due == k.due &&
               v.idle == k.idle
  {
  }
}
