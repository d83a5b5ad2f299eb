/** Runs from the started system to states that show what the kernel does not promise. */
module KernelScenarios {
  import opened KernelTypes
  import opened Lists
  import opened RunQueues
  import opened KernelState
  import opened KernelMoves
  import opened KernelSteps
  import opened MutexLinks
  import opened Kernel
  import opened KernelRuns
  import PI = PriorityInheritance

  /** A ready task that is more urgent than all other ready tasks runs. */
  lemma MostUrgentRuns(k: Kernel, t: Task)
    requires k.Valid() && k.schedLock == 0 && t in k.state && k.state[t].Ready? && t in k.prio
    requires forall u :: u in k.state && u != t && k.state[u].Ready? ==> u in k.prio && k.prio[t] < k.prio[u]
    ensures k.active == t
  {
    RunsTheMostUrgent(k, t);
    hide Kernel.V, Kernel.Sound, Owned, Inherits, NestedOk, HistoryOk, Kernel.Linked;
  }

  /** The system as it starts. */
  method Started(idle: Task) returns (k: Kernel)
    ensures fresh(k) && fresh(k.rq) && k.Valid() && k.idle == idle && k.schedLock == 0
    ensures k.state == map[idle := Ready] && k.prio == map[idle := IDLE_PRI] && k.objs == map[] && k.waiters == map[]
  {
    k := new Kernel(idle);
    k.StartedIsValid();
    hide Kernel.Valid, Kernel.Linked, RunQueue.Valid;
  }

  /** Two mutexes and no tasks. */
  method WithMutexes(idle: Task, a: Obj, b: Obj) returns (k: Kernel)
    requires a != b
    ensures fresh(k) && fresh(k.rq) && k.Valid() && k.idle == idle && k.schedLock == 0
    ensures k.state == map[idle := Ready] && k.prio == map[idle := IDLE_PRI]
    ensures k.objs == map[a := Mutex, b := Mutex] && k.waiters == map[a := [], b := []] && a !in k.owner &&
      b !in k.owner
  {
    hide *;
    k := Started(idle);
    k.MutexCreate(a);
    k.MutexCreate(b);
  }

  /** A task that owned mutex 10 is deleted. Task 2 locks mutex 11, then 10, and unlocks 10, which still links to 11.
      When the first task is deleted again, task 2 loses mutex 11 to nobody and keeps it on its list: no mutex lists
      fit the owners and links any more. */
  method DeletedTwice() returns (k: Kernel)
    ensures fresh(k) && !k.Valid()
    ensures forall held :: !Ownership(k.state, k.objs, k.owner, held, k.waiters, k.head, k.next)
  {
    hide Kernel.Valid, Kernel.V, Kernel.OnlyWoken, Kernel.Bequeathed, Kernel.Harmless, Ownership;
    k := WithMutexes(0, 10, 11);
    FirstDeletion(k);
    LaterLocks(k);
    Entangled(k);
    var r := k.TaskDel(1);
    if k.Valid() {
      k.OwnershipHere();
    }
  }

  /** Task `t` is created and, as it is more urgent than all ready tasks, runs. */
  method Launch(k: Kernel, t: Task, pri: nat)
    requires k.Valid() && k.schedLock == 0 && pri < IDLE_PRI && (t in k.state ==> k.state[t].Deleted?)
    requires forall u :: u in k.state && k.state[u].Ready? ==> u in k.prio && pri < k.prio[u]
    modifies k`timeTotal, k`timeSlice, k`state, k`prio, k`bprio, k`suspendCount, k`mutexList, k`blkObj, k`dead, k`head,
      k`active, k.rq
    ensures k.Valid() && k.active == t && k.state == old(k.state)[t := Ready] && k.prio == old(k.prio)[t := pri] &&
      k.bprio == old(k.bprio)[t := pri]
    ensures k.mutexList == old(k.mutexList)[t := []] && k.head == old(k.head)[t := None] &&
      k.blkObj == old(k.blkObj) - {t}
  {
    hide Kernel.Valid, Kernel.V;
    var r := k.TaskCreate(t, pri, 0, true);
    MostUrgentRuns(k, t);
  }

  /** The running task locks a mutex that is free. */
  method Acquire(k: Kernel, m: Obj)
    requires k.Valid() && k.active != k.idle && m in k.objs && k.objs[m].Mutex? && m !in k.owner
    modifies k`owner, k`mutexList, k`nested, k`head, k`next, k`state, k`blkObj, k`waiters, k`tickHead, k`tickMatch,
      k`due, k`prio, k`active, k.rq
    ensures k.Valid() && k.owner == old(k.owner)[m := k.active] && k.nested == old(k.nested)[m := 1]
    ensures k.active in old(k.mutexList) &&
      k.mutexList == old(k.mutexList)[k.active := [m] + old(k.mutexList[k.active])]
    ensures k.active in old(k.head) && k.head == old(k.head)[k.active := Some(m)] &&
      k.next == old(k.next)[m := old(k.head[k.active])]
    ensures k.state == old(k.state) && k.prio == old(k.prio) && k.waiters == old(k.waiters) &&
      k.active == old(k.active) && k.blkObj == old(k.blkObj)
  {
    hide Kernel.Valid, Kernel.V, OnlyRaised;
    var r := k.MutexLock(m, 0);
  }

  /** Task `t` is created, runs, and locks a mutex that is free. */
  method LaunchOwner(k: Kernel, t: Task, pri: nat, m: Obj)
    requires k.Valid() && k.schedLock == 0 && pri < IDLE_PRI && t !in k.state && t != k.idle && m in k.objs &&
      k.objs[m].Mutex? && m !in k.owner
    requires forall u :: u in k.state && k.state[u].Ready? ==> u in k.prio && pri < k.prio[u]
    modifies k, k.rq
    ensures k.Valid() && k.active == t && k.state == old(k.state)[t := Ready] && k.prio == old(k.prio)[t := pri] &&
      k.bprio == old(k.bprio)[t := pri]
    ensures k.owner == old(k.owner)[m := t] && k.nested == old(k.nested)[m := 1] && t in k.mutexList &&
      k.mutexList[t] == [m] && k.head == old(k.head)[t := Some(m)]
    ensures k.objs == old(k.objs) && k.schedLock == 0
  {
    hide Kernel.Valid, Kernel.V;
    Launch(k, t, pri);
    Acquire(k, m);
  }

  /** The running task locks and unlocks a mutex, which then links to the one it still owns. */
  method LockAndUnlock(k: Kernel, m: Obj)
    requires k.Valid() && k.active != k.idle && m in k.objs && k.objs[m].Mutex? && m !in k.owner && k.active in k.head
    requires forall t :: t in k.state ==> !Pending(k.state[t])
    modifies k, k.rq
    ensures k.Valid() && k.state == old(k.state) && k.prio == old(k.prio) && k.owner == old(k.owner) &&
      k.objs == old(k.objs)
    ensures k.head == old(k.head) && k.next == old(k.next)[m := old(k.head[k.active])]
  {
    hide Kernel.Valid, Kernel.V, Unlocked, LinksBut, Taken, LockedOut;
    Acquire(k, m);
    NobodyWaiting(k, m);
    var r := k.MutexUnlock(m);
  }

  lemma NobodyWaiting(k: Kernel, o: Obj)
    requires k.Valid() && o in k.objs && forall t :: t in k.state ==> !Pending(k.state[t])
    ensures o in k.waiters && k.waiters[o] == []
  {
    hide Kernel.V, Kernel.Sound, Owned, Inherits, NestedOk, HistoryOk, Kernel.Linked;
    k.QueueHere(o, k.now);
    IsIn(k.waiters[o], 0);
  }

  lemma IsIn(q: seq<Task>, i: nat)
    ensures i < |q| ==> q[i] in q
  {
  }

  method FirstDeletion(k: Kernel)
    requires k.Valid() && k.idle == 0 && k.schedLock == 0 && k.state == map[0 := Ready] && k.prio == map[0 := IDLE_PRI]
    requires k.objs == map[10 := Mutex, 11 := Mutex] && 10 !in k.owner && 11 !in k.owner
    modifies k, k.rq
    ensures k.Valid() && k.schedLock == 0 && k.state == map[0 := Ready, 1 := Deleted] &&
      k.prio == map[0 := IDLE_PRI, 1 := 5]
    ensures k.objs == old(k.objs) && 10 !in k.owner && 11 !in k.owner && 1 in k.head && k.head[1] == Some(10)
  {
    hide Kernel.Valid, Kernel.V;
    LaunchOwner(k, 1, 5, 10);
    DeleteOwner(k, 1, 10);
  }

  /** The owner of a mutex nobody waits for is deleted. */
  method DeleteOwner(k: Kernel, t: Task, m: Obj)
    requires k.Valid() && k.schedLock == 0 && t in k.state && t in k.prio && k.prio[t] != IDLE_PRI &&
      t in k.mutexList && k.mutexList[t] == [m] && m in k.objs
    requires k.state[t].Ready? && forall u :: u in k.state ==> !Pending(k.state[u])
    modifies k`state, k`suspendCount, k`waiters, k`tickHead, k`prio, k`mutexList, k`blkState, k`blkObj, k`owner,
      k`active, k`head, k`next, k`rank, k`clock,
             k`dead, k.rq
    ensures k.Valid() && k.state == old(k.state)[t := Deleted] && k.prio == old(k.prio) && k.head == old(k.head)
    ensures m !in k.owner && forall n :: n !in old(k.owner) ==> n !in k.owner
  {
    hide Kernel.Valid, Kernel.V, Kernel.OnlyWoken, Kernel.Bequeathed, Kernel.Harmless, Ownership;
    NobodyWaiting(k, m);
    var r := k.TaskDel(t);
    Woken(old(k.state), k.state[t := Ready]);
    assert k.state == k.state[t := Ready][t := Deleted];
    Freed([m], old(k.waiters), old(k.owner), k.owner);
  }

  lemma Woken(was: map<Task, TaskState>, state: map<Task, TaskState>)
    requires Kernel.OnlyWoken(was, state) && forall t :: t in was ==> !Pending(was[t])
    ensures state == was
  {
  }

  lemma Freed(ms: seq<Obj>, waiters: map<Obj, seq<Task>>, owner0: map<Obj, Task>, owner: map<Obj, Task>)
    requires Kernel.Bequeathed(ms, waiters, owner0, owner) && (forall m :: m in ms ==> m in waiters && waiters[m] == [])
    ensures forall m :: m in ms || m !in owner0 ==> m !in owner
  {
  }

  method LaterLocks(k: Kernel)
    requires k.Valid() && k.schedLock == 0 && k.state == map[0 := Ready, 1 := Deleted] &&
      k.prio == map[0 := IDLE_PRI, 1 := 5] && k.idle == 0
    requires k.objs == map[10 := Mutex, 11 := Mutex] && 10 !in k.owner && 11 !in k.owner && 1 in k.head &&
      k.head[1] == Some(10)
    modifies k, k.rq
    ensures k.Valid() && 1 in k.state && k.state[1].Deleted? && 1 in k.prio && k.prio[1] == 5
    ensures 1 in k.head && k.head[1] == Some(10) && 10 in k.next && k.next[10] == Some(11) &&
      OwnedNow(k.objs, k.owner, 11)
  {
    hide Kernel.Valid, Kernel.V, OnlyRaised;
    LaunchOwner(k, 2, 5, 11);
    LockAndUnlock(k, 10);
  }

  /** The links of task 1 lead to mutex 11, which has an owner. */
  lemma Entangled(k: Kernel)
    requires 1 in k.head && k.head[1] == Some(10) && 10 in k.next && k.next[10] == Some(11) &&
      OwnedNow(k.objs, k.owner, 11)
    ensures !k.Harmless(1)
  {
    forall ms | Chain(k.head[1], k.next, ms)
      ensures exists m :: m in ms && k.Busy(m)
    {
      assert ms[0] == 10 && Chain(Some(11), k.next, ms[1..]);
      assert ms[1..][0] == 11;
      assert ms[1] == 11;
      assert 11 in ms;
    }
  }

  // ----- Priorities in a deadlock -----

  /** The running task waits for a mutex of task `o`, which may inherit its priority. */
  method Await(k: Kernel, m: Obj, o: Task)
    requires k.Valid() && k.active != k.idle && m in k.objs && k.objs[m].Mutex? && m in k.owner &&
      k.owner[m] == o != k.active && k.schedLock == 0
    modifies k`owner, k`mutexList, k`nested, k`head, k`next, k`state, k`blkObj, k`waiters, k`tickHead, k`tickMatch,
      k`due, k`prio, k`active, k.rq
    ensures k.Valid() && k.owner == old(k.owner) && k.nested == old(k.nested) &&
      k.state == old(k.state)[old(k.active) := Pend] && k.blkObj == old(k.blkObj)[old(k.active) := m]
    ensures k.mutexList == old(k.mutexList)
    ensures old(k.active) in k.prio && OnlyRaised(old(k.prio), k.prio, k.prio[old(k.active)]) &&
      k.prio[old(k.active)] == old(k.prio)[old(k.active)]
  {
    hide Kernel.Valid, Kernel.V, OnlyRaised;
    var r := k.MutexLock(m, WAIT_FOREVER);
  }

  /** `t` waits for a mutex of `o`. */
  ghost predicate Behind(k: Kernel, t: Task, o: Task)
    reads k
  {
    && t in k.state && Pending(k.state[t]) && t in k.blkObj && k.blkObj[t] in k.objs && k.objs[k.blkObj[t]].Mutex?
    && k.blkObj[t] in k.owner && k.owner[k.blkObj[t]] == o
  }

  lemma BehindIsEdge(k: Kernel, t: Task, o: Task)
    requires k.Valid()
    ensures Behind(k, t, o) <==> t in Wf(k.V()) && Wf(k.V())[t] == o
    ensures Behind(k, t, o) ==> t in k.prio && o in k.prio && k.prio[o] <= k.prio[t]
  {
    hide Kernel.Sound, Owned, NestedOk, HistoryOk, Kernel.Linked, PI.Fix, Base;
    if Behind(k, t, o) {
      hide WaitFor;
      PI.DropEdge(t, k.prio, BaseOf(k.V()), Wf(k.V()));
    }
  }

  lemma IdlePriority(k: Kernel)
    requires k.Valid()
    ensures k.idle in k.state && k.idle in k.prio && k.prio[k.idle] == IDLE_PRI
  {
    hide Kernel.V, Owned, Inherits, NestedOk, HistoryOk, Kernel.Linked;
    assert k.active in k.state;
    k.Here(k.active, k.now);
  }

  /** What the two tasks of the deadlock own and wait for. */
  ghost predicate Entwined(k: Kernel)
    reads k
  {
    && k.schedLock == 0 && k.idle == 0 && k.objs == map[10 := Mutex, 11 := Mutex]
    && 10 in k.owner && k.owner[10] == 1 && 11 in k.owner && k.owner[11] == 2
    && 1 in k.state && k.state[1] == Pend && 1 in k.blkObj && k.blkObj[1] == 11
    && 2 in k.state && k.state[2] == Pend && 2 in k.blkObj && k.blkObj[2] == 10
    && 1 in k.bprio && k.bprio[1] == 7 && 2 in k.bprio && k.bprio[2] == 5
  }

  /** A deadlock keeps a priority that no member of it has as its own. Tasks 1 and 2, with base priorities 7 and 5,
      wait for each other. Task 3 waits for one of them, lends its priority 3 to both, and gives up. They stay at 3. */
  method StaleUrgency() returns (k: Kernel)
    ensures fresh(k) && k.Valid() && Entwined(k)
    ensures PI.Deadlocked(1, Wf(k.V())) && PI.Deadlocked(2, Wf(k.V()))
    ensures 1 in k.prio && 2 in k.prio && k.prio[1] == k.prio[2] == 3
    ensures forall u :: PI.WaitsFor(u, 1, Wf(k.V())) ==> u in k.bprio && k.bprio[u] != 3
  {
    hide Kernel.Valid, Kernel.V, Entwined, PI.Deadlocked, PI.WaitsFor;
    k := TwoOwners();
    Interlock(k);
    Visit(k);
    Leave(k);
    Stuck(k);
  }

  method TwoOwners() returns (k: Kernel)
    ensures fresh(k) && fresh(k.rq) && k.Valid() && k.idle == 0 && k.schedLock == 0 && k.active == 2 &&
      k.objs == map[10 := Mutex, 11 := Mutex]
    ensures k.state == map[0 := Ready, 1 := Ready, 2 := Ready] && k.prio == map[0 := IDLE_PRI, 1 := 7, 2 := 5]
    ensures 10 in k.owner && k.owner[10] == 1 && 11 in k.owner && k.owner[11] == 2
    ensures 1 in k.bprio && k.bprio[1] == 7 && 2 in k.bprio && k.bprio[2] == 5
  {
    hide Kernel.Valid, Kernel.V;
    k := WithMutexes(0, 10, 11);
    LaunchOwner(k, 1, 7, 10);
    LaunchOwner(k, 2, 5, 11);
  }

  method Interlock(k: Kernel)
    requires k.Valid() && k.idle == 0 && k.schedLock == 0 && k.active == 2 && k.objs == map[10 := Mutex, 11 := Mutex]
    requires k.state == map[0 := Ready, 1 := Ready, 2 := Ready] && k.prio == map[0 := IDLE_PRI, 1 := 7, 2 := 5]
    requires 10 in k.owner && k.owner[10] == 1 && 11 in k.owner && k.owner[11] == 2
    requires 1 in k.bprio && k.bprio[1] == 7 && 2 in k.bprio && k.bprio[2] == 5
    modifies k, k.rq
    ensures k.Valid() && Entwined(k) && k.state == map[0 := Ready, 1 := Pend, 2 := Pend]
    ensures 1 in k.prio && k.prio[1] == 5 && 2 in k.prio && k.prio[2] == 5
  {
    hide Kernel.Valid, Kernel.V, OnlyRaised;
    Await(k, 10, 1);
    IdlePriority(k);
    OneOrOther(old(k.prio), k.prio, 5, 1);
    BehindIsEdge(k, 2, 1);
    MostUrgentRuns(k, 1);
    ghost var prio1 := k.prio;
    Await(k, 11, 2);
    OneOrOther(prio1, k.prio, 5, 2);
  }

  method Visit(k: Kernel)
    requires k.Valid() && Entwined(k) && k.state == map[0 := Ready, 1 := Pend, 2 := Pend]
    requires 1 in k.prio && k.prio[1] == 5 && 2 in k.prio && k.prio[2] == 5
    modifies k, k.rq
    ensures k.Valid() && Entwined(k) && k.state == map[0 := Ready, 1 := Pend, 2 := Pend, 3 := Pend] && Behind(k, 3, 1)
    ensures 1 in k.prio && 2 in k.prio && k.prio[1] == k.prio[2] == 3
  {
    hide Kernel.Valid, Kernel.V, OnlyRaised;
    IdlePriority(k);
    Enqueued(k, 3, 3, 10, 1);
    BehindIsEdge(k, 3, 1);
    BehindIsEdge(k, 1, 2);
    OneOrOther(old(k.prio)[3 := 3], k.prio, 3, 1);
    OneOrOther(old(k.prio)[3 := 3], k.prio, 3, 2);
  }

  lemma OneOrOther(was: map<Task, nat>, prio: map<Task, nat>, p: nat, t: Task)
    requires OnlyRaised(was, prio, p) && t in was
    ensures t in prio && (prio[t] == was[t] || prio[t] == p)
  {
  }

  /** Task `t` is created, runs, and waits for a mutex of task `o`. */
  method Enqueued(k: Kernel, t: Task, pri: nat, m: Obj, o: Task)
    requires k.Valid() && k.schedLock == 0 && pri < IDLE_PRI && t !in k.state && t != k.idle && m in k.objs &&
      k.objs[m].Mutex?
    requires m in k.owner && k.owner[m] == o != t && forall u :: u in k.state && k.state[u].Ready? ==>
      u in k.prio && pri < k.prio[u]
    modifies k`owner, k`mutexList, k`nested, k`head, k`next, k`state, k`blkObj, k`waiters, k`tickHead, k`tickMatch,
      k`due, k`prio, k`active, k`timeTotal,
             k`timeSlice, k`bprio, k`suspendCount, k`dead, k.rq
    ensures k.Valid() && k.owner == old(k.owner) && k.nested == old(k.nested) && k.state == old(k.state)[t := Pend] &&
      k.blkObj == old(k.blkObj)[t := m]
    ensures k.mutexList == old(k.mutexList)[t := []]
    ensures t in k.prio && k.prio[t] == pri && OnlyRaised(old(k.prio)[t := pri], k.prio, pri) &&
      k.bprio == old(k.bprio)[t := pri]
  {
    hide Kernel.Valid, Kernel.V, OnlyRaised;
    Launch(k, t, pri);
    Await(k, m, o);
  }

  method Leave(k: Kernel)
    requires k.Valid() && Entwined(k) && k.state == map[0 := Ready, 1 := Pend, 2 := Pend, 3 := Pend] && Behind(k, 3, 1)
    requires 1 in k.prio && 2 in k.prio && k.prio[1] == k.prio[2] == 3
    modifies k, k.rq
    ensures k.Valid() && Entwined(k) && k.state == map[0 := Ready, 1 := Pend, 2 := Pend, 3 := Ready]
    ensures k.prio == old(k.prio)
  {
    hide Kernel.Valid, Kernel.V, Spare;
    Spared(k, 3, 2, 1);
    var r := k.TaskWaitAbort(3);
  }

  /** Of two waiters that are as urgent as the owner, one can leave without effect on anybody's priority. */
  lemma Spared(k: Kernel, x: Task, y: Task, o: Task)
    requires k.Valid() && Behind(k, x, o) && Behind(k, y, o) && x != y && y in k.prio && o in k.prio &&
      k.prio[y] == k.prio[o]
    ensures Spare(k.V(), x)
  {
    BehindIsEdge(k, x, o);
    BehindIsEdge(k, y, o);
    hide Kernel.Sound, Owned, NestedOk, HistoryOk, Kernel.Linked, PI.Fix, PI.Graph, Base, WaitFor, Behind;
    PI.DropSpareEdge(x, y, k.prio, BaseOf(k.V()), Wf(k.V()));
  }

  lemma Stuck(k: Kernel)
    requires k.Valid() && Entwined(k) && k.state == map[0 := Ready, 1 := Pend, 2 := Pend, 3 := Ready]
    ensures PI.Deadlocked(1, Wf(k.V())) && PI.Deadlocked(2, Wf(k.V()))
    ensures forall u :: PI.WaitsFor(u, 1, Wf(k.V())) ==> u in k.bprio && k.bprio[u] != 3
  {
    hide Kernel.Valid, Kernel.V, PI.WaitsFor;
    var wf := Wf(k.V());
    BehindIsEdge(k, 1, 2);
    BehindIsEdge(k, 2, 1);
    PI.WaitsForSelf(1, wf);
    PI.WaitsForSelf(2, wf);
    PI.WaitsForStep(1, 1, wf);
    PI.WaitsForStep(2, 2, wf);
    forall u | PI.WaitsFor(u, 1, wf)
      ensures u in {1, 2}
    {
      PI.WaiterHasEdge(u, 1, wf);
      if u in wf {
        BehindIsEdge(k, u, wf[u]);
      }
    }
  }

  // ----- Nesting depth -----

  /** Task 1 locks mutex 10 twice, task 2 waits for it, and task 1 is deleted. Task 2 owns the mutex and runs, but its
      unlock does not release it. */
  method DepthInherited() returns (k: Kernel, unlocked: Status)
    ensures fresh(k) && k.Valid() && k.active == 2 && 10 in k.owner && k.owner[10] == 2 && unlocked == OwnerNested
  {
    hide Kernel.Valid, Kernel.V;
    k := NestedOwner();
    WaitBehind(k);
    DeleteNested(k);
    unlocked := UnlockNested(k);
  }

  method UnlockNested(k: Kernel) returns (r: Status)
    requires k.Valid() && 10 in k.objs && k.objs[10].Mutex? && 10 in k.owner && k.owner[10] == k.active &&
      10 in k.nested && k.nested[10] == 2
    modifies k, k.rq
    ensures k.Valid() && r == OwnerNested && k.owner == old(k.owner) && k.active == old(k.active)
  {
    hide Kernel.Valid, Kernel.Popped;
    r := k.MutexUnlock(10);
  }

  method NestedOwner() returns (k: Kernel)
    ensures fresh(k) && fresh(k.rq) && k.Valid() && k.idle == 0 && k.schedLock == 0
    ensures k.state == map[0 := Ready, 1 := Ready] && k.prio == map[0 := IDLE_PRI, 1 := 7]
    ensures 10 in k.objs && k.objs[10].Mutex? && 10 in k.owner && k.owner[10] == 1
    ensures 10 in k.nested && k.nested[10] == 2 && 1 in k.mutexList && k.mutexList[1] == [10]
  {
    hide Kernel.Valid, Kernel.V;
    k := WithMutexes(0, 10, 11);
    LaunchOwner(k, 1, 7, 10);
    LockTwice(k);
  }

  method LockTwice(k: Kernel)
    requires k.Valid() && k.idle == 0 && k.active == 1 && 10 in k.objs && k.objs[10].Mutex? && 10 in k.owner &&
      k.owner[10] == 1
    requires 10 in k.nested && k.nested[10] == 1
    modifies k`owner, k`mutexList, k`nested, k`head, k`next, k`state, k`blkObj, k`waiters, k`tickHead, k`tickMatch,
      k`due, k`prio, k`active, k.rq
    ensures k.Valid() && k.active == 1 && k.nested == old(k.nested)[10 := 2]
    ensures unchanged(k`state, k`prio, k`owner, k`mutexList)
  {
    hide Kernel.Valid, Kernel.Pushed, OnlyRaised;
    var r := k.MutexLock(10, 0);
  }

  method WaitBehind(k: Kernel)
    requires k.Valid() && k.idle == 0 && k.schedLock == 0 && k.state == map[0 := Ready, 1 := Ready] &&
      k.prio == map[0 := IDLE_PRI, 1 := 7]
    requires 10 in k.objs && k.objs[10].Mutex? && 10 in k.owner && k.owner[10] == 1
    requires 10 in k.nested && k.nested[10] == 2 && 1 in k.mutexList && k.mutexList[1] == [10]
    modifies k`owner, k`mutexList, k`nested, k`head, k`next, k`state, k`blkObj, k`waiters, k`tickHead, k`tickMatch,
      k`due, k`prio, k`active, k`timeTotal,
             k`timeSlice, k`bprio, k`suspendCount, k`dead, k.rq
    ensures k.Valid() && k.state == map[0 := Ready, 1 := Ready, 2 := Pend] && 10 in k.waiters && k.waiters[10] == [2]
    ensures 1 in k.prio && k.prio[1] == 5 && 2 in k.prio && k.prio[2] == 5
    ensures k.nested == old(k.nested) && 1 in k.mutexList && k.mutexList[1] == [10]
  {
    hide Kernel.Valid, Kernel.V, OnlyRaised;
    IdlePriority(k);
    Enqueued(k, 2, 5, 10, 1);
    BehindIsEdge(k, 2, 1);
    OneOrOther(old(k.prio)[2 := 5], k.prio, 5, 1);
    OnlyWaiter(k, 2, 10);
  }

  /** One pending task makes the whole queue of what it waits for. */
  lemma OnlyWaiter(k: Kernel, t: Task, o: Obj)
    requires k.Valid() && o in k.objs && t in k.state && Pending(k.state[t]) && t in k.blkObj && k.blkObj[t] == o
    requires forall u :: u in k.state && u != t ==> !Pending(k.state[u])
    ensures o in k.waiters && k.waiters[o] == [t]
  {
    hide Owned, Inherits, NestedOk, HistoryOk, Kernel.Linked, Queued, RunQueue.Valid;
    PendFacts(k.V(), k.now, t);
    k.QueueHere(o, k.now);
    OneInQueue(k.waiters[o], t);
  }

  lemma OneInQueue(q: seq<Task>, t: Task)
    requires NoDup(q) && t in q && forall u :: u in q ==> u == t
    ensures q == [t]
  {
    IsIn(q, 0);
    IsIn(q, 1);
  }

  method DeleteNested(k: Kernel)
    requires k.Valid() && k.schedLock == 0 && k.idle == 0 && k.state == map[0 := Ready, 1 := Ready, 2 := Pend] &&
      10 in k.waiters && k.waiters[10] == [2]
    requires 1 in k.prio && k.prio[1] == 5 && 2 in k.prio && k.prio[2] == 5 && 1 in k.mutexList &&
      k.mutexList[1] == [10]
    modifies k`state, k`suspendCount, k`waiters, k`tickHead, k`prio, k`mutexList, k`blkState, k`blkObj, k`owner,
      k`active, k`head, k`next, k`rank, k`clock,
             k`dead, k.rq
    ensures k.Valid() && k.active == 2 && 10 in k.owner && k.owner[10] == 2
  {
    hide Kernel.Valid, Kernel.V, Kernel.OnlyWoken, Kernel.HeirsWoken, Kernel.Bequeathed, Kernel.Harmless,
      Kernel.Unwanted, Ownership, TaskGone, Kernel.Bestowed, Kernel.StaleGiven;
    IdlePriority(k);
    var r := k.TaskDel(1);
    HeirOfOne(old(k.state), k.state[1 := Ready], old(k.waiters), old(k.owner), k.owner, 10, 2);
    assert k.state == k.state[1 := Ready][1 := Deleted];
    MostUrgentRuns(k, 2);
  }

  lemma HeirOfOne(was: map<Task, TaskState>, state: map<Task, TaskState>, waiters0: map<Obj, seq<Task>>,
      owner0: map<Obj, Task>, owner: map<Obj, Task>,
                  m: Obj, n: Task)
    requires Kernel.OnlyWoken(was, state) && Kernel.HeirsWoken([m], waiters0, was, state) &&
      Kernel.Bequeathed([m], waiters0, owner0, owner)
    requires m in waiters0 && waiters0[m] == [n] && n in was && was[n].Pend? && forall u :: u in was && u != n ==>
      !Pending(was[u])
    ensures state == was[n := Ready] && m in owner && owner[m] == n
  {
    assert m in [m];
  }
}
