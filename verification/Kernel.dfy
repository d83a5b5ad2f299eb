/** The kernel of the single-core configuration with priority inheritance: tasks, mutexes, semaphores, events,
    buffer queues and the tick. Each method is one critical section. A field of a control block is a map from
    the task or object to the value of that field. */
module Kernel {
  import opened KernelTypes
  import opened Lists
  import opened RunQueues
  import opened WaitLists
  import opened TickLists
  import opened KernelState
  import opened KernelMoves
  import opened KernelSteps
  import opened MutexLinks
  import PI = PriorityInheritance

  class Kernel {
    // g_ready_queue, g_idle_task
    const rq: RunQueue
    const idle: Task

    // ktask_t
    var state: map<Task, TaskState>
    var prio: map<Task, nat>
    var bprio: map<Task, nat>
    var suspendCount: map<Task, nat>
    var mutexList: map<Task, seq<Obj>>
    var head: Heads
    var blkObj: map<Task, Obj>
    var blkState: map<Task, BlkState>
    var tickMatch: map<Task, nat>
    var pendFlags: map<Task, Flags>
    var pendAll: map<Task, bool>
    var pendClear: map<Task, bool>
    var pendInfo: map<Task, Flags>
    var msg: map<Task, Message>
    var timeSlice: map<Task, nat>
    var timeTotal: map<Task, nat>

    // blk_obj_t and the objects built on it
    var objs: map<Obj, Object>
    var waiters: map<Obj, seq<Task>>
    var owner: map<Obj, Task>
    var nested: map<Obj, nat>
    var next: Links

    // g_tick_head, g_tick_count, g_active_task, g_sched_lock
    var tickHead: seq<Task>
    var tickCount: nat
    var active: Task
    var schedLock: nat

    // times without wrap-around
    ghost var now: nat
    ghost var due: map<Task, nat>

    // tasks that were deleted and not created again
    ghost var dead: set<Task>

    // when mutexes were released last
    ghost var rank: map<Obj, nat>
    ghost var clock: nat

    // every message a buffer queue accepted, and every message it delivered
    ghost var sent: map<Obj, seq<Message>>
    ghost var got: map<Obj, seq<Message>>

    ghost function V(): View
      reads this`state, this`prio, this`bprio, this`suspendCount, this`mutexList, this`blkObj, this`pendFlags,
        this`pendAll, this`objs, this`waiters, this`owner,
            rq`list, this`tickHead, this`tickMatch, this`due, this`now, this`dead
    {
      View(idle, state, prio, bprio, suspendCount, mutexList, blkObj, pendFlags, pendAll, objs, waiters, owner,
           rq.list, tickHead, tickMatch, due, now, dead)
    }

    ghost predicate Sound(lo: nat)
      reads this`state, this`prio, this`bprio, this`suspendCount, this`mutexList, this`blkObj, this`pendFlags,
        this`pendAll, this`objs, this`waiters, this`owner,
            rq`list, this`tickHead, this`tickMatch, this`due, this`now, this`dead, this`tickCount, rq
    {
      rq.Valid() && tickCount == Unsigned(now) && Queued(V(), lo)
    }

    /** The running task is ready, and unless scheduling is locked it is the most urgent ready task. */
    ghost predicate Scheduled()
      reads this`active, this`state, this`schedLock, rq
    {
      && active in state && state[active].Ready?
      && (schedLock == 0 ==> rq.highest < |rq.list| && rq.list[rq.highest] != [] && active == rq.list[rq.highest][0])
    }

    /** The mutex list of a live task is what its links lead through; other links end, too. */
    ghost predicate Linked()
      reads this`mutexList, this`head, this`next, this`dead, this`objs, this`owner, this`rank, this`clock
    {
      LinksOk(mutexList, head, next, dead, objs, owner) && StaleOk(objs, owner, next, head, rank, clock)
    }

    ghost predicate Valid()
      reads this`state, this`prio, this`bprio, this`suspendCount, this`mutexList, this`blkObj, this`pendFlags,
        this`pendAll, this`objs, this`waiters, this`owner,
            this`tickHead, this`tickMatch, this`due, this`now, this`dead, this`tickCount, this`head, this`next,
            this`rank, this`clock, this`nested, this`sent,
            this`got, this`active, this`schedLock, rq
    {
      Sound(now) && Owned(V()) && Inherits(V()) && Scheduled() && NestedOk(objs, owner, nested) &&
        HistoryOk(objs, sent, got) && Linked()
    }

    /** The started system: only the idle task exists. */
    constructor (idleTask: Task)
      ensures rq.Valid() && fresh(rq) && rq.highest == IDLE_PRI && idle == active == idleTask && schedLock == 0
      ensures Started(V()) && tickCount == now == 0 && Linked()
    {
      rq := new RunQueue.WithIdle(idleTask);
      idle, active := idleTask, idleTask;
      state, prio, bprio := map[idleTask := Ready], map[idleTask := IDLE_PRI], map[idleTask := IDLE_PRI];
      suspendCount, mutexList := map[idleTask := 0], map[idleTask := []];
      blkObj, blkState, tickMatch := map[], map[], map[];
      pendFlags, pendAll, pendClear, pendInfo, msg := map[], map[], map[], map[], map[];
      timeSlice, timeTotal := map[], map[];
      objs, waiters, owner, nested := map[], map[], map[], map[];
      head, next, rank, clock := map[idleTask := None], map[], map[], 0;
      tickHead, tickCount, schedLock := [], 0, 0;
      now, due, dead, sent, got := 0, map[], {}, map[], map[];
    }

    lemma StartedIsValid()
      requires rq.Valid() && rq.highest == IDLE_PRI && idle == active && schedLock == 0 && Started(V()) &&
        tickCount == now == 0 && Linked()
      ensures Valid()
    {
      hide Queued, Owned, Inherits, RunQueue.Valid, Linked;
      StartedQueues(V());
      StartedPriorities(V());
    }

    /** The records of one task, and of the idle task. */
    lemma Here(t: Task, lo: nat)
      requires Sound(lo) && t in state
      ensures t in prio && t in bprio && t in mutexList && t in suspendCount && prio[t] < PRI_MAX == |rq.list|
      ensures idle in prio && prio[idle] == IDLE_PRI && idle in state && state[idle].Ready?
      ensures (t in tickHead ==> Sleeping(state[t]) || Pending(state[t])) &&
        (IsSuspended(state[t]) ==> suspendCount[t] >= 1)
    {
      LiveFacts(V(), lo, t);
    }

    lemma AliveHere(t: Task, lo: nat)
      requires Sound(lo) && t in state && Live(state[t])
      ensures t !in dead && t in mutexList
    {
      hide ReadyOk, WaitOk, SortedOk, TimedOk, TickList, NoLostWakeup, RunQueue.Valid;
    }

    lemma ViewHere()
      ensures V().state == state && V().waiters == waiters && V().held == mutexList && V().prio == prio &&
        V().owner == owner && V().tickHead == tickHead
    {
    }

    lemma ObjectsHere()
      ensures V().objs == objs
    {
    }

    lemma WantsAre()
      ensures V().pendFlags == pendFlags && V().pendAll == pendAll
    {
    }

    lemma RingsAre()
      ensures V().list == rq.list
    {
    }

    lemma TimeIs()
      ensures V().now == now
    {
    }

    lemma DeadIs()
      ensures V().dead == dead
    {
    }

    /** What is on the list of a live task. */
    lemma ListHere(t: Task, lo: nat)
      requires Sound(lo) && Owned(V()) && t in state && Live(state[t])
      ensures t !in dead && t in mutexList && forall m :: m in mutexList[t] ==>
        OwnedNow(objs, owner, m) && owner[m] == t && m in waiters
      ensures forall m :: m in mutexList[t] && waiters[m] != [] ==> waiters[m][0] in prio
    {
      AliveHere(t, lo);
      hide Queued, Owned, OwnedNow;
      forall m | m in mutexList[t]
        ensures OwnedNow(objs, owner, m) && owner[m] == t && m in waiters &&
          (waiters[m] != [] ==> waiters[m][0] in prio)
      {
        HeldHere(t, m);
        WaitersFacts(V(), lo, m);
      }
    }

    lemma HeldHere(t: Task, m: Obj)
      requires Owned(V()) && t in state && Live(state[t]) && t in mutexList && m in mutexList[t]
      ensures OwnedNow(objs, owner, m) && m in objs && m in owner && owner[m] == t && m in waiters
    {
    }

    lemma RingHere(t: Task, lo: nat)
      requires Sound(lo) && t in state && state[t].Ready?
      ensures t in prio && prio[t] < PRI_MAX == |rq.list| && t in rq.list[prio[t]]
    {
      hide RunQueue.Valid;
      LiveFacts(V(), lo, t);
    }

    lemma QueueHere(o: Obj, lo: nat)
      requires Sound(lo) && o in objs
      ensures o in waiters && NoDup(waiters[o])
      ensures forall t :: t in waiters[o] ==>
        t in state && Pending(state[t]) && t in blkObj && blkObj[t] == o && t in prio
    {
      hide Queued, NothingFor;
      MutexFacts(V(), o, lo);
      WaitersFacts(V(), lo, o);
    }

    lemma OwnsHere(t: Task, lo: nat)
      requires Sound(lo) && Owned(V()) && t in state && Live(state[t])
      ensures t in mutexList && NoDup(mutexList[t]) && forall m :: m in mutexList[t] ==> m in owner
    {
      AliveHere(t, lo);
      hide Queued;
      ListIsGood(V(), t, lo);
    }

    // ----- Priorities -----

    /** The part of `task_pri_change` that moves one task: its ready ring or its place in a wait list follows. */
    method SetPrio(t: Task, p: nat, ghost lo: nat)
      requires Sound(lo) && t in state && Live(state[t]) && t != idle && p < PRI_MAX && t in prio && p != prio[t]
      modifies this`prio, this`waiters, rq
      ensures Sound(lo) && prio == old(prio)[t := p] && SameQueues(old(waiters), waiters) &&
        (state[t].Ready? ==> waiters == old(waiters))
      ensures PriMove(old(V()), V(), active, t)
      ensures old(Owned(V())) ==> Owned(V())
    {
      hide V, Sound, OwnOk, PriMove, SameQueues;
      SameQueuesHere(waiters);
      if state[t].Ready? && t == active {
        MoveRunning(t, p, lo);
      } else if state[t].Ready? {
        MoveReady(t, p, lo);
      } else if Pending(state[t]) {
        Reorder(t, p, lo);
      } else {
        MoveAside(t, p, lo);
      }
    }

    method MoveAside(t: Task, p: nat, ghost lo: nat)
      requires Sound(lo) && t in state && Live(state[t]) && !state[t].Ready? && !Pending(state[t]) && p < PRI_MAX &&
        t in prio && p != prio[t]
      modifies this`prio
      ensures Sound(lo) && prio == old(prio)[t := p] && PriMove(old(V()), V(), active, t)
      ensures old(Owned(V())) ==> Owned(V())
    {
      hide Queued, OwnOk, RunQueue.Valid;
      LiveFacts(V(), lo, t);
      PrioAside(V(), t, p, lo);
      prio := prio[t := p];
    }

    /** The running task goes to the head of its new ring, so that it keeps running. */
    method MoveRunning(t: Task, p: nat, ghost lo: nat)
      requires Sound(lo) && t == active && t in state && state[t].Ready? && t != idle && p < PRI_MAX && t in prio &&
        p != prio[t]
      modifies this`prio, rq
      ensures Sound(lo) && prio == old(prio)[t := p] && PriMove(old(V()), V(), active, t)
      ensures old(Owned(V())) ==> Owned(V())
    {
      hide Queued, RunQueue.Valid, Remove;
      ghost var v := V();
      LiveFacts(v, lo, t);
      PrioReady(v, t, p, [t] + v.list[p], lo);
      rq.Rm(t, prio[t], idle);
      rq.AddHead(t, p);
      assert rq.list == v.list[v.prio[t] := Remove(v.list[v.prio[t]], t)][p := [t] + v.list[p]];
      prio := prio[t := p];
    }

    method MoveReady(t: Task, p: nat, ghost lo: nat)
      requires Sound(lo) && t != active && t in state && state[t].Ready? && t != idle && p < PRI_MAX && t in prio &&
        p != prio[t]
      modifies this`prio, rq
      ensures Sound(lo) && prio == old(prio)[t := p] && PriMove(old(V()), V(), active, t)
      ensures old(Owned(V())) ==> Owned(V())
    {
      hide Queued, RunQueue.Valid, Remove;
      ghost var v := V();
      LiveFacts(v, lo, t);
      PrioReady(v, t, p, v.list[p] + [t], lo);
      rq.Rm(t, prio[t], idle);
      rq.AddTail(t, p);
      assert rq.list == v.list[v.prio[t] := Remove(v.list[v.prio[t]], t)][p := v.list[p] + [t]];
      prio := prio[t := p];
    }

    /** `pend_list_reorder` */
    method Reorder(t: Task, p: nat, ghost lo: nat)
      requires Sound(lo) && t in state && Pending(state[t]) && t != idle && p < PRI_MAX && t in prio && p != prio[t]
      modifies this`prio, this`waiters
      ensures Sound(lo) && prio == old(prio)[t := p] && SameQueues(old(waiters), waiters)
      ensures t in blkObj && blkObj[t] in old(waiters) && Requeued(old(waiters), blkObj[t], t, prio, waiters)
      ensures PriMove(old(V()), V(), active, t)
      ensures old(Owned(V())) ==> Owned(V())
    {
      hide Queued, Owned, Enqueue;
      ghost var v := V();
      LiveFacts(v, lo, t);
      PendFacts(v, lo, t);
      var o := blkObj[t];
      var rest := Remove(waiters[o], t);
      RemoveMembers(waiters[o], t);
      RemoveSorted(waiters[o], t, prio);
      SortedAgrees(rest, prio, prio[t := p]);
      var q := PendListAdd(rest, t, prio[t := p]);
      PrioPending(V(), t, p, q, lo);
      SetPlace(t, p, o, q);
      if Owned(v) {
        assert state == state[t := state[t]];
        OwnedKeeps(v, V(), t, o);
      }
    }

    method SetPlace(t: Task, p: nat, o: Obj, q: seq<Task>)
      modifies this`prio, this`waiters
      ensures prio == old(prio)[t := p] && waiters == old(waiters)[o := q]
    {
      prio := prio[t := p];
      waiters := waiters[o := q];
    }

    /** `mutex_pri_look`: takes `rel` off the mutex list of `t` and returns the priority `t` should have. */
    method MutexPriLook(t: Task, rel: Obj, ghost lo: nat) returns (p: nat)
      requires Sound(lo) && Owned(V()) && Linked() && t in state && Live(state[t]) && t in bprio && t in mutexList &&
        rel in mutexList[t]
      modifies this`mutexList, this`head, this`next
      ensures Linked() && Dropped(t, rel, old(mutexList), mutexList)
      ensures LeastOfHeads(p, bprio[t], mutexList[t], waiters, prio) && Loose(rel)
      ensures Popped(t, rel, old(head), old(next), head, next)
      ensures LinksBut({t}, old(mutexList[t]), old(head), old(next), head, next) && LinkKept(rel, old(next), next)
    {
      hide V, Sound, Owned, LinksOk, StaleOk, OwnedNow, Chain, NoDup, LeastOfHeads, Remove;
      ListHere(t, lo);
      LinkOf(mutexList, head, next, dead, objs, owner, t);
      ChainNoDup(head[t], next, mutexList[t]);
      RemoveMembers(mutexList[t], rel);
      SuccessorIn(head[t], next, mutexList[t], rel);
      var ms;
      ms, p := LookAndUnlink(mutexList[t], Some(rel), bprio[t], waiters, prio);
      var h', next' := UnlinkFrom(head[t], next, rel, mutexList[t]);
      LinksUnlinked(mutexList, head, next, dead, objs, owner, t, rel, h', next');
      StaleUnlinked(objs, owner, next, head, rank, clock, t, mutexList[t], h', next', ms);
      Relink(t, ms, h', next');
    }

    method Relink(t: Task, ms: seq<Obj>, h: Option<Obj>, links: Links)
      modifies this`mutexList, this`head, this`next
      ensures mutexList == old(mutexList)[t := ms] && head == old(head)[t := h] && next == links
    {
      mutexList, head, next := mutexList[t := ms], head[t := h], links;
    }

    /** The first mutex of a list is taken off by moving the head of the list to the next one; its own link stays. */
    static ghost predicate Popped(t: Task, m: Obj, head0: Heads, next0: Links, head: Heads, next: Links) {
      t in head0 && m in next0 && (head0[t] == Some(m) ==> head == head0[t := next0[m]] && next == next0)
    }

    static ghost predicate LinkKept(m: Obj, next0: Links, next: Links) {
      m in next0 && m in next && next[m] == next0[m]
    }

    static ghost predicate Dropped(t: Task, m: Obj, held0: map<Task, seq<Obj>>, held: map<Task, seq<Obj>>) {
      t in held0 && held == held0[t := Remove(held0[t], m)] && m !in held[t]
    }

    /** The link of a mutex that is off its list leads to one that is owned, or nowhere. */
    ghost predicate Loose(m: Obj)
      reads this`next, this`objs, this`owner
    {
      LooseEnd(objs, owner, next, m)
    }

    static ghost predicate LooseEnd(objs: map<Obj, Object>, owner: map<Obj, Task>, next: Links, m: Obj) {
      m in next && (next[m].Some? ==> next[m].value != m && OwnedNow(objs, owner, next[m].value))
    }

    /** The rest of a round of `task_pri_change`: does the owner `t` waits for have to move, and to where? */
    method NextOwner(t: Task, oldPri: nat, ghost prio0: map<Task, nat>, ghost base: map<Task, nat>,
        ghost wf: map<Task, Task>, ghost lo: nat)
      returns (next: Option<Task>, q: nat)
      requires Sound(lo) && t in state && t in prio0 && t in prio && prio0[t] == oldPri != prio[t] &&
        prio == prio0[t := prio[t]]
      requires PI.Graph(prio0, base, wf) && t in base && PI.FixExcept(t, prio0, base, wf) &&
        PI.IsMin(prio[t], base[t], t, wf, prio0)
      requires (state[t].Ready? && t !in wf) || (Owned(V()) && wf == Wf(V()))
      requires prio[t] > oldPri ==> base == BaseOf(V())
      ensures PI.Graph(prio, base, wf)
      ensures next.None? ==> PI.Fix(prio, base, wf)
      ensures next.Some? ==>
        !state[t].Ready? && t in wf && next.value == wf[t] && wf[t] in base && LiveOwner(V(), wf[t])
      ensures next.Some? ==> PI.FixExcept(wf[t], prio, base, wf) && PI.IsMin(q, base[wf[t]], wf[t], wf, prio)
      ensures next.Some? && prio[t] < oldPri ==> q == prio[t] < prio[wf[t]]
      ensures next.Some? && prio[t] > oldPri ==> prio[wf[t]] == oldPri < q
    {
      hide Queued, OwnOk, WaitFor, Base, PI.Fix, PI.FixExcept, PI.IsMin, LiveOwner;
      PI.PropagationCases(t, prio[t], prio0, base, wf);
      if Owned(V()) && wf == Wf(V()) {
        EdgeFacts(V(), lo, t);
      }
      if Pending(state[t]) {
        PendFacts(V(), lo, t);
      }
      if !Pending(state[t]) || !objs[blkObj[t]].Mutex? {
        return None, 0;
      }
      var o := owner[blkObj[t]];
      if prio[o] > prio[t] {
        return Some(o), prio[t];
      } else if prio[o] == oldPri {
        q := Recompute(o, lo);
        PI.FollowerLoses(t, prio[t], q, prio0, base, wf);
        if q != prio[o] {
          return Some(o), q;
        }
        PI.Settled(o, prio, base, wf);
      }
      return None, 0;
    }

    /** `mutex_pri_look` without a mutex to take off. */
    method Recompute(o: Task, ghost lo: nat) returns (q: nat)
      requires Sound(lo) && Owned(V()) && LiveOwner(V(), o)
      ensures Wf(V()).Keys <= prio.Keys && o in BaseOf(V()) && PI.IsMin(q, BaseOf(V())[o], o, Wf(V()), prio)
    {
      hide Queued, OwnOk, WaitFor, Base, PI.IsMin, LeastOfHeads;
      LiveFacts(V(), lo, o);
      forall m | m in mutexList[o]
        ensures waiters[m] != [] ==> waiters[m][0] in prio
      {
        WaitersFacts(V(), lo, m);
      }
      var ms;
      ms, q := LookAndUnlink(mutexList[o], None, bprio[o], waiters, prio);
      LookIsMin(V(), lo, o, q);
    }

    /** One round of `task_pri_change`. */
    method PriRound(t: Task, p: nat, ghost base: map<Task, nat>, ghost wf: map<Task, Task>, ghost lo: nat)
      returns (next: Option<Task>, q: nat)
      requires Sound(lo) && OutOfPlace(V(), t, p, base, wf) && prio[t] != p
      modifies this`prio, this`waiters, rq
      ensures Sound(lo) && SameQueues(old(waiters), waiters) && (old(Owned(V())) ==> Owned(V()))
      ensures PriMove(old(V()), V(), active, t)
      ensures prio == old(prio)[t := p] && PI.Graph(prio, base, wf)
      ensures next.None? ==> PI.Fix(prio, base, wf)
      ensures state[t].Ready? ==> next.None? && waiters == old(waiters)
      ensures next.Some? ==> OutOfPlace(V(), next.value, q, base, wf)
      ensures next.Some? ==> Onward(t, p, old(prio), next.value, q, prio)
      ensures next.Some? ==> Wf(V()) == wf && t in wf && wf[t] == next.value
    {
      hide Queued, OwnOk, WaitFor, Base, PI.Fix, PI.FixExcept, PI.IsMin;
      var oldPri := prio[t];
      ghost var prio0 := prio;
      SetPrio(t, p, lo);
      next, q := NextOwner(t, oldPri, prio0, base, wf, lo);
      if next.Some? {
        PI.MinBelowBase(q, next.value, prio, base, wf);
      }
    }

    lemma PlaceHere(t: Task, p: nat, base: map<Task, nat>, wf: map<Task, Task>)
      requires OutOfPlace(V(), t, p, base, wf)
      ensures t in prio && t in state && t in base && PI.Graph(prio, base, wf) && PI.FixExcept(t, prio, base, wf)
      ensures PI.IsMin(p, base[t], t, wf, prio)
    {
    }

    /** `task_pri_change`: the whole walk along the owners. It ends on every wait-for graph, because all tasks it
        moves leave the same set: those less urgent than `newPri`, or those that had the old priority of `task`. */
    method TaskPriChange(task: Task, newPri: nat, ghost base: map<Task, nat>, ghost wf: map<Task, Task>, ghost lo: nat)
      requires Sound(lo) && OutOfPlace(V(), task, newPri, base, wf)
      modifies this`prio, this`waiters, rq
      ensures Sound(lo) && SameQueues(old(waiters), waiters) && (old(Owned(V())) ==> Owned(V()))
      ensures PI.Graph(prio, base, wf) && PI.Fix(prio, base, wf) && Repriced(old(V()), V(), active)
      ensures state[task].Ready? ==> waiters == old(waiters)
      ensures OneWay(old(prio), prio, task, newPri)
    {
      hide V, Sound, Owned, SameQueues, Moving, PI.Graph, PI.Fix, PI.FixExcept, PI.IsMin, RepricedBy, PriMove, OneWay,
        Wf, OutOfPlace, ToMove, NextInChain;
      PlaceHere(task, newPri, base, wf);
      ghost var was, oldPri, v := prio, prio[task], V();
      ghost var ts: seq<Task>, path := [], [v];
      RepricedNone(v, active);
      var t, p := Some(task), newPri;
      if prio[task] == newPri {
        PI.Settled(task, prio, base, wf);
        t := None;
      }
      StartMoving(was, t, task, newPri);
      SameQueuesHere(waiters);
      while t.Some?
        invariant Sound(lo) && SameQueues(old(waiters), waiters) && (old(Owned(V())) ==> Owned(V()))
        invariant PI.Graph(prio, base, wf) && (t.None? ==> PI.Fix(prio, base, wf))
        invariant state[task].Ready? ==> waiters == old(waiters) && (t.None? || t.value == task)
        invariant t.Some? ==> OutOfPlace(V(), t.value, p, base, wf) && t.value in prio && prio[t.value] != p
        invariant Moving(was, prio, ts, t, p, newPri, oldPri)
        invariant RepricedBy(v, V(), active, ts, path) && Wf(V()) == Wf(v) && NextInChain(v, ts, t)
        decreases t.Some?, ToMove(prio, newPri, oldPri)
      {
        ghost var t0, p0, v1, prio1, waiters1 := t.value, p, V(), prio, waiters;
        t, p := PriRound(t.value, p, base, wf, lo);
        MovingOn(was, prio1, ts, t0, p0, prio, t, p, newPri, oldPri);
        MoveEdges(v1, V(), active, t0);
        RepricedMore(v, v1, V(), active, ts, path, t0);
        ChainGoesOn(v, ts, t0, t);
        ts, path := ts + [t0], path + [V()];
        SameQueuesMore(old(waiters), waiters1, waiters);
      }
      MovedOneWay(was, prio, ts, t, p, task, newPri);
      assert Repriced(v, V(), active);
    }

    /** `mutex_task_pri_reset`: `x` no longer waits, so the owner it waited for may have inherited too much. */
    method MutexTaskPriReset(x: Task, ghost lo: nat)
      requires Sound(lo) && Owned(V()) && LeftBehind(V(), x) && x in blkObj && blkObj[x] in objs
      modifies this`prio, this`waiters, rq
      ensures Sound(lo) && Owned(V()) && Inherits(V()) && SameQueues(old(waiters), waiters)
      ensures old(Inherits(V())) ==> prio == old(prio)
      ensures Repriced(old(V()), V(), active)
    {
      hide Queued, OwnOk, WaitFor, Base, PI.Fix, PI.FixExcept, PI.IsMin, Repriced;
      RepricedNone(V(), active);
      if objs[blkObj[x]].Mutex? {
        var o := owner[blkObj[x]];
        if prio[o] == prio[x] {
          SettleOwner(o, lo);
        }
      }
    }

    /** `mutex_release` without a mutex to give up. */
    method SettleOwner(o: Task, ghost lo: nat)
      requires Sound(lo) && Owned(V()) && LiveOwner(V(), o) && o in prio
      requires PI.Graph(prio, BaseOf(V()), Wf(V())) && o in BaseOf(V()) && PI.FixExcept(o, prio, BaseOf(V()), Wf(V()))
      modifies this`prio, this`waiters, rq
      ensures Sound(lo) && Owned(V()) && Inherits(V()) && SameQueues(old(waiters), waiters)
      ensures old(Inherits(V())) ==> prio == old(prio)
      ensures Repriced(old(V()), V(), active)
    {
      hide Queued, OwnOk, WaitFor, PI.Fix, PI.FixExcept, PI.IsMin, Repriced;
      RepricedNone(V(), active);
      var q := Recompute(o, lo);
      PI.MinBelowBase(q, o, prio, BaseOf(V()), Wf(V()));
      BaseBounded(V(), lo);
      hide Base;
      if Inherits(V()) {
        PI.MinIsFix(q, o, prio, BaseOf(V()), Wf(V()));
      }
      if q != prio[o] {
        TaskPriChange(o, q, BaseOf(V()), Wf(V()), lo);
      } else {
        PI.Settled(o, prio, BaseOf(V()), Wf(V()));
      }
    }

    // ----- Leaving and entering queues -----

    /** A pending task becomes ready: off the wait list and the tick list, onto the ready queue. */
    method UnpendReady(t: Task, why: BlkState, ghost lo: nat)
      requires Sound(lo) && t in state && Pending(state[t])
      modifies this`state, this`waiters, this`tickHead, this`blkState, rq
      ensures Sound(lo) && blkState == old(blkState)[t := why]
      ensures PendingAt(old(V()), t) && t in prio && prio[t] < |old(V()).list| && V() == LeaveWait(old(V()), t, Ready)
    {
      hide Queued, RunQueue.Valid, Remove, PendingAt, Unsigned;
      ghost var v := V();
      LeaveHere(t, Ready, lo);
      rq.AddTail(t, prio[t]);
      TakeOff(t, Ready, why);
      assert V() == LeaveWait(v, t, Ready);
    }

    lemma LeaveHere(t: Task, s: TaskState, lo: nat)
      requires Sound(lo) && t in state && Pending(state[t]) &&
        (s.Ready? || s.Deleted? || (s.Suspended? && state[t].PendSuspended?))
      ensures t in blkObj && blkObj[t] in waiters && t in prio && prio[t] < |rq.list| == PRI_MAX
      ensures PendingAt(V(), t) && Queued(LeaveWait(V(), t, s), lo)
    {
      hide Queued, RunQueue.Valid, Remove, NoDup, Sorted, Unsigned;
      LiveFacts(V(), lo, t);
      PendFacts(V(), lo, t);
      LeaveWaitKeeps(V(), t, s, lo);
    }

    /** Off the wait list and the tick list. */
    method TakeOff(t: Task, s: TaskState, why: BlkState)
      requires t in blkObj && blkObj[t] in waiters
      modifies this`state, this`waiters, this`tickHead, this`blkState
      ensures waiters == old(waiters)[blkObj[t] := Remove(old(waiters[blkObj[t]]), t)]
      ensures state == old(state)[t := s] && tickHead == Remove(old(tickHead), t) && blkState == old(blkState)[t := why]
    {
      waiters := waiters[blkObj[t] := Remove(waiters[blkObj[t]], t)];
      state := state[t := s];
      tickHead := Remove(tickHead, t);
      blkState := blkState[t := why];
    }

    /** A pending task that is suspended as well stays suspended. */
    method UnpendSuspended(t: Task, why: BlkState, ghost lo: nat)
      requires Sound(lo) && t in state && state[t].PendSuspended?
      modifies this`state, this`waiters, this`tickHead, this`blkState
      ensures Sound(lo) && blkState == old(blkState)[t := why]
      ensures PendingAt(old(V()), t) && t in prio && prio[t] < |old(V()).list| &&
        V() == LeaveWait(old(V()), t, Suspended)
    {
      hide Queued, RunQueue.Valid, Remove, PendingAt, Unsigned;
      ghost var v := V();
      LeaveHere(t, Suspended, lo);
      TakeOff(t, Suspended, why);
    }

    method ClearBlk(t: Task)
      modifies this`blkObj
      ensures blkObj == old(blkObj) - {t}
    {
      blkObj := blkObj - {t};
    }

    /** The part `pend_task_wakeup` and `pend_task_rm` share. */
    method Unpend(t: Task, why: BlkState, ghost lo: nat)
      requires Sound(lo) && t in state && Pending(state[t])
      modifies this`state, this`waiters, this`tickHead, this`blkState, rq
      ensures Sound(lo) && blkState == old(blkState)[t := why]
      ensures PendingAt(old(V()), t) && t in prio && prio[t] < |old(V()).list|
      ensures V() == LeaveWait(old(V()), t, Resumed(old(state[t])))
    {
      hide Queued, RunQueue.Valid, Remove, LeaveWait;
      if state[t].Pend? {
        UnpendReady(t, why, lo);
      } else {
        UnpendSuspended(t, why, lo);
      }
    }

    /** `pend_task_wakeup`, `pend_task_rm`: a task waiting for anything but a mutex goes on. */
    method Wakeup(t: Task, why: BlkState, ghost lo: nat)
      requires Sound(lo) && Owned(V()) && Inherits(V()) && t in state && Pending(state[t])
      requires t in blkObj && blkObj[t] in objs && !objs[blkObj[t]].Mutex?
      modifies this`state, this`waiters, this`tickHead, this`blkState, this`blkObj, rq
      ensures Sound(lo) && Owned(V()) && Inherits(V())
      ensures blkState == old(blkState)[t := why] && blkObj == old(blkObj) - {t}
      ensures state == old(state)[t := Resumed(old(state[t]))]
      ensures old(blkObj[t] in waiters) && waiters == old(waiters[blkObj[t] := Remove(waiters[blkObj[t]], t)])
      ensures V() == Woken(old(V()), t)
    {
      hide Queued, RunQueue.Valid, Remove, OwnOk, WaitFor, Base, PI.Fix, PI.FixExcept, LiveOwner;
      ghost var v := V();
      Unpend(t, why, lo);
      LeaveWaitPriorities(v, t, Resumed(v.state[t]), lo);
      LeaveWaitOwned(v, t, Resumed(v.state[t]));
      ClearBlkKeeps(V(), t, lo);
      ClearBlk(t);
    }

    method ClearWait(t: Task, ghost lo: nat)
      requires Sound(lo) && Owned(V()) && Inherits(V()) && t in state && !Pending(state[t])
      modifies this`blkObj
      ensures Sound(lo) && Owned(V()) && Inherits(V()) && blkObj == old(blkObj) - {t}
      ensures V() == old(V()).(blk := blkObj)
    {
      hide Queued, OwnOk, PI.Fix, PI.Graph, Base, WaitFor, RunQueue.Valid;
      ghost var v := V();
      ClearBlkKeeps(v, t, lo);
      ClearBlk(t);
      assert V() == v.(blk := v.blk - {t});
    }

    /** A task waiting for a mutex times out or is aborted: the owner may lose priority. */
    method GiveUp(t: Task, why: BlkState, ghost lo: nat)
      requires Sound(lo) && Owned(V()) && Inherits(V()) && t in state && Pending(state[t])
      modifies this`state, this`prio, this`waiters, this`tickHead, this`blkState, this`blkObj, rq
      ensures Sound(lo) && Owned(V()) && Inherits(V())
      ensures blkState == old(blkState)[t := why] && blkObj == old(blkObj) - {t}
      ensures state == old(state)[t := Ready] && tickHead == Remove(old(tickHead), t)
      ensures old(Spare(V(), t)) ==> prio == old(prio)
      ensures GaveUp(old(V()), V(), active, t, Ready)
    {
      hide Queued, RunQueue.Valid, Remove, OwnOk, WaitFor, Base, PI.Fix, PI.FixExcept, LiveOwner, Repriced;
      ghost var v := V();
      UnpendReady(t, why, lo);
      LeaveWaitPriorities(v, t, Ready, lo);
      SpareLeaves(v, V(), t);
      LeaveWaitOwned(v, t, Ready);
      MutexTaskPriReset(t, lo);
      ClearWait(t, lo);
    }

    method GiveUpSuspended(t: Task, why: BlkState, ghost lo: nat)
      requires Sound(lo) && Owned(V()) && Inherits(V()) && t in state && state[t].PendSuspended?
      modifies this`state, this`prio, this`waiters, this`tickHead, this`blkState, this`blkObj, rq
      ensures Sound(lo) && Owned(V()) && Inherits(V())
      ensures blkState == old(blkState)[t := why] && blkObj == old(blkObj) - {t}
      ensures state == old(state)[t := Suspended] && tickHead == Remove(old(tickHead), t)
      ensures GaveUp(old(V()), V(), active, t, Suspended)
    {
      hide Queued, RunQueue.Valid, Remove, OwnOk, WaitFor, Base, PI.Fix, PI.FixExcept, LiveOwner, Repriced;
      ghost var v := V();
      UnpendSuspended(t, why, lo);
      LeaveWaitPriorities(v, t, Suspended, lo);
      LeaveWaitOwned(v, t, Suspended);
      MutexTaskPriReset(t, lo);
      ClearWait(t, lo);
    }

    /** `core_sched`: the head of the most urgent ring runs, unless scheduling is locked. */
    method CoreSched(ghost lo: nat)
      requires Sound(lo) && (schedLock > 0 ==> active in state && state[active].Ready?)
      modifies this`active
      ensures Scheduled()
      ensures schedLock > 0 ==> active == old(active)
    {
      if schedLock > 0 {
        return;
      }
      LiveFacts(V(), lo, idle);
      hide Queued;
      active := rq.Preferred();
      HeadIsReady(V(), lo, rq.highest);
    }

    /** `tick_list_insert` */
    method TickListInsert(t: Task, ticks: nat)
      requires Sound(now) && t in state && Pending(state[t]) && t !in tickHead && 0 < ticks < TICK_RANGE
      requires forall x :: x in tickHead ==> x in due
      modifies this`tickHead, this`tickMatch, this`due
      ensures Sound(now) && V() == TimedView(old(V()), t, ticks)
    {
      hide Queued, Unsigned, Enqueue, TickList, RunQueue.Valid;
      TimedHere(t, ticks);
      ghost var v, dueThen := V(), due[t := now + ticks];
      var matchThen := tickMatch[t := Unsigned(tickCount + ticks)];
      var list := TickListPriInsert(tickHead, matchThen, tickCount, t, ticks, dueThen, now);
      SetTimes(dueThen, matchThen, list);
      assert V() == TimedView(v, t, ticks);
    }

    lemma TimedHere(t: Task, ticks: nat)
      requires Sound(now) && t in state && Pending(state[t]) && t !in tickHead && 0 < ticks < TICK_RANGE
      requires forall x :: x in tickHead ==> x in due
      ensures Queued(TimedView(V(), t, ticks), now) && Unsigned(tickCount + ticks) == Unsigned(now + ticks)
      ensures TickList(tickHead, due[t := now + ticks], tickMatch[t := Unsigned(now + ticks)], now, now)
    {
      hide Queued, Unsigned, Enqueue, TickList, RunQueue.Valid;
      TimedKeeps(V(), t, ticks);
      TickFacts(V(), t, ticks);
      WrappedSum(now, ticks);
    }

    method SetTimes(ghost dueThen: map<Task, nat>, matchThen: map<Task, nat>, list: seq<Task>)
      modifies this`tickHead, this`tickMatch, this`due
      ensures due == dueThen && tickMatch == matchThen && tickHead == list
    {
      due, tickMatch, tickHead := dueThen, matchThen, list;
    }

    /** `pend_to_blk_obj` without a timeout: the running task leaves the ready queue for a wait list. */
    method PendForever(t: Task, o: Obj, ghost lo: nat)
      requires Sound(lo) && t in state && state[t].Ready? && t != idle && o in objs && o in waiters
      requires NothingFor(objs[o], [t] + waiters[o], pendFlags, pendAll)
      modifies this`state, this`blkObj, this`waiters, rq
      ensures Sound(lo) && t in prio && prio[t] < |old(V()).list| && (forall x :: x in old(waiters[o]) ==> x in prio)
      ensures V() == EnterWait(old(V()), t, o)
    {
      hide Queued, RunQueue.Valid, Remove, Unsigned, Enqueue, NothingFor;
      ghost var v := V();
      EnterHere(t, o, lo);
      var q := PendListAdd(waiters[o], t, prio);
      rq.Rm(t, prio[t], idle);
      PutOn(t, o, q);
      assert V() == EnterWait(v, t, o);
    }

    lemma EnterHere(t: Task, o: Obj, lo: nat)
      requires Sound(lo) && t in state && state[t].Ready? && t != idle && o in objs && o in waiters
      requires NothingFor(objs[o], [t] + waiters[o], pendFlags, pendAll)
      ensures t in prio && prio[t] < |rq.list| == PRI_MAX && t in rq.list[prio[t]] && idle in rq.list[IDLE_PRI]
      ensures (forall x :: x in waiters[o] ==> x in prio) && Queued(EnterWait(V(), t, o), lo)
    {
      hide Queued, RunQueue.Valid, Remove, NoDup, Sorted, Unsigned, Enqueue, NothingFor;
      LiveFacts(V(), lo, t);
      WaitersFacts(V(), lo, o);
      EnterWaitKeeps(V(), t, o, lo);
    }

    method PutOn(t: Task, o: Obj, q: seq<Task>)
      modifies this`state, this`blkObj, this`waiters
      ensures blkObj == old(blkObj)[t := o] && state == old(state)[t := Pend] && waiters == old(waiters)[o := q]
    {
      blkObj := blkObj[t := o];
      state := state[t := Pend];
      waiters := waiters[o := q];
    }

    /** `pend_to_blk_obj` */
    method PendToBlkObj(t: Task, o: Obj, ticks: nat)
      requires Sound(now) && Owned(V()) && t in state && state[t].Ready? && t != idle && o in objs && o in waiters
      requires NothingFor(objs[o], [t] + waiters[o], pendFlags, pendAll) && TicksOk(ticks)
      requires objs[o].Mutex? ==> o in owner && owner[o] != t
      modifies this`state, this`blkObj, this`waiters, this`tickHead, this`tickMatch, this`due, rq
      ensures Sound(now) && Owned(V()) && state == old(state)[t := Pend] && blkObj == old(blkObj)[t := o]
      ensures Wf(V()) == EdgeAfter(old(Wf(V())), t, o, objs, owner)
      ensures BaseOf(V()) == old(BaseOf(V()))
      ensures Joined(t, o, prio, old(waiters), waiters)
      ensures due == DueAfter(old(due), t, ticks, now) && (t in tickHead <==> ticks != WAIT_FOREVER)
      ensures Entered(old(V()), V(), t, o, ticks)
    {
      hide Queued, RunQueue.Valid, OwnOk, WaitFor, Base, NothingFor, Enqueue, NoDup, Unsigned;
      ghost var v := V();
      LiveFacts(v, now, t);
      PendForever(t, o, now);
      EnterWaitOwned(v, t, o, now);
      EnterWaitEdges(v, t, o);
      BaseSame(v, V(), t);
      if ticks != WAIT_FOREVER {
        ghost var v1 := V();
        LiveFacts(v1, now, t);
        TimedMembers(v1, t, ticks);
        TickListInsert(t, ticks);
        assert SameGraph(v1, V());
      }
    }

    /** The wait-for edge of a task that waits for `o`. */
    static ghost function EdgeAfter(wf: map<Task, Task>, t: Task, o: Obj, objs: map<Obj, Object>,
        owner: map<Obj, Task>): (r: map<Task, Task>) {
      if o in objs && objs[o].Mutex? && o in owner then wf[t := owner[o]] else wf
    }

    /** `t` stands in the queue of `o` by its priority. */
    static ghost predicate Joined(t: Task, o: Obj, prio: map<Task, nat>, waiters0: map<Obj, seq<Task>>,
        waiters: map<Obj, seq<Task>>) {
      && o in waiters0 && t in prio && (forall x :: x in waiters0[o] ==> x in prio)
      && waiters == waiters0[o := Enqueue(waiters0[o], t, prio)]
    }

    /** When the task is to be woken up, if at all. */
    static ghost function DueAfter(due: map<Task, nat>, t: Task, ticks: nat, now: nat): (r: map<Task, nat>) {
      if ticks == WAIT_FOREVER then due else due[t := now + ticks]
    }

    static predicate TicksOk(ticks: nat) {
      ticks == WAIT_FOREVER || 0 < ticks < TICK_RANGE
    }

    // ----- Mutexes -----

    /** `m` gets a new owner and becomes the first mutex on the list of that task. */
    method Assign(m: Obj, t: Task)
      requires t in mutexList && t in head
      modifies this`owner, this`mutexList, this`head, this`next
      ensures owner == old(owner)[m := t] && mutexList == old(mutexList)[t := [m] + old(mutexList[t])]
      ensures head == old(head)[t := Some(m)] && next == old(next)[m := old(head[t])]
    {
      owner := owner[m := t];
      mutexList := mutexList[t := [m] + mutexList[t]];
      next, head := next[m := head[t]], head[t := Some(m)];
    }

    /** `m` is the first mutex on the list of `t` now, for the list and for the links. */
    static ghost predicate Pushed(t: Task, m: Obj, held0: map<Task, seq<Obj>>, head0: Heads, next0: Links,
        held: map<Task, seq<Obj>>, head: Heads, next: Links) {
      && t in held0 && held == held0[t := [m] + held0[t]]
      && t in head0 && head == head0[t := Some(m)] && next == next0[m := head0[t]]
    }

    method SetNested(m: Obj, n: nat)
      modifies this`nested
      ensures nested == old(nested)[m := n]
    {
      nested := nested[m := n];
    }

    /** A mutex that is on no list goes onto that of a live task. */
    lemma PushedHere(m: Obj, t: Task)
      requires Linked() && t in mutexList && t !in dead && m in objs && objs[m].Mutex?
      requires m in owner && owner[m] in mutexList && owner[m] !in dead ==> m !in mutexList[owner[m]]
      ensures t in head &&
        LinksOk(mutexList[t := [m] + mutexList[t]], head[t := Some(m)], next[m := head[t]], dead, objs, owner[m := t])
      ensures StaleOk(objs, owner[m := t], next[m := head[t]], head[t := Some(m)], rank, clock)
    {
      hide LinksOk, StaleOk;
      AbsentIf(mutexList, head, next, dead, objs, owner, m);
      LinksPushed(mutexList, head, next, dead, objs, owner, t, m);
      StalePushed(objs, owner, next, head, rank, clock, t, m);
    }

    /** Nothing but the list of the new owner changes when a free mutex is locked. */
    method LockFree(m: Obj)
      requires Valid() && m in objs && objs[m].Mutex? && m !in owner && active != idle
      modifies this`owner, this`mutexList, this`nested, this`head, this`next
      ensures Valid() && owner == old(owner)[m := active] && nested == old(nested)[m := 1]
      ensures Pushed(active, m, old(mutexList), old(head), old(next), mutexList, head, next)
      ensures Taken(old(V()), V(), m, active)
    {
      hide V, Sound, Linked, HistoryOk, Owned, Inherits, Pushed, RunQueue.Valid, Taken;
      Take(m);
      SetNested(m, 1);
    }

    method Take(m: Obj)
      requires Sound(now) && Owned(V()) && Inherits(V()) && Linked() && m in objs && objs[m].Mutex? && m !in owner
      requires active in state && state[active].Ready? && active != idle
      modifies this`owner, this`mutexList, this`head, this`next
      ensures Sound(now) && Owned(V()) && Inherits(V()) && Linked() && owner == old(owner)[m := active]
      ensures Pushed(active, m, old(mutexList), old(head), old(next), mutexList, head, next)
      ensures Taken(old(V()), V(), m, active)
    {
      hide Queued, OwnOk, WaitFor, Base, PI.Fix, PI.Graph, RunQueue.Valid, LinksOk, StaleOk;
      AliveHere(active, now);
      TakeMutexKeeps(V(), m, active, now);
      PushedHere(m, active);
      Assign(m, active);
    }

    /** The owner of a mutex inherits the priority of the running task, which is about to wait for it. */
    method Lend(m: Obj, o: Task)
      requires Sound(now) && Owned(V()) && Inherits(V()) && Contender(V(), active, m, o) && prio[active] < prio[o]
      modifies this`prio, this`waiters, rq
      ensures Sound(now) && Owned(V()) && Contender(V(), active, m, o) && Lent(V(), active, o)
      ensures OnlyRaised(old(prio), prio, old(prio[active])) && prio[active] == old(prio[active])
      ensures Repriced(old(V()), V(), active)
    {
      hide Queued, OwnOk, WaitFor, Base, PI.Fix, PI.FixExcept, PI.IsMin, Repriced;
      LendKeeps(V(), active, o, now);
      TaskPriChange(o, prio[active], BaseOf(V())[o := prio[active]], Wf(V()), now);
    }

    method BlockBehindLoan(m: Obj, o: Task, ticks: nat)
      requires Sound(now) && Owned(V()) && Contender(V(), active, m, o) && Lent(V(), active, o) && TicksOk(ticks)
      modifies this`state, this`blkObj, this`waiters, this`tickHead, this`tickMatch, this`due, rq
      ensures Sound(now) && Owned(V()) && Inherits(V())
      ensures state == old(state)[active := Pend] && blkObj == old(blkObj)[active := m]
      ensures due == DueAfter(old(due), active, ticks, now) && (active in tickHead <==> ticks != WAIT_FOREVER)
      ensures Entered(old(V()), V(), active, m, ticks)
    {
      hide Queued, OwnOk, WaitFor, Base, PI.Fix, Enqueue, LiveOwner, Entered;
      PI.LoanBecomesEdge(active, o, prio, BaseOf(V()), Wf(V()));
      PendToBlkObj(active, m, ticks);
    }

    method BlockBehind(m: Obj, o: Task, ticks: nat)
      requires Sound(now) && Owned(V()) && Inherits(V()) && Contender(V(), active, m, o) && prio[o] <= prio[active] &&
        TicksOk(ticks)
      modifies this`state, this`blkObj, this`waiters, this`tickHead, this`tickMatch, this`due, rq
      ensures Sound(now) && Owned(V()) && Inherits(V())
      ensures state == old(state)[active := Pend] && blkObj == old(blkObj)[active := m]
      ensures due == DueAfter(old(due), active, ticks, now) && (active in tickHead <==> ticks != WAIT_FOREVER)
      ensures Entered(old(V()), V(), active, m, ticks)
    {
      hide Queued, OwnOk, WaitFor, Base, PI.Fix, Enqueue, LiveOwner, Entered;
      PI.AddEdge(active, o, prio, BaseOf(V()), Wf(V()));
      PendToBlkObj(active, m, ticks);
    }

    method Contend(m: Obj, o: Task, ticks: nat)
      requires Sound(now) && Owned(V()) && Inherits(V()) && Contender(V(), active, m, o) && TicksOk(ticks)
      modifies this`state, this`blkObj, this`waiters, this`tickHead, this`tickMatch, this`due, this`prio, rq
      ensures Sound(now) && Owned(V()) && Inherits(V())
      ensures state == old(state)[active := Pend] && blkObj == old(blkObj)[active := m]
      ensures active in prio && OnlyRaised(old(prio), prio, prio[active]) && prio[active] == old(prio)[active]
      ensures due == DueAfter(old(due), active, ticks, now) && (active in tickHead <==> ticks != WAIT_FOREVER)
      ensures LockedOut(old(V()), V(), active, m, ticks)
    {
      hide Queued, OwnOk, Inherits, WaitFor, Base, LiveOwner, Lent, Entered, Repriced;
      ghost var v := V();
      if prio[active] < prio[o] {
        Lend(m, o);
        ghost var v1 := V();
        BlockBehindLoan(m, o, ticks);
        assert Repriced(v, v1, active) && Entered(v1, V(), active, m, ticks);
      } else {
        RepricedNone(v, active);
        BlockBehind(m, o, ticks);
      }
    }

    lemma ContenderHere(m: Obj)
      requires Sound(now) && Owned(V()) && m in objs && objs[m].Mutex? && m in owner && owner[m] != active
      requires active in state && state[active].Ready? && active != idle
      ensures Contender(V(), active, m, owner[m])
    {
      hide Queued, Owned, Contender;
      ContenderFacts(V(), active, m, now);
    }

    /** The running task waits for a mutex that another task owns. */
    method LockWait(m: Obj, ticks: nat)
      requires Valid() && m in objs && objs[m].Mutex? && m in owner && owner[m] != active && active != idle
      requires TicksOk(ticks) && schedLock == 0
      modifies this`state, this`blkObj, this`waiters, this`tickHead, this`tickMatch, this`due, this`prio, this`active,
        rq
      ensures Valid()
      ensures state == old(state)[old(active) := Pend] && blkObj == old(blkObj)[old(active) := m]
      ensures old(active) in prio && OnlyRaised(old(prio), prio, prio[old(active)]) &&
        prio[old(active)] == old(prio)[old(active)]
      ensures due == DueAfter(old(due), old(active), ticks, now) && (old(active) in tickHead <==> ticks != WAIT_FOREVER)
      ensures LockedOut(old(V()), V(), old(active), m, ticks)
      ensures schedLock > 0 ==> active == old(active)
    {
      hide V, Sound, Linked, HistoryOk, NestedOk, Owned, Inherits, Contender, OnlyRaised, DueAfter, RunQueue.Valid,
        LockedOut;
      ContenderHere(m);
      Contend(m, owner[m], ticks);
      CoreSched(now);
    }

    lemma NestedHere(m: Obj)
      requires Valid() && m in objs && objs[m].Mutex? && m in owner
      ensures m in nested && 1 <= nested[m] <= NESTED_MAX
    {
      hide V, Sound, Linked, HistoryOk, Owned, Inherits;
    }

    method LockAgain(m: Obj)
      requires Valid() && m in objs && objs[m].Mutex? && m in owner && m in nested && nested[m] < NESTED_MAX
      modifies this`nested
      ensures Valid() && nested == old(nested)[m := old(nested[m]) + 1]
      ensures V() == old(V())
    {
      hide V, Sound, Linked, HistoryOk, Owned, Inherits;
      SetNested(m, nested[m] + 1);
    }

    /** `krhino_mutex_lock`. When it blocks, the reason it ends is found in `blkState` later. */
    method MutexLock(m: Obj, ticks: nat) returns (r: Status)
      requires Valid() && m in objs && active != idle && (ticks == 0 || TicksOk(ticks))
      modifies this`owner, this`mutexList, this`nested, this`head, this`next, this`state, this`blkObj, this`waiters,
        this`tickHead, this`tickMatch, this`due,
               this`prio, this`active, rq
      ensures Valid()
      ensures r == TypeErr <==> !old(objs[m].Mutex?)
      ensures r == Success <==> old(objs[m].Mutex? && m !in owner)
      ensures r == Success ==> owner == old(owner)[m := active] && nested == old(nested)[m := 1]
      ensures r == Success ==> Taken(old(V()), V(), m, active) && active == old(active)
      ensures r == Success ==> unchanged(this`state, this`prio, this`waiters, this`blkObj)
      ensures r == Success ==> Pushed(active, m, old(mutexList), old(head), old(next), mutexList, head, next)
      ensures r in {OwnerNested, NestedOverflow} <==> old(objs[m].Mutex? && m in owner && owner[m] == active)
      ensures r == NestedOverflow <==>
        old(objs[m].Mutex? && m in owner && owner[m] == active && m in nested && nested[m] == NESTED_MAX)
      ensures r == OwnerNested ==>
        old(m in nested) && nested == old(nested)[m := old(nested[m]) + 1] && V() == old(V()) && active == old(active)
      ensures r == NoPendWait <==> old(objs[m].Mutex? && m in owner && owner[m] != active) && ticks == 0
      ensures r == SchedDisabled <==>
        old(objs[m].Mutex? && m in owner && owner[m] != active && schedLock > 0) && ticks > 0
      ensures r == Blocked <==> old(objs[m].Mutex? && m in owner && owner[m] != active && schedLock == 0) && ticks > 0
      ensures r == Blocked ==> state == old(state)[old(active) := Pend] && blkObj == old(blkObj)[old(active) := m]
      ensures r == Blocked ==> unchanged(this`owner, this`nested, this`mutexList, this`head, this`next)
      ensures r == Blocked ==> LockedOut(old(V()), V(), old(active), m, ticks)
      ensures r == Blocked ==>
        old(active) in prio && OnlyRaised(old(prio), prio, prio[old(active)]) &&
        prio[old(active)] == old(prio)[old(active)]
      ensures r != Blocked ==> state == old(state)
      ensures due == if r == Blocked then DueAfter(old(due), old(active), ticks, now) else old(due)
      ensures r == Blocked ==> (old(active) in tickHead <==> ticks != WAIT_FOREVER)
      ensures r !in {Success, OwnerNested, Blocked} ==>
        V() == old(V()) && nested == old(nested) && unchanged(this`active, this`head, this`next)
      ensures schedLock > 0 ==> active == old(active)
    {
      hide Valid, OnlyRaised, DueAfter, Pushed, LockedOut, Taken, V;
      if !objs[m].Mutex? {
        return TypeErr;
      }
      if m in owner && owner[m] == active {
        NestedHere(m);
        if nested[m] == NESTED_MAX {
          return NestedOverflow;
        }
        LockAgain(m);
        return OwnerNested;
      }
      if m !in owner {
        LockFree(m);
        return Success;
      }
      if ticks == 0 {
        return NoPendWait;
      }
      if schedLock > 0 {
        return SchedDisabled;
      }
      LockWait(m, ticks);
      return Blocked;
    }

    /** `mutex_release` as `krhino_mutex_unlock` calls it: the running task gives up `m`. */
    method MutexRelease(m: Obj)
      requires Sound(now) && Owned(V()) && Inherits(V()) && active in state && state[active].Ready?
      requires m in objs && objs[m].Mutex? && m in owner && owner[m] == active && Linked()
      modifies this`prio, this`waiters, this`mutexList, this`head, this`next, rq
      ensures Sound(now) && Released(V(), m) && waiters == old(waiters) && Linked() && Loose(m)
      ensures Popped(active, m, old(head), old(next), head, next)
      ensures old(m in waiters) && (old(waiters[m]) == [] ==> prio == old(prio) && unchanged(rq))
      ensures Dropped(active, m, old(mutexList), mutexList)
      ensures active in old(mutexList) && Repriced(Unlinked(old(V()), m, active), V(), active)
      ensures LinksBut({active}, old(mutexList[active]), old(head), old(next), head, next) &&
        LinkKept(m, old(next), next)
    {
      hide V, Sound, Owned, Inherits, Wf, WfLess, BaseOf, Detached, OutOfPlace, Released, Linked, Loose, Popped,
        Dropped, LinksBut, Repriced, Unlinked;
      var p := Unhold(m);
      ReleaseTo(m, p);
    }

    /** The running task takes `m` off its list; `p` is the priority it should have without it. */
    method Unhold(m: Obj) returns (p: nat)
      requires Sound(now) && Owned(V()) && Inherits(V()) && active in state && state[active].Ready?
      requires m in objs && objs[m].Mutex? && m in owner && owner[m] == active && Linked()
      modifies this`mutexList, this`head, this`next
      ensures Sound(now) && Owned(Detached(V(), m)) && OutOfPlace(V(), active, p, BaseOf(V()), WfLess(V(), m)) &&
        Linked() && Loose(m) && m in waiters
      ensures waiters[m] == [] ==> active in prio && p == prio[active]
      ensures Popped(active, m, old(head), old(next), head, next)
      ensures Dropped(active, m, old(mutexList), mutexList)
      ensures active in old(mutexList) && V() == Unlinked(old(V()), m, active)
      ensures LinksBut({active}, old(mutexList[active]), old(head), old(next), head, next) &&
        LinkKept(m, old(next), next)
    {
      hide Queued, Owned, Inherits, WaitFor, Base, OutOfPlace, LeastOfHeads, Remove, RunQueue.Valid, Linked, Loose,
        LiveOwner, Popped, LinksBut, LinkKept;
      ghost var v := V();
      OwnerFacts(v, m, now);
      OwnerHere(m);
      p := MutexPriLook(active, m, now);
      ReleaseOutOfPlace(v, m, active, p, now);
      if v.waiters[m] == [] {
        UnlockFreePriority(v, m, active, p, now);
      }
    }

    method ReleaseTo(m: Obj, p: nat)
      requires Sound(now) && Owned(Detached(V(), m)) && m in objs && objs[m].Mutex? && m in waiters &&
        active in state && state[active].Ready?
      requires OutOfPlace(V(), active, p, BaseOf(V()), WfLess(V(), m))
      modifies this`prio, this`waiters, rq
      ensures Sound(now) && Released(V(), m) && waiters == old(waiters) && active in old(prio)
      ensures p == old(prio[active]) ==> prio == old(prio) && unchanged(rq)
      ensures Repriced(old(V()), V(), active)
    {
      hide Queued, OwnOk, WaitFor, Base, PI.Fix, PI.FixExcept, PI.IsMin, Repriced;
      RepricedNone(V(), active);
      if p != prio[active] {
        ghost var d := Detached(V(), m);
        TaskPriChange(active, p, BaseOf(V()), WfLess(V(), m), now);
        OwnSameQueues(d.state, d.objs, d.owner, d.held, d.waiters, waiters[m := []]);
      } else {
        PI.Settled(active, prio, BaseOf(V()), WfLess(V(), m));
      }
    }

    /** Nobody waits for `m`: it becomes free, and the running task goes on at the same priority. */
    method UnlockFree(m: Obj)
      requires Sound(now) && Released(V(), m) && waiters[m] == [] && Scheduled()
      modifies this`owner
      ensures Sound(now) && Owned(V()) && Inherits(V()) && Scheduled() && owner == old(owner) - {m}
      ensures V() == old(V()).(owner := owner)
    {
      hide Queued, OwnOk, WaitFor, Base, PI.Fix, PI.Graph, RunQueue.Valid;
      FreedKeeps(V(), m, now);
      owner := owner - {m};
    }

    /** A mutex that is on no list becomes free. */
    method LetGo(m: Obj)
      requires Sound(now) && Released(V(), m) && waiters[m] == [] && Scheduled() && Linked() && Loose(m) &&
        m in waiters && m in objs &&
        objs[m].Mutex?
      requires m in owner && owner[m] in mutexList && owner[m] !in dead ==> m !in mutexList[owner[m]]
      modifies this`owner, this`rank, this`clock
      ensures Sound(now) && Owned(V()) && Inherits(V()) && Scheduled() && Linked() && owner == old(owner) - {m}
      ensures m in old(waiters) && Passed(old(V()), V(), m)
    {
      hide V, Sound, Queued, Owned, Inherits, Released, RunQueue.Valid, LinksOk, StaleOk;
      ViewHere();
      AbsentIf(mutexList, head, next, dead, objs, owner, m);
      LinksAside(mutexList, head, next, next, dead, objs, owner, objs, owner - {m}, m);
      StaleReleased(objs, owner, objs, owner - {m}, next, head, rank, clock, m);
      UnlockFree(m);
      Stamp(m);
    }

    method LetGoLast(m: Obj)
      requires Sound(now) && Released(V(), m) && waiters[m] == [] && Scheduled() && Linked() && Loose(m) &&
        m in waiters &&
        m in objs && objs[m].Mutex? && NestedOk(objs, owner - {m}, nested) && HistoryOk(objs, sent, got)
      requires m in owner && owner[m] in mutexList && owner[m] !in dead ==> m !in mutexList[owner[m]]
      modifies this`owner, this`rank, this`clock
      ensures Valid() && owner == old(owner) - {m} && Passed(old(V()), V(), m)
    {
      hide V, Sound, Released, Linked, Loose, NestedOk, HistoryOk, Owned, Inherits, Passed;
      LetGo(m);
    }

    lemma RunnerHere()
      requires Scheduled()
      ensures active in state && state[active].Ready?
    {
    }

    ghost method Stamp(m: Obj)
      modifies this`rank, this`clock
      ensures rank == old(rank)[m := old(clock)] && clock == old(clock) + 1
    {
      rank, clock := rank[m := clock], clock + 1;
    }

    method WakeFirst(m: Obj) returns (n: Task)
      requires Sound(now) && Released(V(), m) && waiters[m] != []
      modifies this`state, this`waiters, this`tickHead, this`blkState, this`blkObj, rq
      ensures Sound(now) && Released(V(), m) && FirstInLine(V(), m, n)
      ensures n == old(waiters[m][0]) && n in old(state) && Pending(old(state[n])) &&
        state == old(state)[n := Resumed(old(state[n]))]
      ensures blkState == old(blkState)[n := BlkFinish]
      ensures V() == Woken(old(V()), n)
    {
      hide Queued, Released, FirstInLine, PendingAt, Remove, RunQueue.Valid;
      FirstHere(m);
      n := waiters[m][0];
      Unpend(n, BlkFinish, now);
      ClearBlk(n);
    }

    lemma FirstHere(m: Obj)
      requires Sound(now) && Released(V(), m) && waiters[m] != []
      ensures m in waiters && var n := waiters[m][0];
        n in state && Pending(state[n]) && PendingAt(V(), n) && n in prio && prio[n] < |rq.list|
      ensures var n := waiters[m][0]; var v := FirstLeft(V(), n, Resumed(state[n]));
        Queued(v, now) && Released(v, m) && FirstInLine(v, m, n)
    {
      assert m in waiters && m in objs;
      hide Queued, Released, FirstInLine, Remove, NoDup, Sorted, RunQueue.Valid;
      var n := waiters[m][0];
      WaitersFacts(V(), now, m);
      assert n in waiters[m];
      LiveFacts(V(), now, n);
      PendFacts(V(), now, n);
      FirstLeftKeeps(V(), m, n, Resumed(state[n]), now);
    }

    method PassTo(m: Obj, n: Task)
      requires Sound(now) && Released(V(), m) && FirstInLine(V(), m, n) && Linked() && n !in dead
      requires m in owner && owner[m] in mutexList && owner[m] !in dead ==> m !in mutexList[owner[m]]
      modifies this`owner, this`mutexList, this`head, this`next
      ensures Sound(now) && Owned(V()) && Inherits(V()) && Linked() && owner == old(owner)[m := n]
      ensures n in old(mutexList) && mutexList == old(mutexList)[n := [m] + old(mutexList[n])]
      ensures n in old(mutexList) && V() == PassMutex(old(V()), m, n)
      ensures n in old(head) && head == old(head)[n := Some(m)] && next == old(next)[m := old(head[n])]
    {
      hide Queued, Owned, Inherits, Released, FirstInLine, RunQueue.Valid, LinksOk, StaleOk;
      HeirOf(m, n);
      PushedHere(m, n);
      Assign(m, n);
    }

    lemma HeirOf(m: Obj, n: Task)
      requires Sound(now) && Released(V(), m) && FirstInLine(V(), m, n)
      ensures m in objs && objs[m].Mutex? && n in mutexList
      ensures Queued(PassMutex(V(), m, n), now) && Owned(PassMutex(V(), m, n)) && Inherits(PassMutex(V(), m, n))
    {
      assert n in mutexList && m in objs && objs[m].Mutex?;
      hide Queued, Owned, Inherits, Released, FirstInLine, RunQueue.Valid;
      PassReleased(V(), m, n, now);
    }

    method PassOnce(m: Obj, n: Task)
      requires Sound(now) && Released(V(), m) && FirstInLine(V(), m, n) && Linked() && n !in dead &&
        NestedOk(objs, owner - {m}, nested)
      requires m in owner && owner[m] in mutexList && owner[m] !in dead ==> m !in mutexList[owner[m]]
      modifies this`owner, this`mutexList, this`head, this`next, this`nested
      ensures Sound(now) && Owned(V()) && Inherits(V()) && Linked() && NestedOk(objs, owner, nested)
      ensures owner == old(owner)[m := n] && nested == old(nested)[m := 1]
      ensures n in old(mutexList) && V() == PassMutex(old(V()), m, n)
      ensures n in old(head) && head == old(head)[n := Some(m)] && next == old(next)[m := old(head[n])]
    {
      hide V, Sound, Linked, Owned, Inherits, Released, FirstInLine, RunQueue.Valid, PassMutex;
      PassTo(m, n);
      SetNested(m, 1);
    }

    /** The first waiter gets `m`. */
    method UnlockPass(m: Obj)
      requires Sound(now) && Released(V(), m) && waiters[m] != [] && active in state && state[active].Ready?
      requires NestedOk(objs, owner - {m}, nested) && HistoryOk(objs, sent, got)
      requires Linked() && m in waiters && m in next && m in owner && owner[m] in mutexList && m !in mutexList[owner[m]]
      modifies this`state, this`waiters, this`tickHead, this`blkState, this`blkObj, this`owner, this`mutexList,
        this`nested, this`active, this`head, this`next, rq
      ensures Valid()
      ensures old(waiters[m][0]) in old(state) && owner == old(owner)[m := old(waiters[m][0])] &&
        nested == old(nested)[m := 1]
      ensures state == old(state)[old(waiters[m][0]) := Resumed(old(state[waiters[m][0]]))]
      ensures blkState == old(blkState)[old(waiters[m][0]) := BlkFinish]
      ensures Passed(old(V()), V(), m) && LinksBut({old(waiters[m][0])}, [m], old(head), old(next), head, next)
      ensures schedLock > 0 ==> active == old(active)
    {
      hide Valid, V, Sound, Released, NestedOk, HistoryOk, Linked, Steady, Passed, LinksBut;
      PassFirst(m);
      Resched();
    }

    method PassFirst(m: Obj)
      requires Sound(now) && Released(V(), m) && waiters[m] != [] && active in state && state[active].Ready?
      requires NestedOk(objs, owner - {m}, nested) && HistoryOk(objs, sent, got)
      requires Linked() && m in waiters && m in next && m in owner && owner[m] in mutexList && m !in mutexList[owner[m]]
      modifies this`state, this`waiters, this`tickHead, this`blkState, this`blkObj, this`owner, this`mutexList,
        this`nested, this`head, this`next, rq
      ensures Steady()
      ensures old(waiters[m][0]) in old(state) && owner == old(owner)[m := old(waiters[m][0])] &&
        nested == old(nested)[m := 1]
      ensures state == old(state)[old(waiters[m][0]) := Resumed(old(state[waiters[m][0]]))]
      ensures blkState == old(blkState)[old(waiters[m][0]) := BlkFinish]
      ensures Passed(old(V()), V(), m) && LinksBut({old(waiters[m][0])}, [m], old(head), old(next), head, next)
    {
      hide V, Sound, Linked, HistoryOk, Queued, Owned, Inherits, Released, FirstInLine, RunQueue.Valid, NestedOk,
        LinksBut, PassMutex, Woken, PassedOn;
      ghost var v, head0, next0 := V(), head, next;
      ViewHere();
      var n := WakeFirst(m);
      AliveHere(n, now);
      PassOnce(m, n);
      LinkPassed(n, m, head0, next0, head, next);
      PassedIsHanded(v, m, n);
      assert Passed(v, V(), m);
    }

    /** What becomes of a mutex that is given up while `q` wait for it. */
    static ghost predicate HandedOn(q: seq<Task>, m: Obj, owner0: map<Obj, Task>, owner: map<Obj, Task>,
        state0: map<Task, TaskState>, state: map<Task, TaskState>, why0: map<Task, BlkState>,
        why: map<Task, BlkState>) {
      if q == [] then owner == owner0 - {m} && state == state0 && why == why0
      else q[0] in state0 && owner == owner0[m := q[0]] && state == state0[q[0] := Resumed(state0[q[0]])] &&
           why == why0[q[0] := BlkFinish]
    }

    static lemma HandedIs(q: seq<Task>, m: Obj, owner0: map<Obj, Task>, owner: map<Obj, Task>,
        state0: map<Task, TaskState>, state: map<Task, TaskState>, why0: map<Task, BlkState>, why: map<Task, BlkState>)
      ensures HandedOn(q, m, owner0, owner, state0, state, why0, why) ==>
        why == if q == [] then why0 else why0[q[0] := BlkFinish]
    {
    }

    /** `m` leaves the list `ms` of `t`. If nobody takes it, its own link stays. */
    static ghost predicate Relinked(q: seq<Task>, t: Task, m: Obj, ms: seq<Obj>, head0: Heads, next0: Links,
        head: Heads, next: Links) {
      if q == [] then Popped(t, m, head0, next0, head, next) && m in next && next[m] == next0[m] &&
                      LinksBut({t}, ms, head0, next0, head, next)
      else LinksBut({t, q[0]}, ms, head0, next0, head, next)
    }

    /** The outermost unlock. */
    method UnlockLast(m: Obj)
      requires Sound(now) && Owned(V()) && Inherits(V()) && Scheduled() && NestedOk(objs, owner - {m}, nested) &&
        HistoryOk(objs, sent, got)
      requires m in objs && objs[m].Mutex? && m in owner && owner[m] == active && Linked()
      modifies this`prio, this`state, this`waiters, this`tickHead, this`blkState, this`blkObj, this`owner,
        this`mutexList, this`nested, this`active,
               this`head, this`next, this`rank, this`clock, rq
      ensures Valid() && m in old(waiters) && old(active) in old(mutexList)
      ensures Unlocked(old(V()), V(), old(active), m)
      ensures HandedOn(old(waiters[m]), m, old(owner), owner, old(state), state, old(blkState), blkState)
      ensures Relinked(old(waiters[m]), old(active), m, old(mutexList[active]), old(head), old(next), head, next)
      ensures if old(waiters[m]) == [] then prio == old(prio) && active == old(active) && nested == old(nested)
              else nested == old(nested)[m := 1]
      ensures schedLock > 0 ==> active == old(active)
    {
      hide V, Sound, Linked, Loose, Popped, HistoryOk, Queued, Owned, Inherits, Released, RunQueue.Valid, LinksBut,
        Repriced, Passed, Unlinked, NestedOk, Valid, Scheduled;
      OwnerHere(m);
      RunnerHere();
      ViewHere();
      ghost var v, head0, next0, ms, t := V(), head, next, mutexList[active], active;
      MutexRelease(m);
      ghost var v1, head1, next1 := V(), head, next;
      assert Repriced(Unlinked(v, m, t), v1, t);
      if waiters[m] == [] {
        LetGoLast(m);
      } else {
        ghost var n := waiters[m][0];
        UnlockPass(m);
        LinksButMore(t, n, ms, m, head0, next0, head1, next1, head, next);
      }
      assert Passed(v1, V(), m);
    }

    lemma ValidHere(m: Obj)
      requires Valid() && m in objs
      ensures m in waiters && active in mutexList
    {
      hide V, Sound, Owned, Inherits, NestedOk, HistoryOk, Linked;
      QueueHere(m, now);
      Here(active, now);
    }

    method UnlockAgain(m: Obj)
      requires Valid() && m in objs && objs[m].Mutex? && m in owner && m in nested && nested[m] > 1
      modifies this`nested
      ensures Valid() && nested == old(nested)[m := old(nested[m]) - 1] && V() == old(V())
    {
      hide V, Sound, Linked, HistoryOk, Owned, Inherits;
      SetNested(m, nested[m] - 1);
    }

    method UnlockOnce(m: Obj)
      requires Valid() && m in objs && objs[m].Mutex? && m in owner && owner[m] == active && m in nested &&
        nested[m] == 1
      modifies this`prio, this`state, this`waiters, this`tickHead, this`blkState, this`blkObj, this`owner,
        this`mutexList, this`nested, this`active,
               this`head, this`next, this`rank, this`clock, rq
      ensures Valid() && m in old(waiters) && old(active) in old(mutexList)
      ensures Unlocked(old(V()), V(), old(active), m)
      ensures HandedOn(old(waiters[m]), m, old(owner), owner, old(state), state, old(blkState), blkState)
      ensures Relinked(old(waiters[m]), old(active), m, old(mutexList[active]), old(head), old(next), head, next)
      ensures if old(waiters[m]) == [] then prio == old(prio) && active == old(active) && nested == old(nested)[m := 0]
              else nested == old(nested)[m := 1]
      ensures schedLock > 0 ==> active == old(active)
    {
      hide V, Sound, HistoryOk, Owned, Inherits, Linked, Unlocked, HandedOn, Relinked, Scheduled;
      SetNested(m, 0);
      hide Valid, NestedOk;
      UnlockLast(m);
    }

    /** `krhino_mutex_unlock` */
    method MutexUnlock(m: Obj) returns (r: Status)
      requires Valid() && m in objs
      modifies this`prio, this`state, this`waiters, this`tickHead, this`blkState, this`blkObj, this`owner,
        this`mutexList, this`nested, this`active,
               this`head, this`next, this`rank, this`clock, rq
      ensures Valid() && m in old(waiters) && old(active) in old(mutexList)
      ensures r == TypeErr <==> !old(objs[m].Mutex?)
      ensures r == NotOwner <==> old(objs[m].Mutex? && !(m in owner && owner[m] == active))
      ensures r == OwnerNested <==>
        old(objs[m].Mutex? && m in owner && owner[m] == active && m in nested && nested[m] > 1)
      ensures r !in {TypeErr, NotOwner, OwnerNested} ==> r == Success && old(m in nested && nested[m] == 1)
      ensures r != Success ==> V() == old(V()) && unchanged(this`active, this`blkState, this`head, this`next)
      ensures nested == if r in {TypeErr, NotOwner} then old(nested)
        else if r == OwnerNested then old(nested)[m := old(nested[m]) - 1]
        else old(nested)[m := if old(waiters[m]) == [] then 0 else 1]
      ensures r == Success ==> Unlocked(old(V()), V(), old(active), m)
      ensures r == Success ==>
        HandedOn(old(waiters[m]), m, old(owner), owner, old(state), state, old(blkState), blkState)
      ensures r == Success ==>
        Relinked(old(waiters[m]), old(active), m, old(mutexList[active]), old(head), old(next), head, next)
      ensures r == Success && old(waiters[m]) == [] ==> prio == old(prio) && active == old(active)
      ensures schedLock > 0 ==> active == old(active)
    {
      hide Valid, V, Unlocked, HandedOn, Relinked;
      ValidHere(m);
      if !objs[m].Mutex? {
        return TypeErr;
      }
      if m !in owner || owner[m] != active {
        return NotOwner;
      }
      NestedHere(m);
      if nested[m] > 1 {
        UnlockAgain(m);
        return OwnerNested;
      }
      UnlockOnce(m);
      return Success;
    }

    /** `mutex_release` as `krhino_mutex_del` calls it: any task may delete `m`, whoever owns it. */
    method DelRelease(m: Obj)
      requires Sound(now) && Owned(V()) && Inherits(V()) && m in objs && objs[m].Mutex? && m in owner && Linked()
      modifies this`prio, this`waiters, this`mutexList, this`objs, this`head, this`next, rq
      ensures Sound(now) && Owned(V()) && Inherits(V()) && objs == old(objs)[m := Gone] &&
        SameQueues(old(waiters), waiters)
      ensures LinksOk(mutexList, head, next, dead, old(objs), owner) &&
        StaleOk(old(objs), owner, next, head, rank, clock)
      ensures owner[m] in mutexList && m !in mutexList[owner[m]] && LooseEnd(old(objs), owner, next, m)
      ensures owner[m] in old(mutexList) && Repriced(Unlinked(old(V()), m, owner[m]).(objs := objs), V(), active)
      ensures LinksBut({owner[m]}, old(mutexList[owner[m]]), old(head), old(next), head, next)
    {
      hide V, Sound, Owned, Inherits, OutOfPlace, LinksOk, StaleOk, OwnedNow, SameQueues, LinksBut, Unlinked, Repriced;
      var p := DelDetach(m);
      Reprice(owner[m], p);
    }

    /** The mutex is off the list of its owner and gone; that task may have to move to priority `p`. */
    method DelDetach(m: Obj) returns (p: nat)
      requires Sound(now) && Owned(V()) && Inherits(V()) && m in objs && objs[m].Mutex? && m in owner && Linked()
      modifies this`mutexList, this`objs, this`head, this`next
      ensures Sound(now) && Owned(V()) && OutOfPlace(V(), owner[m], p, BaseOf(V()), Wf(V())) &&
        objs == old(objs)[m := Gone]
      ensures LinksOk(mutexList, head, next, dead, old(objs), owner) &&
        StaleOk(old(objs), owner, next, head, rank, clock)
      ensures owner[m] in mutexList && m !in mutexList[owner[m]] && LooseEnd(old(objs), owner, next, m)
      ensures owner[m] in old(mutexList) && V() == Unlinked(old(V()), m, owner[m]).(objs := objs)
      ensures LinksBut({owner[m]}, old(mutexList[owner[m]]), old(head), old(next), head, next)
    {
      hide Queued, Owned, Inherits, Wf, BaseOf, LeastOfHeads, Remove, NoDup, RunQueue.Valid, LinksOk, StaleOk, LooseEnd,
        OutOfPlace, Popped, LinksBut;
      OwnerHere(m);
      ghost var v := V();
      p := MutexPriLook(owner[m], m, now);
      DeletedOutOfPlace(v, m, owner[m], p, now);
      hide LeastOfHeads;
      SetGone(m);
    }

    lemma OwnerHere(m: Obj)
      requires Sound(now) && Owned(V()) && Linked() && m in objs && objs[m].Mutex? && m in owner
      ensures owner[m] in state && Live(state[owner[m]]) && owner[m] in bprio && owner[m] in mutexList &&
        m in mutexList[owner[m]]
    {
      OwnersHere(m, now);
      Here(owner[m], now);
    }

    method Reprice(t: Task, p: nat)
      requires Sound(now) && Owned(V()) && OutOfPlace(V(), t, p, BaseOf(V()), Wf(V()))
      modifies this`prio, this`waiters, rq
      ensures Sound(now) && Owned(V()) && Inherits(V()) && SameQueues(old(waiters), waiters)
      ensures Repriced(old(V()), V(), active)
    {
      hide Queued, OwnOk, WaitFor, Base, PI.Fix, PI.FixExcept, PI.IsMin, NoDup, RunQueue.Valid, Repriced;
      RepricedNone(V(), active);
      if p != prio[t] {
        TaskPriChange(t, p, BaseOf(V()), Wf(V()), now);
      } else {
        PI.Settled(t, prio, BaseOf(V()), Wf(V()));
      }
    }

    method DelFree(m: Obj)
      requires Sound(now) && Owned(V()) && Inherits(V()) && m in objs && objs[m].Mutex? && m !in owner
      modifies this`objs
      ensures Sound(now) && Owned(V()) && Inherits(V()) && objs == old(objs)[m := Gone]
      ensures V() == old(V()).(objs := objs)
    {
      hide Queued, OwnOk, WaitFor, Base, PI.Fix, PI.Graph, RunQueue.Valid;
      GoneFreeKeeps(V(), m, now);
      SetGone(m);
    }

    method SetGone(o: Obj)
      modifies this`objs
      ensures objs == old(objs)[o := Gone]
    {
      objs := objs[o := Gone];
    }

    /** The loop over the queue of a deleted object, or of a semaphore given to all: every waiter goes on and learns
        why. */
    method WakeAll(o: Obj, why: BlkState)
      requires Sound(now) && Owned(V()) && Inherits(V()) && o in objs && !objs[o].Mutex? && o in waiters &&
        active in state && state[active].Ready?
      modifies this`state, this`waiters, this`tickHead, this`blkState, this`blkObj, rq
      ensures Sound(now) && Owned(V()) && Inherits(V()) && o in waiters && waiters[o] == [] && active in state &&
        state[active].Ready?
      ensures WentOn(old(waiters[o]), old(state), state) && blkState == Told(old(blkState), old(waiters[o]), why)
      ensures V() == AllWoken(old(V()), old(waiters[o]))
    {
      hide V, Sound, Linked, Queued, Owned, Inherits, RunQueue.Valid, Remove, Woken, AllWoken, Told, WentOn;
      ghost var all, v, i := waiters[o], V(), 0;
      QueueHere(o, now);
      NobodyWoken(v, state, blkState, why);
      assert all[..0] == [];
      while waiters[o] != []
        invariant Sound(now) && Owned(V()) && Inherits(V()) && o in waiters && 0 <= i <= |all| && waiters[o] == all[i..]
        invariant WentOn(all[..i], old(state), state) && blkState == Told(old(blkState), all[..i], why)
        invariant V() == AllWoken(v, all[..i]) && NoDup(all) && forall t :: t in all ==> t in old(state)
        decreases |waiters[o]|
      {
        var t := waiters[o][0];
        QueueHere(o, now);
        assert t in waiters[o];
        FirstGone(all, i);
        WentOnMore(all[..i], t, old(state), state);
        AllWokenMore(v, all[..i], t);
        ToldMore(old(blkState), all[..i], t, why);
        Wakeup(t, why, now);
        i := i + 1;
      }
      assert all[..i] == all;
      RunnerStays(all, old(state), state);
    }

    lemma RunnerStays(q: seq<Task>, was: map<Task, TaskState>, state: map<Task, TaskState>)
      requires WentOn(q, was, state) && active in was && was[active].Ready? && active !in q
      ensures active in state && state[active].Ready?
    {
    }

    /** The first who waits for `o` goes on, and the most urgent task runs. */
    method WakeOne(o: Obj)
      requires Valid() && o in objs && !objs[o].Mutex? && o in waiters && waiters[o] != []
      modifies this`state, this`waiters, this`tickHead, this`blkState, this`blkObj, this`active, rq
      ensures Valid() && old(waiters[o][0]) in old(state) &&
        state == old(state)[old(waiters[o][0]) := Resumed(old(state[waiters[o][0]]))]
      ensures blkState == old(blkState)[old(waiters[o][0]) := BlkFinish]
      ensures V() == AllWoken(old(V()), [old(waiters[o][0])])
      ensures WentOn([old(waiters[o][0])], old(state), state)
      ensures blkState == Told(old(blkState), [old(waiters[o][0])], BlkFinish)
      ensures schedLock > 0 ==> active == old(active)
    {
      hide V, Sound, Linked, Owned, Inherits, HistoryOk, NestedOk, RunQueue.Valid, Remove, Woken, AllWoken, WentOn,
        Told;
      QueueHere(o, now);
      assert waiters[o][0] in waiters[o];
      OneWoken(V(), waiters[o][0], state, blkState, BlkFinish);
      Wakeup(waiters[o][0], BlkFinish, now);
      CoreSched(now);
    }

    /** All of the invariant but that the most urgent task runs. */
    ghost predicate Steady()
      reads this, rq
    {
      && Sound(now) && Owned(V()) && Inherits(V()) && NestedOk(objs, owner, nested) && HistoryOk(objs, sent, got) &&
         Linked()
      && active in state && state[active].Ready?
    }

    method Resched()
      requires Steady()
      modifies this`active
      ensures Valid()
      ensures schedLock > 0 ==> active == old(active)
    {
      hide V, Sound, Owned, Inherits, NestedOk, HistoryOk, Linked;
      CoreSched(now);
    }

    lemma ValidIsSteady()
      requires Valid()
      ensures Steady()
    {
      hide V, Sound, Owned, Inherits, NestedOk, HistoryOk, Linked;
    }

    /** All who wait for `o` go on, and the most urgent task runs. */
    method Flush(o: Obj, why: BlkState)
      requires Steady() && o in objs && !objs[o].Mutex? && o in waiters
      modifies this`state, this`waiters, this`tickHead, this`blkState, this`blkObj, this`active, rq
      ensures Valid() && o in waiters && waiters[o] == []
      ensures WentOn(old(waiters[o]), old(state), state) && blkState == Told(old(blkState), old(waiters[o]), why)
      ensures V() == AllWoken(old(V()), old(waiters[o]))
      ensures schedLock > 0 ==> active == old(active)
    {
      hide V, Sound, Owned, Inherits, NestedOk, HistoryOk, Linked, RunQueue.Valid, WentOn, Told, AllWoken;
      WakeAll(o, why);
      CoreSched(now);
    }

    /** A mutex is taken off the list of its owner, if it has one. */
    static ghost predicate LinksLost(owner: map<Obj, Task>, held: map<Task, seq<Obj>>, head0: Heads, next0: Links,
        head: Heads, next: Links, m: Obj) {
      if m !in owner then head == head0 && next == next0
      else owner[m] in held && LinksBut({owner[m]}, held[owner[m]], head0, next0, head, next)
    }

    method Retire(m: Obj)
      requires Sound(now) && Owned(V()) && Inherits(V()) && m in objs && objs[m].Mutex? && m in waiters && Linked()
      modifies this`prio, this`waiters, this`mutexList, this`objs, this`head, this`next, this`rank, this`clock, rq
      ensures Sound(now) && Owned(V()) && Inherits(V()) && objs == old(objs)[m := Gone] &&
        SameQueues(old(waiters), waiters) && Linked()
      ensures Retired(old(V()), V(), active, m)
      ensures LinksLost(old(owner), old(mutexList), old(head), old(next), head, next, m)
    {
      hide V, Sound, Owned, Inherits, Linked, Repriced, Unlinked, LinksBut, SameQueues;
      ViewHere();
      ObjectsHere();
      if m in owner {
        RetireOwned(m);
      } else {
        RetireFree(m);
        SameQueuesHere(waiters);
      }
    }

    method RetireOwned(m: Obj)
      requires Sound(now) && Owned(V()) && Inherits(V()) && m in objs && objs[m].Mutex? && m in owner && Linked()
      modifies this`prio, this`waiters, this`mutexList, this`objs, this`head, this`next, this`rank, this`clock, rq
      ensures Sound(now) && Owned(V()) && Inherits(V()) && objs == old(objs)[m := Gone] &&
        SameQueues(old(waiters), waiters) && Linked()
      ensures owner[m] in old(mutexList) && Repriced(Unlinked(old(V()), m, owner[m]).(objs := objs), V(), active)
      ensures LinksBut({owner[m]}, old(mutexList[owner[m]]), old(head), old(next), head, next)
    {
      hide V, Sound, Owned, Inherits, LinksOk, StaleOk, Unlinked, Repriced, LinksBut, SameQueues;
      ghost var objs0 := objs;
      DelRelease(m);
      AbsentIf(mutexList, head, next, dead, objs0, owner, m);
      LinksAside(mutexList, head, next, next, dead, objs0, owner, objs, owner, m);
      StaleReleased(objs0, owner, objs, owner, next, head, rank, clock, m);
      Stamp(m);
    }

    method RetireFree(m: Obj)
      requires Sound(now) && Owned(V()) && Inherits(V()) && m in objs && objs[m].Mutex? && m !in owner && Linked()
      modifies this`objs
      ensures Sound(now) && Owned(V()) && Inherits(V()) && objs == old(objs)[m := Gone] && Linked() &&
        V() == old(V()).(objs := objs)
    {
      hide V, Sound, Owned, Inherits, LinksOk, StaleOk;
      AbsentIf(mutexList, head, next, dead, objs, owner, m);
      LinksAside(mutexList, head, next, next, dead, objs, owner, objs[m := Gone], owner, m);
      StaleGone(objs, owner, next, head, rank, clock, m);
      DelFree(m);
    }

    /** `krhino_mutex_del` */
    method MutexDel(m: Obj) returns (r: Status)
      requires Valid() && m in objs
      modifies this`prio, this`waiters, this`mutexList, this`objs, this`head, this`next, this`rank, this`clock,
        this`state, this`tickHead, this`blkState,
               this`blkObj, this`active, rq
      ensures Valid() && (r == TypeErr <==> !old(objs[m].Mutex?)) && (r != TypeErr ==> r == Success)
      ensures r == TypeErr ==> V() == old(V()) && unchanged(this`blkState, this`head, this`next, this`active)
      ensures r == Success ==> objs == old(objs)[m := Gone] && m in waiters && waiters[m] == [] && m in old(waiters)
      ensures r == Success ==> MutexGone(old(V()), V(), old(active), m)
      ensures r == Success ==>
        WentOn(old(waiters[m]), old(state), state) && blkState == Told(old(blkState), old(waiters[m]), BlkDel)
      ensures r == Success ==> LinksLost(old(owner), old(mutexList), old(head), old(next), head, next, m)
      ensures schedLock > 0 ==> active == old(active)
    {
      hide V, Sound, Owned, Inherits, RunQueue.Valid, Linked, HistoryOk, NestedOk, MutexGone, WentOn, Told, LinksLost;
      if !objs[m].Mutex? {
        return TypeErr;
      }
      RetireAndWake(m);
      return Success;
    }

    method RetireAndWake(m: Obj)
      requires Valid() && m in objs && objs[m].Mutex?
      modifies this`prio, this`waiters, this`mutexList, this`objs, this`head, this`next, this`rank, this`clock,
        this`state, this`tickHead, this`blkState,
               this`blkObj, this`active, rq
      ensures Valid() && objs == old(objs)[m := Gone] && m in waiters && waiters[m] == [] && m in old(waiters)
      ensures MutexGone(old(V()), V(), old(active), m)
      ensures WentOn(old(waiters[m]), old(state), state) && blkState == Told(old(blkState), old(waiters[m]), BlkDel)
      ensures LinksLost(old(owner), old(mutexList), old(head), old(next), head, next, m)
      ensures schedLock > 0 ==> active == old(active)
    {
      hide Valid, Steady, V, Retired, AllWoken, WentOn, Told, LinksLost;
      ghost var v := V();
      RetireSteady(m);
      ghost var v1, q := V(), waiters[m];
      ViewHere();
      Flush(m, BlkDel);
      ToldSame(old(blkState), q, old(waiters[m]), BlkDel);
      WentOnSame(q, old(waiters[m]), old(state), state);
      assert Retired(v, v1, old(active), m) && m in v1.waiters && V() == AllWoken(v1, v1.waiters[m]);
    }

    method RetireSteady(m: Obj)
      requires Valid() && m in objs && objs[m].Mutex?
      modifies this`prio, this`waiters, this`mutexList, this`objs, this`head, this`next, this`rank, this`clock, rq
      ensures Steady() && objs == old(objs)[m := Gone] && SameQueues(old(waiters), waiters) && m in waiters &&
        m in old(waiters)
      ensures Retired(old(V()), V(), active, m)
      ensures LinksLost(old(owner), old(mutexList), old(head), old(next), head, next, m)
    {
      hide V, Sound, Owned, Inherits, RunQueue.Valid, Linked, HistoryOk, NestedOk, Retired, LinksLost;
      QueueHere(m, now);
      GoneRecords(objs, owner, nested, sent, got, m);
      Retire(m);
    }

    static lemma GoneRecords(objs: map<Obj, Object>, owner: map<Obj, Task>, nested: map<Obj, nat>,
        sent: map<Obj, seq<Message>>, got: map<Obj, seq<Message>>, o: Obj)
      requires NestedOk(objs, owner, nested) && HistoryOk(objs, sent, got)
      ensures NestedOk(objs[o := Gone], owner, nested) && HistoryOk(objs[o := Gone], sent, got)
    {
    }

    // ----- Tasks -----

    /** The running task leaves the ready queue for the tick list. */
    method EnterTickList(ticks: nat)
      requires Sound(now) && active in state && state[active].Ready? && active != idle && 0 < ticks < TICK_RANGE
      modifies this`state, this`tickHead, this`tickMatch, this`due, rq
      ensures Sound(now) && active in prio && prio[active] < |old(V()).list| &&
        (forall x :: x in old(tickHead) ==> x in old(due))
      ensures V() == EnterSleep(old(V()), active, ticks)
      ensures due == old(due)[active := now + ticks] && active in tickHead
    {
      hide Queued, Enqueue, Unsigned, TickList, Remove, RunQueue.Valid;
      SleepHere(active, ticks);
      ghost var dueThen := due[active := now + ticks];
      var matchThen := tickMatch[active := Unsigned(tickCount + ticks)];
      var head := TickListPriInsert(tickHead, matchThen, tickCount, active, ticks, dueThen, now);
      rq.Rm(active, prio[active], idle);
      FallAsleep(dueThen, matchThen, head);
    }

    lemma SleepHere(t: Task, ticks: nat)
      requires Sound(now) && t in state && state[t].Ready? && t != idle && 0 < ticks < TICK_RANGE
      ensures t in prio && prio[t] < |rq.list| == PRI_MAX && t in rq.list[prio[t]] && idle in rq.list[IDLE_PRI]
      ensures (forall x :: x in tickHead ==> x in due) && Queued(EnterSleep(V(), t, ticks), now)
      ensures Unsigned(tickCount + ticks) == Unsigned(now + ticks)
      ensures TickList(tickHead, due[t := now + ticks], tickMatch[t := Unsigned(now + ticks)], now, now)
      ensures t in Enqueue(tickHead, t, due[t := now + ticks])
    {
      hide Queued, Enqueue, Unsigned, TickList, NoDup, Remove, RunQueue.Valid;
      LiveFacts(V(), now, t);
      EnterSleepKeeps(V(), t, ticks);
      TickFacts(V(), t, ticks);
      TimedMembers(V(), t, ticks);
      WrappedSum(now, ticks);
    }

    method FallAsleep(ghost dueThen: map<Task, nat>, matchThen: map<Task, nat>, head: seq<Task>)
      modifies this`state, this`tickHead, this`tickMatch, this`due
      ensures state == old(state)[active := Sleep] && due == dueThen && tickMatch == matchThen && tickHead == head
    {
      state, due, tickMatch, tickHead := state[active := Sleep], dueThen, matchThen, head;
    }

    /** The running task goes to sleep. */
    method GoToSleep(ticks: nat)
      requires Sound(now) && Owned(V()) && Inherits(V()) && active in state && state[active].Ready? && active != idle &&
        0 < ticks < TICK_RANGE
      modifies this`state, this`tickHead, this`tickMatch, this`due, rq
      ensures Sound(now) && Owned(V()) && Inherits(V())
      ensures state == old(state)[active := Sleep] && due == old(due)[active := now + ticks] && active in tickHead
      ensures FellAsleep(old(V()), V(), active, ticks)
    {
      hide Queued, Owned, Inherits, Enqueue, Unsigned, Remove, RunQueue.Valid;
      ghost var v := V();
      EnterTickList(ticks);
      SettledAside(v, V(), active);
    }

    /** `krhino_task_sleep` */
    method TaskSleep(ticks: nat) returns (r: Status)
      requires Valid() && active != idle && ticks < TICK_RANGE
      modifies this`state, this`tickHead, this`tickMatch, this`due, this`active, rq
      ensures Valid() && (r == InvParam <==> ticks == 0) && (r == SchedDisabled <==> ticks != 0 && old(schedLock) > 0)
      ensures r in {InvParam, SchedDisabled} ==> V() == old(V()) && active == old(active)
      ensures r == Blocked <==> ticks != 0 && old(schedLock) == 0
      ensures r == Blocked ==>
        state == old(state)[old(active) := Sleep] && due == old(due)[old(active) := now + ticks] &&
        old(active) in tickHead
      ensures r == Blocked ==> FellAsleep(old(V()), V(), old(active), ticks)
      ensures schedLock > 0 ==> active == old(active)
      ensures r != Blocked ==> state == old(state) && due == old(due)
    {
      hide V, Sound, Linked, HistoryOk, NestedOk, Queued, Owned, Inherits, RunQueue.Valid, FellAsleep;
      if ticks == 0 {
        return InvParam;
      }
      if schedLock > 0 {
        return SchedDisabled;
      }
      GoToSleep(ticks);
      CoreSched(now);
      return Blocked;
    }

    /** A ready task is suspended or leaves for good. */
    method ParkReady(t: Task, s: TaskState, n: nat)
      requires Sound(now) && t in state && state[t].Ready? && t != idle && ((s.Suspended? && n >= 1) || s.Deleted?)
      modifies this`state, this`suspendCount, rq
      ensures Sound(now) && t in prio && prio[t] < |old(V()).list| && V() == Park(old(V()), t, s, n)
    {
      hide Queued, NoDup, Remove, RunQueue.Valid;
      LiveFacts(V(), now, t);
      ParkKeeps(V(), t, s, n, now);
      rq.Rm(t, prio[t], idle);
      state, suspendCount := state[t := s], suspendCount[t := n];
    }

    /** A suspended task that waits for nothing becomes ready. */
    method UnparkReady(t: Task, n: nat)
      requires Sound(now) && t in state && state[t].Suspended?
      modifies this`state, this`suspendCount, rq
      ensures Sound(now) && t in prio && prio[t] < |old(V()).list| && V() == Unpark(old(V()), t, Ready, n)
    {
      hide Queued, NoDup, RunQueue.Valid;
      LiveFacts(V(), now, t);
      UnparkKeeps(V(), t, Ready, n, now);
      rq.AddTail(t, prio[t]);
      state, suspendCount := state[t := Ready], suspendCount[t := n];
    }

    /** A task stays in its queue and only its suspension changes. */
    method Relabel(t: Task, s: TaskState, n: nat)
      requires Sound(now) && Owned(V()) && Inherits(V()) && t in state && Live(state[t]) && SameKind(state[t], s) &&
        (IsSuspended(s) ==> n >= 1)
      modifies this`state, this`suspendCount
      ensures Sound(now) && Owned(V()) && Inherits(V()) && state == old(state)[t := s] &&
        suspendCount == old(suspendCount)[t := n]
      ensures V() == old(V()).(state := state, suspend := suspendCount)
    {
      hide Queued, Owned, Inherits, RunQueue.Valid;
      ghost var v := V();
      RelabelKeeps(v, t, s, n, now);
      state, suspendCount := state[t := s], suspendCount[t := n];
      SettledAside(v, V(), t);
    }

    method SuspendReady(t: Task)
      requires Sound(now) && Owned(V()) && Inherits(V()) && t in state && state[t].Ready? && t != idle
      modifies this`state, this`suspendCount, rq
      ensures Sound(now) && Owned(V()) && Inherits(V()) && state == old(state)[t := Suspended] &&
        suspendCount == old(suspendCount)[t := 1]
      ensures t in prio && prio[t] < |old(V()).list| && V() == Park(old(V()), t, Suspended, 1)
    {
      hide Queued, Owned, Inherits, RunQueue.Valid, Remove;
      ghost var v := V();
      ParkReady(t, Suspended, 1);
      SettledAside(v, V(), t);
    }

    /** The switch of `task_suspend`, for a task that may be suspended. */
    method Suspend(t: Task) returns (r: Status)
      requires Sound(now) && Owned(V()) && Inherits(V()) && t in state && t != idle && t in suspendCount
      modifies this`state, this`suspendCount, rq
      ensures Sound(now) && Owned(V()) && Inherits(V()) && r in {Success, SuspendOverflow, InvTaskState}
      ensures r == InvTaskState <==> old(state[t].Deleted?)
      ensures r == SuspendOverflow <==> old(IsSuspended(state[t]) && suspendCount[t] == SUSPEND_MAX)
      ensures r == Success ==> state == old(state)[t := AddSuspension(old(state[t]))]
      ensures r == Success ==>
        suspendCount == old(suspendCount)[t := if IsSuspended(old(state[t])) then old(suspendCount[t]) + 1 else 1]
      ensures r != Success ==> V() == old(V()) && unchanged(this`state, this`suspendCount, rq)
      ensures r == Success ==> SuspendedOnce(old(V()), V(), t)
    {
      hide Queued, Owned, Inherits, RunQueue.Valid;
      r := Success;
      match state[t] {
        case Ready =>
          SuspendReady(t);
        case Sleep =>
          Relabel(t, SleepSuspended, 1);
        case Pend =>
          Relabel(t, PendSuspended, 1);
        case Deleted =>
          r := InvTaskState;
        case _ =>
          if suspendCount[t] == SUSPEND_MAX {
            r := SuspendOverflow;
          } else {
            Relabel(t, state[t], suspendCount[t] + 1);
          }
      }
    }

    method SuspendAndSchedule(t: Task) returns (r: Status)
      requires Valid() && t in state && t != idle && t in suspendCount && (t == active ==> schedLock == 0)
      modifies this`state, this`suspendCount, this`active, rq
      ensures Valid() && r in {Success, SuspendOverflow, InvTaskState}
      ensures r == InvTaskState <==> old(state[t].Deleted?)
      ensures r == SuspendOverflow <==> old(IsSuspended(state[t]) && suspendCount[t] == SUSPEND_MAX)
      ensures r == Success ==>
        suspendCount == old(suspendCount)[t := if IsSuspended(old(state[t])) then old(suspendCount[t]) + 1 else 1]
      ensures r == Success ==> state == old(state)[t := AddSuspension(old(state[t]))]
      ensures r != Success ==> V() == old(V()) && active == old(active)
      ensures r == Success ==> SuspendedOnce(old(V()), V(), t)
      ensures schedLock > 0 ==> active == old(active)
    {
      hide V, Sound, Linked, HistoryOk, NestedOk, Queued, Owned, Inherits, RunQueue.Valid, SuspendedOnce;
      r := Suspend(t);
      if r == Success {
        CoreSched(now);
      }
    }

    /** `krhino_task_suspend` */
    method TaskSuspend(t: Task) returns (r: Status)
      requires Valid() && t in state
      modifies this`state, this`suspendCount, this`active, rq
      ensures Valid() && t in old(prio) && t in old(suspendCount)
      ensures r == NotAllowed <==> old(prio[t]) == IDLE_PRI
      ensures r == SchedDisabled <==> old(prio[t] != IDLE_PRI && t == active && schedLock > 0)
      ensures r == InvTaskState <==> old(prio[t] != IDLE_PRI && state[t].Deleted?)
      ensures r == SuspendOverflow <==>
        old(prio[t] != IDLE_PRI && !(t == active && schedLock > 0) && IsSuspended(state[t]) &&
        suspendCount[t] == SUSPEND_MAX)
      ensures r !in {NotAllowed, SchedDisabled, InvTaskState, SuspendOverflow} ==> r == Success
      ensures r == Success ==> state == old(state)[t := AddSuspension(old(state[t]))]
      ensures r == Success ==>
        suspendCount == old(suspendCount)[t := if IsSuspended(old(state[t])) then old(suspendCount[t]) + 1 else 1]
      ensures r != Success ==> V() == old(V()) && active == old(active)
      ensures r == Success ==> SuspendedOnce(old(V()), V(), t)
      ensures schedLock > 0 ==> active == old(active)
    {
      hide V, Sound, Linked, HistoryOk, NestedOk, Queued, Owned, Inherits, RunQueue.Valid, SuspendedOnce;
      Here(t, now);
      if prio[t] == IDLE_PRI {
        return NotAllowed;
      }
      if t == active && schedLock > 0 {
        return SchedDisabled;
      }
      r := SuspendAndSchedule(t);
    }

    method ResumeParked(t: Task)
      requires Sound(now) && Owned(V()) && Inherits(V()) && t in state && state[t].Suspended?
      modifies this`state, this`suspendCount, rq
      ensures Sound(now) && Owned(V()) && Inherits(V()) && state == old(state)[t := Ready] &&
        suspendCount == old(suspendCount)[t := 0]
      ensures t in prio && prio[t] < |old(V()).list| && V() == Unpark(old(V()), t, Ready, 0)
    {
      hide Queued, Owned, Inherits, RunQueue.Valid;
      ghost var v := V();
      UnparkReady(t, 0);
      SettledAside(v, V(), t);
    }

    /** The switch of `task_resume`, for a suspended task. */
    method Resume(t: Task)
      requires Sound(now) && Owned(V()) && Inherits(V()) && t in state && IsSuspended(state[t]) && t in suspendCount &&
        suspendCount[t] >= 1
      modifies this`state, this`suspendCount, rq
      ensures Sound(now) && Owned(V()) && Inherits(V())
      ensures suspendCount == old(suspendCount)[t := old(suspendCount[t]) - 1]
      ensures state == old(state)[t := if old(suspendCount[t]) == 1 then DropSuspension(old(state[t]))
        else old(state[t])]
      ensures ResumedOnce(old(V()), V(), t)
    {
      hide Queued, Owned, Inherits, RunQueue.Valid;
      if suspendCount[t] > 1 {
        Relabel(t, state[t], suspendCount[t] - 1);
      } else if state[t].Suspended? {
        ResumeParked(t);
      } else {
        Relabel(t, DropSuspension(state[t]), 0);
      }
    }

    /** `krhino_task_resume` */
    method TaskResume(t: Task) returns (r: Status)
      requires Valid() && t in state
      modifies this`state, this`suspendCount, this`active, rq
      ensures Valid() && t in old(suspendCount)
      ensures r == InvTaskState <==> old(state[t].Deleted?)
      ensures r == NotSuspended <==> old(!state[t].Deleted? && !IsSuspended(state[t]))
      ensures r in {InvTaskState, NotSuspended} ==> V() == old(V()) && active == old(active)
      ensures r == Success ==> ResumedOnce(old(V()), V(), t)
      ensures r !in {InvTaskState, NotSuspended} ==> r == Success
      ensures r == Success ==>
        old(suspendCount[t]) >= 1 && suspendCount == old(suspendCount)[t := old(suspendCount[t]) - 1]
      ensures r == Success ==>
        state == old(state)[t := if old(suspendCount[t]) == 1 then DropSuspension(old(state[t])) else old(state[t])]
      ensures schedLock > 0 ==> active == old(active)
    {
      hide V, Sound, Linked, HistoryOk, NestedOk, Queued, Owned, Inherits, RunQueue.Valid, ResumedOnce;
      Here(t, now);
      if state[t].Deleted? {
        return InvTaskState;
      }
      if !IsSuspended(state[t]) {
        return NotSuspended;
      }
      Resume(t);
      CoreSched(now);
      return Success;
    }

    /** `krhino_task_yield`: the ring of the running task turns by one. */
    method TaskYield()
      requires Valid()
      modifies this`active, rq
      ensures Valid() && old(active) in prio && prio[old(active)] < |old(rq.list)|
      ensures V() == old(V()).(list := rq.list)
      ensures rq.list == old(rq.list)[prio[old(active)] := Rotate(old(rq.list)[prio[old(active)]])]
      ensures schedLock > 0 ==> active == old(active)
    {
      hide Linked, HistoryOk, NestedOk, Queued, OwnOk, WaitFor, Base, PI.Fix, PI.Graph, NoDup, Rotate, RunQueue.Valid;
      LiveFacts(V(), now, active);
      RotateKeeps(V(), prio[active], now);
      rq.HeadToTail(prio[active]);
      CoreSched(now);
    }

    /** `krhino_sched_disable`, `krhino_sched_enable` */
    method SchedDisable() returns (r: Status)
      requires Valid()
      modifies this`schedLock
      ensures Valid() && (r == LockOverflow <==> old(schedLock) >= SCHED_LOCK_MAX)
      ensures if r == LockOverflow then schedLock == old(schedLock) else r == Success && schedLock == old(schedLock) + 1
    {
      hide Linked, HistoryOk, NestedOk, Queued, Owned, Inherits, RunQueue.Valid;
      if schedLock >= SCHED_LOCK_MAX {
        return LockOverflow;
      }
      schedLock := schedLock + 1;
      return Success;
    }

    method SchedEnable() returns (r: Status)
      requires Valid()
      modifies this`schedLock, this`active
      ensures Valid() && (r == AlreadyEnabled <==> old(schedLock) == 0) && (r == SchedDisabled <==> old(schedLock) > 1)
      ensures if r == AlreadyEnabled then schedLock == old(schedLock) else schedLock == old(schedLock) - 1
      ensures r != Success ==> active == old(active)
    {
      hide Linked, HistoryOk, NestedOk, Queued, Owned, Inherits, RunQueue.Valid;
      if schedLock == 0 {
        return AlreadyEnabled;
      }
      schedLock := schedLock - 1;
      if schedLock > 0 {
        return SchedDisabled;
      }
      CoreSched(now);
      return Success;
    }

    /** `krhino_task_pri_change`: the new base priority, limited by what the mutexes of `t` bring. */
    method ChangeBase(t: Task, pri: nat)
      requires Sound(now) && Owned(V()) && Inherits(V()) && t in state && Live(state[t]) && t != idle && pri < PRI_MAX
      modifies this`bprio, this`prio, this`waiters, rq
      ensures Sound(now) && Owned(V()) && Inherits(V()) && bprio == old(bprio)[t := pri]
      ensures SameQueues(old(waiters), waiters)
      ensures Repriced(old(V()).(bprio := bprio), V(), active)
    {
      hide Queued, OwnOk, WaitFor, Base, PI.Fix, PI.FixExcept, PI.IsMin, LeastOfHeads, NoDup, LiveOwner, Repriced;
      ghost var v := V();
      LiveFacts(v, now, t);
      HeldFacts(v, t, now);
      var limit := MutexPriLimit(mutexList[t], pri, waiters, prio);
      RebaseOutOfPlace(v, t, pri, limit, now);
      bprio := bprio[t := pri];
      TaskPriChange(t, limit, BaseOf(V()), Wf(V()), now);
    }

    /** `krhino_task_pri_change` */
    method TaskChangePriority(t: Task, pri: nat) returns (r: Status, oldPri: nat)
      requires Valid() && t in state
      modifies this`bprio, this`prio, this`waiters, this`active, rq
      ensures Valid() && t in old(prio) && oldPri == old(prio[t])
      ensures r == PriChangeNotAllowed <==> old(prio[t]) >= IDLE_PRI || pri >= IDLE_PRI
      ensures r == InvTaskState <==> old(prio[t]) < IDLE_PRI && pri < IDLE_PRI && old(state[t].Deleted?)
      ensures r in {PriChangeNotAllowed, InvTaskState} ==> V() == old(V()) && active == old(active)
      ensures r == Success ==> Repriced(old(V()).(bprio := bprio), V(), old(active))
      ensures r !in {PriChangeNotAllowed, InvTaskState} ==>
        r == Success && bprio == old(bprio)[t := pri] && state == old(state)
      ensures schedLock > 0 ==> active == old(active)
    {
      hide V, Sound, Linked, HistoryOk, NestedOk, Queued, Owned, Inherits, RunQueue.Valid, Repriced;
      Here(t, now);
      oldPri := prio[t];
      if prio[t] >= IDLE_PRI || pri >= IDLE_PRI {
        return PriChangeNotAllowed, oldPri;
      }
      if state[t].Deleted? {
        return InvTaskState, oldPri;
      }
      ChangeBase(t, pri);
      CoreSched(now);
      return Success, oldPri;
    }

    /** A sleeping task is released: by its timeout, by an abort or because it is deleted. */
    method EndSleep(t: Task, s: TaskState, ghost lo: nat)
      requires Sound(lo) && t in state && Sleeping(state[t]) &&
        (s.Deleted? || (s.Suspended? && state[t].SleepSuspended?))
      modifies this`state, this`tickHead
      ensures Sound(lo) && t in prio && prio[t] < |old(V()).list| && V() == LeaveSleep(old(V()), t, s)
    {
      hide Queued, NoDup, Remove, RunQueue.Valid;
      LiveFacts(V(), lo, t);
      LeaveSleepKeeps(V(), t, s, lo);
      state, tickHead := state[t := s], Remove(tickHead, t);
    }

    method EndSleepReady(t: Task, ghost lo: nat)
      requires Sound(lo) && t in state && Sleeping(state[t])
      modifies this`state, this`tickHead, rq
      ensures Sound(lo) && t in prio && prio[t] < |old(V()).list| && V() == LeaveSleep(old(V()), t, Ready)
    {
      hide Queued, NoDup, Remove, RunQueue.Valid;
      LiveFacts(V(), lo, t);
      LeaveSleepKeeps(V(), t, Ready, lo);
      rq.AddTail(t, prio[t]);
      state, tickHead := state[t := Ready], Remove(tickHead, t);
    }

    method WakeSleeper(t: Task, s: TaskState, why: BlkState, ghost lo: nat)
      requires Sound(lo) && Owned(V()) && Inherits(V()) && t in state && Sleeping(state[t])
      requires s.Ready? || (s.Suspended? && state[t].SleepSuspended?)
      modifies this`state, this`tickHead, this`blkState, rq
      ensures Sound(lo) && Owned(V()) && Inherits(V()) && blkState == old(blkState)[t := why]
      ensures state == old(state)[t := s] && tickHead == Remove(old(tickHead), t)
      ensures t in prio && prio[t] < |old(V()).list| && V() == LeaveSleep(old(V()), t, s)
    {
      hide Queued, Owned, Inherits, Remove, RunQueue.Valid;
      ghost var v := V();
      if s.Ready? {
        EndSleepReady(t, lo);
      } else {
        EndSleep(t, s, lo);
      }
      blkState := blkState[t := why];
      SettledAside(v, V(), t);
    }

    /** A suspended task is aborted: its suspension count stays behind. */
    method AbortParked(t: Task)
      requires Sound(now) && Owned(V()) && Inherits(V()) && t in state && state[t].Suspended? && t in suspendCount
      modifies this`state, this`suspendCount, rq
      ensures Sound(now) && Owned(V()) && Inherits(V()) && state == old(state)[t := Ready] &&
        suspendCount == old(suspendCount)
      ensures t in prio && prio[t] < |old(V()).list| && V() == Unpark(old(V()), t, Ready, old(suspendCount[t]))
    {
      hide Queued, Owned, Inherits, RunQueue.Valid;
      ghost var v := V();
      assert suspendCount[t := suspendCount[t]] == suspendCount;
      UnparkReady(t, suspendCount[t]);
      SettledAside(v, V(), t);
    }

    /** The switch of `krhino_task_wait_abort`. */
    method Abort(t: Task)
      requires Sound(now) && Owned(V()) && Inherits(V()) && t in state && Live(state[t]) && t in suspendCount
      modifies this`state, this`suspendCount, this`prio, this`waiters, this`tickHead, this`blkState, this`blkObj, rq
      ensures Sound(now) && Owned(V()) && Inherits(V()) && state == old(state)[t := Ready]
      ensures blkObj == if old(Pending(state[t])) then old(blkObj) - {t} else old(blkObj)
      ensures old(Spare(V(), t)) ==> prio == old(prio)
      ensures blkState == if old(Sleeping(state[t]) || Pending(state[t])) then old(blkState)[t := BlkAbort]
        else old(blkState)
      ensures Aborted(old(V()), V(), active, t)
    {
      hide Queued, Owned, Inherits, Spare, RunQueue.Valid, Remove, GaveUp;
      Here(t, now);
      if state[t].Ready? {
        assert state[t := Ready] == state;
      } else if state[t].Suspended? {
        AbortParked(t);
      } else if Sleeping(state[t]) {
        WakeSleeper(t, Ready, BlkAbort, now);
      } else {
        GiveUp(t, BlkAbort, now);
      }
    }

    method AbortAndSchedule(t: Task)
      requires Valid() && t in state && Live(state[t]) && t in suspendCount
      modifies this`state, this`suspendCount, this`prio, this`waiters, this`tickHead, this`blkState, this`blkObj,
        this`active, rq
      ensures Valid() && state == old(state)[t := Ready] && Aborted(old(V()), V(), old(active), t)
      ensures blkObj == if old(Pending(state[t])) then old(blkObj) - {t} else old(blkObj)
      ensures old(Spare(V(), t)) ==> prio == old(prio)
      ensures blkState == if old(Sleeping(state[t]) || Pending(state[t])) then old(blkState)[t := BlkAbort]
        else old(blkState)
      ensures schedLock > 0 ==> active == old(active)
    {
      hide V, Sound, Owned, Inherits, NestedOk, HistoryOk, Linked, Aborted, Spare, RunQueue.Valid;
      Abort(t);
      hide Valid;
      Resched();
    }

    lemma SuspendHere(t: Task)
      requires Valid() && t in state
      ensures t in suspendCount && t in prio
    {
      hide V, Sound, Owned, Inherits, NestedOk, HistoryOk, Linked;
      Here(t, now);
    }

    lemma RingsHere()
      requires Valid()
      ensures |V().list| == PRI_MAX
    {
      hide Queued, Owned, Inherits, NestedOk, HistoryOk, Linked;
    }

    /** `krhino_task_wait_abort` */
    method TaskWaitAbort(t: Task) returns (r: Status)
      requires Valid() && t in state
      modifies this`state, this`suspendCount, this`prio, this`waiters, this`tickHead, this`blkState, this`blkObj,
        this`active, rq
      ensures Valid() && (r == InvTaskState <==> old(state[t].Deleted?)) && (r != InvTaskState ==> r == Success)
      ensures r == InvTaskState ==> V() == old(V()) && active == old(active)
      ensures r == Success ==> Aborted(old(V()), V(), old(active), t)
      ensures r == Success ==> state == old(state)[t := Ready]
      ensures r == Success ==> blkObj == if old(Pending(state[t])) then old(blkObj) - {t} else old(blkObj)
      ensures old(Spare(V(), t)) ==> prio == old(prio)
      ensures blkState == if old(Sleeping(state[t]) || Pending(state[t])) then old(blkState)[t := BlkAbort]
        else old(blkState)
      ensures schedLock > 0 ==> active == old(active)
    {
      hide Valid, V, Aborted, Spare;
      SuspendHere(t);
      if state[t].Deleted? {
        return InvTaskState;
      }
      AbortAndSchedule(t);
      return Success;
    }

    // ----- The tick -----

    /** The switch of `tick_list_update` for one task whose time has come. */
    method Expire(t: Task, ghost lo: nat)
      requires Sound(lo) && Owned(V()) && Inherits(V()) && t in state && (Sleeping(state[t]) || Pending(state[t]))
      modifies this`state, this`prio, this`waiters, this`tickHead, this`blkState, this`blkObj, rq
      ensures Sound(lo) && Owned(V()) && Inherits(V()) && tickHead == Remove(old(tickHead), t)
      ensures state == old(state)[t := AfterTimeout(old(state[t]))]
      ensures blkState == old(blkState)[t := TimeoutReason(old(state[t]))]
      ensures TimeIsUp(old(V()), V(), active, t)
    {
      hide Queued, Owned, Inherits, RunQueue.Valid, Remove, GaveUp;
      Here(t, lo);
      if Sleeping(state[t]) {
        WakeSleeper(t, AfterTimeout(state[t]), BlkFinish, lo);
      } else if state[t].Pend? {
        GiveUp(t, BlkTimeout, lo);
      } else {
        GiveUpSuspended(t, BlkTimeout, lo);
      }
    }

    /** The counter moves on; entries may now be due. */
    method Advance(ticks: nat)
      requires Sound(now) && 0 < ticks <= HALF_RANGE
      modifies this`tickCount, this`now
      ensures Sound(old(now)) && now == old(now) + ticks && (old(Owned(V())) ==> Owned(V())) &&
        (old(Inherits(V())) ==> Inherits(V()))
      ensures V() == old(V()).(now := now)
    {
      hide TcbOk, ReadyOk, WaitOk, SortedOk, TimedOk, NoLostWakeup, OwnOk, WaitFor, Base, PI.Fix, PI.Graph, Unsigned,
        RunQueue.Valid, NoDup;
      WrappedSum(now, ticks);
      tickCount := Unsigned(tickCount + ticks);
      now := now + ticks;
    }

    /** The signed difference takes waits of more than half the range for waits that are over. */
    static predicate Over(due: nat, now: nat) {
      due <= now || due - now >= HALF_RANGE
    }

    method HeadExpired(ghost lo: nat) returns (over: bool)
      requires Sound(lo) && tickHead != [] && lo <= now <= lo + HALF_RANGE
      ensures tickHead[0] in due && over == Over(due[tickHead[0]], now)
      ensures tickHead[0] in state && (Sleeping(state[tickHead[0]]) || Pending(state[tickHead[0]]))
    {
      hide TcbOk, ReadyOk, WaitOk, SortedOk, NoLostWakeup, Unsigned, Signed, RunQueue.Valid, NoDup, Sorted;
      var t := tickHead[0];
      assert t in tickHead;
      WrappedDifference(due[t], now);
      over := Signed(tickMatch[t] - tickCount) <= 0;
    }

    /** Which tasks of the tick list have been released so far, and how. */
    static ghost predicate Fired(head0: seq<Task>, state0: map<Task, TaskState>, head: seq<Task>,
        state: map<Task, TaskState>,
                                 due: map<Task, nat>, now: nat, why: map<Task, BlkState>, t: Task)
    {
      && t in state0 && t in state && t in due
      && if t in head0 && t !in head then
           Over(due[t], now) && state[t] == AfterTimeout(state0[t]) && t in why && why[t] == TimeoutReason(state0[t])
         else
           state[t] == state0[t]
    }

    /** When a wait ends: in time, or, if it is longer than half the range, as soon as no shorter wait is under way. */
    static ghost predicate Ripe(head0: seq<Task>, due: map<Task, nat>, now: nat, t: Task)
      requires t in due
    {
      due[t] <= now || (due[t] - now >= HALF_RANGE && forall u :: u in head0 && u in due ==> Over(due[u], now))
    }

    /** Exactly the tasks whose wait ends have been released. */
    static ghost predicate AllFired(head0: seq<Task>, state0: map<Task, TaskState>, head: seq<Task>,
        state: map<Task, TaskState>,
                                    due: map<Task, nat>, now: nat, why: map<Task, BlkState>)
    {
      && state.Keys == state0.Keys
      && (forall t :: t in head ==> t in head0)
      && (forall t :: t in head0 ==>
         Fired(head0, state0, head, state, due, now, why, t) && (t in head <==> !Ripe(head0, due, now, t)))
      && (forall t :: t in state0 && t !in head0 ==> state[t] == state0[t])
    }

    /** Who has left the list was before all who have not. */
    static ghost predicate InTurn(head0: seq<Task>, head: seq<Task>, due: map<Task, nat>) {
      && (forall t :: t in head ==> t in head0)
      && (forall t, u :: t in head0 && t !in head && u in head ==> t in due && u in due && due[t] <= due[u])
    }

    static lemma TurnTaken(head0: seq<Task>, head: seq<Task>, due: map<Task, nat>)
      requires InTurn(head0, head, due) && NoDup(head) && Sorted(head, due) && head != []
      ensures InTurn(head0, Remove(head, head[0]), due)
    {
      RemoveMembers(head, head[0]);
      HeadIsLeast(head, due);
      hide Remove, Sorted, NoDup;
    }

    /** The tasks that have left the list so far have been released, and nobody else. */
    static ghost predicate FiredSoFar(head0: seq<Task>, state0: map<Task, TaskState>, head: seq<Task>,
        state: map<Task, TaskState>, due: map<Task, nat>, now: nat, why: map<Task, BlkState>) {
      && state.Keys == state0.Keys && InTurn(head0, head, due)
      && (forall t :: t in head0 ==> Fired(head0, state0, head, state, due, now, why, t))
      && (forall t :: t in state0 && t !in head0 ==> state[t] == state0[t])
    }

    static lemma FiredNone(head0: seq<Task>, state0: map<Task, TaskState>, due: map<Task, nat>, now: nat,
        why: map<Task, BlkState>)
      requires forall t :: t in head0 ==> t in state0 && t in due
      ensures FiredSoFar(head0, state0, head0, state0, due, now, why)
    {
    }

    static lemma FiredMore(head0: seq<Task>, state0: map<Task, TaskState>, head: seq<Task>,
        state: map<Task, TaskState>, due: map<Task, nat>, now: nat, why: map<Task, BlkState>, t: Task)
      requires FiredSoFar(head0, state0, head, state, due, now, why) && NoDup(head) && Sorted(head, due)
      requires head != [] && t == head[0] && t in due && Over(due[t], now)
      ensures t in state0 && t in state && state[t] == state0[t]
      ensures FiredSoFar(head0, state0, head[1..], state[t := AfterTimeout(state[t])], due, now,
        why[t := TimeoutReason(state[t])])
    {
      FirstGone(head, 0);
      assert head[0..] == head;
      RemoveMembers(head, t);
      TurnTaken(head0, head, due);
      assert t in head0 by {
        assert t in head;
      }
      hide InTurn, NoDup, Sorted, Over, AfterTimeout, TimeoutReason, Remove;
      assert Fired(head0, state0, head, state, due, now, why, t);
      hide Fired;
      forall u | u in head0
        ensures Fired(head0, state0, head[1..], state[t := AfterTimeout(state[t])], due, now,
          why[t := TimeoutReason(state[t])], u)
      {
        FiredStill(head0, state0, head, head[1..], state, due, now, why, t, u);
      }
    }

    static lemma FiredStill(head0: seq<Task>, state0: map<Task, TaskState>, head: seq<Task>, rest: seq<Task>,
        state: map<Task, TaskState>, due: map<Task, nat>, now: nat, why: map<Task, BlkState>, t: Task, u: Task)
      requires Fired(head0, state0, head, state, due, now, why, u) &&
        Fired(head0, state0, head, state, due, now, why, t)
      requires t in head && t in head0 && Over(due[t], now) && (u in rest <==> u in head && u != t)
      ensures Fired(head0, state0, rest, state[t := AfterTimeout(state[t])], due, now,
        why[t := TimeoutReason(state[t])], u)
    {
    }

    static lemma FiredIsExact(head0: seq<Task>, state0: map<Task, TaskState>, head: seq<Task>,
        state: map<Task, TaskState>,
                              due: map<Task, nat>, now: nat, why: map<Task, BlkState>)
      requires FiredSoFar(head0, state0, head, state, due, now, why)
      requires head != [] ==> head[0] in due && !Over(due[head[0]], now)
      requires head != [] ==> forall t :: t in head ==> t in due && due[head[0]] <= due[t]
      ensures AllFired(head0, state0, head, state, due, now, why)
    {
      if head != [] {
        assert head[0] in head && head[0] in head0;
      }
      forall t | t in head0
        ensures t in head <==> !Ripe(head0, due, now, t)
      {
        assert Fired(head0, state0, head, state, due, now, why, t);
      }
    }

    /** The loop of `tick_list_update`. */
    method ExpireAll(ghost lo: nat)
      requires Sound(lo) && Owned(V()) && Inherits(V()) && lo <= now <= lo + HALF_RANGE
      modifies this`state, this`prio, this`waiters, this`tickHead, this`blkState, this`blkObj, rq
      ensures Sound(now) && Owned(V()) && Inherits(V()) && state.Keys == old(state.Keys)
      ensures AllFired(old(tickHead), old(state), tickHead, state, due, now, blkState)
      ensures TimesUp(old(V()), V(), active) && ToldTimes(old(V()), V(), old(blkState), blkState)
    {
      hide V, Sound, Owned, Inherits, FiredSoFar, Over, TimesUpIn, ToldTimes, AllFired;
      ghost var head0, state0, v, path := tickHead, state, V(), [V()];
      TicksHere(lo);
      FiredNone(head0, state0, due, now, blkState);
      ViewHere();
      NothingUp(v, active, blkState);
      while tickHead != []
        invariant Sound(lo) && Owned(V()) && Inherits(V())
        invariant FiredSoFar(head0, state0, tickHead, state, due, now, blkState)
        invariant TimesUpIn(v, V(), active, path) && ToldTimes(v, V(), old(blkState), blkState)
        decreases |tickHead|
      {
        var over := HeadExpired(lo);
        if !over {
          break;
        }
        ExpireNext(lo, head0, v, path, old(blkState));
        path := path + [V()];
      }
      TicksHere(lo);
      if tickHead != [] {
        HeadIsLeast(tickHead, due);
      }
      FiredIsExact(head0, state0, tickHead, state, due, now, blkState);
      SameTasks(head0, state0, tickHead, state, due, now, blkState);
      NothingDueHere(lo);
    }

    static lemma SameTasks(head0: seq<Task>, state0: map<Task, TaskState>, head: seq<Task>,
        state: map<Task, TaskState>, due: map<Task, nat>, now: nat, why: map<Task, BlkState>)
      requires FiredSoFar(head0, state0, head, state, due, now, why)
      ensures state.Keys == state0.Keys
    {
    }

    /** One round of the loop, and what it adds to the record. */
    method ExpireNext(ghost lo: nat, ghost head0: seq<Task>, ghost v: View, ghost path: seq<View>,
        ghost why0: map<Task, BlkState>)
      requires Sound(lo) && Owned(V()) && Inherits(V())
      requires tickHead != [] && tickHead[0] in state && (Sleeping(state[tickHead[0]]) || Pending(state[tickHead[0]]))
      requires tickHead[0] in due && Over(due[tickHead[0]], now) && v.tickHead == head0
      requires FiredSoFar(head0, v.state, tickHead, state, due, now, blkState)
      requires TimesUpIn(v, V(), active, path) && ToldTimes(v, V(), why0, blkState)
      modifies this`state, this`prio, this`waiters, this`tickHead, this`blkState, this`blkObj, rq
      ensures Sound(lo) && Owned(V()) && Inherits(V()) && |tickHead| < |old(tickHead)|
      ensures FiredSoFar(head0, v.state, tickHead, state, due, now, blkState)
      ensures TimesUpIn(v, V(), active, path + [V()]) && ToldTimes(v, V(), why0, blkState)
    {
      hide V, Sound, Owned, Inherits, Remove, FiredSoFar, Over, TimesUpIn, ToldTimes, TimeIsUp, NoDup, Sorted,
        AfterTimeout, TimeoutReason;
      var t := tickHead[0];
      ghost var v1, why1 := V(), blkState;
      ViewHere();
      TicksHere(lo);
      FirstGone(tickHead, 0);
      assert tickHead[0..] == tickHead;
      FiredMore(head0, v.state, tickHead, state, due, now, blkState, t);
      UpShape(v, v1, active, path);
      Expire(t, lo);
      ViewHere();
      UpMore(v, v1, V(), active, path, t);
      ToldTimesMore(v, v1, V(), why0, why1, t);
    }

    lemma TicksHere(lo: nat)
      requires Sound(lo)
      ensures NoDup(tickHead) && Sorted(tickHead, due) && forall t :: t in tickHead ==> t in state && t in due
    {
      hide TcbOk, ReadyOk, WaitOk, SortedOk, NoLostWakeup, NoDup, Sorted, RunQueue.Valid;
    }

    lemma NothingDueHere(lo: nat)
      requires Sound(lo) && (tickHead != [] ==> tickHead[0] in due && !Over(due[tickHead[0]], now))
      ensures Sound(now)
    {
      hide Queued;
      NothingDue(V(), lo);
    }

    /** `tick_list_update` */
    method TickListUpdate(ticks: nat)
      requires Sound(now) && Owned(V()) && Inherits(V()) && 0 < ticks <= HALF_RANGE
      modifies this`tickCount, this`now, this`state, this`prio, this`waiters, this`tickHead, this`blkState, this`blkObj,
        rq
      ensures Sound(now) && Owned(V()) && Inherits(V()) && state.Keys == old(state.Keys) && now == old(now) + ticks
      ensures AllFired(old(tickHead), old(state), tickHead, state, due, now, blkState)
      ensures TimesUp(old(V()).(now := now), V(), active) && ToldTimes(old(V()), V(), old(blkState), blkState)
    {
      hide V, Sound, Owned, Inherits, TimesUp, AllFired, Reasons;
      Advance(ticks);
      ExpireAll(old(now));
    }

    /** `time_slice_update`: once its slice is used up, the running task yields to the next of its ring. */
    method TimeSliceUpdate()
      requires Sound(now) && Owned(V()) && Inherits(V()) && active in state && state[active].Ready?
      modifies this`timeSlice, rq
      ensures Sound(now) && Owned(V()) && Inherits(V()) && active in prio && prio[active] < |old(rq.list)|
      ensures SliceUsed(active, old(rq.list)[prio[active]], old(timeSlice), timeSlice, timeTotal)
      ensures rq.list == if |old(rq.list)[prio[active]]| > 1 && LastTick(active, old(timeSlice))
                         then old(rq.list)[prio[active] := Rotate(old(rq.list)[prio[active]])] else old(rq.list)
      ensures SliceTurn(old(V()), V(), active, old(timeSlice), timeSlice, timeTotal)
    {
      hide V, Sound, Linked, Owned, Inherits, Rotate, RunQueue.Valid;
      RingHere(active, now);
      ViewHere();
      RingsAre();
      var p := prio[active];
      if |rq.list[p]| == 1 {
        return;
      }
      var slice := if active in timeSlice then timeSlice[active] else 0;
      if slice > 0 {
        slice := slice - 1;
      }
      timeSlice := timeSlice[active := slice];
      if slice > 0 {
        return;
      }
      TurnRing(p);
      timeSlice := timeSlice[active := if active in timeTotal then timeTotal[active] else 0];
    }

    method TurnRing(p: nat)
      requires Sound(now) && Owned(V()) && Inherits(V()) && p < |rq.list| && rq.list[p] != []
      modifies rq
      ensures Sound(now) && Owned(V()) && Inherits(V()) && rq.list == old(rq.list)[p := Rotate(old(rq.list)[p])]
      ensures V() == old(V()).(list := rq.list)
    {
      hide Queued, OwnOk, WaitFor, Base, PI.Fix, PI.Graph, NoDup, Rotate;
      RotateKeeps(V(), p, now);
      rq.HeadToTail(p);
    }

    /** `krhino_tick_proc`, and the scheduling at the end of the tick interrupt. */
    method Tick()
      requires Valid()
      modifies this`tickCount, this`now, this`state, this`prio, this`waiters, this`tickHead, this`blkState, this`blkObj,
        this`timeSlice, this`active, rq
      ensures Valid() && now == old(now) + 1 && state.Keys == old(state.Keys)
      ensures AllFired(old(tickHead), old(state), tickHead, state, due, now, blkState)
      ensures Ticked(old(V()), V(), old(active), old(timeSlice), timeSlice, timeTotal)
      ensures ToldTimes(old(V()), V(), old(blkState), blkState)
      ensures schedLock > 0 ==> active == old(active)
    {
      hide Valid, Steady, V, AllFired, TimesUp, SliceTurn, ToldTimes;
      ghost var v := V();
      TimeIs();
      UpdateWaits();
      ghost var v1 := V();
      UpdateSlice();
      TurnKeepsTimes(v, v1, V(), active, old(timeSlice), timeSlice, timeTotal, old(blkState), blkState);
      Resched();
    }

    method UpdateWaits()
      requires Valid()
      modifies this`tickCount, this`now, this`state, this`prio, this`waiters, this`tickHead, this`blkState, this`blkObj,
        rq
      ensures Steady() && now == old(now) + 1 && state.Keys == old(state.Keys)
      ensures AllFired(old(tickHead), old(state), tickHead, state, due, now, blkState)
      ensures TimesUp(old(V()).(now := now), V(), active) && ToldTimes(old(V()), V(), old(blkState), blkState)
    {
      hide V, Sound, Linked, HistoryOk, NestedOk, Queued, Owned, Inherits, RunQueue.Valid, TimesUp, ToldTimes;
      Here(active, now);
      TickListUpdate(1);
    }

    method UpdateSlice()
      requires Steady()
      modifies this`timeSlice, rq
      ensures Steady() && SliceTurn(old(V()), V(), active, old(timeSlice), timeSlice, timeTotal)
    {
      hide V, Sound, Linked, HistoryOk, NestedOk, Owned, Inherits, RunQueue.Valid, SliceTurn;
      TimeSliceUpdate();
    }

    /** `krhino_task_create` for a control block that is not in use. */
    method TaskCreate(t: Task, pri: nat, slice: nat, autorun: bool) returns (r: Status)
      requires Valid() && (t in state ==> state[t].Deleted?)
      modifies this`timeTotal, this`timeSlice, this`state, this`prio, this`bprio, this`suspendCount, this`mutexList,
        this`blkObj, this`dead, this`head,
               this`active, rq
      ensures Valid() && (r == BeyondMaxPri <==> pri >= PRI_MAX) && (r == NotAllowed <==> pri == IDLE_PRI)
      ensures r in {BeyondMaxPri, NotAllowed} ==>
        V() == old(V()) && unchanged(this`active, this`timeTotal, this`timeSlice, this`head)
      ensures r == Success ==> Born(old(V()), V(), t, pri, autorun)
      ensures r == Success ==> var n := if slice > 0 then slice else TIME_SLICE_DEFAULT;
        timeTotal == old(timeTotal)[t := n] && timeSlice == old(timeSlice)[t := n]
      ensures r !in {BeyondMaxPri, NotAllowed} ==>
        r == Success && state == old(state)[t := if autorun then Ready else Suspended]
      ensures r == Success ==>
        prio == old(prio)[t := pri] && bprio == old(bprio)[t := pri] && mutexList == old(mutexList)[t := []] &&
        head == old(head)[t := None]
      ensures r == Success ==> blkObj == old(blkObj) - {t}
      ensures schedLock > 0 ==> active == old(active)
    {
      hide Valid, V, Create, Unpark, Born;
      if pri >= PRI_MAX {
        return BeyondMaxPri;
      }
      if pri == IDLE_PRI {
        return NotAllowed;
      }
      SetSlice(t, if slice > 0 then slice else TIME_SLICE_DEFAULT);
      Bear(t, pri, autorun);
      return Success;
    }

    method Bear(t: Task, pri: nat, autorun: bool)
      requires Valid() && (t in state ==> state[t].Deleted?) && pri < PRI_MAX
      modifies this`state, this`prio, this`bprio, this`suspendCount, this`mutexList, this`blkObj, this`dead, this`head,
        this`active, rq
      ensures Valid() && Born(old(V()), V(), t, pri, autorun)
      ensures state == old(state)[t := if autorun then Ready else Suspended] && prio == old(prio)[t := pri] &&
        bprio == old(bprio)[t := pri]
      ensures mutexList == old(mutexList)[t := []] && head == old(head)[t := None] && blkObj == old(blkObj) - {t}
      ensures schedLock > 0 ==> active == old(active)
    {
      hide Valid, V, Create, Unpark;
      RingsHere();
      Admit(t, pri);
      if autorun {
        Start(t);
      }
    }

    method SetSlice(t: Task, slice: nat)
      modifies this`timeTotal, this`timeSlice
      ensures timeTotal == old(timeTotal)[t := slice] && timeSlice == old(timeSlice)[t := slice]
    {
      timeTotal := timeTotal[t := slice];
      timeSlice := timeSlice[t := slice];
    }

    method Admit(t: Task, pri: nat)
      requires Valid() && (t in state ==> state[t].Deleted?) && pri < PRI_MAX
      modifies this`state, this`prio, this`bprio, this`suspendCount, this`mutexList, this`blkObj, this`dead, this`head
      ensures Valid() && state == old(state)[t := Suspended] && prio == old(prio)[t := pri] &&
        bprio == old(bprio)[t := pri]
      ensures mutexList == old(mutexList)[t := []] && head == old(head)[t := None] && blkObj == old(blkObj) - {t}
      ensures V() == Create(old(V()), t, pri)
    {
      hide V, Sound, HistoryOk, NestedOk, Owned, Inherits, RunQueue.Valid, LinksOk, StaleOk, Create;
      BornHere(t);
      Spawn(t, pri);
    }

    lemma BornHere(t: Task)
      requires Linked()
      ensures LinksOk(mutexList[t := []], head[t := None], next, dead - {t}, objs, owner) &&
        StaleOk(objs, owner, next, head[t := None], rank, clock)
    {
      hide LinksOk, StaleOk;
      LinksBorn(mutexList, head, next, dead, objs, owner, t);
      StaleBorn(objs, owner, next, head, rank, clock, t);
    }

    /** `m` becomes the first mutex on the list of `t`. */
    method Link(m: Obj, t: Task)
      requires t in head
      modifies this`head, this`next
      ensures head == old(head)[t := Some(m)] && next == old(next)[m := old(head[t])]
    {
      next, head := next[m := head[t]], head[t := Some(m)];
    }

    method SetOwner(m: Obj, t: Task)
      modifies this`owner
      ensures owner == old(owner)[m := t]
    {
      owner := owner[m := t];
    }

    method Start(t: Task)
      requires Valid() && t in state && state[t].Suspended?
      modifies this`state, this`suspendCount, this`active, rq
      ensures Valid() && state == old(state)[t := Ready] && suspendCount == old(suspendCount)[t := 0]
      ensures t in prio && prio[t] < |old(V()).list| && V() == Unpark(old(V()), t, Ready, 0)
      ensures schedLock > 0 ==> active == old(active)
    {
      hide V, Sound, HistoryOk, NestedOk, Queued, Owned, Inherits, RunQueue.Valid, Linked, Unpark;
      ResumeParked(t);
      CoreSched(now);
    }

    /** A new task starts out suspended once; `autorun` is the resume that follows. */
    method Spawn(t: Task, pri: nat)
      requires Sound(now) && Owned(V()) && Inherits(V()) && (t in state ==> state[t].Deleted?) && pri < PRI_MAX
      modifies this`state, this`prio, this`bprio, this`suspendCount, this`mutexList, this`blkObj, this`dead, this`head
      ensures Sound(now) && Owned(V()) && Inherits(V()) && dead == old(dead) - {t}
      ensures state == old(state)[t := Suspended] && prio == old(prio)[t := pri] && bprio == old(bprio)[t := pri]
      ensures mutexList == old(mutexList)[t := []] && blkObj == old(blkObj) - {t} && head == old(head)[t := None]
      ensures V() == Create(old(V()), t, pri)
    {
      hide Queued, Owned, Inherits, RunQueue.Valid;
      ghost var v := V();
      CreateKeeps(v, t, pri, now);
      FillIn(t, pri);
      assert V() == Create(v, t, pri);
    }

    method FillIn(t: Task, pri: nat)
      modifies this`state, this`prio, this`bprio, this`suspendCount, this`mutexList, this`blkObj, this`dead, this`head
      ensures state == old(state)[t := Suspended] && prio == old(prio)[t := pri] && bprio == old(bprio)[t := pri] &&
        blkObj == old(blkObj) - {t}
      ensures mutexList == old(mutexList)[t := []] && head == old(head)[t := None] &&
        suspendCount == old(suspendCount)[t := 1] && dead == old(dead) - {t}
    {
      state := state[t := Suspended];
      prio := prio[t := pri];
      bprio := bprio[t := pri];
      suspendCount := suspendCount[t := 1];
      mutexList := mutexList[t := []];
      head := head[t := None];
      blkObj := blkObj - {t};
      dead := dead - {t};
    }

    /** A dying task gives up a mutex nobody waits for. */
    method FreeMutex(t: Task, m: Obj, ghost rest: seq<Obj>)
      requires Sound(now) && t in state && Live(state[t]) && t != idle && Dies(t, [m] + rest)
      requires m in waiters && waiters[m] == []
      modifies this`owner
      ensures Sound(now) && Dies(t, rest) && owner == old(owner) - {m}
      ensures Passed(old(V()), V(), m)
    {
      hide Queued, Owned, Inherits, RunQueue.Valid;
      DyingFrees(V(), t, m, rest, now);
      owner := owner - {m};
    }

    /** A dying task passes a mutex on to the first waiter. The nesting depth stays what the old owner had. */
    method HandOver(t: Task, m: Obj, ghost rest: seq<Obj>) returns (n: Task)
      requires Sound(now) && t in state && Live(state[t]) && t != idle && Dies(t, [m] + rest)
      requires m in waiters && waiters[m] != []
      modifies this`state, this`waiters, this`tickHead, this`blkState, this`blkObj, this`owner, this`mutexList, rq
      ensures Sound(now) && Dies(t, rest) && n == old(waiters[m][0]) && owner == old(owner)[m := n]
      ensures n != t && n in old(state) && Pending(old(state[n])) && state == old(state)[n := Resumed(old(state[n]))]
      ensures waiters == old(waiters)[m := Remove(old(waiters[m]), n)]
      ensures n in old(mutexList) && mutexList == old(mutexList)[n := [m] + old(mutexList[n])]
      ensures Passed(old(V()), V(), m) && blkState == old(blkState)[n := BlkFinish]
    {
      hide Queued, Consistent, RunQueue.Valid, Remove, PendingAt;
      ghost var v := V();
      n := waiters[m][0];
      HeirTakes(t, m, rest, n);
      Unpend(n, BlkFinish, now);
      HandTo(m, n);
      PassedIsHanded(v, m, n);
    }

    lemma HeirTakes(t: Task, m: Obj, rest: seq<Obj>, n: Task)
      requires Sound(now) && t in state && Live(state[t]) && t != idle && Dies(t, [m] + rest)
      requires m in waiters && waiters[m] != [] && n == waiters[m][0]
      ensures n != t && n in state && Pending(state[n]) && n in mutexList && n in blkObj && blkObj[n] == m
      ensures PendingAt(V(), n) && n in prio && prio[n] < |rq.list|
      ensures var v := PassMutex(FirstLeft(V(), n, Resumed(state[n])), m, n);
        Queued(v, now) && Consistent(Dying(v, t, rest), now)
    {
      hide Queued, Consistent, RunQueue.Valid, Remove, NoDup, Sorted;
      ghost var v := V();
      WaitersFacts(v, now, m);
      assert n in waiters[m];
      LiveFacts(v, now, n);
      PendFacts(v, now, n);
      DyingPasses(v, t, m, rest, n, Resumed(state[n]), now);
      FirstLeftQueued(v, m, n, Resumed(state[n]), now);
    }

    method HandTo(m: Obj, n: Task)
      requires n in mutexList
      modifies this`blkObj, this`owner, this`mutexList
      ensures blkObj == old(blkObj) - {n} && owner == old(owner)[m := n] &&
        mutexList == old(mutexList)[n := [m] + old(mutexList[n])]
    {
      blkObj := blkObj - {n};
      owner := owner[m := n];
      mutexList := mutexList[n := [m] + mutexList[n]];
    }

    /** If only `ms` were on the list of `t` and nothing were lent to it, everything would agree. */
    ghost predicate Dies(t: Task, ms: seq<Obj>)
      reads this`state, this`prio, this`bprio, this`suspendCount, this`mutexList, this`blkObj, this`pendFlags,
        this`pendAll, this`objs, this`waiters, this`owner,
            rq`list, this`tickHead, this`tickMatch, this`due, this`now, this`dead
    {
      t in prio && Consistent(Dying(V(), t, ms), now)
    }

    /** The links while `t` gives up its mutexes: its own do not count any more. */
    ghost predicate LinkedBut(t: Task)
      reads this`mutexList, this`head, this`next, this`dead, this`objs, this`owner, this`rank, this`clock
    {
      LinksOk(mutexList, head, next, dead + {t}, objs, owner) && StaleOk(objs, owner, next, head, rank, clock)
    }

    /** `t` still owns `ms`, and the links lead through them from `h`. */
    ghost predicate ToGive(t: Task, h: Option<Obj>, ms: seq<Obj>)
      reads this`next, this`objs, this`owner
    {
      NoDup(ms) && Chain(h, next, ms) && forall m :: m in ms ==> OwnedNow(objs, owner, m) && owner[m] == t
    }

    /** One round of `task_mutex_free`, for a task that is alive. */
    method GiveAway(t: Task, m: Obj, ghost rest: seq<Obj>)
      requires Sound(now) && t in state && Live(state[t]) && t != idle && Dies(t, [m] + rest) && m in waiters
      requires LinkedBut(t) && ToGive(t, Some(m), [m] + rest)
      modifies this`state, this`waiters, this`tickHead, this`blkState, this`blkObj, this`owner, this`mutexList,
        this`head, this`next, this`rank, this`clock, rq
      ensures Sound(now) && Dies(t, rest) && m in old(waiters)
      ensures LinkedBut(t) && m in old(next) && ToGive(t, old(next[m]), rest)
      ensures owner == if old(waiters[m]) == [] then old(owner) - {m} else old(owner)[m := old(waiters[m][0])]
      ensures if old(waiters[m]) == [] then state == old(state)
        else old(waiters[m][0]) != t && Woke(old(waiters[m][0]), old(state), state)
      ensures waiters.Keys == old(waiters.Keys) && forall m' :: m' in old(waiters) && m' != m ==>
        waiters[m'] == old(waiters[m'])
      ensures old(waiters[m]) == [] ==> head == old(head) && next == old(next)
      ensures Passed(old(V()), V(), m)
      ensures old(waiters[m]) == [] ==> blkState == old(blkState)
      ensures old(waiters[m]) != [] ==>
        blkState == old(blkState)[old(waiters[m][0]) := BlkFinish] &&
        LinksBut({old(waiters[m][0])}, [m], old(head), old(next), head, next)
    {
      hide V, Sound, Dies, LinkedBut, ToGive, Remove, Passed, LinksBut;
      if waiters[m] == [] {
        GiveFree(t, m, rest);
      } else {
        GiveHeir(t, m, rest);
      }
    }

    method GiveFree(t: Task, m: Obj, ghost rest: seq<Obj>)
      requires Sound(now) && t in state && Live(state[t]) && t != idle && Dies(t, [m] + rest) && m in waiters &&
        waiters[m] == []
      requires LinkedBut(t) && ToGive(t, Some(m), [m] + rest)
      modifies this`owner, this`rank, this`clock
      ensures Sound(now) && Dies(t, rest) && owner == old(owner) - {m} && LinkedBut(t) && m in next &&
        ToGive(t, next[m], rest)
      ensures Passed(old(V()), V(), m)
    {
      hide V, Sound, Dies, LinksOk, StaleOk, NoDup, Chain, OwnedNow, Passed;
      GiveFacts(t, m, rest, t);
      AbsentIf(mutexList, head, next, dead + {t}, objs, owner, m);
      LinksAside(mutexList, head, next, next, dead + {t}, objs, owner, objs, owner - {m}, m);
      StaleReleased(objs, owner, objs, owner - {m}, next, head, rank, clock, m);
      FreeMutex(t, m, rest);
      Stamp(m);
    }

    method GiveHeir(t: Task, m: Obj, ghost rest: seq<Obj>)
      requires Sound(now) && t in state && Live(state[t]) && t != idle && Dies(t, [m] + rest) && m in waiters &&
        waiters[m] != []
      requires LinkedBut(t) && ToGive(t, Some(m), [m] + rest)
      modifies this`state, this`waiters, this`tickHead, this`blkState, this`blkObj, this`owner, this`mutexList,
        this`head, this`next, rq
      ensures Sound(now) && Dies(t, rest) && owner == old(owner)[m := old(waiters[m][0])] && LinkedBut(t) &&
        m in old(next) && ToGive(t, old(next[m]), rest)
      ensures old(waiters[m][0]) != t && Woke(old(waiters[m][0]), old(state), state)
      ensures waiters == old(waiters)[m := Remove(old(waiters[m]), old(waiters[m][0]))]
      ensures Passed(old(V()), V(), m) && blkState == old(blkState)[old(waiters[m][0]) := BlkFinish]
      ensures old(waiters[m][0]) in old(head) && LinksBut({old(waiters[m][0])}, [m], old(head), old(next), head, next)
    {
      hide V, Sound, Dies, LinksOk, StaleOk, NoDup, Chain, OwnedNow, Remove, Passed, LinksBut;
      HeirLinks(t, m, rest, waiters[m][0]);
      var n := HandOver(t, m, rest);
      Link(m, n);
      LinkPassed(n, m, old(head), old(next), head, next);
    }

    lemma LinkOrder(t: Task)
      requires LinkedBut(t)
      ensures mutexList.Keys == head.Keys
    {
    }

    /** The links once the first waiter has got `m`. */
    lemma HeirLinks(t: Task, m: Obj, rest: seq<Obj>, n: Task)
      requires Sound(now) && m in waiters && waiters[m] != [] && n == waiters[m][0] && LinkedBut(t) &&
        ToGive(t, Some(m), [m] + rest) && t in state
      ensures n in mutexList && n in head && m in next
      ensures n != t ==>
        LinksOk(mutexList[n := [m] + mutexList[n]], head[n := Some(m)], next[m := head[n]], dead + {t}, objs,
        owner[m := n])
      ensures StaleOk(objs, owner[m := n], next[m := head[n]], head[n := Some(m)], rank, clock)
      ensures NoDup(rest) && Chain(next[m], next[m := head[n]], rest) && forall r :: r in rest ==>
        OwnedNow(objs, owner[m := n], r) && owner[m := n][r] == t
    {
      hide V, Sound, LinksOk, StaleOk, NoDup, Chain, OwnedNow;
      GiveFacts(t, m, rest, n);
      QueueHere(m, now);
      assert n in waiters[m];
      AliveHere(n, now);
      AbsentIf(mutexList, head, next, dead + {t}, objs, owner, m);
      LinkOrder(t);
      if n != t {
        LinksPushed(mutexList, head, next, dead + {t}, objs, owner, n, m);
      }
      StalePushed(objs, owner, next, head, rank, clock, n, m);
      ChainFrame(next[m], next, next[m := head[n]], rest);
    }

    lemma GiveFacts(t: Task, m: Obj, rest: seq<Obj>, n: Task)
      requires ToGive(t, Some(m), [m] + rest)
      ensures m in next && ToGive(t, next[m], rest) && m !in rest && OwnedNow(objs, owner, m) && owner[m] == t &&
        m in objs && objs[m].Mutex?
      ensures next[m].Some? ==> next[m].value != m && OwnedNow(objs, owner, next[m].value)
      ensures forall x :: x != m ==>
        (OwnedNow(objs, owner - {m}, x) <==> OwnedNow(objs, owner, x)) &&
        (OwnedNow(objs, owner, x) ==> (owner - {m})[x] == owner[x])
      ensures !OwnedNow(objs, owner - {m}, m)
      ensures forall r :: r in rest ==>
        OwnedNow(objs, owner[m := n], r) && owner[m := n][r] == t && OwnedNow(objs, owner - {m}, r) &&
        (owner - {m})[r] == t
    {
      var ms := [m] + rest;
      assert ms[1..] == rest && ms[0] == m;
      assert forall i :: 0 <= i < |rest| ==> rest[i] == ms[i + 1];
    }

    /** Some waiting tasks went on; nothing else changed state. */
    static ghost predicate OnlyWoken(was: map<Task, TaskState>, state: map<Task, TaskState>) {
      && state.Keys == was.Keys
      && forall t :: t in was ==> state[t] == was[t] || (Pending(was[t]) && state[t] == Resumed(was[t]))
    }

    /** `task_mutex_free`, for a task that is alive. */
    method TaskMutexFree(t: Task)
      requires Sound(now) && Owned(V()) && Inherits(V()) && Linked() && t in state && Live(state[t]) && t != idle
      modifies this`state, this`waiters, this`tickHead, this`blkState, this`blkObj, this`owner, this`mutexList,
        this`head, this`next, this`rank, this`clock, rq
      ensures Sound(now) && Dies(t, []) && t in old(mutexList) && LinkedBut(t)
      ensures HandedOver(old(mutexList[t]), old(waiters), old(owner), waiters, owner)
      ensures OnlyWoken(old(state), state) && t in state && state[t] == old(state[t])
      ensures HeirsWoken(old(mutexList[t]), old(waiters), old(state), state)
      ensures old(Unwanted(mutexList[t], waiters)) ==> head == old(head) && next == old(next)
      ensures V() == AllPassed(old(V()), old(mutexList[t]))
      ensures Bestowed(old(mutexList[t]), old(waiters), old(blkState), blkState, old(head), old(next), head, next)
    {
      hide V, Sound, Queued, Owned, Inherits, Dies, RunQueue.Valid, HandedOver, LinksOk, StaleOk, NoDup, Chain,
        OwnedNow, ToGive, OnlyWoken, HeirsWoken, Woke, AllPassed, Passed, LinkedBut, Unwanted, Bestowed, LinksBut;
      ghost var v := V();
      StartGiving(t);
      HandedNone(waiters, owner);
      AllPassedMore(v, [], 0);
      BestowedNone(waiters, blkState, head, next);
      var cur := head[t];
      ghost var ms, i := mutexList[t], 0;
      assert ms[..0] == [] && ms[0..] == ms;
      while cur.Some?
        invariant 0 <= i <= |ms| && LinkedBut(t) && ToGive(t, cur, ms[i..])
        invariant Sound(now) && Dies(t, ms[i..])
        invariant HandedOver(ms[..i], old(waiters), old(owner), waiters, owner)
        invariant OnlyWoken(old(state), state) && t in state && state[t] == old(state[t])
        invariant HeirsWoken(ms[..i], old(waiters), old(state), state)
        invariant old(Unwanted(ms, waiters)) ==> head == old(head) && next == old(next)
        invariant waiters.Keys == old(waiters.Keys) && forall m :: m in ms[i..] ==>
          m in old(waiters) && waiters[m] == old(waiters[m])
        invariant V() == AllPassed(v, ms[..i])
        invariant Bestowed(ms[..i], old(waiters), old(blkState), blkState, old(head), old(next), head, next)
        decreases |ms| - i
      {
        GiveNext(t, cur, ms[i..]);
        assert ms[i..] == [ms[i]] + ms[i + 1..];
        var m := cur.value;
        cur := next[m];
        ghost var waiters1, owner1, state1, why1, head1, next1, v1 := waiters, owner, state, blkState, head, next, V();
        GiveAway(t, m, ms[i + 1..]);
        UnwantedAt(ms, i, old(waiters));
        HandedOne(ms, i, old(waiters), old(owner), waiters1, owner1, waiters, owner);
        WokenMore(old(waiters), old(state), state1, state, ms, i, t);
        Given(v, ms, i, V(), v1);
        BestowedNext(ms, i, old(waiters), old(blkState), why1, blkState, old(head), old(next), head1, next1, head,
          next);
        i := i + 1;
      }
      GiveEnd(t, ms[i..]);
      assert ms[i..] == [] ==> i == |ms|;
      assert ms[..|ms|] == ms;
    }

    static lemma UnwantedAt(ms: seq<Obj>, i: nat, waiters: map<Obj, seq<Task>>)
      requires i < |ms|
      ensures Unwanted(ms, waiters) ==> ms[i] in waiters && waiters[ms[i]] == []
    {
    }

    static lemma Given(v: View, ms: seq<Obj>, i: nat, v': View, v1: View)
      requires i < |ms| && v1 == AllPassed(v, ms[..i]) && Passed(v1, v', ms[i])
      ensures v' == AllPassed(v, ms[..i + 1])
    {
      assert ms[..i + 1] == ms[..i] + [ms[i]];
      AllPassedMore(v, ms[..i], ms[i]);
    }

    /** What the heirs of `ms` learn, and how the links have changed for them. */
    static ghost predicate Bestowed(ms: seq<Obj>, waiters: map<Obj, seq<Task>>, why0: map<Task, BlkState>,
        why: map<Task, BlkState>, head0: Heads, next0: Links, head: Heads, next: Links) {
      && why == Told(why0, Heirs(ms, waiters), BlkFinish)
      && head.Keys == head0.Keys && (forall t :: t in head0 && t !in Heirs(ms, waiters) ==> head[t] == head0[t])
      && next.Keys == next0.Keys
      && (forall m :: m in next0 && !(m in ms && m in waiters && waiters[m] != []) ==> next[m] == next0[m])
    }

    static lemma BestowedNone(waiters: map<Obj, seq<Task>>, why: map<Task, BlkState>, head: Heads, next: Links)
      ensures Bestowed([], waiters, why, why, head, next, head, next)
    {
    }

    static lemma BestowedIs(ms: seq<Obj>, waiters: map<Obj, seq<Task>>, why0: map<Task, BlkState>,
        why: map<Task, BlkState>, head0: Heads, next0: Links, head: Heads, next: Links)
      ensures Bestowed(ms, waiters, why0, why, head0, next0, head, next) ==>
        why == Told(why0, Heirs(ms, waiters), BlkFinish)
    {
    }

    static lemma BestowedMore(ms: seq<Obj>, m: Obj, waiters: map<Obj, seq<Task>>, why0: map<Task, BlkState>,
        why1: map<Task, BlkState>, why: map<Task, BlkState>, head0: Heads, next0: Links, head1: Heads, next1: Links,
        head: Heads, next: Links)
      requires Bestowed(ms, waiters, why0, why1, head0, next0, head1, next1) && m in waiters
      requires if waiters[m] == [] then why == why1 && head == head1 && next == next1
        else why == why1[waiters[m][0] := BlkFinish] && LinksBut({waiters[m][0]}, [m], head1, next1, head, next)
      ensures Bestowed(ms + [m], waiters, why0, why, head0, next0, head, next)
    {
      HeirsMore(ms, m, waiters);
      if waiters[m] != [] {
        ToldMore(why0, Heirs(ms, waiters), waiters[m][0], BlkFinish);
      }
      hide Heirs, Told;
    }

    static lemma BestowedNext(ms: seq<Obj>, i: nat, waiters: map<Obj, seq<Task>>, why0: map<Task, BlkState>,
        why1: map<Task, BlkState>, why: map<Task, BlkState>, head0: Heads, next0: Links, head1: Heads, next1: Links,
        head: Heads, next: Links)
      requires i < |ms| && Bestowed(ms[..i], waiters, why0, why1, head0, next0, head1, next1) && ms[i] in waiters
      requires waiters[ms[i]] == [] ==> why == why1 && head == head1 && next == next1
      requires waiters[ms[i]] != [] ==>
        why == why1[waiters[ms[i]][0] := BlkFinish] &&
        LinksBut({waiters[ms[i]][0]}, [ms[i]], head1, next1, head, next)
      ensures Bestowed(ms[..i + 1], waiters, why0, why, head0, next0, head, next)
    {
      assert ms[..i + 1] == ms[..i] + [ms[i]];
      BestowedMore(ms[..i], ms[i], waiters, why0, why1, why, head0, next0, head1, next1, head, next);
    }

    lemma StartGiving(t: Task)
      requires Sound(now) && Owned(V()) && Inherits(V()) && Linked() && t in state && Live(state[t]) && t != idle
      ensures t in prio && t in mutexList && t in head && NoDup(mutexList[t]) && ToGive(t, head[t], mutexList[t]) &&
        LinkedBut(t)
      ensures Dies(t, mutexList[t]) && (forall m :: m in mutexList[t] ==> m in waiters) && OnlyWoken(state, state) &&
        HeirsWoken([], waiters, state, state)
    {
      hide Queued, Owned, Inherits, RunQueue.Valid, LinksOk, StaleOk, Chain;
      LiveFacts(V(), now, t);
      ListHere(t, now);
      LinkOf(mutexList, head, next, dead, objs, owner, t);
      ChainNoDup(head[t], next, mutexList[t]);
      LinksDied(mutexList, head, next, dead, objs, owner, t);
      DyingKeeps(V(), t, now);
    }

    lemma GiveNext(t: Task, h: Option<Obj>, ms: seq<Obj>)
      requires ToGive(t, h, ms) && h.Some?
      ensures ms != [] && h == Some(ms[0]) && h.value in next && NoDup(ms)
    {
    }

    lemma GiveEnd(t: Task, ms: seq<Obj>)
      requires ToGive(t, None, ms)
      ensures ms == []
    {
    }

    /** One waiting task goes on. */
    static ghost predicate Woke(n: Task, was: map<Task, TaskState>, state: map<Task, TaskState>) {
      n in was && Pending(was[n]) && state == was[n := Resumed(was[n])]
    }

    /** The first waiters of `ms` have gone on. */
    static ghost predicate HeirsWoken(ms: seq<Obj>, waiters0: map<Obj, seq<Task>>, was: map<Task, TaskState>,
        state: map<Task, TaskState>) {
      forall m :: m in ms && m in waiters0 && waiters0[m] != [] ==> Awake(waiters0[m][0], was, state)
    }

    static ghost predicate Awake(n: Task, was: map<Task, TaskState>, state: map<Task, TaskState>) {
      n in was && n in state && Pending(was[n]) && state[n] == Resumed(was[n])
    }

    static lemma WokenMore(waiters0: map<Obj, seq<Task>>, was: map<Task, TaskState>, mid: map<Task, TaskState>,
        state: map<Task, TaskState>,
                           ms: seq<Obj>, i: nat, t: Task)
      requires OnlyWoken(was, mid) && i < |ms| && HeirsWoken(ms[..i], waiters0, was, mid) && ms[i] in waiters0 &&
        t in mid
      requires if waiters0[ms[i]] == [] then state == mid
        else waiters0[ms[i]][0] != t && Woke(waiters0[ms[i]][0], mid, state)
      ensures OnlyWoken(was, state) && HeirsWoken(ms[..i + 1], waiters0, was, state) && t in state && state[t] == mid[t]
    {
      assert ms[..i + 1] == ms[..i] + [ms[i]];
    }

    method BuryReady(t: Task)
      requires Sound(now) && t in state && state[t].Ready? && t != idle && Dies(t, []) && t in suspendCount
      modifies this`state, this`suspendCount, rq
      ensures Sound(now) && Owned(V()) && Inherits(V()) && state == old(state)[t := Deleted]
      ensures t in prio && prio[t] < |old(V()).list| && V() == Park(old(V()), t, Deleted, suspendCount[t]) &&
        suspendCount == old(suspendCount)
    {
      hide Queued, Owned, Inherits, RunQueue.Valid, Remove;
      ghost var v := V();
      assert suspendCount[t := suspendCount[t]] == suspendCount;
      ParkReady(t, Deleted, suspendCount[t]);
      Buried(v, t, V(), 0, now);
    }

    method BuryParked(t: Task)
      requires Sound(now) && t in state && state[t].Suspended? && t != idle && Dies(t, []) && t in suspendCount
      modifies this`state
      ensures Sound(now) && Owned(V()) && Inherits(V()) && state == old(state)[t := Deleted]
      ensures V() == old(V()).(state := state)
    {
      hide Queued, Owned, Inherits, RunQueue.Valid;
      ghost var v := V();
      LiveFacts(v, now, t);
      UnparkKeeps(v, t, Deleted, suspendCount[t], now);
      assert suspendCount[t := suspendCount[t]] == suspendCount;
      state := state[t := Deleted];
      Buried(v, t, V(), 0, now);
    }

    method BurySleeping(t: Task)
      requires Sound(now) && t in state && Sleeping(state[t]) && t != idle && Dies(t, [])
      modifies this`state, this`tickHead
      ensures Sound(now) && Owned(V()) && Inherits(V()) && state == old(state)[t := Deleted]
      ensures t in prio && prio[t] < |old(V()).list| && V() == LeaveSleep(old(V()), t, Deleted)
    {
      hide Queued, Owned, Inherits, RunQueue.Valid, Remove;
      ghost var v := V();
      EndSleep(t, Deleted, now);
      Buried(v, t, V(), 0, now);
    }

    method UnpendDeleted(t: Task)
      requires Sound(now) && t in state && Pending(state[t])
      modifies this`state, this`waiters, this`tickHead
      ensures Sound(now) && PendingAt(old(V()), t) && t in prio && prio[t] < |old(V()).list| &&
        V() == LeaveWait(old(V()), t, Deleted)
    {
      hide Queued, RunQueue.Valid, Remove, NoDup, Sorted, Unsigned;
      ghost var v := V();
      LiveFacts(v, now, t);
      PendFacts(v, now, t);
      LeaveWaitKeeps(v, t, Deleted, now);
      DropOff(t);
    }

    method DropOff(t: Task)
      requires t in blkObj && blkObj[t] in waiters
      modifies this`state, this`waiters, this`tickHead
      ensures waiters == old(waiters)[blkObj[t] := Remove(old(waiters[blkObj[t]]), t)]
      ensures state == old(state)[t := Deleted] && tickHead == Remove(old(tickHead), t)
    {
      waiters := waiters[blkObj[t] := Remove(waiters[blkObj[t]], t)];
      state := state[t := Deleted];
      tickHead := Remove(tickHead, t);
    }

    method BuryPending(t: Task)
      requires Sound(now) && t in state && Pending(state[t]) && t != idle && Dies(t, [])
      modifies this`state, this`waiters, this`tickHead, this`prio, rq
      ensures Sound(now) && Owned(V()) && Inherits(V()) && state == old(state)[t := Deleted]
      ensures PendingAt(old(V()), t) && t in old(prio) && old(prio[t]) < |old(V()).list| &&
        Repriced(LeaveWait(old(V()), t, Deleted), V(), active)
    {
      hide Queued, Owned, Inherits, RunQueue.Valid, Remove, NoDup, LeftBehind, Repriced;
      ghost var v := V();
      UnpendDeleted(t);
      RemoveMembers(v.waiters[v.blk[t]], t);
      Buried(v, t, V(), blkObj[t], now);
      MutexTaskPriReset(t, now);
    }

    /** The switch of `krhino_task_del`, for a task that has given up its mutexes. */
    method Bury(t: Task)
      requires Sound(now) && t in state && Live(state[t]) && t != idle && Dies(t, [])
      modifies this`state, this`suspendCount, this`waiters, this`tickHead, this`prio, rq
      ensures Sound(now) && Owned(V()) && Inherits(V()) && state == old(state)[t := Deleted]
      ensures old(state[t].Ready?) ==> prio == old(prio)
      ensures Left(old(V()), V(), active, t)
    {
      hide Queued, Owned, Inherits, RunQueue.Valid, Dies, Repriced;
      LiveFacts(V(), now, t);
      Here(t, now);
      if state[t].Ready? {
        BuryReady(t);
      } else if state[t].Suspended? {
        BuryParked(t);
      } else if Sleeping(state[t]) {
        BurySleeping(t);
      } else {
        BuryPending(t);
      }
    }

    method Delete(t: Task)
      requires Valid() && t in state && Live(state[t]) && t != idle && (t == active ==> schedLock == 0)
      modifies this`state, this`suspendCount, this`waiters, this`tickHead, this`prio, this`mutexList, this`blkState,
        this`blkObj, this`owner, this`active,
               this`head, this`next, this`rank, this`clock, this`dead, rq
      ensures Valid() && t in old(mutexList) && Bequeathed(old(mutexList[t]), old(waiters), old(owner), owner)
      ensures t in state && state[t] == Deleted && OnlyWoken(old(state), state[t := old(state[t])])
      ensures HeirsWoken(old(mutexList[t]), old(waiters), old(state), state[t := old(state[t])])
      ensures old(state[t].Ready?) ==> prio == old(prio)
      ensures old(Unwanted(mutexList[t], waiters)) ==> head == old(head) && next == old(next)
      ensures TaskGone(old(V()), V(), old(active), t)
      ensures Bestowed(old(mutexList[t]), old(waiters), old(blkState), blkState, old(head), old(next), head, next)
      ensures schedLock > 0 ==> active == old(active)
    {
      hide Valid, Heirless, Bequeathed, Unwanted, OnlyWoken, HeirsWoken, AllPassed, Bestowed, Left, V;
      ViewHere();
      DeadIs();
      Bequeath(t);
      DeadIs();
      WokenBut(old(state), state, t);
      Entomb(t);
      DeadIs();
    }

    /** `t` has nothing to give away any more, and all is ready for its end. */
    ghost predicate Heirless(t: Task)
      reads this, rq
    {
      && Sound(now) && Dies(t, []) && LinkedBut(t) && NestedOk(objs, owner, nested) && HistoryOk(objs, sent, got)
      && (schedLock > 0 ==> t != active && active in state && state[active].Ready?)
    }

    method Bequeath(t: Task)
      requires Valid() && t in state && Live(state[t]) && t != idle && (t == active ==> schedLock == 0)
      modifies this`state, this`waiters, this`tickHead, this`blkState, this`blkObj, this`owner, this`mutexList,
        this`head, this`next, this`rank, this`clock, rq
      ensures Heirless(t) && t in old(mutexList) && Bequeathed(old(mutexList[t]), old(waiters), old(owner), owner)
      ensures OnlyWoken(old(state), state) && t in state && state[t] == old(state[t])
      ensures HeirsWoken(old(mutexList[t]), old(waiters), old(state), state)
      ensures old(Unwanted(mutexList[t], waiters)) ==> head == old(head) && next == old(next)
      ensures V() == AllPassed(old(V()), old(mutexList[t]))
      ensures Bestowed(old(mutexList[t]), old(waiters), old(blkState), blkState, old(head), old(next), head, next)
    {
      hide V, Sound, NestedOk, HistoryOk, Owned, Inherits, Linked, LinkedBut, HandedOver, Bequeathed, Unwanted,
        OnlyWoken, HeirsWoken, RunQueue.Valid, Dies, AllPassed, Bestowed;
      OwnsHere(t, now);
      TaskMutexFree(t);
      HandedNested(old(mutexList[t]), old(waiters), old(owner), waiters, owner, objs, nested);
      HandedIsBequeathed(old(mutexList[t]), old(waiters), old(owner), waiters, owner);
      WokenBut(old(state), state, t);
    }

    static lemma HandedIsBequeathed(ms: seq<Obj>, waiters0: map<Obj, seq<Task>>, owner0: map<Obj, Task>,
        waiters: map<Obj, seq<Task>>, owner: map<Obj, Task>)
      requires HandedOver(ms, waiters0, owner0, waiters, owner)
      ensures Bequeathed(ms, waiters0, owner0, owner)
    {
    }

    static lemma WokenBut(was: map<Task, TaskState>, state: map<Task, TaskState>, t: Task)
      requires OnlyWoken(was, state) && t in was && t in state && state[t] == was[t]
      ensures state[t := Deleted][t := was[t]] == state
      ensures forall u :: u in was && u != t && was[u].Ready? ==> u in state && state[u].Ready?
    {
    }

    method Entomb(t: Task)
      requires Heirless(t) && t in state && Live(state[t]) && t != idle
      modifies this`state, this`suspendCount, this`waiters, this`tickHead, this`prio, this`dead, this`active, rq
      ensures Valid() && state == old(state)[t := Deleted] && (old(state[t].Ready?) ==> prio == old(prio))
      ensures dead == old(dead) + {t} && Left(old(V()), V().(dead := old(dead)), old(active), t)
      ensures schedLock > 0 ==> active == old(active)
    {
      hide V, Sound, HistoryOk, NestedOk, Owned, Inherits, Linked, LinkedBut, RunQueue.Valid, Dies, Left;
      Bury(t);
      ghost var v1 := V();
      DeadIs();
      Mourn(t);
      assert V().(dead := old(dead)) == v1;
      CoreSched(now);
    }

    ghost method Mourn(t: Task)
      requires Sound(now) && Owned(V()) && Inherits(V()) && LinkedBut(t) && t in state && state[t].Deleted?
      modifies this`dead
      ensures Sound(now) && Owned(V()) && Inherits(V()) && Linked() && dead == old(dead) + {t}
      ensures V() == old(V()).(dead := dead)
    {
      hide ReadyOk, WaitOk, SortedOk, TimedOk, TickList, NoLostWakeup, OwnOk, WaitFor, Base, PI.Fix, PI.Graph,
        RunQueue.Valid, LinksOk, StaleOk;
      dead := dead + {t};
    }

    /** Nobody waits for any of `ms`. */
    static ghost predicate Unwanted(ms: seq<Obj>, waiters: map<Obj, seq<Task>>) {
      forall m :: m in ms ==> m in waiters && waiters[m] == []
    }

    /** What becomes of the mutexes of a deleted task, and of all others. */
    static ghost predicate Bequeathed(ms: seq<Obj>, waiters0: map<Obj, seq<Task>>, owner0: map<Obj, Task>,
        owner: map<Obj, Task>) {
      && (forall m :: m in ms ==> m in waiters0 && if waiters0[m] == [] then m !in owner
         else m in owner && owner[m] == waiters0[m][0])
      && (forall m :: m !in ms ==> (m in owner <==> m in owner0) && (m in owner ==> owner[m] == owner0[m]))
    }

    /** `m` has an owner or is waited for. */
    predicate Busy(m: Obj)
      reads this`objs, this`owner, this`waiters
    {
      InUse(objs, owner, waiters, m)
    }

    static predicate InUse(objs: map<Obj, Object>, owner: map<Obj, Task>, waiters: map<Obj, seq<Task>>, m: Obj) {
      OwnedNow(objs, owner, m) || (m in waiters && waiters[m] != [])
    }

    static lemma RestInUse(objs: map<Obj, Object>, owner: map<Obj, Task>, waiters: map<Obj, seq<Task>>, m: Obj,
        todo: seq<Obj>)
      requires todo != [] && todo[0] == m && m !in todo[1..] && !InUse(objs, owner, waiters, m)
      ensures (forall v :: v in todo ==> !InUse(objs, owner, waiters, v)) <==>
        (forall v :: v in todo[1..] ==> !InUse(objs, owner - {m}, waiters, v))
    {
      assert todo == [m] + todo[1..];
      assert forall v :: v != m ==> (InUse(objs, owner - {m}, waiters, v) <==> InUse(objs, owner, waiters, v));
      hide InUse;
    }

    /** Nothing is going on with the mutexes that the links of `t` lead through. */
    ghost predicate Harmless(t: Task)
      reads this`head, this`next, this`objs, this`owner, this`waiters
    {
      t in head && exists ms :: Chain(head[t], next, ms) && forall m :: m in ms ==> !Busy(m)
    }

    lemma OwnersHere(m: Obj, lo: nat)
      requires Sound(lo) && Owned(V()) && Linked() && OwnedNow(objs, owner, m)
      ensures owner[m] in state && Live(state[owner[m]]) && owner[m] in mutexList && owner[m] in head &&
        m in mutexList[owner[m]]
      ensures Chain(head[owner[m]], next, mutexList[owner[m]]) && m in waiters && owner[m] !in waiters[m]
    {
      assert HasOwner(m, state, owner, mutexList);
      AliveHere(owner[m], lo);
      hide Queued;
      LinkOf(mutexList, head, next, dead, objs, owner, owner[m]);
    }

    /** The links from a task that was deleted come to an end. */
    lemma StaleList(t: Task) returns (ms: seq<Obj>)
      requires Valid() && t in state
      ensures t in head && Chain(head[t], next, ms) && NoDup(ms) &&
        (forall m :: m in ms ==> m in next && m in waiters && m in objs)
      ensures Harmless(t) <==> forall m :: m in ms ==> !Busy(m)
    {
      hide V, Sound, Owned, Inherits, LinksOk, StaleOk, Chain, NoDup, Busy;
      HeadHere(t);
      forall m | OwnedNow(objs, owner, m)
        ensures owner[m] in mutexList && owner[m] in head && Chain(head[owner[m]], next, mutexList[owner[m]]) &&
          m in mutexList[owner[m]]
      {
        OwnersHere(m, now);
      }
      ms := StaleChain(head[t], objs, owner, next, head, rank, clock, mutexList);
      ChainNoDup(head[t], next, ms);
      forall m | m in ms
        ensures m in waiters && m in objs
      {
        LinkedObject(m);
      }
      forall ms' | Chain(head[t], next, ms')
        ensures ms' == ms
      {
        ChainUnique(head[t], next, ms, ms');
      }
    }

    /** What a caller has to look at before it deletes a task again. */
    method IsHarmless(t: Task) returns (b: bool)
      requires Valid() && t in state
      ensures b <==> Harmless(t)
    {
      hide V, Sound, Owned, Inherits, Linked, Chain, NoDup, Busy, Harmless;
      ghost var todo := StaleList(t);
      var cur := head[t];
      while cur.Some?
        invariant Chain(cur, next, todo) && NoDup(todo) && (Harmless(t) <==> forall m :: m in todo ==> !Busy(m))
        decreases |todo|
      {
        ChainHead(cur.value, todo);
        if Busy(cur.value) {
          return false;
        }
        assert todo == [cur.value] + todo[1..];
        cur, todo := next[cur.value], todo[1..];
      }
      ChainEnd(next, todo);
      return true;
    }

    /** In a valid state, owners, mutex lists and links agree. */
    lemma OwnershipHere()
      requires Valid()
      ensures Ownership(state, objs, owner, mutexList, waiters, head, next)
    {
      hide ReadyOk, WaitOk, SortedOk, TimedOk, TickList, NoLostWakeup, RunQueue.Valid, OwnOk, StaleOk;
      forall t | t in state && Live(state[t])
        ensures t in head && Chain(head[t], next, mutexList[t])
      {
        AliveHere(t, now);
        LinkOf(mutexList, head, next, dead, objs, owner, t);
      }
    }

    lemma HeadHere(t: Task)
      requires Sound(now) && Linked() && t in state
      ensures t in head && (head[t].Some? ==> head[t].value in next) && head.Keys == state.Keys
    {
      hide ReadyOk, WaitOk, SortedOk, TimedOk, TickList, NoLostWakeup, RunQueue.Valid, LinkAt, StaleAt;
    }

    lemma LinkedObject(m: Obj)
      requires Sound(now) && Linked() && m in next
      ensures m in objs && m in waiters && (objs[m].Mutex? || objs[m].Gone?)
    {
      hide V, Sound, LinksOk, StaleAt;
      QueueHere(m, now);
    }

    /** What the first of `q` learns when it gets `m`, and how the links change. */
    static ghost predicate GivenTo(q: seq<Task>, m: Obj, why0: map<Task, BlkState>, why: map<Task, BlkState>,
        head0: Heads, next0: Links, head: Heads, next: Links) {
      if q == [] then why == why0 && head == head0 && next == next0
      else why == why0[q[0] := BlkFinish] && LinksBut({q[0]}, [m], head0, next0, head, next)
    }

    /** One round of `task_mutex_free`, whatever the state of the mutex. */
    method PassOn(m: Obj)
      requires Sound(now) && m in objs && m in waiters && m in next && head.Keys == state.Keys
      modifies this`state, this`waiters, this`tickHead, this`blkState, this`blkObj, this`owner, this`head, this`next, rq
      ensures Sound(now) && m in old(waiters) && state.Keys == old(state.Keys)
      ensures old(m in objs && Idle() && !Busy(m)) ==> Idle()
      ensures old(waiters[m]) == [] ==>
        owner == old(owner) - {m} && V() == old(V()).(owner := owner) &&
        unchanged(this`state, this`waiters, this`tickHead, this`blkState, this`blkObj, this`head, this`next, rq)
      ensures old(waiters[m]) != [] ==>
        old(waiters[m][0]) in old(state) && Pending(old(state[waiters[m][0]])) && old(waiters[m][0]) in old(head)
      ensures old(waiters[m]) != [] ==>
        owner == old(owner)[m := old(waiters[m][0])] && next == old(next)[m := old(head[waiters[m][0]])]
      ensures old(waiters[m]) != [] ==>
        head == old(head)[old(waiters[m][0]) := Some(m)] &&
        waiters == old(waiters)[m := Remove(old(waiters[m]), old(waiters[m][0]))]
      ensures old(waiters[m]) != [] ==> state == old(state)[old(waiters[m][0]) := Resumed(old(state[waiters[m][0]]))]
      ensures V() == Handed(old(V()), m)
      ensures GivenTo(old(waiters[m]), m, old(blkState), blkState, old(head), old(next), head, next)
      ensures OnlyQueue(m, old(waiters), waiters)
      ensures old(waiters[m]) == [] ==>
        (old(Scheduled()) ==> Scheduled()) &&
        Unmoved(old(V()), V(), old(blkState), old(head), old(next), blkState, head, next)
    {
      hide V, Sound, Remove, RunQueue.Valid, OwnedNow, Idle, Woken, LinksBut, OnlyQueue, Unmoved, Scheduled;
      ghost var head0, next0 := head, next;
      ViewHere();
      if waiters[m] == [] {
        ghost var v := V();
        Disown(m);
        Unmoves(v, V(), owner, blkState, head, next);
      } else {
        var n := waiters[m][0];
        WakeHeir(m, n);
        Inherit(m, n);
        LinkPassed(n, m, head0, next0, head, next);
      }
      OneQueueChanged(m, old(waiters), waiters);
    }

    /** What a second deletion may break. */
    ghost predicate Idle()
      reads this`state, this`prio, this`bprio, this`suspendCount, this`mutexList, this`blkObj, this`pendFlags,
        this`pendAll, this`objs, this`waiters, this`owner,
            rq`list, this`tickHead, this`tickMatch, this`due, this`now, this`dead, this`head, this`next, this`rank,
            this`clock, this`nested
    {
      Owned(V()) && Inherits(V()) && Linked() && NestedOk(objs, owner, nested)
    }

    method Disown(m: Obj)
      requires Sound(now) && m in objs && m in next
      modifies this`owner
      ensures Sound(now) && owner == old(owner) - {m} && (old(Idle() && !OwnedNow(objs, owner, m)) ==> Idle())
      ensures V() == old(V()).(owner := owner)
    {
      hide Queued, Owned, Inherits, RunQueue.Valid, LinksOk, StaleOk;
      if Idle() && !OwnedNow(objs, owner, m) {
        AbsentIf(mutexList, head, next, dead, objs, owner, m);
        LinksAside(mutexList, head, next, next, dead, objs, owner, objs, owner - {m}, m);
        StaleForget(objs, owner, next, head, rank, clock, m);
        if objs[m].Mutex? {
          assert owner - {m} == owner;
        } else {
          ForgetKeeps(V(), m, now);
        }
      }
      OwnerAside(V(), owner - {m}, now);
      owner := owner - {m};
    }

    method WakeHeir(m: Obj, n: Task)
      requires Sound(now) && m in objs && m in waiters && waiters[m] != [] && n == waiters[m][0]
      modifies this`state, this`waiters, this`tickHead, this`blkState, this`blkObj, rq
      ensures Sound(now) && n in old(state) && Pending(old(state[n])) &&
        state == old(state)[n := Resumed(old(state[n]))]
      ensures waiters == old(waiters)[m := Remove(old(waiters[m]), n)]
      ensures V() == Woken(old(V()), n) && blkState == old(blkState)[n := BlkFinish]
    {
      hide Queued, Remove, NoDup, Sorted, RunQueue.Valid;
      WaitersFacts(V(), now, m);
      assert n in waiters[m];
      LiveFacts(V(), now, n);
      PendFacts(V(), now, n);
      FirstLeftQueued(V(), m, n, Resumed(state[n]), now);
      Unpend(n, BlkFinish, now);
      ClearBlk(n);
    }

    method Inherit(m: Obj, n: Task)
      requires Sound(now) && n in head
      modifies this`owner, this`head, this`next
      ensures Sound(now) && owner == old(owner)[m := n] && next == old(next)[m := old(head[n])] &&
        head == old(head)[n := Some(m)]
      ensures V() == old(V()).(owner := owner)
    {
      hide TcbOk, ReadyOk, WaitOk, SortedOk, TimedOk, TickList, NoLostWakeup, RunQueue.Valid;
      SetOwner(m, n);
      Link(m, n);
    }

    /** The first mutex that is busy: whoever its links lead to gets or keeps what is not theirs. */
    lemma Wound(m: Obj, todo: seq<Obj>) returns (x: Task, ms: seq<Obj>)
      requires Sound(now) && Owned(V()) && Linked() && Busy(m) && Chain(Some(m), next, todo) && NoDup(todo)
      requires m in objs && m in waiters && m in next && head.Keys == state.Keys && forall v :: v in todo ==>
        v in waiters
      ensures todo != [] && forall v :: v in todo[1..] ==> x !in waiters[v] && v !in ms
      ensures waiters[m] == [] ==> Scar(state, objs, owner - {m}, head, next, x, ms)
      ensures waiters[m] != [] ==>
                var n := waiters[m][0];
                n in state &&
                  Scar(state[n := Resumed(state[n])], objs, owner[m := n], head[n := Some(m)], next[m := head[n]], x,
                  ms)
    {
      hide V, Sound, Owned, Linked, OwnedNow, Chain, NoDup, Scar;
      ChainHead(m, todo);
      HeirHere(m);
      if OwnedNow(objs, owner, m) {
        x, ms := Robbed(m, todo);
      } else {
        x, ms := waiters[m][0], [m];
        NotMutex(m);
        HeirScar(state, objs, owner, head, next, x, m, Resumed(state[x]));
        forall v | v in todo[1..]
          ensures x !in waiters[v] && v !in ms
        {
          OneQueue(x, m, v);
        }
      }
    }

    lemma ChainHead(m: Obj, todo: seq<Obj>)
      requires Chain(Some(m), next, todo) && NoDup(todo)
      ensures todo != [] && todo[0] == m && m in next && Chain(next[m], next, todo[1..]) && NoDup(todo[1..]) &&
        m !in todo[1..]
    {
    }

    lemma HeirHere(m: Obj)
      requires Sound(now) && m in objs && m in waiters
      ensures waiters[m] != [] ==> var n := waiters[m][0]; n in state && Pending(state[n]) && Live(Resumed(state[n]))
    {
      hide Queued, RunQueue.Valid;
      WaitersFacts(V(), now, m);
      if waiters[m] != [] {
        assert waiters[m][0] in waiters[m];
      }
    }

    lemma OneQueue(x: Task, m: Obj, v: Obj)
      requires Sound(now) && m in waiters && v in waiters && x in waiters[m] && v != m
      ensures x !in waiters[v]
    {
      hide Queued;
      WaitersFacts(V(), now, m);
      WaitersFacts(V(), now, v);
    }

    lemma NotMutex(m: Obj)
      requires Owned(V()) && m in objs && m in waiters && waiters[m] != [] && !OwnedNow(objs, owner, m)
      ensures !objs[m].Mutex?
    {
    }

    /** `m` is taken from its owner, whose links still lead to it. */
    lemma Robbed(m: Obj, todo: seq<Obj>) returns (x: Task, ms: seq<Obj>)
      requires Sound(now) && Owned(V()) && Linked() && OwnedNow(objs, owner, m) && Chain(Some(m), next, todo)
      requires m in objs && m in waiters && m in next && head.Keys == state.Keys && forall v :: v in todo ==>
        v in waiters
      requires waiters[m] != [] ==> var n := waiters[m][0]; n in state && Pending(state[n])
      ensures todo != [] && forall v :: v in todo[1..] ==> x !in waiters[v] && v !in ms
      ensures waiters[m] == [] ==> Scar(state, objs, owner - {m}, head, next, x, ms)
      ensures waiters[m] != [] ==>
                var n := waiters[m][0];
                n in state &&
                  Scar(state[n := Resumed(state[n])], objs, owner[m := n], head[n := Some(m)], next[m := head[n]], x,
                  ms)
    {
      hide V, Sound, Owned, Linked, Chain, NoDup, Scar;
      OwnersHere(m, now);
      x := owner[m];
      var list := mutexList[x];
      var i :| 0 <= i < |list| && list[i] == m;
      ms := list[..i + 1];
      ChainFrom(head[x], next, list, i);
      ChainUnique(Some(m), next, todo, list[i..]);
      ListHere(x, now);
      assert todo[1..] == list[i + 1..];
      AfterIt(head[x], next, list, i);
      forall v | v in todo[1..]
        ensures x !in waiters[v] && v !in ms
      {
        assert v in list;
        OwnersHere(v, now);
      }
      if waiters[m] == [] {
        ScarCut(state, objs, owner, head, next, x, list, i, x + 1, state, None);
      } else {
        var n := waiters[m][0];
        assert n in waiters[m];
        ScarCut(state, objs, owner, head, next, x, list, i, n, state[n := Resumed(state[n])], head[n]);
      }
    }

    lemma StillScarred(m: Obj, x: Task, ms: seq<Obj>)
      requires Scar(state, objs, owner, head, next, x, ms) && m in waiters && x !in waiters[m] && m !in ms
      requires waiters[m] != [] ==> waiters[m][0] in state && waiters[m][0] in head
      ensures waiters[m] == [] ==> Scar(state, objs, owner - {m}, head, next, x, ms)
      ensures waiters[m] != [] ==>
                var n := waiters[m][0];
                Scar(state[n := Resumed(state[n])], objs, owner[m := n], head[n := Some(m)], next[m := head[n]], x, ms)
    {
      ScarIn(state, objs, owner, head, next, x, ms);
      hide Scar;
      if waiters[m] == [] {
        ScarStays(state, objs, owner, head, next, x, ms, m, x + 1, state, None);
      } else {
        var n := waiters[m][0];
        assert n in waiters[m];
        ScarStays(state, objs, owner, head, next, x, ms, m, n, state[n := Resumed(state[n])], head[n]);
      }
    }

    lemma NextFrame(m: Obj, todo: seq<Obj>)
      requires Chain(Some(m), next, todo) && NoDup(todo) && m in waiters && (waiters[m] != [] ==> waiters[m][0] in head)
      ensures todo != [] && m in next && Chain(next[m], next, todo[1..])
      ensures waiters[m] != [] ==> Chain(next[m], next[m := head[waiters[m][0]]], todo[1..])
    {
      ChainHead(m, todo);
      hide Chain, NoDup;
      if waiters[m] != [] {
        ChainFrame(next[m], next, next[m := head[waiters[m][0]]], todo[1..]);
      }
    }

    lemma IdleHere(t: Task)
      requires Valid() && t in state
      ensures Idle() && head.Keys == state.Keys
    {
      hide V, Sound, Owned, Inherits, LinksOk, StaleOk;
      HeadHere(t);
    }

    lemma IdleParts()
      requires Idle()
      ensures Owned(V()) && Linked()
    {
    }

    lemma IdleIsValid()
      requires Sound(now) && Idle() && Scheduled() && HistoryOk(objs, sent, got)
      ensures Valid()
    {
    }

    /** `task_mutex_free`, for a task that was deleted before: it follows links that may have been set by others
        since. */
    method FreeStale(t: Task)
      requires Valid() && t in state
      modifies this`state, this`waiters, this`tickHead, this`blkState, this`blkObj, this`owner, this`head, this`next, rq
      ensures Sound(now) && state.Keys == old(state.Keys)
      ensures old(Harmless(t)) ==>
        Valid() && state == old(state) && waiters == old(waiters) && head == old(head) && next == old(next) &&
        V() == old(V()).(owner := owner) && blkState == old(blkState)
      ensures !old(Harmless(t)) ==> forall held :: !Ownership(state, objs, owner, held, waiters, head, next)
      ensures StaleGiven(t, old(V()), V(), old(blkState), blkState, old(head), old(next), head, next)
    {
      hide V, Sound, Owned, Inherits, Linked, OwnedNow, Chain, NoDup, Scar, Idle, Ownership, HistoryOk, NestedOk,
        Harmless, Walk, StaleSoFar, Scheduled, Unmoved, GivenTo, Handed;
      ghost var todo := StaleList(t);
      ghost var v, all, i := V(), todo, 0;
      ViewHere();
      StartWalk(t, todo);
      var cur := head[t];
      ghost var hurt, x, ms: seq<Obj> := false, t, [];
      assert all[0..] == all;
      StaleNone(all, v, blkState, head, next);
      Unmoves(v, v, v.owner, blkState, head, next);
      while cur.Some?
        invariant Sound(now) && state.Keys == old(state.Keys) && Walk(cur, todo, hurt, x, ms, old(Harmless(t)))
        invariant !hurt ==>
          Scheduled() && Unmoved(v, V(), old(blkState), old(head), old(next), blkState, head, next)
        invariant 0 <= i <= |all| && todo == all[i..] && NoDup(all) && waiters.Keys == old(waiters.Keys)
        invariant forall m :: m in todo ==> m in old(waiters) && waiters[m] == old(waiters[m])
        invariant StaleSoFar(all[..i], v, V(), old(blkState), blkState, old(head), old(next), head, next)
        decreases |todo|
      {
        WalkHead(cur.value, todo, hurt, x, ms, old(Harmless(t)));
        ghost var v1, why1, head1, next1 := V(), blkState, head, next;
        cur, hurt, x, ms := StaleRound(cur.value, todo, hurt, x, ms, old(Harmless(t)));
        if !hurt {
          UnmovedMore(v, v1, V(), old(blkState), why1, blkState, old(head), old(next), head1, next1, head, next);
        }
        StaleNext(all, i, v, v1, V(), old(blkState), why1, blkState, old(head), old(next), head1, next1, head, next);
        i, todo := i + 1, todo[1..];
      }
      WalkEnd(todo, hurt, x, ms, old(Harmless(t)));
      assert all[..i] == all;
      if hurt {
        forall held
          ensures !Ownership(state, objs, owner, held, waiters, head, next)
        {
          ScarBreaks(state, objs, owner, held, waiters, head, next, x, ms);
        }
      } else {
        IdleIsValid();
        UnmovedIs(v, V(), old(blkState), old(head), old(next), blkState, head, next);
        ViewHere();
      }
    }

    /** Nothing but owners has changed. */
    static ghost predicate Unmoved(v: View, v': View, why0: map<Task, BlkState>, head0: Heads, next0: Links,
        why: map<Task, BlkState>, head: Heads, next: Links) {
      v' == v.(owner := v'.owner) && why == why0 && head == head0 && next == next0
    }

    static lemma Unmoves(v: View, v': View, owner: map<Obj, Task>, why: map<Task, BlkState>, head: Heads, next: Links)
      requires v' == v.(owner := owner)
      ensures Unmoved(v, v', why, head, next, why, head, next)
    {
    }

    static lemma UnmovedMore(v: View, v1: View, v2: View, why0: map<Task, BlkState>, why1: map<Task, BlkState>,
        why2: map<Task, BlkState>, head0: Heads, next0: Links, head1: Heads, next1: Links, head2: Heads, next2: Links)
      requires Unmoved(v, v1, why0, head0, next0, why1, head1, next1)
      requires Unmoved(v1, v2, why1, head1, next1, why2, head2, next2)
      ensures Unmoved(v, v2, why0, head0, next0, why2, head2, next2)
    {
    }

    static lemma UnmovedIs(v: View, v': View, why0: map<Task, BlkState>, head0: Heads, next0: Links,
        why: map<Task, BlkState>, head: Heads, next: Links)
      requires Unmoved(v, v', why0, head0, next0, why, head, next)
      ensures v' == v.(owner := v'.owner) && v'.state == v.state && v'.waiters == v.waiters
      ensures why == why0 && head == head0 && next == next0
    {
    }

    /** The mutexes `ms`, to which the links led, have been given away. */
    static ghost predicate StaleSoFar(ms: seq<Obj>, v: View, v': View, why0: map<Task, BlkState>,
        why: map<Task, BlkState>, head0: Heads, next0: Links, head: Heads, next: Links) {
      v' == AllHanded(v, ms) && Bestowed(ms, v.waiters, why0, why, head0, next0, head, next)
    }

    static ghost predicate StaleGiven(t: Task, v: View, v': View, why0: map<Task, BlkState>,
        why: map<Task, BlkState>, head0: Heads, next0: Links, head: Heads, next: Links) {
      && t in head0
      && exists ms :: Chain(head0[t], next0, ms) && StaleSoFar(ms, v, v', why0, why, head0, next0, head, next)
    }

    static lemma StaleNone(ms: seq<Obj>, v: View, why: map<Task, BlkState>, head: Heads, next: Links)
      ensures StaleSoFar(ms[..0], v, v, why, why, head, next, head, next)
    {
      assert ms[..0] == [];
      AllPassedMore(v, [], 0);
      BestowedNone(v.waiters, why, head, next);
    }

    static lemma StaleNext(ms: seq<Obj>, i: nat, v: View, v1: View, v': View, why0: map<Task, BlkState>,
        why1: map<Task, BlkState>, why: map<Task, BlkState>, head0: Heads, next0: Links, head1: Heads, next1: Links,
        head: Heads, next: Links)
      requires i < |ms| && StaleSoFar(ms[..i], v, v1, why0, why1, head0, next0, head1, next1) && v' == Handed(v1, ms[i])
      requires ms[i] in v.waiters && GivenTo(v.waiters[ms[i]], ms[i], why1, why, head1, next1, head, next)
      ensures StaleSoFar(ms[..i + 1], v, v', why0, why, head0, next0, head, next)
    {
      hide Bestowed, AllHanded, Handed, LinksBut;
      assert ms[..i + 1] == ms[..i] + [ms[i]];
      AllPassedMore(v, ms[..i], ms[i]);
      BestowedNext(ms, i, v.waiters, why0, why1, why, head0, next0, head1, next1, head, next);
    }

    lemma StartWalk(t: Task, todo: seq<Obj>)
      requires Valid() && t in state && t in head && Chain(head[t], next, todo) && NoDup(todo)
      requires (forall m :: m in todo ==> m in next && m in waiters && m in objs) &&
        (Harmless(t) <==> forall m :: m in todo ==> !Busy(m))
      ensures Sound(now) && Scheduled() && Walk(head[t], todo, false, t, [], Harmless(t)) && HistoryOk(objs, sent, got)
    {
      hide V, Sound, Owned, Inherits, Linked, Chain, NoDup, Idle, HistoryOk, NestedOk, Harmless, Busy;
      IdleHere(t);
    }

    lemma WalkHead(m: Obj, todo: seq<Obj>, hurt: bool, x: Task, ms: seq<Obj>, harmless: bool)
      requires Walk(Some(m), todo, hurt, x, ms, harmless)
      ensures todo != [] && todo[0] == m && m !in todo[1..]
    {
      hide Idle, Scar, Chain, NoDup;
      ChainHead(m, todo);
    }

    lemma WalkEnd(todo: seq<Obj>, hurt: bool, x: Task, ms: seq<Obj>, harmless: bool)
      requires Walk(None, todo, hurt, x, ms, harmless)
      ensures todo == [] && if hurt then !harmless && Scar(state, objs, owner, head, next, x, ms)
        else Idle() && harmless
    {
      hide Idle, Scar, Chain, NoDup;
      ChainEnd(next, todo);
    }

    /** The walk along `todo`: no busy mutex was met so far, or the links of `x` lead through `ms` to what `x` does
        not own. */
    ghost predicate Walk(cur: Option<Obj>, todo: seq<Obj>, hurt: bool, x: Task, ms: seq<Obj>, harmless: bool)
      reads this, rq
    {
      && head.Keys == state.Keys && Chain(cur, next, todo) && NoDup(todo) &&
         (forall m :: m in todo ==> m in next && m in waiters && m in objs)
      && if hurt then !harmless && Scar(state, objs, owner, head, next, x, ms) && forall v :: v in todo ==>
         x !in waiters[v] && v !in ms
         else Idle() && (harmless <==> forall m :: m in todo ==> !Busy(m))
    }

    static ghost predicate OnlyQueue(m: Obj, waiters0: map<Obj, seq<Task>>, waiters: map<Obj, seq<Task>>) {
      waiters.Keys == waiters0.Keys && forall x :: x in waiters && x != m ==> waiters[x] == waiters0[x]
    }

    static lemma OneQueueChanged(m: Obj, waiters0: map<Obj, seq<Task>>, waiters: map<Obj, seq<Task>>)
      requires m in waiters0 && m in waiters && waiters == waiters0[m := waiters[m]]
      ensures OnlyQueue(m, waiters0, waiters)
    {
    }

    method StaleRound(m: Obj, ghost todo: seq<Obj>, ghost hurt: bool, ghost x: Task, ghost ms: seq<Obj>,
        ghost harmless: bool)
      returns (cur: Option<Obj>, ghost hurt': bool, ghost x': Task, ghost ms': seq<Obj>)
      requires Sound(now) && Walk(Some(m), todo, hurt, x, ms, harmless) && todo != []
      modifies this`state, this`waiters, this`tickHead, this`blkState, this`blkObj, this`owner, this`head, this`next, rq
      ensures Sound(now) && state.Keys == old(state.Keys) && Walk(cur, todo[1..], hurt', x', ms', harmless) &&
        (hurt ==> hurt')
      ensures !hurt' ==>
        (old(Scheduled()) ==> Scheduled()) &&
        Unmoved(old(V()), V(), old(blkState), old(head), old(next), blkState, head, next)
      ensures V() == Handed(old(V()), m) && m in old(waiters)
      ensures OnlyQueue(m, old(waiters), waiters)
      ensures GivenTo(old(waiters[m]), m, old(blkState), blkState, old(head), old(next), head, next)
    {
      hide V, Sound, Owned, Inherits, Linked, InUse, Chain, NoDup, Scar, Idle, Remove, Handed, GivenTo, Unmoved,
        OnlyQueue, Scheduled;
      ChainHead(m, todo);
      HeirHere(m);
      hurt', x', ms' := WalkOn(m, todo, hurt, x, ms, harmless);
      cur := next[m];
      NextFrame(m, todo);
      PassOn(m);
    }

    /** What the round will leave. */
    lemma WalkOn(m: Obj, todo: seq<Obj>, hurt: bool, x: Task, ms: seq<Obj>, harmless: bool)
        returns (hurt': bool, x': Task, ms': seq<Obj>)
      requires Sound(now) && Walk(Some(m), todo, hurt, x, ms, harmless) && todo != [] && m in waiters
      ensures hurt ==> hurt'
      ensures hurt' ==> !harmless && ScarAfter(m, x', ms')
      ensures hurt' ==> forall v :: v in todo[1..] ==> v in waiters && x' !in waiters[v] && v !in ms'
      ensures !hurt' ==> waiters[m] == [] && !Busy(m) && Idle()
      ensures !hurt' ==> (harmless <==> forall v :: v in todo[1..] ==> !InUse(objs, owner - {m}, waiters, v))
    {
      hide V, Sound, Owned, Inherits, Linked, InUse, Chain, NoDup, Scar, Idle;
      ChainHead(m, todo);
      HeirHere(m);
      hurt', x', ms' := hurt, x, ms;
      if hurt {
        StillScarred(m, x, ms);
      } else if Busy(m) {
        IdleParts();
        x', ms' := Wound(m, todo);
        hurt' := true;
      } else {
        RestInUse(objs, owner, waiters, m, todo);
        NotWaitedFor(m);
      }
    }

    /** The scar there will be once `m` has gone to its first waiter, or to nobody. */
    ghost predicate ScarAfter(m: Obj, x: Task, ms: seq<Obj>)
      requires m in waiters
      reads this`state, this`objs, this`owner, this`head, this`next, this`waiters
    {
      if waiters[m] == [] then Scar(state, objs, owner - {m}, head, next, x, ms)
      else
        var n := waiters[m][0];
        n in state && n in head &&
          Scar(state[n := Resumed(state[n])], objs, owner[m := n], head[n := Some(m)], next[m := head[n]], x, ms)
    }

    lemma NotWaitedFor(m: Obj)
      requires !Busy(m) && m in waiters
      ensures waiters[m] == []
    {
    }

    /** `krhino_task_del`. Deleting a task again gives away the mutexes that its links lead to by then: owners and
        mutex lists agree afterwards if and only if none of those is in use. */
    method TaskDel(t: Task) returns (r: Status)
      requires Valid() && t in state
      modifies this`state, this`suspendCount, this`waiters, this`tickHead, this`prio, this`mutexList, this`blkState,
        this`blkObj, this`owner, this`active,
               this`head, this`next, this`rank, this`clock, this`dead, rq
      ensures t in old(prio) && t in old(mutexList)
      ensures r == NotAllowed <==> old(prio[t]) == IDLE_PRI
      ensures r == SchedDisabled <==> old(prio[t] != IDLE_PRI && t == active && schedLock > 0)
      ensures r == InvTaskState <==> old(prio[t] != IDLE_PRI && state[t].Deleted?)
      ensures r in {NotAllowed, SchedDisabled} ==>
        V() == old(V()) && unchanged(this`active, this`blkState, this`head, this`next)
      ensures r == Success ==> TaskGone(old(V()), V(), old(active), t)
      ensures r == Success ==>
        Bestowed(old(mutexList[t]), old(waiters), old(blkState), blkState, old(head), old(next), head, next)
      ensures r !in {NotAllowed, SchedDisabled, InvTaskState} ==> r == Success
      ensures r == Success ==> t in state && state[t] == Deleted && OnlyWoken(old(state), state[t := old(state[t])])
      ensures r == Success ==> HeirsWoken(old(mutexList[t]), old(waiters), old(state), state[t := old(state[t])])
      ensures r == Success && old(state[t].Ready?) ==> prio == old(prio)
      ensures r == Success ==> Bequeathed(old(mutexList[t]), old(waiters), old(owner), owner)
      ensures r == Success && old(Unwanted(mutexList[t], waiters)) ==> head == old(head) && next == old(next)
      ensures r != InvTaskState || old(Harmless(t)) ==> Valid()
      ensures r == InvTaskState && old(Harmless(t)) ==>
        state == old(state) && waiters == old(waiters) && head == old(head) && next == old(next) &&
        V() == old(V()).(owner := owner) && blkState == old(blkState)
      ensures r == InvTaskState ==>
        StaleGiven(t, old(V()), V(), old(blkState), blkState, old(head), old(next), head, next)
      ensures r == InvTaskState && !old(Harmless(t)) ==>
        forall held :: !Ownership(state, objs, owner, held, waiters, head, next)
      ensures schedLock > 0 ==> active == old(active)
      ensures r == InvTaskState ==> active == old(active)
    {
      hide V, Sound, Linked, HistoryOk, NestedOk, Queued, Owned, Inherits, RunQueue.Valid, Bequeathed, OnlyWoken,
        HeirsWoken, Unwanted, Harmless, Ownership, TaskGone, Bestowed, StaleGiven;
      Here(t, now);
      if prio[t] == IDLE_PRI {
        return NotAllowed;
      }
      if t == active && schedLock > 0 {
        return SchedDisabled;
      }
      if state[t].Deleted? {
        FreeStale(t);
        return InvTaskState;
      }
      Delete(t);
      return Success;
    }

    // ----- Objects other than mutexes -----

    /** A new object takes a control block that is not in use. */
    method CreateObject(o: Obj, obj: Object)
      requires Valid() && (o in objs ==> objs[o].Gone? && o in waiters && waiters[o] == []) && !obj.Gone? &&
        (obj.BufQueue? ==> obj.msgs == [])
      requires !obj.Mutex? && o !in next
      modifies this`objs, this`waiters, this`owner, this`sent, this`got
      ensures Valid() && objs == old(objs)[o := obj] && waiters == old(waiters)[o := []] && owner == old(owner) - {o}
      ensures sent == old(sent)[o := []] && got == old(got)[o := []]
      ensures V() == old(V()).(objs := objs, waiters := waiters, owner := owner)
    {
      hide V, Sound, Owned, Inherits, RunQueue.Valid, LinksOk, StaleOk, NestedOk, HistoryOk, Scheduled;
      NewLinks(o, obj);
      NewRecords(objs, owner, nested, sent, got, o, obj);
      NoMessages(o);
      PutObject(o, obj);
    }

    static lemma NewRecords(objs: map<Obj, Object>, owner: map<Obj, Task>, nested: map<Obj, nat>,
        sent: map<Obj, seq<Message>>, got: map<Obj, seq<Message>>,
                            o: Obj, obj: Object)
      requires NestedOk(objs, owner, nested) && HistoryOk(objs, sent, got) && (obj.BufQueue? ==> obj.msgs == [])
      ensures NestedOk(objs[o := obj], owner - {o}, nested) && HistoryOk(objs[o := obj], sent[o := []], got[o := []])
    {
    }

    lemma NewLinks(o: Obj, obj: Object)
      requires Linked() && (o in objs ==> objs[o].Gone?) && !obj.Mutex? && o !in next
      ensures LinksOk(mutexList, head, next, dead, objs[o := obj], owner - {o}) &&
        StaleOk(objs[o := obj], owner - {o}, next, head, rank, clock)
    {
      hide LinksOk, StaleOk;
      AbsentIf(mutexList, head, next, dead, objs, owner, o);
      LinksAside(mutexList, head, next, next, dead, objs, owner, objs[o := obj], owner - {o}, o);
      StaleOther(objs, owner, objs[o := obj], owner - {o}, next, head, rank, clock, o);
    }

    ghost method NoMessages(o: Obj)
      modifies this`sent, this`got
      ensures sent == old(sent)[o := []] && got == old(got)[o := []]
    {
      sent, got := sent[o := []], got[o := []];
    }

    /** `mutex_create` */
    method MutexCreate(o: Obj)
      requires Valid() && (o in objs ==> objs[o].Gone? && o in waiters && waiters[o] == [])
      modifies this`objs, this`waiters, this`owner, this`next
      ensures Valid() && objs == old(objs)[o := Mutex] && waiters == old(waiters)[o := []] &&
        owner == old(owner) - {o} && next == old(next)[o := None]
      ensures V() == old(V()).(objs := objs, waiters := waiters, owner := owner)
    {
      hide V, Sound, Owned, Inherits, RunQueue.Valid, LinksOk, StaleOk, NestedOk, HistoryOk, Scheduled;
      NewMutexLinks(o);
      NewMutexRecords(objs, owner, nested, sent, got, o);
      NoLink(o);
      PutObject(o, Mutex);
    }

    method NoLink(o: Obj)
      modifies this`next
      ensures next == old(next)[o := None]
    {
      next := next[o := None];
    }

    static lemma NewMutexRecords(objs: map<Obj, Object>, owner: map<Obj, Task>, nested: map<Obj, nat>,
        sent: map<Obj, seq<Message>>, got: map<Obj, seq<Message>>,
                                 o: Obj)
      requires NestedOk(objs, owner, nested) && HistoryOk(objs, sent, got)
      ensures NestedOk(objs[o := Mutex], owner - {o}, nested) && HistoryOk(objs[o := Mutex], sent, got)
    {
    }

    lemma NewMutexLinks(o: Obj)
      requires Linked() && (o in objs ==> objs[o].Gone?)
      ensures LinksOk(mutexList, head, next[o := None], dead, objs[o := Mutex], owner - {o})
      ensures StaleOk(objs[o := Mutex], owner - {o}, next[o := None], head, rank, clock)
    {
      hide LinksOk, StaleOk;
      AbsentIf(mutexList, head, next, dead, objs, owner, o);
      LinksAside(mutexList, head, next, next[o := None], dead, objs, owner, objs[o := Mutex], owner - {o}, o);
      StaleNew(objs, owner, next, head, rank, clock, o);
    }

    method PutObject(o: Obj, obj: Object)
      requires Sound(now) && Owned(V()) && Inherits(V()) &&
        (o in objs ==> objs[o].Gone? && o in waiters && waiters[o] == [])
      modifies this`objs, this`waiters, this`owner
      ensures Sound(now) && Owned(V()) && Inherits(V())
      ensures objs == old(objs)[o := obj] && waiters == old(waiters)[o := []] && owner == old(owner) - {o}
      ensures V() == old(V()).(objs := objs, waiters := waiters, owner := owner)
    {
      hide Queued, Owned, Inherits, RunQueue.Valid;
      NewObjectKeeps(V(), o, obj, now);
      WriteObject(o, obj);
    }

    method WriteObject(o: Obj, obj: Object)
      modifies this`objs, this`waiters, this`owner
      ensures objs == old(objs)[o := obj] && waiters == old(waiters)[o := []] && owner == old(owner) - {o}
    {
      objs := objs[o := obj];
      waiters := waiters[o := []];
      owner := owner - {o};
    }

    lemma OtherHere(o: Obj, obj: Object)
      requires Linked() && o in objs && !obj.Mutex? && !objs[o].Mutex? && !objs[o].Gone?
      ensures LinksOk(mutexList, head, next, dead, objs[o := obj], owner) &&
        StaleOk(objs[o := obj], owner, next, head, rank, clock)
    {
      hide LinksOk, StaleOk;
      AbsentIf(mutexList, head, next, dead, objs, owner, o);
      LinksAside(mutexList, head, next, next, dead, objs, owner, objs[o := obj], owner, o);
      NotLinked(objs, owner, next, head, rank, clock, o);
      StaleOther(objs, owner, objs[o := obj], owner, next, head, rank, clock, o);
    }

    /** The value of an object changes, in a way that concerns none of its waiters. */
    method SetObject(o: Obj, obj: Object)
      requires Sound(now) && Owned(V()) && Inherits(V()) && Linked() && o in objs && o in waiters && !obj.Mutex? &&
        !objs[o].Mutex? && !objs[o].Gone?
      requires NothingFor(obj, waiters[o], pendFlags, pendAll)
      modifies this`objs
      ensures Sound(now) && Owned(V()) && Inherits(V()) && Linked() && objs == old(objs)[o := obj]
      ensures V() == old(V()).(objs := objs)
    {
      hide Queued, OwnOk, WaitFor, Base, PI.Fix, PI.Graph, RunQueue.Valid, NothingFor, LinksOk, StaleOk;
      OtherHere(o, obj);
      ObjectKeeps(V(), o, obj, now);
      OwnedObject(V(), o, obj);
      objs := objs[o := obj];
    }

    /** The value of an object changes after some of its waiters have gone on, and the most urgent task runs. */
    method SetAndSchedule(o: Obj, obj: Object)
      requires Sound(now) && Owned(V()) && Inherits(V()) && Linked() && NestedOk(objs, owner, nested) &&
        HistoryOk(objs, sent, got)
      requires active in state && state[active].Ready? && o in objs && o in waiters && obj.Event? && objs[o].Event?
      requires NothingFor(obj, waiters[o], pendFlags, pendAll)
      modifies this`objs, this`active
      ensures Valid() && objs == old(objs)[o := obj]
      ensures V() == old(V()).(objs := objs)
      ensures schedLock > 0 ==> active == old(active)
    {
      hide V, Sound, Owned, Inherits, Linked, NothingFor, RunQueue.Valid;
      SetObject(o, obj);
      CoreSched(now);
    }

    /** `krhino_sem_del`, `krhino_event_del`, `krhino_buf_queue_del` after their checks. */
    method DeleteObject(o: Obj)
      requires Valid() && o in objs && !objs[o].Mutex? && !objs[o].Gone? && o in waiters
      modifies this`objs, this`state, this`waiters, this`tickHead, this`blkState, this`blkObj, this`active, rq
      ensures Valid() && objs == old(objs)[o := Gone] && o in waiters && waiters[o] == []
      ensures ObjectGone(old(V()), V(), o)
      ensures WentOn(old(waiters[o]), old(state), state) && blkState == Told(old(blkState), old(waiters[o]), BlkDel)
      ensures schedLock > 0 ==> active == old(active)
    {
      hide Valid, Steady, V, AllWoken, WentOn, Told;
      ghost var v := V();
      ViewHere();
      ObjectsHere();
      VoidObject(o);
      Flush(o, BlkDel);
      assert ObjectGone(v, V(), o);
    }

    method VoidObject(o: Obj)
      requires Valid() && o in objs && !objs[o].Mutex? && !objs[o].Gone? && o in waiters
      modifies this`objs
      ensures Steady() && objs == old(objs)[o := Gone]
      ensures V() == old(V()).(objs := objs)
    {
      hide V, Sound, Linked, Owned, Inherits, RunQueue.Valid, HistoryOk, NestedOk;
      GoneRecords(objs, owner, nested, sent, got, o);
      SetObject(o, Gone);
    }

    /** `pend_to_blk_obj` on an object that is not a mutex, and the rescheduling that follows. */
    method BlockOn(o: Obj, ticks: nat)
      requires Valid() && schedLock == 0 && active != idle && o in objs && !objs[o].Mutex? && o in waiters &&
        TicksOk(ticks)
      requires NothingFor(objs[o], [active] + waiters[o], pendFlags, pendAll)
      modifies this`state, this`blkObj, this`waiters, this`tickHead, this`tickMatch, this`due, this`active, rq
      ensures Valid() && state == old(state)[old(active) := Pend] && blkObj == old(blkObj)[old(active) := o]
      ensures due == DueAfter(old(due), old(active), ticks, now) && (old(active) in tickHead <==> ticks != WAIT_FOREVER)
      ensures schedLock > 0 ==> active == old(active)
      ensures Entered(old(V()), V(), old(active), o, ticks)
    {
      hide Linked, HistoryOk, NestedOk, Queued, Owned, Inherits, RunQueue.Valid, NothingFor, Entered;
      Block(o, ticks);
      hide V, Sound;
      CoreSched(now);
    }

    method Block(o: Obj, ticks: nat)
      requires Sound(now) && Owned(V()) && Inherits(V()) && active in state && state[active].Ready? && active != idle
      requires o in objs && !objs[o].Mutex? && o in waiters && TicksOk(ticks) &&
        NothingFor(objs[o], [active] + waiters[o], pendFlags, pendAll)
      modifies this`state, this`blkObj, this`waiters, this`tickHead, this`tickMatch, this`due, rq
      ensures Sound(now) && Owned(V()) && Inherits(V()) && state == old(state)[active := Pend] &&
        blkObj == old(blkObj)[active := o]
      ensures due == DueAfter(old(due), active, ticks, now) && (active in tickHead <==> ticks != WAIT_FOREVER)
      ensures Entered(old(V()), V(), active, o, ticks)
    {
      hide Queued, OwnOk, WaitFor, Base, PI.Fix, PI.Graph, RunQueue.Valid, NothingFor, Enqueue, Entered;
      PendToBlkObj(active, o, ticks);
    }

    /** Nobody waits for what is there. */
    lemma NobodyWaits(o: Obj)
      requires Sound(now) && o in objs
      ensures o in waiters && NothingFor(objs[o], waiters[o], pendFlags, pendAll)
    {
      hide Queued, NothingFor;
      MutexFacts(V(), o, now);
      WaitersFacts(V(), now, o);
    }

    /** The running task records what it is about to wait for. */
    method Remember(want: Flags, all: bool, clear: bool)
      requires Valid()
      modifies this`pendFlags, this`pendAll, this`pendClear
      ensures Valid() && pendFlags == old(pendFlags)[active := want] && pendAll == old(pendAll)[active := all] &&
        pendClear == old(pendClear)[active := clear]
      ensures V() == old(V()).(pendFlags := pendFlags, pendAll := pendAll)
    {
      hide V, Sound, Owned, Inherits, NestedOk, HistoryOk, Linked, RunQueue.Valid;
      Record(active, want, all, clear);
    }

    method Record(t: Task, want: Flags, all: bool, clear: bool)
      requires Sound(now) && Owned(V()) && Inherits(V()) && t in state && state[t].Ready?
      modifies this`pendFlags, this`pendAll, this`pendClear
      ensures Sound(now) && Owned(V()) && Inherits(V())
      ensures pendFlags == old(pendFlags)[t := want] && pendAll == old(pendAll)[t := all] &&
        pendClear == old(pendClear)[t := clear]
      ensures V() == old(V()).(pendFlags := pendFlags, pendAll := pendAll)
    {
      hide Queued, OwnOk, WaitFor, Base, PI.Fix, PI.Graph, RunQueue.Valid;
      ghost var v := V();
      PendInfoKeeps(v, t, want, all, now);
      Want(t, want, all, clear);
      assert V() == v.(pendFlags := v.pendFlags[t := want], pendAll := v.pendAll[t := all]);
    }

    method Want(t: Task, want: Flags, all: bool, clear: bool)
      modifies this`pendFlags, this`pendAll, this`pendClear
      ensures pendFlags == old(pendFlags)[t := want] && pendAll == old(pendAll)[t := all] &&
        pendClear == old(pendClear)[t := clear]
    {
      pendFlags := pendFlags[t := want];
      pendAll := pendAll[t := all];
      pendClear := pendClear[t := clear];
    }
  }
}
