/** The kernel data as one value, and the moves of tasks between its queues. */
module KernelMoves {
  import opened KernelTypes
  import opened Lists
  import opened WaitLists
  import opened TickLists
  import opened KernelState
  import PI = PriorityInheritance

  // ----- The kernel data as one value -----

  datatype View = View(
    idle: Task,
    state: map<Task, TaskState>, prio: map<Task, nat>, bprio: map<Task, nat>, suspend: map<Task, nat>,
    held: map<Task, seq<Obj>>, blk: map<Task, Obj>, pendFlags: map<Task, Flags>, pendAll: map<Task, bool>,
    objs: map<Obj, Object>, waiters: map<Obj, seq<Task>>, owner: map<Obj, Task>,
    list: seq<seq<Task>>, tickHead: seq<Task>, tickMatch: map<Task, nat>, due: map<Task, nat>, now: nat,
    dead: set<Task>)

  /** Task states and queues agree; timeouts are due after `lo`. */
  ghost predicate Queued(v: View, lo: nat) {
    && TcbOk(v.state, v.prio, v.bprio, v.held, v.suspend, v.dead)
    && ReadyOk(v.state, v.prio, v.list)
    && WaitOk(v.state, v.blk, v.waiters)
    && SortedOk(v.waiters, v.prio)
    && TimedOk(v.state, v.tickHead)
    && TickList(v.tickHead, v.due, v.tickMatch, lo, v.now)
    && NoLostWakeup(v.objs, v.waiters, v.pendFlags, v.pendAll)
    && IdleOk(v)
  }

  ghost predicate IdleOk(v: View) {
    && v.idle in v.state && v.state[v.idle].Ready?
    && v.idle in v.prio && v.prio[v.idle] == IDLE_PRI
    && v.idle in v.held && v.held[v.idle] == []
  }

  ghost predicate Owned(v: View) {
    OwnOk(v.state, v.objs, v.owner, v.held, v.waiters)
  }

  ghost function Wf(v: View): map<Task, Task> {
    WaitFor(v.state, v.blk, v.objs, v.owner)
  }

  ghost function BaseOf(v: View): map<Task, nat> {
    Base(v.state, v.bprio)
  }

  /** Every live task runs at exactly the priority it inherits. */
  ghost predicate Inherits(v: View) {
    PI.Graph(v.prio, BaseOf(v), Wf(v)) && PI.Fix(v.prio, BaseOf(v), Wf(v))
  }

  ghost predicate Consistent(v: View, lo: nat) {
    Queued(v, lo) && Owned(v) && Inherits(v)
  }

  // ----- Facts about one task -----

  lemma LiveFacts(v: View, lo: nat, t: Task)
    requires Queued(v, lo) && t in v.state
    ensures t in v.prio && t in v.bprio && t in v.held && t in v.suspend
    ensures v.prio[t] < PRI_MAX && v.bprio[t] < PRI_MAX && |v.list| == PRI_MAX
    ensures IsSuspended(v.state[t]) ==> v.suspend[t] >= 1
    ensures v.state[t].Ready? <==> t in v.list[v.prio[t]]
    ensures v.idle in v.list[IDLE_PRI] && v.idle in v.state && v.state[v.idle].Ready?
    ensures NoDup(v.tickHead) && (t in v.tickHead ==> Sleeping(v.state[t]) || Pending(v.state[t]))
    ensures forall x :: x in v.tickHead ==> x in v.due
  {
    hide WaitOk, SortedOk, NoLostWakeup, NoDup, Sorted;
  }

  lemma ReadyFacts(v: View, lo: nat, t: Task)
    requires Queued(v, lo) && t in v.state && !Pending(v.state[t])
    ensures forall o :: o in v.waiters ==> t !in v.waiters[o]
  {
    hide TcbOk, ReadyOk, SortedOk, TimedOk, TickList, NoLostWakeup;
  }

  lemma PendFacts(v: View, lo: nat, t: Task)
    requires Queued(v, lo) && t in v.state && Pending(v.state[t])
    ensures PendingAt(v, t)
  {
    hide TcbOk, ReadyOk, TimedOk, TickList, NoDup, Sorted, NothingFor;
  }

  ghost predicate PendingAt(v: View, t: Task) {
    && t in v.blk && v.blk[t] in v.waiters && v.blk[t] in v.objs
    && t in v.waiters[v.blk[t]] && NoDup(v.waiters[v.blk[t]])
    && Sorted(v.waiters[v.blk[t]], v.prio)
    && forall o :: o in v.waiters && o != v.blk[t] ==> t !in v.waiters[o]
  }

  // ----- Moving one task -----

  lemma PrioAside(v: View, t: Task, p: nat, lo: nat)
    requires Queued(v, lo) && t in v.state && !v.state[t].Ready? && !Pending(v.state[t]) && p < PRI_MAX
    ensures Queued(v.(prio := v.prio[t := p]), lo)
  {
    hide TcbOk, ReadyOk, WaitOk, SortedOk, TimedOk, TickList, NoLostWakeup;
    LiveFacts(v, lo, t);
    ReadyFacts(v, lo, t);
    SortedAside(v.waiters, v.prio, t, p);
    ReadyAside(v.state, v.prio, v.list, t, v.state[t], p);
    assert v.state[t := v.state[t]] == v.state;
    TcbPrio(v.state, v.prio, v.bprio, v.held, v.suspend, v.dead, t, p);
  }

  lemma PrioReady(v: View, t: Task, p: nat, ring: seq<Task>, lo: nat)
    requires Queued(v, lo) && t in v.state && v.state[t].Ready? && t != v.idle
    requires p < PRI_MAX && p != v.prio[t] && (ring == v.list[p] + [t] || ring == [t] + v.list[p])
    ensures Queued(v.(prio := v.prio[t := p], list := v.list[v.prio[t] := Remove(v.list[v.prio[t]], t)][p := ring]), lo)
  {
    hide TcbOk, ReadyOk, WaitOk, SortedOk, TimedOk, TickList, NoLostWakeup;
    LiveFacts(v, lo, t);
    ReadyFacts(v, lo, t);
    SortedAside(v.waiters, v.prio, t, p);
    ReadyMoved(v.state, v.prio, v.list, t, p, ring);
    TcbPrio(v.state, v.prio, v.bprio, v.held, v.suspend, v.dead, t, p);
  }

  lemma PrioPending(v: View, t: Task, p: nat, q: seq<Task>, lo: nat)
    requires Queued(v, lo) && t in v.state && PendingAt(v, t) && Pending(v.state[t]) && p < PRI_MAX && t != v.idle
    requires Sorted(Remove(v.waiters[v.blk[t]], t), v.prio[t := p])
    requires q == Enqueue(Remove(v.waiters[v.blk[t]], t), t, v.prio[t := p])
    ensures Queued(v.(prio := v.prio[t := p], waiters := v.waiters[v.blk[t] := q]), lo)
    ensures forall x :: x in q <==> x in v.waiters[v.blk[t]]
  {
    hide TcbOk, ReadyOk, WaitOk, SortedOk, TimedOk, TickList, NoLostWakeup, OwnOk, Enqueue;
    var o := v.blk[t];
    var rest, prio' := Remove(v.waiters[o], t), v.prio[t := p];
    RemoveMembers(v.waiters[o], t);
    EnqueueMembers(rest, t, prio');
    var k := EnqueueSorted(rest, t, prio');
    SortedReordered(v.waiters, v.prio, prio', o, q, t);
    WaitReordered(v.state, v.blk, v.waiters, o, q);
    ReadyAside(v.state, v.prio, v.list, t, v.state[t], p);
    assert v.state[t := v.state[t]] == v.state;
    NoLostShrunk(v.objs, v.waiters, v.pendFlags, v.pendAll, o, q);
    TcbPrio(v.state, v.prio, v.bprio, v.held, v.suspend, v.dead, t, p);
  }

  lemma TcbPrio(state: map<Task, TaskState>, prio: map<Task, nat>, bprio: map<Task, nat>,
                held: map<Task, seq<Obj>>, suspend: map<Task, nat>, dead: set<Task>, t: Task, p: nat)
    requires TcbOk(state, prio, bprio, held, suspend, dead) && t in state && p < PRI_MAX
    ensures TcbOk(state, prio[t := p], bprio, held, suspend, dead)
  {
  }

  lemma TcbState(state: map<Task, TaskState>, prio: map<Task, nat>, bprio: map<Task, nat>,
                 held: map<Task, seq<Obj>>, suspend: map<Task, nat>, dead: set<Task>, t: Task, s: TaskState, n: nat)
    requires TcbOk(state, prio, bprio, held, suspend, dead) && t in state && Live(state[t]) &&
      (IsSuspended(s) ==> n >= 1)
    ensures TcbOk(state[t := s], prio, bprio, held, suspend[t := n], dead)
  {
  }

  /** A pending task leaves its wait list and the tick list. */
  ghost function LeaveWait(v: View, t: Task, s: TaskState): View
    requires PendingAt(v, t) && t in v.prio && v.prio[t] < |v.list|
  {
    v.(state := v.state[t := s],
       waiters := v.waiters[v.blk[t] := Remove(v.waiters[v.blk[t]], t)],
       tickHead := Remove(v.tickHead, t),
       list := if s.Ready? then v.list[v.prio[t] := v.list[v.prio[t]] + [t]] else v.list)
  }

  lemma LeaveWaitKeeps(v: View, t: Task, s: TaskState, lo: nat)
    requires Queued(v, lo) && t in v.state && Pending(v.state[t]) && PendingAt(v, t)
    requires s.Ready? || s.Deleted? || (s.Suspended? && v.state[t].PendSuspended?)
    requires t in v.prio && t in v.suspend && v.prio[t] < |v.list|
    ensures Queued(LeaveWait(v, t, s), lo)
  {
    hide TcbOk, ReadyOk, WaitOk, SortedOk, TimedOk, TickList, NoLostWakeup, OwnOk;
    LiveFacts(v, lo, t);
    var o := v.blk[t];
    var q := Remove(v.waiters[o], t);
    RemoveMembers(v.waiters[o], t);
    WaitLeft(v.state, v.blk, v.waiters, t, s);
    SortedLeft(v.waiters, v.prio, o, t);
    NoLostShrunk(v.objs, v.waiters, v.pendFlags, v.pendAll, o, q);
    RemovedTickList(v.tickHead, v.due, v.tickMatch, lo, v.now, t);
    TimedLeft(v.state, v.tickHead, t, s);
    TcbState(v.state, v.prio, v.bprio, v.held, v.suspend, v.dead, t, s, v.suspend[t]);
    assert v.suspend[t := v.suspend[t]] == v.suspend;
    ReadyAfter(v, t, s);
  }

  lemma TimedLeft(state: map<Task, TaskState>, head: seq<Task>, t: Task, s: TaskState)
    requires TimedOk(state, head) && NoDup(head) && !Sleeping(s)
    ensures TimedOk(state[t := s], Remove(head, t))
  {
    RemoveMembers(head, t);
  }

  lemma TimedSame(state: map<Task, TaskState>, head: seq<Task>, t: Task, s: TaskState)
    requires TimedOk(state, head) && t !in head && !Sleeping(s)
    ensures TimedOk(state[t := s], head)
  {
  }

  /** A task that was not ready goes on: to the end of its ring if it becomes ready. */
  lemma ReadyAfter(v: View, t: Task, s: TaskState)
    requires ReadyOk(v.state, v.prio, v.list) && t in v.state && !v.state[t].Ready? && t in v.prio &&
      v.prio[t] < PRI_MAX
    ensures ReadyOk(v.state[t := s], v.prio, if s.Ready? then v.list[v.prio[t] := v.list[v.prio[t]] + [t]] else v.list)
  {
    if s.Ready? {
      ReadyEntered(v.state, v.prio, v.list, t, v.list[v.prio[t]] + [t]);
    } else {
      ReadyAside(v.state, v.prio, v.list, t, s, v.prio[t]);
      assert v.prio[t := v.prio[t]] == v.prio;
    }
  }

  /** A sleeping task leaves the tick list. */
  ghost function LeaveSleep(v: View, t: Task, s: TaskState): View
    requires t in v.prio && v.prio[t] < |v.list|
  {
    v.(state := v.state[t := s],
       tickHead := Remove(v.tickHead, t),
       list := if s.Ready? then v.list[v.prio[t] := v.list[v.prio[t]] + [t]] else v.list)
  }

  lemma LeaveSleepKeeps(v: View, t: Task, s: TaskState, lo: nat)
    requires Queued(v, lo) && t in v.state && Sleeping(v.state[t])
    requires s.Ready? || s.Deleted? || (s.Suspended? && v.state[t].SleepSuspended?)
    requires t in v.prio && t in v.suspend && v.prio[t] < |v.list|
    ensures Queued(LeaveSleep(v, t, s), lo)
  {
    hide TcbOk, ReadyOk, WaitOk, SortedOk, TimedOk, TickList, NoLostWakeup, OwnOk;
    LiveFacts(v, lo, t);
    RemovedTickList(v.tickHead, v.due, v.tickMatch, lo, v.now, t);
    TimedLeft(v.state, v.tickHead, t, s);
    WaitAside(v.state, v.blk, v.blk, v.waiters, t, s);
    TcbState(v.state, v.prio, v.bprio, v.held, v.suspend, v.dead, t, s, v.suspend[t]);
    assert v.suspend[t := v.suspend[t]] == v.suspend;
    ReadyAfter(v, t, s);
  }

  /** The timeout part of a wait: on the tick list at the place given by its due time. */
  ghost function TimedView(v: View, t: Task, ticks: nat): View
    requires forall x :: x in v.tickHead ==> x in v.due
  {
    var due' := v.due[t := v.now + ticks];
    v.(due := due', tickMatch := v.tickMatch[t := Unsigned(v.now + ticks)], tickHead := Enqueue(v.tickHead, t, due'))
  }

  /** A ready task leaves its ring for the wait list of `o`. */
  ghost function EnterWait(v: View, t: Task, o: Obj): View
    requires t in v.prio && v.prio[t] < |v.list| && o in v.waiters && forall x :: x in v.waiters[o] ==> x in v.prio
  {
    v.(state := v.state[t := Pend], blk := v.blk[t := o],
       waiters := v.waiters[o := Enqueue(v.waiters[o], t, v.prio)],
       list := v.list[v.prio[t] := Remove(v.list[v.prio[t]], t)])
  }

  lemma WaitersFacts(v: View, lo: nat, o: Obj)
    requires Queued(v, lo) && o in v.waiters
    ensures Sorted(v.waiters[o], v.prio) && NoDup(v.waiters[o])
    ensures forall x :: x in v.waiters[o] ==>
      x in v.prio && x in v.state && Pending(v.state[x]) && x in v.blk && v.blk[x] == o
    ensures o in v.objs && NothingFor(v.objs[o], v.waiters[o], v.pendFlags, v.pendAll)
  {
    hide TcbOk, ReadyOk, TimedOk, TickList, NothingFor, NoDup;
  }

  lemma EnterWaitKeeps(v: View, t: Task, o: Obj, lo: nat)
    requires Queued(v, lo) && t in v.state && v.state[t].Ready? && t != v.idle && t !in v.tickHead
    requires t in v.prio && v.prio[t] < |v.list| && o in v.waiters && o in v.objs
    requires forall x :: x in v.waiters[o] ==> x in v.prio
    requires NothingFor(v.objs[o], [t] + v.waiters[o], v.pendFlags, v.pendAll)
    ensures Queued(EnterWait(v, t, o), lo)
  {
    hide TcbOk, ReadyOk, WaitOk, SortedOk, TimedOk, TickList, NoLostWakeup, OwnOk, Enqueue, NothingFor;
    LiveFacts(v, lo, t);
    ReadyFacts(v, lo, t);
    WaitersFacts(v, lo, o);
    var q := Enqueue(v.waiters[o], t, v.prio);
    EnqueueMembers(v.waiters[o], t, v.prio);
    var k := EnqueueSorted(v.waiters[o], t, v.prio);
    ReadyLeft(v.state, v.prio, v.list, t, Pend);
    WaitEntered(v.state, v.blk, v.waiters, t, o, q);
    SortedReordered(v.waiters, v.prio, v.prio, o, q, t);
    TimedSame(v.state, v.tickHead, t, Pend);
    TcbState(v.state, v.prio, v.bprio, v.held, v.suspend, v.dead, t, Pend, v.suspend[t]);
    assert v.suspend[t := v.suspend[t]] == v.suspend;
    NothingForFewer(v.objs[o], [t] + v.waiters[o], q, v.pendFlags, v.pendAll);
    NoLostOther(v.objs, v.waiters, v.pendFlags, v.pendAll, o, v.objs[o], q);
    assert v.objs[o := v.objs[o]] == v.objs;
  }

  lemma EnterWaitEdges(v: View, t: Task, o: Obj)
    requires t in v.state && v.state[t].Ready?
    requires t in v.prio && v.prio[t] < |v.list| && o in v.waiters && o in v.objs
    requires forall x :: x in v.waiters[o] ==> x in v.prio
    ensures Wf(EnterWait(v, t, o)) == if v.objs[o].Mutex? && o in v.owner then Wf(v)[t := v.owner[o]] else Wf(v)
  {
  }

  lemma NoLostOther(objs: map<Obj, Object>, waiters: map<Obj, seq<Task>>, pendFlags: map<Task, Flags>,
      pendAll: map<Task, bool>,
                    o: Obj, obj: Object, q: seq<Task>)
    requires NoLostWakeup(objs, waiters, pendFlags, pendAll) && o in waiters && NothingFor(obj, q, pendFlags, pendAll)
    ensures NoLostWakeup(objs[o := obj], waiters[o := q], pendFlags, pendAll)
  {
  }

  lemma OwnQueued(state: map<Task, TaskState>, objs: map<Obj, Object>, owner: map<Obj, Task>, held: map<Task, seq<Obj>>,
                  waiters: map<Obj, seq<Task>>, o: Obj, q: seq<Task>, t: Task)
    requires OwnOk(state, objs, owner, held, waiters) && o in waiters && o in objs
    requires forall x :: x in q <==> x in waiters[o] || x == t
    requires objs[o].Mutex? ==> o in owner && owner[o] != t
    ensures OwnOk(state, objs, owner, held, waiters[o := q])
  {
    if objs[o].Mutex? && waiters[o] == [] {
      assert owner[o] !in waiters[o];
    }
  }

  /** Setting the timeout of a task that is already waiting for an object. */
  lemma TimedKeeps(v: View, t: Task, ticks: nat)
    requires Queued(v, v.now) && t in v.state && Pending(v.state[t]) && t !in v.tickHead && 0 < ticks < TICK_RANGE
    requires forall x :: x in v.tickHead ==> x in v.due
    ensures Queued(TimedView(v, t, ticks), v.now)
  {
    hide TcbOk, ReadyOk, WaitOk, SortedOk, TickList, NoLostWakeup, Enqueue, Unsigned;
    InsertedTickList(v.tickHead, v.due, v.tickMatch, v.now, t, ticks);
  }

  /** A ready task goes to sleep. */
  ghost function EnterSleep(v: View, t: Task, ticks: nat): View
    requires t in v.prio && v.prio[t] < |v.list| && forall x :: x in v.tickHead ==> x in v.due
  {
    TimedView(v, t, ticks).(state := v.state[t := Sleep], list := v.list[v.prio[t] := Remove(v.list[v.prio[t]], t)])
  }

  lemma EnterSleepKeeps(v: View, t: Task, ticks: nat)
    requires Queued(v, v.now) && t in v.state && v.state[t].Ready? && t != v.idle && t !in v.tickHead &&
      0 < ticks < TICK_RANGE
    requires t in v.prio && v.prio[t] < |v.list| && forall x :: x in v.tickHead ==> x in v.due
    ensures Queued(EnterSleep(v, t, ticks), v.now)
  {
    hide TcbOk, ReadyOk, WaitOk, SortedOk, TickList, NoLostWakeup, OwnOk, Enqueue, Unsigned;
    LiveFacts(v, v.now, t);
    InsertedTickList(v.tickHead, v.due, v.tickMatch, v.now, t, ticks);
    ReadyLeft(v.state, v.prio, v.list, t, Sleep);
    WaitAside(v.state, v.blk, v.blk, v.waiters, t, Sleep);
    TcbState(v.state, v.prio, v.bprio, v.held, v.suspend, v.dead, t, Sleep, v.suspend[t]);
    assert v.suspend[t := v.suspend[t]] == v.suspend;
  }

  /** A ready task leaves its ring without waiting for anything. */
  ghost function Park(v: View, t: Task, s: TaskState, n: nat): View
    requires t in v.prio && v.prio[t] < |v.list|
  {
    v.(state := v.state[t := s], suspend := v.suspend[t := n],
      list := v.list[v.prio[t] := Remove(v.list[v.prio[t]], t)])
  }

  lemma ParkKeeps(v: View, t: Task, s: TaskState, n: nat, lo: nat)
    requires Queued(v, lo) && t in v.state && v.state[t].Ready? && t != v.idle && t !in v.tickHead
    requires (s.Suspended? && n >= 1) || s.Deleted?
    requires t in v.prio && v.prio[t] < |v.list|
    ensures Queued(Park(v, t, s, n), lo)
  {
    hide TcbOk, ReadyOk, WaitOk, SortedOk, TimedOk, TickList, NoLostWakeup, OwnOk;
    LiveFacts(v, lo, t);
    ReadyLeft(v.state, v.prio, v.list, t, s);
    WaitAside(v.state, v.blk, v.blk, v.waiters, t, s);
    TimedSame(v.state, v.tickHead, t, s);
    TcbState(v.state, v.prio, v.bprio, v.held, v.suspend, v.dead, t, s, n);
  }

  /** A suspended task that waits for nothing changes state. */
  ghost function Unpark(v: View, t: Task, s: TaskState, n: nat): View
    requires t in v.prio && v.prio[t] < |v.list|
  {
    v.(state := v.state[t := s], suspend := v.suspend[t := n],
       list := if s.Ready? then v.list[v.prio[t] := v.list[v.prio[t]] + [t]] else v.list)
  }

  lemma UnparkKeeps(v: View, t: Task, s: TaskState, n: nat, lo: nat)
    requires Queued(v, lo) && t in v.state && v.state[t].Suspended? && t !in v.tickHead
    requires s.Ready? || s.Deleted? || (s.Suspended? && n >= 1)
    requires t in v.prio && v.prio[t] < |v.list|
    ensures Queued(Unpark(v, t, s, n), lo)
  {
    hide TcbOk, ReadyOk, WaitOk, SortedOk, TimedOk, TickList, NoLostWakeup, OwnOk;
    LiveFacts(v, lo, t);
    ReadyAfter(v, t, s);
    WaitAside(v.state, v.blk, v.blk, v.waiters, t, s);
    TimedSame(v.state, v.tickHead, t, s);
    TcbState(v.state, v.prio, v.bprio, v.held, v.suspend, v.dead, t, s, n);
  }

  /** Suspending or resuming a task that sleeps or waits leaves it where it is. */
  ghost predicate SameKind(a: TaskState, b: TaskState) {
    (Sleeping(a) && Sleeping(b)) || (Pending(a) && Pending(b)) || a == b
  }

  lemma ReadySame(v: View, t: Task, s: TaskState)
    requires ReadyOk(v.state, v.prio, v.list) && t in v.state && SameKind(v.state[t], s)
    ensures ReadyOk(v.state[t := s], v.prio, v.list)
  {
    if s == v.state[t] {
      assert v.state[t := s] == v.state;
    }
  }

  lemma RelabelKeeps(v: View, t: Task, s: TaskState, n: nat, lo: nat)
    requires Queued(v, lo) && t in v.state && Live(v.state[t]) && SameKind(v.state[t], s) && (IsSuspended(s) ==> n >= 1)
    ensures Queued(v.(state := v.state[t := s], suspend := v.suspend[t := n]), lo)
  {
    hide TcbOk, ReadyOk, WaitOk, SortedOk, TickList, NoLostWakeup, OwnOk;
    LiveFacts(v, lo, t);
    ReadySame(v, t, s);
    WaitAside(v.state, v.blk, v.blk, v.waiters, t, s);
    TcbState(v.state, v.prio, v.bprio, v.held, v.suspend, v.dead, t, s, n);
  }

  // ----- Objects -----

  lemma ObjectKeeps(v: View, o: Obj, obj: Object, lo: nat)
    requires Queued(v, lo) && o in v.objs && o in v.waiters && NothingFor(obj, v.waiters[o], v.pendFlags, v.pendAll)
    requires !obj.Mutex? && !v.objs[o].Mutex?
    ensures Queued(v.(objs := v.objs[o := obj]), lo)
  {
    hide TcbOk, ReadyOk, WaitOk, SortedOk, TimedOk, TickList, NothingFor;
    NoLostOther(v.objs, v.waiters, v.pendFlags, v.pendAll, o, obj, v.waiters[o]);
    assert v.waiters[o := v.waiters[o]] == v.waiters;
    hide NoLostWakeup;
  }

  /** What a task that waits for nothing recorded about events does not matter. */
  lemma PendInfoKeeps(v: View, t: Task, want: Flags, all: bool, lo: nat)
    requires Queued(v, lo) && t in v.state && v.state[t].Ready?
    ensures Queued(v.(pendFlags := v.pendFlags[t := want], pendAll := v.pendAll[t := all]), lo)
  {
    hide TcbOk, ReadyOk, WaitOk, SortedOk, TimedOk, TickList;
    ReadyFacts(v, lo, t);
  }

  // ----- Ownership and edges after a move -----

  /** The owner relation survives when a task stays live and a wait list loses tasks or changes order. */
  lemma OwnedKeeps(v: View, v': View, t: Task, o: Obj)
    requires Owned(v) && t in v.state && Live(v.state[t]) && t in v'.state && Live(v'.state[t])
    requires v'.state == v.state[t := v'.state[t]] && v'.objs == v.objs && v'.owner == v.owner && v'.held == v.held
    requires o in v.waiters && o in v'.waiters && v'.waiters == v.waiters[o := v'.waiters[o]]
    requires forall x :: x in v'.waiters[o] ==> x in v.waiters[o]
    ensures Owned(v')
  {
    hide OwnOk;
    OwnStateChanged(v.state, v.objs, v.owner, v.held, v.waiters, t, v'.state[t]);
    OwnShrunk(v'.state, v.objs, v.owner, v.held, v.waiters, o, v'.waiters[o]);
  }

  lemma OwnedSame(v: View, v': View, t: Task)
    requires Owned(v) && t in v.state && Live(v.state[t]) && t in v'.state && Live(v'.state[t])
    requires v'.state == v.state[t := v'.state[t]] && v'.objs == v.objs && v'.owner == v.owner && v'.held == v.held
    requires v'.waiters == v.waiters
    ensures Owned(v')
  {
    hide OwnOk;
    OwnStateChanged(v.state, v.objs, v.owner, v.held, v.waiters, t, v'.state[t]);
  }

  /** A task comes to wait for a mutex of another task, or for something that is not a mutex. */
  lemma OwnedEntered(v: View, v': View, t: Task, o: Obj)
    requires Owned(v) && t in v.state && Live(v.state[t])
    requires v'.state == v.state[t := Pend] && v'.objs == v.objs && v'.owner == v.owner && v'.held == v.held
    requires o in v.objs && o in v.waiters && o in v'.waiters && v'.waiters == v.waiters[o := v'.waiters[o]]
    requires forall x :: x in v'.waiters[o] <==> x in v.waiters[o] || x == t
    requires v.objs[o].Mutex? ==> o in v.owner && v.owner[o] != t
    ensures Owned(v')
  {
    hide OwnOk;
    OwnStateChanged(v.state, v.objs, v.owner, v.held, v.waiters, t, Pend);
    OwnQueued(v'.state, v.objs, v.owner, v.held, v.waiters, o, v'.waiters[o], t);
  }

  lemma OwnedObject(v: View, o: Obj, obj: Object)
    requires Owned(v) && o in v.objs && !obj.Mutex? && !v.objs[o].Mutex?
    ensures Owned(v.(objs := v.objs[o := obj]))
    ensures Wf(v.(objs := v.objs[o := obj])) == Wf(v)
  {
  }

  lemma SameEdges(v: View, v': View, t: Task)
    requires t in v.state && t in v'.state && v'.state == v.state[t := v'.state[t]]
    requires Pending(v'.state[t]) <==> Pending(v.state[t])
    requires v'.blk == v.blk && v'.objs == v.objs && v'.owner == v.owner
    ensures Wf(v') == Wf(v)
  {
  }

  lemma LessEdges(v: View, v': View, t: Task)
    requires t in v.state && t in v'.state && v'.state == v.state[t := v'.state[t]] && !Pending(v'.state[t])
    requires v'.blk == v.blk && v'.objs == v.objs && v'.owner == v.owner
    ensures Wf(v') == Wf(v) - {t}
  {
  }

  // ----- Priorities after a move -----

  /** Only the idle task exists. */
  ghost predicate Started(v: View) {
    && v.state == map[v.idle := Ready] && v.prio == v.bprio == map[v.idle := IDLE_PRI]
    && v.suspend == map[v.idle := 0] && v.held == map[v.idle := []] && v.dead == {}
    && v.blk == map[] && v.objs == map[] && v.waiters == map[] && v.tickHead == []
    && |v.list| == PRI_MAX && v.list[IDLE_PRI] == [v.idle] && forall p :: 0 <= p < IDLE_PRI ==> v.list[p] == []
  }

  lemma StartedQueues(v: View)
    requires Started(v)
    ensures Queued(v, v.now)
  {
    StartedLists(v);
    hide ReadyOk, WaitOk, SortedOk, TickList, NoLostWakeup, TimedOk;
  }

  lemma StartedLists(v: View)
    requires Started(v)
    ensures ReadyOk(v.state, v.prio, v.list) && WaitOk(v.state, v.blk, v.waiters) && SortedOk(v.waiters, v.prio)
    ensures TimedOk(v.state, v.tickHead) && TickList(v.tickHead, v.due, v.tickMatch, v.now, v.now)
    ensures NoLostWakeup(v.objs, v.waiters, v.pendFlags, v.pendAll)
  {
  }

  lemma StartedPriorities(v: View)
    requires Started(v)
    ensures Owned(v) && Inherits(v)
  {
    assert Wf(v) == map[];
    assert BaseOf(v) == map[v.idle := IDLE_PRI];
  }

  // ----- Owners -----

  /** A task pending on a mutex has an edge to a live owner; any other task has none. */
  lemma EdgeFacts(v: View, lo: nat, t: Task)
    requires Queued(v, lo) && Owned(v) && t in v.state
    ensures t in Wf(v) <==> Pending(v.state[t]) && t in v.blk && v.blk[t] in v.objs && v.objs[v.blk[t]].Mutex?
    ensures t in Wf(v) ==> v.blk[t] in v.owner && Wf(v)[t] == v.owner[v.blk[t]] && LiveOwner(v, Wf(v)[t])
  {
    hide TcbOk, ReadyOk, SortedOk, TimedOk, TickList, NoLostWakeup, LiveOwner;
    if Pending(v.state[t]) && t in v.blk && v.blk[t] in v.objs && v.objs[v.blk[t]].Mutex? {
      var m := v.blk[t];
      assert t in v.waiters[m];
      OwnerIsLive(v, m);
    }
  }

  lemma OwnerIsLive(v: View, m: Obj)
    requires Owned(v) && IdleOk(v) && m in v.objs && v.objs[m].Mutex? && m in v.owner
    ensures LiveOwner(v, v.owner[m])
  {
    assert HasOwner(m, v.state, v.owner, v.held);
  }

  ghost predicate LiveOwner(v: View, o: Task) {
    && o in v.state && Live(v.state[o]) && o != v.idle
    && o in v.held && NoDup(v.held[o]) && (forall m :: m in v.held[o] ==> m in v.waiters)
  }

  /** What the scan over the first waiters of its mutexes finds is what a task inherits. */
  lemma LookIsMin(v: View, lo: nat, o: Task, q: nat)
    requires Queued(v, lo) && Owned(v) && LiveOwner(v, o) && o in v.bprio
    requires LeastOfHeads(q, v.bprio[o], v.held[o], v.waiters, v.prio)
    ensures Wf(v).Keys <= v.prio.Keys && o in BaseOf(v)
    ensures PI.IsMin(q, BaseOf(v)[o], o, Wf(v), v.prio)
  {
    hide Queued, OwnOk, WaitFor, LeastOfHeads, PI.IsMin;
    HeldEdges(v, lo, o);
    SortedFacts(v, lo);
    LeastOfHeadsIsMin(o, q, v.bprio[o], v.held[o], v.waiters, v.prio, Wf(v));
  }

  lemma HeldEdges(v: View, lo: nat, o: Task)
    requires Queued(v, lo) && Owned(v) && LiveOwner(v, o)
    ensures Wf(v).Keys <= v.prio.Keys
    ensures forall u, m :: m in v.held[o] && m in v.waiters && u in v.waiters[m] ==> u in Wf(v) && Wf(v)[u] == o
    ensures forall u :: u in Wf(v) && Wf(v)[u] == o ==>
      exists m :: m in v.held[o] && m in v.waiters && u in v.waiters[m]
  {
    hide TcbOk, ReadyOk, WaitOk, SortedOk, TimedOk, TickList, NoLostWakeup, OwnOk, WaitFor;
    EdgeKeys(v, lo);
    WaitersOfHeld(o, v.state, v.blk, v.objs, v.owner, v.held, v.waiters);
  }

  lemma EdgeKeys(v: View, lo: nat)
    requires Queued(v, lo)
    ensures Wf(v).Keys <= v.prio.Keys
  {
    hide ReadyOk, WaitOk, SortedOk, TimedOk, TickList, NoLostWakeup;
  }

  // ----- What a change of priority may touch -----

  /** Some tasks rose to `p`; nothing else changed. */
  ghost predicate OnlyRaised(was: map<Task, nat>, prio: map<Task, nat>, p: nat) {
    prio.Keys == was.Keys && forall u :: u in was ==> prio[u] == was[u] || (was[u] > p && prio[u] == p)
  }

  /** Some tasks that had priority `p` lost it to a less urgent one; nothing else changed. */
  ghost predicate OnlyLowered(was: map<Task, nat>, prio: map<Task, nat>, p: nat) {
    prio.Keys == was.Keys && forall u :: u in was ==> prio[u] == was[u] || (was[u] == p && prio[u] > p)
  }

  lemma NothingMoved(prio: map<Task, nat>, p: nat, q: nat)
    ensures OnlyRaised(prio, prio, p) && OnlyLowered(prio, prio, q) && AllMoved([], prio, p, q)
  {
  }

  lemma RaisedMore(was: map<Task, nat>, prio: map<Task, nat>, t: Task, p: nat)
    requires OnlyRaised(was, prio, p) && t in prio && prio[t] > p
    ensures OnlyRaised(was, prio[t := p], p)
  {
  }

  lemma LoweredMore(was: map<Task, nat>, prio: map<Task, nat>, t: Task, q: nat, p: nat)
    requires OnlyLowered(was, prio, p) && t in prio && prio[t] == p < q
    ensures OnlyLowered(was, prio[t := q], p)
  {
  }

  /** The tasks a walk along the owners may still move. */
  ghost function ToMove(prio: map<Task, nat>, newPri: nat, oldPri: nat): set<Task> {
    set u | u in prio && if newPri < oldPri then prio[u] > newPri else prio[u] == oldPri
  }

  lemma Shrinks(prio: map<Task, nat>, t: Task, p: nat, newPri: nat, oldPri: nat)
    requires t in prio && (if newPri < oldPri then p == newPri < prio[t] else prio[t] == oldPri < p)
    ensures ToMove(prio[t := p], newPri, oldPri) < ToMove(prio, newPri, oldPri)
  {
    assert t in ToMove(prio, newPri, oldPri) && t !in ToMove(prio[t := p], newPri, oldPri);
  }

  /** None of `ts` can be moved by the walk any more. */
  ghost predicate AllMoved(ts: seq<Task>, prio: map<Task, nat>, newPri: nat, oldPri: nat) {
    forall u :: u in ts ==> u !in ToMove(prio, newPri, oldPri)
  }

  lemma AllMovedMore(ts: seq<Task>, prio: map<Task, nat>, newPri: nat, oldPri: nat, t: Task, p: nat)
    requires AllMoved(ts, prio, newPri, oldPri)
    requires t in prio && (if newPri < oldPri then p == newPri < prio[t] else prio[t] == oldPri < p)
    ensures AllMoved(ts + [t], prio[t := p], newPri, oldPri) && t !in ts
  {
    assert t in ToMove(prio, newPri, oldPri);
    Shrinks(prio, t, p, newPri, oldPri);
  }

  ghost predicate SameQueues(was: map<Obj, seq<Task>>, waiters: map<Obj, seq<Task>>) {
    waiters.Keys == was.Keys && forall o, x :: o in was ==> (x in waiters[o] <==> x in was[o])
  }

  /** `t` is the one task out of place, and `p` is where it belongs. */
  ghost predicate OutOfPlace(v: View, t: Task, p: nat, base: map<Task, nat>, wf: map<Task, Task>) {
    && PI.Graph(v.prio, base, wf) && t in base && base.Keys == BaseOf(v).Keys && t in v.prio
    && p < PRI_MAX && (forall u :: u in base ==> base[u] < PRI_MAX)
    && PI.FixExcept(t, v.prio, base, wf) && PI.IsMin(p, base[t], t, wf, v.prio)
    && t in v.state && Live(v.state[t]) && t != v.idle
    && ((v.state[t].Ready? && t !in wf) || (Owned(v) && wf == Wf(v)))
    && (p > v.prio[t] ==> base == BaseOf(v))
  }

  // ----- After a task has left a wait list -----

  /** `x` no longer waits: only the owner of the mutex it waited for can be out of place, and only if it ran at
      the priority of `x`. */
  ghost predicate LeftBehind(v: View, x: Task) {
    && PI.Graph(v.prio, BaseOf(v), Wf(v)) && x in v.prio
    && if x in v.blk && v.blk[x] in v.objs && v.objs[v.blk[x]].Mutex? then
         && v.blk[x] in v.owner && LiveOwner(v, v.owner[v.blk[x]]) && v.owner[v.blk[x]] in BaseOf(v)
         && PI.FixExcept(v.owner[v.blk[x]], v.prio, BaseOf(v), Wf(v))
         && (v.prio[v.owner[v.blk[x]]] != v.prio[x] ==> PI.Fix(v.prio, BaseOf(v), Wf(v)))
       else
         PI.Fix(v.prio, BaseOf(v), Wf(v))
  }

  lemma BaseSame(v: View, v': View, t: Task)
    requires t in v.state && t in v'.state && Live(v.state[t]) && Live(v'.state[t])
    requires v'.state == v.state[t := v'.state[t]] && v'.bprio == v.bprio
    ensures BaseOf(v') == BaseOf(v)
  {
  }

  /** Every live task would run at the priority it has if `x` did not wait. */
  ghost predicate Spare(v: View, x: Task) {
    PI.Graph(v.prio, BaseOf(v), Wf(v) - {x}) && PI.Fix(v.prio, BaseOf(v), Wf(v) - {x})
  }

  lemma SpareLeaves(v: View, v': View, x: Task)
    requires x in v.state && x in v'.state && Live(v.state[x]) && Live(v'.state[x]) && !Pending(v'.state[x])
    requires v'.state == v.state[x := v'.state[x]] && v'.bprio == v.bprio && v'.prio == v.prio
    requires v'.blk == v.blk && v'.objs == v.objs && v'.owner == v.owner
    ensures Spare(v, x) ==> Inherits(v')
  {
    hide WaitFor, Base, PI.Fix, PI.Graph;
    LessEdges(v, v', x);
    BaseSame(v, v', x);
  }

  lemma LeaveWaitPriorities(v: View, x: Task, s: TaskState, lo: nat)
    requires Queued(v, lo) && Owned(v) && Inherits(v) && x in v.state && Pending(v.state[x]) && PendingAt(v, x)
    requires Live(s) && !Pending(s) && x in v.prio && v.prio[x] < |v.list|
    ensures LeftBehind(LeaveWait(v, x, s), x)
  {
    hide Queued, OwnOk, WaitFor, Base, PI.Fix, PI.FixExcept;
    var v' := LeaveWait(v, x, s);
    EdgeFacts(v, lo, x);
    LessEdges(v, v', x);
    BaseSame(v, v', x);
    if x in Wf(v) {
      PI.DropEdge(x, v.prio, BaseOf(v), Wf(v));
    } else {
      assert Wf(v) - {x} == Wf(v);
    }
    RemoveMembers(v.waiters[v.blk[x]], x);
  }

  lemma LeaveWaitOwned(v: View, x: Task, s: TaskState)
    requires Owned(v) && x in v.state && Live(v.state[x]) && PendingAt(v, x) && Live(s) && x in v.prio &&
      v.prio[x] < |v.list|
    ensures Owned(LeaveWait(v, x, s))
  {
    hide OwnOk;
    RemoveMembers(v.waiters[v.blk[x]], x);
    OwnedKeeps(v, LeaveWait(v, x, s), x, v.blk[x]);
  }

  /** `blk_obj = NULL` */
  lemma ClearBlkKeeps(v: View, t: Task, lo: nat)
    requires Queued(v, lo) && t in v.state && !Pending(v.state[t])
    ensures Queued(v.(blk := v.blk - {t}), lo)
    ensures Wf(v.(blk := v.blk - {t})) == Wf(v)
  {
    hide TcbOk, ReadyOk, SortedOk, TimedOk, TickList, NoLostWakeup;
    WaitAside(v.state, v.blk, v.blk - {t}, v.waiters, t, v.state[t]);
    assert v.state[t := v.state[t]] == v.state;
  }

  // ----- Lending -----

  lemma LendKeeps(v: View, x: Task, o: Task, lo: nat)
    requires Queued(v, lo) && Owned(v) && Inherits(v) && LiveOwner(v, o) && x in v.state && Live(v.state[x])
    requires o in v.prio && x in v.prio && v.prio[x] < v.prio[o]
    ensures o in BaseOf(v) && x in BaseOf(v) && v.prio[x] <= BaseOf(v)[o]
    ensures PI.Graph(v.prio, BaseOf(v)[o := v.prio[x]], Wf(v))
    ensures OutOfPlace(v, o, v.prio[x], BaseOf(v)[o := v.prio[x]], Wf(v))
  {
    hide ReadyOk, WaitOk, SortedOk, TimedOk, TickList, NoLostWakeup, OwnOk, WaitFor, PI.Fix, PI.FixExcept, PI.IsMin;
    PI.Lend(o, v.prio[x], v.prio, BaseOf(v), Wf(v));
  }

  lemma BaseBounded(v: View, lo: nat)
    requires Queued(v, lo)
    ensures forall u :: u in BaseOf(v) ==> BaseOf(v)[u] < PRI_MAX
  {
    hide ReadyOk, WaitOk, SortedOk, TimedOk, TickList, NoLostWakeup;
  }

  lemma HeadIsReady(v: View, lo: nat, p: nat)
    requires Queued(v, lo) && p < |v.list| && v.list[p] != []
    ensures v.list[p][0] in v.state && v.state[v.list[p][0]].Ready?
  {
    hide TcbOk, WaitOk, SortedOk, TimedOk, TickList, NoLostWakeup;
    assert v.list[p][0] in v.list[p];
  }

  lemma TickFacts(v: View, t: Task, ticks: nat)
    requires Queued(v, v.now) && t !in v.tickHead && 0 < ticks < TICK_RANGE
    ensures var due', match' := v.due[t := v.now + ticks], v.tickMatch[t := Unsigned(v.now + ticks)];
            TickList(v.tickHead, due', match', v.now, v.now)
  {
    hide TcbOk, ReadyOk, WaitOk, SortedOk, TimedOk, NoLostWakeup, Unsigned, NoDup;
    SortedAgrees(v.tickHead, v.due, v.due[t := v.now + ticks]);
  }

  // ----- Mutexes -----

  /** A free mutex is taken. */
  ghost function TakeMutex(v: View, m: Obj, t: Task): View
    requires t in v.held
  {
    v.(owner := v.owner[m := t], held := v.held[t := [m] + v.held[t]])
  }

  lemma TakeMutexKeeps(v: View, m: Obj, t: Task, lo: nat)
    requires Queued(v, lo) && Owned(v) && m in v.objs && v.objs[m].Mutex? && m !in v.owner
    requires t in v.state && Live(v.state[t]) && t != v.idle && t in v.held
    ensures Queued(TakeMutex(v, m, t), lo)
    ensures Owned(TakeMutex(v, m, t))
    ensures Wf(TakeMutex(v, m, t)) == Wf(v)
  {
    hide TcbOk, ReadyOk, WaitOk, SortedOk, TimedOk, TickList, NoLostWakeup, OwnOk, WaitFor;
    TcbHeld(v, t, [m] + v.held[t], lo);
    TakeMutexOwned(v, m, t);
    TakeMutexEdges(v, m, t, lo);
  }

  lemma TakeMutexEdges(v: View, m: Obj, t: Task, lo: nat)
    requires Queued(v, lo) && Owned(v) && m in v.objs && v.objs[m].Mutex? && m !in v.owner && t in v.held
    ensures Wf(TakeMutex(v, m, t)) == Wf(v)
  {
    hide TcbOk, ReadyOk, WaitOk, SortedOk, TimedOk, TickList, NoLostWakeup;
    assert v.waiters[m] == [];
    FreeMutexEdges(v, m, lo);
  }

  lemma FreeMutexEdges(v: View, m: Obj, lo: nat)
    requires Queued(v, lo) && m in v.waiters && v.waiters[m] == []
    ensures forall u :: u in v.state && Pending(v.state[u]) ==> u in v.blk && v.blk[u] != m
  {
    hide TcbOk, ReadyOk, SortedOk, TimedOk, TickList, NoLostWakeup;
  }

  lemma TcbHeld(v: View, t: Task, ms: seq<Obj>, lo: nat)
    requires Queued(v, lo) && t in v.state && t != v.idle
    ensures Queued(v.(held := v.held[t := ms]), lo)
  {
    hide ReadyOk, SortedOk, TimedOk, TickList, NoLostWakeup, WaitOk;
  }

  lemma TakeMutexOwned(v: View, m: Obj, t: Task)
    requires Owned(v) && m in v.objs && v.objs[m].Mutex? && m !in v.owner
    requires t in v.state && Live(v.state[t]) && t in v.held
    ensures Owned(TakeMutex(v, m, t))
  {
    var v' := TakeMutex(v, m, t);
    assert m !in v.held[t];
    NoDupAppend(v.held[t], m);
    forall m' | m' in v'.objs && v'.objs[m'].Mutex? && m' in v'.owner
      ensures HasOwner(m', v'.state, v'.owner, v'.held)
    {
      if m' != m {
        assert HasOwner(m', v.state, v.owner, v.held);
      }
    }
  }

  /** The edges that remain when the queue of `m` is not counted. */
  ghost function WfLess(v: View, m: Obj): map<Task, Task> {
    WaitFor(v.state, v.blk, v.objs[m := Gone], v.owner)
  }

  /** Without `m` its owner inherits the least of what its other mutexes bring. */
  lemma OwnerWithout(v: View, m: Obj, t: Task, p: nat, lo: nat)
    requires Queued(v, lo) && Owned(v) && Inherits(v) && m in v.objs && v.objs[m].Mutex? && m in v.owner &&
      v.owner[m] == t
    requires LiveOwner(v, t) && t in v.bprio && LeastOfHeads(p, v.bprio[t], Remove(v.held[t], m), v.waiters, v.prio)
    ensures PI.Graph(v.prio, BaseOf(v), WfLess(v, m)) && t in BaseOf(v) &&
      PI.FixExcept(t, v.prio, BaseOf(v), WfLess(v, m))
    ensures PI.IsMin(p, BaseOf(v)[t], t, WfLess(v, m), v.prio)
  {
    hide Queued, OwnOk, WaitFor, LeastOfHeads, PI.IsMin, PI.Fix, PI.FixExcept;
    var wf := WfLess(v, m);
    WfLessEdges(v, m);
    PI.DropEdges(t, v.prio, BaseOf(v), Wf(v), wf);
    WaitersOfHeldLess(v, m, t, lo);
    SortedFacts(v, lo);
    LeastOfHeadsIsMin(t, p, v.bprio[t], Remove(v.held[t], m), v.waiters, v.prio, wf);
  }

  lemma WfLessEdges(v: View, m: Obj)
    requires m in v.objs && v.objs[m].Mutex? && m in v.owner
    ensures forall u :: u in WfLess(v, m) ==> u in Wf(v) && WfLess(v, m)[u] == Wf(v)[u]
    ensures forall u :: u in Wf(v) && u !in WfLess(v, m) ==> v.blk[u] == m && Wf(v)[u] == v.owner[m]
  {
  }

  lemma SortedFacts(v: View, lo: nat)
    requires Queued(v, lo)
    ensures SortedOk(v.waiters, v.prio)
  {
  }

  lemma WaitersOfHeldLess(v: View, m: Obj, t: Task, lo: nat)
    requires Queued(v, lo) && Owned(v) && m in v.objs && v.objs[m].Mutex? && m in v.owner && v.owner[m] == t &&
      LiveOwner(v, t)
    ensures forall u, m' :: m' in Remove(v.held[t], m) && m' in v.waiters && u in v.waiters[m'] ==>
      u in WfLess(v, m) && WfLess(v, m)[u] == t
    ensures forall u :: u in WfLess(v, m) && WfLess(v, m)[u] == t ==>
              exists m' :: m' in Remove(v.held[t], m) && m' in v.waiters && u in v.waiters[m']
  {
    hide TcbOk, ReadyOk, SortedOk, TimedOk, TickList, NoLostWakeup, NoDup, Remove;
    RemoveMembers(v.held[t], m);
    forall u | u in WfLess(v, m) && WfLess(v, m)[u] == t
      ensures exists m' :: m' in Remove(v.held[t], m) && m' in v.waiters && u in v.waiters[m']
    {
      var m' := v.blk[u];
      assert m' != m && u in v.waiters[m'];
      assert HasOwner(m', v.state, v.owner, v.held);
      assert m' in Remove(v.held[t], m);
    }
  }

  /** The data as if `m` were free and nobody waited for it. */
  ghost function Detached(v: View, m: Obj): View {
    v.(owner := v.owner - {m}, waiters := v.waiters[m := []])
  }

  /** An owner takes `m` off its list. */
  ghost function Unlinked(v: View, m: Obj, t: Task): View
    requires t in v.held
  {
    v.(held := v.held[t := Remove(v.held[t], m)])
  }

  lemma DetachOwned(v: View, m: Obj, t: Task)
    requires Owned(v) && m in v.objs && v.objs[m].Mutex? && m in v.owner && v.owner[m] == t && t in v.held
    ensures Owned(Detached(Unlinked(v, m, t), m))
  {
    var v' := Detached(Unlinked(v, m, t), m);
    assert HasOwner(m, v.state, v.owner, v.held);
    hide Remove;
    RemoveMembers(v.held[t], m);
    forall m' | m' in v'.objs && v'.objs[m'].Mutex? && m' in v'.owner
      ensures HasOwner(m', v'.state, v'.owner, v'.held)
    {
      assert HasOwner(m', v.state, v.owner, v.held);
    }
  }

  lemma UnlockFreeEdges(v: View, m: Obj, lo: nat)
    requires Queued(v, lo) && m in v.waiters && v.waiters[m] == []
    ensures WfLess(v, m) == Wf(v)
  {
    hide Queued;
    FreeMutexEdges(v, m, lo);
  }

  /** Then the owner keeps its priority: nothing it inherited came from this mutex. */
  lemma UnlockFreePriority(v: View, m: Obj, t: Task, p: nat, lo: nat)
    requires Queued(v, lo) && Owned(v) && Inherits(v) && m in v.objs && v.objs[m].Mutex? && m in v.owner &&
      v.owner[m] == t
    requires LiveOwner(v, t) && t in v.bprio && LeastOfHeads(p, v.bprio[t], Remove(v.held[t], m), v.waiters, v.prio)
    requires m in v.waiters && v.waiters[m] == []
    ensures t in v.prio && p == v.prio[t]
  {
    hide Queued, OwnOk, WaitFor, LeastOfHeads, PI.IsMin;
    OwnerWithout(v, m, t, p, lo);
    UnlockFreeEdges(v, m, lo);
    assert PI.FixAt(t, v.prio, BaseOf(v), Wf(v));
    PI.IsMinUnique(p, v.prio[t], BaseOf(v)[t], t, Wf(v), v.prio);
  }

  /** The mutex `m`, given up by its owner, goes to `n`, which has just left its queue. */
  ghost function PassMutex(v: View, m: Obj, n: Task): View
    requires n in v.held
  {
    v.(owner := v.owner[m := n], held := v.held[n := [m] + v.held[n]])
  }

  lemma PassMutexOwned(v: View, m: Obj, n: Task)
    requires Owned(Detached(v, m)) && m in v.objs && v.objs[m].Mutex? && m in v.waiters && n !in v.waiters[m]
    requires n in v.state && Live(v.state[n]) && n in v.held
    ensures Owned(PassMutex(v, m, n))
  {
    var d := Detached(v, m);
    hide OwnOk;
    TakeMutexOwned(d, m, n);
    var d' := TakeMutex(d, m, n);
    assert d'.owner == v.owner[m := n];
    OwnRequeue(d'.state, d'.objs, d'.owner, d'.held, d'.waiters, m, v.waiters[m]);
    assert d'.waiters[m := v.waiters[m]] == v.waiters;
  }

  lemma OwnRequeue(state: map<Task, TaskState>, objs: map<Obj, Object>, owner: map<Obj, Task>,
      held: map<Task, seq<Obj>>,
                   waiters: map<Obj, seq<Task>>, m: Obj, q: seq<Task>)
    requires OwnOk(state, objs, owner, held, waiters) && m in waiters && m in owner && owner[m] !in q
    ensures OwnOk(state, objs, owner, held, waiters[m := q])
  {
  }

  /** The rest of the queue now waits for `n`. */
  lemma PassMutexEdges(v: View, m: Obj, n: Task, lo: nat)
    requires Queued(v, lo) && m in v.objs && v.objs[m].Mutex? && m in v.waiters && n in v.held && n in v.state &&
      !Pending(v.state[n])
    ensures var wf, wf', rest := WfLess(v, m), Wf(PassMutex(v, m, n)), (set u | u in v.waiters[m]);
            && rest !! wf.Keys && wf'.Keys == wf.Keys + rest
            && (forall u :: u in wf ==> wf'[u] == wf[u])
            && (forall u :: u in rest ==> wf'[u] == n)
  {
    hide Queued;
    QueueIsPending(v, m, lo);
    var wf, wf', rest := WfLess(v, m), Wf(PassMutex(v, m, n)), (set u | u in v.waiters[m]);
    forall u
      ensures (u in wf' <==> u in wf || u in rest) && !(u in wf && u in rest)
    {
      assert u in rest <==> u in v.waiters[m];
    }
  }

  lemma QueueIsPending(v: View, m: Obj, lo: nat)
    requires Queued(v, lo) && m in v.waiters
    ensures forall u :: u in v.waiters[m] <==> u in v.state && Pending(v.state[u]) && u in v.blk && v.blk[u] == m
  {
    hide TcbOk, ReadyOk, SortedOk, TimedOk, TickList, NoLostWakeup, NoDup;
  }

  lemma PassMutexPriorities(v: View, m: Obj, n: Task, lo: nat)
    requires n in v.held && Queued(v, lo) && Owned(PassMutex(v, m, n)) && m in v.objs && v.objs[m].Mutex? &&
      m in v.waiters
    requires n in v.state && Live(v.state[n]) && !Pending(v.state[n]) && n != v.idle && n in v.prio
    requires PI.Graph(v.prio, BaseOf(v), WfLess(v, m)) && PI.Fix(v.prio, BaseOf(v), WfLess(v, m))
    requires forall u :: u in v.waiters[m] ==> u in v.prio && v.prio[n] <= v.prio[u]
    ensures Queued(PassMutex(v, m, n), lo)
    ensures Inherits(PassMutex(v, m, n))
  {
    hide TcbOk, ReadyOk, WaitOk, SortedOk, TimedOk, TickList, NoLostWakeup, OwnOk, WaitFor, Base, PI.Fix, PI.Graph;
    var v' := PassMutex(v, m, n);
    TcbHeld(v, n, [m] + v.held[n], lo);
    PassMutexEdges(v, m, n, lo);
    GraphFacts(v', lo);
    PI.Grant(n, (set u | u in v.waiters[m]), v.prio, BaseOf(v), WfLess(v, m), Wf(v'));
  }

  lemma GraphFacts(v: View, lo: nat)
    requires Queued(v, lo) && Owned(v)
    ensures PI.Graph(v.prio, BaseOf(v), Wf(v))
  {
    hide ReadyOk, SortedOk, TimedOk, TickList, NoLostWakeup, PI.Graph;
    WaitForIsGraph(v.state, v.prio, v.bprio, v.blk, v.objs, v.owner, v.held, v.waiters);
  }

  // ----- Deleting a mutex -----

  lemma GoneKeeps(v: View, m: Obj, t: Task, lo: nat)
    requires Queued(v, lo) && Owned(v) && m in v.objs && v.objs[m].Mutex? && m in v.owner && v.owner[m] == t &&
      t in v.held
    requires t in v.state && t != v.idle
    ensures Queued(Unlinked(v, m, t).(objs := v.objs[m := Gone]), lo)
    ensures Owned(Unlinked(v, m, t).(objs := v.objs[m := Gone]))
    ensures Wf(Unlinked(v, m, t).(objs := v.objs[m := Gone])) == WfLess(v, m)
  {
    hide TcbOk, ReadyOk, WaitOk, SortedOk, TimedOk, TickList, NoLostWakeup, OwnOk, Remove;
    TcbHeld(v, t, Remove(v.held[t], m), lo);
    GoneOwned(v, m, t);
    GoneNoLost(v, m, lo);
  }

  lemma GoneNoLost(v: View, m: Obj, lo: nat)
    requires Queued(v, lo) && m in v.objs
    ensures NoLostWakeup(v.objs[m := Gone], v.waiters, v.pendFlags, v.pendAll)
  {
    hide TcbOk, ReadyOk, WaitOk, SortedOk, TimedOk, TickList;
  }

  lemma GoneOwned(v: View, m: Obj, t: Task)
    requires Owned(v) && m in v.objs && v.objs[m].Mutex? && m in v.owner && v.owner[m] == t && t in v.held
    ensures Owned(Unlinked(v, m, t).(objs := v.objs[m := Gone]))
  {
    var v' := Unlinked(v, m, t).(objs := v.objs[m := Gone]);
    assert HasOwner(m, v.state, v.owner, v.held);
    hide Remove;
    RemoveMembers(v.held[t], m);
    forall m' | m' in v'.objs && v'.objs[m'].Mutex? && m' in v'.owner
      ensures HasOwner(m', v'.state, v'.owner, v'.held)
    {
      assert HasOwner(m', v.state, v.owner, v.held);
    }
  }

  ghost predicate NestedOk(objs: map<Obj, Object>, owner: map<Obj, Task>, nested: map<Obj, nat>) {
    forall m :: m in objs && objs[m].Mutex? && m in owner ==> m in nested && 1 <= nested[m] <= NESTED_MAX
  }

  /** A buffer queue has delivered what it accepted, in order, except for what it still holds. */
  ghost predicate HistoryOk(objs: map<Obj, Object>, sent: map<Obj, seq<Message>>, got: map<Obj, seq<Message>>) {
    forall o :: o in objs && objs[o].BufQueue? ==> o in sent && o in got && sent[o] == got[o] + objs[o].msgs
  }

  lemma EnterWaitOwned(v: View, t: Task, o: Obj, lo: nat)
    requires Queued(v, lo) && Owned(v) && t in v.state && v.state[t].Ready? && o in v.objs && o in v.waiters
    requires t in v.prio && v.prio[t] < |v.list| && forall x :: x in v.waiters[o] ==> x in v.prio
    requires v.objs[o].Mutex? ==> o in v.owner && v.owner[o] != t
    ensures Owned(EnterWait(v, t, o))
  {
    hide Queued, OwnOk, Enqueue, NothingFor;
    ReadyFacts(v, lo, t);
    WaitersFacts(v, lo, o);
    EnqueueMembers(v.waiters[o], t, v.prio);
    OwnedEntered(v, EnterWait(v, t, o), t, o);
  }

  /** Fields that ownership, edges and base priorities do not look at. */
  ghost predicate SameGraph(v: View, v': View) {
    && v'.state == v.state && v'.blk == v.blk && v'.objs == v.objs && v'.owner == v.owner
    && v'.held == v.held && v'.waiters == v.waiters && v'.prio == v.prio && v'.bprio == v.bprio
  }

  lemma TimedMembers(v: View, t: Task, ticks: nat)
    requires t !in v.tickHead && NoDup(v.tickHead) && forall x :: x in v.tickHead ==> x in v.due
    ensures t in TimedView(v, t, ticks).tickHead && t in TimedView(v, t, ticks).due &&
      TimedView(v, t, ticks).due[t] == v.now + ticks
  {
    EnqueueMembers(v.tickHead, t, v.due[t := v.now + ticks]);
  }

  lemma OwnerFacts(v: View, m: Obj, lo: nat)
    requires Queued(v, lo) && Owned(v) && m in v.objs && v.objs[m].Mutex? && m in v.owner
    ensures LiveOwner(v, v.owner[m]) && v.owner[m] in v.prio && v.owner[m] in BaseOf(v) && m in v.waiters &&
      m in v.held[v.owner[m]]
  {
    hide ReadyOk, SortedOk, TimedOk, TickList, NoLostWakeup, WaitOk, NoDup;
    assert HasOwner(m, v.state, v.owner, v.held);
  }

  /** `o` runs at the priority of `x` as if that were its base priority. */
  ghost predicate Lent(v: View, x: Task, o: Task) {
    && PI.Graph(v.prio, BaseOf(v), Wf(v)) && x in BaseOf(v) && o in BaseOf(v) && o != x && x in v.prio
    && v.prio[x] <= BaseOf(v)[o]
    && PI.Graph(v.prio, BaseOf(v)[o := v.prio[x]], Wf(v)) && PI.Fix(v.prio, BaseOf(v)[o := v.prio[x]], Wf(v))
  }

  /** `x` is about to wait for the mutex `m` of `o`. */
  ghost predicate Contender(v: View, x: Task, m: Obj, o: Task) {
    && x in v.state && v.state[x].Ready? && x != v.idle && x in v.prio && x !in Wf(v) && x in BaseOf(v)
    && m in v.objs && v.objs[m].Mutex? && m in v.waiters && m in v.owner && v.owner[m] == o && o != x
    && LiveOwner(v, o) && o in v.prio && o in BaseOf(v)
  }

  lemma ContenderFacts(v: View, x: Task, m: Obj, lo: nat)
    requires Queued(v, lo) && Owned(v) && m in v.objs && v.objs[m].Mutex? && m in v.owner && v.owner[m] != x
    requires x in v.state && v.state[x].Ready? && x != v.idle
    ensures Contender(v, x, m, v.owner[m])
  {
    hide Queued, OwnOk, WaitFor, LiveOwner;
    LiveFacts(v, lo, x);
    OwnerFacts(v, m, lo);
    EdgeFacts(v, lo, x);
  }

  /** The owner has given up `m`, and every priority is right without the queue of `m`. */
  ghost predicate Released(v: View, m: Obj) {
    && m in v.objs && v.objs[m].Mutex? && m in v.waiters && Owned(Detached(v, m))
    && PI.Graph(v.prio, BaseOf(v), WfLess(v, m)) && PI.Fix(v.prio, BaseOf(v), WfLess(v, m))
  }

  /** The owner of `m` has taken it off its list; `p` is the priority it should have. */
  lemma ReleaseOutOfPlace(v: View, m: Obj, t: Task, p: nat, lo: nat)
    requires Queued(v, lo) && Owned(v) && Inherits(v) && m in v.objs && v.objs[m].Mutex? && m in v.owner &&
      v.owner[m] == t
    requires t in v.held && t in v.bprio && LeastOfHeads(p, v.bprio[t], Remove(v.held[t], m), v.waiters, v.prio)
    requires t in v.state && v.state[t].Ready?
    ensures Queued(Unlinked(v, m, t), lo) && Owned(Detached(Unlinked(v, m, t), m)) && m in v.waiters
    ensures OutOfPlace(Unlinked(v, m, t), t, p, BaseOf(v), WfLess(v, m))
  {
    hide TcbOk, ReadyOk, WaitOk, SortedOk, TimedOk, TickList, NoLostWakeup, OwnOk, WaitFor, LeastOfHeads, PI.IsMin,
      PI.Fix, PI.FixExcept, Remove, NoDup;
    OwnerFacts(v, m, lo);
    OwnerWithout(v, m, t, p, lo);
    TcbHeld(v, t, Remove(v.held[t], m), lo);
    DetachOwned(v, m, t);
    BaseBounded(v, lo);
    PI.MinBelowBase(p, t, v.prio, BaseOf(v), WfLess(v, m));
    WfLessEdges(v, m);
    EdgeFacts(v, lo, t);
  }

  /** Nobody waits for the mutex: it becomes free. */
  lemma FreedKeeps(v: View, m: Obj, lo: nat)
    requires Queued(v, lo) && Released(v, m) && v.waiters[m] == []
    ensures Queued(v.(owner := v.owner - {m}), lo) && Owned(v.(owner := v.owner - {m})) &&
      Inherits(v.(owner := v.owner - {m}))
  {
    hide TcbOk, ReadyOk, WaitOk, SortedOk, TimedOk, TickList, NoLostWakeup, OwnOk, PI.Fix;
    assert v.waiters[m := []] == v.waiters;
    FreedEdges(v, m, lo);
    hide WaitFor;
  }

  lemma FreedEdges(v: View, m: Obj, lo: nat)
    requires Queued(v, lo) && m in v.waiters && v.waiters[m] == []
    ensures Wf(v.(owner := v.owner - {m})) == WfLess(v, m)
  {
    hide Queued;
    FreeMutexEdges(v, m, lo);
  }

  /** The first waiter has left the queue of a released mutex. */
  ghost function FirstLeft(v: View, n: Task, s: TaskState): View
    requires PendingAt(v, n) && n in v.prio && v.prio[n] < |v.list|
  {
    LeaveWait(v, n, s).(blk := v.blk - {n})
  }

  lemma FirstLeftKeeps(v: View, m: Obj, n: Task, s: TaskState, lo: nat)
    requires Queued(v, lo) && Released(v, m) && v.waiters[m] != [] && n == v.waiters[m][0]
    requires n in v.state && Pending(v.state[n]) && PendingAt(v, n) && n in v.prio && v.prio[n] < |v.list|
    requires s.Ready? || (s.Suspended? && v.state[n].PendSuspended?)
    ensures Queued(FirstLeft(v, n, s), lo) && Released(FirstLeft(v, n, s), m)
    ensures FirstInLine(FirstLeft(v, n, s), m, n)
  {
    hide Queued, OwnOk, WaitFor, Base, PI.Fix, Remove, NoDup;
    var v' := FirstLeft(v, n, s);
    WaitersFacts(v, lo, m);
    LiveFacts(v, lo, n);
    assert n in v.waiters[m];
    LeaveWaitKeeps(v, n, s, lo);
    ClearBlkKeeps(LeaveWait(v, n, s), n, lo);
    OwnedSame(Detached(v, m), Detached(v', m), n);
    FirstLeftEdges(v, m, n, s);
    BaseSame(v, v', n);
    HeadIsLeast(v.waiters[m], v.prio);
    RemoveMembers(v.waiters[m], n);
  }

  lemma FirstLeftEdges(v: View, m: Obj, n: Task, s: TaskState)
    requires PendingAt(v, n) && n in v.prio && v.prio[n] < |v.list| && v.blk[n] == m && n in v.state && !Pending(s) &&
      m in v.objs
    ensures WfLess(FirstLeft(v, n, s), m) == WfLess(v, m)
  {
    hide Remove, NoDup, Sorted;
  }

  /** `n` has left the queue of `m` and is at least as urgent as everybody still in it. */
  ghost predicate FirstInLine(v: View, m: Obj, n: Task) {
    && m in v.waiters && n in v.state && Live(v.state[n]) && !Pending(v.state[n]) && n != v.idle && n in v.prio &&
       n in v.held
    && n !in v.waiters[m] && forall u :: u in v.waiters[m] ==> u in v.prio && v.prio[n] <= v.prio[u]
  }

  /** The mutex is gone; its owner may have to lose priority. */
  lemma DeletedOutOfPlace(v: View, m: Obj, t: Task, p: nat, lo: nat)
    requires Queued(v, lo) && Owned(v) && Inherits(v) && m in v.objs && v.objs[m].Mutex? && m in v.owner &&
      v.owner[m] == t
    requires t in v.held && t in v.bprio && LeastOfHeads(p, v.bprio[t], Remove(v.held[t], m), v.waiters, v.prio)
    ensures var v' := Unlinked(v, m, t).(objs := v.objs[m := Gone]);
            Queued(v', lo) && Owned(v') && OutOfPlace(v', t, p, BaseOf(v'), Wf(v'))
  {
    hide Queued, OwnOk, WaitFor, LeastOfHeads, PI.IsMin, PI.Fix, PI.FixExcept, Remove, NoDup;
    OwnerFacts(v, m, lo);
    OwnerWithout(v, m, t, p, lo);
    GoneKeeps(v, m, t, lo);
    BaseBounded(v, lo);
    PI.MinBelowBase(p, t, v.prio, BaseOf(v), WfLess(v, m));
  }

  lemma GoneFreeKeeps(v: View, m: Obj, lo: nat)
    requires Queued(v, lo) && Owned(v) && m in v.objs && v.objs[m].Mutex? && m !in v.owner
    ensures Queued(v.(objs := v.objs[m := Gone]), lo) && Owned(v.(objs := v.objs[m := Gone]))
    ensures Wf(v.(objs := v.objs[m := Gone])) == Wf(v)
  {
    hide TcbOk, ReadyOk, WaitOk, SortedOk, TimedOk, TickList, NoLostWakeup;
    GoneNoLost(v, m, lo);
  }

  lemma MutexFacts(v: View, m: Obj, lo: nat)
    requires Queued(v, lo) && m in v.objs
    ensures m in v.waiters
  {
    hide TcbOk, ReadyOk, WaitOk, SortedOk, TimedOk, TickList, NothingFor;
  }

  /** A live task moves without a change to what it waits for: owners, edges and priorities stand. */
  lemma SettledAside(v: View, v': View, t: Task)
    requires Owned(v) && Inherits(v) && t in v.state && Live(v.state[t]) && t in v'.state && Live(v'.state[t])
    requires v'.state == v.state[t := v'.state[t]] && (Pending(v'.state[t]) <==> Pending(v.state[t]))
    requires v'.objs == v.objs && v'.owner == v.owner && v'.held == v.held && v'.waiters == v.waiters && v'.blk == v.blk
    requires v'.prio == v.prio && v'.bprio == v.bprio
    ensures Owned(v') && Inherits(v')
  {
    hide OwnOk, WaitFor, Base, PI.Fix, PI.Graph;
    OwnedSame(v, v', t);
    SameEdges(v, v', t);
    BaseSame(v, v', t);
  }

  lemma RotateKeeps(v: View, p: nat, lo: nat)
    requires Queued(v, lo) && p < |v.list|
    ensures Queued(v.(list := v.list[p := Rotate(v.list[p])]), lo)
  {
    hide TcbOk, WaitOk, SortedOk, TimedOk, TickList, NoLostWakeup, Rotate;
    RotateMembers(v.list[p]);
  }

  lemma HeldFacts(v: View, t: Task, lo: nat)
    requires Queued(v, lo) && Owned(v) && t in v.state && Live(v.state[t]) && t != v.idle
    ensures LiveOwner(v, t)
    ensures forall m :: m in v.held[t] ==> m in v.waiters && (v.waiters[m] != [] ==> v.waiters[m][0] in v.prio)
  {
    hide ReadyOk, TimedOk, TickList, NoLostWakeup, WaitOk, NoDup;
  }

  /** A new base priority puts at most the task itself out of place. */
  lemma RebaseOutOfPlace(v: View, t: Task, pri: nat, limit: nat, lo: nat)
    requires Queued(v, lo) && Owned(v) && Inherits(v) && LiveOwner(v, t) && t in v.bprio && pri < PRI_MAX && t in v.prio
    requires LeastOfHeads(limit, pri, v.held[t], v.waiters, v.prio)
    ensures var v' := v.(bprio := v.bprio[t := pri]);
            Queued(v', lo) && Owned(v') && OutOfPlace(v', t, limit, BaseOf(v'), Wf(v'))
  {
    hide ReadyOk, WaitOk, SortedOk, TimedOk, TickList, NoLostWakeup, OwnOk, WaitFor, LeastOfHeads, PI.IsMin, PI.Fix,
      PI.FixExcept;
    var v' := v.(bprio := v.bprio[t := pri]);
    assert BaseOf(v') == BaseOf(v)[t := pri];
    PI.Rebase(t, pri, v.prio, BaseOf(v), Wf(v));
    LookIsMin(v', lo, t, limit);
    BaseBounded(v', lo);
    PI.MinBelowBase(limit, t, v.prio, BaseOf(v'), Wf(v));
  }

  /** If the head is not due, nothing is: the list is sorted. */
  lemma NothingDue(v: View, lo: nat)
    requires Queued(v, lo) && (v.tickHead != [] ==> v.tickHead[0] in v.due && v.due[v.tickHead[0]] > v.now)
    ensures Queued(v, v.now) && forall t :: t in v.tickHead ==> t in v.due && v.due[t] > v.now
  {
    hide TcbOk, ReadyOk, WaitOk, SortedOk, NoLostWakeup, TimedOk, NoDup, Unsigned;
    if v.tickHead != [] {
      HeadIsLeast(v.tickHead, v.due);
    }
  }

  // ----- Creating and deleting tasks -----

  ghost function Create(v: View, t: Task, pri: nat): View {
    v.(state := v.state[t := Suspended], prio := v.prio[t := pri], bprio := v.bprio[t := pri],
       suspend := v.suspend[t := 1], held := v.held[t := []], blk := v.blk - {t}, dead := v.dead - {t})
  }

  lemma CreateKeeps(v: View, t: Task, pri: nat, lo: nat)
    requires Queued(v, lo) && Owned(v) && Inherits(v) && (t in v.state ==> v.state[t].Deleted?) && pri < PRI_MAX
    ensures Queued(Create(v, t, pri), lo) && Owned(Create(v, t, pri)) && Inherits(Create(v, t, pri))
  {
    hide Queued, OwnOk, WaitFor, PI.Fix;
    CreateQueued(v, t, pri, lo);
    CreateOwned(v, t, pri);
    CreateEdges(v, t, pri);
    GraphFacts(Create(v, t, pri), lo);
    assert BaseOf(Create(v, t, pri)) == BaseOf(v)[t := pri];
    PI.NewTask(t, pri, v.prio, BaseOf(v), Wf(v));
  }

  lemma CreateQueued(v: View, t: Task, pri: nat, lo: nat)
    requires Queued(v, lo) && (t in v.state ==> v.state[t].Deleted?) && pri < PRI_MAX
    ensures Queued(Create(v, t, pri), lo)
  {
    hide TcbOk, ReadyOk, WaitOk, SortedOk, TimedOk, TickList, NoLostWakeup;
    ReadyAside(v.state, v.prio, v.list, t, Suspended, pri);
    WaitAside(v.state, v.blk, v.blk - {t}, v.waiters, t, Suspended);
    AbsentFacts(v, lo, t);
    SortedAside(v.waiters, v.prio, t, pri);
    TimedSame(v.state, v.tickHead, t, Suspended);
    TcbNew(v.state, v.prio, v.bprio, v.held, v.suspend, v.dead, t, pri);
  }

  lemma TcbNew(state: map<Task, TaskState>, prio: map<Task, nat>, bprio: map<Task, nat>,
               held: map<Task, seq<Obj>>, suspend: map<Task, nat>, dead: set<Task>, t: Task, pri: nat)
    requires TcbOk(state, prio, bprio, held, suspend, dead) && pri < PRI_MAX
    ensures TcbOk(state[t := Suspended], prio[t := pri], bprio[t := pri], held[t := []], suspend[t := 1], dead - {t})
  {
  }

  lemma AbsentFacts(v: View, lo: nat, t: Task)
    requires Queued(v, lo) && (t in v.state ==> v.state[t].Deleted?)
    ensures t !in v.tickHead && forall o :: o in v.waiters ==> t !in v.waiters[o]
  {
    hide TcbOk, ReadyOk, SortedOk, TickList, NoLostWakeup;
  }

  lemma CreateOwned(v: View, t: Task, pri: nat)
    requires Owned(v) && (t in v.state ==> v.state[t].Deleted?)
    ensures Owned(Create(v, t, pri))
  {
    var v' := Create(v, t, pri);
    forall m | m in v'.objs && v'.objs[m].Mutex? && m in v'.owner
      ensures HasOwner(m, v'.state, v'.owner, v'.held)
    {
      assert HasOwner(m, v.state, v.owner, v.held);
    }
  }

  lemma CreateEdges(v: View, t: Task, pri: nat)
    requires t in v.state ==> v.state[t].Deleted?
    ensures Wf(Create(v, t, pri)) == Wf(v)
  {
  }

  /** A task that is being deleted, seen as still owning `ms` and as if it had been given the priority it runs at:
      every other task keeps what it inherits while the mutexes are handed over. */
  ghost function Dying(v: View, t: Task, ms: seq<Obj>): View
    requires t in v.prio
  {
    v.(held := v.held[t := ms], bprio := v.bprio[t := v.prio[t]])
  }

  lemma DyingKeeps(v: View, t: Task, lo: nat)
    requires Queued(v, lo) && Owned(v) && Inherits(v) && t in v.state && Live(v.state[t]) && t != v.idle &&
      t in v.prio && t in v.held
    ensures Consistent(Dying(v, t, v.held[t]), lo)
  {
    hide OwnOk, WaitFor, ReadyOk, WaitOk, SortedOk, TimedOk, TickList, NoLostWakeup, PI.IsMin;
    var v' := Dying(v, t, v.held[t]);
    assert v'.held == v.held;
    assert BaseOf(v') == BaseOf(v)[t := v.prio[t]];
    PI.Rebase(t, v.prio[t], v.prio, BaseOf(v), Wf(v));
    DyingAt(t, v.prio, BaseOf(v), Wf(v));
    PI.Settled(t, v.prio, BaseOf(v'), Wf(v));
  }

  lemma DyingAt(t: Task, prio: map<Task, nat>, base: map<Task, nat>, wf: map<Task, Task>)
    requires PI.Graph(prio, base, wf) && t in base && PI.Fix(prio, base, wf)
    ensures PI.IsMin(prio[t], prio[t], t, wf, prio)
  {
    assert PI.FixAt(t, prio, base, wf);
  }

  /** The next mutex comes off the list of a dying task. */
  lemma DyingReleases(v: View, t: Task, m: Obj, rest: seq<Obj>, lo: nat)
    requires Queued(v, lo) && t in v.state && t != v.idle && t in v.prio && Consistent(Dying(v, t, [m] + rest), lo) &&
      Live(v.state[t])
    ensures Queued(Dying(v, t, rest), lo) && Released(Dying(v, t, rest), m) && m in v.owner && v.owner[m] == t
  {
    hide Queued, OwnOk, WaitFor, PI.Fix, PI.FixExcept, PI.IsMin;
    var d := Dying(v, t, [m] + rest);
    HeldIsOwned(d, t, m, lo);
    OwnerFacts(d, m, lo);
    TcbHeld(d, t, rest, lo);
    assert d.held[t := rest] == v.held[t := rest];
    DetachOwned(d, m, t);
    WfLessEdges(d, m);
    PI.DropEdges(t, d.prio, BaseOf(d), Wf(d), WfLess(d, m));
    DyingLess(t, d.prio, BaseOf(d), Wf(d), WfLess(d, m));
    PI.Settled(t, d.prio, BaseOf(d), WfLess(d, m));
  }

  lemma HeldIsOwned(v: View, t: Task, m: Obj, lo: nat)
    requires Queued(v, lo) && Owned(v) && t in v.state && Live(v.state[t]) && t in v.held && m in v.held[t]
    ensures m in v.objs && v.objs[m].Mutex? && m in v.owner && v.owner[m] == t && m in v.waiters
  {
    hide Queued;
  }

  lemma DyingLess(t: Task, prio: map<Task, nat>, base: map<Task, nat>, wf: map<Task, Task>, wf': map<Task, Task>)
    requires PI.Graph(prio, base, wf) && t in base && PI.Fix(prio, base, wf) && base[t] == prio[t]
    requires forall u :: u in wf' ==> u in wf && wf'[u] == wf[u]
    ensures wf'.Keys <= prio.Keys && PI.IsMin(prio[t], base[t], t, wf', prio)
  {
    assert PI.FixAt(t, prio, base, wf);
  }

  /** Nobody waits for the mutex: it becomes free. */
  lemma DyingFrees(v: View, t: Task, m: Obj, rest: seq<Obj>, lo: nat)
    requires Queued(v, lo) && t in v.state && t != v.idle && t in v.prio && Consistent(Dying(v, t, [m] + rest), lo) &&
      Live(v.state[t])
    requires m in v.waiters && v.waiters[m] == []
    ensures Queued(v.(owner := v.owner - {m}), lo) && Consistent(Dying(v.(owner := v.owner - {m}), t, rest), lo)
  {
    hide TcbOk, ReadyOk, WaitOk, SortedOk, TimedOk, TickList, NoLostWakeup, OwnOk, WaitFor, Base, PI.Fix, PI.Graph;
    DyingReleases(v, t, m, rest, lo);
    FreedKeeps(Dying(v, t, rest), m, lo);
  }

  /** The first waiter gets the mutex. */
  lemma DyingPasses(v: View, t: Task, m: Obj, rest: seq<Obj>, n: Task, s: TaskState, lo: nat)
    requires Queued(v, lo) && t in v.state && t != v.idle && t in v.prio && Consistent(Dying(v, t, [m] + rest), lo) &&
      Live(v.state[t])
    requires m in v.waiters && v.waiters[m] != [] && n == v.waiters[m][0]
    requires n in v.state && Pending(v.state[n]) && PendingAt(v, n) && n in v.prio && v.prio[n] < |v.list|
    requires s.Ready? || (s.Suspended? && v.state[n].PendSuspended?)
    ensures n != t && n in FirstLeft(v, n, s).held
    ensures Consistent(Dying(PassMutex(FirstLeft(v, n, s), m, n), t, rest), lo)
  {
    hide Queued, Owned, Inherits, Remove, NoDup, Sorted, Released, FirstInLine;
    HeldIsOwned(Dying(v, t, [m] + rest), t, m, lo);
    NotOwnWaiter(Dying(v, t, [m] + rest), m, n);
    DyingReleases(v, t, m, rest, lo);
    LiveFacts(v, lo, n);
    FirstLeftKeeps(Dying(v, t, rest), m, n, s, lo);
    PassReleased(FirstLeft(Dying(v, t, rest), n, s), m, n, lo);
    DyingCommutes(v, t, m, rest, n, s);
  }

  lemma DyingCommutes(v: View, t: Task, m: Obj, rest: seq<Obj>, n: Task, s: TaskState)
    requires t in v.prio && PendingAt(v, n) && n in v.prio && v.prio[n] < |v.list| && n in v.held && n != t
    ensures Dying(PassMutex(FirstLeft(v, n, s), m, n), t, rest) == PassMutex(FirstLeft(Dying(v, t, rest), n, s), m, n)
  {
    hide Remove, NoDup, Sorted;
  }

  lemma PassReleased(v: View, m: Obj, n: Task, lo: nat)
    requires Queued(v, lo) && Released(v, m) && FirstInLine(v, m, n)
    ensures Consistent(PassMutex(v, m, n), lo)
  {
    hide Queued, OwnOk, WaitFor, Base, PI.Fix, PI.Graph;
    PassMutexOwned(v, m, n);
    PassMutexPriorities(v, m, n, lo);
  }

  lemma FirstLeftQueued(v: View, m: Obj, n: Task, s: TaskState, lo: nat)
    requires Queued(v, lo) && n in v.state && Pending(v.state[n]) && PendingAt(v, n)
    requires n in v.prio && n in v.held && n in v.suspend && v.prio[n] < |v.list|
    requires s.Ready? || (s.Suspended? && v.state[n].PendSuspended?)
    ensures Queued(FirstLeft(v, n, s), lo) && Queued(PassMutex(FirstLeft(v, n, s), m, n), lo)
  {
    hide TcbOk, ReadyOk, WaitOk, SortedOk, TimedOk, TickList, NoLostWakeup, Remove, NoDup, Sorted;
    LeaveWaitKeeps(v, n, s, lo);
    ClearBlkKeeps(LeaveWait(v, n, s), n, lo);
    TcbHeld(FirstLeft(v, n, s), n, [m] + v.held[n], lo);
  }

  lemma NotOwnWaiter(v: View, m: Obj, n: Task)
    requires Owned(v) && m in v.objs && v.objs[m].Mutex? && m in v.waiters && n in v.waiters[m]
    ensures m in v.owner && v.owner[m] != n
  {
  }

  /** A task that owns nothing any more is deleted. */
  lemma Buried(v: View, t: Task, v': View, o: Obj, lo: nat)
    requires Queued(v, lo) && t in v.state && Live(v.state[t]) && t != v.idle && t in v.prio &&
      Consistent(Dying(v, t, []), lo)
    requires v'.state == v.state[t := Deleted] && v'.prio == v.prio && v'.bprio == v.bprio && v'.held == v.held
    requires v'.blk == v.blk && v'.objs == v.objs && v'.owner == v.owner && v'.idle == v.idle
    requires v'.waiters == v.waiters ||
      (o in v.waiters && o in v'.waiters && v'.waiters == v.waiters[o := v'.waiters[o]] &&
      forall x :: x in v'.waiters[o] ==> x in v.waiters[o])
    ensures Owned(v') && if Pending(v.state[t]) then LeftBehind(v', t) else Inherits(v')
  {
    hide Queued, OwnOk, WaitFor, PI.Fix, PI.FixExcept, PI.IsMin;
    var d := Dying(v, t, []);
    LiveFacts(v, lo, t);
    BuriedOwned(d, t, v', o);
    BuriedEdges(d, t, v');
    NobodyBehind(d, t, lo);
    EdgeFacts(d, lo, t);
    assert BaseOf(v') == BaseOf(d) - {t};
    FixIsFixExcept(t, v.prio, BaseOf(d), Wf(d));
    PI.DropTask(t, v.prio, BaseOf(d), Wf(d));
    hide Base;
    if Pending(v.state[t]) {
      PendFacts(v, lo, t);
    }
  }

  lemma FixIsFixExcept(t: Task, prio: map<Task, nat>, base: map<Task, nat>, wf: map<Task, Task>)
    requires PI.Graph(prio, base, wf) && PI.Fix(prio, base, wf)
    ensures PI.FixExcept(t, prio, base, wf)
  {
  }

  lemma BuriedOwned(d: View, t: Task, v': View, o: Obj)
    requires Owned(d) && t in d.state && t in d.held && d.held[t] == []
    requires v'.state == d.state[t := Deleted] && v'.objs == d.objs && v'.owner == d.owner &&
      v'.held.Keys == d.held.Keys
    requires forall u :: u in d.held && u != t ==> v'.held[u] == d.held[u]
    requires v'.waiters == d.waiters ||
      (o in d.waiters && o in v'.waiters && v'.waiters == d.waiters[o := v'.waiters[o]] &&
      forall x :: x in v'.waiters[o] ==> x in d.waiters[o])
    ensures Owned(v')
  {
    forall m | m in v'.objs && v'.objs[m].Mutex? && m in v'.owner
      ensures HasOwner(m, v'.state, v'.owner, v'.held)
    {
      assert HasOwner(m, d.state, d.owner, d.held);
    }
    if v'.waiters != d.waiters && v'.waiters[o] != [] {
      assert v'.waiters[o][0] in d.waiters[o];
    }
  }

  lemma BuriedEdges(d: View, t: Task, v': View)
    requires v'.state == d.state[t := Deleted] && v'.blk == d.blk && v'.objs == d.objs && v'.owner == d.owner
    ensures Wf(v') == Wf(d) - {t}
  {
  }

  lemma NobodyBehind(d: View, t: Task, lo: nat)
    requires Queued(d, lo) && Owned(d) && t in d.held && d.held[t] == []
    ensures forall u :: u in Wf(d) ==> Wf(d)[u] != t
  {
    hide Queued;
    forall u | u in Wf(d)
      ensures Wf(d)[u] != t
    {
      assert HasOwner(d.blk[u], d.state, d.owner, d.held);
    }
  }

  /** The mutexes `ms` have gone to their first waiters, or became free; all others stay where they were. */
  ghost predicate HandedOver(ms: seq<Obj>, waiters0: map<Obj, seq<Task>>, owner0: map<Obj, Task>,
      waiters: map<Obj, seq<Task>>, owner: map<Obj, Task>) {
    && waiters.Keys == waiters0.Keys
    && (forall m :: m in ms ==> m in waiters0 && if waiters0[m] == [] then m !in owner
       else m in owner && owner[m] == waiters0[m][0])
    && (forall m :: m !in ms ==> (m in owner <==> m in owner0) && (m in owner ==> owner[m] == owner0[m]))
    && (forall m :: m in waiters && m !in ms ==> waiters[m] == waiters0[m])
  }

  lemma HandedOne(ms: seq<Obj>, i: nat, waiters0: map<Obj, seq<Task>>, owner0: map<Obj, Task>,
      waiters: map<Obj, seq<Task>>, owner: map<Obj, Task>,
                  waiters': map<Obj, seq<Task>>, owner': map<Obj, Task>)
    requires i < |ms| && NoDup(ms) && HandedOver(ms[..i], waiters0, owner0, waiters, owner) && ms[i] in waiters
    requires waiters'.Keys == waiters.Keys && forall m :: m in waiters && m != ms[i] ==> waiters'[m] == waiters[m]
    requires owner' == if waiters[ms[i]] == [] then owner - {ms[i]} else owner[ms[i] := waiters[ms[i]][0]]
    ensures HandedOver(ms[..i + 1], waiters0, owner0, waiters', owner')
  {
    OneFurther(ms, i);
    hide NoDup;
    HandedNext(ms[..i], ms[..i + 1], ms[i], waiters0, owner0, waiters, owner, waiters', owner');
  }

  lemma OneFurther(ms: seq<Obj>, i: nat)
    requires i < |ms| && NoDup(ms)
    ensures ms[i] !in ms[..i] && forall m :: m in ms[..i + 1] <==> m in ms[..i] || m == ms[i]
  {
    assert ms[..i + 1] == ms[..i] + [ms[i]];
  }

  lemma HandedNext(done: seq<Obj>, done': seq<Obj>, m: Obj, waiters0: map<Obj, seq<Task>>, owner0: map<Obj, Task>,
      waiters: map<Obj, seq<Task>>,
                   owner: map<Obj, Task>, waiters': map<Obj, seq<Task>>, owner': map<Obj, Task>)
    requires HandedOver(done, waiters0, owner0, waiters, owner) && m in waiters && m !in done &&
      forall x :: x in done' <==> x in done || x == m
    requires waiters'.Keys == waiters.Keys && forall x :: x in waiters && x != m ==> waiters'[x] == waiters[x]
    requires owner' == if waiters[m] == [] then owner - {m} else owner[m := waiters[m][0]]
    ensures HandedOver(done', waiters0, owner0, waiters', owner')
  {
  }

  lemma HandedNone(waiters: map<Obj, seq<Task>>, owner: map<Obj, Task>)
    ensures HandedOver([], waiters, owner, waiters, owner)
  {
  }

  lemma ListIsGood(v: View, t: Task, lo: nat)
    requires Queued(v, lo) && Owned(v) && t in v.state && Live(v.state[t]) && t in v.held
    ensures NoDup(v.held[t]) && forall m :: m in v.held[t] ==> m in v.owner
  {
    hide Queued;
  }

  lemma HandedNested(ms: seq<Obj>, waiters0: map<Obj, seq<Task>>, owner0: map<Obj, Task>, waiters: map<Obj, seq<Task>>,
      owner: map<Obj, Task>,
                     objs: map<Obj, Object>, nested: map<Obj, nat>)
    requires HandedOver(ms, waiters0, owner0, waiters, owner) && NestedOk(objs, owner0, nested)
    requires forall m :: m in ms ==> m in owner0
    ensures NestedOk(objs, owner, nested)
  {
  }

  lemma OwnerAside(v: View, owner: map<Obj, Task>, lo: nat)
    requires Queued(v, lo)
    ensures Queued(v.(owner := owner), lo)
  {
    hide TcbOk, ReadyOk, WaitOk, SortedOk, TimedOk, TickList, NoLostWakeup;
  }

  /** The owner of an object that is no mutex is of no interest. */
  lemma ForgetKeeps(v: View, m: Obj, lo: nat)
    requires Queued(v, lo) && Owned(v) && Inherits(v) && m in v.objs && !v.objs[m].Mutex?
    ensures Queued(v.(owner := v.owner - {m}), lo) && Owned(v.(owner := v.owner - {m})) &&
      Inherits(v.(owner := v.owner - {m}))
  {
    hide TcbOk, ReadyOk, WaitOk, SortedOk, TimedOk, TickList, NoLostWakeup, PI.Fix, PI.Graph;
    var v' := v.(owner := v.owner - {m});
    assert Wf(v') == Wf(v);
    forall x | x in v'.objs && v'.objs[x].Mutex? && x in v'.owner
      ensures HasOwner(x, v'.state, v'.owner, v'.held)
    {
      assert HasOwner(x, v.state, v.owner, v.held);
    }
  }

  // ----- Creating objects -----

  lemma NewObjectKeeps(v: View, o: Obj, obj: Object, lo: nat)
    requires Queued(v, lo) && Owned(v) && Inherits(v) &&
      (o in v.objs ==> v.objs[o].Gone? && o in v.waiters && v.waiters[o] == [])
    ensures Consistent(v.(objs := v.objs[o := obj], waiters := v.waiters[o := []], owner := v.owner - {o}), lo)
  {
    hide Queued, Owned, WaitFor, PI.Fix, PI.Graph;
    NewObjectQueued(v, o, obj, lo);
    NewObjectOwned(v, o, obj);
    NewObjectEdges(v, o, obj, lo);
  }

  lemma NewObjectQueued(v: View, o: Obj, obj: Object, lo: nat)
    requires Queued(v, lo) && (o in v.objs ==> o in v.waiters && v.waiters[o] == [])
    ensures Queued(v.(objs := v.objs[o := obj], waiters := v.waiters[o := []], owner := v.owner - {o}), lo)
  {
    hide TcbOk, ReadyOk, TimedOk, TickList;
  }

  lemma NewObjectOwned(v: View, o: Obj, obj: Object)
    requires Owned(v) && (o in v.objs ==> v.objs[o].Gone?)
    ensures Owned(v.(objs := v.objs[o := obj], waiters := v.waiters[o := []], owner := v.owner - {o}))
  {
    forall m | m in v.objs && m != o && v.objs[m].Mutex? && m in v.owner
      ensures HasOwner(m, v.state, v.owner - {o}, v.held)
    {
      assert HasOwner(m, v.state, v.owner, v.held);
    }
  }

  lemma NewObjectEdges(v: View, o: Obj, obj: Object, lo: nat)
    requires Queued(v, lo) && (o in v.objs ==> v.objs[o].Gone? && o in v.waiters && v.waiters[o] == [])
    ensures Wf(v.(objs := v.objs[o := obj], waiters := v.waiters[o := []], owner := v.owner - {o})) == Wf(v)
  {
    hide TcbOk, ReadyOk, SortedOk, TimedOk, TickList, NothingFor;
  }
}
