/** What the calls of the kernel do to its data, as relations between the views before and after. */
module KernelSteps {
  import opened KernelTypes
  import opened Lists
  import opened WaitLists
  import opened TickLists
  import opened KernelState
  import opened KernelMoves

  // ----- Going on -----

  /** The state a waiting task continues in. */
  function Resumed(s: TaskState): (r: TaskState) {
    if s.Pend? then Ready else Suspended
  }

  /** `t` has what it waited for: it leaves the wait list and the tick list, and unless it is suspended it stands last
      in its ring. */
  ghost function Woken(v: View, t: Task): View {
    if PendingAt(v, t) && t in v.state && t in v.prio && v.prio[t] < |v.list| then
      FirstLeft(v, t, Resumed(v.state[t]))
    else
      v
  }

  /** The tasks `q` go on, one after the other. */
  ghost function AllWoken(v: View, q: seq<Task>): View {
    if q == [] then v else Woken(AllWoken(v, q[..|q| - 1]), q[|q| - 1])
  }

  /** All tasks in `q` learn why. */
  ghost function Told(why: map<Task, BlkState>, q: seq<Task>, reason: BlkState): map<Task, BlkState> {
    why + map t | t in q :: reason
  }

  lemma ToldMore(why: map<Task, BlkState>, q: seq<Task>, t: Task, reason: BlkState)
    ensures Told(why, q + [t], reason) == Told(why, q, reason)[t := reason]
  {
  }

  lemma AllWokenMore(v: View, q: seq<Task>, t: Task)
    ensures AllWoken(v, q + [t]) == Woken(AllWoken(v, q), t)
  {
    assert (q + [t])[..|q|] == q;
  }

  lemma ToldSame(why: map<Task, BlkState>, q: seq<Task>, q': seq<Task>, reason: BlkState)
    requires forall t :: t in q <==> t in q'
    ensures Told(why, q, reason) == Told(why, q', reason)
  {
  }

  /** Exactly the tasks `q` have gone on. */
  ghost predicate WentOn(q: seq<Task>, was: map<Task, TaskState>, state: map<Task, TaskState>) {
    && state.Keys == was.Keys && (forall t :: t in q ==> t in was && state[t] == Resumed(was[t]))
    && (forall t :: t in was && t !in q ==> state[t] == was[t])
  }

  lemma WentOnMore(q: seq<Task>, t: Task, was: map<Task, TaskState>, state: map<Task, TaskState>)
    requires WentOn(q, was, state) && t in was && t !in q
    ensures WentOn(q + [t], was, state[t := Resumed(state[t])])
  {
  }

  lemma WentOnSame(q: seq<Task>, q': seq<Task>, was: map<Task, TaskState>, state: map<Task, TaskState>)
    requires WentOn(q, was, state) && forall t :: t in q <==> t in q'
    ensures WentOn(q', was, state)
  {
  }

  lemma NobodyWoken(v: View, state: map<Task, TaskState>, why: map<Task, BlkState>, reason: BlkState)
    ensures AllWoken(v, []) == v && WentOn([], state, state) && Told(why, [], reason) == why
  {
  }

  lemma OneWoken(v: View, t: Task, state: map<Task, TaskState>, why: map<Task, BlkState>, reason: BlkState)
    requires t in state
    ensures AllWoken(v, [t]) == Woken(v, t) && WentOn([t], state, state[t := Resumed(state[t])])
    ensures Told(why, [t], reason) == why[t := reason]
  {
    NobodyWoken(v, state, why, reason);
    assert [] + [t] == [t];
    AllWokenMore(v, [], t);
    ToldMore(why, [], t, reason);
    WentOnMore([], t, state, state);
    hide AllWoken, Woken, Told, WentOn;
  }

  // ----- Waiting -----

  /** `t` leaves its ring for the wait list of `o`, and for the tick list unless it waits forever. */
  ghost predicate Entered(v: View, v': View, t: Task, o: Obj, ticks: nat) {
    && t in v.prio && v.prio[t] < |v.list| && o in v.waiters && (forall x :: x in v.waiters[o] ==> x in v.prio)
    && (forall x :: x in v.tickHead ==> x in v.due)
    && v' == if ticks == WAIT_FOREVER then EnterWait(v, t, o) else TimedView(EnterWait(v, t, o), t, ticks)
  }

  ghost predicate FellAsleep(v: View, v': View, t: Task, ticks: nat) {
    && t in v.prio && v.prio[t] < |v.list| && (forall x :: x in v.tickHead ==> x in v.due)
    && v' == EnterSleep(v, t, ticks)
  }

  // ----- Moving to another priority -----

  /** `t` has left its place in the wait list of `o` and was inserted again. */
  predicate Requeued(was: map<Obj, seq<Task>>, o: Obj, t: Task, prio: map<Task, nat>, waiters: map<Obj, seq<Task>>)
    requires o in was
  {
    var rest := Remove(was[o], t);
    t in prio && (forall x :: x in rest ==> x in prio) && waiters == was[o := Enqueue(rest, t, prio)]
  }

  /** `t` changes rings: it goes first in the new one if it is running, and last otherwise. */
  ghost function Rehung(v: View, t: Task, p: nat, first: bool): seq<seq<Task>>
    requires t in v.prio && v.prio[t] < |v.list| && p < |v.list|
  {
    v.list[v.prio[t] := Remove(v.list[v.prio[t]], t)][p := if first then [t] + v.list[p] else v.list[p] + [t]]
  }

  /** `t` moves to another priority, and its place in its ring or wait list follows. */
  ghost predicate PriMove(v: View, v': View, run: Task, t: Task) {
    && t in v.state && t in v.prio && t in v'.prio && v'.prio == v.prio[t := v'.prio[t]] && v'.prio[t] != v.prio[t]
    && v.prio[t] < |v.list| && v'.prio[t] < |v.list|
    && v' == v.(prio := v'.prio, waiters := v'.waiters, list := v'.list)
    && v'.list == (if v.state[t].Ready? then Rehung(v, t, v'.prio[t], t == run) else v.list)
    && if Pending(v.state[t]) then t in v.blk && v.blk[t] in v.waiters &&
       Requeued(v.waiters, v.blk[t], t, v'.prio, v'.waiters)
       else v'.waiters == v.waiters
  }

  /** The tasks `ts` move, each once and each but the first because the one before it waits for it. */
  ghost predicate RepricedBy(v: View, v': View, run: Task, ts: seq<Task>, path: seq<View>) {
    && |path| == |ts| + 1 && path[0] == v && path[|ts|] == v' && NoDup(ts)
    && (forall i :: 0 <= i < |ts| ==> PriMove(path[i], path[i + 1], run, ts[i]))
    && (forall i: nat :: i + 1 < |ts| ==> WaitsForNext(v, ts, i))
  }

  ghost predicate WaitsForNext(v: View, ts: seq<Task>, i: nat)
    requires i + 1 < |ts|
  {
    ts[i] in Wf(v) && Wf(v)[ts[i]] == ts[i + 1]
  }

  ghost predicate Repriced(v: View, v': View, run: Task) {
    exists ts, path :: RepricedBy(v, v', run, ts, path)
  }

  lemma RepricedNone(v: View, run: Task)
    ensures RepricedBy(v, v, run, [], [v]) && Repriced(v, v, run) && forall t :: NextInChain(v, [], t)
  {
  }

  lemma RepricedMore(v: View, v1: View, v2: View, run: Task, ts: seq<Task>, path: seq<View>, t: Task)
    requires RepricedBy(v, v1, run, ts, path) && PriMove(v1, v2, run, t) && t !in ts && NextInChain(v, ts, Some(t))
    ensures RepricedBy(v, v2, run, ts + [t], path + [v2])
  {
    hide PriMove, Wf;
    var ts' := ts + [t];
    forall i: nat | i + 1 < |ts'|
      ensures WaitsForNext(v, ts', i)
    {
      if i + 1 < |ts| {
        assert WaitsForNext(v, ts, i);
      }
    }
  }

  lemma MoveEdges(v: View, v': View, run: Task, t: Task)
    requires PriMove(v, v', run, t)
    ensures Wf(v') == Wf(v)
  {
  }

  /** The task to move next is the one that the last one waits for. */
  ghost predicate NextInChain(v: View, ts: seq<Task>, t: Option<Task>) {
    t.Some? && ts != [] ==> ts[|ts| - 1] in Wf(v) && Wf(v)[ts[|ts| - 1]] == t.value
  }

  lemma ChainGoesOn(v: View, ts: seq<Task>, t: Task, next: Option<Task>)
    requires next.Some? ==> t in Wf(v) && Wf(v)[t] == next.value
    ensures NextInChain(v, ts + [t], next)
  {
  }

  // ----- The walk along the owners -----

  /** All that moved rose to the new priority of `t`, or sank from its old one. */
  ghost predicate OneWay(was: map<Task, nat>, prio: map<Task, nat>, t: Task, p: nat) {
    && t in was
    && (p <= was[t] ==> OnlyRaised(was, prio, p)) && (p >= was[t] ==> OnlyLowered(was, prio, was[t]))
  }

  /** After `t` has moved to `p`, the owner `o` has to follow to `q`. */
  ghost predicate Onward(t: Task, p: nat, was: map<Task, nat>, o: Task, q: nat, prio: map<Task, nat>) {
    && t in was && o in prio
    && (p < was[t] ==> q == p < prio[o]) && (p > was[t] ==> prio[o] == was[t] < q)
  }

  /** The walk so far has moved `ts`, and goes on with `t`, which belongs to `p`. */
  ghost predicate Moving(was: map<Task, nat>, prio: map<Task, nat>, ts: seq<Task>, t: Option<Task>, p: nat,
      newPri: nat, oldPri: nat) {
    && (newPri <= oldPri ==> OnlyRaised(was, prio, newPri)) && (newPri >= oldPri ==> OnlyLowered(was, prio, oldPri))
    && AllMoved(ts, prio, newPri, oldPri)
    && (t.Some? ==> t.value in prio && newPri != oldPri && if newPri < oldPri then p == newPri < prio[t.value]
       else prio[t.value] == oldPri < p)
  }

  lemma StartMoving(was: map<Task, nat>, t: Option<Task>, task: Task, newPri: nat)
    requires task in was && (t == None || (t == Some(task) && newPri != was[task]))
    ensures Moving(was, was, [], t, newPri, newPri, was[task])
  {
    NothingMoved(was, newPri, was[task]);
  }

  lemma MovingOn(was: map<Task, nat>, prio: map<Task, nat>, ts: seq<Task>, t: Task, p: nat, prio': map<Task, nat>,
      next: Option<Task>, q: nat, newPri: nat, oldPri: nat)
    requires Moving(was, prio, ts, Some(t), p, newPri, oldPri) && prio' == prio[t := p]
    requires next.Some? ==> Onward(t, p, prio, next.value, q, prio')
    ensures Moving(was, prio', ts + [t], next, q, newPri, oldPri) && t !in ts
    ensures ToMove(prio', newPri, oldPri) < ToMove(prio, newPri, oldPri)
    ensures next.Some? ==> q != prio'[next.value]
  {
    hide OnlyRaised, OnlyLowered, AllMoved, ToMove;
    Shrinks(prio, t, p, newPri, oldPri);
    AllMovedMore(ts, prio, newPri, oldPri, t, p);
    if newPri < oldPri {
      RaisedMore(was, prio, t, newPri);
    } else {
      LoweredMore(was, prio, t, p, oldPri);
    }
  }

  lemma MovedOneWay(was: map<Task, nat>, prio: map<Task, nat>, ts: seq<Task>, t: Option<Task>, p: nat, task: Task,
      newPri: nat)
    requires task in was && Moving(was, prio, ts, t, p, newPri, was[task])
    ensures OneWay(was, prio, task, newPri)
  {
  }

  lemma SameQueuesHere(waiters: map<Obj, seq<Task>>)
    ensures SameQueues(waiters, waiters)
  {
  }

  lemma SameQueuesMore(was: map<Obj, seq<Task>>, mid: map<Obj, seq<Task>>, waiters: map<Obj, seq<Task>>)
    requires SameQueues(was, mid) && SameQueues(mid, waiters)
    ensures SameQueues(was, waiters)
  {
  }

  // ----- Mutexes -----

  /** `t` gives up waiting, and whoever inherited from it moves. */
  ghost predicate GaveUp(v: View, v': View, run: Task, t: Task, s: TaskState) {
    && PendingAt(v, t) && t in v.prio && v.prio[t] < |v.list|
    && v'.blk == v.blk - {t} && Repriced(LeaveWait(v, t, s), v'.(blk := v.blk), run)
  }

  /** The owner of `m` and those it waits for inherit the priority of `t`, which then waits for `m`. */
  ghost predicate LockedOut(v: View, v': View, t: Task, m: Obj, ticks: nat) {
    exists v1 :: Repriced(v, v1, t) && Entered(v1, v', t, m, ticks)
  }

  ghost predicate Taken(v: View, v': View, m: Obj, t: Task) {
    t in v.held && v' == TakeMutex(v, m, t)
  }

  /** `t` gives up `m`, which the first waiter gets, if there is one. */
  ghost predicate Unlocked(v: View, v': View, t: Task, m: Obj) {
    t in v.held && exists v1 :: Repriced(Unlinked(v, m, t), v1, t) && Passed(v1, v', m)
  }

  ghost predicate Passed(v: View, v': View, m: Obj) {
    m in v.waiters && (v.waiters[m] != [] ==> v.waiters[m][0] in v.held) && v' == PassedOn(v, m)
  }

  /** The first waiter for `m` goes on and owns it; without a waiter `m` is free. */
  ghost function Handed(v: View, m: Obj): View {
    if m !in v.waiters then v
    else if v.waiters[m] == [] then v.(owner := v.owner - {m})
    else Woken(v, v.waiters[m][0]).(owner := v.owner[m := v.waiters[m][0]])
  }

  /** The same, and `m` is on the list of its new owner. */
  ghost function PassedOn(v: View, m: Obj): View {
    if m in v.waiters && v.waiters[m] != [] && v.waiters[m][0] in v.held then
      var n := v.waiters[m][0];
      Handed(v, m).(held := v.held[n := [m] + v.held[n]])
    else
      Handed(v, m)
  }

  lemma PassedIsHanded(v: View, m: Obj, n: Task)
    requires m in v.waiters && v.waiters[m] != [] && n == v.waiters[m][0] && n in v.held
    ensures n in Woken(v, n).held && PassedOn(v, m) == PassMutex(Woken(v, n), m, n)
  {
  }

  /** The mutexes `ms` are given away one after the other. */
  ghost function AllPassed(v: View, ms: seq<Obj>): View {
    if ms == [] then v else PassedOn(AllPassed(v, ms[..|ms| - 1]), ms[|ms| - 1])
  }

  ghost function AllHanded(v: View, ms: seq<Obj>): View {
    if ms == [] then v else Handed(AllHanded(v, ms[..|ms| - 1]), ms[|ms| - 1])
  }

  lemma AllPassedMore(v: View, ms: seq<Obj>, m: Obj)
    ensures AllPassed(v, ms + [m]) == PassedOn(AllPassed(v, ms), m) && AllPassed(v, []) == v
    ensures AllHanded(v, ms + [m]) == Handed(AllHanded(v, ms), m) && AllHanded(v, []) == v
  {
    assert (ms + [m])[..|ms|] == ms;
  }

  /** Those who get one of the mutexes `ms`. */
  ghost function Heirs(ms: seq<Obj>, waiters: map<Obj, seq<Task>>): seq<Task> {
    if ms == [] then []
    else
      var m, rest := ms[|ms| - 1], Heirs(ms[..|ms| - 1], waiters);
      if m in waiters && waiters[m] != [] then rest + [waiters[m][0]] else rest
  }

  lemma HeirsMore(ms: seq<Obj>, m: Obj, waiters: map<Obj, seq<Task>>)
    ensures Heirs([], waiters) == []
    ensures Heirs(ms + [m], waiters) == Heirs(ms, waiters) + if m in waiters && waiters[m] != [] then [waiters[m][0]]
      else []
  {
    assert (ms + [m])[..|ms|] == ms;
  }

  /** A task that owns nothing any more leaves whatever queue it is in. */
  ghost predicate Left(v: View, v': View, run: Task, t: Task) {
    && t in v.state && t in v.prio && v.prio[t] < |v.list| && t in v.suspend
    && match v.state[t]
       case Ready => v' == Park(v, t, Deleted, v.suspend[t])
       case Sleep => v' == LeaveSleep(v, t, Deleted)
       case SleepSuspended => v' == LeaveSleep(v, t, Deleted)
       case Pend => PendingAt(v, t) && Repriced(LeaveWait(v, t, Deleted), v', run)
       case PendSuspended => PendingAt(v, t) && Repriced(LeaveWait(v, t, Deleted), v', run)
       case _ => v' == v.(state := v.state[t := Deleted])
  }

  /** `t` gives away its mutexes and is gone. */
  ghost predicate TaskGone(v: View, v': View, run: Task, t: Task) {
    t in v.held && v'.dead == v.dead + {t} && Left(AllPassed(v, v.held[t]), v'.(dead := v.dead), run, t)
  }

  /** A mutex is deleted: its owner loses it, and what it inherited through it. */
  ghost predicate Retired(v: View, v': View, run: Task, m: Obj) {
    if m !in v.owner then v' == v.(objs := v.objs[m := Gone])
    else v.owner[m] in v.held && Repriced(Unlinked(v, m, v.owner[m]).(objs := v.objs[m := Gone]), v', run)
  }

  /** A mutex is deleted, and all who wait for it go on. */
  ghost predicate MutexGone(v: View, v': View, run: Task, m: Obj) {
    exists v1 :: Retired(v, v1, run, m) && m in v1.waiters && v' == AllWoken(v1, v1.waiters[m])
  }

  /** Another object is deleted, and all who wait for it go on. */
  ghost predicate ObjectGone(v: View, v': View, o: Obj) {
    o in v.waiters && v' == AllWoken(v.(objs := v.objs[o := Gone]), v.waiters[o])
  }

  // ----- Suspension -----

  function AddSuspension(s: TaskState): (r: TaskState) {
    match s
    case Ready => Suspended
    case Sleep => SleepSuspended
    case Pend => PendSuspended
    case other => other
  }

  function DropSuspension(s: TaskState): (r: TaskState) {
    match s
    case Suspended => Ready
    case SleepSuspended => Sleep
    case PendSuspended => Pend
    case other => other
  }

  /** `t` is suspended once more; a ready task leaves its ring. */
  ghost predicate SuspendedOnce(v: View, v': View, t: Task) {
    && t in v.state && t in v.suspend
    && if v.state[t].Ready? then t in v.prio && v.prio[t] < |v.list| && v' == Park(v, t, Suspended, 1)
       else v' == v.(state := v.state[t := AddSuspension(v.state[t])],
                     suspend := v.suspend[t := if IsSuspended(v.state[t]) then v.suspend[t] + 1 else 1])
  }

  /** `t` is suspended once less; with the last suspension gone it goes last into its ring, or waits on. */
  ghost predicate ResumedOnce(v: View, v': View, t: Task) {
    && t in v.state && t in v.suspend && v.suspend[t] >= 1
    && if v.suspend[t] > 1 then v' == v.(suspend := v.suspend[t := v.suspend[t] - 1])
       else if v.state[t].Suspended? then t in v.prio && v.prio[t] < |v.list| && v' == Unpark(v, t, Ready, 0)
       else v' == v.(state := v.state[t := DropSuspension(v.state[t])], suspend := v.suspend[t := 0])
  }

  // ----- Other calls about tasks -----

  /** Whatever `t` waits for, it is ready. Its suspension count stays behind. */
  ghost predicate Aborted(v: View, v': View, run: Task, t: Task) {
    && t in v.state && t in v.prio && v.prio[t] < |v.list| && t in v.suspend
    && match v.state[t]
       case Ready => v' == v
       case Deleted => v' == v
       case Suspended => v' == Unpark(v, t, Ready, v.suspend[t])
       case Sleep => v' == LeaveSleep(v, t, Ready)
       case SleepSuspended => v' == LeaveSleep(v, t, Ready)
       case Pend => GaveUp(v, v', run, t, Ready)
       case PendSuspended => GaveUp(v, v', run, t, Ready)
  }

  /** A new task starts out suspended once; `autorun` is the resume that follows. */
  ghost predicate Born(v: View, v': View, t: Task, pri: nat, autorun: bool) {
    pri < |v.list| && v' == if autorun then Unpark(Create(v, t, pri), t, Ready, 0) else Create(v, t, pri)
  }

  // ----- The tick -----

  /** What a timeout makes of a task. */
  function AfterTimeout(s: TaskState): (r: TaskState) {
    if s.Sleep? || s.Pend? then Ready else Suspended
  }

  function TimeoutReason(s: TaskState): (r: BlkState) {
    if Sleeping(s) then BlkFinish else BlkTimeout
  }

  /** The time of `t` is up: it has slept long enough, or gives up waiting. */
  ghost predicate TimeIsUp(v: View, v': View, run: Task, t: Task) {
    && t in v.state && t in v.prio && v.prio[t] < |v.list|
    && if Sleeping(v.state[t]) then v' == LeaveSleep(v, t, AfterTimeout(v.state[t]))
       else GaveUp(v, v', run, t, AfterTimeout(v.state[t]))
  }

  /** One after the other, the first tasks of the tick list are released. */
  ghost predicate TimesUpIn(v: View, v': View, run: Task, path: seq<View>) {
    && |v'.tickHead| <= |v.tickHead| && v'.tickHead == v.tickHead[|v.tickHead| - |v'.tickHead|..]
    && |path| == |v.tickHead| - |v'.tickHead| + 1 && path[0] == v && path[|path| - 1] == v'
    && forall i: nat :: i + 1 < |path| ==> UpNext(v, run, path, i)
  }

  ghost predicate UpNext(v: View, run: Task, path: seq<View>, i: nat)
    requires i + 1 < |path|
  {
    i < |v.tickHead| && TimeIsUp(path[i], path[i + 1], run, v.tickHead[i])
  }

  ghost predicate TimesUp(v: View, v': View, run: Task) {
    exists path :: TimesUpIn(v, v', run, path)
  }

  /** Those who have left the tick list know why, and nobody else has learned anything. */
  ghost predicate ToldTimes(v: View, v': View, why: map<Task, BlkState>, why': map<Task, BlkState>) {
    && |v'.tickHead| <= |v.tickHead|
    && why' == why + Reasons(v.tickHead[..|v.tickHead| - |v'.tickHead|], v.state)
  }

  ghost function Reasons(q: seq<Task>, state: map<Task, TaskState>): map<Task, BlkState> {
    map t | t in q && t in state :: TimeoutReason(state[t])
  }

  lemma ReasonsMore(q: seq<Task>, t: Task, state: map<Task, TaskState>)
    requires t in state
    ensures Reasons(q + [t], state) == Reasons(q, state)[t := TimeoutReason(state[t])]
  {
  }

  lemma NothingUp(v: View, run: Task, why: map<Task, BlkState>)
    ensures TimesUpIn(v, v, run, [v]) && ToldTimes(v, v, why, why)
  {
    assert v.tickHead[..0] == [];
    assert Reasons([], v.state) == map[];
  }

  lemma UpMore(v: View, v1: View, v2: View, run: Task, path: seq<View>, t: Task)
    requires TimesUpIn(v, v1, run, path) && v1.tickHead != [] && t == v1.tickHead[0] && TimeIsUp(v1, v2, run, t)
    requires v2.tickHead == v1.tickHead[1..]
    ensures TimesUpIn(v, v2, run, path + [v2])
  {
    hide TimeIsUp;
    var path' := path + [v2];
    forall i: nat | i + 1 < |path'|
      ensures UpNext(v, run, path', i)
    {
      if i + 1 < |path| {
        assert UpNext(v, run, path, i);
      }
    }
  }

  lemma ToldTimesMore(v: View, v1: View, v2: View, why: map<Task, BlkState>, why1: map<Task, BlkState>, t: Task)
    requires ToldTimes(v, v1, why, why1) && v1.tickHead != [] && t == v1.tickHead[0]
    requires v1.tickHead == v.tickHead[|v.tickHead| - |v1.tickHead|..] && |v2.tickHead| == |v1.tickHead| - 1
    requires t in v.state && t in v1.state && v1.state[t] == v.state[t]
    ensures ToldTimes(v, v2, why, why1[t := TimeoutReason(v1.state[t])])
  {
    var k := |v.tickHead| - |v1.tickHead|;
    assert v.tickHead[..k + 1] == v.tickHead[..k] + [t];
    ReasonsMore(v.tickHead[..k], t, v.state);
    hide Reasons, TimeoutReason;
  }

  lemma UpShape(v: View, v': View, run: Task, path: seq<View>)
    requires TimesUpIn(v, v', run, path)
    ensures |v'.tickHead| <= |v.tickHead| && v'.tickHead == v.tickHead[|v.tickHead| - |v'.tickHead|..]
  {
  }

  predicate LastTick(t: Task, slice: map<Task, nat>) {
    t in slice ==> slice[t] <= 1
  }

  /** A task that has its ring to itself keeps its slice; the others lose a tick, and start anew once
      it is used up. */
  predicate SliceUsed(t: Task, ring: seq<Task>, was: map<Task, nat>, slice: map<Task, nat>, total: map<Task, nat>) {
    if |ring| == 1 then slice == was
    else slice == was[t := if !LastTick(t, was) then was[t] - 1 else if t in total then total[t] else 0]
  }

  /** The running task uses up a tick of its slice; with the last one it goes to the end of its ring. */
  ghost predicate SliceTurn(v: View, v': View, run: Task, was: map<Task, nat>, slice: map<Task, nat>,
      total: map<Task, nat>) {
    && run in v.prio && v.prio[run] < |v.list| && SliceUsed(run, v.list[v.prio[run]], was, slice, total)
    && v' == if |v.list[v.prio[run]]| > 1 && LastTick(run, was)
             then v.(list := v.list[v.prio[run] := Rotate(v.list[v.prio[run]])]) else v
  }

  /** A tick: waits that are over end, then the slice of the running task is updated. */
  ghost predicate Ticked(v: View, v': View, run: Task, was: map<Task, nat>, slice: map<Task, nat>,
      total: map<Task, nat>) {
    exists v1 :: TimesUp(v.(now := v.now + 1), v1, run) && SliceTurn(v1, v', run, was, slice, total)
  }

  lemma TurnKeepsTimes(v: View, v': View, v'': View, run: Task, was: map<Task, nat>, slice: map<Task, nat>,
      total: map<Task, nat>, why: map<Task, BlkState>, why': map<Task, BlkState>)
    requires ToldTimes(v, v', why, why') && SliceTurn(v', v'', run, was, slice, total)
    ensures ToldTimes(v, v'', why, why')
  {
    hide Reasons;
  }
}
