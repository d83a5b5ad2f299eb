/** Event flag groups. The option of a call is given by two booleans: all of the wanted flags or any of them, and
    whether they are cleared when the wait is over. */
module Events {
  import opened KernelTypes
  import opened Lists
  import opened RunQueues
  import opened KernelState
  import opened KernelMoves
  import opened KernelSteps
  import opened Kernel

  /** `event_create` */
  method EventCreate(k: Kernel, o: Obj, flags: Flags)
    requires k.Valid() && (o in k.objs ==> k.objs[o].Gone? && o in k.waiters && k.waiters[o] == []) && o !in k.next
    modifies k`objs, k`waiters, k`owner, k`sent, k`got
    ensures k.Valid() && k.objs == old(k.objs)[o := Event(flags)] && k.waiters == old(k.waiters)[o := []]
    ensures k.owner == old(k.owner) - {o} && k.sent == old(k.sent)[o := []] && k.got == old(k.got)[o := []]
    ensures k.V() == old(k.V()).(objs := k.objs, waiters := k.waiters, owner := k.owner)
  {
    k.CreateObject(o, Event(flags));
  }

  /** `krhino_event_del` */
  method EventDel(k: Kernel, o: Obj) returns (r: Status)
    requires k.Valid() && o in k.objs
    modifies k`objs, k`state, k`waiters, k`tickHead, k`blkState, k`blkObj, k`active, k.rq
    ensures k.Valid() && (r == TypeErr <==> !old(k.objs[o].Event?)) && (r != TypeErr ==> r == Success)
    ensures r == TypeErr ==> k.V() == old(k.V()) && k.blkState == old(k.blkState)
    ensures r == Success ==> k.objs == old(k.objs)[o := Gone] && o in old(k.waiters)
    ensures r == Success ==>
      ObjectGone(old(k.V()), k.V(), o) && WentOn(old(k.waiters[o]), old(k.state), k.state) &&
      k.blkState == Told(old(k.blkState), old(k.waiters[o]), BlkDel)
    ensures k.schedLock > 0 ==> k.active == old(k.active)
    ensures r == TypeErr ==> k.active == old(k.active)
  {
    hide Kernel.V, Kernel.Sound, Kernel.Linked, Queued, Owned, Inherits, HistoryOk, NestedOk, RunQueue.Valid,
      ObjectGone, WentOn, Told;
    if !k.objs[o].Event? {
      return TypeErr;
    }
    k.QueueHere(o, k.now);
    k.DeleteObject(o);
    return Success;
  }

  method SetFlags(k: Kernel, o: Obj, flags: Flags)
    requires k.Valid() && o in k.objs && k.objs[o].Event? && o in k.waiters &&
      NothingFor(Event(flags), k.waiters[o], k.pendFlags, k.pendAll)
    modifies k`objs
    ensures k.Valid() && k.objs == old(k.objs)[o := Event(flags)]
    ensures k.V() == old(k.V()).(objs := k.objs)
  {
    hide Kernel.V, Kernel.Sound, Kernel.Linked, Queued, Owned, Inherits, RunQueue.Valid;
    k.SetObject(o, Event(flags));
  }

  lemma FewerFlags(flags: Flags, fewer: Flags, q: seq<Task>, want: map<Task, Flags>, all: map<Task, bool>)
    requires NothingFor(Event(flags), q, want, all) && fewer <= flags
    ensures NothingFor(Event(fewer), q, want, all)
  {
    hide Met;
    forall t | t in q
      ensures !Met(fewer, want[t], all[t])
    {
      ClearingMeetsNothing(flags, fewer, want[t], all[t]);
    }
  }

  /** Fewer flags: nobody goes on. */
  method ClearFlags(k: Kernel, o: Obj, flags: Flags)
    requires k.Valid() && o in k.objs && k.objs[o].Event?
    modifies k`objs
    ensures k.Valid() && k.objs == old(k.objs)[o := Event(old(k.objs[o].flags) * flags)]
    ensures k.V() == old(k.V()).(objs := k.objs)
  {
    hide Kernel.V, Kernel.Sound, Kernel.Linked, Queued, Owned, Inherits, HistoryOk, NestedOk, RunQueue.Valid, Met;
    k.NobodyWaits(o);
    FewerFlags(k.objs[o].flags, k.objs[o].flags * flags, k.waiters[o], k.pendFlags, k.pendAll);
    SetFlags(k, o, k.objs[o].flags * flags);
  }

  method DropFlags(k: Kernel, o: Obj, want: Flags)
    requires k.Valid() && o in k.objs && k.objs[o].Event?
    modifies k`objs
    ensures k.Valid() && k.objs == old(k.objs)[o := Event(old(k.objs[o].flags) - want)]
    ensures k.V() == old(k.V()).(objs := k.objs)
  {
    hide Kernel.V, Kernel.Sound, Kernel.Linked, Queued, Owned, Inherits, HistoryOk, NestedOk, RunQueue.Valid, Met;
    k.NobodyWaits(o);
    FewerFlags(k.objs[o].flags, k.objs[o].flags - want, k.waiters[o], k.pendFlags, k.pendAll);
    SetFlags(k, o, k.objs[o].flags - want);
  }

  /** `krhino_event_get` */
  method EventGet(k: Kernel, o: Obj, want: Flags, all: bool, clear: bool, ticks: nat) returns (r: Status, actual: Flags)
    requires k.Valid() && o in k.objs && k.active != k.idle && (ticks == 0 || Kernel.TicksOk(ticks))
    modifies k`objs, k`pendFlags, k`pendAll, k`pendClear, k`state, k`blkObj, k`waiters, k`tickHead, k`tickMatch, k`due,
      k`active, k.rq
    ensures k.Valid()
    ensures r == TypeErr <==> !old(k.objs[o].Event?)
    ensures r == Success <==> old(k.objs[o].Event?) && Met(old(k.objs[o].flags), want, all)
    ensures r == Success ==> actual == old(k.objs[o].flags) && k.V() == old(k.V()).(objs := k.objs)
    ensures r == Success ==> k.state == old(k.state)
    ensures r == Success ==> k.objs == old(k.objs)[o := Event(if clear then actual - want else actual)]
    ensures r == NoPendWait <==> old(k.objs[o].Event?) && !Met(old(k.objs[o].flags), want, all) && ticks == 0
    ensures r == SchedDisabled <==>
      old(k.objs[o].Event?) && !Met(old(k.objs[o].flags), want, all) && ticks > 0 && old(k.schedLock) > 0
    ensures r in {TypeErr, NoPendWait, SchedDisabled} ==> k.V() == old(k.V())
    ensures r !in {TypeErr, NoPendWait, SchedDisabled, Success} ==> r == Blocked
    ensures r == Blocked ==>
      k.state == old(k.state)[old(k.active) := Pend] && k.blkObj == old(k.blkObj)[old(k.active) := o] &&
      k.objs == old(k.objs)
    ensures r == Blocked ==>
      Entered(old(k.V()).(pendFlags := k.pendFlags, pendAll := k.pendAll), k.V(), old(k.active), o, ticks)
    ensures if r == Blocked then Wants(old(k.active), want, all, clear, old(k.pendFlags), old(k.pendAll),
      old(k.pendClear),
              k.pendFlags, k.pendAll, k.pendClear)
            else unchanged(k`pendFlags, k`pendAll, k`pendClear)
    ensures k.due == if r == Blocked then Kernel.DueAfter(old(k.due), old(k.active), ticks, k.now) else old(k.due)
    ensures r == Blocked ==> (old(k.active) in k.tickHead <==> ticks != WAIT_FOREVER)
    ensures k.schedLock > 0 ==> k.active == old(k.active)
    ensures r != Blocked ==> k.active == old(k.active)
    ensures r != Blocked ==> k.state == old(k.state)
  {
    hide Kernel.V, Kernel.Sound, Kernel.Linked, Queued, Owned, Inherits, HistoryOk, NestedOk, RunQueue.Valid, Met,
      Entered, Wants;
    if !k.objs[o].Event? {
      return TypeErr, {};
    }
    if Met(k.objs[o].flags, want, all) {
      actual := k.objs[o].flags;
      if clear {
        DropFlags(k, o, want);
      } else {
        assert k.objs[o := Event(actual)] == k.objs;
        k.ObjectsHere();
      }
      return Success, actual;
    }
    if ticks == 0 {
      return NoPendWait, {};
    }
    if k.schedLock > 0 {
      return SchedDisabled, {};
    }
    WaitForFlags(k, o, want, all, clear, ticks);
    return Blocked, {};
  }

  /** `t` has recorded what it waits for. */
  ghost predicate Wants(t: Task, want: Flags, all: bool, clear: bool, flags0: map<Task, Flags>, all0: map<Task, bool>,
      clear0: map<Task, bool>, flags: map<Task, Flags>, all': map<Task, bool>, clear': map<Task, bool>) {
    flags == flags0[t := want] && all' == all0[t := all] && clear' == clear0[t := clear]
  }

  method WaitForFlags(k: Kernel, o: Obj, want: Flags, all: bool, clear: bool, ticks: nat)
    requires k.Valid() && o in k.objs && k.active != k.idle && Kernel.TicksOk(ticks) && k.schedLock == 0
    requires k.objs[o].Event? && !Met(k.objs[o].flags, want, all)
    modifies k`pendFlags, k`pendAll, k`pendClear, k`state, k`blkObj, k`waiters, k`tickHead, k`tickMatch, k`due,
      k`active, k.rq
    ensures k.Valid() && k.state == old(k.state)[old(k.active) := Pend] && k.blkObj == old(k.blkObj)[old(k.active) := o]
    ensures k.due == Kernel.DueAfter(old(k.due), old(k.active), ticks, k.now) &&
      (old(k.active) in k.tickHead <==> ticks != WAIT_FOREVER)
    ensures k.schedLock > 0 ==> k.active == old(k.active)
    ensures Wants(old(k.active), want, all, clear, old(k.pendFlags), old(k.pendAll), old(k.pendClear), k.pendFlags,
      k.pendAll, k.pendClear)
    ensures Entered(old(k.V()).(pendFlags := k.pendFlags, pendAll := k.pendAll), k.V(), old(k.active), o, ticks)
  {
    hide Kernel.V, Kernel.Sound, Kernel.Linked, Queued, Owned, Inherits, HistoryOk, NestedOk, RunQueue.Valid, Met,
      Entered;
    k.Remember(want, all, clear);
    k.NobodyWaits(o);
    k.BlockOn(o, ticks);
  }

  /** The flags that remain once the waiters in `q` whose condition `cur` meets have cleared theirs. */
  function LeftOver(cur: Flags, q: seq<Task>, want: map<Task, Flags>, all: map<Task, bool>,
      clear: map<Task, bool>): (left: Flags)
    requires forall t :: t in q ==> t in want && t in all
  {
    if q == [] then cur
    else
      var t, rest := q[|q| - 1], LeftOver(cur, q[..|q| - 1], want, all, clear);
      if Met(cur, want[t], all[t]) && t in clear && clear[t] then rest - want[t] else rest
  }

  /** Those in `q` whose condition the flags `cur` meet. */
  ghost function Matching(cur: Flags, q: seq<Task>, want: map<Task, Flags>, all: map<Task, bool>): seq<Task> {
    if q == [] then []
    else
      var t, rest := q[|q| - 1], Matching(cur, q[..|q| - 1], want, all);
      if t in want && t in all && Met(cur, want[t], all[t]) then rest + [t] else rest
  }

  lemma MatchingNext(cur: Flags, q: seq<Task>, i: nat, want: map<Task, Flags>, all: map<Task, bool>)
    requires i < |q| && q[i] in want && q[i] in all
    ensures Matching(cur, q[..i + 1], want, all) ==
      if Met(cur, want[q[i]], all[q[i]]) then Matching(cur, q[..i], want, all) + [q[i]]
      else Matching(cur, q[..i], want, all)
  {
    hide Met;
    assert q[..i + 1][..i] == q[..i];
  }

  lemma MatchingNone(cur: Flags, q: seq<Task>, want: map<Task, Flags>, all: map<Task, bool>)
    ensures Matching(cur, q[..0], want, all) == []
  {
  }

  /** Those who go on learn that their wait is over, and with which flags. */
  ghost predicate Informed(q: seq<Task>, cur: Flags, v: View, v': View, why0: map<Task, BlkState>,
      why: map<Task, BlkState>, info0: map<Task, Flags>, info: map<Task, Flags>) {
    v' == AllWoken(v, q) && why == Told(why0, q, BlkFinish) && info == info0 + map t | t in q :: cur
  }

  lemma InformedNone(cur: Flags, v: View, why: map<Task, BlkState>, info: map<Task, Flags>)
    ensures Informed([], cur, v, v, why, why, info, info)
  {
    NobodyWoken(v, v.state, why, BlkFinish);
  }

  lemma InformedMore(q: seq<Task>, t: Task, cur: Flags, v: View, v1: View, why0: map<Task, BlkState>,
      why1: map<Task, BlkState>, info0: map<Task, Flags>, info1: map<Task, Flags>)
    requires Informed(q, cur, v, v1, why0, why1, info0, info1)
    ensures Informed(q + [t], cur, v, Woken(v1, t), why0, why1[t := BlkFinish], info0, info1[t := cur])
  {
    AllWokenMore(v, q, t);
    ToldMore(why0, q, t, BlkFinish);
    hide AllWoken, Woken, Told;
  }

  /** A flag remains exactly if it was set and nobody who went on with it clears it. */
  lemma {:induction false} LeftOverBits(cur: Flags, q: seq<Task>, want: map<Task, Flags>, all: map<Task, bool>,
      clear: map<Task, bool>, b: nat)
    requires forall t :: t in q ==> t in want && t in all
    ensures b in LeftOver(cur, q, want, all, clear) <==>
            b in cur && forall t :: t in q && Met(cur, want[t], all[t]) && t in clear && clear[t] ==> b !in want[t]
  {
    hide Met;
    if q != [] {
      var t, front := q[|q| - 1], q[..|q| - 1];
      assert q == front + [t];
      LeftOverBits(cur, front, want, all, clear, b);
    }
  }

  /** What `event_set` does to one waiter: it goes on if and only if its condition is met. */
  ghost predicate Answered(t: Task, met: bool, cur: Flags, was: map<Task, TaskState>, state: map<Task, TaskState>,
      queue: seq<Task>,
                           why: map<Task, BlkState>, info: map<Task, Flags>)
  {
    && t in was && t in state
    && if met then t !in queue && state[t] == Resumed(was[t]) && t in why && why[t] == BlkFinish && t in info &&
       info[t] == cur
       else t in queue && state[t] == was[t]
  }

  /** The waiters `done` have been answered; nobody else has changed. */
  ghost predicate Progress(q: seq<Task>, done: seq<Task>, want: map<Task, Flags>, all: map<Task, bool>, cur: Flags,
      was: map<Task, TaskState>,
                           state: map<Task, TaskState>, queue: seq<Task>, why: map<Task, BlkState>,
                           info: map<Task, Flags>)
  {
    && state.Keys == was.Keys && NoDup(queue) && (forall t :: t in queue ==> t in q)
    && (forall t :: t in q ==> t in want && t in all && t in was)
    && (forall t :: t in q && t in done ==> Answered(t, Met(cur, want[t], all[t]), cur, was, state, queue, why, info))
    && (forall t :: t in q && t !in done ==> t in queue && state[t] == was[t])
    && (forall t :: t in was && t !in q ==> state[t] == was[t])
  }

  lemma Skipped(q: seq<Task>, done: seq<Task>, t: Task, want: map<Task, Flags>, all: map<Task, bool>, cur: Flags,
      was: map<Task, TaskState>,
                state: map<Task, TaskState>, queue: seq<Task>, why: map<Task, BlkState>, info: map<Task, Flags>)
    requires Progress(q, done, want, all, cur, was, state, queue, why, info) && t in q && t !in done &&
      !Met(cur, want[t], all[t])
    ensures Progress(q, done + [t], want, all, cur, was, state, queue, why, info)
  {
    hide Met, NoDup;
  }

  lemma Progressed(q: seq<Task>, done: seq<Task>, t: Task, want: map<Task, Flags>, all: map<Task, bool>, cur: Flags,
      was: map<Task, TaskState>,
              state: map<Task, TaskState>, queue: seq<Task>, why: map<Task, BlkState>, info: map<Task, Flags>)
    requires Progress(q, done, want, all, cur, was, state, queue, why, info) && t in q && t !in done &&
      Met(cur, want[t], all[t])
    ensures t in queue && t in state
    ensures Progress(q, done + [t], want, all, cur, was, state[t := Resumed(state[t])], Remove(queue, t),
      why[t := BlkFinish], info[t := cur])
  {
    hide Met, Remove, NoDup;
    RemoveMembers(queue, t);
  }

  lemma LeftOverStep(cur: Flags, q: seq<Task>, i: nat, want: map<Task, Flags>, all: map<Task, bool>,
      clear: map<Task, bool>)
    requires i < |q| && forall t :: t in q ==> t in want && t in all
    ensures LeftOver(cur, q[..i + 1], want, all, clear) ==
            if Met(cur, want[q[i]], all[q[i]]) && q[i] in clear &&
            clear[q[i]] then LeftOver(cur, q[..i], want, all, clear) - want[q[i]]
            else LeftOver(cur, q[..i], want, all, clear)
  {
    hide Met;
    assert q[..i + 1][..i] == q[..i];
  }

  ghost predicate LeftIs(left: Flags, cur: Flags, q: seq<Task>, want: map<Task, Flags>, all: map<Task, bool>,
      clear: map<Task, bool>) {
    (forall t :: t in q ==> t in want && t in all) && left == LeftOver(cur, q, want, all, clear)
  }

  /** The loop of `event_set` over the waiters. All conditions are judged by the flags `cur` at its start; the
      flags that remain are stored when it is over. */
  method WakeMatching(k: Kernel, o: Obj, cur: Flags, ghost all: seq<Task>) returns (left: Flags)
    requires k.Sound(k.now) && Owned(k.V()) && Inherits(k.V()) && o in k.objs && k.objs[o].Event? && o in k.waiters &&
      k.waiters[o] == all
    requires forall t :: t in all ==> t in k.pendFlags && t in k.pendAll
    modifies k`state, k`waiters, k`tickHead, k`blkState, k`blkObj, k`pendInfo, k.rq
    ensures k.Sound(k.now) && Owned(k.V()) && Inherits(k.V()) && o in k.waiters
    ensures LeftIs(left, cur, all, k.pendFlags, k.pendAll, k.pendClear)
    ensures Progress(all, all, k.pendFlags, k.pendAll, cur, old(k.state), k.state, k.waiters[o], k.blkState, k.pendInfo)
    ensures Informed(Matching(cur, all, k.pendFlags, k.pendAll), cur, old(k.V()), k.V(), old(k.blkState), k.blkState,
      old(k.pendInfo), k.pendInfo)
  {
    hide Kernel.V, Kernel.Sound, Kernel.Linked, Queued, Owned, Inherits, RunQueue.Valid, Met, Remove, NoDup, LeftOver,
      Informed, Matching, Woken;
    k.QueueHere(o, k.now);
    var q := k.waiters[o];
    left := cur;
    ghost var v := k.V();
    InformedNone(cur, v, k.blkState, k.pendInfo);
    MatchingNone(cur, q, k.pendFlags, k.pendAll);
    LeftOverNone(cur, q, k.pendFlags, k.pendAll, k.pendClear);
    hide Progress;
    for i := 0 to |q|
      invariant k.Sound(k.now) && Owned(k.V()) && Inherits(k.V()) && o in k.waiters
      invariant left == LeftOver(cur, q[..i], k.pendFlags, k.pendAll, k.pendClear)
      invariant Progress(q, q[..i], k.pendFlags, k.pendAll, cur, old(k.state), k.state, k.waiters[o], k.blkState,
        k.pendInfo)
      invariant Informed(Matching(cur, q[..i], k.pendFlags, k.pendAll), cur, v, k.V(), old(k.blkState), k.blkState,
        old(k.pendInfo), k.pendInfo)
    {
      LeftOverStep(cur, q, i, k.pendFlags, k.pendAll, k.pendClear);
      NextInLine(q, i);
      MatchingNext(cur, q, i, k.pendFlags, k.pendAll);
      if Met(cur, k.pendFlags[q[i]], k.pendAll[q[i]]) {
        Progressed(q, q[..i], q[i], k.pendFlags, k.pendAll, cur, old(k.state), k.state, k.waiters[o], k.blkState,
          k.pendInfo);
        k.QueueHere(o, k.now);
        InformedMore(Matching(cur, q[..i], k.pendFlags, k.pendAll), q[i], cur, v, k.V(), old(k.blkState), k.blkState,
          old(k.pendInfo), k.pendInfo);
        Answer(k, q[i], cur);
        if q[i] in k.pendClear && k.pendClear[q[i]] {
          left := left - k.pendFlags[q[i]];
        }
      } else {
        Skipped(q, q[..i], q[i], k.pendFlags, k.pendAll, cur, old(k.state), k.state, k.waiters[o], k.blkState,
          k.pendInfo);
      }
    }
    assert q[..|q|] == q;
  }

  /** A task whose condition is met learns the flags and goes on. */
  method Answer(k: Kernel, t: Task, cur: Flags)
    requires k.Sound(k.now) && Owned(k.V()) && Inherits(k.V()) && t in k.state && Pending(k.state[t])
    requires t in k.blkObj && k.blkObj[t] in k.objs && !k.objs[k.blkObj[t]].Mutex?
    modifies k`state, k`waiters, k`tickHead, k`blkState, k`blkObj, k`pendInfo, k.rq
    ensures k.Sound(k.now) && Owned(k.V()) && Inherits(k.V()) && k.pendInfo == old(k.pendInfo)[t := cur] &&
      k.blkState == old(k.blkState)[t := BlkFinish]
    ensures k.state == old(k.state)[t := Resumed(old(k.state[t]))]
    ensures old(k.blkObj[t] in k.waiters) &&
      k.waiters == old(k.waiters[k.blkObj[t] := Remove(k.waiters[k.blkObj[t]], t)])
    ensures k.V() == Woken(old(k.V()), t)
  {
    hide Kernel.V, Kernel.Sound, Owned, Inherits, RunQueue.Valid, Remove, Woken;
    k.pendInfo := k.pendInfo[t := cur];
    k.Wakeup(t, BlkFinish, k.now);
  }

  lemma LeftOverNone(cur: Flags, q: seq<Task>, want: map<Task, Flags>, all: map<Task, bool>, clear: map<Task, bool>)
    requires forall t :: t in q ==> t in want && t in all
    ensures LeftOver(cur, q[..0], want, all, clear) == cur
  {
  }

  lemma NextInLine(q: seq<Task>, i: nat)
    requires NoDup(q) && i < |q|
    ensures q[..i + 1] == q[..i] + [q[i]] && q[i] !in q[..i]
  {
  }

  /** `event_set`: with `mask` it only clears flags, else it sets them and answers the waiters. */
  method EventSet(k: Kernel, o: Obj, flags: Flags, mask: bool) returns (r: Status)
    requires k.Valid() && o in k.objs
    modifies k`objs, k`state, k`waiters, k`tickHead, k`blkState, k`blkObj, k`active, k`pendInfo, k.rq
    ensures k.Valid() && (r == TypeErr <==> !old(k.objs[o].Event?)) && (r != TypeErr ==> r == Success)
    ensures r == TypeErr || mask ==> k.blkState == old(k.blkState) && k.pendInfo == old(k.pendInfo)
    ensures r == TypeErr ==> k.V() == old(k.V())
    ensures r == Success && mask ==>
      k.V() == old(k.V()).(objs := k.objs) && k.objs == old(k.objs)[o := Event(old(k.objs[o].flags) * flags)]
    ensures r == Success && !mask ==>
      EventAnswered(o, old(k.objs[o].flags) + flags, old(k.waiters), k.pendFlags, k.pendAll, old(k.V()), k.V(), k.objs,
        old(k.blkState), k.blkState, old(k.pendInfo), k.pendInfo)
    ensures r == Success && !mask ==>
      EventPosted(k.objs, o, old(k.objs), old(k.objs[o].flags) + flags, old(k.waiters), k.waiters, k.pendFlags,
      k.pendAll,
                                                  k.pendClear, old(k.state), k.state, k.blkState, k.pendInfo)
    ensures k.schedLock > 0 ==> k.active == old(k.active)
    ensures r == TypeErr || mask ==> k.active == old(k.active)
  {
    hide Kernel.V, Kernel.Sound, Kernel.Linked, Queued, Owned, Inherits, HistoryOk, NestedOk, RunQueue.Valid,
      EventPosted, EventAnswered;
    if !k.objs[o].Event? {
      return TypeErr;
    }
    if mask {
      ClearFlags(k, o, flags);
    } else {
      Post(k, o, k.objs[o].flags + flags);
    }
    return Success;
  }

  /** Exactly the waiters whose condition the flags `cur` meet have gone on, and the others still wait for nothing
      that is there. */
  ghost predicate EventPosted(objs: map<Obj, Object>, o: Obj, objs0: map<Obj, Object>, cur: Flags,
      waiters0: map<Obj, seq<Task>>, waiters: map<Obj, seq<Task>>,
                              want: map<Task, Flags>, all: map<Task, bool>, clear: map<Task, bool>,
                              was: map<Task, TaskState>, state: map<Task, TaskState>,
                              why: map<Task, BlkState>, info: map<Task, Flags>)
  {
    && o in waiters0 && o in waiters && (forall t :: t in waiters0[o] ==> t in want && t in all)
    && Progress(waiters0[o], waiters0[o], want, all, cur, was, state, waiters[o], why, info)
    && objs == objs0[o := Event(LeftOver(cur, waiters0[o], want, all, clear))]
  }

  /** The whole effect on the queues, and on what waiting tasks have learned. */
  ghost predicate EventAnswered(o: Obj, cur: Flags, waiters0: map<Obj, seq<Task>>, want: map<Task, Flags>,
      all: map<Task, bool>, v: View, v': View, objs: map<Obj, Object>, why0: map<Task, BlkState>,
      why: map<Task, BlkState>, info0: map<Task, Flags>, info: map<Task, Flags>) {
    && o in waiters0 && v'.objs == objs
    && Informed(Matching(cur, waiters0[o], want, all), cur, v, v'.(objs := v.objs), why0, why, info0, info)
  }

  method Post(k: Kernel, o: Obj, cur: Flags)
    requires k.Valid() && o in k.objs && k.objs[o].Event?
    modifies k`objs, k`state, k`waiters, k`tickHead, k`blkState, k`blkObj, k`pendInfo, k`active, k.rq
    ensures k.Valid() && EventPosted(k.objs, o, old(k.objs), cur, old(k.waiters), k.waiters, k.pendFlags, k.pendAll,
                                     k.pendClear, old(k.state), k.state, k.blkState, k.pendInfo)
    ensures k.schedLock > 0 ==> k.active == old(k.active)
    ensures EventAnswered(o, cur, old(k.waiters), k.pendFlags, k.pendAll, old(k.V()), k.V(), k.objs,
      old(k.blkState), k.blkState, old(k.pendInfo), k.pendInfo)
  {
    hide Kernel.V, Kernel.Sound, Kernel.Linked, Owned, Inherits, NestedOk, HistoryOk, NothingFor, RunQueue.Valid, Met,
      LeftOver, Progress, Informed, Matching;
    k.ObjectsHere();
    k.QueueHere(o, k.now);
    k.NobodyWaits(o);
    Recorded(k.objs[o], k.waiters[o], k.pendFlags, k.pendAll);
    var left := WakeMatching(k, o, cur, k.waiters[o]);
    k.ObjectsHere();
    StillNothing(old(k.waiters[o]), k.pendFlags, k.pendAll, k.pendClear, cur, old(k.state), k.state, k.waiters[o],
      k.blkState, k.pendInfo);
    RunnerStays(k.active, old(k.waiters[o]), k.pendFlags, k.pendAll, cur, old(k.state), k.state, k.waiters[o],
      k.blkState, k.pendInfo);
    k.SetAndSchedule(o, Event(left));
    k.ObjectsHere();
  }

  lemma Recorded(obj: Object, q: seq<Task>, want: map<Task, Flags>, all: map<Task, bool>)
    requires obj.Event? && NothingFor(obj, q, want, all)
    ensures forall t :: t in q ==> t in want && t in all
  {
  }

  /** Who still waits is not met by the flags that remain either. */
  lemma StillNothing(q: seq<Task>, want: map<Task, Flags>, all: map<Task, bool>, clear: map<Task, bool>, cur: Flags,
      was: map<Task, TaskState>,
                     state: map<Task, TaskState>, queue: seq<Task>, why: map<Task, BlkState>, info: map<Task, Flags>)
    requires Progress(q, q, want, all, cur, was, state, queue, why, info)
    ensures NothingFor(Event(LeftOver(cur, q, want, all, clear)), queue, want, all)
  {
    hide Met, LeftOver;
    var left := LeftOver(cur, q, want, all, clear);
    forall b | b in left
      ensures b in cur
    {
      LeftOverBits(cur, q, want, all, clear, b);
    }
    forall t | t in queue
      ensures t in want && t in all && !Met(left, want[t], all[t])
    {
      assert Answered(t, Met(cur, want[t], all[t]), cur, was, state, queue, why, info);
      ClearingMeetsNothing(cur, left, want[t], all[t]);
    }
  }

  lemma RunnerStays(t: Task, q: seq<Task>, want: map<Task, Flags>, all: map<Task, bool>, cur: Flags,
      was: map<Task, TaskState>,
                    state: map<Task, TaskState>, queue: seq<Task>, why: map<Task, BlkState>, info: map<Task, Flags>)
    requires Progress(q, q, want, all, cur, was, state, queue, why, info) && t in was && was[t].Ready? && t !in q
    ensures t in state && state[t].Ready?
  {
  }
}
