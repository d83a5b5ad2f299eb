/** What has to agree in the kernel data: task states, ready rings, wait lists, timeouts and mutex ownership.
    Each predicate looks at the fields it needs; the lemmas say how one edit moves it. */
module KernelState {
  import opened KernelTypes
  import opened Lists
  import opened WaitLists
  import opened TickLists
  import PI = PriorityInheritance

  // ----- Predicates -----

  ghost predicate TcbOk(state: map<Task, TaskState>, prio: map<Task, nat>, bprio: map<Task, nat>,
                        held: map<Task, seq<Obj>>, suspend: map<Task, nat>, dead: set<Task>)
  {
    && prio.Keys == state.Keys && bprio.Keys == state.Keys && held.Keys == state.Keys && suspend.Keys == state.Keys
    && (forall t :: t in state ==> prio[t] < PRI_MAX && bprio[t] < PRI_MAX)
    && (forall t :: t in state && IsSuspended(state[t]) ==> suspend[t] >= 1)
    && (forall t :: t in dead ==> t in state && state[t].Deleted?)
  }

  /** On the ready ring of its priority if and only if ready. */
  ghost predicate ReadyOk(state: map<Task, TaskState>, prio: map<Task, nat>, list: seq<seq<Task>>) {
    && |list| == PRI_MAX
    && (forall p :: 0 <= p < PRI_MAX ==> NoDup(list[p]))
    && (forall p, t :: 0 <= p < PRI_MAX && t in list[p] ==> t in state && state[t].Ready? && t in prio && prio[t] == p)
    && (forall t :: t in state && state[t].Ready? ==> t in prio && prio[t] < PRI_MAX && t in list[prio[t]])
  }

  /** On exactly the wait list of the object it is blocked on if and only if pending. */
  ghost predicate WaitOk(state: map<Task, TaskState>, blk: map<Task, Obj>, waiters: map<Obj, seq<Task>>) {
    && (forall t :: t in state && Pending(state[t]) ==> t in blk && blk[t] in waiters && t in waiters[blk[t]])
    && (forall o, t :: o in waiters && t in waiters[o] ==> t in state && Pending(state[t]) && t in blk && blk[t] == o)
    && (forall o :: o in waiters ==> NoDup(waiters[o]))
  }

  ghost predicate SortedOk(waiters: map<Obj, seq<Task>>, prio: map<Task, nat>) {
    forall o :: o in waiters ==> Sorted(waiters[o], prio)
  }

  /** On the tick list only if sleeping or pending, and always if sleeping. */
  ghost predicate TimedOk(state: map<Task, TaskState>, head: seq<Task>) {
    && (forall t :: t in head ==> t in state && (Sleeping(state[t]) || Pending(state[t])))
    && (forall t :: t in state && Sleeping(state[t]) ==> t in head)
  }

  /** Owners and their mutex lists agree, a contended mutex has an owner, and nobody waits for a mutex of its own. */
  ghost predicate OwnOk(state: map<Task, TaskState>, objs: map<Obj, Object>, owner: map<Obj, Task>,
                        held: map<Task, seq<Obj>>, waiters: map<Obj, seq<Task>>)
  {
    && objs.Keys == waiters.Keys
    && (forall m :: m in objs && objs[m].Mutex? && m in owner ==> HasOwner(m, state, owner, held))
    && (forall t, m :: t in state && Live(state[t]) && t in held && m in held[t] ==>
          m in objs && objs[m].Mutex? && m in owner && owner[m] == t)
    && (forall t :: t in held && t in state && Live(state[t]) ==> NoDup(held[t]))
    && (forall m :: m in objs && objs[m].Mutex? && waiters[m] != [] ==> m in owner && owner[m] !in waiters[m])
  }

  ghost predicate HasOwner(m: Obj, state: map<Task, TaskState>, owner: map<Obj, Task>, held: map<Task, seq<Obj>>) {
    m in owner && owner[m] in state && Live(state[owner[m]]) && owner[m] in held && m in held[owner[m]]
  }

  /** The wait-for edges: from a task pending on a mutex to the owner. */
  ghost function WaitFor(state: map<Task, TaskState>, blk: map<Task, Obj>, objs: map<Obj, Object>,
      owner: map<Obj, Task>): map<Task, Task>
  {
    map t | t in state && Pending(state[t]) && t in blk && blk[t] in objs && objs[blk[t]].Mutex? &&
      blk[t] in owner :: owner[blk[t]]
  }

  /** The base priorities that count: those of live tasks. */
  ghost function Base(state: map<Task, TaskState>, bprio: map<Task, nat>): map<Task, nat> {
    map t | t in bprio && t in state && Live(state[t]) :: bprio[t]
  }

  /** The condition of a task that waits for event flags. */
  predicate Met(flags: Flags, want: Flags, all: bool) {
    if all then want <= flags else flags * want != {}
  }

  /** No task waits for something that is there. */
  ghost predicate NoLostWakeup(objs: map<Obj, Object>, waiters: map<Obj, seq<Task>>, pendFlags: map<Task, Flags>,
      pendAll: map<Task, bool>) {
    && objs.Keys == waiters.Keys
    && (forall o :: o in objs ==> NothingFor(objs[o], waiters[o], pendFlags, pendAll))
  }

  ghost predicate NothingFor(obj: Object, q: seq<Task>, pendFlags: map<Task, Flags>, pendAll: map<Task, bool>) {
    match obj
    case Gone => true
    case Mutex => true
    case Sem(count, _) => q != [] ==> count == 0
    case Event(flags) => forall t :: t in q ==> t in pendFlags && t in pendAll && !Met(flags, pendFlags[t], pendAll[t])
    case BufQueue(msgs, _, _) => q != [] ==> msgs == []
  }

  // ----- Ready rings -----

  lemma ReadyLeft(state: map<Task, TaskState>, prio: map<Task, nat>, list: seq<seq<Task>>, t: Task, s: TaskState)
    requires ReadyOk(state, prio, list) && t in state && state[t].Ready? && !s.Ready?
    ensures ReadyOk(state[t := s], prio, list[prio[t] := Remove(list[prio[t]], t)])
  {
    hide NoDup, Remove;
    RemoveMembers(list[prio[t]], t);
  }

  lemma ReadyEntered(state: map<Task, TaskState>, prio: map<Task, nat>, list: seq<seq<Task>>, t: Task, ring: seq<Task>)
    requires ReadyOk(state, prio, list) && (t in state ==> !state[t].Ready?) && t in prio && prio[t] < PRI_MAX
    requires ring == list[prio[t]] + [t] || ring == [t] + list[prio[t]]
    ensures ReadyOk(state[t := Ready], prio, list[prio[t] := ring])
  {
    assert t !in list[prio[t]];
    NoDupAppend(list[prio[t]], t);
  }

  /** Tasks that are not ready do not show on the rings. */
  lemma ReadyAside(state: map<Task, TaskState>, prio: map<Task, nat>, list: seq<seq<Task>>, t: Task, s: TaskState,
      p: nat)
    requires ReadyOk(state, prio, list) && (t in state ==> !state[t].Ready?) && !s.Ready?
    ensures ReadyOk(state[t := s], prio[t := p], list)
  {
  }

  /** A ready task changes priority: off one ring and onto another. */
  lemma ReadyMoved(state: map<Task, TaskState>, prio: map<Task, nat>, list: seq<seq<Task>>, t: Task, p: nat,
      ring: seq<Task>)
    requires ReadyOk(state, prio, list) && t in state && state[t].Ready? && p < PRI_MAX && p != prio[t]
    requires ring == list[p] + [t] || ring == [t] + list[p]
    ensures ReadyOk(state, prio[t := p], list[prio[t] := Remove(list[prio[t]], t)][p := ring])
  {
    var off := state[t := Suspended];
    var list1 := list[prio[t] := Remove(list[prio[t]], t)];
    ReadyLeft(state, prio, list, t, Suspended);
    ReadyAside(off, prio, list1, t, Suspended, p);
    assert off[t := Suspended] == off;
    ReadyEntered(off, prio[t := p], list1, t, ring);
    assert off[t := Ready] == state;
  }

  // ----- Wait lists -----

  lemma WaitReordered(state: map<Task, TaskState>, blk: map<Task, Obj>, waiters: map<Obj, seq<Task>>, o: Obj,
      q: seq<Task>)
    requires WaitOk(state, blk, waiters) && o in waiters
    requires NoDup(q) && forall t :: t in q <==> t in waiters[o]
    ensures WaitOk(state, blk, waiters[o := q])
  {
  }

  lemma WaitLeft(state: map<Task, TaskState>, blk: map<Task, Obj>, waiters: map<Obj, seq<Task>>, t: Task, s: TaskState)
    requires WaitOk(state, blk, waiters) && t in state && Pending(state[t]) && !Pending(s)
    ensures WaitOk(state[t := s], blk, waiters[blk[t] := Remove(waiters[blk[t]], t)])
  {
    hide NoDup, Remove;
    RemoveMembers(waiters[blk[t]], t);
  }

  lemma WaitEntered(state: map<Task, TaskState>, blk: map<Task, Obj>, waiters: map<Obj, seq<Task>>, t: Task, o: Obj,
      q: seq<Task>)
    requires WaitOk(state, blk, waiters) && t in state && !Pending(state[t]) && o in waiters
    requires NoDup(q) && forall x :: x in q <==> x in waiters[o] || x == t
    ensures WaitOk(state[t := Pend], blk[t := o], waiters[o := q])
  {
  }

  /** A change of state that does not change whether the task is pending; the record of what a task is blocked
      on matters only while it is. */
  lemma WaitAside(state: map<Task, TaskState>, blk: map<Task, Obj>, blk': map<Task, Obj>, waiters: map<Obj, seq<Task>>,
      t: Task, s: TaskState)
    requires WaitOk(state, blk, waiters)
    requires Pending(s) <==> t in state && Pending(state[t])
    requires forall u :: u in state && Pending(state[u]) && u in blk ==> u in blk' && blk'[u] == blk[u]
    ensures WaitOk(state[t := s], blk', waiters)
  {
  }

  lemma SortedReordered(waiters: map<Obj, seq<Task>>, prio: map<Task, nat>, prio': map<Task, nat>, o: Obj, q: seq<Task>,
      t: Task)
    requires SortedOk(waiters, prio) && o in waiters
    requires forall x :: x in prio && x != t ==> x in prio' && prio'[x] == prio[x]
    requires forall o' :: o' in waiters && o' != o ==> t !in waiters[o']
    requires Sorted(q, prio')
    ensures SortedOk(waiters[o := q], prio')
  {
    forall o' | o' in waiters && o' != o
      ensures Sorted(waiters[o'], prio')
    {
      SortedAgrees(waiters[o'], prio, prio');
    }
  }

  lemma SortedLeft(waiters: map<Obj, seq<Task>>, prio: map<Task, nat>, o: Obj, t: Task)
    requires SortedOk(waiters, prio) && o in waiters && NoDup(waiters[o])
    ensures SortedOk(waiters[o := Remove(waiters[o], t)], prio)
  {
    RemoveSorted(waiters[o], t, prio);
  }

  /** The priority of a task on no wait list does not matter. */
  lemma SortedAside(waiters: map<Obj, seq<Task>>, prio: map<Task, nat>, t: Task, p: nat)
    requires SortedOk(waiters, prio) && forall o :: o in waiters ==> t !in waiters[o]
    ensures SortedOk(waiters, prio[t := p])
  {
    forall o | o in waiters
      ensures Sorted(waiters[o], prio[t := p])
    {
      SortedAgrees(waiters[o], prio, prio[t := p]);
    }
  }

  // ----- Ownership -----

  /** Waiters leave or change places. */
  lemma OwnShrunk(state: map<Task, TaskState>, objs: map<Obj, Object>, owner: map<Obj, Task>, held: map<Task, seq<Obj>>,
                  waiters: map<Obj, seq<Task>>, o: Obj, q: seq<Task>)
    requires OwnOk(state, objs, owner, held, waiters) && o in waiters
    requires forall t :: t in q ==> t in waiters[o]
    ensures OwnOk(state, objs, owner, held, waiters[o := q])
  {
    if q != [] {
      assert q[0] in waiters[o];
    }
  }

  lemma OwnSameQueues(state: map<Task, TaskState>, objs: map<Obj, Object>, owner: map<Obj, Task>,
      held: map<Task, seq<Obj>>,
                      waiters: map<Obj, seq<Task>>, waiters': map<Obj, seq<Task>>)
    requires OwnOk(state, objs, owner, held, waiters) && waiters'.Keys == waiters.Keys
    requires forall o, x :: o in waiters ==> (x in waiters'[o] <==> x in waiters[o])
    ensures OwnOk(state, objs, owner, held, waiters')
  {
    forall m | m in objs && objs[m].Mutex? && waiters'[m] != []
      ensures m in owner && owner[m] !in waiters'[m]
    {
      assert waiters'[m][0] in waiters[m];
    }
  }

  /** A live task changes to another live state. */
  lemma OwnStateChanged(state: map<Task, TaskState>, objs: map<Obj, Object>, owner: map<Obj, Task>,
      held: map<Task, seq<Obj>>,
                        waiters: map<Obj, seq<Task>>, t: Task, s: TaskState)
    requires OwnOk(state, objs, owner, held, waiters) && t in state && Live(state[t]) && Live(s)
    ensures OwnOk(state[t := s], objs, owner, held, waiters)
  {
  }

  /** The tasks that wait for `t` are the tasks queued for its mutexes. */
  lemma WaitersOfHeld(t: Task, state: map<Task, TaskState>, blk: map<Task, Obj>, objs: map<Obj, Object>,
      owner: map<Obj, Task>,
                      held: map<Task, seq<Obj>>, waiters: map<Obj, seq<Task>>)
    requires OwnOk(state, objs, owner, held, waiters) && WaitOk(state, blk, waiters)
    requires t in state && Live(state[t]) && t in held
    ensures forall u, m :: m in held[t] && u in waiters[m] ==>
      u in WaitFor(state, blk, objs, owner) && WaitFor(state, blk, objs, owner)[u] == t
    ensures forall u :: u in WaitFor(state, blk, objs, owner) && WaitFor(state, blk, objs, owner)[u] == t ==>
              blk[u] in held[t] && blk[u] in waiters && u in waiters[blk[u]]
  {
  }

  lemma WaitForIsGraph(state: map<Task, TaskState>, prio: map<Task, nat>, bprio: map<Task, nat>, blk: map<Task, Obj>,
      objs: map<Obj, Object>,
                       owner: map<Obj, Task>, held: map<Task, seq<Obj>>, waiters: map<Obj, seq<Task>>)
    requires OwnOk(state, objs, owner, held, waiters) && WaitOk(state, blk, waiters)
    requires prio.Keys == state.Keys && bprio.Keys == state.Keys
    ensures PI.Graph(prio, Base(state, bprio), WaitFor(state, blk, objs, owner))
  {
    var wf, base := WaitFor(state, blk, objs, owner), Base(state, bprio);
    forall u | u in wf
      ensures wf[u] in base && wf[u] != u
    {
      var m := blk[u];
      assert u in waiters[m];
      assert HasOwner(m, state, owner, held);
    }
  }

  /** The first waiter of `m`, if it has one, has priority `p`. */
  ghost predicate FirstWaiterAt(m: Obj, p: nat, waiters: map<Obj, seq<Task>>, prio: map<Task, nat>) {
    m in waiters && waiters[m] != [] && waiters[m][0] in prio && prio[waiters[m][0]] == p
  }

  /** `p` is the least of `b` and the priorities of the first waiters of the mutexes `ms`. */
  ghost predicate LeastOfHeads(p: nat, b: nat, ms: seq<Obj>, waiters: map<Obj, seq<Task>>, prio: map<Task, nat>) {
    && p <= b
    && (forall m, q :: m in ms && FirstWaiterAt(m, q, waiters, prio) ==> p <= q)
    && (p == b || exists m :: m in ms && FirstWaiterAt(m, p, waiters, prio))
  }

  /** Looking at first waiters only is enough, because wait lists are sorted. */
  lemma LeastOfHeadsIsMin(t: Task, p: nat, b: nat, ms: seq<Obj>, waiters: map<Obj, seq<Task>>, prio: map<Task, nat>,
      wf: map<Task, Task>)
    requires wf.Keys <= prio.Keys && SortedOk(waiters, prio)
    requires LeastOfHeads(p, b, ms, waiters, prio)
    requires forall u, m :: m in ms && m in waiters && u in waiters[m] ==> u in wf && wf[u] == t
    requires forall u :: u in wf && wf[u] == t ==> exists m :: m in ms && m in waiters && u in waiters[m]
    ensures PI.IsMin(p, b, t, wf, prio)
  {
    forall u | u in wf && wf[u] == t
      ensures p <= prio[u]
    {
      var m :| m in ms && m in waiters && u in waiters[m];
      HeadIsLeast(waiters[m], prio);
      assert FirstWaiterAt(m, prio[waiters[m][0]], waiters, prio);
    }
    if p != b {
      var m :| m in ms && FirstWaiterAt(m, p, waiters, prio);
      assert waiters[m][0] in waiters[m];
    }
  }

  function Without(ms: seq<Obj>, rel: Option<Obj>): (r: seq<Obj>) {
    if rel.Some? then Remove(ms, rel.value) else ms
  }

  /** The scan of `mutex_pri_look` over a mutex list. `pri` keeps the value of the last contended mutex. */
  method LookAndUnlink(list: seq<Obj>, rel: Option<Obj>, b: nat, waiters: map<Obj, seq<Task>>, prio: map<Task, nat>)
    returns (ms: seq<Obj>, p: nat)
    requires NoDup(list) && forall m :: m in list ==> m in waiters && (waiters[m] != [] ==> waiters[m][0] in prio)
    ensures ms == Without(list, rel) && LeastOfHeads(p, b, ms, waiters, prio)
  {
    hide Remove;
    if rel.Some? && rel.value !in list {
      RemoveAbsent(list, rel.value);
    }
    ms, p := list, b;
    var pri := p;
    var i := 0;
    while i < |ms|
      invariant i <= |ms| && NoDup(ms) && forall m :: m in ms ==> m in list
      invariant rel.Some? && rel.value in ms ==> ms == list && rel.value !in ms[..i]
      invariant rel.None? ==> ms == list
      invariant rel.Some? && rel.value !in ms ==> ms == Remove(list, rel.value)
      invariant p <= pri && LeastOfHeads(p, b, ms[..i], waiters, prio)
      decreases |ms| - i
    {
      if rel == Some(ms[i]) {
        ms := Unlink(ms, i);
        continue;
      }
      if waiters[ms[i]] != [] {
        pri := prio[waiters[ms[i]][0]];
      }
      ScannedMutex(ms, i, p, pri, b, waiters, prio);
      if p > pri {
        p := pri;
      }
      i := i + 1;
    }
    assert ms[..i] == ms;
  }

  /** `mutex_pri_limit`: the same scan, starting from a wanted priority and taking nothing off. */
  method MutexPriLimit(list: seq<Obj>, wanted: nat, waiters: map<Obj, seq<Task>>, prio: map<Task, nat>) returns (p: nat)
    requires forall m :: m in list ==> m in waiters && (waiters[m] != [] ==> waiters[m][0] in prio)
    ensures LeastOfHeads(p, wanted, list, waiters, prio)
  {
    p := wanted;
    var pri := wanted;
    for i := 0 to |list|
      invariant p <= pri && LeastOfHeads(p, wanted, list[..i], waiters, prio)
    {
      if waiters[list[i]] != [] {
        pri := prio[waiters[list[i]][0]];
      }
      ScannedMutex(list, i, p, pri, wanted, waiters, prio);
      if pri < p {
        p := pri;
      }
    }
    assert list[..|list|] == list;
  }

  lemma ScannedMutex(ms: seq<Obj>, i: nat, p: nat, pri: nat, b: nat, waiters: map<Obj, seq<Task>>, prio: map<Task, nat>)
    requires i < |ms| && LeastOfHeads(p, b, ms[..i], waiters, prio)
    requires if ms[i] in waiters && waiters[ms[i]] != [] then FirstWaiterAt(ms[i], pri, waiters, prio) else p <= pri
    ensures LeastOfHeads(if p > pri then pri else p, b, ms[..i + 1], waiters, prio)
  {
    assert ms[..i + 1] == ms[..i] + [ms[i]];
    if p > pri {
      assert ms[i] in ms[..i + 1];
    } else if p != b {
      var m :| m in ms[..i] && FirstWaiterAt(m, p, waiters, prio);
      assert m in ms[..i + 1];
    }
  }

  /** Takes the item at `i` out of a list. */
  method Unlink(ms: seq<Obj>, i: nat) returns (r: seq<Obj>)
    requires NoDup(ms) && i < |ms|
    ensures r == Remove(ms, ms[i]) && NoDup(r) && (forall x :: x in r <==> x in ms && x != ms[i])
    ensures |r| == |ms| - 1 && i <= |r| && r[..i] == ms[..i]
  {
    RemoveAt(ms, i);
    RemoveMembers(ms, ms[i]);
    r := ms[..i] + ms[i + 1..];
  }

  // ----- Wakeups -----

  lemma NothingForFewer(obj: Object, q: seq<Task>, q': seq<Task>, pendFlags: map<Task, Flags>, pendAll: map<Task, bool>)
    requires NothingFor(obj, q, pendFlags, pendAll)
    requires forall t :: t in q' ==> t in q
    ensures NothingFor(obj, q', pendFlags, pendAll)
  {
    if q' != [] {
      assert q'[0] in q;
    }
  }

  lemma NoLostShrunk(objs: map<Obj, Object>, waiters: map<Obj, seq<Task>>, pendFlags: map<Task, Flags>,
      pendAll: map<Task, bool>, o: Obj, q: seq<Task>)
    requires NoLostWakeup(objs, waiters, pendFlags, pendAll) && o in waiters
    requires forall t :: t in q ==> t in waiters[o]
    ensures NoLostWakeup(objs, waiters[o := q], pendFlags, pendAll)
  {
    NothingForFewer(objs[o], waiters[o], q, pendFlags, pendAll);
  }

  /** Clearing flags cannot meet a condition. */
  lemma ClearingMeetsNothing(flags: Flags, fewer: Flags, want: Flags, all: bool)
    requires !Met(flags, want, all) && fewer <= flags
    ensures !Met(fewer, want, all)
  {
    assert fewer * want <= flags * want;
  }
}
