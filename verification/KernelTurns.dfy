/** Round robin: tasks of the same priority take turns, each for as many ticks as its slice has. */
module KernelTurns {
  import opened KernelTypes
  import opened Lists
  import opened RunQueues
  import opened TickLists
  import opened KernelState
  import opened KernelMoves
  import opened KernelSteps
  import opened Kernel

  /** Nobody is due within the next `n` ticks. */
  ghost predicate Quiet(head: seq<Task>, due: map<Task, nat>, now: nat, n: nat) {
    forall t :: t in head ==> t in due && now + n < due[t] <= now + HALF_RANGE
  }

  lemma FirstNotLater<T>(q: seq<T>, i: nat)
    requires NoDup(q) && 0 < i <= |q|
    ensures q[0] !in q[i..]
  {
  }

  lemma NobodyUp(v: View, v': View, run: Task, was: map<Task, nat>, slice: map<Task, nat>, total: map<Task, nat>,
      why: map<Task, BlkState>)
    requires Ticked(v, v', run, was, slice, total) && NoDup(v.tickHead) && Quiet(v.tickHead, v.due, v.now, 1)
    requires Kernel.AllFired(v.tickHead, v.state, v'.tickHead, v'.state, v.due, v.now + 1, why)
    ensures SliceTurn(v.(now := v.now + 1), v', run, was, slice, total)
  {
    hide SliceUsed, LastTick, TimeIsUp, Kernel.Fired;
    var v0, head := v.(now := v.now + 1), v.tickHead;
    var v1 :| TimesUp(v0, v1, run) && SliceTurn(v1, v', run, was, slice, total);
    var path :| TimesUpIn(v0, v1, run, path);
    var i := |head| - |v1.tickHead|;
    if head != [] {
      assert head[0] in head && !Kernel.Ripe(head, v.due, v.now + 1, head[0]);
      if i > 0 {
        FirstNotLater(head, i);
      }
    }
  }

  /** A tick at which no wait ends. */
  method QuietTick(k: Kernel)
    requires k.Valid() && Quiet(k.tickHead, k.due, k.now, 1)
    modifies k`tickCount, k`now, k`state, k`prio, k`waiters, k`tickHead, k`blkState, k`blkObj, k`timeSlice, k`active,
      k.rq
    ensures k.Valid() && k.now == old(k.now) + 1
    ensures SliceTurn(old(k.V()).(now := k.now), k.V(), old(k.active), old(k.timeSlice), k.timeSlice, k.timeTotal)
  {
    hide Kernel.Valid, Kernel.V, Kernel.AllFired, Ticked, SliceTurn, ToldTimes;
    ghost var v := k.V();
    Timers(k);
    Views(k);
    k.Tick();
    Views(k);
    NobodyUp(v, k.V(), old(k.active), old(k.timeSlice), k.timeSlice, k.timeTotal, k.blkState);
  }

  lemma Timers(k: Kernel)
    requires k.Valid()
    ensures NoDup(k.tickHead)
  {
    hide Kernel.V, Kernel.Sound, Owned, Inherits, NestedOk, HistoryOk, Kernel.Linked, NoDup;
    k.TicksHere(k.now);
  }

  lemma Views(k: Kernel)
    ensures k.V().tickHead == k.tickHead && k.V().due == k.due && k.V().now == k.now && k.V().state == k.state
    ensures k.V().prio == k.prio && k.V().list == k.rq.list
  {
  }

  // ----- Turns -----

  /** The ring after `m` turns. */
  function Turned<T>(q: seq<T>, m: nat): (r: seq<T>)
    requires q != []
    ensures |r| == |q| && r[0] == q[m % |q|]
  {
    q[m % |q|..] + q[..m % |q|]
  }

  lemma Times(d: int, n: nat)
    ensures (d >= 1 ==> d * n >= n) && (d <= -1 ==> d * n <= -1 * n)
  {
  }

  lemma Divides(m: nat, n: nat, q: nat, r: nat)
    requires n > 0 && m == q * n + r && r < n
    ensures m / n == q && m % n == r
  {
    var d: int := m / n - q;
    assert m == (m / n) * n + m % n;
    assert d * n == r - m % n;
    Times(d, n);
  }

  lemma NextTick(c: nat, s: nat)
    requires s > 0
    ensures if c % s == s - 1 then (c + 1) / s == c / s + 1 && (c + 1) % s == 0
            else (c + 1) / s == c / s && (c + 1) % s == c % s + 1
  {
    if c % s == s - 1 {
      Divides(c + 1, s, c / s + 1, 0);
    } else {
      Divides(c + 1, s, c / s, c % s + 1);
    }
  }

  lemma TurnedNext<T>(q: seq<T>, m: nat)
    requires q != []
    ensures Rotate(Turned(q, m)) == Turned(q, m + 1) && (|q| == 1 ==> Turned(q, m) == Turned(q, m + 1))
  {
    var n, r := |q|, m % |q|;
    NextTick(m, n);
    var t := Turned(q, m);
    assert t[1..] == q[r + 1..] + q[..r];
    assert q[..r + 1] == q[..r] + [q[r]];
  }

  /** The ring has turned `m` times, and the running task has used `r` ticks of its slice. */
  ghost predicate TurnAt(ring: seq<Task>, s: nat, m: nat, r: nat, p: nat, list: seq<seq<Task>>, run: Task,
      slice: map<Task, nat>, total: map<Task, nat>)
    requires ring != []
  {
    && p < |list| && list[p] == Turned(ring, m) && run == list[p][0] && r < s
    && (forall t :: t in ring ==> t in total && total[t] == s && t in slice)
    && (|ring| > 1 ==> forall t :: t in ring ==> slice[t] == if t == run then s - r else s)
  }

  /** `c` ticks into the rotation of `ring`, with slices of `s` ticks: the ring has turned once for each slice that is
      used up, and the slice of the running task is used up as far as it is under way. */
  ghost predicate InTurn(ring: seq<Task>, s: nat, c: nat, p: nat, list: seq<seq<Task>>, run: Task,
      slice: map<Task, nat>,
      total: map<Task, nat>)
    requires ring != [] && s > 0
  {
    TurnAt(ring, s, c / s, c % s, p, list, run, slice, total)
  }

  lemma TurnOver(ring: seq<Task>, s: nat, m: nat, p: nat, v: View, v': View, run: Task, was: map<Task, nat>,
      slice: map<Task, nat>, total: map<Task, nat>)
    requires |ring| > 1 && s > 0 && NoDup(ring) && TurnAt(ring, s, m, s - 1, p, v.list, run, was, total)
    requires run in v.prio && v.prio[run] == p && SliceTurn(v, v', run, was, slice, total)
    ensures p < |v'.list| && v'.list[p] != [] && TurnAt(ring, s, m + 1, 0, p, v'.list, v'.list[p][0], slice, total)
    ensures v' == v.(list := v'.list) && forall q :: 0 <= q < |v.list| && q != p ==> v'.list[q] == v.list[q]
  {
    TurnedNext(ring, m);
    InRing(ring, m);
    NextInRing(ring, m);
    hide Turned, Rotate, NoDup;
  }

  lemma TurnGoesOn(ring: seq<Task>, s: nat, m: nat, r: nat, p: nat, v: View, v': View, run: Task, was: map<Task, nat>,
      slice: map<Task, nat>, total: map<Task, nat>)
    requires |ring| > 1 && r + 1 < s && TurnAt(ring, s, m, r, p, v.list, run, was, total)
    requires run in v.prio && v.prio[run] == p && SliceTurn(v, v', run, was, slice, total)
    ensures v' == v && TurnAt(ring, s, m, r + 1, p, v.list, run, slice, total)
  {
    InRing(ring, m);
    hide Turned, Rotate;
  }

  lemma TurnAlone(ring: seq<Task>, s: nat, m: nat, r: nat, m': nat, r': nat, p: nat, v: View, v': View, run: Task,
      was: map<Task, nat>, slice: map<Task, nat>, total: map<Task, nat>)
    requires |ring| == 1 && TurnAt(ring, s, m, r, p, v.list, run, was, total) && r' < s && m' in {m, m + 1}
    requires run in v.prio && v.prio[run] == p && SliceTurn(v, v', run, was, slice, total)
    ensures v' == v && TurnAt(ring, s, m', r', p, v.list, run, slice, total)
  {
    TurnedNext(ring, m);
    hide Turned, Rotate;
  }

  lemma TurnTaken(ring: seq<Task>, s: nat, c: nat, p: nat, v: View, v': View, run: Task, was: map<Task, nat>,
      slice: map<Task, nat>, total: map<Task, nat>)
    requires ring != [] && s > 0 && NoDup(ring) && InTurn(ring, s, c, p, v.list, run, was, total)
    requires run in v.prio && v.prio[run] == p && SliceTurn(v, v', run, was, slice, total)
    ensures p < |v'.list| && v'.list[p] != [] && InTurn(ring, s, c + 1, p, v'.list, v'.list[p][0], slice, total)
    ensures v' == v.(list := v'.list) && forall q :: 0 <= q < |v.list| && q != p ==> v'.list[q] == v.list[q]
  {
    NextTick(c, s);
    TurnIsShort(ring, s, c / s, c % s, p, v.list, run, was, total);
    hide SliceTurn, TurnAt;
    if |ring| == 1 {
      TurnAlone(ring, s, c / s, c % s, (c + 1) / s, (c + 1) % s, p, v, v', run, was, slice, total);
    } else if c % s == s - 1 {
      TurnOver(ring, s, c / s, p, v, v', run, was, slice, total);
    } else {
      TurnGoesOn(ring, s, c / s, c % s, p, v, v', run, was, slice, total);
    }
  }

  lemma TurnIsShort(ring: seq<Task>, s: nat, m: nat, r: nat, p: nat, list: seq<seq<Task>>, run: Task,
      slice: map<Task, nat>, total: map<Task, nat>)
    requires ring != [] && TurnAt(ring, s, m, r, p, list, run, slice, total)
    ensures p < |list| && list[p] != [] && run == list[p][0]
  {
  }

  lemma InRing(ring: seq<Task>, m: nat)
    requires ring != []
    ensures Turned(ring, m)[0] in ring
  {
  }

  lemma NextInRing(ring: seq<Task>, m: nat)
    requires NoDup(ring) && |ring| > 1
    ensures Turned(ring, m + 1)[0] != Turned(ring, m)[0] && Turned(ring, m + 1)[0] in ring
  {
    NextTick(m, |ring|);
  }

  /** For `n` ticks at which no wait ends, the tasks of the most urgent ring take turns: each runs for its slice of `s`
      ticks, and the first one for what is left of it. */
  method TakeTurns(k: Kernel, n: nat, ghost s: nat) returns (who: seq<Task>)
    requires k.Valid() && k.schedLock == 0 && Quiet(k.tickHead, k.due, k.now, n) && s > 0
    requires k.rq.highest < |k.rq.list| && EqualSlices(k.rq.list[k.rq.highest], s, k.active, k.timeSlice, k.timeTotal)
    modifies k`tickCount, k`now, k`state, k`prio, k`waiters, k`tickHead, k`blkState, k`blkObj, k`timeSlice, k`active,
      k.rq
    ensures k.Valid() && k.now == old(k.now) + n && |who| == n
    ensures var ring, used := old(k.rq.list[k.rq.highest]), s - old(k.timeSlice[k.active]);
      ring != [] && (forall j :: 0 <= j < n ==> who[j] == ring[(j + used) / s % |ring|]) &&
      k.active == ring[(n + used) / s % |ring|]
  {
    hide Kernel.Valid, Kernel.V, SliceTurn, InTurn, Quiet, EqualSlices;
    ghost var ring, p, used, v := k.rq.list[k.rq.highest], k.rq.highest, s - SliceOf(k.active, s, k.timeSlice), k.V();
    Running(k);
    Views(k);
    StartTurns(ring, s, p, k.rq.list, k.active, k.timeSlice, k.timeTotal);
    who := [];
    for j := 0 to n
      invariant k.Valid() && k.now == old(k.now) + j && |who| == j && k.rq.highest == p < |k.rq.list|
      invariant k.V() == v.(now := k.now, list := k.rq.list) &&
        InTurn(ring, s, j + used, p, k.rq.list, k.active, k.timeSlice, k.timeTotal)
      invariant forall q :: 0 <= q < p ==> k.rq.list[q] == []
      invariant forall i :: 0 <= i < j ==> who[i] == ring[(i + used) / s % |ring|]
    {
      who := who + [k.active];
      Runs(ring, s, j + used, p, k.rq.list, k.active, k.timeSlice, k.timeTotal);
      StillQuiet(v.tickHead, v.due, old(k.now), j, n);
      Running(k);
      Views(k);
      ghost var v1, run, slice := k.V(), k.active, k.timeSlice;
      QuietTick(k);
      TurnTaken(ring, s, j + used, p, v1.(now := k.now), k.V(), run, slice, k.timeSlice, k.timeTotal);
      Views(k);
      SameRing(k, p);
    }
    Runs(ring, s, n + used, p, k.rq.list, k.active, k.timeSlice, k.timeTotal);
  }

  /** All have slices of `s` ticks, and only the running task has used up some of its own. */
  ghost predicate EqualSlices(ring: seq<Task>, s: nat, run: Task, slice: map<Task, nat>, total: map<Task, nat>) {
    && run in slice && 1 <= slice[run] <= s
    && forall t :: t in ring ==> t in total && total[t] == s && t in slice && (t != run ==> slice[t] == s)
  }

  ghost function SliceOf(t: Task, s: nat, slice: map<Task, nat>): (n: nat)
  {
    if t in slice && slice[t] <= s then slice[t] else s
  }

  lemma Running(k: Kernel)
    requires k.Valid() && k.schedLock == 0
    ensures k.rq.highest < |k.rq.list| && k.rq.list[k.rq.highest] != [] && k.active == k.rq.list[k.rq.highest][0]
    ensures forall q :: 0 <= q < k.rq.highest ==> k.rq.list[q] == []
    ensures NoDup(k.rq.list[k.rq.highest]) && k.active in k.prio && k.prio[k.active] == k.rq.highest
  {
    hide TcbOk, WaitOk, SortedOk, TimedOk, TickList, NoLostWakeup, Owned, Inherits, NestedOk, HistoryOk, Kernel.Linked,
      NoDup;
    assert k.active in k.rq.list[k.rq.highest];
  }

  lemma StartTurns(ring: seq<Task>, s: nat, p: nat, list: seq<seq<Task>>, run: Task, slice: map<Task, nat>,
      total: map<Task, nat>)
    requires ring != [] && s > 0 && p < |list| && list[p] == ring && run == ring[0] &&
      EqualSlices(ring, s, run, slice, total)
    ensures SliceOf(run, s, slice) == slice[run] && InTurn(ring, s, s - slice[run], p, list, run, slice, total)
  {
    Divides(s - slice[run], s, 0, s - slice[run]);
    Divides(0, |ring|, 0, 0);
  }

  lemma Runs(ring: seq<Task>, s: nat, c: nat, p: nat, list: seq<seq<Task>>, run: Task, slice: map<Task, nat>,
      total: map<Task, nat>)
    requires ring != [] && s > 0 && InTurn(ring, s, c, p, list, run, slice, total)
    ensures run == ring[c / s % |ring|]
  {
    hide Turned;
  }

  lemma StillQuiet(head: seq<Task>, due: map<Task, nat>, now: nat, j: nat, n: nat)
    requires Quiet(head, due, now, n) && j < n
    ensures Quiet(head, due, now + j, 1)
  {
  }

  /** The most urgent ring is still the most urgent one. */
  lemma SameRing(k: Kernel, p: nat)
    requires k.Valid() && k.schedLock == 0 && p < |k.rq.list| && k.rq.list[p] != [] && forall q :: 0 <= q < p ==>
      k.rq.list[q] == []
    ensures k.rq.highest == p && k.active == k.rq.list[p][0]
  {
    hide Queued, Owned, Inherits, NestedOk, HistoryOk, Kernel.Linked;
  }
}
