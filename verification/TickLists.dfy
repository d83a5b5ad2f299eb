/** Timeouts. The tick counter wraps around at 2^64; `now` and `due` are the same times counted without
    wrapping, and exist only in specifications. */
module TickLists {
  import opened KernelTypes
  import opened Lists
  import opened WaitLists

  /** Unsigned and signed 64-bit results. */
  function Unsigned(x: int): (r: nat) {
    x % TICK_RANGE
  }

  function Signed(x: int): (r: int) {
    if Unsigned(x) >= HALF_RANGE then Unsigned(x) - TICK_RANGE else Unsigned(x)
  }

  /** `tick_list_update` looks at the sign of `tick_match - g_tick_count`. */
  predicate Expired(match_: nat, count: nat) {
    Signed(match_ - count) <= 0
  }

  /** Differences of wrapped times are the differences of the times, as long as those are small. */
  lemma WrappedDifference(a: nat, b: nat)
    ensures -(HALF_RANGE as int) <= a - b < HALF_RANGE ==> Signed(Unsigned(a) - Unsigned(b)) == a - b
    ensures HALF_RANGE <= a - b < TICK_RANGE ==> Signed(Unsigned(a) - Unsigned(b)) == a - b - TICK_RANGE
    ensures 0 <= a - b < TICK_RANGE ==> Unsigned(Unsigned(a) - Unsigned(b)) == a - b
  {
    var qa, qb := a / TICK_RANGE, b / TICK_RANGE;
    assert a == qa * TICK_RANGE + Unsigned(a) && b == qb * TICK_RANGE + Unsigned(b);
    assert -1 <= qa - qb <= 1 || a - b >= TICK_RANGE || a - b <= -(TICK_RANGE as int);
  }

  lemma WrappedSum(now: nat, t: nat)
    ensures Unsigned(Unsigned(now) + t) == Unsigned(now + t)
  {
    var q := now / TICK_RANGE;
    assert now + t == Unsigned(now) + t + q * TICK_RANGE;
    ModPlusMultiple(Unsigned(now) + t, q);
  }

  lemma {:induction false} ModPlusMultiple(x: nat, q: nat)
    ensures (x + q * TICK_RANGE) % TICK_RANGE == x % TICK_RANGE
  {
    if q > 0 {
      ModPlusMultiple(x, q - 1);
      assert x + q * TICK_RANGE == (x + (q - 1) * TICK_RANGE) + TICK_RANGE;
    }
  }

  /** A timeout of `t` ticks set at `now` fires on the `t`-th tick and on no earlier one, across any number of
      counter wraps, exactly when `t` is at most half the range of the counter. */
  lemma FiresOnTimeIffWithinHalfRange(now: nat, t: nat)
    requires 0 < t < TICK_RANGE
    ensures t <= HALF_RANGE <==>
              && Expired(Unsigned(now + t), Unsigned(now + t))
              && forall k :: now < k < now + t ==> !Expired(Unsigned(now + t), Unsigned(k))
  {
    WrappedDifference(now + t, now + t);
    if t <= HALF_RANGE {
      forall k | now < k < now + t
        ensures !Expired(Unsigned(now + t), Unsigned(k))
      {
        WrappedDifference(now + t, k);
      }
    } else {
      WrappedDifference(now + t, now + 1);
      assert Expired(Unsigned(now + t), Unsigned(now + 1));
    }
  }

  /** So a task that asks to sleep for `RHINO_WAIT_FOREVER` ticks is released by the very next one. */
  lemma SleepForeverEndsAtOnce(now: nat)
    ensures Expired(Unsigned(now + WAIT_FOREVER), Unsigned(now + 1))
  {
    WrappedDifference(now + WAIT_FOREVER, now + 1);
  }

  /** The tick list is sorted by due time, and every entry is due later than `lo` and within the range
      of the counter. */
  ghost predicate TickList(head: seq<Task>, due: map<Task, nat>, tickMatch: map<Task, nat>, lo: nat, now: nat) {
    && NoDup(head)
    && Sorted(head, due)
    && (forall t :: t in head ==>
       t in due && t in tickMatch && tickMatch[t] == Unsigned(due[t]) && lo < due[t] < now + TICK_RANGE)
  }

  lemma RemainingTicks(head: seq<Task>, due: map<Task, nat>, tickMatch: map<Task, nat>, now: nat, count: nat, i: nat)
    requires TickList(head, due, tickMatch, now, now) && count == Unsigned(now) && i < |head|
    ensures Unsigned(tickMatch[head[i]] - count) == due[head[i]] - now
  {
    assert head[i] in head;
    WrappedDifference(due[head[i]], now);
  }

  /** `tick_list_pri_insert` compares remaining times modulo the counter range; that is sorting by due time. */
  method TickListPriInsert(head: seq<Task>, tickMatch: map<Task, nat>, count: nat, t: Task, val: nat,
                           ghost due: map<Task, nat>, ghost now: nat) returns (r: seq<Task>)
    requires TickList(head, due, tickMatch, now, now) && count == Unsigned(now)
    requires t in due && due[t] == now + val && 0 < val < TICK_RANGE
    ensures r == Enqueue(head, t, due)
  {
    hide Unsigned, Enqueue;
    var i := 0;
    assert head[..0] + Enqueue(head, t, due) == Enqueue(head, t, due) && head[0..] == head;
    while i < |head|
      invariant Scanned(head, t, due, i)
      invariant i < |head| ==> head[i] in head
    {
      var remain := Unsigned(tickMatch[head[i]] - count);
      RemainingTicks(head, due, tickMatch, now, count, i);
      if remain > val {
        break;
      }
      ScanOn(head, t, due, i);
      i := i + 1;
    }
    ScanStops(head, t, due, i);
    r := head[..i] + [t] + head[i..];
  }

  lemma InsertedTickList(head: seq<Task>, due: map<Task, nat>, tickMatch: map<Task, nat>, now: nat, t: Task, val: nat)
    requires TickList(head, due, tickMatch, now, now) && t !in head && 0 < val < TICK_RANGE
    ensures var due' := due[t := now + val];
            && (forall x :: x in head ==> x in due' && due'[x] == due[x])
            && TickList(Enqueue(head, t, due'), due', tickMatch[t := Unsigned(now + val)], now, now)
            && (forall x :: x in Enqueue(head, t, due') <==> x in head || x == t)
  {
    var due' := due[t := now + val];
    SortedAgrees(head, due, due');
    EnqueueMembers(head, t, due');
    var k := EnqueueSorted(head, t, due');
  }

  lemma RemovedTickList(head: seq<Task>, due: map<Task, nat>, tickMatch: map<Task, nat>, lo: nat, now: nat, t: Task)
    requires TickList(head, due, tickMatch, lo, now)
    ensures TickList(Remove(head, t), due, tickMatch, lo, now)
    ensures forall x :: x in Remove(head, t) <==> x in head && x != t
  {
    RemoveMembers(head, t);
    RemoveSorted(head, t, due);
  }
}
