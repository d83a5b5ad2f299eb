/** Sorted wait lists: `pend_list_add` for blocked tasks and `tick_list_pri_insert` for timeouts insert
    before the first item with a greater key, so equal keys keep their order of arrival. */
module WaitLists {
  import opened Lists
  import opened KernelTypes

  ghost predicate Sorted(q: seq<Task>, key: map<Task, nat>) {
    && (forall i :: 0 <= i < |q| ==> q[i] in key)
    && (forall i, j :: 0 <= i < j < |q| ==> key[q[i]] <= key[q[j]])
  }

  /** Where the insertion scan stops. */
  function Enqueue(q: seq<Task>, t: Task, key: map<Task, nat>): (r: seq<Task>)
    requires t in key && forall x :: x in q ==> x in key
  {
    if q == [] then [t]
    else if key[q[0]] > key[t] then [t] + q
    else [q[0]] + Enqueue(q[1..], t, key)
  }

  lemma {:induction false} EnqueueMembers(q: seq<Task>, t: Task, key: map<Task, nat>)
    requires t in key && (forall x :: x in q ==> x in key)
    requires NoDup(q) && t !in q
    ensures forall x :: x in Enqueue(q, t, key) <==> x in q || x == t
    ensures NoDup(Enqueue(q, t, key))
  {
    if q != [] {
      assert q == [q[0]] + q[1..];
      assert NoDup(q[1..]);
      if key[q[0]] <= key[t] {
        EnqueueMembers(q[1..], t, key);
        NoDupAppend(Enqueue(q[1..], t, key), q[0]);
      } else {
        NoDupAppend(q, t);
      }
    }
  }

  /** The scan stops at the first item with a greater key. */
  lemma {:induction false} EnqueueAt(q: seq<Task>, t: Task, key: map<Task, nat>) returns (k: nat)
    requires t in key && (forall x :: x in q ==> x in key)
    ensures k <= |q| && Enqueue(q, t, key) == q[..k] + [t] + q[k..]
    ensures forall i :: 0 <= i < k ==> key[q[i]] <= key[t]
    ensures k < |q| ==> key[q[k]] > key[t]
  {
    if q == [] || key[q[0]] > key[t] {
      k := 0;
      assert q[..0] + [t] + q == [t] + q;
    } else {
      var k' := EnqueueAt(q[1..], t, key);
      k := k' + 1;
      assert q[..k] == [q[0]] + q[1..][..k'];
      assert q[k..] == q[1..][k'..];
      assert [q[0]] + (q[1..][..k'] + [t] + q[1..][k'..]) == q[..k] + [t] + q[k..];
      assert forall i :: 0 < i < |q| ==> q[i] == q[1..][i - 1];
    }
  }

  /** Sorted again, and first come first served among equals: `t` lands behind exactly the items whose key
      is not greater, and those keep their places. */
  lemma EnqueueSorted(q: seq<Task>, t: Task, key: map<Task, nat>) returns (k: nat)
    requires t in key && Sorted(q, key)
    ensures k <= |q| && Enqueue(q, t, key) == q[..k] + [t] + q[k..]
    ensures forall i :: 0 <= i < |q| ==> (i < k <==> key[q[i]] <= key[t])
    ensures Sorted(Enqueue(q, t, key), key)
  {
    k := EnqueueAt(q, t, key);
  }

  lemma {:induction false} RemoveSorted(q: seq<Task>, t: Task, key: map<Task, nat>)
    requires NoDup(q) && Sorted(q, key)
    ensures Sorted(Remove(q, t), key)
  {
    if q != [] {
      if q[0] != t {
        RemoveSorted(q[1..], t, key);
        RemoveMembers(q[1..], t);
        var r := Remove(q[1..], t);
        forall j | 0 <= j < |r|
          ensures r[j] in key && key[q[0]] <= key[r[j]]
        {
          assert r[j] in q[1..];
        }
      }
    }
  }

  /** Only keys of listed tasks matter. */
  lemma SortedAgrees(q: seq<Task>, key: map<Task, nat>, key': map<Task, nat>)
    requires Sorted(q, key)
    requires forall x :: x in q ==> x in key' && key'[x] == key[x]
    ensures Sorted(q, key')
  {
  }

  /** The head of a sorted list has the least key. */
  lemma HeadIsLeast(q: seq<Task>, key: map<Task, nat>)
    requires Sorted(q, key) && q != []
    ensures forall x :: x in q ==> x in key && key[q[0]] <= key[x]
  {
  }

  /** The scan has passed the first `i` items. */
  ghost predicate Scanned(q: seq<Task>, t: Task, key: map<Task, nat>, i: nat) {
    && t in key && (forall x :: x in q ==> x in key)
    && i <= |q| && Enqueue(q, t, key) == q[..i] + Enqueue(q[i..], t, key)
  }

  lemma ScanOn(q: seq<Task>, t: Task, key: map<Task, nat>, i: nat)
    requires Scanned(q, t, key, i) && i < |q| && key[q[i]] <= key[t]
    ensures Scanned(q, t, key, i + 1)
  {
    assert q[i..][1..] == q[i + 1..];
    assert q[..i + 1] == q[..i] + [q[i]];
  }

  lemma ScanStops(q: seq<Task>, t: Task, key: map<Task, nat>, i: nat)
    requires Scanned(q, t, key, i) && (i < |q| ==> key[q[i]] > key[t])
    ensures Enqueue(q, t, key) == q[..i] + [t] + q[i..]
  {
    assert Enqueue(q[i..], t, key) == [t] + q[i..];
  }

  /** `pend_list_add`: the scan for the place of `t`. */
  method PendListAdd(q: seq<Task>, t: Task, prio: map<Task, nat>) returns (r: seq<Task>)
    requires t in prio && forall x :: x in q ==> x in prio
    ensures r == Enqueue(q, t, prio)
  {
    hide Enqueue;
    var i := 0;
    assert q[..0] + Enqueue(q, t, prio) == Enqueue(q, t, prio) && q[0..] == q;
    while i < |q|
      invariant Scanned(q, t, prio, i)
      invariant i < |q| ==> q[i] in q
    {
      if prio[q[i]] > prio[t] {
        break;
      }
      ScanOn(q, t, prio, i);
      i := i + 1;
    }
    ScanStops(q, t, prio, i);
    r := q[..i] + [t] + q[i..];
  }
}
