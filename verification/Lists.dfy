/** Queues of distinct items: the linked lists of the kernel (`klist_t`) as sequences. */
module Lists {

  ghost predicate NoDup<T>(q: seq<T>) {
    forall i, j :: 0 <= i < j < |q| ==> q[i] != q[j]
  }

  /** Unlinks the first occurrence of `x` (`klist_rm`). */
  function Remove<T(==)>(q: seq<T>, x: T): (r: seq<T>)
  {
    if q == [] then [] else if q[0] == x then q[1..] else [q[0]] + Remove(q[1..], x)
  }

  lemma {:induction false} RemoveMembers<T>(q: seq<T>, x: T)
    requires NoDup(q)
    ensures NoDup(Remove(q, x))
    ensures forall y :: y in Remove(q, x) <==> y in q && y != x
  {
    if q != [] {
      assert NoDup(q[1..]);
      assert q == [q[0]] + q[1..];
      if q[0] != x {
        RemoveMembers(q[1..], x);
        NoDupAppend(Remove(q[1..], x), q[0]);
      }
    }
  }

  lemma {:induction false} RemoveAbsent<T>(q: seq<T>, x: T)
    requires x !in q
    ensures Remove(q, x) == q
  {
    if q != [] {
      RemoveAbsent(q[1..], x);
    }
  }

  lemma {:induction false} RemoveLength<T>(q: seq<T>, x: T)
    requires x in q
    ensures |Remove(q, x)| == |q| - 1
  {
    if q[0] != x {
      RemoveLength(q[1..], x);
    }
  }

  /** The order of the remaining items does not change. */
  lemma {:induction false} RemoveAt<T>(q: seq<T>, k: nat)
    requires NoDup(q) && k < |q|
    ensures Remove(q, q[k]) == q[..k] + q[k + 1..]
  {
    if k > 0 {
      RemoveAt(q[1..], k - 1);
      assert q[1..][..k - 1] == q[1..k];
      assert q[1..][k..] == q[k + 1..];
      assert [q[0]] + q[1..k] == q[..k];
    }
  }

  lemma NoDupAppend<T>(q: seq<T>, x: T)
    requires NoDup(q) && x !in q
    ensures NoDup(q + [x]) && NoDup([x] + q)
    ensures forall y :: y in q + [x] <==> y in q || y == x
    ensures forall y :: y in [x] + q <==> y in q || y == x
  {
  }

  /** Moves the head to the tail (`ready_list_head_to_tail`). */
  function Rotate<T>(q: seq<T>): (r: seq<T>)
  {
    if q == [] then [] else q[1..] + [q[0]]
  }

  function RotateN<T>(q: seq<T>, n: nat): (r: seq<T>)
  {
    if n == 0 then q else Rotate(RotateN(q, n - 1))
  }

  lemma RotateMembers<T>(q: seq<T>)
    requires NoDup(q)
    ensures NoDup(Rotate(q)) && |Rotate(q)| == |q|
    ensures forall y :: y in Rotate(q) <==> y in q
  {
    if q != [] {
      assert q == [q[0]] + q[1..];
    }
  }

  /** Round robin: after `n` turns item `n` is in front, and a full round gives the list back. */
  lemma {:induction false} RotationVisitsAll<T>(q: seq<T>, n: nat)
    requires n <= |q|
    ensures RotateN(q, n) == q[n..] + q[..n]
    ensures n < |q| ==> RotateN(q, n)[0] == q[n]
    ensures n == |q| ==> RotateN(q, n) == q
  {
    if n > 0 {
      RotationVisitsAll(q, n - 1);
      var r := RotateN(q, n - 1);
      assert r[0] == q[n - 1];
      assert r[1..] == q[n..] + q[..n - 1];
      assert q[..n] == q[..n - 1] + [q[n - 1]];
    }
  }

  lemma FirstGone<T>(q: seq<T>, i: nat)
    requires NoDup(q) && i < |q|
    ensures Remove(q[i..], q[i]) == q[i + 1..] && q[..i + 1] == q[..i] + [q[i]] && q[i] !in q[..i]
  {
    RemoveAt(q[i..], 0);
  }
}
