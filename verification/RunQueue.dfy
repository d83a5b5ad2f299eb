/** The ready queue (`runqueue_t`): one ring of tasks per priority, a bitmap of the non-empty rings and
    the most urgent priority in use. A ring is the sequence of its tasks from `cur_list_item` on. */
module RunQueues {
  import opened Lists
  import opened KernelTypes

  /** The least index of a set bit: what the bitmap scan looks for. */
  ghost predicate IsFirstSet(bits: seq<bool>, i: nat) {
    i < |bits| && bits[i] && forall j :: 0 <= j < i ==> !bits[j]
  }

  class RunQueue {
    var list: seq<seq<Task>>
    var bitmap: seq<bool>
    var highest: nat

    ghost predicate Valid()
      reads this
    {
      && |list| == |bitmap| == PRI_MAX
      && (forall p :: 0 <= p < PRI_MAX ==> (bitmap[p] <==> list[p] != []))
      && (forall p :: 0 <= p < PRI_MAX && p < highest ==> list[p] == [])
      && (highest < PRI_MAX ==> list[highest] != [])
      && highest <= PRI_MAX
    }

    /** The queue of the started system: `runqueue_init`, then the idle task becomes ready. */
    constructor WithIdle(idle: Task)
      ensures Valid() && highest == IDLE_PRI && list[IDLE_PRI] == [idle]
      ensures forall p :: 0 <= p < IDLE_PRI ==> list[p] == []
    {
      list := seq(PRI_MAX, p => if p == IDLE_PRI then [idle] else []);
      bitmap := seq(PRI_MAX, p => p == IDLE_PRI);
      highest := IDLE_PRI;
    }

    method InitRing(t: Task, p: nat)
      requires Valid() && p < PRI_MAX && list[p] == []
      modifies this
      ensures Valid() && list == old(list)[p := [t]]
    {
      list := list[p := [t]];
      bitmap := bitmap[p := true];
      if p < highest {
        highest := p;
      }
    }

    method AddTail(t: Task, p: nat)
      requires Valid() && p < PRI_MAX
      modifies this
      ensures Valid() && list == old(list)[p := old(list[p]) + [t]]
    {
      if list[p] == [] {
        assert list[p] + [t] == [t];
        InitRing(t, p);
        return;
      }
      list := list[p := list[p] + [t]];
    }

    method AddHead(t: Task, p: nat)
      requires Valid() && p < PRI_MAX
      modifies this
      ensures Valid() && list == old(list)[p := [t] + old(list[p])]
    {
      if list[p] == [] {
        assert [t] + list[p] == [t];
        InitRing(t, p);
        return;
      }
      list := list[p := [t] + list[p]];
    }

    /** The scan over the bitmap words. */
    method BitmapFirst() returns (i: nat)
      requires exists p :: 0 <= p < |bitmap| && bitmap[p]
      ensures IsFirstSet(bitmap, i)
    {
      i := 0;
      while !bitmap[i]
        invariant i < |bitmap|
        invariant forall j :: 0 <= j < i ==> !bitmap[j]
        invariant exists p :: i <= p < |bitmap| && bitmap[p]
        decreases |bitmap| - i
      {
        i := i + 1;
      }
    }

    /** The caller guarantees that the queue does not run empty: the idle task is always on it. */
    method Rm(t: Task, p: nat, ghost idle: Task)
      requires Valid() && p < PRI_MAX && t in list[p]
      requires idle in list[IDLE_PRI] && idle != t
      modifies this
      ensures Valid() && list == old(list)[p := Remove(old(list[p]), t)]
    {
      RemoveLength(list[p], t);
      if |list[p]| > 1 {
        list := list[p := Remove(list[p], t)];
        return;
      }
      assert p != IDLE_PRI;
      list := list[p := []];
      bitmap := bitmap[p := false];
      if p != highest {
        return;
      }
      assert bitmap[IDLE_PRI];
      highest := BitmapFirst();
    }

    /** `ready_list_head_to_tail` */
    method HeadToTail(p: nat)
      requires Valid() && p < PRI_MAX && list[p] != []
      modifies this`list
      ensures Valid() && list == old(list)[p := Rotate(old(list[p]))]
    {
      list := list[p := list[p][1..] + [list[p][0]]];
    }

    /** `preferred_cpu_ready_task_get`: no ring of a more urgent priority holds a task. */
    method Preferred() returns (t: Task)
      requires Valid() && exists p :: 0 <= p < PRI_MAX && list[p] != []
      ensures highest < PRI_MAX && list[highest] != [] && t == list[highest][0]
      ensures forall p, u :: 0 <= p < PRI_MAX && u in list[p] ==> highest <= p
    {
      t := list[highest][0];
    }
  }
}
