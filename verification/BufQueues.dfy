/** Buffer queues. The kernel sees the ring of a queue as the sequence of its messages, which takes `Used` of its
    `capacity` bytes; `Ring` is the same part of a queue on top of `RingBuffer`. */
module BufQueues {
  import opened KernelTypes
  import opened Lists
  import opened RunQueues
  import opened KernelState
  import opened KernelMoves
  import opened KernelSteps
  import opened Kernel
  import opened RingBuffers

  /** The result of a send that finds no receiver waiting. */
  function StoreResult(msgs: seq<Message>, capacity: nat, len: nat): Status {
    if len == 0 || len >= LEN_LIMIT then InvParam
    else if capacity < Used(msgs) + Needed(len) then QueueFull
    else if capacity < Used(msgs) + LEN_BYTES + len then Overrun
    else Success
  }

  class Ring {
    const ring: RingBuffer
    var curNum: nat

    ghost predicate Valid()
      reads this, ring, ring.buf
    {
      ring.Valid() && curNum == |ring.msgs|
    }

    constructor (buf: array<Byte>)
      ensures Valid() && ring.msgs == [] && ring.buf == buf && fresh(ring)
    {
      ring := new RingBuffer(buf);
      curNum := 0;
    }

    /** The part of `buf_queue_send` without a receiver, behind the test for the largest message. */
    method Post(m: Message) returns (r: Status)
      requires Valid()
      modifies this, ring, ring.buf
      ensures Valid() && r == StoreResult(old(ring.msgs), ring.buf.Length, |m|)
      ensures ring.msgs == if r == Success then old(ring.msgs) + [m] else old(ring.msgs)
    {
      if |m| == 0 {
        return InvParam;
      }
      var err := ring.Push(m);
      if err != RingOk {
        return if err == RingFull then QueueFull else if err == RingOverrun then Overrun else InvParam;
      }
      curNum := curNum + 1;
      return Success;
    }

    /** The part of `krhino_buf_queue_recv` that looks into the ring. */
    method Fetch() returns (r: Status, m: Message)
      requires Valid()
      modifies this, ring
      ensures Valid() && (r == Success <==> old(ring.msgs) != []) &&
        (r != Success ==> r == NoPendWait && ring.msgs == [])
      ensures r == Success ==> old(ring.msgs) == [m] + ring.msgs
    {
      if curNum == 0 {
        return NoPendWait, [];
      }
      m := ring.Pop();
      curNum := curNum - 1;
      return Success, m;
    }
  }

  /** `buf_queue_create` */
  method BufQueueCreate(k: Kernel, o: Obj, size: nat, maxMsg: nat) returns (r: Status)
    requires k.Valid() && (o in k.objs ==> k.objs[o].Gone? && o in k.waiters && k.waiters[o] == []) && o !in k.next
    modifies k`objs, k`waiters, k`owner, k`sent, k`got
    ensures k.Valid() && (r == InvParam <==> maxMsg == 0) && (r == SizeZero <==> maxMsg > 0 && size == 0)
    ensures r in {InvParam, SizeZero} ==> k.V() == old(k.V()) && k.sent == old(k.sent) && k.got == old(k.got)
    ensures r !in {InvParam, SizeZero} ==> r == Success && k.objs == old(k.objs)[o := BufQueue([], size, maxMsg)]
    ensures r == Success ==> k.waiters == old(k.waiters)[o := []] && k.owner == old(k.owner) - {o}
    ensures r == Success ==> k.sent == old(k.sent)[o := []] && k.got == old(k.got)[o := []]
    ensures k.V() == old(k.V()).(objs := k.objs, waiters := k.waiters, owner := k.owner)
  {
    hide Kernel.V, Kernel.Sound, Kernel.Linked, Queued, Owned, Inherits, HistoryOk, NestedOk, RunQueue.Valid;
    k.ViewHere();
    k.ObjectsHere();
    if maxMsg == 0 {
      return InvParam;
    }
    if size == 0 {
      return SizeZero;
    }
    k.CreateObject(o, BufQueue([], size, maxMsg));
    return Success;
  }

  /** `krhino_buf_queue_del` */
  method BufQueueDel(k: Kernel, o: Obj) returns (r: Status)
    requires k.Valid() && o in k.objs
    modifies k`objs, k`state, k`waiters, k`tickHead, k`blkState, k`blkObj, k`active, k.rq
    ensures k.Valid() && (r == TypeErr <==> !old(k.objs[o].BufQueue?)) && (r != TypeErr ==> r == Success)
    ensures r == TypeErr ==> k.V() == old(k.V()) && k.blkState == old(k.blkState)
    ensures r == Success ==> k.objs == old(k.objs)[o := Gone] && o in old(k.waiters)
    ensures r == Success ==>
      ObjectGone(old(k.V()), k.V(), o) && WentOn(old(k.waiters[o]), old(k.state), k.state) &&
      k.blkState == Told(old(k.blkState), old(k.waiters[o]), BlkDel)
    ensures k.schedLock > 0 ==> k.active == old(k.active)
    ensures r == TypeErr ==> k.active == old(k.active)
  {
    hide Kernel.V, Kernel.Sound, Kernel.Linked, Queued, Owned, Inherits, HistoryOk, NestedOk, RunQueue.Valid,
      ObjectGone, WentOn, Told;
    if !k.objs[o].BufQueue? {
      return TypeErr;
    }
    k.QueueHere(o, k.now);
    k.DeleteObject(o);
    return Success;
  }

  method Enqueue(k: Kernel, o: Obj, m: Message)
    requires k.Valid() && o in k.objs && k.objs[o].BufQueue? && o in k.waiters && k.waiters[o] == []
    modifies k`objs, k`sent
    ensures k.Valid() && o in old(k.sent) && k.sent == old(k.sent)[o := old(k.sent[o]) + [m]]
    ensures k.objs == old(k.objs)[o := old(k.objs[o]).(msgs := old(k.objs[o].msgs) + [m])]
    ensures k.V() == old(k.V()).(objs := k.objs)
  {
    hide Kernel.V, Kernel.Sound, Kernel.Linked, Queued, Owned, Inherits, RunQueue.Valid;
    k.SetObject(o, k.objs[o].(msgs := k.objs[o].msgs + [m]));
    k.sent := k.sent[o := k.sent[o] + [m]];
  }

  method Dequeue(k: Kernel, o: Obj) returns (m: Message)
    requires k.Valid() && o in k.objs && k.objs[o].BufQueue? && k.objs[o].msgs != []
    modifies k`objs, k`got
    ensures k.Valid() && Received(o, m, old(k.objs), old(k.got), k.objs, k.got)
    ensures k.V() == old(k.V()).(objs := k.objs)
  {
    hide Kernel.V, Kernel.Sound, Kernel.Linked, Queued, Owned, Inherits, RunQueue.Valid;
    k.NobodyWaits(o);
    var msgs := k.objs[o].msgs;
    m := msgs[0];
    assert msgs == [m] + msgs[1..];
    k.SetObject(o, k.objs[o].(msgs := msgs[1..]));
    k.got := k.got[o := k.got[o] + [m]];
  }

  /** The message goes straight to the most urgent receiver. */
  method HandOut(k: Kernel, o: Obj, m: Message)
    requires k.Valid() && o in k.objs && k.objs[o].BufQueue? && o in k.waiters && k.waiters[o] != []
    modifies k`msg, k`state, k`waiters, k`tickHead, k`blkState, k`blkObj, k`active, k`sent, k`got, k.rq
    ensures k.Valid() && o in old(k.sent) && o in old(k.got)
    ensures k.sent == old(k.sent)[o := old(k.sent[o]) + [m]] && k.got == old(k.got)[o := old(k.got[o]) + [m]]
    ensures k.msg == old(k.msg)[old(k.waiters[o][0]) := m] && old(k.waiters[o][0]) in old(k.state)
    ensures k.state == old(k.state)[old(k.waiters[o][0]) := Resumed(old(k.state[k.waiters[o][0]]))]
    ensures k.schedLock > 0 ==> k.active == old(k.active)
    ensures HandedOut(old(k.waiters[o]), m, old(k.V()), k.V(), old(k.state), k.state, old(k.blkState), k.blkState,
      old(k.msg), k.msg)
  {
    hide Kernel.Valid, Kernel.V, AllWoken, WentOn, Told;
    Deliver(k, o, k.waiters[o][0], m);
    k.WakeOne(o);
  }

  /** The first of `q` goes on with the message. */
  ghost predicate HandedOut(q: seq<Task>, m: Message, v: View, v': View, state0: map<Task, TaskState>,
      state: map<Task, TaskState>, why0: map<Task, BlkState>, why: map<Task, BlkState>, msg0: map<Task, Message>,
      msg: map<Task, Message>) {
    && q != [] && v' == AllWoken(v, [q[0]]) && WentOn([q[0]], state0, state)
    && why == Told(why0, [q[0]], BlkFinish) && msg == msg0[q[0] := m]
  }

  method Deliver(k: Kernel, o: Obj, t: Task, m: Message)
    requires k.Valid() && o in k.objs && k.objs[o].BufQueue? && o in k.waiters && k.waiters[o] != []
    modifies k`msg, k`sent, k`got
    ensures k.Valid() && o in old(k.sent) && o in old(k.got) && k.msg == old(k.msg)[t := m]
    ensures k.sent == old(k.sent)[o := old(k.sent[o]) + [m]] && k.got == old(k.got)[o := old(k.got[o]) + [m]]
    ensures k.V() == old(k.V())
  {
    hide Kernel.V, Kernel.Sound, Kernel.Linked, Owned, Inherits, NestedOk, HistoryOk, RunQueue.Valid;
    k.NobodyWaits(o);
    PassedThrough(k.objs, k.sent, k.got, o, m);
    Note(k, o, t, m);
  }

  lemma PassedThrough(objs: map<Obj, Object>, sent: map<Obj, seq<Message>>, got: map<Obj, seq<Message>>, o: Obj,
      m: Message)
    requires HistoryOk(objs, sent, got) && o in objs && objs[o].BufQueue? && objs[o].msgs == []
    ensures o in sent && o in got && HistoryOk(objs, sent[o := sent[o] + [m]], got[o := got[o] + [m]])
  {
  }

  method Note(k: Kernel, o: Obj, t: Task, m: Message)
    requires o in k.sent && o in k.got
    modifies k`msg, k`sent, k`got
    ensures k.msg == old(k.msg)[t := m]
    ensures k.sent == old(k.sent)[o := old(k.sent[o]) + [m]] && k.got == old(k.got)[o := old(k.got[o]) + [m]]
  {
    k.msg := k.msg[t := m];
    k.sent := k.sent[o := k.sent[o] + [m]];
    k.got := k.got[o := k.got[o] + [m]];
  }

  /** `buf_queue_send` */
  method Send(k: Kernel, o: Obj, m: Message) returns (r: Status)
    requires k.Valid() && o in k.objs
    modifies k`objs, k`msg, k`state, k`waiters, k`tickHead, k`blkState, k`blkObj, k`active, k`sent, k`got, k.rq
    ensures k.Valid() && o in old(k.waiters)
    ensures r == TypeErr <==> !old(k.objs[o].BufQueue?)
    ensures r == MsgTooLong <==> old(k.objs[o].BufQueue?) && |m| > old(k.objs[o].maxMsg)
    ensures old(k.objs[o].BufQueue?) && |m| <= old(k.objs[o].maxMsg) ==>
              r == if old(k.waiters[o]) == [] then StoreResult(old(k.objs[o].msgs), old(k.objs[o].capacity), |m|)
              else if |m| == 0 then InvParam else Success
    ensures r != Success ==> k.V() == old(k.V()) && k.sent == old(k.sent) && k.got == old(k.got)
    ensures r != Success || old(k.waiters[o]) == [] ==> k.blkState == old(k.blkState) && k.msg == old(k.msg)
    ensures r == Success ==> o in old(k.sent) && k.sent == old(k.sent)[o := old(k.sent[o]) + [m]]
    ensures r == Success && old(k.waiters[o]) == [] ==>
      k.V() == old(k.V()).(objs := k.objs) && k.got == old(k.got) &&
      k.objs == old(k.objs)[o := old(k.objs[o]).(msgs := old(k.objs[o].msgs) + [m])]
    ensures r == Success && old(k.waiters[o]) != [] ==>
      k.objs == old(k.objs) && o in old(k.got) && k.got == old(k.got)[o := old(k.got[o]) + [m]] &&
      HandedOut(old(k.waiters[o]), m, old(k.V()), k.V(), old(k.state), k.state, old(k.blkState), k.blkState,
        old(k.msg), k.msg)
    ensures k.schedLock > 0 ==> k.active == old(k.active)
    ensures r != Success || old(k.waiters[o]) == [] ==> k.active == old(k.active)
  {
    hide Kernel.V, Kernel.Sound, Kernel.Linked, Queued, Owned, Inherits, HistoryOk, NestedOk, RunQueue.Valid, Used,
      HandedOut;
    k.QueueHere(o, k.now);
    if !k.objs[o].BufQueue? {
      return TypeErr;
    }
    if |m| > k.objs[o].maxMsg {
      return MsgTooLong;
    }
    if |m| == 0 {
      return InvParam;
    }
    if k.waiters[o] != [] {
      HandOut(k, o, m);
      return Success;
    }
    r := StoreResult(k.objs[o].msgs, k.objs[o].capacity, |m|);
    if r == Success {
      Enqueue(k, o, m);
    }
  }

  /** The oldest message left the queue. */
  ghost predicate Received(o: Obj, m: Message, objs0: map<Obj, Object>, got0: map<Obj, seq<Message>>,
      objs: map<Obj, Object>, got: map<Obj, seq<Message>>) {
    && o in objs0 && objs0[o].BufQueue? && objs0[o].msgs != [] && m == objs0[o].msgs[0] && o in got0
    && got == got0[o := got0[o] + [m]] && objs == objs0[o := objs0[o].(msgs := objs0[o].msgs[1..])]
  }

  /** `krhino_buf_queue_recv` */
  method Recv(k: Kernel, o: Obj, ticks: nat) returns (r: Status, m: Message)
    requires k.Valid() && o in k.objs && k.active != k.idle && (ticks == 0 || Kernel.TicksOk(ticks))
    modifies k`objs, k`got, k`state, k`blkObj, k`waiters, k`tickHead, k`tickMatch, k`due, k`active, k.rq
    ensures k.Valid()
    ensures r == TypeErr <==> !old(k.objs[o].BufQueue?)
    ensures r == Success <==> old(k.objs[o].BufQueue? && k.objs[o].msgs != [])
    ensures r == Success ==>
      Received(o, m, old(k.objs), old(k.got), k.objs, k.got) && k.sent == old(k.sent) && k.state == old(k.state) &&
      k.V() == old(k.V()).(objs := k.objs)
    ensures r == Blocked ==> Entered(old(k.V()), k.V(), old(k.active), o, ticks)
    ensures r == NoPendWait <==> old(k.objs[o].BufQueue? && k.objs[o].msgs == []) && ticks == 0
    ensures r == SchedDisabled <==> old(k.objs[o].BufQueue? && k.objs[o].msgs == [] && k.schedLock > 0) && ticks > 0
    ensures r in {TypeErr, NoPendWait, SchedDisabled} ==> k.V() == old(k.V())
    ensures r !in {TypeErr, NoPendWait, SchedDisabled, Success} ==> r == Blocked
    ensures r == Blocked ==>
      k.state == old(k.state)[old(k.active) := Pend] && k.blkObj == old(k.blkObj)[old(k.active) := o]
    ensures r != Success ==> k.objs == old(k.objs) && k.sent == old(k.sent) && k.got == old(k.got)
    ensures k.due == if r == Blocked then Kernel.DueAfter(old(k.due), old(k.active), ticks, k.now) else old(k.due)
    ensures r == Blocked ==> (old(k.active) in k.tickHead <==> ticks != WAIT_FOREVER)
    ensures k.schedLock > 0 ==> k.active == old(k.active)
    ensures r != Blocked ==> k.active == old(k.active)
    ensures r != Blocked ==> k.state == old(k.state)
  {
    hide Kernel.V, Kernel.Sound, Kernel.Linked, Queued, Owned, Inherits, HistoryOk, NestedOk, RunQueue.Valid, Entered;
    k.QueueHere(o, k.now);
    if !k.objs[o].BufQueue? {
      return TypeErr, [];
    }
    if k.objs[o].msgs != [] {
      m := Dequeue(k, o);
      return Success, m;
    }
    if ticks == 0 {
      return NoPendWait, [];
    }
    if k.schedLock > 0 {
      return SchedDisabled, [];
    }
    k.BlockOn(o, ticks);
    return Blocked, [];
  }
}
