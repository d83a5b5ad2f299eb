/** The inter-core link as a state machine: senders that share `tx_mutex` and four shared-memory blocks, a mailbox of
    one message, the dispatching task, a bounded queue per service, and service tasks that share `rx_mutex`. Every
    step is one atomic action of one task; any interleaving is a run. */
module Ipc {
  import opened IpcPackets
  import opened KernelTypes

  type Message = IpcPackets.Message

  const BLOCKS: nat := 4
  const QUEUE_MAX: nat := 10
  const SEQ_RANGE: nat := 0x1_0000_0000

  /** A message of the mailbox: the data stays in its block. */
  datatype Ref = Ref(block: nat, service: nat, flag: nat, command: nat, len: nat)

  /** A service task: waiting for a packet, holding one and waiting for `rx_mutex`, or holding `rx_mutex` in
      mid-message. */
  datatype Reader = Idle | Taken(p: Packet) | Collecting(c: Partial)

  datatype State = State(
    size: nat,
    ids: seq<nat>,
    sent: seq<Message>,
    out: seq<Packet>,
    seqNo: nat,
    blocks: seq<seq<Byte>>,
    filled: Option<Ref>,
    mailbox: Option<Ref>,
    got: Option<Ref>,
    hand: Option<Packet>,
    queues: seq<seq<Packet>>,
    readers: seq<Reader>,
    delivered: seq<seq<Message>>)

  datatype Step = Begin(m: Message) | Fill | Put | Get | Copy | Enqueue | Take(i: nat) | Lock(i: nat) | Collect(i: nat)

  // ----- The steps -----

  /** `find_service`: the first service with that number, or the length of the list. */
  function FindService(ids: seq<nat>, id: nat): (i: nat)
    ensures i <= |ids| && (i < |ids| ==> ids[i] == id) && forall j :: 0 <= j < i ==> ids[j] != id
  {
    if ids == [] || ids[0] == id then 0 else 1 + FindService(ids[1..], id)
  }

  function Slot(s: State): nat {
    s.seqNo % BLOCKS
  }

  predicate RxFree(s: State) {
    forall i :: 0 <= i < |s.readers| ==> !s.readers[i].Collecting?
  }

  predicate Sized(s: State) {
    |s.blocks| == BLOCKS && |s.queues| == |s.readers| == |s.delivered| == |s.ids|
  }

  function Load(blocks: seq<seq<Byte>>, r: Ref): Packet {
    Packet(r.service, r.flag, r.command, if r.block < |blocks| &&
      r.len <= |blocks[r.block]| then blocks[r.block][..r.len] else [])
  }

  /** A block after `bytes` were written at its start. */
  function Overwrite(block: seq<Byte>, bytes: seq<Byte>): seq<Byte> {
    bytes + if |bytes| <= |block| then block[|bytes|..] else []
  }

  predicate Enabled(s: State, step: Step)
    requires Sized(s)
  {
    match step
    case Begin(m) => s.out == [] && s.filled.None? && Sendable(m)
    case Fill => s.out != [] && s.filled.None?
    case Put => s.filled.Some? && s.mailbox.None?
    case Get => s.mailbox.Some? && s.got.None? && s.hand.None?
    case Copy => s.got.Some? && s.hand.None?
    case Enqueue => s.hand.Some? && var i := FindService(s.ids, s.hand.value.service);
      i < |s.ids| ==> |s.queues[i]| < QUEUE_MAX
    case Take(i) => i < |s.ids| && s.readers[i].Idle? && s.queues[i] != []
    case Lock(i) => i < |s.ids| && s.readers[i].Taken? && RxFree(s) && |s.readers[i].p.bytes| >= HEADER
    case Collect(i) => i < |s.ids| && s.readers[i].Collecting? && s.queues[i] != []
  }

  /** The task goes on with `c`: it delivers the message and unlocks `rx_mutex` if the message is complete. */
  function Resume(s: State, i: nat, c: Partial): (r: State)
    requires Sized(s) && i < |s.ids|
    ensures Sized(r) && r.size == s.size && r.ids == s.ids
  {
    if Done(c) then s.(readers := s.readers[i := Idle], delivered := s.delivered[i := s.delivered[i] + [c.m]])
    else s.(readers := s.readers[i := Collecting(c)])
  }

  function Apply(s: State, step: Step): (r: State)
    requires Sized(s) && s.size >= HEADER && Enabled(s, step)
    ensures Sized(r) && r.size == s.size && r.ids == s.ids
  {
    match step
    case Begin(m) => s.(sent := s.sent + [m], out := Fragments(m, s.size))
    case Fill =>
      var p := s.out[0];
      s.(out := s.out[1..], blocks := s.blocks[Slot(s) := Overwrite(s.blocks[Slot(s)], p.bytes)],
         filled := Some(Ref(Slot(s), p.service, p.flag, p.command, |p.bytes|)))
    case Put => s.(filled := None, mailbox := s.filled, seqNo := (s.seqNo + 1) % SEQ_RANGE)
    case Get => s.(mailbox := None, got := s.mailbox)
    case Copy => s.(got := None, hand := Some(Load(s.blocks, s.got.value)))
    case Enqueue =>
      var i := FindService(s.ids, s.hand.value.service);
      if i < |s.ids| then s.(hand := None, queues := s.queues[i := s.queues[i] + [s.hand.value]]) else s.(hand := None)
    case Take(i) => s.(queues := s.queues[i := s.queues[i][1..]], readers := s.readers[i := Taken(s.queues[i][0])])
    case Lock(i) => Resume(s, i, Open(s.readers[i].p))
    case Collect(i) => Resume(s.(queues := s.queues[i := s.queues[i][1..]]), i, Gather(s.readers[i].c, s.queues[i][0]))
  }

  function Init(ids: seq<nat>, size: nat): State {
    State(size, ids, [], [], 1, seq(BLOCKS, k => seq(size, j => 0)), None, None, None, None,
          seq(|ids|, k => []), seq(|ids|, k => Idle), seq(|ids|, k => []))
  }

  // ----- What was meant for whom -----

  function IfFor(m: Message, id: nat): seq<Message> {
    if m.service == id then [m] else []
  }

  function SentTo(ms: seq<Message>, id: nat): seq<Message> {
    if ms == [] then [] else IfFor(ms[0], id) + SentTo(ms[1..], id)
  }

  function Stream(ms: seq<Message>, size: nat): seq<Packet>
    requires size >= HEADER
  {
    if ms == [] then [] else Fragments(ms[0], size) + Stream(ms[1..], size)
  }

  lemma {:induction false} SentToAppend(ms: seq<Message>, m: Message, id: nat)
    ensures SentTo(ms + [m], id) == SentTo(ms, id) + IfFor(m, id)
  {
    hide IfFor;
    if ms == [] {
      assert ms + [m] == [m] && [m][1..] == [];
    } else {
      assert (ms + [m])[1..] == ms[1..] + [m];
      SentToAppend(ms[1..], m, id);
    }
  }

  lemma {:induction false} StreamAppend(ms: seq<Message>, m: Message, size: nat)
    requires size >= HEADER
    ensures Stream(ms + [m], size) == Stream(ms, size) + Fragments(m, size)
  {
    hide Fragments;
    if ms == [] {
      assert [m][1..] == [] && ms + [m] == [m];
    } else {
      assert (ms + [m])[1..] == ms[1..] + [m];
      StreamAppend(ms[1..], m, size);
    }
  }

  // ----- The invariant -----

  function Listed<T>(o: Option<T>): seq<T> {
    if o.None? then [] else [o.value]
  }

  function Loaded(blocks: seq<seq<Byte>>, o: Option<Ref>): seq<Packet> {
    if o.None? then [] else [Load(blocks, o.value)]
  }

  /** The packets between the sender and the queues, the oldest first. */
  function Way(s: State): seq<Packet> {
    Listed(s.hand) + (Loaded(s.blocks, s.got) + (Loaded(s.blocks, s.mailbox) + (Loaded(s.blocks, s.filled) + s.out)))
  }

  function Back(slot: nat): nat {
    (slot + BLOCKS - 1) % BLOCKS
  }

  predicate At(o: Option<Ref>, block: nat, size: nat) {
    o.Some? ==> o.value.block == block && o.value.len <= size
  }

  /** The blocks in use are the ones just behind the one that is filled next: what is not read yet is
      not overwritten. */
  predicate MemoryOk(s: State) {
    && s.seqNo < SEQ_RANGE
    && (forall b :: 0 <= b < |s.blocks| ==> |s.blocks[b]| == s.size)
    && At(s.filled, Slot(s), s.size)
    && At(s.mailbox, Back(Slot(s)), s.size)
    && At(s.got, if s.mailbox.Some? then Back(Back(Slot(s))) else Back(Slot(s)), s.size)
    && (forall p :: p in s.out ==> |p.bytes| <= s.size)
  }

  /** A service task and the packets `rest` that it is still going to see: they make up the messages `ms`. */
  predicate ReaderOk(r: Reader, rest: seq<Packet>, ms: seq<Message>, size: nat)
    requires size >= HEADER
  {
    match r
    case Idle => rest == Stream(ms, size)
    case Taken(p) => [p] + rest == Stream(ms, size)
    case Collecting(c) =>
      && ms != [] && PartOf(c, ms[0], |c.m.data|) && c.left > 0
      && rest == Chunks(ms[0], ms[0].data[|c.m.data|..], size) + Stream(ms[1..], size)
  }

  /** What the packets on their way belong to: the rest of a message for service `to`, then the messages `later`. The
      messages in `begun` are the ones that each service has seen a part of, but not delivered. */
  datatype Plan = Plan(tail: seq<Packet>, to: nat, later: seq<Message>, begun: seq<seq<Message>>)

  function Due(g: Plan, id: nat): seq<Packet> {
    if id == g.to then g.tail else []
  }

  predicate AllSendable(ms: seq<Message>) {
    forall m :: m in ms ==> Sendable(m)
  }

  predicate ServiceOk(s: State, g: Plan, i: nat)
    requires Sized(s) && s.size >= HEADER && |g.begun| == |s.ids| && i < |s.ids|
  {
    && SentTo(s.sent, s.ids[i]) == s.delivered[i] + (g.begun[i] + SentTo(g.later, s.ids[i]))
    && AllSendable(g.begun[i])
    && ReaderOk(s.readers[i], s.queues[i] + Due(g, s.ids[i]), g.begun[i], s.size)
  }

  predicate OneHolder(readers: seq<Reader>) {
    forall i, j :: 0 <= i < |readers| && 0 <= j < |readers| && readers[i].Collecting? && readers[j].Collecting? ==>
      i == j
  }

  predicate Distinct(ids: seq<nat>) {
    forall i, j :: 0 <= i < j < |ids| ==> ids[i] != ids[j]
  }

  predicate Shape(s: State, g: Plan) {
    && Sized(s) && s.size >= HEADER && |g.begun| == |s.ids| && Distinct(s.ids)
    && MemoryOk(s) && OneHolder(s.readers) && AllSendable(g.later)
    && (forall p :: p in g.tail ==> p.service == g.to)
  }

  ghost predicate Inv(s: State, g: Plan) {
    && Shape(s, g)
    && Way(s) == g.tail + Stream(g.later, s.size)
    && forall i :: 0 <= i < |s.ids| ==> ServiceOk(s, g, i)
  }

  // ----- The steps of one service -----

  lemma LockOk(p: Packet, rest: seq<Packet>, ms: seq<Message>, size: nat)
    requires size >= HEADER && AllSendable(ms) && ReaderOk(Taken(p), rest, ms, size)
    ensures ms != [] && |p.bytes| >= HEADER
    ensures var c := Open(p);
            if Done(c) then c.m == ms[0] && ReaderOk(Idle, rest, ms[1..], size)
              else ReaderOk(Collecting(c), rest, ms, size)
  {
    var m := ms[0];
    assert Sendable(m);
    OpenFirst(m, size);
    hide Open, Sendable;
    var first := Fragments(m, size);
    assert Stream(ms, size) == first + Stream(ms[1..], size);
    assert p == ([p] + rest)[0] == first[0];
    assert rest == ([p] + rest)[1..] == first[1..] + Stream(ms[1..], size);
    assert Done(Open(p)) ==> m.data[..Opening(m, size)] == m.data && m.data[Opening(m, size)..] == [];
  }

  lemma CollectOk(c: Partial, p: Packet, rest: seq<Packet>, ms: seq<Message>, size: nat)
    requires size >= HEADER && ReaderOk(Collecting(c), [p] + rest, ms, size)
    ensures var c' := Gather(c, p);
            if Done(c') then c'.m == ms[0] && ReaderOk(Idle, rest, ms[1..], size)
              else ReaderOk(Collecting(c'), rest, ms, size)
  {
    var m, k := ms[0], |c.m.data|;
    GatherNext(c, m, k, size);
    var chunks := Chunks(m, m.data[k..], size);
    hide Gather, Chunks, Stream;
    FirstOfBoth(p, rest, chunks, Stream(ms[1..], size));
    var k' := k + Least(|m.data[k..]|, size);
    if Done(Gather(c, p)) {
      assert m.data[..k'] == m.data && m.data[k'..] == [];
      NoChunks(m, size);
    }
  }

  lemma FirstOfBoth(p: Packet, rest: seq<Packet>, a: seq<Packet>, b: seq<Packet>)
    requires [p] + rest == a + b && |a| > 0
    ensures p == a[0] && rest == a[1..] + b
  {
    assert p == ([p] + rest)[0] && rest == ([p] + rest)[1..];
  }

  lemma NoChunks(m: Message, size: nat)
    requires size > 0
    ensures forall rest :: Chunks(m, [], size) + rest == rest
  {
  }

  /** A message more that is still to come. */
  lemma MoreOk(r: Reader, rest: seq<Packet>, ms: seq<Message>, m: Message, size: nat)
    requires size >= HEADER && ReaderOk(r, rest, ms, size)
    ensures ReaderOk(r, rest + Fragments(m, size), ms + [m], size)
  {
    hide Fragments, Chunks;
    StreamAppend(ms, m, size);
    match r
    case Idle =>
    case Taken(p) => assert [p] + (rest + Fragments(m, size)) == ([p] + rest) + Fragments(m, size);
    case Collecting(c) =>
      assert (ms + [m])[1..] == ms[1..] + [m];
      StreamAppend(ms[1..], m, size);
  }

  // ----- Every step keeps the invariant -----

  predicate SameServices(s: State, s': State) {
    s'.size == s.size && s'.ids == s.ids && s'.sent == s.sent && s'.queues == s.queues && s'.readers == s.readers &&
      s'.delivered == s.delivered
  }

  lemma MovedOn(s: State, s': State, g: Plan)
    requires Inv(s, g) && SameServices(s, s') && |s'.blocks| == BLOCKS && MemoryOk(s') && Way(s') == Way(s)
    ensures Inv(s', g)
  {
    hide MemoryOk, Way, ReaderOk, SentTo, Stream, OneHolder, AllSendable;
    forall i | 0 <= i < |s'.ids|
      ensures ServiceOk(s', g, i)
    {
      assert ServiceOk(s, g, i);
    }
  }

  lemma FillKeeps(s: State, g: Plan)
    requires Inv(s, g) && Enabled(s, Fill)
    ensures Inv(Apply(s, Fill), g)
  {
    var s', p, r := Apply(s, Fill), s.out[0], Apply(s, Fill).filled.value;
    hide ServiceOk, Stream, OneHolder, AllSendable;
    assert p in s.out && s'.blocks[Slot(s)][..|p.bytes|] == p.bytes;
    assert Load(s'.blocks, r) == p;
    assert Loaded(s'.blocks, s.got) == Loaded(s.blocks, s.got);
    assert Loaded(s'.blocks, s.mailbox) == Loaded(s.blocks, s.mailbox);
    assert [p] + s.out[1..] == [] + s.out;
    MovedOn(s, s', g);
  }

  /** The wrap of the sequence counter does not disturb the order of the blocks. */
  lemma NextSlot(n: nat)
    requires n < SEQ_RANGE
    ensures Back((n + 1) % SEQ_RANGE % BLOCKS) == n % BLOCKS
  {
  }

  lemma PutKeeps(s: State, g: Plan)
    requires Inv(s, g) && Enabled(s, Put)
    ensures Inv(Apply(s, Put), g)
  {
    var s' := Apply(s, Put);
    hide ServiceOk, Stream, OneHolder, AllSendable;
    NextSlot(s.seqNo);
    hide Load;
    assert Way(s') == Way(s);
    MovedOn(s, s', g);
  }

  lemma GetKeeps(s: State, g: Plan)
    requires Inv(s, g) && Enabled(s, Get)
    ensures Inv(Apply(s, Get), g)
  {
    hide ServiceOk, Stream, OneHolder, AllSendable, Load;
    MovedOn(s, Apply(s, Get), g);
  }

  lemma CopyKeeps(s: State, g: Plan)
    requires Inv(s, g) && Enabled(s, Copy)
    ensures Inv(Apply(s, Copy), g)
  {
    hide ServiceOk, Stream, OneHolder, AllSendable, Load;
    MovedOn(s, Apply(s, Copy), g);
  }

  lemma BeginKeeps(s: State, g: Plan, m: Message)
    requires Inv(s, g) && Enabled(s, Begin(m))
    ensures Inv(Apply(s, Begin(m)), g.(later := g.later + [m]))
  {
    var s', g' := Apply(s, Begin(m)), g.(later := g.later + [m]);
    BeginShape(s, g, m);
    BeginWay(s, m);
    StreamAppend(g.later, m, s.size);
    Associate(g.tail, Stream(g.later, s.size), Fragments(m, s.size));
    hide ServiceOk, Fragments, Shape, Way, Stream, Enabled;
    forall i | 0 <= i < |s'.ids|
      ensures ServiceOk(s', g', i)
    {
      BeginService(s, g, m, i);
    }
  }

  lemma Associate<T>(a: seq<T>, b: seq<T>, c: seq<T>)
    ensures (a + b) + c == a + (b + c)
  {
  }

  lemma BeginShape(s: State, g: Plan, m: Message)
    requires Shape(s, g) && Enabled(s, Begin(m))
    ensures Shape(Apply(s, Begin(m)), g.(later := g.later + [m]))
  {
    FragmentsFit(m, s.size);
    hide Fragments, Sendable;
  }

  lemma BeginWay(s: State, m: Message)
    requires Sized(s) && s.size >= HEADER && Enabled(s, Begin(m))
    ensures Way(Apply(s, Begin(m))) == Way(s) + Fragments(m, s.size)
  {
    var a, b, c, f := Listed(s.hand), Loaded(s.blocks, s.got), Loaded(s.blocks, s.mailbox), Fragments(m, s.size);
    hide Listed, Fragments, Load;
    assert a + (b + (c + ([] + f))) == (a + (b + (c + ([] + [])))) + f;
  }

  lemma BeginService(s: State, g: Plan, m: Message, i: nat)
    requires Inv(s, g) && Enabled(s, Begin(m)) && i < |s.ids|
    ensures ServiceOk(Apply(s, Begin(m)), g.(later := g.later + [m]), i)
  {
    assert ServiceOk(s, g, i);
    SentToAppend(s.sent, m, s.ids[i]);
    SentToAppend(g.later, m, s.ids[i]);
    var g' := g.(later := g.later + [m]);
    assert Due(g', s.ids[i]) == Due(g, s.ids[i]);
    hide SentTo, MemoryOk, Way, Stream, ReaderOk, Fragments, IfFor;
    Regroup(s.delivered[i], g.begun[i], SentTo(g.later, s.ids[i]), IfFor(m, s.ids[i]));
  }

  lemma Regroup<T>(a: seq<T>, b: seq<T>, c: seq<T>, d: seq<T>)
    ensures (a + (b + c)) + d == a + (b + (c + d))
  {
  }

  lemma {:induction false} ChunksFit(m: Message, data: seq<Byte>, size: nat)
    requires size > 0
    ensures forall p :: p in Chunks(m, data, size) ==> |p.bytes| <= size && p.service == m.service
    decreases |data|
  {
    if data != [] {
      ChunksFit(m, data[Least(|data|, size)..], size);
    }
  }

  lemma FragmentsFit(m: Message, size: nat)
    requires size >= HEADER
    ensures forall p :: p in Fragments(m, size) ==> |p.bytes| <= size && p.service == m.service
  {
    ChunksFit(m, m.data[Opening(m, size)..], size);
  }

  // ----- The steps that reach a service -----

  predicate SameRest(s: State, s': State) {
    && s'.size == s.size && s'.ids == s.ids && s'.sent == s.sent && s'.blocks == s.blocks && s'.out == s.out &&
       s'.seqNo == s.seqNo
    && s'.filled == s.filled && s'.mailbox == s.mailbox && s'.got == s.got && s'.hand == s.hand
  }

  /** Only service `i` has moved on, with `begun` messages in the making now. */
  lemma OneServed(s: State, s': State, g: Plan, i: nat, begun: seq<Message>)
    requires Inv(s, g) && SameRest(s, s') && Sized(s') && i < |s.ids| && OneHolder(s'.readers)
    requires forall j :: 0 <= j < |s.ids| && j != i ==>
      s'.queues[j] == s.queues[j] && s'.readers[j] == s.readers[j] && s'.delivered[j] == s.delivered[j]
    requires ServiceOk(s', g.(begun := g.begun[i := begun]), i)
    ensures Inv(s', g.(begun := g.begun[i := begun]))
  {
    var g' := g.(begun := g.begun[i := begun]);
    hide ReaderOk, SentTo, Stream, OneHolder, AllSendable;
    forall j | 0 <= j < |s'.ids|
      ensures ServiceOk(s', g', j)
    {
      if j != i {
        assert ServiceOk(s, g, j);
      }
    }
  }

  lemma TakeKeeps(s: State, g: Plan, i: nat)
    requires Inv(s, g) && Enabled(s, Take(i))
    ensures Inv(Apply(s, Take(i)), g)
  {
    var s' := Apply(s, Take(i));
    assert ServiceOk(s, g, i);
    assert [s.queues[i][0]] + (s.queues[i][1..] + Due(g, s.ids[i])) == s.queues[i] + Due(g, s.ids[i]);
    hide MemoryOk, SentTo, Stream, AllSendable, Way;
    assert g.begun[i := g.begun[i]] == g.begun;
    OneServed(s, s', g, i, g.begun[i]);
  }

  /** A service task that goes on with `c`. */
  lemma ResumeKeeps(s: State, q: seq<seq<Packet>>, g: Plan, i: nat, c: Partial, ms: seq<Message>) returns (g': Plan)
    requires Inv(s, g) && i < |s.ids| && |q| == |s.ids| &&
      (forall j :: 0 <= j < |s.ids| && j != i ==> q[j] == s.queues[j])
    requires forall j :: 0 <= j < |s.ids| && j != i ==> !s.readers[j].Collecting?
    requires ms == g.begun[i] && ms != []
    requires var rest := q[i] + Due(g, s.ids[i]);
             if Done(c) then c.m == ms[0] && ReaderOk(Idle, rest, ms[1..], s.size)
               else ReaderOk(Collecting(c), rest, ms, s.size)
    ensures Inv(Resume(s.(queues := q), i, c), g')
  {
    var s' := Resume(s.(queues := q), i, c);
    var begun := if Done(c) then ms[1..] else ms;
    assert ServiceOk(s, g, i);
    hide ReaderOk, SentTo, Stream, MemoryOk, Way;
    var later := SentTo(g.later, s.ids[i]);
    assert Done(c) ==> (s.delivered[i] + [ms[0]]) + (ms[1..] + later) == s.delivered[i] + (ms + later);
    g' := g.(begun := g.begun[i := begun]);
    assert ServiceOk(s', g', i);
    OneServed(s, s', g, i, begun);
  }

  lemma LockKeeps(s: State, g: Plan, i: nat) returns (g': Plan)
    requires Inv(s, g) && Enabled(s, Lock(i))
    ensures Inv(Apply(s, Lock(i)), g')
  {
    hide MemoryOk, Stream, Way, Open;
    assert ServiceOk(s, g, i);
    LockOk(s.readers[i].p, s.queues[i] + Due(g, s.ids[i]), g.begun[i], s.size);
    g' := ResumeKeeps(s, s.queues, g, i, Open(s.readers[i].p), g.begun[i]);
    assert s.(queues := s.queues) == s;
  }

  lemma CollectKeeps(s: State, g: Plan, i: nat) returns (g': Plan)
    requires Inv(s, g) && Enabled(s, Collect(i))
    ensures Inv(Apply(s, Collect(i)), g')
  {
    hide MemoryOk, Stream, Way, Gather;
    assert ServiceOk(s, g, i);
    var p, rest := s.queues[i][0], s.queues[i][1..];
    assert [p] + (rest + Due(g, s.ids[i])) == s.queues[i] + Due(g, s.ids[i]);
    CollectOk(s.readers[i].c, p, rest + Due(g, s.ids[i]), g.begun[i], s.size);
    g' := ResumeKeeps(s, s.queues[i := rest], g, i, Gather(s.readers[i].c, p), g.begun[i]);
  }

  /** The packet in the hand of the dispatcher is the oldest one on the way. */
  lemma HandIsFirst(s: State)
    requires s.hand.Some?
    ensures Way(s) == [s.hand.value] + Way(s.(hand := None))
  {
  }

  lemma FoundIsOnly(ids: seq<nat>, id: nat)
    requires Distinct(ids)
    ensures forall j :: 0 <= j < |ids| ==> (ids[j] == id <==> j == FindService(ids, id))
  {
    var i := FindService(ids, id);
    forall j | 0 <= j < |ids|
      ensures ids[j] == id <==> j == i
    {
      if i < j {
        assert i < |ids|;
        assert ids[i] == id && ids[i] != ids[j];
      }
    }
  }

  lemma Uncons<T>(p: T, ahead: seq<T>, t: seq<T>, rest: seq<T>)
    requires [p] + ahead == t + rest && t != []
    ensures p == t[0] && ahead == t[1..] + rest
  {
    assert ([p] + ahead)[0] == (t + rest)[0];
    assert ([p] + ahead)[1..] == (t + rest)[1..];
  }

  lemma EnqueueShape(s: State, g: Plan, g': Plan)
    requires Shape(s, g) && Enabled(s, Enqueue) && |g'.begun| == |s.ids| && AllSendable(g'.later) &&
      (forall p :: p in g'.tail ==> p.service == g'.to)
    ensures Shape(Apply(s, Enqueue), g') && Way(s) == [s.hand.value] + Way(Apply(s, Enqueue))
  {
    HandIsFirst(s);
    assert Way(Apply(s, Enqueue)) == Way(s.(hand := None));
  }

  /** A packet of the message that is under way arrives. */
  lemma TailArrives(s: State, g: Plan) returns (g': Plan)
    requires Inv(s, g) && Enabled(s, Enqueue) && g.tail != []
    ensures Inv(Apply(s, Enqueue), g')
  {
    var s' := Apply(s, Enqueue);
    g' := g.(tail := g.tail[1..]);
    EnqueueShape(s, g, g');
    hide Way, ServiceOk, Stream;
    Uncons(s.hand.value, Way(s'), g.tail, Stream(g.later, s.size));
    assert s.hand.value in g.tail;
    forall j | 0 <= j < |s'.ids|
      ensures ServiceOk(s', g', j)
    {
      TailAt(s, g, j);
    }
    hide Shape, Enabled;
  }

  lemma TailAt(s: State, g: Plan, j: nat)
    requires Inv(s, g) && Enabled(s, Enqueue) && g.tail != [] && s.hand.value == g.tail[0] && j < |s.ids|
    ensures ServiceOk(Apply(s, Enqueue), g.(tail := g.tail[1..]), j)
  {
    var s', p, q := Apply(s, Enqueue), s.hand.value, s.queues[j];
    assert p in g.tail;
    FoundIsOnly(s.ids, g.to);
    assert ServiceOk(s, g, j);
    hide Way, MemoryOk, SentTo, Stream, OneHolder, AllSendable, ReaderOk;
    assert (q + [p]) + g.tail[1..] == q + g.tail;
    assert s'.queues[j] + Due(g.(tail := g.tail[1..]), s.ids[j]) == q + Due(g, s.ids[j]);
  }

  lemma StreamSplit(ms: seq<Message>, size: nat)
    requires size >= HEADER && Stream(ms, size) != []
    ensures ms != [] && Stream(ms, size) == Fragments(ms[0], size) + Stream(ms[1..], size) &&
      Fragments(ms[0], size) != []
  {
  }

  /** The first packet of a message arrives. */
  lemma MessageArrives(s: State, g: Plan) returns (g': Plan)
    requires Inv(s, g) && Enabled(s, Enqueue) && g.tail == []
    ensures Inv(Apply(s, Enqueue), g')
  {
    var s' := Apply(s, Enqueue);
    HandIsFirst(s);
    assert [] + Stream(g.later, s.size) == Stream(g.later, s.size);
    StreamSplit(g.later, s.size);
    var m, i := g.later[0], FindService(s.ids, g.later[0].service);
    var first := Fragments(m, s.size);
    FragmentsFit(m, s.size);
    g' := Plan(first[1..], m.service, g.later[1..], if i < |s.ids| then g.begun[i := g.begun[i] + [m]] else g.begun);
    hide Sendable, Fragments, Stream, Way, ServiceOk;
    EnqueueShape(s, g, g');
    Uncons(s.hand.value, Way(s'), first, Stream(g.later[1..], s.size));
    FoundIsOnly(s.ids, m.service);
    forall j | 0 <= j < |s'.ids|
      ensures ServiceOk(s', g', j)
    {
      ArrivesAt(s, g, g', j);
    }
  }

  lemma ArrivesAt(s: State, g: Plan, g': Plan, j: nat)
    requires Inv(s, g) && Enabled(s, Enqueue) && g.tail == [] && g.later != [] && j < |s.ids| && |g'.begun| == |s.ids|
    requires var m := g.later[0];
             && g'.tail == Fragments(m, s.size)[1..] && g'.to == m.service && g'.later == g.later[1..]
             && s.hand.value == Fragments(m, s.size)[0] && s.hand.value.service == m.service
             && (s.ids[j] == m.service <==> j == FindService(s.ids, m.service))
             && g'.begun[j] == if s.ids[j] == m.service then g.begun[j] + [m] else g.begun[j]
    ensures ServiceOk(Apply(s, Enqueue), g', j)
  {
    var s', m, p := Apply(s, Enqueue), g.later[0], s.hand.value;
    assert ServiceOk(s, g, j);
    var q, first := s.queues[j], Fragments(m, s.size);
    assert q + Due(g, s.ids[j]) == q;
    var later := SentTo(g.later[1..], s.ids[j]);
    assert SentTo(g.later, s.ids[j]) == IfFor(m, s.ids[j]) + later;
    assert Sendable(m);
    hide Way, MemoryOk, Stream, OneHolder, ReaderOk, Fragments, SentTo, Sendable;
    if s.ids[j] == m.service {
      MoreOk(s.readers[j], q, g.begun[j], m, s.size);
      assert (q + [p]) + first[1..] == q + first;
      assert g.begun[j] + ([m] + later) == (g.begun[j] + [m]) + later;
    } else {
      assert q + [] == q && [] + later == later;
    }
  }

  lemma StepKeeps(s: State, g: Plan, step: Step) returns (g': Plan)
    requires Inv(s, g) && Enabled(s, step)
    ensures Inv(Apply(s, step), g')
  {
    hide Inv, Enabled;
    g' := g;
    match step
    case Begin(m) =>
      BeginKeeps(s, g, m);
      g' := g.(later := g.later + [m]);
    case Fill => FillKeeps(s, g);
    case Put => PutKeeps(s, g);
    case Get => GetKeeps(s, g);
    case Copy => CopyKeeps(s, g);
    case Enqueue =>
      if g.tail != [] {
        g' := TailArrives(s, g);
      } else {
        g' := MessageArrives(s, g);
      }
    case Take(i) => TakeKeeps(s, g, i);
    case Lock(i) => g' := LockKeeps(s, g, i);
    case Collect(i) => g' := CollectKeeps(s, g, i);
  }

  // ----- Whole runs -----

  /** A step that cannot be taken is passed over: the tasks may be scheduled in any order. */
  function Run(s: State, steps: seq<Step>): (r: State)
    requires Sized(s) && s.size >= HEADER
    ensures Sized(r) && r.size == s.size && r.ids == s.ids
    decreases |steps|
  {
    if steps == [] then s else Run(if Enabled(s, steps[0]) then Apply(s, steps[0]) else s, steps[1..])
  }

  lemma InitOk(ids: seq<nat>, size: nat)
    requires Distinct(ids) && size >= HEADER
    ensures Inv(Init(ids, size), Plan([], 0, [], seq(|ids|, k => [])))
  {
    var s, g := Init(ids, size), Plan([], 0, [], seq(|ids|, k => []));
    forall i | 0 <= i < |ids|
      ensures ServiceOk(s, g, i)
    {
      assert s.readers[i] == Idle && s.queues[i] == [] && s.delivered[i] == [] && g.begun[i] == [];
      assert s.queues[i] + Due(g, ids[i]) == [] == Stream(g.begun[i], size);
    }
  }

  lemma {:induction false} RunKeeps(s: State, g: Plan, steps: seq<Step>) returns (g': Plan)
    requires Inv(s, g)
    ensures Inv(Run(s, steps), g')
    decreases |steps|
  {
    hide Enabled, Apply, ServiceOk, MemoryOk;
    g' := g;
    if steps != [] {
      var next := s;
      if Enabled(s, steps[0]) {
        g' := StepKeeps(s, g, steps[0]);
        next := Apply(s, steps[0]);
      }
      g' := RunKeeps(next, g', steps[1..]);
    }
  }

  /** In every run, a service gets exactly the messages that were sent to it, in the order they were sent. */
  lemma DeliversInOrder(ids: seq<nat>, size: nat, steps: seq<Step>, i: nat)
    requires Distinct(ids) && size >= HEADER && i < |ids|
    ensures var s := Run(Init(ids, size), steps); s.delivered[i] <= SentTo(s.sent, ids[i])
  {
    InitOk(ids, size);
    var g := RunKeeps(Init(ids, size), Plan([], 0, [], seq(|ids|, k => [])), steps);
    hide Run, Init;
    assert ServiceOk(Run(Init(ids, size), steps), g, i);
  }

  // ----- No deadlock -----

  predicate Quiet(s: State)
    requires Sized(s)
  {
    Way(s) == [] && forall i :: 0 <= i < |s.ids| ==> s.queues[i] == [] && s.readers[i].Idle?
  }

  /** A service that holds `rx_mutex` and waits is the one the oldest packet is for: it waits for nobody's queue. */
  lemma HolderIsFed(s: State, g: Plan, i: nat)
    requires Inv(s, g) && i < |s.ids| && s.readers[i].Collecting? && s.queues[i] == []
    ensures Way(s) != [] && Way(s)[0].service == s.ids[i]
  {
    assert ServiceOk(s, g, i);
    hide Way, MemoryOk, SentTo, Stream;
    var c, m := s.readers[i].c, g.begun[i][0];
    GatherNext(c, m, |c.m.data|, s.size);
    hide Chunks, Gather;
    assert [] + Due(g, s.ids[i]) == Due(g, s.ids[i]);
    assert Due(g, s.ids[i]) != [];
    assert g.tail[0] in g.tail;
  }

  /** What is on its way can move on, unless the oldest packet waits for room in a queue. */
  lemma WayMoves(s: State) returns (step: Step)
    requires Sized(s) && Way(s) != []
    requires s.hand.Some? ==> Enabled(s, Enqueue)
    ensures !step.Begin? && Enabled(s, step)
  {
    step :=
      if s.hand.Some? then Enqueue else if s.got.Some? then Copy else if s.mailbox.Some? then Get
        else if s.filled.Some? then Put else Fill;
  }

  /** Until everything is delivered, some task can go on. */
  lemma NoDeadlock(s: State, g: Plan) returns (step: Step)
    requires Inv(s, g) && !Quiet(s)
    ensures !step.Begin? && Enabled(s, step)
  {
    if i :| 0 <= i < |s.ids| && s.readers[i].Collecting? {
      if s.queues[i] != [] {
        return Collect(i);
      }
      HolderIsFed(s, g, i);
      FoundIsOnly(s.ids, s.ids[i]);
      HandFirst(s);
      step := WayMoves(s);
    } else if i :| 0 <= i < |s.ids| && s.readers[i].Taken? {
      assert ServiceOk(s, g, i);
      LockOk(s.readers[i].p, s.queues[i] + Due(g, s.ids[i]), g.begun[i], s.size);
      step := Lock(i);
    } else if i :| 0 <= i < |s.ids| && s.queues[i] != [] {
      step := Take(i);
    } else {
      step := WayMoves(s);
    }
  }

  lemma HandFirst(s: State)
    ensures s.hand.Some? ==> Way(s) != [] && Way(s)[0] == s.hand.value
  {
  }

  lemma QuietIsDone(s: State, g: Plan, i: nat)
    requires Inv(s, g) && Quiet(s) && i < |s.ids|
    ensures s.delivered[i] == SentTo(s.sent, s.ids[i])
  {
    assert ServiceOk(s, g, i);
    hide Way, MemoryOk, Fragments;
    assert Stream(g.later, s.size) == [] && g.tail == [];
    assert [] + Due(g, s.ids[i]) == [];
    StreamEmpty(g.later, s.size);
    StreamEmpty(g.begun[i], s.size);
  }

  lemma StreamEmpty(ms: seq<Message>, size: nat)
    requires size >= HEADER
    ensures Stream(ms, size) == [] <==> ms == []
  {
  }

  // ----- Every run comes to rest -----

  function Weight(q: seq<Packet>, r: Reader): nat {
    2 * |q| + if r.Taken? then 1 else 0
  }

  function Pending(qs: seq<seq<Packet>>, rs: seq<Reader>): nat
    requires |qs| == |rs|
  {
    if qs == [] then 0 else Weight(qs[0], rs[0]) + Pending(qs[1..], rs[1..])
  }

  function Count<T>(o: Option<T>): nat {
    if o.Some? then 1 else 0
  }

  /** The steps that the packets under way still have to take. */
  function Measure(s: State): nat
    requires Sized(s)
  {
    7 * |s.out| + 6 * Count(s.filled) + 5 * Count(s.mailbox) + 4 * Count(s.got) + 3 * Count(s.hand) +
      Pending(s.queues, s.readers)
  }

  lemma {:induction false} PendingUpdate(qs: seq<seq<Packet>>, rs: seq<Reader>, i: nat, q: seq<Packet>, r: Reader)
    requires |qs| == |rs| && i < |qs|
    ensures Pending(qs[i := q], rs[i := r]) == Pending(qs, rs) - Weight(qs[i], rs[i]) + Weight(q, r)
  {
    var qs', rs' := qs[i := q], rs[i := r];
    if i == 0 {
      assert qs'[1..] == qs[1..] && rs'[1..] == rs[1..];
    } else {
      assert qs'[1..] == qs[1..][i - 1 := q] && rs'[1..] == rs[1..][i - 1 := r];
      PendingUpdate(qs[1..], rs[1..], i - 1, q, r);
    }
  }

  lemma StepDecreases(s: State, step: Step)
    requires Sized(s) && s.size >= HEADER && !step.Begin? && Enabled(s, step)
    ensures Measure(Apply(s, step)) < Measure(s)
  {
    hide Pending, Open, Gather;
    match step
    case Enqueue =>
      var i := FindService(s.ids, s.hand.value.service);
      if i < |s.ids| {
        PendingUpdate(s.queues, s.readers, i, s.queues[i] + [s.hand.value], s.readers[i]);
        assert s.readers[i := s.readers[i]] == s.readers;
      }
    case Take(i) => PendingUpdate(s.queues, s.readers, i, s.queues[i][1..], Taken(s.queues[i][0]));
    case Lock(i) =>
      PendingUpdate(s.queues, s.readers, i, s.queues[i], Apply(s, step).readers[i]);
      assert s.queues[i := s.queues[i]] == s.queues;
    case Collect(i) => PendingUpdate(s.queues, s.readers, i, s.queues[i][1..], Apply(s, step).readers[i]);
    case _ =>
  }

  /** A schedule in which every step can be taken and nothing new is sent. */
  predicate Continues(s: State, steps: seq<Step>)
    requires Sized(s) && s.size >= HEADER
    decreases |steps|
  {
    steps == [] || (!steps[0].Begin? && Enabled(s, steps[0]) && Continues(Apply(s, steps[0]), steps[1..]))
  }

  lemma {:induction false} Bounded(s: State, steps: seq<Step>)
    requires Sized(s) && s.size >= HEADER && Continues(s, steps)
    ensures |steps| + Measure(Run(s, steps)) <= Measure(s)
    decreases |steps|
  {
    hide Enabled, Apply, Measure;
    if steps != [] {
      StepDecreases(s, steps[0]);
      Bounded(Apply(s, steps[0]), steps[1..]);
    }
  }

  /** Once nothing new is sent, every run ends, and it can only end when each service has got all that
      was sent to it. */
  lemma EverythingArrives(ids: seq<nat>, size: nat, steps: seq<Step>, more: seq<Step>)
    requires Distinct(ids) && size >= HEADER && Continues(Run(Init(ids, size), steps), more)
    ensures var s := Run(Init(ids, size), steps); var end := Run(s, more);
            && |more| <= Measure(s)
            && ((exists step: Step :: !step.Begin? && Enabled(end, step)) || forall i :: 0 <= i < |ids| ==>
               end.delivered[i] == SentTo(end.sent, ids[i]))
  {
    InitOk(ids, size);
    var s := Run(Init(ids, size), steps);
    var g := RunKeeps(Init(ids, size), Plan([], 0, [], seq(|ids|, k => [])), steps);
    Bounded(s, more);
    g := RunKeeps(s, g, more);
    var end := Run(s, more);
    hide *;
    if Quiet(end) {
      forall i | 0 <= i < |ids|
        ensures end.delivered[i] == SentTo(end.sent, ids[i])
      {
        QuietIsDone(end, g, i);
      }
    } else {
      var step := NoDeadlock(end, g);
    }
  }

  // ----- Whatever is to be sent can be sent -----

  lemma {:induction false} RunAppend(s: State, a: seq<Step>, b: seq<Step>)
    requires Sized(s) && s.size >= HEADER
    ensures Run(s, a + b) == Run(Run(s, a), b)
    decreases |a|
  {
    hide Enabled, Apply;
    if a == [] {
      assert a + b == b;
    } else {
      assert (a + b)[1..] == a[1..] + b;
      RunAppend(if Enabled(s, a[0]) then Apply(s, a[0]) else s, a[1..], b);
    }
  }

  /** From any state there is a way to rest, on which nothing new is sent. */
  lemma {:induction false} ComesToRest(s: State, g: Plan) returns (steps: seq<Step>, g': Plan)
    requires Inv(s, g)
    ensures Sized(s) && s.size >= HEADER
    ensures var end := Run(s, steps);
      Inv(end, g') && Quiet(end) && end.sent == s.sent && end.ids == s.ids && end.size == s.size
    decreases Measure(s)
  {
    if Quiet(s) {
      return [], g;
    }
    var step := NoDeadlock(s, g);
    hide Enabled, Measure, Quiet, Way, ServiceOk;
    StepDecreases(s, step);
    var g1 := StepKeeps(s, g, step);
    var rest;
    rest, g' := ComesToRest(Apply(s, step), g1);
    steps := [step] + rest;
    assert steps[1..] == rest;
  }

  /** For every sequence of messages that may be sent there is a run in which they are sent, one after the other, and
      each service gets all that is meant for it. */
  lemma {:induction false} AllCanBeSent(ids: seq<nat>, size: nat, ms: seq<Message>) returns (steps: seq<Step>, g: Plan)
    requires Distinct(ids) && size >= HEADER && forall m :: m in ms ==> Sendable(m)
    ensures var end := Run(Init(ids, size), steps);
      Inv(end, g) && Quiet(end) && end.sent == ms && end.ids == ids && end.size == size &&
      forall i :: 0 <= i < |ids| ==> end.delivered[i] == SentTo(ms, ids[i])
  {
    InitOk(ids, size);
    if ms == [] {
      steps, g := [], Plan([], 0, [], seq(|ids|, k => []));
    } else {
      var m, front := ms[|ms| - 1], ms[..|ms| - 1];
      var before;
      before, g := AllCanBeSent(ids, size, front);
      var s := Run(Init(ids, size), before);
      var g1 := StepKeeps(s, g, Begin(m));
      var rest;
      rest, g := ComesToRest(Apply(s, Begin(m)), g1);
      assert ([Begin(m)] + rest)[1..] == rest;
      steps := before + ([Begin(m)] + rest);
      RunAppend(Init(ids, size), before, [Begin(m)] + rest);
      assert front + [m] == ms;
    }
    var end := Run(Init(ids, size), steps);
    hide *;
    forall i | 0 <= i < |ids|
      ensures end.delivered[i] == SentTo(end.sent, ids[i])
    {
      QuietIsDone(end, g, i);
    }
  }
}
