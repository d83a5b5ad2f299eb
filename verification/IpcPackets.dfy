/** Messages of the inter-core link and the packets that carry them: the fragment loop of the sender, the reassembly
    loop of the receiver, and the byte layout of the dispatch header in front of the first fragment. */
module IpcPackets {
  import KernelTypes

  type Byte = KernelTypes.Byte

  /** The bytes of a dispatch header: total length, response length, queue handle. */
  const HEADER: nat := 16
  const INT_LIMIT: nat := 0x8000_0000
  const HANDLE_LIMIT: nat := 0x1_0000_0000_0000_0000

  datatype Message = Message(service: nat, flag: nat, command: nat, queue: nat, respLen: nat, data: seq<Byte>)

  /** The lengths fit the `int` fields of the header, the handle its 64 bits. */
  predicate Sendable(m: Message) {
    |m.data| < INT_LIMIT && m.respLen < INT_LIMIT && m.queue < HANDLE_LIMIT
  }

  datatype Packet = Packet(service: nat, flag: nat, command: nat, bytes: seq<Byte>)

  // ----- Little-endian fields -----

  function Pow256(k: nat): (r: nat)
    ensures r > 0
  {
    if k == 0 then 1 else 256 * Pow256(k - 1)
  }

  function ToBytes(n: nat, k: nat): (r: seq<Byte>)
    ensures |r| == k
  {
    if k == 0 then [] else [n % 256] + ToBytes(n / 256, k - 1)
  }

  function FromBytes(r: seq<Byte>): nat {
    if r == [] then 0 else r[0] as nat + 256 * FromBytes(r[1..])
  }

  lemma {:induction false} FieldRoundTrip(n: nat, k: nat)
    requires n < Pow256(k)
    ensures FromBytes(ToBytes(n, k)) == n
  {
    if k > 0 {
      FieldRoundTrip(n / 256, k - 1);
      assert ToBytes(n, k)[1..] == ToBytes(n / 256, k - 1);
    }
  }

  function Header(m: Message): (r: seq<Byte>)
    ensures |r| == HEADER
  {
    ToBytes(|m.data|, 4) + ToBytes(m.respLen, 4) + ToBytes(m.queue, 8)
  }

  lemma Sizes()
    ensures Pow256(4) == 0x1_0000_0000 && Pow256(8) == HANDLE_LIMIT
  {
    assert Pow256(2) == 0x1_0000;
    assert Pow256(4) == 256 * (256 * Pow256(2));
    assert Pow256(6) == 256 * (256 * Pow256(4));
    assert Pow256(8) == 256 * (256 * Pow256(6));
  }

  /** The header says what was sent, whatever follows it. */
  lemma HeaderRoundTrip(m: Message, rest: seq<Byte>)
    requires Sendable(m)
    ensures var b := Header(m) + rest;
            FromBytes(b[..4]) == |m.data| && FromBytes(b[4..8]) == m.respLen && FromBytes(b[8..HEADER]) == m.queue &&
              b[HEADER..] == rest
  {
    Sizes();
    FieldRoundTrip(|m.data|, 4);
    FieldRoundTrip(m.respLen, 4);
    FieldRoundTrip(m.queue, 8);
    hide ToBytes, FromBytes, Pow256;
    Fields(ToBytes(|m.data|, 4), ToBytes(m.respLen, 4), ToBytes(m.queue, 8), rest);
  }

  lemma Fields(a: seq<Byte>, b: seq<Byte>, c: seq<Byte>, rest: seq<Byte>)
    requires |a| == 4 && |b| == 4 && |c| == 8
    ensures var all := (a + b + c) + rest;
            all[..4] == a && all[4..8] == b && all[8..HEADER] == c && all[HEADER..] == rest
  {
  }

  // ----- What a transfer sends -----

  function Least(a: nat, b: nat): nat {
    if a < b then a else b
  }

  function Wrap(m: Message, bytes: seq<Byte>): Packet {
    Packet(m.service, m.flag, m.command, bytes)
  }

  /** The fragments behind the first one: full blocks, and what is left over. */
  function Chunks(m: Message, data: seq<Byte>, size: nat): seq<Packet>
    requires size > 0
    decreases |data|
  {
    if data == [] then [] else [Wrap(m, data[..Least(|data|, size)])] + Chunks(m, data[Least(|data|, size)..], size)
  }

  /** How much of the message travels with the header. */
  function Opening(m: Message, size: nat): nat
    requires size >= HEADER
  {
    Least(|m.data|, size - HEADER)
  }

  function Fragments(m: Message, size: nat): seq<Packet>
    requires size >= HEADER
  {
    [Wrap(m, Header(m) + m.data[..Opening(m, size)])] + Chunks(m, m.data[Opening(m, size)..], size)
  }

  // ----- What a receiver makes of it -----

  /** A message in the making and the number of bytes still missing. */
  datatype Partial = Partial(m: Message, left: int)

  predicate Done(c: Partial) {
    c.left <= 0
  }

  function Open(p: Packet): Partial
    requires |p.bytes| >= HEADER
  {
    var total, body := FromBytes(p.bytes[..4]), p.bytes[HEADER..];
    var m := Message(p.service, p.flag, p.command, FromBytes(p.bytes[8..HEADER]), FromBytes(p.bytes[4..8]),
      if total > 0 then body else []);
    Partial(m, if total > 0 then total - |body| else 0)
  }

  function Gather(c: Partial, p: Packet): Partial {
    Partial(c.m.(service := p.service, flag := p.flag, command := p.command, data := c.m.data + p.bytes),
      c.left - |p.bytes|)
  }

  /** The receiver has the first `k` bytes of `m`. */
  predicate PartOf(c: Partial, m: Message, k: nat) {
    k <= |m.data| && c.m == m.(data := m.data[..k]) && c.left == |m.data| - k
  }

  lemma OpenFirst(m: Message, size: nat)
    requires Sendable(m) && size >= HEADER
    ensures |Fragments(m, size)[0].bytes| >= HEADER && PartOf(Open(Fragments(m, size)[0]), m, Opening(m, size))
    ensures Fragments(m, size)[1..] == Chunks(m, m.data[Opening(m, size)..], size)
  {
    HeaderRoundTrip(m, m.data[..Opening(m, size)]);
    hide Header, FromBytes, Chunks;
  }

  lemma GatherNext(c: Partial, m: Message, k: nat, size: nat)
    requires PartOf(c, m, k) && k < |m.data| && size > 0
    ensures var d := m.data[k..]; var k' := k + Least(|d|, size);
            && k < k' <= |m.data| && |Chunks(m, d, size)| > 0 && PartOf(Gather(c, Chunks(m, d, size)[0]), m, k')
            && Chunks(m, d, size)[1..] == Chunks(m, m.data[k'..], size)
  {
    var d := m.data[k..];
    var n := Least(|d|, size);
    assert d[n..] == m.data[k + n..];
    assert m.data[..k] + d[..n] == m.data[..k + n];
  }

  // ----- The shared memory block -----

  class Shm {
    const data: array<Byte>
    var widx: nat

    predicate Valid()
      reads this`widx
    {
      widx <= data.Length
    }

    ghost function Contents(): seq<Byte>
      requires Valid()
      reads this`widx, data
    {
      data[..widx]
    }

    constructor (size: nat)
      ensures Valid() && data.Length == size && Contents() == [] && fresh(data)
    {
      data := new Byte[size](i => 0);
      widx := 0;
    }

    /** `shm_reset` */
    method Reset()
      modifies this`widx
      ensures Valid() && Contents() == []
    {
      widx := 0;
    }

    /** `shm_write`: as much as fits. */
    method Write(src: seq<Byte>) returns (copy: nat)
      requires Valid()
      modifies this`widx, data
      ensures Valid() && copy == Least(|src|, data.Length - old(widx)) && widx == old(widx) + copy
      ensures Contents() == old(Contents()) + src[..copy]
    {
      copy := Least(|src|, data.Length - widx);
      ghost var was := data[..widx];
      for k := 0 to copy
        modifies data
        invariant data[..widx] == was && data[widx..widx + k] == src[..k]
      {
        data[widx + k] := src[k];
        assert data[widx..widx + k + 1] == data[widx..widx + k] + [src[k]];
      }
      assert data[..widx + copy] == data[..widx] + data[widx..widx + copy];
      widx := widx + copy;
    }
  }

  /** The loop of `transfer_send`, with the packets it hands to the channel collected in `out`. */
  method TransferSend(m: Message, shm: Shm) returns (out: seq<Packet>)
    requires shm.Valid() && shm.data.Length >= HEADER
    modifies shm`widx, shm.data
    ensures shm.Valid() && out == Fragments(m, shm.data.Length)
  {
    var data, total := m.data, |m.data|;
    shm.Reset();
    var copied := shm.Write(Header(m));
    assert Header(m)[..copied] == Header(m);
    out := [];
    while total > 0 || shm.widx > 0
      modifies shm`widx, shm.data
      invariant shm.Valid() && total == |data|
      invariant out == [] ==> data == m.data && shm.Contents() == Header(m)
      invariant out != [] ==> shm.widx == 0 && out + Chunks(m, data, shm.data.Length) == Fragments(m, shm.data.Length)
      decreases total, shm.widx
    {
      ghost var before := shm.Contents();
      var n := shm.Write(data);
      assert before == [] ==> before + data[..n] == data[..n];
      out := out + [Wrap(m, shm.data[..shm.widx])];
      total := total - n;
      data := data[n..];
      shm.Reset();
    }
    assert out + [] == out;
  }

  /** The loop of `transfer_recv`, on a queue that holds all packets of a message: it returns the message that was
      sent and leaves the packets behind it alone. */
  method TransferRecv(queue: seq<Packet>, ghost sent: Message, ghost size: nat) returns (m: Message, rest: seq<Packet>)
    requires Sendable(sent) && size >= HEADER && Fragments(sent, size) <= queue
    ensures m == sent && queue == Fragments(sent, size) + rest
  {
    ghost var all := Fragments(sent, size);
    ghost var behind := queue[|all|..];
    OpenFirst(sent, size);
    hide Open, Chunks, Fragments, PartOf;
    assert queue == all + behind;
    FirstOf(queue, all, behind);
    var c := Open(queue[0]);
    rest := queue[1..];
    ghost var k: nat := Opening(sent, size);
    while c.left > 0
      invariant k <= |sent.data| && PartOf(c, sent, k) && rest == Chunks(sent, sent.data[k..], size) + behind
      decreases c.left
    {
      RestOf(c, sent, k);
      GatherNext(c, sent, k, size);
      FirstOf(rest, Chunks(sent, sent.data[k..], size), behind);
      k := k + Least(|sent.data[k..]|, size);
      RestOf(Gather(c, rest[0]), sent, k);
      c := Gather(c, rest[0]);
      rest := rest[1..];
    }
    Whole(c, sent, k, size);
    assert [] + behind == behind;
    m := c.m;
  }

  lemma FirstOf(s: seq<Packet>, a: seq<Packet>, b: seq<Packet>)
    requires s == a + b && a != []
    ensures s != [] && s[0] == a[0] && s[1..] == a[1..] + b
  {
  }

  lemma Whole(c: Partial, m: Message, k: nat, size: nat)
    requires PartOf(c, m, k) && c.left <= 0 && size > 0
    ensures c.m == m && Chunks(m, m.data[k..], size) == []
  {
    assert m.data[..k] == m.data;
  }

  lemma RestOf(c: Partial, m: Message, k: nat)
    requires PartOf(c, m, k)
    ensures k <= |m.data| && c.left == |m.data| - k
  {
  }
}
