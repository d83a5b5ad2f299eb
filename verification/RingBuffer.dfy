/** The byte ring behind a buffer queue, with messages of varying length: each is stored behind its length, and
    both parts may be split at the end of the buffer. */
module RingBuffers {
  import opened KernelTypes

  /** `RING_BUF_LEN`: a `size_t` of 32 bits, stored least significant byte first. */
  const LEN_BYTES: nat := 4
  const LEN_LIMIT: nat := 0xFFFF_FFFF

  function LengthBytes(n: nat): (r: seq<Byte>)
    ensures |r| == LEN_BYTES
  {
    [n % 0x100, n / 0x100 % 0x100, n / 0x1_0000 % 0x100, n / 0x100_0000 % 0x100]
  }

  function LengthOf(r: seq<Byte>): (n: nat)
    requires |r| == LEN_BYTES
  {
    (r[0] as nat) + 0x100 * (r[1] as nat) + 0x1_0000 * (r[2] as nat) + 0x100_0000 * (r[3] as nat)
  }

  lemma LengthRoundTrip(n: nat)
    requires n <= LEN_LIMIT
    ensures LengthOf(LengthBytes(n)) == n
  {
    var a, b, c := n / 0x100, n / 0x1_0000, n / 0x100_0000;
    assert n == 0x100 * a + n % 0x100;
    assert a == 0x100 * (a / 0x100) + a % 0x100 && a / 0x100 == b;
    assert b == 0x100 * (b / 0x100) + b % 0x100 && b / 0x100 == c;
    assert c < 0x100;
  }

  /** The bytes the stored messages take up. */
  function Flat(msgs: seq<Message>): (r: seq<Byte>) {
    if msgs == [] then [] else LengthBytes(|msgs[0]|) + msgs[0] + Flat(msgs[1..])
  }

  function Used(msgs: seq<Message>): (n: nat) {
    if msgs == [] then 0 else LEN_BYTES + |msgs[0]| + Used(msgs[1..])
  }

  lemma {:induction false} FlatLength(msgs: seq<Message>)
    ensures |Flat(msgs)| == Used(msgs)
  {
    if msgs != [] {
      FlatLength(msgs[1..]);
    }
  }

  lemma {:induction false} FlatAppend(msgs: seq<Message>, m: Message)
    ensures Flat(msgs + [m]) == Flat(msgs) + LengthBytes(|m|) + m
    ensures Used(msgs + [m]) == Used(msgs) + LEN_BYTES + |m|
  {
    if msgs != [] {
      FlatAppend(msgs[1..], m);
      assert (msgs + [m])[1..] == msgs[1..] + [m];
    } else {
      assert [m][1..] == [];
    }
  }

  /** `RingOverrun`: the message was let in although it does not fit, and the copy leaves the buffer. */
  datatype RingStatus = RingOk | RingFull | RingInvalid | RingOverrun

  const SIZE_RANGE: nat := 0x1_0000_0000

  /** What `ringbuf_push` compares with the free size: the sum of two 32-bit sizes. */
  function Needed(len: nat): nat {
    (LEN_BYTES + len) % SIZE_RANGE
  }

  /** The test of `ringbuf_push` refuses exactly what does not fit, if and only if the sum does not wrap, or what is
      free is less than even the wrapped sum. */
  lemma RefusedIffNoRoom(free: nat, len: nat)
    requires len < LEN_LIMIT && free < SIZE_RANGE
    ensures (free < Needed(len) <==> free < LEN_BYTES + len) <==>
      len <= SIZE_RANGE - LEN_BYTES - 1 || free < Needed(len)
    ensures len <= SIZE_RANGE - LEN_BYTES - 1 ==> Needed(len) == LEN_BYTES + len
    ensures len > SIZE_RANGE - LEN_BYTES - 1 ==> Needed(len) == len - (SIZE_RANGE - LEN_BYTES) <= 2
  {
    if len > SIZE_RANGE - LEN_BYTES - 1 {
      assert LEN_BYTES + len == SIZE_RANGE + (len - (SIZE_RANGE - LEN_BYTES));
    }
  }

  class RingBuffer {
    const buf: array<Byte>
    var head: nat
    var tail: nat
    var freeSize: nat
    ghost var msgs: seq<Message>

    /** Where byte `i` of the contents is. `head` may stand at the end of the buffer, which means its start. */
    ghost function At(i: nat): int
      reads this
    {
      if head + i < buf.Length then head + i else head + i - buf.Length
    }

    /** The bytes from `head` on are `flat`, and `tail` is behind them, counted around the ring. */
    ghost predicate Holds(flat: seq<Byte>)
      reads this, buf
    {
      && head <= buf.Length && tail <= buf.Length && |flat| + freeSize == buf.Length
      && (tail == head + |flat| || tail + buf.Length == head + |flat|)
      && forall i {:trigger flat[i]} :: 0 <= i < |flat| ==> buf[At(i)] == flat[i]
    }

    ghost predicate Valid()
      reads this, buf
    {
      && Holds(Flat(msgs)) && freeSize + Used(msgs) == buf.Length
      && forall m :: m in msgs ==> 0 < |m| < LEN_LIMIT
    }

    /** `ringbuf_init` */
    constructor (b: array<Byte>)
      ensures buf == b && Valid() && msgs == []
    {
      buf, head, tail, freeSize, msgs := b, 0, 0, b.Length, [];
    }

    /** A copy to the free bytes behind the contents that does not reach beyond the end. */
    method Put(bs: seq<Byte>, ghost flat: seq<Byte>)
      requires Holds(flat) && |bs| <= freeSize && tail + |bs| <= buf.Length
      modifies this`tail, this`freeSize, buf
      ensures Holds(flat + bs) && tail == old(tail) + |bs| && freeSize == old(freeSize) - |bs|
    {
      for i := 0 to |bs|
        modifies buf
        invariant forall j :: 0 <= j < i ==> buf[tail + j] == bs[j]
        invariant forall j {:trigger flat[j]} :: 0 <= j < |flat| ==> buf[At(j)] == flat[j]
      {
        buf[tail + i] := bs[i];
      }
      forall j | 0 <= j < |flat + bs|
        ensures buf[At(j)] == (flat + bs)[j]
      {
        if j < |flat| {
          assert (flat + bs)[j] == flat[j];
        } else {
          assert At(j) == tail + (j - |flat|);
        }
      }
      tail, freeSize := tail + |bs|, freeSize - |bs|;
    }

    /** A copy of the first `n` bytes that does not reach beyond the end. */
    method Take(n: nat, ghost flat: seq<Byte>) returns (bs: seq<Byte>)
      requires Holds(flat) && n <= |flat| && head + n <= buf.Length
      modifies this`head, this`freeSize
      ensures bs == flat[..n] && Holds(flat[n..]) && head == old(head) + n && freeSize == old(freeSize) + n
    {
      bs := buf[head..head + n];
      forall i | 0 <= i < n
        ensures bs[i] == flat[i]
      {
        assert At(i) == head + i;
      }
      head, freeSize := head + n, freeSize + n;
      forall i | 0 <= i < |flat[n..]|
        ensures buf[At(i)] == flat[n..][i]
      {
        assert flat[n..][i] == flat[n + i];
        assert At(i) == old(At(n + i));
      }
    }

    method WrapTail(ghost flat: seq<Byte>)
      requires Holds(flat) && freeSize > 0
      modifies this`tail
      ensures Holds(flat) && tail < buf.Length && (tail == old(tail) || (tail == 0 && old(tail) == buf.Length))
    {
      if tail == buf.Length {
        tail := 0;
      }
    }

    method WrapHead(ghost flat: seq<Byte>)
      requires Holds(flat) && |flat| > 0
      modifies this`head
      ensures Holds(flat) && head < buf.Length
    {
      if head == buf.Length {
        head := 0;
        forall i | 0 <= i < |flat|
          ensures buf[At(i)] == flat[i]
        {
          assert At(i) == old(At(i));
        }
      }
    }

    /** One of the two parts of a push: in one piece, or split at the end of the buffer. */
    method Store(bs: seq<Byte>, ghost flat: seq<Byte>)
      requires Holds(flat) && 0 < |bs| <= freeSize
      modifies this`tail, this`freeSize, buf
      ensures Holds(flat + bs)
    {
      WrapTail(flat);
      var split := buf.Length - tail;
      if tail >= head && split < |bs| {
        Put(bs[..split], flat);
        tail := 0;
        Put(bs[split..], flat + bs[..split]);
        assert flat + bs[..split] + bs[split..] == flat + bs;
      } else {
        Put(bs, flat);
      }
    }

    /** `ringbuf_push`: accepted if it fits, and then it is the last message. For the three lengths for which the sum
        wraps, the test is passed by messages that do not fit; what the copy writes outside of the buffer is not part of
        this model. */
    method Push(data: Message) returns (r: RingStatus)
      requires Valid()
      modifies this`tail, this`freeSize, this`msgs, buf
      ensures Valid()
      ensures r == RingInvalid <==> |data| == 0 || |data| >= LEN_LIMIT
      ensures r == RingFull <==> 0 < |data| < LEN_LIMIT && Used(old(msgs)) + Needed(|data|) > buf.Length
      ensures r == RingOverrun <==>
                0 < |data| < LEN_LIMIT &&
                Used(old(msgs)) + Needed(|data|) <= buf.Length < Used(old(msgs)) + LEN_BYTES + |data|
      ensures msgs == if r == RingOk then old(msgs) + [data] else old(msgs)
    {
      if |data| == 0 || |data| >= LEN_LIMIT {
        return RingInvalid;
      }
      if freeSize < Needed(|data|) {
        return RingFull;
      }
      if freeSize < LEN_BYTES + |data| {
        return RingOverrun;
      }
      Store(LengthBytes(|data|), Flat(msgs));
      Store(data, Flat(msgs) + LengthBytes(|data|));
      FlatAppend(msgs, data);
      FlatLength(msgs + [data]);
      msgs := msgs + [data];
      return RingOk;
    }

    /** `ringbuf_pop`: the oldest message. */
    method Pop() returns (data: Message)
      requires Valid() && msgs != []
      modifies this`head, this`freeSize, this`msgs
      ensures Valid() && old(msgs) == [data] + msgs
    {
      ghost var m, flat, tail := FirstMessage(msgs);
      hide Holds, Flat, Used, LengthBytes, LengthOf;
      var lenBytes := FetchLength(flat);
      data := FetchData(LengthOf(lenBytes), tail);
      HeldSize(Flat(msgs[1..]));
      msgs := msgs[1..];
    }

    lemma HeldSize(flat: seq<Byte>)
      requires Holds(flat)
      ensures |flat| + freeSize == buf.Length
    {
    }

    static lemma FirstMessage(msgs: seq<Message>) returns (m: Message, flat: seq<Byte>, tail: seq<Byte>)
      requires msgs != [] && 0 < |msgs[0]| < LEN_LIMIT
      ensures m == msgs[0] && msgs == [m] + msgs[1..] && flat == Flat(msgs) && |flat| == Used(msgs)
      ensures |flat| == LEN_BYTES + |tail| && LengthOf(flat[..LEN_BYTES]) == |m| && flat[LEN_BYTES..] == tail
      ensures |tail| == |m| + |Flat(msgs[1..])| && tail[..|m|] == m && tail[|m|..] == Flat(msgs[1..]) &&
        |Flat(msgs[1..])| == Used(msgs[1..])
    {
      m, flat, tail := msgs[0], Flat(msgs), msgs[0] + Flat(msgs[1..]);
      FlatLength(msgs);
      FlatLength(msgs[1..]);
      LengthRoundTrip(|m|);
      hide LengthOf, LengthBytes;
      assert flat == LengthBytes(|m|) + tail;
    }

    method FetchLength(ghost flat: seq<Byte>) returns (bs: seq<Byte>)
      requires Holds(flat) && |flat| > LEN_BYTES
      modifies this`head, this`freeSize
      ensures bs == flat[..LEN_BYTES] && Holds(flat[LEN_BYTES..])
    {
      WrapHead(flat);
      var split := buf.Length - head;
      if split < LEN_BYTES {
        var a := Take(split, flat);
        head := 0;
        assert Holds(flat[split..]);
        var b := Take(LEN_BYTES - split, flat[split..]);
        bs := a + b;
        assert flat[split..][LEN_BYTES - split..] == flat[LEN_BYTES..];
      } else {
        bs := Take(LEN_BYTES, flat);
      }
    }

    method FetchData(n: nat, ghost flat: seq<Byte>) returns (bs: seq<Byte>)
      requires Holds(flat) && 0 < n <= |flat| && |flat| < buf.Length
      modifies this`head, this`freeSize
      ensures bs == flat[..n] && Holds(flat[n..])
    {
      WrapHead(flat);
      var split := buf.Length - head;
      if head > tail && split < n {
        var a := Take(split, flat);
        head := 0;
        assert Holds(flat[split..]);
        var b := Take(n - split, flat[split..]);
        bs := a + b;
        assert flat[split..][n - split..] == flat[n..];
      } else {
        bs := Take(n, flat);
      }
    }

    /** `ringbuf_is_empty`, `ringbuf_is_full` and `ringbuf_reset` */
    method IsEmpty() returns (b: bool)
      requires Valid()
      ensures b <==> msgs == []
    {
      b := freeSize == buf.Length;
    }

    method IsFull() returns (b: bool)
      requires Valid()
      ensures b <==> forall m: Message :: 0 < |m| ==> Used(msgs) + LEN_BYTES + |m| > buf.Length
    {
      b := freeSize < LEN_BYTES + 1;
      ghost var one: Message := [0];
      assert !b ==> 0 < |one| && Used(msgs) + LEN_BYTES + |one| <= buf.Length;
    }

    method Reset()
      requires Valid()
      modifies this
      ensures Valid() && msgs == []
    {
      head, tail, freeSize, msgs := 0, 0, buf.Length, [];
    }
  }
}
