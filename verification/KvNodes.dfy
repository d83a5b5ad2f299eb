/** Key-value nodes and how they are laid out in a flash block: behind each other from the start, and erased flash
    behind the last one. */
module KvNodes {
  import opened KernelTypes

  /** A read-write node. */
  datatype Node = Node(key: seq<Byte>, value: seq<Byte>, version: nat, valid: bool)

  const NUL: Byte := 0
  const NEWLINE: Byte := 10
  const RETURN: Byte := 13
  const EQUALS: Byte := 61
  const ERASED: Byte := 255

  /** `RW_FLAG_SIZE`: the end of the key, two size bytes, the version and the equals sign. */
  const FLAG_SIZE: nat := 5

  /** The longest key, and the bound `kv_set` puts on key and value together. */
  const KEY_MAX: nat := 63
  const PAIR_LIMIT: nat := 498

  /** What `kv_set` writes: the key is a C string. */
  ghost predicate NodeOk(n: Node) {
    && 1 <= |n.key| <= KEY_MAX && 0 < |n.value| && |n.key| + |n.value| < PAIR_LIMIT && 1 <= n.version <= 255
    && forall i :: 0 <= i < |n.key| ==> n.key[i] != NUL
  }

  predicate IsPrint(b: Byte) {
    32 <= b <= 126
  }

  /** A key that reads like a text node: an equals sign (`alive` says whether there was one before), then a line break,
      and nothing but printable characters and carriage returns between them. */
  ghost predicate LooksLikeText(key: seq<Byte>, alive: bool) {
    if key == [] then false
    else if key[0] == EQUALS then LooksLikeText(key[1..], true)
    else if key[0] == NEWLINE then alive || LooksLikeText(key[1..], alive)
    else LooksLikeText(key[1..], alive && (key[0] == RETURN || IsPrint(key[0])))
  }

  /** Keys without line breaks are fine. */
  lemma {:induction false} NoLineBreak(key: seq<Byte>, alive: bool)
    requires NEWLINE !in key
    ensures !LooksLikeText(key, alive)
  {
    if key != [] {
      assert NEWLINE !in key[1..];
      NoLineBreak(key[1..], if key[0] == EQUALS then true else alive && (key[0] == RETURN || IsPrint(key[0])));
    }
  }

  /** The key "a=\n" is not. */
  lemma TextKey()
    ensures LooksLikeText([97, EQUALS, NEWLINE], false)
  {
    assert [97, EQUALS, NEWLINE][1..] == [EQUALS, NEWLINE];
    assert [EQUALS, NEWLINE][1..] == [NEWLINE];
  }

  function Align4(x: nat): (r: nat)
    ensures r % 4 == 0 && x <= r < x + 4
  {
    if x % 4 != 0 then 4 - x % 4 + x else x
  }

  /** The bytes before the erase word, and with it. */
  function BodySize(keyLen: nat, size: nat): nat {
    Align4(keyLen + size + FLAG_SIZE + 1)
  }

  function NodeSize(n: Node): (r: nat)
    ensures r % 4 == 0 && r >= 4 + FLAG_SIZE
  {
    BodySize(|n.key|, |n.value|) + 4
  }

  function SizeLow(size: nat): Byte {
    size % 0x100
  }

  /** The upper bits of the size share a byte with the key length. */
  function SizeHigh(keyLen: nat, size: nat): Byte
    requires keyLen <= KEY_MAX && size < 0x400
  {
    size / 0x100 + 4 * keyLen
  }

  function Fill(b: Byte, k: nat): (r: seq<Byte>)
    ensures |r| == k && forall i :: 0 <= i < k ==> r[i] == b
  {
    seq(k, i => b)
  }

  /** The buffer `kvblock_set` writes. */
  function Body(n: Node): (r: seq<Byte>)
    requires |n.key| <= KEY_MAX && |n.value| < 0x400
  {
    n.key + [NUL, SizeLow(|n.value|), SizeHigh(|n.key|, |n.value|), n.version % 0x100, EQUALS] + n.value +
      [SizeHigh(|n.key|, |n.value|)]
    + Fill(0, BodySize(|n.key|, |n.value|) - |n.key| - |n.value| - FLAG_SIZE - 1)
  }

  function EraseWord(valid: bool): (r: seq<Byte>)
    ensures |r| == 4
  {
    if valid then Fill(ERASED, 4) else Fill(0, 4)
  }

  function Encode(n: Node): (r: seq<Byte>)
    requires |n.key| <= KEY_MAX && |n.value| < 0x400
  {
    Body(n) + EraseWord(n.valid)
  }

  ghost predicate AllOk(nodes: seq<Node>) {
    forall i :: 0 <= i < |nodes| ==> NodeOk(nodes[i])
  }

  function Used(nodes: seq<Node>): (r: nat)
    ensures r % 4 == 0
  {
    if nodes == [] then 0 else NodeSize(nodes[0]) + Used(nodes[1..])
  }

  ghost function Flat(nodes: seq<Node>): seq<Byte>
    requires AllOk(nodes)
  {
    if nodes == [] then [] else Encode(nodes[0]) + Flat(nodes[1..])
  }

  /** From `start` on, flash holds `nodes` and is erased behind them, up to a word that is never used. */
  ghost predicate Laid(mem: seq<Byte>, start: nat, nodes: seq<Node>) {
    && AllOk(nodes) && start + Used(nodes) + 4 <= |mem|
    && mem[start..] == Flat(nodes) + Fill(ERASED, |mem| - start - Used(nodes))
  }

  lemma EncodeAt(n: Node)
    requires NodeOk(n)
    ensures var e, len, size := Encode(n), |n.key|, |n.value|;
            && |e| == NodeSize(n) && e[..len] == n.key && e[len] == NUL
            && e[len + 1] == SizeLow(size) && e[len + 2] == SizeHigh(len, size) && e[len + 3] == n.version &&
               e[len + 4] == EQUALS
            && e[len + FLAG_SIZE..len + FLAG_SIZE + size] == n.value && e[len + FLAG_SIZE + size] == SizeHigh(len, size)
            && e[|e| - 4..] == EraseWord(n.valid)
  {
    var len, size := |n.key|, |n.value|;
    var head := [NUL, SizeLow(size), SizeHigh(len, size), n.version % 0x100, EQUALS];
    assert Body(n) == n.key + (head + (n.value +
      ([SizeHigh(len, size)] + Fill(0, BodySize(len, size) - len - size - FLAG_SIZE - 1))));
    var e := Encode(n);
    assert e[len..len + FLAG_SIZE] == head;
    assert e[len + FLAG_SIZE..len + FLAG_SIZE + size] == n.value;
  }

  lemma EncodeParts(n: Node)
    requires NodeOk(n)
    ensures |n.key| + FLAG_SIZE + |n.value| <= NodeSize(n) == |Encode(n)|
    ensures Encode(n)[0..|n.key|] == n.key && Encode(n)[|n.key| + FLAG_SIZE..|n.key| + FLAG_SIZE + |n.value|] == n.value
  {
    EncodeAt(n);
  }

  /** The size bytes give back the two lengths. */
  lemma SizesRoundTrip(len: nat, size: nat)
    requires len <= KEY_MAX && size < 0x400
    ensures (SizeLow(size) as nat) + (SizeHigh(len, size) as nat) % 4 * 0x100 == size &&
      (SizeHigh(len, size) as nat) / 4 == len
  {
  }

  lemma {:induction false} FlatLength(nodes: seq<Node>)
    requires AllOk(nodes)
    ensures |Flat(nodes)| == Used(nodes)
  {
    if nodes != [] {
      EncodeAt(nodes[0]);
      FlatLength(nodes[1..]);
    }
  }

  lemma LaidFirst(mem: seq<Byte>, start: nat, nodes: seq<Node>)
    requires Laid(mem, start, nodes) && nodes != []
    ensures var size := NodeSize(nodes[0]);
            && start + size + 4 <= |mem| && mem[start..start + size] == Encode(nodes[0]) &&
               Laid(mem, start + size, nodes[1..])
  {
    EncodeAt(nodes[0]);
    FlatLength(nodes[1..]);
    var fill := Fill(ERASED, |mem| - start - Used(nodes));
    hide Encode, NodeSize, NodeOk;
    Peel(mem, start, Encode(nodes[0]), Flat(nodes[1..]), fill);
  }

  lemma Peel(mem: seq<Byte>, start: nat, e: seq<Byte>, rest: seq<Byte>, fill: seq<Byte>)
    requires start <= |mem| && mem[start..] == (e + rest) + fill
    ensures start + |e| <= |mem| && mem[start..start + |e|] == e && mem[start + |e|..] == rest + fill
  {
    var tail := mem[start..];
    assert tail == e + (rest + fill);
    assert tail[..|e|] == e && tail[|e|..] == rest + fill;
    assert mem[start..start + |e|] == tail[..|e|];
    assert mem[start + |e|..] == tail[|e|..];
  }

  // ----- Reading -----

  /** What a search reports: offsets, lengths and the erase word; a text node has no version. */
  datatype Seen =
    | Nothing
    | Stored(head: nat, keyLen: nat, valueAt: nat, valueLen: nat, version: nat, valid: bool, next: nat)
    | Text(head: nat, valueAt: nat, valueLen: nat, next: nat)

  ghost predicate Reports(r: Seen, mem: seq<Byte>, start: nat, nodes: seq<Node>)
    requires AllOk(nodes)
  {
    if nodes == [] then r == Nothing
    else
      var n := nodes[0];
      r == Stored(start, |n.key|, start + |n.key| + FLAG_SIZE, |n.value|, n.version, n.valid, start + NodeSize(n))
  }

  /** A byte of the block; what lies behind the block counts as zero. */
  function Peek(mem: seq<Byte>, i: nat): Byte {
    if i < |mem| then mem[i] else 0
  }

  /** The bytes of the first node, one by one. */
  lemma LaidFields(mem: seq<Byte>, start: nat, nodes: seq<Node>)
    requires Laid(mem, start, nodes) && nodes != []
    ensures var n, c, size := nodes[0], start + |nodes[0].key|, |nodes[0].value|;
            && NodeOk(n) && c + FLAG_SIZE + size < |mem| && start + NodeSize(n) <= |mem|
            && mem[c] == NUL && mem[c + 1] == SizeLow(size) && mem[c + 2] == SizeHigh(|n.key|, size) &&
               mem[c + 3] == n.version
            && mem[c + 4] == EQUALS && mem[c + FLAG_SIZE + size] == SizeHigh(|n.key|, size)
            && (forall i :: start + NodeSize(n) - 4 <= i < start + NodeSize(n) ==> mem[i] == if n.valid then ERASED
               else 0)
  {
    hide *;
    LaidFirst(mem, start, nodes);
    LaidOk(mem, start, nodes);
    FirstOk(nodes);
    var n, e := nodes[0], Encode(nodes[0]);
    var len, k := |n.key|, |n.value|;
    EncodeBytes(n);
    SliceAt(mem, start, e, len);
    SliceAt(mem, start, e, len + 1);
    SliceAt(mem, start, e, len + 2);
    SliceAt(mem, start, e, len + 3);
    SliceAt(mem, start, e, len + 4);
    SliceAt(mem, start, e, len + FLAG_SIZE + k);
    SliceTail(mem, start, e, if n.valid then ERASED else 0);
  }

  lemma LaidOk(mem: seq<Byte>, start: nat, nodes: seq<Node>)
    requires Laid(mem, start, nodes)
    ensures AllOk(nodes)
  {
  }

  lemma EncodeBytes(n: Node)
    requires NodeOk(n)
    ensures |n.key| <= KEY_MAX && |n.value| < 0x400
    ensures var e, len, size := Encode(n), |n.key|, |n.value|;
            && |e| == NodeSize(n) >= len + FLAG_SIZE + size + 5 && e[len] == NUL
            && e[len + 1] == SizeLow(size) && e[len + 2] == SizeHigh(len, size) && e[len + 3] == n.version &&
               e[len + 4] == EQUALS
            && e[len + FLAG_SIZE + size] == SizeHigh(len, size)
            && forall i :: |e| - 4 <= i < |e| ==> e[i] == if n.valid then ERASED else 0
  {
    SameBody(n);
    EncodeAt(n);
    FirstOk([n]);
    hide *;
    var e := Encode(n);
    forall i | |e| - 4 <= i < |e|
      ensures e[i] == if n.valid then ERASED else 0
    {
      SliceAt(e, |e| - 4, EraseWord(n.valid), i - (|e| - 4));
      EraseWordBytes(n.valid, i - (|e| - 4));
    }
  }

  lemma SliceTail(mem: seq<Byte>, start: nat, e: seq<Byte>, b: Byte)
    requires start + |e| <= |mem| && mem[start..start + |e|] == e && |e| >= 4 && forall i :: |e| - 4 <= i < |e| ==>
      e[i] == b
    ensures forall i :: start + |e| - 4 <= i < start + |e| ==> mem[i] == b
  {
    forall i | start + |e| - 4 <= i < start + |e|
      ensures mem[i] == b
    {
      SliceAt(mem, start, e, i - start);
    }
  }

  lemma SliceAt(mem: seq<Byte>, start: nat, e: seq<Byte>, i: nat)
    requires start + |e| <= |mem| && mem[start..start + |e|] == e && i < |e|
    ensures mem[start + i] == e[i]
  {
    assert mem[start..start + |e|][i] == mem[start + i];
  }

  lemma FirstOk(nodes: seq<Node>)
    requires AllOk(nodes) && nodes != []
    ensures NodeOk(nodes[0]) && |nodes[0].key| <= KEY_MAX && 0 < |nodes[0].value| < 0x400
    ensures NodeSize(nodes[0]) >= |nodes[0].key| + |nodes[0].value| + FLAG_SIZE + 5
  {
  }

  lemma EraseWordBytes(valid: bool, i: nat)
    requires i < 4
    ensures EraseWord(valid)[i] == if valid then ERASED else 0
  {
  }

  /** The fields of a node whose key ends at `c`, if the tests on them pass. */
  method ParseAt(mem: seq<Byte>, c: nat, ghost start: nat, ghost nodes: seq<Node>) returns (r: Seen)
    requires c < |mem|
    ensures r.Nothing? || r.Stored?
    ensures Laid(mem, start, nodes) && nodes != [] && c == start + |nodes[0].key| ==> Reports(r, mem, start, nodes)
  {
    ghost var laid := Laid(mem, start, nodes) && nodes != [] && c == start + |nodes[0].key|;
    if laid {
      LaidFields(mem, start, nodes);
      SizesRoundTrip(|nodes[0].key|, |nodes[0].value|);
    }
    hide Laid, Encode, SizeLow, SizeHigh;
    var valueLen := (Peek(mem, c + 1) as nat) + (Peek(mem, c + 2) as nat) % 4 * 0x100;
    var keyLen := (Peek(mem, c + 2) as nat) / 4;
    assert laid ==> valueLen == |nodes[0].value| && keyLen == |nodes[0].key|;
    if Peek(mem, c + 4) != EQUALS || c + valueLen >= |mem| || c < keyLen ||
      Peek(mem, c + 2) != Peek(mem, c + valueLen + FLAG_SIZE) {
      return Nothing;
    }
    var nodeSize := BodySize(keyLen, valueLen) + 4;
    var word := c - keyLen + nodeSize - 4;
    var valid := Peek(mem, word) != 0 || Peek(mem, word + 1) != 0 || Peek(mem, word + 2) != 0 ||
      Peek(mem, word + 3) != 0;
    r := Stored(c - keyLen, keyLen, c + FLAG_SIZE, valueLen, Peek(mem, c + 3) as nat, valid, c - keyLen + nodeSize);
  }

  /** `kvblock_search`. On flash that holds whole nodes it reports the first of them, exactly, unless its key looks like
      a text node; then it takes it for one. */
  method Search(mem: seq<Byte>, start: nat, ghost nodes: seq<Node>) returns (r: Seen)
    requires start <= |mem|
    ensures Laid(mem, start, nodes) && nodes == [] ==> r == Nothing
    ensures Laid(mem, start, nodes) && nodes != [] ==> if LooksLikeText(nodes[0].key, false) then r.Text?
      else Reports(r, mem, start, nodes)
  {
    ghost var laid := Laid(mem, start, nodes);
    ghost var key := if !laid || nodes == [] then [] else nodes[0].key;
    ghost var stop := if !laid || nodes == [] then |mem| else start + |key|;
    if laid {
      LaidBytes(mem, start, nodes);
    }
    hide Laid;
    var c := start;
    while c < |mem| && mem[c] == NUL
      invariant start <= c <= |mem| && (laid ==> c == start)
    {
      c := c + 1;
    }
    var head, delim := c, -1;
    assert key[0..] == key;
    while c < |mem| - 1
      invariant start <= c <= |mem| && delim < c && (laid ==> c <= stop) &&
        (laid && nodes == [] ==> c <= |mem| - 1 && delim < 0)
      invariant laid && nodes != [] ==> (LooksLikeText(key[c - start..], delim >= 0) <==> LooksLikeText(key, false))
    {
      if mem[c] == NUL {
        r := ParseAt(mem, c, start, nodes);
        if r.Stored? {
          return;
        }
      } else if mem[c] == EQUALS {
        delim := c;
      } else if mem[c] == NEWLINE {
        if delim >= 0 {
          return Text(head, delim + 1, c - delim - 1, c + 1);
        }
      } else if mem[c] != RETURN && delim >= 0 && !IsPrint(mem[c]) {
        delim := -1;
      }
      assert laid && nodes != [] ==> key[c - start..][1..] == key[c + 1 - start..];
      c := c + 1;
    }
    return Nothing;
  }

  /** Before the end of the first key there is no end of string, and erased flash has none at all. */
  lemma LaidBytes(mem: seq<Byte>, start: nat, nodes: seq<Node>)
    requires Laid(mem, start, nodes)
    ensures start < |mem|
    ensures nodes == [] ==> forall c :: start <= c < |mem| ==> mem[c] == ERASED
    ensures nodes != [] ==>
      start + |nodes[0].key| < |mem| - 1 && mem[start + |nodes[0].key|] == NUL && |nodes[0].key| > 0
    ensures nodes != [] ==> forall c :: start <= c < start + |nodes[0].key| ==> mem[c] == nodes[0].key[c - start] != NUL
  {
    if nodes == [] {
      forall c | start <= c < |mem|
        ensures mem[c] == ERASED
      {
        assert mem[c] == mem[start..][c - start];
      }
    } else {
      LaidFields(mem, start, nodes);
      NodeSlices(mem, start, nodes);
      hide Laid;
      var key := nodes[0].key;
      forall c | start <= c < start + |key|
        ensures mem[c] == key[c - start]
      {
        assert mem[c] == mem[start..start + |key|][c - start];
      }
    }
  }

  /** `kvblock_iter` over all nodes: flash is read back as exactly the nodes that were written, in order, with their
      erase marks. */
  method ReadAll(mem: seq<Byte>, ghost nodes: seq<Node>) returns (out: seq<Node>)
    requires Laid(mem, 0, nodes) && forall i :: 0 <= i < |nodes| ==> !LooksLikeText(nodes[i].key, false)
    ensures out == nodes
  {
    hide Laid, NodeOk, LooksLikeText;
    out := [];
    var next: nat := 0;
    ghost var rest := nodes;
    LaidIsOk(mem, 0, nodes);
    while true
      invariant Laid(mem, next, rest) && next <= |mem| && AllOk(rest) && out + rest == nodes
      invariant forall i :: 0 <= i < |rest| ==> !LooksLikeText(rest[i].key, false)
      decreases |rest|
    {
      var r := Search(mem, next, rest);
      if r == Nothing {
        break;
      }
      LaidFirst(mem, next, rest);
      LaidIsOk(mem, next + NodeSize(rest[0]), rest[1..]);
      var n := ReadNode(mem, r, next, rest);
      out, next, rest := out + [n], r.next, rest[1..];
    }
  }

  lemma LaidIsOk(mem: seq<Byte>, start: nat, nodes: seq<Node>)
    requires Laid(mem, start, nodes)
    ensures AllOk(nodes) && start <= |mem|
  {
  }

  method ReadNode(mem: seq<Byte>, r: Seen, start: nat, ghost nodes: seq<Node>) returns (n: Node)
    requires Laid(mem, start, nodes) && nodes != [] && AllOk(nodes) && Reports(r, mem, start, nodes)
    ensures n == nodes[0]
  {
    hide *;
    NodeSlices(mem, start, nodes);
    ReportsFields(r, mem, start, nodes);
    n := Node(mem[r.head..r.head + r.keyLen], mem[r.valueAt..r.valueAt + r.valueLen], r.version, r.valid);
  }

  lemma ReportsFields(r: Seen, mem: seq<Byte>, start: nat, nodes: seq<Node>)
    requires AllOk(nodes) && nodes != [] && Reports(r, mem, start, nodes)
    ensures r.Stored? && r.head == start && r.keyLen == |nodes[0].key| &&
      r.valueAt == start + |nodes[0].key| + FLAG_SIZE
    ensures r.valueLen == |nodes[0].value| && r.version == nodes[0].version && r.valid == nodes[0].valid
  {
  }

  lemma NodeSlices(mem: seq<Byte>, start: nat, nodes: seq<Node>)
    requires Laid(mem, start, nodes) && nodes != []
    ensures var n, c := nodes[0], start + |nodes[0].key| + FLAG_SIZE;
            c + |n.value| <= |mem| && mem[start..start + |n.key|] == n.key && mem[c..c + |n.value|] == n.value
  {
    LaidOk(mem, start, nodes);
    LaidFirst(mem, start, nodes);
    EncodeParts(nodes[0]);
    hide *;
    var n := nodes[0];
    SliceOfSlice(mem, start, NodeSize(n), 0, |n.key|);
    SliceOfSlice(mem, start, NodeSize(n), |n.key| + FLAG_SIZE, |n.value|);
  }

  lemma SliceOfSlice(mem: seq<Byte>, start: nat, size: nat, i: nat, k: nat)
    requires start + size <= |mem| && i + k <= size
    ensures mem[start..start + size][i..i + k] == mem[start + i..start + i + k]
  {
    var s, t := mem[start..start + size][i..i + k], mem[start + i..start + i + k];
    forall j | 0 <= j < k
      ensures s[j] == t[j]
    {
      assert s[j] == mem[start..start + size][i + j];
    }
  }

  // ----- Writing -----

  /** Flash after a write. */
  function Overwrite(mem: seq<Byte>, at: nat, bs: seq<Byte>): (r: seq<Byte>)
    requires at + |bs| <= |mem|
  {
    mem[..at] + bs + mem[at + |bs|..]
  }

  lemma {:induction false} FlatSplit(a: seq<Node>, b: seq<Node>)
    requires AllOk(a) && AllOk(b)
    ensures AllOk(a + b) && Flat(a + b) == Flat(a) + Flat(b) && Used(a + b) == Used(a) + Used(b)
  {
    hide Encode, NodeSize;
    if a != [] {
      FlatSplit(a[1..], b);
      assert (a + b)[1..] == a[1..] + b && (a + b)[0] == a[0];
      Associate(Encode(a[0]), Flat(a[1..]), Flat(b));
    } else {
      assert a + b == b && [] + Flat(b) == Flat(b);
    }
  }

  lemma Associate(a: seq<Byte>, b: seq<Byte>, c: seq<Byte>)
    ensures (a + b) + c == a + (b + c)
  {
  }

  lemma OverwriteMiddle(a: seq<Byte>, x: seq<Byte>, y: seq<Byte>, b: seq<Byte>)
    requires |x| == |y|
    ensures Overwrite(a + x + b, |a|, y) == a + y + b
  {
  }

  lemma FillSplit(b: Byte, i: nat, j: nat)
    ensures Fill(b, i + j) == Fill(b, i) + Fill(b, j)
  {
  }

  lemma Regroup(a: seq<Byte>, x: seq<Byte>, w: seq<Byte>, b: seq<Byte>, f: seq<Byte>)
    ensures (a + x) + w + (b + f) == (a + x + w + b) + f
  {
  }

  lemma OverwriteWord(mem: seq<Byte>, a: seq<Byte>, x: seq<Byte>, w: seq<Byte>, w': seq<Byte>, b: seq<Byte>,
      f: seq<Byte>)
    requires mem == (a + x + w + b) + f && |w| == |w'|
    ensures Overwrite(mem, |a| + |x|, w') == (a + x + w' + b) + f
  {
    Regroup(a, x, w, b, f);
    OverwriteMiddle(a + x, w, w', b + f);
    Regroup(a, x, w', b, f);
  }

  lemma OverwriteErased(mem: seq<Byte>, a: seq<Byte>, x: seq<Byte>, y: seq<Byte>, w: seq<Byte>, f: seq<Byte>)
    requires mem == a + (x + (w + f)) && |x| == |y|
    ensures Overwrite(mem, |a|, y) == (a + (y + w)) + f
  {
    assert mem == a + x + (w + f);
    OverwriteMiddle(a, x, y, w + f);
  }

  /** A block that holds `nodes` from its start. */
  lemma LaidWhole(mem: seq<Byte>, nodes: seq<Node>)
    requires AllOk(nodes) && Used(nodes) + 4 <= |mem|
    ensures Laid(mem, 0, nodes) <==> mem == Flat(nodes) + Fill(ERASED, |mem| - Used(nodes))
  {
    assert mem[0..] == mem;
  }

  lemma FlatOne(n: Node)
    requires NodeOk(n)
    ensures AllOk([n]) && Flat([n]) == Body(n) + EraseWord(n.valid) && EraseWord(true) == Fill(ERASED, 4) &&
      |Body(n)| == NodeSize(n) - 4 && Used([n]) == NodeSize(n)
  {
    EncodeAt(n);
    assert Flat([n]) == Encode(n) + Flat([n][1..]);
  }

  /** Writing the buffer of a node behind the others appends the node; its erase word is erased flash. */
  lemma AppendNode(mem: seq<Byte>, nodes: seq<Node>, n: Node)
    requires Laid(mem, 0, nodes) && NodeOk(n) && n.valid && Used(nodes) + NodeSize(n) + 4 <= |mem|
    ensures |Body(n)| == NodeSize(n) - 4 && Laid(Overwrite(mem, Used(nodes), Body(n)), 0, nodes + [n])
  {
    hide *;
    SameBody(n);
    LaidFits(mem, nodes);
    FlatOne(n);
    FlatSplit(nodes, [n]);
    FlatLength(nodes);
    var k, left := |Body(n)|, |mem| - Used(nodes) - NodeSize(n);
    FillSplit(ERASED, k, 4 + left);
    FillSplit(ERASED, 4, left);
    LaidWhole(mem, nodes);
    OverwriteErased(mem, Flat(nodes), Fill(ERASED, k), Body(n), Fill(ERASED, 4), Fill(ERASED, left));
    LaidWhole(Overwrite(mem, Used(nodes), Body(n)), nodes + [n]);
  }

  lemma FlatAround(a: seq<Node>, n: Node, b: seq<Node>)
    requires AllOk(a) && NodeOk(n) && AllOk(b)
    ensures AllOk(a + [n] + b) && Flat(a + [n] + b) == Flat(a) + Body(n) + EraseWord(n.valid) + Flat(b)
    ensures Used(a + [n] + b) == Used(a) + NodeSize(n) + Used(b) && |Flat(a)| == Used(a) &&
      |Body(n)| == NodeSize(n) - 4 && Used(a + [n]) == Used(a) + NodeSize(n)
  {
    hide *;
    SameBody(n);
    FlatOne(n);
    FlatSplit(a, [n]);
    FlatSplit(a + [n], b);
    FlatLength(a);
    Associate(Flat(a), Body(n), EraseWord(n.valid));
  }

  /** Zeroing the erase word of a node marks it, and changes nothing else. */
  lemma MarkNode(mem: seq<Byte>, a: seq<Node>, n: Node, b: seq<Node>)
    requires Laid(mem, 0, a + [n] + b) && AllOk(a) && NodeOk(n) && AllOk(b)
    ensures 4 <= Used(a + [n]) <= |mem| &&
      Laid(Overwrite(mem, Used(a + [n]) - 4, EraseWord(false)), 0, a + [n.(valid := false)] + b)
  {
    hide *;
    var n' := n.(valid := false);
    SameBody(n);
    FlatAround(a, n, b);
    FlatAround(a, n', b);
    LaidFits(mem, a + [n] + b);
    LaidWhole(mem, a + [n] + b);
    OverwriteWord(mem, Flat(a), Body(n), EraseWord(n.valid), EraseWord(false), Flat(b),
      Fill(ERASED, |mem| - Used(a + [n] + b)));
    LaidWhole(Overwrite(mem, Used(a + [n]) - 4, EraseWord(false)), a + [n'] + b);
  }

  lemma SameBody(n: Node)
    requires NodeOk(n)
    ensures var n' := n.(valid := false);
      NodeOk(n') && Body(n') == Body(n) && NodeSize(n') == NodeSize(n) && |n.key| <= KEY_MAX && |n.value| < 0x400
  {
  }

  lemma LaidFits(mem: seq<Byte>, nodes: seq<Node>)
    requires Laid(mem, 0, nodes)
    ensures AllOk(nodes) && Used(nodes) + 4 <= |mem|
  {
  }

  /** An erased block holds nothing. */
  lemma ErasedIsEmpty(size: nat)
    requires size >= 4
    ensures Laid(Fill(ERASED, size), 0, [])
  {
    assert Fill(ERASED, size)[0..] == Fill(ERASED, size);
  }
}
