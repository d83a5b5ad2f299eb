/** The key-value store: append-only nodes in flash blocks, a spare block, and garbage collection into it. The build
    without the hash cache, with read-write nodes only. */
module KvStores {
  import opened KernelTypes
  import opened KvNodes
  import opened KvMaps

  /** `kvblock_t` */
  datatype Block = Block(mem: seq<Byte>, writeOffset: nat, kvSize: nat, count: nat)

  /** The counters of a block agree with the nodes in its flash. */
  ghost predicate BlockOk(b: Block, nodes: seq<Node>, size: nat) {
    && |b.mem| == size && Laid(b.mem, 0, nodes) && Readable(nodes)
    && b.writeOffset == Used(nodes) && b.kvSize == ValidSize(nodes) && b.count == ValidCount(nodes)
  }

  ghost predicate Readable(nodes: seq<Node>) {
    forall j :: 0 <= j < |nodes| ==> !LooksLikeText(nodes[j].key, false)
  }

  ghost predicate BlocksOk(blocks: seq<Block>, nodes: seq<seq<Node>>, size: nat) {
    |blocks| == |nodes| && forall i :: 0 <= i < |blocks| ==> BlockOk(blocks[i], nodes[i], size)
  }

  /** `kvblock_set`, once the node is known to fit. */
  method AppendTo(b: Block, n: Node, size: nat, ghost nodes: seq<Node>) returns (b': Block)
    requires BlockOk(b, nodes, size) && NodeOk(n) && n.valid && !LooksLikeText(n.key, false) &&
      b.writeOffset + NodeSize(n) + 4 <= size
    ensures BlockOk(b', nodes + [n], size)
    ensures StoresBody(b.mem, b.writeOffset, n) && b'.mem == Overwrite(b.mem, b.writeOffset, Body(n))
  {
    hide Laid, LooksLikeText;
    AppendNode(b.mem, nodes, n);
    BytesBehind(b.mem, nodes);
    CountAppend(nodes, n);
    hide NodeOk, Body;
    b' := Block(Overwrite(b.mem, b.writeOffset, Body(n)), b.writeOffset + NodeSize(n), b.kvSize + NodeSize(n),
      b.count + 1);
  }

  /** `kvnode_t`: a node, where it is, and where it ends. */
  datatype Place = Place(block: nat, index: nat, node: Node, end: nat)

  ghost predicate PlaceOk(p: Place, nodes: seq<seq<Node>>) {
    At(nodes, p.block, p.index) && nodes[p.block][p.index] == p.node && p.end == Used(nodes[p.block][..p.index + 1])
  }

  /** `kvnode_rm`: the erase word is zeroed, or the block is erased if nothing else in it is valid. */
  method MarkIn(b: Block, p: Place, size: nat, ghost nodes: seq<Node>) returns (b': Block)
    requires BlockOk(b, nodes, size) && size >= 4 && p.index < |nodes| && nodes[p.index] == p.node && p.node.valid &&
      p.end == Used(nodes[..p.index + 1])
    ensures BlockOk(b', Marked(nodes, p.index), size)
    ensures if b.count > 1 then 4 <= p.end <= |b.mem| && b'.mem == Overwrite(b.mem, p.end - 4, EraseWord(false))
            else b'.mem == Fill(ERASED, size)
  {
    hide LooksLikeText;
    CountAt(nodes, p.index);
    if b.count > 1 {
      b' := MarkWord(b, p, size, nodes);
    } else {
      ErasedIsEmpty(size);
      hide Laid;
      b' := Block(Fill(ERASED, size), 0, 0, 0);
    }
  }

  method MarkWord(b: Block, p: Place, size: nat, ghost nodes: seq<Node>) returns (b': Block)
    requires BlockOk(b, nodes, size) && p.index < |nodes| && nodes[p.index] == p.node && p.node.valid &&
      p.end == Used(nodes[..p.index + 1])
    ensures BlockOk(b', nodes[p.index := p.node.(valid := false)], size)
    ensures 4 <= p.end <= |b.mem| && b'.mem == Overwrite(b.mem, p.end - 4, EraseWord(false))
  {
    hide Laid, LooksLikeText, Overwrite, EraseWord, NodeSize;
    MarkedBlock(b.mem, nodes, p.index, p.end);
    b' := Block(Overwrite(b.mem, p.end - 4, EraseWord(false)), b.writeOffset, b.kvSize - NodeSize(p.node), b.count - 1);
  }

  lemma MarkedBlock(mem: seq<Byte>, nodes: seq<Node>, j: nat, end: nat)
    requires Laid(mem, 0, nodes) && Readable(nodes) && j < |nodes| && nodes[j].valid && end == Used(nodes[..j + 1])
    ensures 4 <= end <= |mem| && NodeSize(nodes[j]) <= ValidSize(nodes) && ValidCount(nodes) > 0
    ensures var ns, mem' := nodes[j := nodes[j].(valid := false)], Overwrite(mem, end - 4, EraseWord(false));
            && |mem'| == |mem| && Laid(mem', 0, ns) && Readable(ns)
            && Used(ns) == Used(nodes) && ValidSize(ns) == ValidSize(nodes) - NodeSize(nodes[j]) &&
               ValidCount(ns) == ValidCount(nodes) - 1
  {
    var n, a, c := nodes[j], nodes[..j], nodes[j + 1..];
    ThreeParts(nodes, j);
    LaidFits(mem, nodes);
    CountAt(nodes, j);
    UsedMarked(nodes, j);
    hide Laid, LooksLikeText, Used, ValidSize, ValidCount, NodeSize;
    MarkNode(mem, a, n, c);
  }

  lemma ThreeParts(nodes: seq<Node>, j: nat)
    requires j < |nodes|
    ensures var n, a, c := nodes[j], nodes[..j], nodes[j + 1..];
            nodes == a + [n] + c && nodes[..j + 1] == a + [n] &&
              nodes[j := n.(valid := false)] == a + [n.(valid := false)] + c
  {
  }

  /** All that is valid in block `v` fits behind what is in the spare block, before its last word. */
  ghost predicate Fits(blocks: seq<Block>, v: nat, gc: nat, size: nat) {
    v < |blocks| && gc < |blocks| && blocks[v].kvSize + blocks[gc].writeOffset + 4 <= size
  }

  /** Node `p` is now in the spare block, with the next version. */
  ghost predicate Moved(n: seq<seq<Node>>, n': seq<seq<Node>>, p: Place, gc: nat) {
    && p.block < |n| && p.index < |n[p.block]| && gc < |n| && gc != p.block
    && n' == n[gc := n[gc] + [p.node.(version := Succ(p.node.version))]][p.block := Marked(n[p.block], p.index)]
  }

  /** Two writes: the copy, and the removal of the original. */
  ghost predicate Copied(log: seq<seq<seq<Node>>>, log': seq<seq<seq<Node>>>, n: seq<seq<Node>>, n': seq<seq<Node>>,
      gc: int, node: Node) {
    0 <= gc < |n| && log' == log + [Append(n, gc, node.(version := Succ(node.version))), n']
  }

  /** The nodes of a block before place `j` are gone from `cur`, the others are as they were; the block is erased as
      soon as nothing is left. */
  ghost predicate Left(ns: seq<Node>, cur: seq<Node>, j: nat) {
    || (cur == [] && forall y :: j <= y < |ns| ==> !ns[y].valid)
    || (|cur| == |ns| && ValidCount(cur) > 0
        && (forall y :: 0 <= y < |ns| ==> cur[y] == ns[y].(valid := cur[y].valid))
        && (forall y :: 0 <= y < j && y < |ns| ==> !cur[y].valid)
        && (forall y :: j <= y < |ns| ==> cur[y] == ns[y]))
  }

  /** Block `b` is among the `k` blocks from `start` on, counted around. */
  ghost predicate Passed(b: nat, start: nat, k: nat, n: nat) {
    b < n && (start <= b < start + k || b + n < start + k)
  }

  /** How far the search for half-written words behind the last node goes. */
  const SCAN_END: nat := 512

  /** Sizes and offsets in a block have 16 bits. */
  const SIZE_MAX: nat := 0xFFFF

  ghost predicate FlashOk(flash: seq<seq<Byte>>, n: seq<seq<Node>>, size: nat) {
    && |flash| == |n|
    && forall i :: 0 <= i < |flash| ==> |flash[i]| == size && Laid(flash[i], 0, n[i]) && Readable(n[i])
  }

  /** The flash, block by block. */
  function Image(blocks: seq<Block>): seq<seq<Byte>> {
    seq(|blocks|, i requires 0 <= i < |blocks| => blocks[i].mem)
  }

  lemma ImageOk(blocks: seq<Block>, nodes: seq<seq<Node>>, size: nat)
    requires BlocksOk(blocks, nodes, size)
    ensures FlashOk(Image(blocks), nodes, size)
  {
    hide Laid, LooksLikeText;
    forall i | 0 <= i < |blocks|
      ensures |Image(blocks)[i]| == size && Laid(Image(blocks)[i], 0, nodes[i]) && Readable(nodes[i])
    {
      assert BlockOk(blocks[i], nodes[i], size);
    }
  }

  type Flash = seq<seq<Byte>>

  /** What the driver can be asked to do in one go: write the body of a node, write an erase word, erase a block. */
  datatype FlashOp = Store(block: nat, at: nat, node: Node) | Mark(block: nat, at: nat) | Wipe(block: nat)

  /** `f'` is the flash `f` after this one operation. A node is written only where the flash is erased. */
  ghost predicate Effect(f: Flash, f': Flash, op: FlashOp) {
    op.block < |f| && var mem := f[op.block];
    match op
    case Store(b, at, n) => StoresBody(mem, at, n) && f' == f[b := Overwrite(mem, at, Body(n))]
    case Mark(b, at) => at + 4 <= |mem| && f' == f[b := Overwrite(mem, at, EraseWord(false))]
    case Wipe(b) => f' == f[b := Fill(ERASED, |mem|)]
  }

  ghost predicate StoresBody(mem: seq<Byte>, at: nat, n: Node) {
    |n.key| <= KEY_MAX && |n.value| < 0x400 && at + |Body(n)| <= |mem| && forall x :: at <= x < at + |Body(n)| ==>
      mem[x] == ERASED
  }

  ghost predicate OneWrite(f: Flash, f': Flash) {
    exists op :: Effect(f, f', op)
  }

  /** From the flash `f`, one write or erase after the other leaves what is in `images`, and `f'` in the end. */
  ghost predicate Chain(f: Flash, images: seq<Flash>, f': Flash) {
    && f' == Before(f, images, |images|)
    && forall k: nat :: k < |images| ==> Follows(f, images, k)
  }

  ghost predicate Follows(f: Flash, images: seq<Flash>, k: nat) {
    k < |images| && OneWrite(Before(f, images, k), images[k])
  }

  ghost function Before(f: Flash, images: seq<Flash>, k: nat): Flash
    requires k <= |images|
  {
    if k == 0 then f else images[k - 1]
  }

  lemma ChainLonger(f: Flash, images: seq<Flash>, f': Flash, f'': Flash)
    requires Chain(f, images, f') && OneWrite(f', f'')
    ensures Chain(f, images + [f''], f'')
  {
    hide OneWrite;
    var all := images + [f''];
    forall k: nat | k < |all|
      ensures Follows(f, all, k)
    {
      if k < |images| {
        assert Follows(f, images, k);
      }
    }
  }

  /** What was written after `a`, where the flash was `f'`. */
  lemma ChainTail(f: Flash, a: seq<Flash>, f': Flash, b: seq<Flash>, f'': Flash)
    requires Chain(f, a, f') && Chain(f, b, f'') && a <= b
    ensures Chain(f', b[|a|..], f'')
  {
    hide OneWrite;
    var tail := b[|a|..];
    forall k: nat | k < |tail|
      ensures Follows(f', tail, k)
    {
      assert Follows(f, b, |a| + k);
    }
  }

  lemma StoredIn(blocks: seq<Block>, b: nat, b': Block, n: Node)
    requires b < |blocks| && StoresBody(blocks[b].mem, blocks[b].writeOffset, n)
    requires b'.mem == Overwrite(blocks[b].mem, blocks[b].writeOffset, Body(n))
    ensures OneWrite(Image(blocks), Image(blocks[b := b']))
  {
    hide Overwrite, Body, StoresBody;
    ImageChanged(blocks, b, b');
    assert Effect(Image(blocks), Image(blocks[b := b']), Store(b, blocks[b].writeOffset, n));
  }

  lemma RemovedFrom(blocks: seq<Block>, nodes: seq<seq<Node>>, size: nat, p: Place, b': Block)
    requires p.block < |blocks| && BlocksOk(blocks, nodes, size)
    requires var b := blocks[p.block];
      if b.count > 1 then 4 <= p.end <= |b.mem| && b'.mem == Overwrite(b.mem, p.end - 4, EraseWord(false))
      else b'.mem == Fill(ERASED, size)
    ensures OneWrite(Image(blocks), Image(blocks[p.block := b']))
  {
    hide Laid, LooksLikeText, Overwrite, EraseWord;
    assert BlockOk(blocks[p.block], nodes[p.block], size);
    ImageChanged(blocks, p.block, b');
    var f, f' := Image(blocks), Image(blocks[p.block := b']);
    if blocks[p.block].count > 1 {
      assert Effect(f, f', Mark(p.block, p.end - 4));
    } else {
      assert Effect(f, f', Wipe(p.block));
    }
  }

  lemma ImageChanged(blocks: seq<Block>, b: nat, b': Block)
    requires b < |blocks|
    ensures Image(blocks[b := b']) == Image(blocks)[b := b'.mem]
  {
  }

  /** Each entry of `images` is the flash that holds the nodes in the same entry of `log`. */
  ghost predicate LogOk(images: seq<Flash>, log: seq<seq<seq<Node>>>, size: nat) {
    |images| == |log| && forall k :: 0 <= k < |log| ==> |log[k]| > 0 && FlashOk(images[k], log[k], size)
  }

  /** More than the last word of block `i` will be free once blocks without valid nodes are erased. */
  ghost predicate RoomLeft(n: seq<seq<Node>>, i: nat, size: nat) {
    i < |n| && (ValidCount(n[i]) == 0 || Used(n[i]) + 4 < size)
  }

  function WordAt(mem: seq<Byte>, at: nat): seq<Byte>
    requires at + 4 <= |mem|
  {
    mem[at..at + 4]
  }

  /** `kvblock_calc`: the counters of a block, from its flash. */
  method Calc(mem: seq<Byte>, size: nat, ghost ns: seq<Node>) returns (b: Block)
    requires |mem| == size >= SCAN_END && size % 4 == 0 && Laid(mem, 0, ns) && Readable(ns)
    ensures BlockOk(b, ns, size) && b.mem == mem
  {
    hide Laid, LooksLikeText, NodeSize;
    var nodes := ReadAll(mem, ns);
    var kvSize, count, end := 0, 0, 0;
    for j := 0 to |nodes|
      invariant kvSize == ValidSize(nodes[..j]) && count == ValidCount(nodes[..j]) && end == Used(nodes[..j])
    {
      StepCounts(nodes, j);
      if nodes[j].valid {
        kvSize, count := kvSize + NodeSize(nodes[j]), count + 1;
      }
      end := end + NodeSize(nodes[j]);
    }
    assert nodes[..|nodes|] == nodes;
    LaidFits(mem, ns);
    ErasedBehind(mem, ns);
    var offset, v := end, end;
    while v < SCAN_END - 4
      invariant end <= v && v % 4 == 0 && offset == end
      decreases SCAN_END - v
    {
      if WordAt(mem, v) != WordAt(mem, size - 4) {
        offset := v + 4;
      }
      v := v + 4;
    }
    b := Block(mem, offset, kvSize, count);
  }

  /** `kvblock_init`: a block with nothing valid in it is erased unless it looks erased already. */
  method Mount(mem: seq<Byte>, size: nat, ghost ns: seq<Node>) returns (b: Block, erased: bool, ghost ns': seq<Node>)
    requires |mem| == size >= SCAN_END && size % 4 == 0 && Laid(mem, 0, ns) && Readable(ns)
    ensures BlockOk(b, ns', size) && ns' == if ValidCount(ns) == 0 then [] else ns
    ensures if erased then b.mem == Fill(ERASED, size) else b.mem == mem && ns' == ns
    ensures b.writeOffset + 4 < size <==> ValidCount(ns) == 0 || Used(ns) + 4 < size
  {
    hide Laid, LooksLikeText;
    b := Calc(mem, size, ns);
    ns', erased := ns, false;
    if b.count == 0 {
      var uniform := AllWordsEqual(mem);
      if !uniform || WordAt(mem, 0) == Fill(0, 4) {
        ErasedIsEmpty(size);
        return Block(Fill(ERASED, size), 0, 0, 0), true, [];
      }
      UniformIsErased(mem, ns);
    }
  }

  /** The loop over the words of a block. */
  method AllWordsEqual(mem: seq<Byte>) returns (same: bool)
    requires |mem| >= 4 && |mem| % 4 == 0
    ensures same ==> forall v :: 0 <= v && v + 4 <= |mem| && v % 4 == 0 ==> WordAt(mem, v) == WordAt(mem, 0)
  {
    var v := 4;
    while v < |mem|
      invariant 4 <= v && v % 4 == 0
      invariant forall w :: 0 <= w < v && w + 4 <= |mem| && w % 4 == 0 ==> WordAt(mem, w) == WordAt(mem, 0)
    {
      if WordAt(mem, v) != WordAt(mem, 0) {
        return false;
      }
      v := v + 4;
    }
    return true;
  }

  /** The first blocks are mounted, the others are as they were. */
  ghost predicate Mounted(blocks: seq<Block>, pre: seq<seq<Node>>, n: seq<seq<Node>>, size: nat) {
    && BlocksOk(blocks, pre, size) && |pre| <= |n|
    && (forall x :: 0 <= x < |pre| ==> pre[x] == if ValidCount(n[x]) == 0 then [] else n[x])
    && (forall x :: 0 <= x < |pre| ==> (blocks[x].writeOffset + 4 < size <==> RoomLeft(n, x, size)))
  }

  lemma MountedMeans(blocks: seq<Block>, pre: seq<seq<Node>>, flash: seq<seq<Byte>>, n: seq<seq<Node>>, size: nat,
      m: map<Key, Value>)
    requires Mounted(blocks, pre, n, size) && FlashOk(flash, n, size) && Recoverable(n, m)
    ensures FlashOk(Image(blocks) + flash[|pre|..], pre + n[|pre|..], size) && Recoverable(pre + n[|pre|..], m)
  {
    hide Recoverable, BlocksOk, Laid, LooksLikeText, RoomLeft;
    CleanedMeans(pre, n, m);
    ImageOk(blocks, pre, size);
    FlashJoined(Image(blocks), flash, pre, n, size);
  }

  lemma CleanedMeans(pre: seq<seq<Node>>, n: seq<seq<Node>>, m: map<Key, Value>)
    requires |pre| <= |n| && Recoverable(n, m)
    requires forall x :: 0 <= x < |pre| ==> pre[x] == n[x] || (pre[x] == [] && ValidCount(n[x]) == 0)
    ensures Recoverable(pre + n[|pre|..], m)
  {
    hide Recoverable;
    var n', k := pre + n[|pre|..], |pre|;
    forall x, y
      ensures (At(n', x, y) <==> At(n, x, y)) && (At(n, x, y) && At(n', x, y) ==> n'[x][y] == n[x][y])
    {
      if 0 <= x < k {
        CountNone(n[x]);
        assert n'[x] == pre[x];
      } else if k <= x < |n| {
        assert n'[x] == n[x];
      }
    }
    CleanedKeeps(n, n', m);
  }

  lemma FlashJoined(a: seq<seq<Byte>>, b: seq<seq<Byte>>, na: seq<seq<Node>>, nb: seq<seq<Node>>, size: nat)
    requires FlashOk(a, na, size) && FlashOk(b, nb, size) && |a| <= |b|
    ensures FlashOk(a + b[|a|..], na + nb[|a|..], size)
  {
    hide Laid, Readable;
    var f, n := a + b[|a|..], na + nb[|a|..];
    forall i | 0 <= i < |f|
      ensures |f[i]| == size && Laid(f[i], 0, n[i]) && Readable(n[i])
    {
      if i >= |a| {
        assert f[i] == b[i] && n[i] == nb[i];
      }
    }
  }

  /** The spare block is the last of those with the most room, if there is any; the current block is the first other
      one. */
  method ChooseBlocks(blocks: seq<Block>, size: nat, ghost n: seq<seq<Node>>) returns (bid: nat, gcBid: int)
    requires |blocks| == |n| > 0 && forall i :: 0 <= i < |n| ==> blocks[i].writeOffset == Used(n[i])
    ensures bid < |blocks| && IsSpare(n, gcBid, size) && IsCurrent(n, bid, size)
  {
    hide Used;
    bid, gcBid := 0, -1;
    var room := 0;
    for i := 0 to |blocks|
      invariant (bid == 0 || bid < i) && -1 <= gcBid < i
      invariant gcBid >= 0 ==> room == size - Used(n[gcBid]) > 4
      invariant gcBid >= 0 ==> forall x :: 0 <= x < i ==> Used(n[gcBid]) <= Used(n[x])
      invariant gcBid >= 0 ==> forall x :: gcBid < x < i ==> Used(n[gcBid]) < Used(n[x])
      invariant gcBid == -1 ==> room == 0 && forall x :: 0 <= x < i ==> Used(n[x]) + 4 >= size
      invariant bid > 0 ==> !Roomier(n, bid, size)
      invariant forall x :: 0 < x < (if bid > 0 then bid else i) ==> Roomier(n, x, size)
    {
      var v := size - blocks[i].writeOffset;
      if v >= room && v > 4 {
        room, gcBid := v, i;
      } else if bid == 0 {
        bid := i;
      }
    }
  }

  class KvStore {
    const size: nat
    var blocks: seq<Block>
    var bid: nat
    var gcBid: int
    ghost var nodes: seq<seq<Node>>
    ghost var model: map<Key, Value>

    /** The flash at the start, the flash after each write and each erase since, and the nodes in it. */
    ghost var base: Flash
    var images: seq<Flash>
    ghost var log: seq<seq<seq<Node>>>

    ghost predicate Sound()
      reads this
    {
      && size % 4 == 0 && 4 <= size <= SIZE_MAX && bid < |blocks| && -1 <= gcBid < |blocks|
      && BlocksOk(blocks, nodes, size) && LogOk(images, log, size) && Chain(base, images, Image(blocks))
    }

    ghost predicate Valid()
      reads this
    {
      Sound() && Unique(nodes) && Represents(nodes, model)
    }

    ghost function St(): State
      reads this`nodes, this`bid, this`gcBid
    {
      State(nodes, bid, gcBid)
    }

    /** The last write since the log had `from` entries left the nodes that are there. */
    ghost predicate Written(from: nat)
      reads this`log, this`nodes
    {
      |log| > from ==> log[|log| - 1] == nodes
    }

    /** Since the flash was `f` and `before` was logged, each write and each erase has been logged. */
    ghost predicate Traced(before: seq<Flash>, f: Flash)
      reads this`images, this`blocks
    {
      before <= images && Chain(f, images[|before|..], Image(blocks))
    }

    /** Since the log had `from` entries, a crash at any point would have left the map `m` or the map `m'`. */
    ghost predicate CrashSafe(from: nat, m: map<Key, Value>, m': map<Key, Value>)
      reads this
    {
      forall k :: from <= k < |log| ==> Recoverable(log[k], m) || Recoverable(log[k], m')
    }

    lemma Traces(before: seq<Flash>, f: Flash)
      requires Sound() && Chain(base, before, f) && before <= images
      ensures Traced(before, f)
    {
      hide BlocksOk, LogOk, Chain;
      ChainTail(base, before, f, images, Image(blocks));
    }

    method Record(ghost f: Flash)
      requires BlocksOk(blocks, nodes, size) && LogOk(images, log, size) && |blocks| > 0
      requires Chain(base, images, f) && OneWrite(f, Image(blocks))
      modifies this`log, this`images
      ensures LogOk(images, log, size) && log == old(log) + [nodes]
      ensures Chain(base, images, Image(blocks)) && old(images) <= images
    {
      hide BlocksOk, FlashOk, Chain, OneWrite, Image;
      ImageOk(blocks, nodes, size);
      SameLength(blocks, nodes, size);
      ChainLonger(base, images, f, Image(blocks));
      images, log := images + [Image(blocks)], log + [nodes];
    }

    /** `kvblock_set` */
    method Write(b: nat, key: Key, value: Value, version: nat) returns (ok: bool)
      requires Sound() && b < |blocks| && KeyOk(key) && 0 < |value| && |key| + |value| < PAIR_LIMIT &&
        1 <= version <= 255
      modifies this`blocks, this`nodes, this`log, this`images
      ensures Sound()
      ensures ok <==>
        1 <= |key| <= KEY_MAX && old(blocks[b].writeOffset) + NodeSize(Node(key, value, version, true)) <= size - 4
      ensures if ok then nodes == Append(old(nodes), b, Node(key, value, version, true)) && log == old(log) + [nodes]
              else nodes == old(nodes) && log == old(log) && blocks == old(blocks)
      ensures old(images) <= images && (!ok ==> images == old(images))
      ensures |blocks| == old(|blocks|) && blocks == old(blocks)[b := blocks[b]]
    {
      hide Laid, LooksLikeText, BlockOk, Chain, Image, Body;
      if |key| == 0 || |key| > KEY_MAX || |value| > 0x3FFFF {
        return false;
      }
      var n := Node(key, value, version, true);
      if blocks[b].writeOffset + NodeSize(n) > size - 4 {
        return false;
      }
      assert BlockOk(blocks[b], nodes[b], size);
      ghost var f := Image(blocks);
      var b' := AppendTo(blocks[b], n, size, nodes[b]);
      StoredIn(blocks, b, b', n);
      blocks := blocks[b := b'];
      nodes := Append(nodes, b, n);
      Record(f);
      return true;
    }

    /** `kvnode_rm` */
    method Erase(p: Place)
      requires Sound() && PlaceOk(p, nodes)
      modifies this`blocks, this`nodes, this`log, this`images
      ensures Sound() && nodes == Remove(old(nodes), p.block, p.index) && log == old(log) + [nodes]
      ensures old(images) <= images
      ensures |blocks| == old(|blocks|) && p.block < |blocks| && blocks == old(blocks)[p.block := blocks[p.block]]
    {
      hide Laid, LooksLikeText, BlockOk, Marked, Chain, Image;
      assert BlockOk(blocks[p.block], nodes[p.block], size);
      ghost var f := Image(blocks);
      var b' := MarkIn(blocks[p.block], p, size, nodes[p.block]);
      RemovedFrom(blocks, nodes, size, p, b');
      blocks := blocks[p.block := b'];
      nodes := Remove(nodes, p.block, p.index);
      Record(f);
    }

    method ReadBlock(i: nat) returns (ns: seq<Node>)
      requires Sound() && i < |blocks|
      ensures i < |nodes| && ns == nodes[i]
    {
      hide Laid, LooksLikeText;
      assert BlockOk(blocks[i], nodes[i], size);
      ns := ReadAll(blocks[i].mem, nodes[i]);
    }

    /** `kvblock_find`: it stops after as many valid nodes as the block is known to have. */
    method FindIn(i: nat, key: Key) returns (r: Option<Place>)
      requires Sound() && i < |blocks|
      ensures r.Some? ==> PlaceOk(r.value, nodes) && r.value.node.key == key
      ensures r.None? ==> forall j :: At(nodes, i, j) ==> nodes[i][j].key != key
    {
      hide Laid, LooksLikeText, Used;
      assert BlockOk(blocks[i], nodes[i], size);
      var ns := ReadBlock(i);
      var left: int := blocks[i].count;
      var j := 0;
      while j < |ns|
        invariant 0 <= j <= |ns| && left == ValidCount(ns) - ValidCount(ns[..j])
        invariant forall y :: 0 <= y < j && ns[y].valid ==> ns[y].key != key
      {
        CountSplit(ns[..j], [ns[j]]);
        assert ns[..j + 1] == ns[..j] + [ns[j]];
        if ns[j].valid {
          if ns[j].key == key {
            return Some(Place(i, j, ns[j], Used(ns[..j + 1])));
          }
          left := left - 1;
          if left <= 0 {
            NoneLeft(ns, j + 1);
            return None;
          }
        }
        j := j + 1;
      }
      return None;
    }

    /** `kv_find` */
    method Find(key: Key) returns (r: Option<Place>)
      requires Sound()
      ensures r.Some? ==> PlaceOk(r.value, nodes) && r.value.node.key == key
      ensures r.Some? <==> HasKey(nodes, key)
    {
      hide BlocksOk;
      SameLength(blocks, nodes, size);
      for i := 0 to |blocks|
        invariant forall x, y :: 0 <= x < i && At(nodes, x, y) ==> nodes[x][y].key != key
      {
        r := FindIn(i, key);
        if r.Some? {
          return;
        }
      }
      return None;
    }

    /** `kv_get`: up to `room` bytes of the value, and its whole length. */
    method Get(key: Key, room: nat) returns (r: int, value: Value)
      requires Valid()
      ensures key !in model ==> r == -1
      ensures key in model ==> r == |model[key]| && value == model[key][..if r < room then r else room]
    {
      hide Unique, BlocksOk;
      var p := Find(key);
      if p.None? {
        return -1, [];
      }
      var v := p.value.node.value;
      return |v|, v[..if |v| < room then |v| else room];
    }

    /** `kv_rm` */
    method Rm(key: Key) returns (ok: bool)
      requires Valid()
      modifies this`blocks, this`nodes, this`log, this`images, this`model
      ensures Valid() && (ok <==> key in old(model)) && model == old(model) - {key}
      ensures RmDone(old(St()), St(), key) && Written(old(|log|))
      ensures old(log) <= log && old(images) <= images && CrashSafe(old(|log|), old(model), model)
      ensures Traced(old(images), old(Image(blocks)))
    {
      hide BlocksOk, Unique, Represents, Remove, HasKey, Chain, Image;
      ghost var before, f := images, Image(blocks);
      KeyKnown(nodes, model, key);
      var p := Find(key);
      if p.None? {
        Traces(before, f);
        return false;
      }
      RemovedKey(nodes, model, p.value.block, p.value.index);
      assert Dropped(nodes, Remove(nodes, p.value.block, p.value.index), p.value.block, p.value.index, key);
      Erase(p.value);
      model := model - {key};
      Traces(before, f);
      return true;
    }

    /** `_kvblock_deep_gc` for one node: a copy with the next version goes to the spare block, then the node is removed.
        Between the two the key is there twice. */
    method MoveNode(p: Place)
      requires Valid() && gcBid >= 0 && PlaceOk(p, nodes) && p.block != gcBid && Fits(blocks, p.block, gcBid, size)
      modifies this`blocks, this`nodes, this`log, this`images
      ensures Valid() && CrashSafe(old(|log|), model, model) && old(log) <= log && old(images) <= images
      ensures Copied(old(log), log, old(nodes), nodes, gcBid, p.node)
      ensures Moved(old(nodes), nodes, p, gcBid) && Fits(blocks, p.block, gcBid, size)
      ensures forall b :: 0 <= b < |blocks| && b != p.block && b != gcBid ==>
        b < |old(blocks)| && blocks[b] == old(blocks[b])
    {
      hide Unique, Represents, Remove, Append, Laid, LooksLikeText, Marked, ValidCount, ValidSize, NodeSize, Chain,
        Image;
      ghost var n, copy := nodes, p.node.(version := Succ(p.node.version));
      NodeFacts(blocks, nodes, size, p);
      MarkedCounts(nodes[p.block], p.index);
      CountAppend(nodes[gcBid], copy);
      assert BlockOk(blocks[gcBid], nodes[gcBid], size);
      VersionOrder(p.node.version);
      assert BlockOk(blocks[p.block], nodes[p.block], size);
      var ok := Write(gcBid, p.node.key, p.node.value, Succ(p.node.version));
      AppendElsewhere(n, gcBid, copy, p);
      MovedMeans(n, model, p, gcBid, copy);
      Erase(p);
      assert BlockOk(blocks[p.block], nodes[p.block], size) && BlockOk(blocks[gcBid], nodes[gcBid], size);
      MovedIs(n, nodes, p, gcBid, copy);
    }

    /** `kvblock_iter` with `_kvblock_deep_gc`: everything in block `v` moves to the spare block, and `v` ends up
        erased. */
    method Collect(v: nat)
      requires Valid() && gcBid >= 0 && v < |blocks| && v != gcBid && blocks[v].kvSize > 0 &&
        Fits(blocks, v, gcBid, size)
      modifies this`blocks, this`nodes, this`log, this`images
      ensures Valid() && CrashSafe(old(|log|), model, model) && old(log) <= log && old(images) <= images
      ensures Written(old(|log|)) && |log| > old(|log|) && FirstCopy(old(nodes), log[old(|log|)], v, gcBid)
      ensures |blocks| == old(|blocks|) == |old(nodes)| && nodes == Emptied(old(nodes), v, gcBid)
    {
      hide Unique, Represents, Laid, LooksLikeText, Marked, ValidCount, ValidSize, NodeSize, Used, Recoverable, Left,
        Bumped, FirstCopy, Chain, Image;
      assert BlockOk(blocks[v], nodes[v], size);
      var ns := ReadBlock(v);
      CountNone(ns);
      LeftAll(ns);
      ghost var was, log0 := nodes, log;
      NoneBumped(ns, was[gcBid]);
      for j := 0 to |ns|
        invariant Valid() && |blocks| == old(|blocks|) && Halfway(ns, was, log0, v, j)
        invariant CrashSafe(old(|log|), model, model) && old(images) <= images
      {
        CollectNode(v, j, ns, was, log0);
      }
      LeftNone(ns, nodes[v]);
      assert ns[..|ns|] == ns;
      NotEmpty(ns);
      assert nodes == Emptied(was, v, gcBid);
    }

    /** The first `j` nodes of block `v`, which held `ns` when all blocks held `was`, are dealt with. */
    ghost predicate Halfway(ns: seq<Node>, was: seq<seq<Node>>, log0: seq<seq<seq<Node>>>, v: nat, j: nat)
      reads this
    {
      && v < |nodes| == |was| == |blocks| && 0 <= gcBid < |nodes| && j <= |ns| && was[v] == ns &&
         Fits(blocks, v, gcBid, size) && Left(ns, nodes[v], j)
      && nodes[gcBid] == was[gcBid] + Bumped(ns[..j]) &&
         (forall b :: 0 <= b < |nodes| && b != v && b != gcBid ==> nodes[b] == was[b])
      && log0 <= log && Written(|log0|) && (log == log0 ==> nodes == was && Bumped(ns[..j]) == [])
      && (|log| > |log0| ==> FirstCopy(was, log[|log0|], v, gcBid))
    }

    method CollectNode(v: nat, j: nat, ns: seq<Node>, ghost was: seq<seq<Node>>, ghost log0: seq<seq<seq<Node>>>)
      requires Valid() && v != gcBid && j < |ns| && Halfway(ns, was, log0, v, j)
      modifies this`blocks, this`nodes, this`log, this`images
      ensures Valid() && |blocks| == old(|blocks|) && Halfway(ns, was, log0, v, j + 1)
      ensures old(log) <= log && old(images) <= images && CrashSafe(old(|log|), model, model)
    {
      hide Unique, Represents, Laid, LooksLikeText, Marked, ValidCount, ValidSize, NodeSize, Used, Recoverable, Left,
        Bumped, Chain, Image;
      ghost var cur := nodes[v];
      BumpedAppend(ns[..j], ns[j]);
      assert ns[..j + 1] == ns[..j] + [ns[j]];
      if ns[j].valid {
        LeftHere(ns, cur, j);
        BumpedPrefix(ns, j + 1);
        MoveNode(Place(v, j, ns[j], Used(ns[..j + 1])));
      } else {
        LeftSkipped(ns, cur, j);
      }
    }

    /** The least used block whose valid nodes fit into the spare block. */
    method SelectVictim() returns (v: Option<nat>)
      requires Sound() && gcBid >= 0
      ensures v == Victim(nodes, gcBid, size)
    {
      hide BlocksOk, IsVictim, Victim;
      v := None;
      OffsetInBlock(blocks, nodes, size, gcBid);
      var minSize := size - blocks[gcBid].writeOffset;
      for i := 0 to |blocks|
        invariant v.Some? ==>
          v.value < i && v.value != gcBid && 0 < blocks[v.value].kvSize == minSize < size - blocks[gcBid].writeOffset
        invariant v.None? ==> minSize == size - blocks[gcBid].writeOffset
        invariant forall b :: 0 <= b < i && b != gcBid && blocks[b].kvSize > 0 ==> minSize <= blocks[b].kvSize
        invariant v.Some? ==> forall b :: 0 <= b < v.value && b != gcBid && blocks[b].kvSize > 0 ==>
          minSize < blocks[b].kvSize
      {
        if i != gcBid && blocks[i].kvSize > 0 && blocks[i].kvSize < minSize {
          minSize := blocks[i].kvSize;
          v := Some(i);
        }
      }
      VictimFound(blocks, nodes, size, gcBid, v, minSize);
    }

    /** `kv_gc`: the map stays what it is, at every moment; victim after victim is emptied into the spare block, and
        the last one, which is erased then, is the new spare block. It ends, because every round empties one more
        block. */
    method Gc() returns (ok: bool)
      requires Valid() && gcBid >= 0
      modifies this`blocks, this`nodes, this`log, this`images, this`gcBid
      ensures Valid() && CrashSafe(old(|log|), model, model) && old(log) <= log && old(images) <= images &&
        |blocks| == old(|blocks|)
      ensures nodes == Compacted(old(nodes), old(gcBid), size) && gcBid == SpareAfter(old(nodes), old(gcBid), size)
      ensures ok <==> Victim(old(nodes), old(gcBid), size).Some?
      ensures Written(old(|log|)) && (!ok ==> log == old(log))
      ensures ok ==>
        |log| > old(|log|) &&
        FirstCopy(old(nodes), log[old(|log|)], Victim(old(nodes), old(gcBid), size).value, old(gcBid))
      ensures ok ==> gcBid < |nodes| && nodes[gcBid] == []
      ensures Traced(old(images), old(Image(blocks)))
    {
      hide Unique, Represents, Recoverable, BlocksOk, Victim, IsVictim, FirstCopy, Compacted, NewSpare, Emptied,
        ToCollect, Chain, Image;
      ghost var before, f := images, Image(blocks);
      var spare: Option<nat> := None;
      var v := SelectVictim();
      ghost var first := v;
      SameLength(blocks, nodes, size);
      while v.Some?
        invariant Valid() && CrashSafe(old(|log|), model, model) && old(log) <= log && old(images) <= images &&
          gcBid == old(gcBid) &&
          |blocks| == old(|blocks|)
        invariant v == Victim(nodes, gcBid, size) && first == Victim(old(nodes), gcBid, size) && |nodes| == |blocks|
        invariant Compacted(nodes, gcBid, size) == Compacted(old(nodes), gcBid, size)
        invariant NewSpare(nodes, gcBid, size, spare) == NewSpare(old(nodes), gcBid, size, None)
        invariant Written(old(|log|)) && (spare.None? ==> nodes == old(nodes) && log == old(log))
        invariant spare.Some? ==>
          first.Some? && |log| > old(|log|) && FirstCopy(old(nodes), log[old(|log|)], first.value, gcBid)
        invariant spare.Some? ==> spare.value < |nodes| && nodes[spare.value] == []
        decreases v.Some?, ToCollect(nodes, gcBid)
      {
        VictimFits(blocks, nodes, size, v.value, gcBid);
        EmptiedLess(nodes, v.value, gcBid);
        OneCollected(nodes, gcBid, size, v.value, spare);
        Collect(v.value);
        spare := v;
        v := SelectVictim();
      }
      NothingCollected(nodes, gcBid, size, spare);
      if spare.Some? {
        gcBid := spare.value;
        Traces(before, f);
        return true;
      }
      Traces(before, f);
      return false;
    }

    /** The loop of `kv_set` over the blocks, from the current one around. */
    method PutSomewhere(key: Key, value: Value, version: nat) returns (ok: bool)
      requires Sound() && KeyOk(key) && 0 < |value| && |key| + |value| < PAIR_LIMIT && 1 <= version <= 255
      modifies this`blocks, this`nodes, this`log, this`images, this`bid
      ensures Sound() && |blocks| == old(|blocks|)
      ensures ok ==>
        1 <= |key| <= KEY_MAX && bid < |old(nodes)| &&
        nodes == Append(old(nodes), bid, Node(key, value, version, true)) && log == old(log) + [nodes]
      ensures ok ==> IsSlot(old(nodes), old(bid), gcBid, Need(key, value), size, bid)
      ensures !ok ==> nodes == old(nodes) && log == old(log) && blocks == old(blocks) && bid == old(bid)
      ensures old(images) <= images && (!ok ==> images == old(images))
      ensures ok <==> 1 <= |key| <= KEY_MAX && !Full(old(nodes), gcBid, BodySize(|key|, |value|) + 4, size)
    {
      hide BlocksOk, BodySize, LogOk, Used, IsSlot, Chain, Image;
      SameLength(blocks, nodes, size);
      Offsets(blocks, nodes, size);
      var start := bid;
      ghost var k: nat := 0;
      while true
        invariant Sound() && nodes == old(nodes) && log == old(log) && blocks == old(blocks) && images == old(images)
        invariant 0 <= k < |blocks| && bid == if start + k < |blocks| then start + k else start + k - |blocks|
        invariant forall b: nat :: Passed(b, start, k, |blocks|) && b != gcBid && 1 <= |key| <= KEY_MAX ==>
                    blocks[b].writeOffset + BodySize(|key|, |value|) + 4 > size - 4
        decreases |blocks| - k
      {
        if bid != gcBid {
          ok := Write(bid, key, value, version);
          if ok {
            SlotFound(old(nodes), start, k, gcBid, Need(key, value), size, bid);
            return true;
          }
        }
        bid := if bid + 1 == |blocks| then 0 else bid + 1;
        k := k + 1;
        if bid == start {
          break;
        }
      }
      assert k == |blocks|;
      assert forall b: nat :: b < |blocks| ==> Passed(b, start, k, |blocks|);
      return false;
    }

    /** One pass of `kv_set` from the search for the key on. */
    method Attempt(key: Key, value: Value) returns (ok: bool)
      requires Valid() && KeyOk(key) && 0 < |value| && |key| + |value| < PAIR_LIMIT
      modifies this`blocks, this`nodes, this`log, this`images, this`bid, this`model
      ensures Valid() && |blocks| == old(|blocks|) && model == if ok then old(model)[key := value] else old(model)
      ensures CrashSafe(old(|log|), old(model), old(model)[key := value]) && old(log) <= log && old(images) <= images
      ensures ok <==> HasPair(old(nodes), key, value) || Fitting(old(St()), key, value, size)
      ensures !ok ==> St() == old(St()) && log == old(log)
      ensures ok && HasPair(old(nodes), key, value) ==> St() == old(St()) && log == old(log)
      ensures ok && !HasPair(old(nodes), key, value) ==>
        Housed(old(St()), St(), key, value, size) && |log| > old(|log|) && Written(old(|log|))
    {
      hide BlocksOk, Unique, Represents, Recoverable, Append, Remove, BodySize, Full, HasPair, Housed, Chain, Image;
      HasPairIs(nodes, model, key, value);
      KeyKnown(nodes, model, key);
      var p := Find(key);
      if p.None? {
        ok := AddKey(key, value);
        return;
      }
      SameValue(nodes, model, p.value);
      if p.value.node.value == value {
        NodeFacts(blocks, nodes, size, p.value);
        ok := true;
      } else {
        NodeFacts(blocks, nodes, size, p.value);
        ok := ReplaceKey(p.value, value);
      }
    }

    method AddKey(key: Key, value: Value) returns (ok: bool)
      requires Valid() && KeyOk(key) && 0 < |value| && |key| + |value| < PAIR_LIMIT && key !in model
      modifies this`blocks, this`nodes, this`log, this`images, this`bid, this`model
      ensures Valid() && |blocks| == old(|blocks|) && model == if ok then old(model)[key := value] else old(model)
      ensures CrashSafe(old(|log|), old(model), old(model)[key := value]) && old(log) <= log && old(images) <= images
      ensures ok <==> 1 <= |key| <= KEY_MAX && !Full(old(nodes), gcBid, BodySize(|key|, |value|) + 4, size)
      ensures !ok ==> St() == old(St()) && log == old(log)
      ensures ok ==> Housed(old(St()), St(), key, value, size) && |log| > old(|log|) && Written(old(|log|))
    {
      hide BlocksOk, Unique, Represents, Append, BodySize, Full, IsSlot, HasKey, Chain, Image;
      KeyKnown(nodes, model, key);
      ghost var n := nodes;
      ok := PutSomewhere(key, value, 1);
      if ok {
        AddedKey(n, model, bid, Node(key, value, 1, true));
        model := model[key := value];
      }
    }

    method ReplaceKey(p: Place, value: Value) returns (ok: bool)
      requires Valid() && PlaceOk(p, nodes) && 0 < |value| && |p.node.key| + |value| < PAIR_LIMIT
      modifies this`blocks, this`nodes, this`log, this`images, this`bid, this`model
      ensures Valid() && |blocks| == old(|blocks|) && model == if ok then old(model)[p.node.key := value]
        else old(model)
      ensures CrashSafe(old(|log|), old(model), old(model)[p.node.key := value]) && old(log) <= log &&
        old(images) <= images
      ensures ok <==>
        1 <= |p.node.key| <= KEY_MAX && !Full(old(nodes), gcBid, BodySize(|p.node.key|, |value|) + 4, size)
      ensures !ok ==> St() == old(St()) && log == old(log)
      ensures ok ==> Housed(old(St()), St(), p.node.key, value, size) && |log| > old(|log|) && Written(old(|log|))
    {
      hide BlocksOk, Unique, Represents, Append, Remove, BodySize, Full, NodeOk, KeyOk, Twin, IsSlot, HasKey, Chain,
        Image;
      NodeFacts(blocks, nodes, size, p);
      NodeVersion(p.node);
      VersionOrder(p.node.version);
      ghost var n, node := nodes, Node(p.node.key, value, Succ(p.node.version), true);
      ok := PutSomewhere(p.node.key, value, Succ(p.node.version));
      if ok {
        AppendAround(n, bid, node, p);
        AddedTwin(n, p.block, p.index, bid, node);
        TwinMeans(n, model, p.block, p.index, bid, node);
        TwinResolved(nodes, p.block, p.index, bid, |n[bid]|);
        assert Recoverable(nodes, model[p.node.key := value]);
        PlaceHasKey(n, p);
        Erase(p);
        assert Superseded(n, nodes, bid, value, p.block, p.index, p.node.key);
        model := model[p.node.key := value];
      }
    }

    /** `kv_set`: the map is updated or stays as it is, and a crash on the way leaves the one or the other. It is
        refused exactly for bad arguments, or if neither before nor after garbage collection there is room. Without a
        spare block garbage collection would read in front of the first block; the model stops there with -2. */
    method Set(key: Key, value: Value) returns (r: int)
      requires Valid() && KeyOk(key)
      modifies this`blocks, this`nodes, this`log, this`images, this`bid, this`gcBid, this`model
      ensures Valid() && r in {-2, -1, |value|}
      ensures model == if r == |value| then old(model)[key := value] else old(model)
      ensures CrashSafe(old(|log|), old(model), old(model)[key := value]) && old(log) <= log && old(images) <= images
      ensures SetDone(old(St()), St(), key, value, size, r) && Written(old(|log|))
      ensures Collects(old(St()), key, value, size) ==>
                |log| > old(|log|) &&
                FirstCopy(old(nodes), log[old(|log|)], Victim(old(nodes), old(gcBid), size).value, old(gcBid))
      ensures r == -1 <==>
        !PairOk(key, value) ||
        (old(gcBid) >= 0 && (!LengthOk(key) || Unstorable(old(nodes), old(gcBid), key, value, size)))
      ensures r == -2 <==> PairOk(key, value) && old(gcBid) == -1 && !HasPair(old(nodes), key, value)
                           && (!LengthOk(key) || Full(old(nodes), -1, BodySize(|key|, |value|) + 4, size))
      ensures Traced(old(images), old(Image(blocks)))
    {
      hide BlocksOk, Unique, Represents, Recoverable, BodySize, Full, HasPair, Victim, Compacted, SpareAfter, Housed,
        FirstCopy, Chain, Image;
      ghost var before, f := images, Image(blocks);
      if |value| == 0 || |key| + |value| >= PAIR_LIMIT {
        Traces(before, f);
        return -1;
      }
      PairLength(blocks, nodes, size, key, value);
      var ok := Attempt(key, value);
      if ok {
        Traces(before, f);
        return |value|;
      }
      if gcBid == -1 {
        Traces(before, f);
        return -2;
      }
      HasPairIs(nodes, model, key, value);
      if Victim(nodes, gcBid, size).None? {
        NothingCollected(nodes, gcBid, size, None);
      }
      var collected := Gc();
      HasPairIs(nodes, model, key, value);
      if collected {
        ok := Attempt(key, value);
        if ok {
          Traces(before, f);
          return |value|;
        }
      }
      Traces(before, f);
      return -1;
    }

    // ----- Starting up -----

    /** The two inner loops of `kv_verify`: the next valid node with the same key. */
    method FindLater(i: nat, a: nat, key: Key) returns (r: Option<Place>)
      requires Sound() && i < |blocks|
      ensures r.Some? ==>
        PlaceOk(r.value, nodes) && r.value.node.key == key && NotBefore(r.value.block, r.value.index, i, a + 1)
      ensures r.None? ==> forall x, y :: At(nodes, x, y) && NotBefore(x, y, i, a + 1) ==> nodes[x][y].key != key
    {
      hide BlocksOk, Used;
      SameLength(blocks, nodes, size);
      for b := i to |blocks|
        invariant forall x, y :: i <= x < b && At(nodes, x, y) && NotBefore(x, y, i, a + 1) ==> nodes[x][y].key != key
      {
        var ns := ReadBlock(b);
        var c := if b == i then a + 1 else 0;
        while c < |ns|
          invariant c >= if b == i then a + 1 else 0
          invariant forall y :: 0 <= y < c && y < |ns| && ns[y].valid && NotBefore(b, y, i, a + 1) ==> ns[y].key != key
        {
          if ns[c].valid && ns[c].key == key {
            return Some(Place(b, c, ns[c], Used(ns[..c + 1])));
          }
          c := c + 1;
        }
      }
      return None;
    }

    /** One node of the outer loop of `kv_verify`, with `kvblock_check_version`. */
    method VerifyNode(i: nat, a: nat, node: Node)
      requires Sound() && Unverified(nodes, model, i, a) && i < |blocks| && At(nodes, i, a) && nodes[i][a] == node
      modifies this`blocks, this`nodes, this`log, this`images
      ensures Sound() && Unverified(nodes, model, i, a + 1) && |blocks| == old(|blocks|)
      ensures nodes == old(nodes) || (!Unique(old(nodes)) && Unique(nodes) && Healed(old(nodes), nodes))
      ensures old(log) <= log && old(images) <= images && CrashSafe(old(|log|), model, model) && i < |nodes| &&
        |nodes[i]| <= |old(nodes)[i]|
    {
      hide BlocksOk, Unique, Represents, Remove, Used, Twin, Chain, Image;
      SameLength(blocks, nodes, size);
      var q := FindLater(i, a, node.key);
      if q.None? {
        NoCopyAhead(nodes, model, i, a);
        return;
      }
      VersionsOk(blocks, nodes, size);
      CopyMet(nodes, model, i, a, q.value.block, q.value.index);
      var p := Here(i, a);
      RemoveShrinks(nodes, i, p.block, p.index);
      RemoveShrinks(nodes, i, q.value.block, q.value.index);
      if OlderIsFirst(node.version, q.value.node.version) {
        Erase(p);
      } else {
        Erase(q.value);
      }
    }

    method Here(i: nat, a: nat) returns (p: Place)
      requires Sound() && At(nodes, i, a)
      ensures PlaceOk(p, nodes) && p.block == i && p.index == a
    {
      hide BlocksOk, Used;
      SameLength(blocks, nodes, size);
      var ns := ReadBlock(i);
      p := Place(i, a, ns[a], Used(ns[..a + 1]));
    }

    /** `kv_verify`: whatever a crash left, the map is there afterwards, with one node for each key. */
    method Verify()
      requires Sound() && Recoverable(nodes, model)
      modifies this`blocks, this`nodes, this`log, this`images
      ensures Mended(old(nodes), nodes) && bid == old(bid) && gcBid == old(gcBid)
      ensures Valid() && |blocks| == old(|blocks|) && old(log) <= log && old(images) <= images &&
        CrashSafe(old(|log|), model, model)
      ensures Traced(old(images), old(Image(blocks)))
    {
      hide BlocksOk, Unique, Represents, Recoverable, Unverified, Healed, Chain, Image;
      ghost var before, f := images, Image(blocks);
      Unscanned(nodes, model);
      SameLength(blocks, nodes, size);
      for i := 0 to |blocks|
        invariant Sound() && |blocks| == old(|blocks|) == |nodes| && Unverified(nodes, model, i, 0)
        invariant Mended(old(nodes), nodes)
        invariant old(log) <= log && old(images) <= images && CrashSafe(old(|log|), model, model)
      {
        VerifyBlock(i, old(nodes));
        NextBlock(nodes, model, i, |nodes[i]|);
        SameLength(blocks, nodes, size);
      }
      ScannedAll(nodes, model);
      Traces(before, f);
    }

    method VerifyBlock(i: nat, ghost first: seq<seq<Node>>)
      requires Sound() && i < |blocks| && Unverified(nodes, model, i, 0) && Mended(first, nodes)
      modifies this`blocks, this`nodes, this`log, this`images
      ensures Sound() && |blocks| == old(|blocks|) && i < |nodes| && Unverified(nodes, model, i, |nodes[i]|)
      ensures Mended(first, nodes)
      ensures old(log) <= log && old(images) <= images && CrashSafe(old(|log|), model, model)
    {
      hide BlocksOk, Unique, Represents, Recoverable, Unverified, Mended, Healed, Chain, Image;
      var a := 0;
      var ns := ReadBlock(i);
      while a < |ns|
        invariant Sound() && |blocks| == old(|blocks|) && i < |nodes| && ns == nodes[i] && 0 <= a &&
          Unverified(nodes, model, i, a)
        invariant Mended(first, nodes)
        invariant old(log) <= log && old(images) <= images && CrashSafe(old(|log|), model, model)
        decreases |ns| - a
      {
        if ns[a].valid {
          ghost var n := nodes;
          VerifyNode(i, a, ns[a]);
          MendedOnce(first, n, nodes);
        } else {
          NoCopyAhead(nodes, model, i, a);
        }
        a := a + 1;
        ns := ReadBlock(i);
      }
      if a > |ns| {
        Backwards(nodes, model, i, a);
      }
    }

    /** A store of blocks of this size, before its flash is looked at. */
    constructor (blockSize: nat)
      ensures size == blockSize
    {
      size := blockSize;
      blocks, nodes, bid, gcBid, model, base, log, images := [], [], 0, -1, map[], [], [], [];
    }

    /** Logs the flash `f'` that erasing a block turns `f` into while the blocks are being mounted. */
    method RecordErased(ghost f: Flash, f': Flash, ghost n: seq<seq<Node>>, ghost m: map<Key, Value>)
      requires LogOk(images, log, size) && CrashSafe(0, m, m) && Chain(base, images, f) && OneWrite(f, f')
      requires |n| > 0 && FlashOk(f', n, size) && Recoverable(n, m)
      modifies this`log, this`images
      ensures LogOk(images, log, size) && CrashSafe(0, m, m) && Chain(base, images, f')
    {
      hide Recoverable, FlashOk, Chain, OneWrite;
      ChainLonger(base, images, f, f');
      images, log := images + [f'], log + [n];
    }

    /** The first loop of `kv_init`. Every block it erases may be the last thing that happens. */
    method MountAll(flash: Flash, ghost n: seq<seq<Node>>, ghost m: map<Key, Value>)
      requires size % 4 == 0 && SCAN_END <= size <= SIZE_MAX && FlashOk(flash, n, size) && Recoverable(n, m)
      modifies this`blocks, this`nodes, this`base, this`log, this`images
      ensures |blocks| == |flash| == |nodes| == |n| && BlocksOk(blocks, nodes, size) &&
        Mounted(blocks, nodes, n, size) && Recoverable(nodes, m)
      ensures LogOk(images, log, size) && CrashSafe(0, m, m)
      ensures base == flash && Chain(flash, images, Image(blocks))
    {
      hide Recoverable, Laid, LooksLikeText, BlockOk, RoomLeft, Chain, OneWrite, Image;
      base, blocks, nodes, log, images := flash, [], [], [], [];
      NothingMounted(flash);
      for i := 0 to |flash|
        invariant |blocks| == |nodes| == i && Mounted(blocks, nodes, n, size)
        invariant LogOk(images, log, size) && CrashSafe(0, m, m)
        invariant base == flash && Chain(flash, images, Image(blocks) + flash[i..])
      {
        var b, erased; ghost var ns;
        b, erased, ns := Mount(flash[i], size, n[i]);
        MountOne(blocks, nodes, n, size, b, ns);
        MountImage(blocks, flash, b, erased);
        ghost var f := Image(blocks) + flash[i..];
        blocks, nodes := blocks + [b], nodes + [ns];
        MountedMeans(blocks, nodes, flash, n, size, m);
        if erased {
          RecordErased(f, Image(blocks) + flash[i + 1..], nodes + n[i + 1..], m);
        }
      }
      MountedMeans(blocks, nodes, flash, n, size, m);
      assert nodes + n[|flash|..] == nodes;
      assert Image(blocks) + flash[|flash|..] == Image(blocks);
    }

    /** `kv_init`: whatever a crash left in flash, the map is there again, with one node for each key. There is a
        spare block if and only if some block had room. */
    method Boot(flash: Flash, ghost n: seq<seq<Node>>, ghost m: map<Key, Value>)
      requires size % 4 == 0 && SCAN_END <= size <= SIZE_MAX && |flash| > 0 && FlashOk(flash, n, size) &&
        Recoverable(n, m)
      modifies this
      ensures Valid() && model == m && |blocks| == |flash|
      ensures BootDone(n, St(), size)
      ensures gcBid >= 0 <==> exists i :: 0 <= i < |flash| && RoomLeft(n, i, size)
      ensures CrashSafe(0, m, m) && Traced([], flash) && base == flash
    {
      hide Recoverable, BlocksOk, FlashOk, LogOk, RoomLeft, Chain, Image;
      MountAll(flash, n, m);
      model := m;
      MountedAll(blocks, nodes, n, size);
      bid, gcBid := ChooseBlocks(blocks, size, nodes);
      hide Mounted, Mended;
      Verify();
      assert images[0..] == images;
    }
  }

  lemma NothingMounted(flash: Flash)
    ensures Chain(flash, [], Image([]) + flash[0..])
  {
    assert Image([]) + flash[0..] == flash;
  }

  lemma MountImage(blocks: seq<Block>, flash: Flash, b: Block, erased: bool)
    requires |blocks| < |flash|
    requires b.mem == if erased then Fill(ERASED, |flash[|blocks|]|) else flash[|blocks|]
    ensures var f, f' := Image(blocks) + flash[|blocks|..], Image(blocks + [b]) + flash[|blocks| + 1..];
            if erased then OneWrite(f, f') else f' == f
  {
    var i := |blocks|;
    var f, f' := Image(blocks) + flash[i..], Image(blocks + [b]) + flash[i + 1..];
    assert f' == f[i := b.mem];
    if erased {
      assert Effect(f, f', Wipe(i));
    }
  }

  lemma MountedAll(blocks: seq<Block>, nodes: seq<seq<Node>>, n: seq<seq<Node>>, size: nat)
    requires Mounted(blocks, nodes, n, size) && |nodes| == |n|
    ensures nodes == Cleaned(n) && |blocks| == |nodes| && forall i :: 0 <= i < |nodes| ==>
      blocks[i].writeOffset == Used(nodes[i])
    ensures forall i :: 0 <= i < |nodes| ==> (Used(nodes[i]) + 4 < size <==> RoomLeft(n, i, size))
  {
    Offsets(blocks, nodes, size);
    hide BlocksOk, RoomLeft, Used, ValidCount;
  }

  lemma MountOne(blocks: seq<Block>, pre: seq<seq<Node>>, n: seq<seq<Node>>, size: nat, b: Block, ns: seq<Node>)
    requires Mounted(blocks, pre, n, size) && |pre| < |n| && BlockOk(b, ns, size)
    requires ns == if ValidCount(n[|pre|]) == 0 then [] else n[|pre|]
    requires b.writeOffset + 4 < size <==> ValidCount(n[|pre|]) == 0 || Used(n[|pre|]) + 4 < size
    ensures Mounted(blocks + [b], pre + [ns], n, size)
  {
    hide BlockOk;
  }

  lemma PlaceHasKey(n: seq<seq<Node>>, p: Place)
    requires PlaceOk(p, n)
    ensures HasKey(n, p.node.key)
  {
  }

  lemma NothingCollected(n: seq<seq<Node>>, gc: nat, size: nat, last: Option<nat>)
    requires Victim(n, gc, size).None?
    ensures Compacted(n, gc, size) == n && NewSpare(n, gc, size, last) == last && SpareAfter(n, gc, size) == gc
  {
    hide Victim;
  }

  lemma OneCollected(n: seq<seq<Node>>, gc: nat, size: nat, v: nat, last: Option<nat>)
    requires Victim(n, gc, size) == Some(v)
    ensures v < |n| && gc < |n| && v != gc && |Emptied(n, v, gc)| == |n| && Emptied(n, v, gc)[v] == []
    ensures Compacted(n, gc, size) == Compacted(Emptied(n, v, gc), gc, size) &&
      NewSpare(n, gc, size, last) == NewSpare(Emptied(n, v, gc), gc, size, Some(v))
  {
    VictimFacts(n, v, gc, size);
    EmptiedLess(n, v, gc);
    hide Victim, ToCollect;
  }

  lemma NoneBumped(ns: seq<Node>, front: seq<Node>)
    ensures Bumped(ns[..0]) == [] && front + Bumped(ns[..0]) == front
  {
  }

  lemma {:induction false} NotEmpty(ns: seq<Node>)
    requires ValidCount(ns) > 0
    ensures Bumped(ns) != []
  {
    if !ns[0].valid {
      NotEmpty(ns[1..]);
    }
  }

  lemma SlotFound(n: seq<seq<Node>>, start: nat, k: nat, gc: int, need: nat, size: nat, b: nat)
    requires start < |n| && k < |n| && b == (if start + k < |n| then start + k else start + k - |n|) && b != gc &&
      Used(n[b]) + need <= size - 4
    requires forall x: nat :: Passed(x, start, k, |n|) && x != gc ==> Used(n[x]) + need > size - 4
    ensures IsSlot(n, start, gc, need, size, b)
  {
    assert forall x: nat :: x < |n| && Sooner(x, b, start) ==> Passed(x, start, k, |n|);
  }

  lemma Offsets(blocks: seq<Block>, nodes: seq<seq<Node>>, size: nat)
    requires BlocksOk(blocks, nodes, size)
    ensures |blocks| == |nodes| && forall b :: 0 <= b < |blocks| ==>
      blocks[b].writeOffset == Used(nodes[b]) && blocks[b].kvSize == ValidSize(nodes[b])
  {
    hide Laid, LooksLikeText;
    forall b | 0 <= b < |blocks|
      ensures blocks[b].writeOffset == Used(nodes[b]) && blocks[b].kvSize == ValidSize(nodes[b])
    {
      assert BlockOk(blocks[b], nodes[b], size);
    }
  }

  lemma VictimFound(blocks: seq<Block>, nodes: seq<seq<Node>>, size: nat, gc: nat, v: Option<nat>, min: int)
    requires BlocksOk(blocks, nodes, size) && gc < |blocks|
    requires v.Some? ==>
      v.value < |blocks| && v.value != gc && 0 < blocks[v.value].kvSize == min < size - blocks[gc].writeOffset
    requires v.None? ==> min == size - blocks[gc].writeOffset
    requires forall b :: 0 <= b < |blocks| && b != gc && blocks[b].kvSize > 0 ==> min <= blocks[b].kvSize
    requires v.Some? ==> forall b :: 0 <= b < v.value && b != gc && blocks[b].kvSize > 0 ==> min < blocks[b].kvSize
    ensures v == Victim(nodes, gc, size)
  {
    Offsets(blocks, nodes, size);
    hide BlocksOk, ValidSize, Used;
    if v.Some? {
      assert IsVictim(nodes, v.value, gc, size);
      VictimIs(nodes, v.value, gc, size);
    } else {
      NoVictim(nodes, gc, size);
    }
  }

  lemma VictimFits(blocks: seq<Block>, nodes: seq<seq<Node>>, size: nat, v: nat, gc: nat)
    requires BlocksOk(blocks, nodes, size) && size % 4 == 0 && Victim(nodes, gc, size) == Some(v)
    ensures Collectable(nodes, v, gc, size) && v < |blocks| && gc < |blocks| && blocks[v].kvSize > 0 &&
      Fits(blocks, v, gc, size)
  {
    Offsets(blocks, nodes, size);
    VictimFacts(nodes, v, gc, size);
    hide BlocksOk, Victim, ValidSize, Used;
    LastWordFree(ValidSize(nodes[v]), Used(nodes[gc]), size);
  }

  lemma LastWordFree(a: nat, b: nat, size: nat)
    requires a % 4 == 0 && b % 4 == 0 && size % 4 == 0 && a + b < size
    ensures a + b + 4 <= size
  {
  }

  /** Under a map with one node for each key, a pair is stored if and only if it is in the map. */
  lemma HasPairIs(n: seq<seq<Node>>, m: map<Key, Value>, key: Key, value: Value)
    requires Represents(n, m)
    ensures HasPair(n, key, value) <==> key in m && m[key] == value
  {
    if key in m && m[key] == value {
      assert HasKey(n, key);
      var i, j :| At(n, i, j) && n[i][j].key == key;
      assert n[i][j].value == value;
    }
  }

  lemma PairLength(blocks: seq<Block>, nodes: seq<seq<Node>>, size: nat, key: Key, value: Value)
    requires BlocksOk(blocks, nodes, size)
    ensures HasPair(nodes, key, value) ==> LengthOk(key)
  {
    if HasPair(nodes, key, value) {
      hide Laid, LooksLikeText;
      var i, j :| At(nodes, i, j) && nodes[i][j].key == key && nodes[i][j].value == value;
      assert BlockOk(blocks[i], nodes[i], size);
      LaidFits(blocks[i].mem, nodes[i]);
      assert NodeOk(nodes[i][j]);
    }
  }

  /** A C string that does not look like a text node. */
  ghost predicate KeyOk(key: Key) {
    NUL !in key && !LooksLikeText(key, false)
  }

  lemma SameLength(blocks: seq<Block>, nodes: seq<seq<Node>>, size: nat)
    requires BlocksOk(blocks, nodes, size)
    ensures |nodes| == |blocks|
  {
  }

  lemma NoneLeft(ns: seq<Node>, j: nat)
    requires j <= |ns| && ValidCount(ns) <= ValidCount(ns[..j])
    ensures forall y :: j <= y < |ns| ==> !ns[y].valid
  {
    CountSplit(ns[..j], ns[j..]);
    assert ns == ns[..j] + ns[j..];
    CountNone(ns[j..]);
    forall y | j <= y < |ns|
      ensures !ns[y].valid
    {
      assert ns[y] == ns[j..][y - j];
    }
  }

  lemma KeyKnown(n: seq<seq<Node>>, m: map<Key, Value>, k: Key)
    requires Represents(n, m)
    ensures HasKey(n, k) <==> k in m
    ensures k !in m ==> m - {k} == m
  {
  }

  lemma NodeFacts(blocks: seq<Block>, nodes: seq<seq<Node>>, size: nat, p: Place)
    requires BlocksOk(blocks, nodes, size) && PlaceOk(p, nodes)
    ensures KeyOk(p.node.key) && NodeOk(p.node)
    ensures var copy := p.node.(version := Succ(p.node.version));
      copy == Node(p.node.key, p.node.value, Succ(p.node.version), true) && NodeSize(copy) == NodeSize(p.node)
  {
    hide Laid, LooksLikeText;
    assert BlockOk(blocks[p.block], nodes[p.block], size);
    LaidFits(blocks[p.block].mem, nodes[p.block]);
    assert NodeOk(nodes[p.block][p.index]);
  }

  lemma MarkedCounts(ns: seq<Node>, j: nat)
    requires j < |ns| && ns[j].valid
    ensures ValidSize(Marked(ns, j)) + NodeSize(ns[j]) <= ValidSize(ns)
    ensures Marked(ns, j) == [] || ValidCount(Marked(ns, j)) > 0
  {
    CountAt(ns, j);
  }

  lemma AppendElsewhere(n: seq<seq<Node>>, gc: nat, copy: Node, p: Place)
    requires PlaceOk(p, n) && gc < |n| && gc != p.block
    ensures PlaceOk(p, Append(n, gc, copy))
  {
  }

  lemma MovedMeans(n: seq<seq<Node>>, m: map<Key, Value>, p: Place, gc: nat, copy: Node)
    requires Unique(n) && Represents(n, m) && PlaceOk(p, n) && gc < |n| && gc != p.block && copy.valid
    requires copy.key == p.node.key && copy.value == p.node.value && copy.version == Succ(p.node.version)
    ensures At(Append(n, gc, copy), p.block, p.index) && Recoverable(Append(n, gc, copy), m)
    ensures var n' := Remove(Append(n, gc, copy), p.block, p.index);
      Unique(n') && Represents(n', m) && Recoverable(n', m)
  {
    hide Unique, Remove, Append, Twin;
    AddedTwin(n, p.block, p.index, gc, copy);
    TwinMeans(n, m, p.block, p.index, gc, copy);
    TwinResolved(Append(n, gc, copy), p.block, p.index, gc, |n[gc]|);
    assert m[copy.key := copy.value] == m;
  }

  lemma MovedIs(n: seq<seq<Node>>, n': seq<seq<Node>>, p: Place, gc: nat, copy: Node)
    requires p.block < |n| && p.index < |n[p.block]| && gc < |n| && gc != p.block &&
      copy == p.node.(version := Succ(p.node.version))
    requires n' == Remove(Append(n, gc, copy), p.block, p.index)
    ensures Moved(n, n', p, gc)
  {
  }

  lemma LeftAll(ns: seq<Node>)
    requires ValidCount(ns) > 0
    ensures Left(ns, ns, 0)
  {
  }

  lemma LeftHere(ns: seq<Node>, cur: seq<Node>, j: nat)
    requires Left(ns, cur, j) && j < |ns| && ns[j].valid
    ensures j < |cur| && cur[j] == ns[j] && Used(cur[..j + 1]) == Used(ns[..j + 1]) && Left(ns, Marked(cur, j), j + 1)
  {
    CountAt(cur, j);
    UsedShape(cur[..j + 1], ns[..j + 1]);
  }

  lemma LeftSkipped(ns: seq<Node>, cur: seq<Node>, j: nat)
    requires Left(ns, cur, j) && j < |ns| && !ns[j].valid
    ensures Left(ns, cur, j + 1)
  {
  }

  lemma LeftNone(ns: seq<Node>, cur: seq<Node>)
    requires Left(ns, cur, |ns|)
    ensures cur == []
  {
    CountNone(cur);
  }

  lemma {:induction false} UsedShape(a: seq<Node>, b: seq<Node>)
    requires |a| == |b| && forall y :: 0 <= y < |a| ==> a[y] == b[y].(valid := a[y].valid)
    ensures Used(a) == Used(b)
  {
    if a != [] {
      assert a[0] == b[0].(valid := a[0].valid);
      UsedShape(a[1..], b[1..]);
    }
  }

  lemma OffsetInBlock(blocks: seq<Block>, nodes: seq<seq<Node>>, size: nat, b: nat)
    requires BlocksOk(blocks, nodes, size) && b < |blocks|
    ensures blocks[b].writeOffset + 4 <= size
  {
    assert BlockOk(blocks[b], nodes[b], size);
    LaidFits(blocks[b].mem, nodes[b]);
  }

  lemma SameValue(n: seq<seq<Node>>, m: map<Key, Value>, p: Place)
    requires Represents(n, m) && PlaceOk(p, n)
    ensures p.node.key in m && m[p.node.key] == p.node.value && m[p.node.key := p.node.value] == m
  {
  }

  lemma NodeVersion(n: Node)
    requires NodeOk(n)
    ensures 1 <= n.version <= 255
  {
  }

  lemma AppendAround(n: seq<seq<Node>>, b: nat, node: Node, p: Place)
    requires PlaceOk(p, n) && b < |n|
    ensures PlaceOk(p, Append(n, b, node))
  {
    assert (n[b] + [node])[..|n[b]|] == n[b];
    if b == p.block {
      assert (n[b] + [node])[..p.index + 1] == n[b][..p.index + 1];
    }
  }

  lemma VersionsOk(blocks: seq<Block>, nodes: seq<seq<Node>>, size: nat)
    requires BlocksOk(blocks, nodes, size)
    ensures forall p, q :: At(nodes, p, q) ==> 1 <= nodes[p][q].version <= 255
  {
    forall p, q | At(nodes, p, q)
      ensures 1 <= nodes[p][q].version <= 255
    {
      assert BlockOk(blocks[p], nodes[p], size);
      LaidFits(blocks[p].mem, nodes[p]);
    }
  }

  lemma RemoveShrinks(n: seq<seq<Node>>, i: nat, p: nat, q: nat)
    requires i < |n| && At(n, p, q)
    ensures |Remove(n, p, q)| == |n| && |Remove(n, p, q)[i]| <= |n[i]|
  {
  }

  lemma Backwards(n: seq<seq<Node>>, m: map<Key, Value>, i: nat, a: nat)
    requires Unverified(n, m, i, a) && i < |n| && a >= |n[i]|
    ensures Unverified(n, m, i, |n[i]|)
  {
    if !(Unique(n) && Represents(n, m)) {
      hide Represents, Remove, Twin;
      var p, q, x, y :| TwinAhead(n, m, p, q, x, y, i, a);
      assert TwinAhead(n, m, p, q, x, y, i, |n[i]|);
    }
  }

  lemma StepCounts(nodes: seq<Node>, j: nat)
    requires j < |nodes|
    ensures ValidCount(nodes[..j + 1]) == ValidCount(nodes[..j]) + if nodes[j].valid then 1 else 0
    ensures ValidSize(nodes[..j + 1]) == ValidSize(nodes[..j]) + if nodes[j].valid then NodeSize(nodes[j]) else 0
    ensures Used(nodes[..j + 1]) == Used(nodes[..j]) + NodeSize(nodes[j])
  {
    assert nodes[..j + 1] == nodes[..j] + [nodes[j]];
    SumsAppend(nodes[..j], nodes[j]);
  }

  lemma {:induction false} SumsAppend(a: seq<Node>, n: Node)
    ensures ValidCount(a + [n]) == ValidCount(a) + if n.valid then 1 else 0
    ensures ValidSize(a + [n]) == ValidSize(a) + if n.valid then NodeSize(n) else 0
    ensures Used(a + [n]) == Used(a) + NodeSize(n)
  {
    if a != [] {
      SumsAppend(a[1..], n);
      assert (a + [n])[1..] == a[1..] + [n];
    } else {
      assert [n][1..] == [];
    }
  }

  /** Behind the last node all words are erased. */
  lemma BytesBehind(mem: seq<Byte>, ns: seq<Node>)
    requires Laid(mem, 0, ns)
    ensures forall x :: Used(ns) <= x < |mem| ==> mem[x] == ERASED
  {
    LaidFits(mem, ns);
    LaidWhole(mem, ns);
    FlatLength(ns);
    hide Laid, Flat, Used;
    forall x | Used(ns) <= x < |mem|
      ensures mem[x] == ERASED
    {
      assert mem[x] == Fill(ERASED, |mem| - Used(ns))[x - Used(ns)];
    }
  }

  lemma ErasedBehind(mem: seq<Byte>, ns: seq<Node>)
    requires Laid(mem, 0, ns)
    ensures forall v :: Used(ns) <= v && v + 4 <= |mem| ==> WordAt(mem, v) == Fill(ERASED, 4)
  {
    LaidFits(mem, ns);
    LaidWhole(mem, ns);
    FlatLength(ns);
    hide Laid, Flat, Used;
    forall v | Used(ns) <= v && v + 4 <= |mem|
      ensures WordAt(mem, v) == Fill(ERASED, 4)
    {
      forall k | 0 <= k < 4
        ensures WordAt(mem, v)[k] == ERASED
      {
        assert mem[v + k] == Fill(ERASED, |mem| - Used(ns))[v + k - Used(ns)];
      }
    }
  }

  /** The erase word of a marked node differs from the last word of the block. */
  lemma MarkShows(mem: seq<Byte>, ns: seq<Node>)
    requires Laid(mem, 0, ns) && ns != [] && ValidCount(ns) == 0
    ensures NodeSize(ns[0]) <= |mem| && WordAt(mem, NodeSize(ns[0]) - 4) != WordAt(mem, |mem| - 4)
  {
    LaidFits(mem, ns);
    LaidFields(mem, 0, ns);
    CountNone(ns);
    ErasedBehind(mem, ns);
    var v := NodeSize(ns[0]) - 4;
    hide *;
    WordByte(mem, v);
    WordByte(mem, |mem| - 4);
    FillByte();
  }

  lemma WordByte(mem: seq<Byte>, v: nat)
    requires v + 4 <= |mem|
    ensures WordAt(mem, v)[0] == mem[v]
  {
  }

  lemma FillByte()
    ensures Fill(ERASED, 4)[0] == ERASED
  {
  }

  /** If all words of a block are the same, it holds no marked node. */
  lemma UniformIsErased(mem: seq<Byte>, ns: seq<Node>)
    requires Laid(mem, 0, ns) && |mem| % 4 == 0 && ValidCount(ns) == 0
    requires forall v :: 0 <= v && v + 4 <= |mem| && v % 4 == 0 ==> WordAt(mem, v) == WordAt(mem, 0)
    ensures ns == []
  {
    hide Laid, WordAt;
    if ns != [] {
      MarkShows(mem, ns);
    }
  }
}
