/** Runs of the key-value store that end where one would not expect. */
module KvScenarios {
  import opened KernelTypes
  import opened KvNodes
  import opened KvMaps
  import opened KvStores
  import C = KvCrashes

  /** Two blocks of 512 bytes and one node of 508: after garbage collection has written the copy and before it erases
      the original, both blocks are full up to the last word. */
  lemma CrashWithoutSpare(key: Key, value: Value)
    requires |key| + |value| == PAIR_LIMIT - 1
    ensures var node := Node(key, value, 1, true); var n := [[node], []];
      var n' := Append(n, 1, node.(version := Succ(1)));
            && Collectable(n, 0, 1, SCAN_END) && Recoverable(n', map[key := value]) && forall i :: 0 <= i < 2 ==>
               !RoomLeft(n', i, SCAN_END)
  {
    var node := Node(key, value, 1, true);
    var n, copy, m := [[node], []], node.(version := Succ(1)), map[key := value];
    Single(node);
    Single(copy);
    assert Unique(n) && Represents(n, m) by {
      assert At(n, 0, 0);
    }
    hide Unique, Represents;
    MovedMeans(n, m, Place(0, 0, node, 508), 1, copy);
    hide Recoverable;
    assert [] + [copy] == [copy];
    assert Append(n, 1, copy) == [[node], [copy]];
  }

  lemma Single(node: Node)
    requires node.valid && |node.key| + |node.value| == PAIR_LIMIT - 1
    ensures ValidCount([node]) == 1 && ValidSize([node]) == Used([node]) == 508 && [node][..1] == [node]
  {
    assert [node][1..] == [];
  }

  /** A pair that fills a block of 512 bytes. */
  ghost predicate Filling(key: Key, value: Value) {
    KeyOk(key) && LengthOk(key) && |key| + |value| == PAIR_LIMIT - 1
  }

  /** From two empty blocks: a pair is stored, and garbage collection for its new value is cut by a crash after its
      first write. After the next start there is no spare block, though the first block is empty. One more pair is
      stored there; for the next one the source would read in front of its first block. */
  method SpareLost(key: Key, a: Value, b: Value, other: Key, c: Value) returns (s: KvStore, stored: int, lost: int)
    requires Filling(key, a) && Filling(key, b) && a != b && Filling(other, c) && other != key
    ensures fresh(s) && s.Valid() && s.gcBid == -1 && s.model == map[key := a, other := c] && stored == |c| &&
      lost == -2
  {
    hide KvStore.Valid, Filling;
    var flash := CutShort(key, a, b);
    s := Restarted(flash, key, a);
    stored, lost := LastStores(s, key, a, b, other, c);
  }

  /** What is in flash after the first write of garbage collection. */
  ghost function Twice(key: Key, a: Value): seq<seq<Node>> {
    [[Node(key, a, 1, true)], [Node(key, a, 2, true)]]
  }

  method CutShort(key: Key, a: Value, b: Value) returns (flash: seq<seq<Byte>>)
    requires Filling(key, a) && Filling(key, b) && a != b
    ensures |flash| == 2 && FlashOk(flash, Twice(key, a), SCAN_END)
  {
    hide KvStore.Valid, SetDone, BootDone, Filling, Collects, FirstCopy, Recoverable, LogOk;
    var first := new KvStore(SCAN_END);
    var blank := Fill(ERASED, SCAN_END);
    BlankFlash();
    first.Boot([blank, blank], [[], []], map[]);
    BlankStart(first.St());
    Lengths(key, a);
    Lengths(key, b);
    ghost var st := first.St();
    var r := first.Set(key, a);
    FirstPair(st, first.St(), key, a, r);
    C.FirstFacts(first);
    var cut := |first.images|;
    st := first.St();
    GcComes(st, key, a, b);
    r := first.Set(key, b);
    C.LogAt(first, cut);
    CopyFirst(st.nodes, first.log[cut], key, a);
    flash := first.images[cut];
  }

  method Restarted(flash: seq<seq<Byte>>, key: Key, a: Value) returns (s: KvStore)
    requires Filling(key, a) && |flash| == 2 && FlashOk(flash, Twice(key, a), SCAN_END)
    ensures fresh(s) && s.Valid() && s.size == SCAN_END && s.gcBid == -1 && s.model == map[key := a] &&
      s.nodes == [[], [Node(key, a, 2, true)]]
  {
    hide KvStore.Valid, BootDone, Filling, Recoverable, FlashOk, RoomLeft, LogOk, Twice;
    Lengths(key, a);
    TwiceIsLeft(key, a);
    s := new KvStore(SCAN_END);
    s.Boot(flash, Twice(key, a), map[key := a]);
    HalfCollected(s, key, a);
  }

  method LastStores(s: KvStore, key: Key, a: Value, b: Value, other: Key, c: Value) returns (stored: int, lost: int)
    requires Filling(key, a) && Filling(key, b) && a != b && Filling(other, c) && other != key
    requires s.Valid() && s.size == SCAN_END && s.gcBid == -1 && s.model == map[key := a] &&
      s.nodes == [[], [Node(key, a, 2, true)]]
    modifies s
    ensures s.Valid() && s.gcBid == -1 && s.model == map[key := a, other := c] && stored == |c| && lost == -2
  {
    hide KvStore.Valid, SetDone, Filling, Collects, Unstorable, Full;
    Lengths(key, a);
    Lengths(key, b);
    Lengths(other, c);
    ghost var st := s.St();
    stored := s.Set(other, c);
    SecondPair(st, s.St(), key, a, other, c, stored);
    st := s.St();
    lost := s.Set(key, b);
    NoRoomLeft(st, s.St(), key, a, b, other, c, lost);
  }

  lemma TwiceIsLeft(key: Key, a: Value)
    requires |key| + |a| == PAIR_LIMIT - 1
    ensures Recoverable(Twice(key, a), map[key := a]) && forall i :: 0 <= i < 2 ==>
      !RoomLeft(Twice(key, a), i, SCAN_END)
  {
    CrashWithoutSpare(key, a);
    hide Recoverable, RoomLeft;
    assert [] + [Node(key, a, 2, true)] == [Node(key, a, 2, true)];
    assert Append([[Node(key, a, 1, true)], []], 1, Node(key, a, 2, true)) == Twice(key, a);
  }

  lemma BlankFlash()
    ensures FlashOk([Fill(ERASED, SCAN_END), Fill(ERASED, SCAN_END)], [[], []], SCAN_END) &&
      Recoverable([[], []], map[])
  {
    ErasedIsEmpty(SCAN_END);
    var n: seq<seq<Node>> := [[], []];
    assert Unique(n) && Represents(n, map[]);
  }

  lemma BlankStart(s: State)
    requires BootDone([[], []], s, SCAN_END)
    ensures s.nodes == [[], []] && s.gc == 1
  {
    var n: seq<seq<Node>> := [[], []];
    assert Cleaned(n) == n && Used(n[0]) == 0 && Used(n[1]) == 0;
  }

  lemma Lengths(key: Key, value: Value)
    requires Filling(key, value)
    ensures KeyOk(key) && LengthOk(key) && PairOk(key, value) && |key| + |value| == PAIR_LIMIT - 1 &&
      Need(key, value) == 508
  {
    hide KeyOk;
  }

  lemma FirstPair(s: State, s': State, key: Key, a: Value, r: int)
    requires s.nodes == [[], []] && s.gc == 1 && SetDone(s, s', key, a, SCAN_END, r) && LengthOk(key) &&
      PairOk(key, a) && Need(key, a) == 508
    ensures s'.nodes == [[Node(key, a, 1, true)], []] && s'.gc == 1 && r == |a|
  {
    hide BodySize;
    assert Used(s.nodes[0]) == 0;
    assert [] + [Node(key, a, 1, true)] == [Node(key, a, 1, true)];
  }

  lemma GcComes(s: State, key: Key, a: Value, b: Value)
    requires s.nodes == [[Node(key, a, 1, true)], []] && s.gc == 1 && a != b && Filling(key, a) && PairOk(key, b) &&
      Need(key, b) == 508
    ensures Collects(s, key, b, SCAN_END) && Victim(s.nodes, 1, SCAN_END) == Some(0)
  {
    CrashWithoutSpare(key, a);
    Single(Node(key, a, 1, true));
    hide Recoverable, RoomLeft, BodySize, ValidSize, Used, Victim;
    assert IsVictim(s.nodes, 0, 1, SCAN_END);
    VictimIs(s.nodes, 0, 1, SCAN_END);
  }

  lemma CopyFirst(n: seq<seq<Node>>, n': seq<seq<Node>>, key: Key, a: Value)
    requires n == [[Node(key, a, 1, true)], []] && FirstCopy(n, n', 0, 1)
    ensures n' == Twice(key, a)
  {
    assert [] + [Node(key, a, 2, true)] == [Node(key, a, 2, true)];
    assert n[0][1..] == [];
  }

  /** The next start removes the older copy, and the block it was in is erased. */
  lemma HalfCollected(s: KvStore, key: Key, a: Value)
    requires s.Valid() && |key| + |a| == PAIR_LIMIT - 1
    requires BootDone(Twice(key, a), s.St(), SCAN_END)
    ensures s.gcBid >= -1 && s.nodes == [[], [Node(key, a, 2, true)]]
  {
    var node, copy := Node(key, a, 1, true), Node(key, a, 2, true);
    var n := Twice(key, a);
    Single(node);
    Single(copy);
    assert Cleaned(n) == n;
    assert SameKey(n, 0, 0, 1, 0);
    hide ValidCount, BlocksOk, LogOk, Represents;
    assert Healed(n, s.nodes);
    var i, j, x, y :| Twin(n, i, j, x, y) && s.nodes == Remove(n, i, j);
    assert i == 0 && j == 0;
  }

  lemma SecondPair(s: State, s': State, key: Key, a: Value, other: Key, c: Value, r: int)
    requires s.nodes == [[], [Node(key, a, 2, true)]] && s.gc == -1 && SetDone(s, s', other, c, SCAN_END, r) &&
      other != key
    requires |key| + |a| == PAIR_LIMIT - 1 && LengthOk(other) && PairOk(other, c) && Need(other, c) == 508
    ensures s'.nodes == [[Node(other, c, 1, true)], [Node(key, a, 2, true)]] && s'.gc == -1 && r == |c|
  {
    Single(Node(key, a, 2, true));
    assert Used(s.nodes[0]) == 0 && Used(s.nodes[1]) == 508;
    hide BodySize, ValidSize, Used;
    assert [] + [Node(other, c, 1, true)] == [Node(other, c, 1, true)];
  }

  lemma NoRoomLeft(s: State, s': State, key: Key, a: Value, b: Value, other: Key, c: Value, r: int)
    requires s.nodes == [[Node(other, c, 1, true)], [Node(key, a, 2, true)]] && s.gc == -1 &&
      SetDone(s, s', key, b, SCAN_END, r) && a != b && other != key
    requires |key| + |a| == PAIR_LIMIT - 1 && |other| + |c| == PAIR_LIMIT - 1 && PairOk(key, b) && Need(key, b) == 508
    ensures r == -2 && s' == s
  {
    Single(Node(other, c, 1, true));
    Single(Node(key, a, 2, true));
    hide BodySize, ValidSize, Used;
  }
}
