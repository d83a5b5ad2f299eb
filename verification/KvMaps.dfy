/** What the nodes in all blocks of a store mean as a map, and what one flash operation does to that meaning. */
module KvMaps {
  import opened KernelTypes
  import opened KvNodes

  type Key = seq<Byte>
  type Value = seq<Byte>

  /** There is a valid node at place `j` of block `i`. */
  ghost predicate At(n: seq<seq<Node>>, i: int, j: int) {
    0 <= i < |n| && 0 <= j < |n[i]| && n[i][j].valid
  }

  ghost predicate SameKey(n: seq<seq<Node>>, i: int, j: int, x: int, y: int) {
    At(n, i, j) && At(n, x, y) && n[i][j].key == n[x][y].key
  }

  /** No key has two valid nodes. */
  ghost predicate Unique(n: seq<seq<Node>>) {
    forall i, j, x, y :: SameKey(n, i, j, x, y) ==> i == x && j == y
  }

  ghost predicate HasKey(n: seq<seq<Node>>, k: Key) {
    exists i, j :: At(n, i, j) && n[i][j].key == k
  }

  /** The valid nodes are exactly the pairs of the map. */
  ghost predicate Represents(n: seq<seq<Node>>, m: map<Key, Value>) {
    && (forall i, j :: At(n, i, j) ==> n[i][j].key in m && m[n[i][j].key] == n[i][j].value)
    && (forall k :: k in m ==> HasKey(n, k))
  }

  /** Versions run from 1 to 255 and start again at 1. */
  function Succ(version: nat): nat {
    if version == 255 then 1 else version + 1
  }

  /** The key of node (i, j) has a second, newer copy at (x, y); no other key has two. */
  ghost predicate Twin(n: seq<seq<Node>>, i: int, j: int, x: int, y: int) {
    && SameKey(n, i, j, x, y) && !(i == x && j == y) && n[x][y].version == Succ(n[i][j].version)
    && (forall a, b, c, d :: SameKey(n, a, b, c, d) ==>
          (a == c && b == d) || (a == i && b == j && c == x && d == y) || (a == x && b == y && c == i && d == j))
  }

  function ValidCount(nodes: seq<Node>): (r: nat) {
    if nodes == [] then 0 else (if nodes[0].valid then 1 else 0) + ValidCount(nodes[1..])
  }

  function ValidSize(nodes: seq<Node>): (r: nat)
    ensures r % 4 == 0
  {
    if nodes == [] then 0 else (if nodes[0].valid then NodeSize(nodes[0]) else 0) + ValidSize(nodes[1..])
  }

  /** `kvnode_rm`: the node is marked, or the block is erased if nothing else in it is valid. */
  function Marked(nodes: seq<Node>, j: nat): seq<Node>
    requires j < |nodes|
  {
    if ValidCount(nodes) > 1 then nodes[j := nodes[j].(valid := false)] else []
  }

  function Remove(n: seq<seq<Node>>, i: nat, j: nat): seq<seq<Node>>
    requires i < |n| && j < |n[i]|
  {
    n[i := Marked(n[i], j)]
  }

  function Append(n: seq<seq<Node>>, b: nat, node: Node): seq<seq<Node>>
    requires b < |n|
  {
    n[b := n[b] + [node]]
  }

  // ----- Counting -----

  lemma {:induction false} CountAt(nodes: seq<Node>, j: nat)
    requires j < |nodes| && nodes[j].valid
    ensures ValidCount(nodes) >= 1
    ensures ValidCount(nodes) == 1 ==> forall y :: 0 <= y < |nodes| && y != j ==> !nodes[y].valid
    ensures ValidCount(nodes[j := nodes[j].(valid := false)]) == ValidCount(nodes) - 1
    ensures ValidSize(nodes[j := nodes[j].(valid := false)]) == ValidSize(nodes) - NodeSize(nodes[j])
    ensures ValidSize(nodes) >= NodeSize(nodes[j])
  {
    var marked := nodes[j := nodes[j].(valid := false)];
    if j == 0 {
      assert marked[1..] == nodes[1..];
      if ValidCount(nodes[1..]) == 0 {
        CountNone(nodes[1..]);
        assert forall y :: 1 <= y < |nodes| ==> nodes[y] == nodes[1..][y - 1];
      }
    } else {
      assert marked[1..] == nodes[1..][j - 1 := nodes[j].(valid := false)];
      CountAt(nodes[1..], j - 1);
      if ValidCount(nodes) == 1 {
        assert forall y :: 1 <= y < |nodes| ==> nodes[y] == nodes[1..][y - 1];
      }
    }
  }

  lemma {:induction false} CountNone(nodes: seq<Node>)
    ensures ValidCount(nodes) == 0 <==> forall y :: 0 <= y < |nodes| ==> !nodes[y].valid
    ensures ValidCount(nodes) == 0 <==> ValidSize(nodes) == 0
  {
    if nodes != [] {
      CountNone(nodes[1..]);
      assert forall y :: 1 <= y < |nodes| ==> nodes[y] == nodes[1..][y - 1];
      assert forall y :: 0 <= y < |nodes[1..]| ==> nodes[1..][y] == nodes[y + 1];
    }
  }

  lemma {:induction false} CountAppend(nodes: seq<Node>, n: Node)
    requires n.valid
    ensures ValidCount(nodes + [n]) == ValidCount(nodes) + 1 && ValidSize(nodes + [n]) == ValidSize(nodes) + NodeSize(n)
    ensures Used(nodes + [n]) == Used(nodes) + NodeSize(n)
  {
    if nodes != [] {
      CountAppend(nodes[1..], n);
      assert (nodes + [n])[1..] == nodes[1..] + [n];
    } else {
      assert [n][1..] == [];
    }
  }

  lemma {:induction false} UsedMarked(nodes: seq<Node>, j: nat)
    requires j < |nodes|
    ensures Used(nodes[j := nodes[j].(valid := false)]) == Used(nodes)
  {
    if j > 0 {
      UsedMarked(nodes[1..], j - 1);
      assert nodes[j := nodes[j].(valid := false)][1..] == nodes[1..][j - 1 := nodes[j].(valid := false)];
    } else {
      assert nodes[j := nodes[j].(valid := false)][1..] == nodes[1..];
    }
  }

  lemma {:induction false} CountSplit(a: seq<Node>, b: seq<Node>)
    ensures ValidCount(a + b) == ValidCount(a) + ValidCount(b)
  {
    if a != [] {
      CountSplit(a[1..], b);
      assert (a + b)[1..] == a[1..] + b;
    } else {
      assert a + b == b;
    }
  }

  // ----- What an operation does -----

  /** Removing a node takes away that node, and nothing else. */
  lemma RemoveIs(n: seq<seq<Node>>, i: nat, j: nat)
    requires At(n, i, j)
    ensures forall x, y :: At(Remove(n, i, j), x, y) <==> At(n, x, y) && !(x == i && y == j)
    ensures forall x, y :: At(Remove(n, i, j), x, y) ==> At(n, x, y) && Remove(n, i, j)[x][y] == n[x][y]
  {
    CountAt(n[i], j);
  }

  lemma AppendIs(n: seq<seq<Node>>, b: nat, node: Node)
    requires b < |n| && node.valid
    ensures forall x, y :: At(Append(n, b, node), x, y) <==> At(n, x, y) || (x == b && y == |n[b]|)
    ensures forall x, y :: At(n, x, y) ==> Append(n, b, node)[x][y] == n[x][y]
    ensures Append(n, b, node)[b][|n[b]|] == node
  {
  }

  /** A key that was not there. */
  lemma AddedKey(n: seq<seq<Node>>, m: map<Key, Value>, b: nat, node: Node)
    requires Unique(n) && Represents(n, m) && b < |n| && node.valid && node.key !in m
    ensures Unique(Append(n, b, node)) && Represents(Append(n, b, node), m[node.key := node.value])
  {
    AppendIs(n, b, node);
    hide Append;
    var n', m' := Append(n, b, node), m[node.key := node.value];
    forall k | k in m'
      ensures HasKey(n', k)
    {
      if k == node.key {
        assert At(n', b, |n[b]|);
      } else {
        assert HasKey(n, k);
        var i, j :| At(n, i, j) && n[i][j].key == k;
        assert At(n', i, j);
      }
    }
    forall i, j, x, y | SameKey(n', i, j, x, y)
      ensures i == x && j == y
    {
      if At(n, i, j) && At(n, x, y) {
        assert SameKey(n, i, j, x, y);
      }
    }
  }

  /** A newer copy of a key that is there. */
  lemma AddedTwin(n: seq<seq<Node>>, i: nat, j: nat, b: nat, node: Node)
    requires Unique(n) && At(n, i, j) && b < |n| && node.valid && node.key == n[i][j].key &&
      node.version == Succ(n[i][j].version)
    ensures Twin(Append(n, b, node), i, j, b, |n[b]|)
  {
    AppendIs(n, b, node);
    hide Append;
    var n' := Append(n, b, node);
    assert At(n', i, j) && At(n', b, |n[b]|);
    forall a, c, d, e | SameKey(n', a, c, d, e)
      ensures (a == d && c == e) || (a == i && c == j && d == b && e == |n[b]|) ||
        (a == b && c == |n[b]| && d == i && e == j)
    {
      if At(n, a, c) && At(n, d, e) {
        assert SameKey(n, a, c, d, e);
      } else if At(n, a, c) {
        assert SameKey(n, a, c, i, j);
      } else if At(n, d, e) {
        assert SameKey(n, d, e, i, j);
      }
    }
  }

  /** Without the older copy every key is there once. */
  lemma TwinResolved(n: seq<seq<Node>>, i: nat, j: nat, x: nat, y: nat)
    requires Twin(n, i, j, x, y)
    ensures Unique(Remove(n, i, j))
  {
    RemoveIs(n, i, j);
    hide Remove;
    var n' := Remove(n, i, j);
    forall a, b, c, d | SameKey(n', a, b, c, d)
      ensures a == c && b == d
    {
      assert SameKey(n, a, b, c, d);
    }
  }

  /** And the map has the value of the newer one. */
  lemma TwinMeans(n: seq<seq<Node>>, m: map<Key, Value>, i: nat, j: nat, b: nat, node: Node)
    requires Unique(n) && Represents(n, m) && At(n, i, j) && b < |n| && node.valid && node.key == n[i][j].key
    ensures At(Append(n, b, node), i, j) && Represents(Remove(Append(n, b, node), i, j), m[node.key := node.value])
  {
    AppendIs(n, b, node);
    var n1, m' := Append(n, b, node), m[node.key := node.value];
    hide Append;
    assert At(n1, i, j);
    RemoveIs(n1, i, j);
    hide Remove;
    var n2 := Remove(n1, i, j);
    assert At(n2, b, |n[b]|);
    forall x, y | At(n2, x, y)
      ensures n2[x][y].key in m' && m'[n2[x][y].key] == n2[x][y].value
    {
      assert !SameKey(n, x, y, i, j);
    }
    forall k | k in m'
      ensures HasKey(n2, k)
    {
      if k != node.key {
        assert HasKey(n, k);
        var x, y :| At(n, x, y) && n[x][y].key == k;
        assert At(n2, x, y);
      }
    }
  }

  /** Removing the only copy of a key removes the key. */
  lemma RemovedKey(n: seq<seq<Node>>, m: map<Key, Value>, i: nat, j: nat)
    requires Unique(n) && Represents(n, m) && At(n, i, j)
    ensures Unique(Remove(n, i, j)) && Represents(Remove(n, i, j), m - {n[i][j].key})
  {
    RemoveIs(n, i, j);
    hide Remove;
    var n', m' := Remove(n, i, j), m - {n[i][j].key};
    forall x, y | At(n', x, y)
      ensures n'[x][y].key in m' && m'[n'[x][y].key] == n'[x][y].value
    {
      assert !SameKey(n, x, y, i, j);
    }
    forall k | k in m'
      ensures HasKey(n', k)
    {
      assert HasKey(n, k);
      var x, y :| At(n, x, y) && n[x][y].key == k;
      assert At(n', x, y);
    }
    forall a, b, c, d | SameKey(n', a, b, c, d)
      ensures a == c && b == d
    {
      assert SameKey(n, a, b, c, d);
    }
  }

  // ----- Garbage collection -----

  /** All that is valid in block `b` fits into what is left of the spare block. */
  ghost predicate Collectable(n: seq<seq<Node>>, b: nat, gc: nat, size: nat) {
    b < |n| && gc < |n| && b != gc && 0 < ValidSize(n[b]) && ValidSize(n[b]) + Used(n[gc]) < size
  }

  /** The first of the least used blocks that can be collected. */
  ghost predicate IsVictim(n: seq<seq<Node>>, v: nat, gc: nat, size: nat) {
    && Collectable(n, v, gc, size)
    && forall b: nat :: Collectable(n, b, gc, size) ==>
       ValidSize(n[v]) < ValidSize(n[b]) || (ValidSize(n[v]) == ValidSize(n[b]) && v <= b)
  }

  ghost function Victim(n: seq<seq<Node>>, gc: nat, size: nat): (r: Option<nat>)
    ensures r.Some? ==> IsVictim(n, r.value, gc, size)
    ensures r.None? ==> forall v: nat :: !IsVictim(n, v, gc, size)
  {
    if exists v: nat :: IsVictim(n, v, gc, size) then
      var v: nat :| IsVictim(n, v, gc, size);
      Some(v)
    else None
  }

  lemma VictimIs(n: seq<seq<Node>>, v: nat, gc: nat, size: nat)
    requires IsVictim(n, v, gc, size)
    ensures Victim(n, gc, size) == Some(v)
  {
    var r := Victim(n, gc, size);
    assert Collectable(n, r.value, gc, size);
  }

  lemma VictimFacts(n: seq<seq<Node>>, v: nat, gc: nat, size: nat)
    requires Victim(n, gc, size) == Some(v)
    ensures Collectable(n, v, gc, size)
  {
    assert IsVictim(n, v, gc, size);
  }

  lemma NoVictim(n: seq<seq<Node>>, gc: nat, size: nat)
    requires forall b: nat :: !Collectable(n, b, gc, size)
    ensures Victim(n, gc, size) == None
  {
  }

  /** The valid nodes of a block, each as the copy that garbage collection writes. */
  function Bumped(ns: seq<Node>): seq<Node> {
    if ns == [] then [] else (if ns[0].valid then [ns[0].(version := Succ(ns[0].version))] else []) + Bumped(ns[1..])
  }

  lemma {:induction false} BumpedAppend(ns: seq<Node>, x: Node)
    ensures Bumped(ns + [x]) == Bumped(ns) + if x.valid then [x.(version := Succ(x.version))] else []
  {
    if ns != [] {
      BumpedAppend(ns[1..], x);
      assert (ns + [x])[1..] == ns[1..] + [x];
    } else {
      assert [] + [x] == [x] && [x][1..] == [];
    }
  }

  lemma {:induction false} BumpedPrefix(ns: seq<Node>, j: nat)
    requires j <= |ns|
    ensures |Bumped(ns[..j])| <= |Bumped(ns)| && forall x :: 0 <= x < |Bumped(ns[..j])| ==>
      Bumped(ns)[x] == Bumped(ns[..j])[x]
  {
    if j == |ns| {
      assert ns[..j] == ns;
    } else {
      var front := ns[..|ns| - 1];
      BumpedPrefix(front, j);
      assert front[..j] == ns[..j] && front + [ns[|ns| - 1]] == ns;
      BumpedAppend(front, ns[|ns| - 1]);
    }
  }

  ghost function Emptied(n: seq<seq<Node>>, v: nat, gc: nat): seq<seq<Node>>
    requires v < |n| && gc < |n|
  {
    n[gc := n[gc] + Bumped(n[v])][v := []]
  }

  ghost function ToCollect(n: seq<seq<Node>>, gc: nat): set<nat> {
    set b: nat | b < |n| && b != gc && ValidSize(n[b]) > 0
  }

  lemma EmptiedLess(n: seq<seq<Node>>, v: nat, gc: nat)
    requires v < |n| && gc < |n| && v != gc && ValidSize(n[v]) > 0
    ensures ToCollect(Emptied(n, v, gc), gc) < ToCollect(n, gc)
  {
    assert v in ToCollect(n, gc) && v !in ToCollect(Emptied(n, v, gc), gc);
  }

  /** What `kv_gc` leaves: victim after victim goes to the spare block, until there is none. */
  ghost function Compacted(n: seq<seq<Node>>, gc: nat, size: nat): seq<seq<Node>>
    decreases ToCollect(n, gc)
  {
    var v := Victim(n, gc, size);
    if v.None? then n else EmptiedLess(n, v.value, gc); Compacted(Emptied(n, v.value, gc), gc, size)
  }

  /** The last victim is the new spare block. */
  ghost function NewSpare(n: seq<seq<Node>>, gc: nat, size: nat, last: Option<nat>): Option<nat>
    decreases ToCollect(n, gc)
  {
    var v := Victim(n, gc, size);
    if v.None? then last else EmptiedLess(n, v.value, gc); NewSpare(Emptied(n, v.value, gc), gc, size, v)
  }

  ghost function SpareAfter(n: seq<seq<Node>>, gc: nat, size: nat): nat {
    var spare := NewSpare(n, gc, size, None);
    if spare.None? then gc else spare.value
  }

  /** No block but the spare one has room for a node of `need` bytes. */
  ghost predicate Full(n: seq<seq<Node>>, gc: int, need: nat, size: nat) {
    forall b :: 0 <= b < |n| && b != gc ==> Used(n[b]) + need > size - 4
  }

  ghost predicate HasPair(n: seq<seq<Node>>, key: Key, value: Value) {
    exists i, j :: At(n, i, j) && n[i][j].key == key && n[i][j].value == value
  }

  /** When a value is not stored: there is no room, and garbage collection does not make any. */
  ghost predicate Unstorable(n: seq<seq<Node>>, gc: nat, key: Key, value: Value, size: nat) {
    var need := BodySize(|key|, |value|) + 4;
    && !HasPair(n, key, value) && Full(n, gc, need, size)
    && (Victim(n, gc, size).None? || Full(Compacted(n, gc, size), SpareAfter(n, gc, size), need, size))
  }

  // ----- What one call does to the nodes -----

  /** The nodes in all blocks, the current block and the spare one, which is -1 if there is none. */
  datatype State = State(nodes: seq<seq<Node>>, bid: nat, gc: int)

  predicate PairOk(key: Key, value: Value) {
    0 < |value| && |key| + |value| < PAIR_LIMIT
  }

  predicate LengthOk(key: Key) {
    1 <= |key| <= KEY_MAX
  }

  function Need(key: Key, value: Value): nat {
    BodySize(|key|, |value|) + 4
  }

  /** From block `start` around, block `x` comes before block `b`. */
  predicate Sooner(x: nat, b: nat, start: nat) {
    if start <= b then start <= x < b else x < b || start <= x
  }

  /** Where a node of `need` bytes goes: the first block with room, from block `start` around, except the spare one. */
  ghost predicate IsSlot(n: seq<seq<Node>>, start: nat, gc: int, need: nat, size: nat, b: nat) {
    && b < |n| && b != gc && Used(n[b]) + need <= size - 4
    && forall x: nat :: x < |n| && x != gc && Sooner(x, b, start) ==> Used(n[x]) + need > size - 4
  }

  /** A node for the pair was appended to block `b`, with the version after that of the node it replaces. */
  ghost predicate Renewed(n: seq<seq<Node>>, n': seq<seq<Node>>, b: nat, key: Key, value: Value) {
    b < |n| && if HasKey(n, key) then exists i, j :: Superseded(n, n', b, value, i, j, key)
      else n' == Append(n, b, Node(key, value, 1, true))
  }

  ghost predicate Superseded(n: seq<seq<Node>>, n': seq<seq<Node>>, b: nat, value: Value, i: int, j: int, key: Key)
    requires b < |n|
  {
    && At(n, i, j) && n[i][j].key == key && At(Append(n, b, Node(key, value, Succ(n[i][j].version), true)), i, j)
    && n' == Remove(Append(n, b, Node(key, value, Succ(n[i][j].version), true)), i, j)
  }

  ghost predicate Housed(s: State, s': State, key: Key, value: Value, size: nat) {
    && IsSlot(s.nodes, s.bid, s.gc, Need(key, value), size, s'.bid) && s'.gc == s.gc
    && Renewed(s.nodes, s'.nodes, s'.bid, key, value)
  }

  /** The pair fits somewhere as it is. */
  ghost predicate Fitting(s: State, key: Key, value: Value, size: nat) {
    LengthOk(key) && !Full(s.nodes, s.gc, Need(key, value), size)
  }

  ghost function Collected(s: State, size: nat): State
    requires s.gc >= 0
  {
    State(Compacted(s.nodes, s.gc, size), s.bid, SpareAfter(s.nodes, s.gc, size))
  }

  /** `kv_set` on the nodes, with its answer: the pair is there, or goes to the first block with room, before or after
      garbage collection. */
  ghost predicate SetDone(s: State, s': State, key: Key, value: Value, size: nat, r: int) {
    if !PairOk(key, value) then r == -1 && s' == s
    else if HasPair(s.nodes, key, value) then r == |value| && s' == s
    else if Fitting(s, key, value, size) then r == |value| && Housed(s, s', key, value, size)
    else if s.gc < 0 then r == -2 && s' == s
    else if Fitting(Collected(s, size), key, value, size) then r == |value| &&
      Housed(Collected(s, size), s', key, value, size)
    else r == -1 && s' == Collected(s, size)
  }

  /** The pair is to be stored, and garbage collection is tried for it. */
  ghost predicate Collects(s: State, key: Key, value: Value, size: nat) {
    PairOk(key, value) && !HasPair(s.nodes, key, value) && !Fitting(s, key, value, size) && s.gc >= 0 &&
      Victim(s.nodes, s.gc, size).Some?
  }

  /** The nodes after the first write of a garbage collection: the first valid node of the victim is there twice. */
  ghost predicate FirstCopy(n: seq<seq<Node>>, n': seq<seq<Node>>, v: nat, gc: nat) {
    v < |n| && gc < |n| && Bumped(n[v]) != [] && n' == Append(n, gc, Bumped(n[v])[0])
  }

  /** `kv_rm` on the nodes. */
  ghost predicate RmDone(s: State, s': State, key: Key) {
    s'.bid == s.bid && s'.gc == s.gc
    && if HasKey(s.nodes, key) then exists i, j :: Dropped(s.nodes, s'.nodes, i, j, key) else s'.nodes == s.nodes
  }

  ghost predicate Dropped(n: seq<seq<Node>>, n': seq<seq<Node>>, i: int, j: int, key: Key) {
    At(n, i, j) && n[i][j].key == key && n' == Remove(n, i, j)
  }

  // ----- Crashes -----

  /** The state a crash may leave: the map, with at most one key in two copies, of which the newer one counts. */
  ghost predicate Recoverable(n: seq<seq<Node>>, m: map<Key, Value>) {
    (Unique(n) && Represents(n, m)) || exists i, j, x, y :: Twin(n, i, j, x, y) && Represents(Remove(n, i, j), m)
  }

  /** Of two consecutive versions, the tests of `kvblock_check_version` pick the older one, across the wrap. */
  function OlderIsFirst(v1: nat, v2: nat): bool {
    if v1 == 255 && v2 == 1 then true else if v1 == 1 && v2 == 255 then false else v1 < v2
  }

  lemma VersionOrder(v: nat)
    requires 1 <= v <= 255
    ensures 1 <= Succ(v) <= 255 && Succ(v) != v && OlderIsFirst(v, Succ(v)) && !OlderIsFirst(Succ(v), v)
  {
  }

  /** The order is not that of the numbers of writes: versions that are further apart are judged wrongly
      after a wrap. */
  lemma VersionOrderNeedsNeighbours()
    ensures !OlderIsFirst(255, Succ(Succ(255)))
  {
  }

  // ----- Recovery -----

  /** (x, y) is not before (i, a) in the order the nodes are scanned. */
  ghost predicate NotBefore(x: int, y: int, i: int, a: int) {
    x > i || (x == i && y >= a)
  }

  /** The map is there, or will be once the scan, now at (i, a), has met the key that is there twice. */
  ghost predicate Unverified(n: seq<seq<Node>>, m: map<Key, Value>, i: int, a: int) {
    || (Unique(n) && Represents(n, m))
    || exists p, q, x, y :: TwinAhead(n, m, p, q, x, y, i, a)
  }

  ghost predicate TwinAhead(n: seq<seq<Node>>, m: map<Key, Value>, p: int, q: int, x: int, y: int, i: int, a: int) {
    Twin(n, p, q, x, y) && Represents(Remove(n, p, q), m) && NotBefore(p, q, i, a) && NotBefore(x, y, i, a)
  }

  lemma Unscanned(n: seq<seq<Node>>, m: map<Key, Value>)
    requires Recoverable(n, m)
    ensures Unverified(n, m, 0, 0)
  {
    if !(Unique(n) && Represents(n, m)) {
      var i, j, x, y :| Twin(n, i, j, x, y) && Represents(Remove(n, i, j), m);
      assert TwinAhead(n, m, i, j, x, y, 0, 0);
    }
  }

  /** There is no second copy of the node at (i, a) further on. */
  lemma NoCopyAhead(n: seq<seq<Node>>, m: map<Key, Value>, i: int, a: int)
    requires Unverified(n, m, i, a)
    requires forall x, y :: SameKey(n, i, a, x, y) && NotBefore(x, y, i, a + 1) ==> false
    ensures Unverified(n, m, i, a + 1)
  {
    if !(Unique(n) && Represents(n, m)) {
      hide Represents, Remove;
      var p, q, x, y :| TwinAhead(n, m, p, q, x, y, i, a);
      assert SameKey(n, p, q, x, y) && SameKey(n, x, y, p, q);
      assert TwinAhead(n, m, p, q, x, y, i, a + 1);
    }
  }

  lemma NextBlock(n: seq<seq<Node>>, m: map<Key, Value>, i: int, a: int)
    requires Unverified(n, m, i, a) && 0 <= i < |n| && a >= |n[i]|
    ensures Unverified(n, m, i + 1, 0)
  {
    if !(Unique(n) && Represents(n, m)) {
      hide Represents, Remove;
      var p, q, x, y :| TwinAhead(n, m, p, q, x, y, i, a);
      assert TwinAhead(n, m, p, q, x, y, i + 1, 0);
    }
  }

  lemma ScannedAll(n: seq<seq<Node>>, m: map<Key, Value>)
    requires Unverified(n, m, |n|, 0)
    ensures Unique(n) && Represents(n, m)
  {
    hide Represents, Remove;
  }

  /** Two copies were met: the one the version test picks is the older one, and removing it leaves the map. */
  lemma CopyMet(n: seq<seq<Node>>, m: map<Key, Value>, i: nat, a: nat, x: nat, y: nat)
    requires Unverified(n, m, i, a) && SameKey(n, i, a, x, y) && !(i == x && a == y)
    requires forall p, q :: At(n, p, q) ==> 1 <= n[p][q].version <= 255
    ensures var older := OlderIsFirst(n[i][a].version, n[x][y].version);
            if older then Unique(Remove(n, i, a)) && Represents(Remove(n, i, a), m)
              else Unique(Remove(n, x, y)) && Represents(Remove(n, x, y), m)
    ensures n[i][a].version != n[x][y].version && !Unique(n)
    ensures if OlderIsFirst(n[i][a].version, n[x][y].version) then Twin(n, i, a, x, y) else Twin(n, x, y, i, a)
  {
    assert !Unique(n);
    hide Represents, Remove, Unique, NotBefore;
    var p, q, r, s :| TwinAhead(n, m, p, q, r, s, i, a);
    assert At(n, p, q) && At(n, r, s);
    VersionOrder(n[p][q].version);
    TwinMet(n, p, q, r, s, i, a, x, y);
    TwinResolved(n, p, q, r, s);
  }

  lemma TwinMet(n: seq<seq<Node>>, p: int, q: int, r: int, s: int, i: int, a: int, x: int, y: int)
    requires Twin(n, p, q, r, s) && SameKey(n, i, a, x, y) && !(i == x && a == y)
    ensures (i == p && a == q && x == r && y == s) || (i == r && a == s && x == p && y == q)
  {
  }

  // ----- What starting up does to the nodes -----

  /** Blocks without valid nodes are erased. */
  ghost function Cleaned(n: seq<seq<Node>>): seq<seq<Node>> {
    seq(|n|, i requires 0 <= i < |n| => if ValidCount(n[i]) == 0 then [] else n[i])
  }

  /** The older node of a key that was there twice is removed. */
  ghost predicate Healed(n: seq<seq<Node>>, n': seq<seq<Node>>) {
    exists i, j, x, y :: Twin(n, i, j, x, y) && n' == Remove(n, i, j)
  }

  ghost predicate Mended(n: seq<seq<Node>>, n': seq<seq<Node>>) {
    n' == n || (Unique(n') && Healed(n, n'))
  }

  lemma MendedOnce(n: seq<seq<Node>>, n1: seq<seq<Node>>, n2: seq<seq<Node>>)
    requires Mended(n, n1) && (n2 == n1 || (!Unique(n1) && Unique(n2) && Healed(n1, n2)))
    ensures Mended(n, n2)
  {
    hide Unique, Healed;
  }

  /** The spare block: the last one of those with most room, if that is more than a word. */
  ghost predicate IsSpare(n: seq<seq<Node>>, gc: int, size: nat) {
    if gc < 0 then gc == -1 && forall i :: 0 <= i < |n| ==> Used(n[i]) + 4 >= size
    else
      && gc < |n| && Used(n[gc]) + 4 < size && (forall i :: 0 <= i < |n| ==> Used(n[gc]) <= Used(n[i]))
      && forall i :: gc < i < |n| ==> Used(n[gc]) < Used(n[i])
  }

  /** Block `i` has at least as much room as all before it, and more than a word. */
  ghost predicate Roomier(n: seq<seq<Node>>, i: nat, size: nat) {
    i < |n| && Used(n[i]) + 4 < size && forall x :: 0 <= x < i ==> Used(n[i]) <= Used(n[x])
  }

  /** The current block: the first one behind block 0 that was not the best choice for the spare block so far. */
  ghost predicate IsCurrent(n: seq<seq<Node>>, bid: nat, size: nat) {
    && (bid > 0 ==> bid < |n| && !Roomier(n, bid, size))
    && forall i :: 0 < i < (if bid > 0 then bid else |n|) ==> Roomier(n, i, size)
  }

  /** `kv_init` on the nodes. */
  ghost predicate BootDone(n: seq<seq<Node>>, s: State, size: nat) {
    Mended(Cleaned(n), s.nodes) && IsSpare(Cleaned(n), s.gc, size) && IsCurrent(Cleaned(n), s.bid, size)
  }

  /** Blocks without valid nodes may be erased at any time. */
  lemma CleanedKeeps(n: seq<seq<Node>>, n': seq<seq<Node>>, m: map<Key, Value>)
    requires Recoverable(n, m) && |n'| == |n|
    requires forall x, y :: At(n', x, y) <==> At(n, x, y)
    requires forall x, y :: At(n, x, y) && At(n', x, y) ==> n'[x][y] == n[x][y]
    ensures Recoverable(n', m)
  {
    if Unique(n) && Represents(n, m) {
      SameMeaning(n, n', m);
      forall a, b, c, d | SameKey(n', a, b, c, d)
        ensures a == c && b == d
      {
        assert SameKey(n, a, b, c, d);
      }
    } else {
      var i, j, x, y :| Twin(n, i, j, x, y) && Represents(Remove(n, i, j), m);
      CleanedTwin(n, n', i, j, x, y);
      RemoveIs(n, i, j);
      RemoveIs(n', i, j);
      hide Remove;
      SameMeaning(Remove(n, i, j), Remove(n', i, j), m);
    }
  }

  lemma CleanedTwin(n: seq<seq<Node>>, n': seq<seq<Node>>, i: int, j: int, x: int, y: int)
    requires Twin(n, i, j, x, y) && |n'| == |n|
    requires forall x, y :: At(n', x, y) <==> At(n, x, y)
    requires forall x, y :: At(n, x, y) && At(n', x, y) ==> n'[x][y] == n[x][y]
    ensures Twin(n', i, j, x, y)
  {
    assert At(n', i, j) && At(n', x, y);
    forall a, b, c, d | SameKey(n', a, b, c, d)
      ensures (a == c && b == d) || (a == i && b == j && c == x && d == y) || (a == x && b == y && c == i && d == j)
    {
      assert SameKey(n, a, b, c, d);
    }
  }

  lemma SameMeaning(n: seq<seq<Node>>, n': seq<seq<Node>>, m: map<Key, Value>)
    requires Represents(n, m)
    requires forall x, y :: At(n', x, y) <==> At(n, x, y)
    requires forall x, y :: At(n, x, y) && At(n', x, y) ==> n'[x][y] == n[x][y]
    ensures Represents(n', m)
  {
    forall k | k in m
      ensures HasKey(n', k)
    {
      assert HasKey(n, k);
      var x, y :| At(n, x, y) && n[x][y].key == k;
      assert At(n', x, y);
    }
  }
}
