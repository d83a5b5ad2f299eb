/** Red-black trees as linked nodes: what the child and parent pointers have to be, and how that survives writes. */
module RbLinks {
  import opened RbTrees

  /** `k_rbtree_node_t`. The parent and the colour share a word in the source. */
  datatype Entry = Entry(left: Id, right: Id, parent: Id, red: bool)

  type Links = map<Id, Entry>

  function Kid(e: Entry, s: Side): Id {
    if s.Left? then e.left else e.right
  }

  function WithKid(e: Entry, s: Side, x: Id): Entry {
    if s.Left? then e.(left := x) else e.(right := x)
  }

  function EntryOf(s: Side, near: Id, far: Id, parent: Id, red: bool): Entry {
    if s.Left? then Entry(near, far, parent, red) else Entry(far, near, parent, red)
  }

  // ----- Writes -----

  function SetKid(h: Links, x: Id, s: Side, y: Id): (h': Links)
    requires x in h
  {
    h[x := WithKid(h[x], s, y)]
  }

  /** `rbtree_set_parent_color` and `rbtree_set_parent` */
  function SetParentColor(h: Links, x: Id, p: Id, red: bool): (h': Links)
    requires x in h
  {
    h[x := h[x].(parent := p, red := red)]
  }

  function SetParent(h: Links, x: Id, p: Id): (h': Links)
    requires x in h
  {
    h[x := h[x].(parent := p)]
  }

  // ----- Sets of nodes -----

  ghost function Ids(t: Tree): set<Id> {
    if t.Leaf? then {} else Ids(t.left) + {t.id} + Ids(t.right)
  }

  ghost function PathIds(path: seq<Frame>): set<Id>
    decreases |path|
  {
    if path == [] then {} else {path[0].id} + Ids(path[0].sibling) + PathIds(path[1..])
  }

  /** No node occurs twice, and none is the null pointer. */
  ghost predicate Distinct(t: Tree) {
    t.Leaf? || (
      && t.id != 0 && t.id !in Ids(t.left) && t.id !in Ids(t.right) && Ids(t.left) !! Ids(t.right)
      && Distinct(t.left) && Distinct(t.right))
  }

  ghost predicate PathDistinct(path: seq<Frame>)
    decreases |path|
  {
    path == [] || (
      && path[0].id != 0 && path[0].id !in Ids(path[0].sibling) && path[0].id !in PathIds(path[1..])
      && Ids(path[0].sibling) !! PathIds(path[1..]) && Distinct(path[0].sibling) && PathDistinct(path[1..]))
  }

  // ----- What the pointers have to be -----

  /** The subtree `t` is linked below `parent`. */
  ghost predicate Rep(h: Links, t: Tree, parent: Id) {
    t.Leaf? || (
      && t.id in h && h[t.id] == Entry(RootId(t.left), RootId(t.right), parent, t.red)
      && Rep(h, t.left, t.id) && Rep(h, t.right, t.id))
  }

  function Owner(path: seq<Frame>): Id {
    if path == [] then 0 else path[0].id
  }

  /** The path is linked around a hole that holds node `x`. */
  ghost predicate RepPath(h: Links, path: seq<Frame>, x: Id, root: Id)
    decreases |path|
  {
    if path == [] then root == x
    else
      var f := path[0];
      && f.id in h && h[f.id] == EntryOf(f.side, x, RootId(f.sibling), Owner(path[1..]), f.red)
      && Rep(h, f.sibling, f.id) && RepPath(h, path[1..], f.id, root)
  }

  lemma {:induction false} RepFrame(h: Links, h': Links, t: Tree, p: Id)
    requires Rep(h, t, p) && forall x :: x in Ids(t) && x in h ==> x in h' && h'[x] == h[x]
    ensures Rep(h', t, p)
  {
    if t.Node? {
      RepFrame(h, h', t.left, t.id);
      RepFrame(h, h', t.right, t.id);
    }
  }

  lemma {:induction false} RepPathFrame(h: Links, h': Links, path: seq<Frame>, x: Id, root: Id)
    requires RepPath(h, path, x, root) && forall y :: y in PathIds(path) && y in h ==> y in h' && h'[y] == h[y]
    ensures RepPath(h', path, x, root)
    decreases |path|
  {
    if path != [] {
      RepFrame(h, h', path[0].sibling, path[0].id);
      RepPathFrame(h, h', path[1..], path[0].id, root);
    }
  }

  /** A subtree gets another parent: only its root changes. */
  lemma RepMoved(h: Links, h': Links, t: Tree, p: Id, p': Id, red: bool)
    requires Rep(h, t, p) && Distinct(t) &&
      (forall x :: x in Ids(t) && x in h && x != RootId(t) ==> x in h' && h'[x] == h[x])
    requires t.Node? ==> t.id in h' && h'[t.id] == h[t.id].(parent := p', red := red)
    ensures Rep(h', Painted(t, red), p')
  {
    if t.Node? {
      RepFrame(h, h', t.left, t.id);
      RepFrame(h, h', t.right, t.id);
    }
  }

  /** The hole gets another node: the innermost node of the path changes its child, or the root changes. */
  lemma RepRehung(h: Links, h': Links, path: seq<Frame>, x: Id, root: Id, x': Id, root': Id)
    requires RepPath(h, path, x, root) && PathDistinct(path)
    requires path == [] ==> root' == x'
    requires path != [] ==>
      root' == root && Owner(path) in h && Owner(path) in h' &&
      h'[Owner(path)] == WithKid(h[Owner(path)], path[0].side, x')
    requires forall y :: y in PathIds(path) && y != Owner(path) && y in h ==> y in h' && h'[y] == h[y]
    ensures RepPath(h', path, x', root')
  {
    if path != [] {
      var f := path[0];
      RepFrame(h, h', f.sibling, f.id);
      RepPathFrame(h, h', path[1..], f.id, root);
    }
  }

  lemma {:induction false} PlugRep(h: Links, path: seq<Frame>, t: Tree, root: Id)
    requires Rep(h, t, Owner(path)) && RepPath(h, path, RootId(t), root)
    ensures Rep(h, Plug(path, t), 0) && root == RootId(Plug(path, t))
    decreases |path|
  {
    if path != [] {
      PlugRep(h, path[1..], Fill(path[0], t), root);
    }
  }

  lemma {:induction false} PlugIds(path: seq<Frame>, t: Tree)
    ensures Ids(Plug(path, t)) == Ids(t) + PathIds(path)
    ensures Distinct(Plug(path, t)) <==> Distinct(t) && PathDistinct(path) && Ids(t) !! PathIds(path)
    decreases |path|
  {
    if path != [] {
      PlugIds(path[1..], Fill(path[0], t));
    }
  }

  // ----- Working at one place of a linked tree -----

  /** The linked tree is `t`, at the end of `path`. */
  ghost predicate Focus(h: Links, root: Id, path: seq<Frame>, t: Tree) {
    && Rep(h, t, Owner(path)) && RepPath(h, path, RootId(t), root)
    && Distinct(t) && PathDistinct(path) && Ids(t) !! PathIds(path)
  }

  lemma Up(h: Links, root: Id, path: seq<Frame>, t: Tree)
    requires Focus(h, root, path, t) && path != []
    ensures Focus(h, root, path[1..], Fill(path[0], t))
  {
  }

  lemma Down(h: Links, root: Id, path: seq<Frame>, s: Side, near: Tree, id: Id, red: bool, far: Tree)
    requires Focus(h, root, path, Make(s, near, id, red, far))
    ensures Focus(h, root, [Frame(s, id, red, far)] + path, near)
  {
    var path' := [Frame(s, id, red, far)] + path;
    assert path'[1..] == path;
  }

  /** The entry of the node in focus, and the one above it. */
  lemma Here(h: Links, root: Id, path: seq<Frame>, t: Tree)
    requires Focus(h, root, path, t)
    ensures t.Node? ==> t.id != 0 && t.id in h && h[t.id] == Entry(RootId(t.left), RootId(t.right), Owner(path), t.red)
    ensures path != [] ==> path[0].id != 0 && path[0].id in h && path[0].id != RootId(t)
    ensures path != [] ==>
      h[path[0].id] == EntryOf(path[0].side, RootId(t), RootId(path[0].sibling), Owner(path[1..]), path[0].red)
    ensures path == [] ==> root == RootId(t)
    ensures Owner(path) == 0 <==> path == []
  {
    if t.Node? && path != [] {
      assert t.id in Ids(t) && path[0].id in PathIds(path);
    }
  }

  lemma Paint(h: Links, root: Id, path: seq<Frame>, t: Tree, red: bool)
    requires Focus(h, root, path, t) && t.Node?
    ensures t.id in h && Focus(SetParentColor(h, t.id, Owner(path), red), root, path, Painted(t, red))
  {
    var h' := SetParentColor(h, t.id, Owner(path), red);
    RepMoved(h, h', t, Owner(path), Owner(path), red);
    RepPathFrame(h, h', path, RootId(t), root);
  }

  /** `rbtree_change_child` */
  function ChangeChild(h: Links, from: Id, to: Id, parent: Id): (h': Links)
    requires parent != 0 ==> parent in h
  {
    if parent == 0 then h else SetKid(h, parent, if h[parent].left == from then Left else Right, to)
  }

  function ChangeRoot(root: Id, to: Id, parent: Id): (root': Id) {
    if parent == 0 then to else root
  }

  /** A rotation: `y`, the child of `x` on side `d`, takes its place; the inner child of `y` goes to `x`, with colour
      `cRed`; `y` gets the colour of `x`, and `x` the colour `xRed` (`rbtree_rotate_set_parents`). */
  function Rotate(h: Links, d: Side, x: Id, y: Id, cRed: bool, xRed: bool): (h': Links)
    requires x in h && y in h && (h[x].parent != 0 ==> h[x].parent in h)
    requires Kid(h[y], Other(d)) != 0 ==> Kid(h[y], Other(d)) in h
  {
    ChangeChild(Turn(h, d, x, y, cRed, xRed), x, y, h[x].parent)
  }

  /** `x` and `y` change places; the owner of `x` does not know yet. */
  function Turn(h: Links, d: Side, x: Id, y: Id, cRed: bool, xRed: bool): (h': Links)
    requires x in h && y in h && (h[x].parent != 0 ==> h[x].parent in h)
    requires Kid(h[y], Other(d)) != 0 ==> Kid(h[y], Other(d)) in h
    ensures h'.Keys == h.Keys
  {
    var c, p := Kid(h[y], Other(d)), h[x].parent;
    var h1 := SetKid(h, x, d, c);
    var h2 := SetKid(h1, y, Other(d), x);
    var h3 := if c != 0 then SetParentColor(h2, c, x, cRed) else h2;
    var h4 := SetParentColor(h3, y, p, h3[x].red);
    SetParentColor(h4, x, y, xRed)
  }

  function Rotated(d: Side, a: Tree, y: Id, c: Tree, x: Id, red: bool, b: Tree, cRed: bool, xRed: bool): Tree {
    Make(d, a, y, red, Make(d, Painted(c, cRed), x, xRed, b))
  }

  lemma MakeRep(h: Links, s: Side, near: Tree, id: Id, red: bool, far: Tree, p: Id)
    ensures Rep(h, Make(s, near, id, red, far), p) <==>
            id in h && h[id] == EntryOf(s, RootId(near), RootId(far), p, red) && Rep(h, near, id) && Rep(h, far, id)
  {
  }

  lemma MakeIds(s: Side, near: Tree, id: Id, red: bool, far: Tree)
    ensures Ids(Make(s, near, id, red, far)) == Ids(near) + {id} + Ids(far)
    ensures Distinct(Make(s, near, id, red, far)) <==>
            id != 0 && id !in Ids(near) && id !in Ids(far) && Ids(near) !! Ids(far) && Distinct(near) && Distinct(far)
  {
  }

  lemma RootIn(t: Tree)
    requires Distinct(t)
    ensures RootId(t) != 0 ==> RootId(t) in Ids(t)
    ensures RootId(t) == 0 <==> t.Leaf?
  {
  }

  lemma RootLinked(h: Links, t: Tree, p: Id)
    requires Rep(h, t, p) && Distinct(t)
    ensures RootId(t) != 0 ==> RootId(t) in h
  {
  }

  lemma OwnerIn(h: Links, path: seq<Frame>, x: Id, root: Id)
    requires RepPath(h, path, x, root) && PathDistinct(path)
    ensures Owner(path) == 0 <==> path == []
    ensures path != [] ==> Owner(path) in PathIds(path) && Owner(path) in h && Kid(h[Owner(path)], path[0].side) == x
    ensures path != [] ==>
      Kid(h[Owner(path)], Other(path[0].side)) == RootId(path[0].sibling) && Distinct(path[0].sibling) &&
      Ids(path[0].sibling) <= PathIds(path)
  {
  }

  /** The nodes a rotation touches, before it. */
  ghost predicate Turning(h: Links, path: seq<Frame>, d: Side, a: Id, y: Id, yRed: bool, c: Id, x: Id, red: bool,
      b: Id) {
    && x in h && y in h && x != 0 && y != 0 && x != y && h[x] == EntryOf(d, y, b, Owner(path), red) &&
       h[y] == EntryOf(d, a, c, x, yRed)
    && (c != 0 ==> c in h && c != x && c != y && c != Owner(path))
    && Owner(path) != x && Owner(path) != y
    && (path == [] <==> Owner(path) == 0)
    && (path != [] ==>
       Owner(path) in h && Kid(h[Owner(path)], path[0].side) == x && Kid(h[Owner(path)], Other(path[0].side)) != x)
  }

  lemma RotateReady(h: Links, root: Id, path: seq<Frame>, d: Side, a: Tree, y: Id, yRed: bool, c: Tree, x: Id,
      red: bool, b: Tree)
    requires Focus(h, root, path, Make(d, Make(d, a, y, yRed, c), x, red, b))
    ensures Turning(h, path, d, RootId(a), y, yRed, RootId(c), x, red, RootId(b))
  {
    hide Rep, Distinct, Ids, PathIds, PathDistinct, RepPath, Make, RootId;
    var low := Make(d, a, y, yRed, c);
    MakeRep(h, d, low, x, red, b, Owner(path));
    MakeRep(h, d, a, y, yRed, c, x);
    MakeIds(d, low, x, red, b);
    MakeIds(d, a, y, yRed, c);
    RootIn(c);
    RootLinked(h, c, y);
    MakeRoot(d, low, x, red, b);
    MakeRoot(d, a, y, yRed, c);
    OwnerIn(h, path, x, root);
    if path != [] {
      RootIn(path[0].sibling);
    }
  }

  lemma MakeRoot(s: Side, near: Tree, id: Id, red: bool, far: Tree)
    ensures RootId(Make(s, near, id, red, far)) == id
  {
  }

  /** What the writes of a rotation leave in each node. */
  lemma RotateWrites(h: Links, path: seq<Frame>, d: Side, a: Id, y: Id, yRed: bool, c: Id, x: Id, red: bool, b: Id,
      cRed: bool, xRed: bool)
    requires Turning(h, path, d, a, y, yRed, c, x, red, b)
    ensures var h' := Rotate(h, d, x, y, cRed, xRed);
            && h'.Keys == h.Keys && h'[x] == EntryOf(d, c, b, y, xRed) && h'[y] == EntryOf(d, a, x, Owner(path), red)
            && (c != 0 ==> h'[c] == h[c].(parent := x, red := cRed))
            && (path != [] ==> h'[Owner(path)] == WithKid(h[Owner(path)], path[0].side, y))
            && forall z :: z in h && z != x && z != y && z != c && z != Owner(path) ==> h'[z] == h[z]
  {
    TurnWrites(h, path, d, a, y, yRed, c, x, red, b, cRed, xRed);
    hide Turn;
  }

  lemma TurnWrites(h: Links, path: seq<Frame>, d: Side, a: Id, y: Id, yRed: bool, c: Id, x: Id, red: bool, b: Id,
      cRed: bool, xRed: bool)
    requires Turning(h, path, d, a, y, yRed, c, x, red, b)
    ensures var h' := Turn(h, d, x, y, cRed, xRed);
            && h'[x] == EntryOf(d, c, b, y, xRed) && h'[y] == EntryOf(d, a, x, Owner(path), red)
            && (c != 0 ==> h'[c] == h[c].(parent := x, red := cRed))
            && forall z :: z in h && z != x && z != y && z != c ==> h'[z] == h[z]
  {
  }

  /** The nodes a rotation writes are not inside the parts that move along. */
  lemma TurningIds(h: Links, root: Id, path: seq<Frame>, d: Side, a: Tree, y: Id, yRed: bool, c: Tree, x: Id, red: bool,
      b: Tree)
    requires Focus(h, root, path, Make(d, Make(d, a, y, yRed, c), x, red, b))
    ensures Rep(h, a, y) && Rep(h, b, x) && Rep(h, c, y) && Distinct(c)
    ensures x !in Ids(a) && y !in Ids(a) && x !in Ids(b) && y !in Ids(b) && x !in Ids(c) && y !in Ids(c) &&
      x !in PathIds(path) && y !in PathIds(path)
    ensures Owner(path) !in Ids(a) && Owner(path) !in Ids(b) && Owner(path) !in Ids(c)
    ensures RootId(c) !in Ids(a) && RootId(c) !in Ids(b) && RootId(c) !in PathIds(path)
  {
    hide Rep, RepPath, Make;
    var low := Make(d, a, y, yRed, c);
    MakeRep(h, d, low, x, red, b, Owner(path));
    MakeRep(h, d, a, y, yRed, c, x);
    hide Distinct, Ids, PathIds, PathDistinct;
    MakeIds(d, low, x, red, b);
    MakeIds(d, a, y, yRed, c);
    MakeRoot(d, low, x, red, b);
    RootIn(c);
    NullOutside(a);
    NullOutside(b);
    NullOutside(c);
    NullOutsidePath(path);
    OwnerIn(h, path, x, root);
  }

  lemma {:induction false} NullOutside(t: Tree)
    requires Distinct(t)
    ensures 0 !in Ids(t)
  {
    if t.Node? {
      NullOutside(t.left);
      NullOutside(t.right);
    }
  }

  lemma {:induction false} NullOutsidePath(path: seq<Frame>)
    requires PathDistinct(path)
    ensures 0 !in PathIds(path)
    decreases |path|
  {
    if path != [] {
      NullOutside(path[0].sibling);
      NullOutsidePath(path[1..]);
    }
  }

  /** The parts that move along. */
  lemma RotateParts(h: Links, h': Links, root: Id, path: seq<Frame>, d: Side, a: Tree, y: Id, yRed: bool, c: Tree,
      x: Id, red: bool, b: Tree, cRed: bool)
    requires Focus(h, root, path, Make(d, Make(d, a, y, yRed, c), x, red, b))
    requires h'.Keys == h.Keys &&
      (RootId(c) != 0 ==> RootId(c) in h && h'[RootId(c)] == h[RootId(c)].(parent := x, red := cRed))
    requires forall z :: z in h && z != x && z != y && z != RootId(c) && z != Owner(path) ==> h'[z] == h[z]
    ensures Rep(h', a, y) && Rep(h', b, x) && Rep(h', Painted(c, cRed), x)
    ensures forall z :: z in PathIds(path) && z != Owner(path) && z in h ==> h'[z] == h[z]
  {
    hide Focus, Rep, RepPath, PathIds, PathDistinct, Make, Painted, Ids, Owner;
    TurningIds(h, root, path, d, a, y, yRed, c, x, red, b);
    RootIn(c);
    RepFrame(h, h', a, y);
    RepFrame(h, h', b, x);
    RepMoved(h, h', c, y, x, cRed);
  }

  lemma PaintedIds(t: Tree, red: bool)
    ensures Ids(Painted(t, red)) == Ids(t) && RootId(Painted(t, red)) == RootId(t) &&
      (Distinct(Painted(t, red)) <==> Distinct(t))
  {
  }

  /** A rotation of linked nodes is a rotation of the tree. */
  lemma RotateLinks(h: Links, root: Id, path: seq<Frame>, d: Side, a: Tree, y: Id, yRed: bool, c: Tree, x: Id,
      red: bool, b: Tree, cRed: bool, xRed: bool)
    requires Focus(h, root, path, Make(d, Make(d, a, y, yRed, c), x, red, b))
    ensures Turning(h, path, d, RootId(a), y, yRed, RootId(c), x, red, RootId(b))
    ensures Focus(Rotate(h, d, x, y, cRed, xRed), ChangeRoot(root, y, Owner(path)), path,
      Rotated(d, a, y, c, x, red, b, cRed, xRed))
  {
    hide Focus, Rep, RepPath, Distinct, Ids, PathIds, PathDistinct, Make, Rotate, Rotated, Painted;
    RotateReady(h, root, path, d, a, y, yRed, c, x, red, b);
    var h', root' := Rotate(h, d, x, y, cRed, xRed), ChangeRoot(root, y, Owner(path));
    RotateWrites(h, path, d, RootId(a), y, yRed, RootId(c), x, red, RootId(b), cRed, xRed);
    RotateParts(h, h', root, path, d, a, y, yRed, c, x, red, b, cRed);
    FocusParts(h, root, path, Make(d, Make(d, a, y, yRed, c), x, red, b));
    MakeRoot(d, Make(d, a, y, yRed, c), x, red, b);
    OwnerIn(h, path, x, root);
    hide *;
    var c', low' := Painted(c, cRed), Make(d, Painted(c, cRed), x, xRed, b);
    RotatedRep(h', path, d, a, y, c, x, red, b, cRed, xRed);
    RotatedIds(d, a, y, yRed, c, x, red, b, cRed, xRed);
    RehungRoot(path, root, y);
    RepRehung(h, h', path, x, root, y, root');
    Refocus(h', root', path, Rotated(d, a, y, c, x, red, b, cRed, xRed));
  }

  lemma FocusParts(h: Links, root: Id, path: seq<Frame>, t: Tree)
    requires Focus(h, root, path, t)
    ensures Rep(h, t, Owner(path)) && RepPath(h, path, RootId(t), root) && Distinct(t) && PathDistinct(path) &&
      Ids(t) !! PathIds(path)
  {
  }

  lemma Refocus(h: Links, root: Id, path: seq<Frame>, t: Tree)
    requires Rep(h, t, Owner(path)) && RepPath(h, path, RootId(t), root) && Distinct(t) && PathDistinct(path) &&
      Ids(t) !! PathIds(path)
    ensures Focus(h, root, path, t)
  {
  }

  lemma RehungRoot(path: seq<Frame>, root: Id, y: Id)
    requires Owner(path) == 0 <==> path == []
    ensures ChangeRoot(root, y, Owner(path)) == if path == [] then y else root
  {
  }

  lemma RotatedRep(h: Links, path: seq<Frame>, d: Side, a: Tree, y: Id, c: Tree, x: Id, red: bool, b: Tree, cRed: bool,
      xRed: bool)
    requires x in h && h[x] == EntryOf(d, RootId(c), RootId(b), y, xRed) && y in h &&
      h[y] == EntryOf(d, RootId(a), x, Owner(path), red)
    requires Rep(h, a, y) && Rep(h, b, x) && Rep(h, Painted(c, cRed), x)
    ensures Rep(h, Rotated(d, a, y, c, x, red, b, cRed, xRed), Owner(path)) &&
      RootId(Rotated(d, a, y, c, x, red, b, cRed, xRed)) == y
  {
    PaintedIds(c, cRed);
    MakeRep(h, d, Painted(c, cRed), x, xRed, b, y);
    MakeRep(h, d, a, y, red, Make(d, Painted(c, cRed), x, xRed, b), Owner(path));
  }

  lemma RotatedIds(d: Side, a: Tree, y: Id, yRed: bool, c: Tree, x: Id, red: bool, b: Tree, cRed: bool, xRed: bool)
    requires Distinct(Make(d, Make(d, a, y, yRed, c), x, red, b))
    ensures Distinct(Rotated(d, a, y, c, x, red, b, cRed, xRed))
    ensures Ids(Rotated(d, a, y, c, x, red, b, cRed, xRed)) == Ids(Make(d, Make(d, a, y, yRed, c), x, red, b))
  {
    hide Distinct, Ids, Make, Painted;
    PaintedIds(c, cRed);
    MakeIds(d, Make(d, a, y, yRed, c), x, red, b);
    MakeIds(d, a, y, yRed, c);
    MakeIds(d, Painted(c, cRed), x, xRed, b);
    MakeIds(d, a, y, red, Make(d, Painted(c, cRed), x, xRed, b));
  }

  // ----- Linking, unlinking and replacing a node -----

  /** `k_rbtree_link_node` */
  function LinkWrites(h: Links, node: Id, parent: Id, s: Side): (h': Links)
    requires parent != 0 ==> parent in h
  {
    var h1 := h[node := Entry(0, 0, parent, true)];
    if parent == 0 then h1 else SetKid(h1, parent, s, node)
  }

  lemma LinkNode(h: Links, root: Id, path: seq<Frame>, node: Id, s: Side)
    requires Focus(h, root, path, Leaf) && node != 0 && node !in PathIds(path) && (path != [] ==> s == path[0].side)
    ensures Owner(path) != 0 ==> Owner(path) in h
    ensures Focus(LinkWrites(h, node, Owner(path), s), ChangeRoot(root, node, Owner(path)), path,
      Node(Leaf, node, true, Leaf))
  {
    OwnerIn(h, path, 0, root);
    var h', root' := LinkWrites(h, node, Owner(path), s), ChangeRoot(root, node, Owner(path));
    assert forall y :: y in PathIds(path) && y != Owner(path) && y in h ==> y in h' && h'[y] == h[y];
    hide PathIds;
    RepRehung(h, h', path, 0, root, node, root');
    assert Ids(Node(Leaf, node, true, Leaf)) == {node};
    assert Rep(h', Node(Leaf, node, true, Leaf), Owner(path));
  }

  /** A node with one child or none leaves; the child takes its place. */
  function SpliceWrites(h: Links, x: Id, child: Id, parent: Id, red: bool): (h': Links)
    requires (child != 0 ==> child in h) && (parent != 0 ==> parent in h)
  {
    ChangeChild(if child == 0 then h else SetParentColor(h, child, parent, red), x, child, parent)
  }

  lemma SpliceNode(h: Links, root: Id, path: seq<Frame>, s: Side, x: Id, xRed: bool, c: Tree, red: bool)
    requires Focus(h, root, path, Make(s, Leaf, x, xRed, c))
    ensures x in h && h[x] == EntryOf(s, 0, RootId(c), Owner(path), xRed)
    ensures (RootId(c) != 0 ==> RootId(c) in h) && (Owner(path) != 0 ==> Owner(path) in h)
    ensures Focus(SpliceWrites(h, x, RootId(c), Owner(path), red), ChangeRoot(root, RootId(c), Owner(path)), path,
      Painted(c, red))
  {
    MakeRep(h, s, Leaf, x, xRed, c, Owner(path));
    MakeIds(s, Leaf, x, xRed, c);
    MakeRoot(s, Leaf, x, xRed, c);
    RootIn(c);
    RootLinked(h, c, x);
    OwnerIn(h, path, x, root);
    if path != [] {
      RootIn(path[0].sibling);
    }
    var h', root' := SpliceWrites(h, x, RootId(c), Owner(path), red), ChangeRoot(root, RootId(c), Owner(path));
    hide Make, Rep, RepPath, Ids, PathIds, Distinct, PathDistinct;
    SpliceApart(h, h', path, x, c, red);
    PaintedIds(c, red);
    RepMoved(h, h', c, x, Owner(path), red);
    RepRehung(h, h', path, x, root, RootId(c), root');
  }

  lemma SpliceApart(h: Links, h': Links, path: seq<Frame>, x: Id, c: Tree, red: bool)
    requires RootId(c) != 0 ==> RootId(c) in h && RootId(c) in Ids(c)
    requires path != [] ==>
      Owner(path) != 0 && Owner(path) in h && Owner(path) in PathIds(path) && Kid(h[Owner(path)], path[0].side) == x
                            && Kid(h[Owner(path)], Other(path[0].side)) != x
    requires Owner(path) == 0 <==> path == []
    requires Ids(c) !! PathIds(path) && h' == SpliceWrites(h, x, RootId(c), Owner(path), red)
    ensures forall y :: y in Ids(c) && y != RootId(c) && y in h ==> y in h' && h'[y] == h[y]
    ensures RootId(c) != 0 ==> RootId(c) in h' && h'[RootId(c)] == h[RootId(c)].(parent := Owner(path), red := red)
    ensures path != [] ==> Owner(path) in h' && h'[Owner(path)] == WithKid(h[Owner(path)], path[0].side, RootId(c))
    ensures forall y :: y in PathIds(path) && y != Owner(path) && y in h ==> y in h' && h'[y] == h[y]
  {
  }

  /** `y`, which is not in the tree, takes the place of `x` (`k_rbtree_replace_node`). */
  function ReplaceWrites(h: Links, x: Id, y: Id): (h': Links)
    requires x in h && (h[x].left != 0 ==> h[x].left in h) && (h[x].right != 0 ==> h[x].right in h) &&
      (h[x].parent != 0 ==> h[x].parent in h)
  {
    var e := h[x];
    var h1 := ChangeChild(h, x, y, e.parent);
    var h2 := if e.left != 0 then SetParent(h1, e.left, y) else h1;
    var h3 := if e.right != 0 then SetParent(h2, e.right, y) else h2;
    h3[y := e]
  }

  lemma ReplaceNode(h: Links, root: Id, path: seq<Frame>, l: Tree, x: Id, red: bool, r: Tree, y: Id)
    requires Focus(h, root, path, Node(l, x, red, r)) && y != 0 && y !in Ids(l) && y !in Ids(r) &&
      y !in PathIds(path) && y != x
    ensures x in h && h[x] == Entry(RootId(l), RootId(r), Owner(path), red)
    ensures (RootId(l) != 0 ==> RootId(l) in h) && (RootId(r) != 0 ==> RootId(r) in h) &&
      (Owner(path) != 0 ==> Owner(path) in h)
    ensures Focus(ReplaceWrites(h, x, y), ChangeRoot(root, y, Owner(path)), path, Node(l, y, red, r))
  {
    RootIn(l);
    RootIn(r);
    RootLinked(h, l, x);
    RootLinked(h, r, x);
    OwnerIn(h, path, x, root);
    if path != [] {
      RootIn(path[0].sibling);
    }
    var h', root' := ReplaceWrites(h, x, y), ChangeRoot(root, y, Owner(path));
    hide RepPath, PathIds, PathDistinct;
    ReplaceApart(h, h', path, l, x, red, r, y);
    RepMoved(h, h', l, x, y, IsRed(l));
    RepMoved(h, h', r, x, y, IsRed(r));
    RepRehung(h, h', path, x, root, y, root');
  }

  lemma ReplaceApart(h: Links, h': Links, path: seq<Frame>, l: Tree, x: Id, red: bool, r: Tree, y: Id)
    requires Rep(h, l, x) && Rep(h, r, x) && Distinct(l) && Distinct(r)
    requires x in h && h[x] == Entry(RootId(l), RootId(r), Owner(path), red) && y != 0 && y !in Ids(l) &&
      y !in Ids(r) && y !in PathIds(path)
    requires (RootId(l) != 0 ==> RootId(l) in h && RootId(l) in Ids(l)) &&
      (RootId(r) != 0 ==> RootId(r) in h && RootId(r) in Ids(r))
    requires path != [] ==>
      Owner(path) != 0 && Owner(path) in h && Owner(path) in PathIds(path) && Kid(h[Owner(path)], path[0].side) == x
                            && Kid(h[Owner(path)], Other(path[0].side)) != x
    requires Owner(path) == 0 <==> path == []
    requires Ids(l) !! PathIds(path) && Ids(r) !! PathIds(path) && Ids(l) !! Ids(r) && h' == ReplaceWrites(h, x, y)
    ensures forall z :: z in Ids(l) && z != RootId(l) && z in h ==> z in h' && h'[z] == h[z]
    ensures forall z :: z in Ids(r) && z != RootId(r) && z in h ==> z in h' && h'[z] == h[z]
    ensures l.Node? ==> l.id in h' && h'[l.id] == h[l.id].(parent := y, red := IsRed(l))
    ensures r.Node? ==> r.id in h' && h'[r.id] == h[r.id].(parent := y, red := IsRed(r))
    ensures y in h' && h'[y] == Entry(RootId(l), RootId(r), Owner(path), red)
    ensures path != [] ==> Owner(path) in h' && h'[Owner(path)] == WithKid(h[Owner(path)], path[0].side, y)
    ensures forall z :: z in PathIds(path) && z != Owner(path) && z in h ==> z in h' && h'[z] == h[z]
  {
  }

  // ----- Moving the focus along a path -----

  lemma {:induction false} UpMany(h: Links, root: Id, q: seq<Frame>, path: seq<Frame>, t: Tree)
    requires Focus(h, root, q + path, t)
    ensures Focus(h, root, path, Plug(q, t)) && Plug(q + path, t) == Plug(path, Plug(q, t))
    decreases |q|
  {
    if q == [] {
      assert q + path == path;
    } else {
      assert (q + path)[1..] == q[1..] + path && (q + path)[0] == q[0];
      Up(h, root, q + path, t);
      UpMany(h, root, q[1..], path, Fill(q[0], t));
    }
  }

  lemma {:induction false} DownMany(h: Links, root: Id, q: seq<Frame>, path: seq<Frame>, t: Tree)
    requires Focus(h, root, path, Plug(q, t))
    ensures Focus(h, root, q + path, t)
    decreases |q|
  {
    if q == [] {
      assert q + path == path;
    } else {
      DownMany(h, root, q[1..], path, Fill(q[0], t));
      Down(h, root, q[1..] + path, q[0].side, t, q[0].id, q[0].red, q[0].sibling);
      assert [Frame(q[0].side, q[0].id, q[0].red, q[0].sibling)] + (q[1..] + path) == q + path;
    }
  }
}
