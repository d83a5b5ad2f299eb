/** The red-black tree of the kernel: rebalancing after an insertion and after a removal, on linked nodes, and the fair
    scheduler as its client. */
module RbTreeOps {
  import opened RbTrees
  import opened RbLinks

  lemma MakeFlip(s: Side, a: Tree, id: Id, red: bool, b: Tree)
    ensures Make(s, a, id, red, b) == Make(Other(s), b, id, red, a)
  {
  }

  lemma PathTail(f: Frame, path: seq<Frame>)
    ensures ([f] + path)[1..] == path && ([f] + path)[0] == f && Owner([f] + path) == f.id
  {
  }

  // ----- Insertion, one step -----

  /** Where an insertion is: red node `s` at the end of `path`, and everything balanced but for a red parent. */
  ghost predicate Inserting(h: Links, root: Id, path: seq<Frame>, s: Tree, k: int) {
    Focus(h, root, path, s) && IsRed(s) && PathOk(path, k) && Balanced(s, k)
  }

  /** The grandparent, with its two children, in focus. */
  lemma FocusTwoUp(h: Links, root: Id, path: seq<Frame>, s: Tree)
    requires Focus(h, root, path, s) && |path| > 1
    ensures Focus(h, root, path[2..], Fill(path[1], Fill(path[0], s)))
  {
    hide Focus, Fill;
    Up(h, root, path, s);
    Up(h, root, path[1..], Fill(path[0], s));
    assert path[1..][1..] == path[2..] && path[1..][0] == path[1];
  }

  /** The colour changes of the first case. */
  function RecolourWrites(h: Links, uncle: Id, parent: Id, gparent: Id): (h': Links)
    requires uncle in h && parent in h && gparent in h
  {
    var h1 := SetParentColor(h, uncle, gparent, false);
    var h2 := SetParentColor(h1, parent, gparent, false);
    SetParentColor(h2, gparent, h2[gparent].parent, true)
  }

  lemma RecolourLinks(h: Links, root: Id, path: seq<Frame>, s: Tree)
    requires Focus(h, root, path, s) && |path| > 1 && path[1].sibling.Node?
    ensures path[1].sibling.id in h && path[0].id in h && path[1].id in h
    ensures Focus(RecolourWrites(h, path[1].sibling.id, path[0].id, path[1].id), root, path[2..],
      Recolour(path[0], path[1], s))
  {
    var f, g, rest, low := path[0], path[1], path[2..], Fill(path[0], s);
    var u := g.sibling;
    FocusTwoUp(h, root, path, s);
    MakeFlip(g.side, low, g.id, g.red, u);
    hide Focus;
    var up := Frame(Other(g.side), g.id, g.red, low);
    Down(h, root, rest, Other(g.side), u, g.id, g.red, low);
    PathTail(up, rest);
    Paint(h, root, [up] + rest, u, false);
    var h1, u' := SetParentColor(h, u.id, g.id, false), Painted(u, false);
    Up(h1, root, [up] + rest, u');
    MakeFlip(g.side, low, g.id, g.red, u');
    var down := Frame(g.side, g.id, g.red, u');
    Down(h1, root, rest, g.side, low, g.id, g.red, u');
    PathTail(down, rest);
    Paint(h1, root, [down] + rest, low, false);
    var h2, low' := SetParentColor(h1, f.id, g.id, false), Painted(low, false);
    Up(h2, root, [down] + rest, low');
    Here(h2, root, rest, Fill(down, low'));
    Paint(h2, root, rest, Fill(down, low'), true);
  }

  lemma RotateOuterLinks(h: Links, root: Id, path: seq<Frame>, s: Tree)
    requires Focus(h, root, path, s) && |path| > 1 && path[0].red && !path[1].red && path[0].side == path[1].side &&
      !IsRed(path[0].sibling)
    ensures var f, g := path[0], path[1];
            && Turning(h, path[2..], g.side, RootId(s), f.id, true, RootId(f.sibling), g.id, false, RootId(g.sibling))
            && Focus(Rotate(h, g.side, g.id, f.id, false, true), ChangeRoot(root, f.id, Owner(path[2..])), path[2..],
                     RotateOuter(g.side, s, f.id, f.sibling, g.id, g.sibling))
  {
    var f, g := path[0], path[1];
    FocusTwoUp(h, root, path, s);
    hide Focus, Turning, Rotate;
    RotateLinks(h, root, path[2..], g.side, s, f.id, true, f.sibling, g.id, false, g.sibling, false, true);
  }

  /** The node that was the inner grandchild ends up on top; `outer` and `inner` are its children before. */
  lemma RotateInnerLinks(h: Links, root: Id, path: seq<Frame>, outer: Tree, node: Id, inner: Tree)
    requires |path| > 1 && path[0].red && !path[1].red && path[0].side != path[1].side && !IsRed(outer) && !IsRed(inner)
    requires Focus(h, root, path, Make(path[0].side, outer, node, true, inner))
    ensures Turning(h, path[1..], path[0].side, RootId(outer), node, true, RootId(inner), path[0].id, true,
      RootId(path[0].sibling))
    ensures var f, g, d := path[0], path[1], path[1].side;
            var h1 := Rotate(h, f.side, f.id, node, false, true);
            && Turning(h1, path[2..], d, f.id, node, true, RootId(outer), g.id, false, RootId(g.sibling))
            && Focus(Rotate(h1, d, g.id, node, false, true), ChangeRoot(root, node, Owner(path[2..])), path[2..],
                     RotateInner(d, f.sibling, f.id, inner, node, outer, g.id, g.sibling))
  {
    var f, g, d, s := path[0], path[1], path[1].side, Make(path[0].side, outer, node, true, inner);
    assert path[1..][1..] == path[2..] && path[1..][0] == g;
    Up(h, root, path, s);
    Here(h, root, path, s);
    hide Focus, Turning, Rotate;
    RotateLinks(h, root, path[1..], f.side, outer, node, true, inner, f.id, true, f.sibling, false, true);
    var h1 := Rotate(h, f.side, f.id, node, false, true);
    var top := Rotated(f.side, outer, node, inner, f.id, true, f.sibling, false, true);
    assert top == Make(d, Make(d, f.sibling, f.id, true, inner), node, true, outer);
    Up(h1, root, path[1..], top);
    RotateLinks(h1, root, path[2..], d, Make(d, f.sibling, f.id, true, inner), node, true, outer, g.id, false,
      g.sibling, false, true);
  }

  // ----- Removal, one step -----

  /** The parent, with the hole on side `s` and the sibling on the other, in focus. */
  lemma FocusParent(h: Links, root: Id, path: seq<Frame>, t: Tree)
    requires Focus(h, root, path, t) && path != []
    ensures Focus(h, root, path[1..], Make(Other(path[0].side), path[0].sibling, path[0].id, path[0].red, t))
  {
    Up(h, root, path, t);
    MakeFlip(path[0].side, t, path[0].id, path[0].red, path[0].sibling);
  }

  lemma RotateSiblingLinks(h: Links, root: Id, path: seq<Frame>, t: Tree, near: Tree, sib: Id, far: Tree)
    requires Focus(h, root, path, t) && path != [] && path[0].sibling == Make(path[0].side, near, sib, true, far) &&
      !IsRed(near)
    ensures Turning(h, path[1..], Other(path[0].side), RootId(far), sib, true, RootId(near), path[0].id, path[0].red,
      RootId(t))
    ensures Focus(Rotate(h, Other(path[0].side), path[0].id, sib, false, true), ChangeRoot(root, sib, Owner(path[1..])),
                  RotateSibling(path[0], near, sib, far) + path[1..], t)
  {
    var f, d, rest := path[0], Other(path[0].side), path[1..];
    FocusParent(h, root, path, t);
    MakeFlip(f.side, near, sib, true, far);
    hide Focus, Turning, Rotate;
    RotateLinks(h, root, rest, d, far, sib, true, near, f.id, f.red, t, false, true);
    var h', root' := Rotate(h, d, f.id, sib, false, true), ChangeRoot(root, sib, Owner(rest));
    var low := Make(f.side, t, f.id, true, near);
    assert Rotated(d, far, sib, near, f.id, f.red, t, false, true) == Make(f.side, low, sib, f.red, far);
    Down(h', root', rest, f.side, low, sib, f.red, far);
    Down(h', root', [Frame(f.side, sib, f.red, far)] + rest, f.side, t, f.id, true, near);
    assert [Frame(f.side, f.id, true, near)] + ([Frame(f.side, sib, f.red, far)] + rest) == RotateSibling(f, near, sib,
      far) + rest;
  }

  function ShiftWrites(h: Links, sib: Id, parent: Id): (h': Links)
    requires sib in h && parent in h
  {
    var h1 := SetParentColor(h, sib, parent, true);
    if h1[parent].red then SetParentColor(h1, parent, h1[parent].parent, false) else h1
  }

  lemma ShiftUpLinks(h: Links, root: Id, path: seq<Frame>, t: Tree)
    requires Focus(h, root, path, t) && path != [] && path[0].sibling.Node?
    ensures path[0].sibling.id in h && path[0].id in h &&
      Focus(ShiftWrites(h, path[0].sibling.id, path[0].id), root, path[1..], ShiftUp(path[0], t))
  {
    var f, rest, s := path[0], path[1..], path[0].sibling;
    FocusParent(h, root, path, t);
    hide Focus;
    Down(h, root, rest, Other(f.side), s, f.id, f.red, t);
    var over := Frame(Other(f.side), f.id, f.red, t);
    PathTail(over, rest);
    Paint(h, root, [over] + rest, s, true);
    var h1, s' := SetParentColor(h, s.id, f.id, true), Painted(s, true);
    Up(h1, root, [over] + rest, s');
    MakeFlip(f.side, t, f.id, f.red, s');
    var top := Make(f.side, t, f.id, f.red, s');
    Here(h1, root, rest, top);
    if f.red {
      Paint(h1, root, rest, top, false);
    }
  }

  function FarWrites(h: Links, s: Side, parent: Id, sib: Id, far: Id): (h': Links)
    requires far in h && parent in h && sib in h && far != sib && far != parent &&
      (h[parent].parent != 0 ==> h[parent].parent in h)
    requires Kid(h[sib], s) != 0 ==> Kid(h[sib], s) in h
  {
    var h1 := SetParentColor(h, far, sib, false);
    var near := Kid(h1[sib], s);
    Rotate(h1, Other(s), parent, sib, near != 0 && h1[near].red, false)
  }

  lemma RotateFarLinks(h: Links, root: Id, path: seq<Frame>, t: Tree, near: Tree, sib: Id, far: Tree)
    requires Focus(h, root, path, t) && path != [] && path[0].sibling == Make(path[0].side, near, sib, false, far) &&
      far.Node?
    ensures far.id in h && path[0].id in h && sib in h && far.id != sib && far.id != path[0].id
    ensures (h[path[0].id].parent != 0 ==> h[path[0].id].parent in h) &&
      (Kid(h[sib], path[0].side) != 0 ==> Kid(h[sib], path[0].side) in h)
    ensures Focus(FarWrites(h, path[0].side, path[0].id, sib, far.id), ChangeRoot(root, sib, Owner(path[1..])),
      path[1..], RotateFar(path[0], t, near, sib, far))
  {
    var f, d, rest := path[0], Other(path[0].side), path[1..];
    FocusParent(h, root, path, t);
    MakeFlip(f.side, near, sib, false, far);
    RotateReady(h, root, rest, d, far, sib, false, near, f.id, f.red, t);
    FarApart(h, root, rest, d, far, sib, near, f.id, f.red, t);
    hide Focus, Rotate;
    var over := Frame(d, f.id, f.red, t);
    Down(h, root, rest, d, Make(d, far, sib, false, near), f.id, f.red, t);
    PathTail(over, rest);
    Down(h, root, [over] + rest, d, far, sib, false, near);
    var inner := Frame(d, sib, false, near);
    PathTail(inner, [over] + rest);
    Paint(h, root, [inner] + ([over] + rest), far, false);
    var h1, far' := SetParentColor(h, far.id, sib, false), Painted(far, false);
    Up(h1, root, [inner] + ([over] + rest), far');
    Up(h1, root, [over] + rest, Make(d, far', sib, false, near));
    var nearRed := IsRed(near);
    RotateLinks(h1, root, rest, d, far', sib, false, near, f.id, f.red, t, nearRed, false);
    NearColour(h1, root, rest, d, far', sib, near, f.id, f.red, t);
    assert Painted(near, nearRed) == near;
    assert Rotated(d, far', sib, near, f.id, f.red, t, nearRed, false) == RotateFar(f, t, near, sib, far);
  }

  lemma FarApart(h: Links, root: Id, rest: seq<Frame>, d: Side, far: Tree, sib: Id, near: Tree, x: Id, red: bool,
      t: Tree)
    requires Focus(h, root, rest, Make(d, Make(d, far, sib, false, near), x, red, t)) && far.Node?
    ensures far.id in h && far.id != sib && far.id != x
  {
    hide RepPath, PathIds, PathDistinct;
    MakeIds(d, Make(d, far, sib, false, near), x, red, t);
    MakeIds(d, far, sib, false, near);
    MakeRep(h, d, Make(d, far, sib, false, near), x, red, t, Owner(rest));
    MakeRep(h, d, far, sib, false, near, x);
    hide Make;
    RootIn(far);
  }

  lemma NearColour(h: Links, root: Id, rest: seq<Frame>, d: Side, far: Tree, sib: Id, near: Tree, x: Id, red: bool,
      t: Tree)
    requires Focus(h, root, rest, Make(d, Make(d, far, sib, false, near), x, red, t))
    ensures sib in h && Kid(h[sib], Other(d)) == RootId(near) &&
      (near.Node? ==> near.id != 0 && near.id in h && h[near.id].red == near.red)
  {
    hide RepPath, PathIds, PathDistinct;
    MakeIds(d, Make(d, far, sib, false, near), x, red, t);
    MakeIds(d, far, sib, false, near);
    MakeRep(h, d, Make(d, far, sib, false, near), x, red, t, Owner(rest));
    MakeRep(h, d, far, sib, false, near, x);
    hide Make;
  }

  lemma RotateNearLinks(h: Links, root: Id, path: seq<Frame>, t: Tree, a: Tree, near: Id, b: Tree, sib: Id, far: Tree)
    requires Focus(h, root, path, t) && path != [] &&
      path[0].sibling == Make(path[0].side, Make(path[0].side, a, near, true, b), sib, false, far)
    requires !IsRed(a) && !IsRed(b)
    ensures Turning(h, [Frame(Other(path[0].side), path[0].id, path[0].red, t)] + path[1..], path[0].side, RootId(a),
      near, true, RootId(b), sib, false, RootId(far))
    ensures var f, d, h1 := path[0], Other(path[0].side), Rotate(h, path[0].side, sib, near, false, false);
            && Turning(h1, path[1..], d, sib, near, false, RootId(a), f.id, f.red, RootId(t))
            && Focus(Rotate(h1, d, f.id, near, false, false), ChangeRoot(root, near, Owner(path[1..])), path[1..],
               RotateNear(f, t, a, near, b, sib, far))
  {
    var f, d, rest := path[0], Other(path[0].side), path[1..];
    FocusParent(h, root, path, t);
    var over, low := Frame(d, f.id, f.red, t), Make(f.side, a, near, true, b);
    Down(h, root, rest, d, f.sibling, f.id, f.red, t);
    PathTail(over, rest);
    Here(h, root, [over] + rest, f.sibling);
    hide Focus, Turning, Rotate;
    RotateLinks(h, root, [over] + rest, f.side, a, near, true, b, sib, false, far, false, false);
    var h1 := Rotate(h, f.side, sib, near, false, false);
    var top := Rotated(f.side, a, near, b, sib, false, far, false, false);
    Up(h1, root, [over] + rest, top);
    var high := Make(f.side, b, sib, false, far);
    NearShape(f, t, a, near, b, sib, far);
    hide *;
    RotateLinks(h1, root, rest, d, high, near, false, a, f.id, f.red, t, false, false);
  }

  lemma NearShape(f: Frame, t: Tree, a: Tree, near: Id, b: Tree, sib: Id, far: Tree)
    requires !IsRed(a) && !IsRed(b)
    ensures var d, high := Other(f.side), Make(f.side, b, sib, false, far);
            && RootId(high) == sib &&
               Rotated(f.side, a, near, b, sib, false, far, false, false) == Make(d, high, near, false, a)
            && Rotated(d, high, near, a, f.id, f.red, t, false, false) == RotateNear(f, t, a, near, b, sib, far)
  {
  }

  /** Once nothing is wrong at the end of the path, the whole tree is a red-black tree. */
  lemma Finished(h: Links, root: Id, path: seq<Frame>, s: Tree, k: int)
    requires Focus(h, root, path, s) && PathOk(path, k) && Balanced(s, k) && (path == [] ==> !IsRed(s)) &&
      (path != [] && path[0].red ==> !IsRed(s))
    ensures var t := Plug(path, s); Rep(h, t, 0) && root == RootId(t) && Distinct(t) && RedBlack(t)
  {
    PlugBalanced(path, s, k);
    PlugRep(h, path, s, root);
    PlugIds(path, s);
  }

  /** The sibling of the place in focus: its number and colour, and that it is another node. */
  lemma SiblingApart(h: Links, root: Id, path: seq<Frame>, t: Tree)
    requires Focus(h, root, path, t) && path != []
    ensures t.Node? ==> RootId(path[0].sibling) != t.id
    ensures path[0].sibling.Node? ==>
      path[0].sibling.id != 0 && path[0].sibling.id in h && h[path[0].sibling.id].red == path[0].sibling.red
    ensures path[0].sibling.Node? ==>
      h[path[0].sibling.id] == Entry(RootId(path[0].sibling.left), RootId(path[0].sibling.right), path[0].id,
      path[0].sibling.red)
  {
    if path[0].sibling.Node? {
      assert path[0].sibling.id in Ids(path[0].sibling);
    }
    if t.Node? {
      assert t.id in Ids(t);
    }
  }

  function ChildOn(t: Tree, s: Side): Tree
    requires t.Node?
  {
    if s.Left? then t.left else t.right
  }

  lemma Children(t: Tree, s: Side)
    requires t.Node?
    ensures t == Make(s, ChildOn(t, s), t.id, t.red, ChildOn(t, Other(s)))
  {
  }

  /** The tree that the rotations of an insertion leave. */
  ghost function InsertRotated(path: seq<Frame>, s: Tree): Tree
    requires |path| > 1 && s.Node?
  {
    var f, g := path[0], path[1];
    if f.side == g.side then RotateOuter(g.side, s, f.id, f.sibling, g.id, g.sibling)
    else RotateInner(g.side, f.sibling, f.id, ChildOn(s, g.side), s.id, ChildOn(s, f.side), g.id, g.sibling)
  }

  lemma InsertRotatedKeeps(path: seq<Frame>, s: Tree, k: int)
    requires |path| > 1 && PathOk(path, k) && Balanced(s, k) && IsRed(s) && path[0].red && !IsRed(path[1].sibling)
    ensures Balanced(InsertRotated(path, s), k + 1) && !IsRed(InsertRotated(path, s))
    ensures InOrder(InsertRotated(path, s)) == InOrder(Fill(path[1], Fill(path[0], s)))
  {
    var f, g := path[0], path[1];
    hide PathOk, Balanced, InOrder;
    TwoUp(path, s, k);
    if f.side == g.side {
      RotateOuterKeeps(g.side, s, f.id, f.sibling, g.id, g.sibling, k);
    } else {
      var a, b := ChildOn(s, g.side), ChildOn(s, f.side);
      Children(s, g.side);
      MakeBalanced(g.side, a, s.id, true, b, k);
      MakeFlip(g.side, f.sibling, f.id, true, s);
      RotateInnerKeeps(g.side, f.sibling, f.id, a, s.id, b, g.id, g.sibling, k);
    }
  }

  /** The trees that the rotations of a removal leave. */
  ghost function NearTree(f: Frame, t: Tree): (r: Tree)
    requires f.sibling.Node? && ChildOn(f.sibling, f.side).Node?
    ensures IsRed(r) == f.red
  {
    var n := ChildOn(f.sibling, f.side);
    RotateNear(f, t, ChildOn(n, f.side), n.id, ChildOn(n, Other(f.side)), f.sibling.id,
      ChildOn(f.sibling, Other(f.side)))
  }

  ghost function FarTree(f: Frame, t: Tree): (r: Tree)
    requires f.sibling.Node?
    ensures IsRed(r) == f.red
  {
    RotateFar(f, t, ChildOn(f.sibling, f.side), f.sibling.id, ChildOn(f.sibling, Other(f.side)))
  }

  /** Where a removal is: what is in the hole has one black node less than the path asks for. */
  ghost predicate Short(h: Links, root: Id, path: seq<Frame>, t: Tree, k: int) {
    Focus(h, root, path, t) && path != [] && PathOk(path, k + 1) && Balanced(t, k) && !IsRed(t) && k >= 0
  }

  /** Nothing is wrong at the end of the path. */
  ghost predicate Settled(path: seq<Frame>, t: Tree, k: int) {
    PathOk(path, k) && Balanced(t, k) && (path == [] ==> !IsRed(t)) && (path != [] && path[0].red ==> !IsRed(t))
  }

  lemma PlugOne(path: seq<Frame>, t: Tree)
    requires path != []
    ensures Plug(path, t) == Plug(path[1..], Fill(path[0], t))
  {
  }

  lemma EmptyOrNot(path: seq<Frame>, k: int)
    ensures path == [] ==> PathOk(path, k)
  {
  }

  /** The children of the sibling: numbers and colours. */
  lemma Nephews(h: Links, root: Id, path: seq<Frame>, t: Tree)
    requires Focus(h, root, path, t) && path != [] && path[0].sibling.Node?
    ensures var s := path[0].sibling;
            && (s.left.Node? ==> s.left.id != 0 && s.left.id in h && h[s.left.id].red == s.left.red)
            && (s.right.Node? ==> s.right.id != 0 && s.right.id in h && h[s.right.id].red == s.right.red)
  {
    var s := path[0].sibling;
    assert Rep(h, s, path[0].id) && Distinct(s);
    assert Rep(h, s.left, s.id) && Rep(h, s.right, s.id) && Distinct(s.left) && Distinct(s.right);
  }

  class RbTree {
    var h: Links
    var root: Id
    var key: map<Id, nat>
    ghost var tree: Tree

    ghost predicate Valid()
      reads this`h, this`root, this`tree
    {
      Rep(h, tree, 0) && root == RootId(tree) && Distinct(tree) && RedBlack(tree)
    }

    constructor ()
      ensures Valid() && InOrder(tree) == [] && key == map[]
    {
      h, root, tree, key := map[], 0, Leaf, map[];
      assert Balanced(Leaf, 0);
    }

    /** The rotations of `rbtree_insert`. The source writes the links of the first rotation only as far as the second
        one does not overwrite them. */
    method InsertRotate(node: Id, parent: Id, gparent: Id, side: Side, ghost path: seq<Frame>, ghost s: Tree)
      requires Focus(h, root, path, s) && |path| > 1 && IsRed(s) && path[0].red && !path[1].red &&
        !IsRed(path[0].sibling)
      requires node == s.id && parent == path[0].id && gparent == path[1].id && side == path[1].side &&
        !IsRed(s.left) && !IsRed(s.right)
      modifies this`h, this`root
      ensures Focus(h, root, path[2..], InsertRotated(path, s))
    {
      hide Focus, Rep, RepPath, Rotate, Distinct, Ids, PathIds, PathDistinct;
      Here(h, root, path, s);
      SiblingApart(h, root, path, s);
      if node == Kid(h[parent], Other(side)) {
        ghost var outer, inner := ChildOn(s, path[0].side), ChildOn(s, path[1].side);
        Children(s, path[0].side);
        RotateInnerLinks(h, root, path, outer, node, inner);
        h := Rotate(h, Other(side), parent, node, false, true);
        root := ChangeRoot(root, node, h[gparent].parent);
        h := Rotate(h, side, gparent, node, false, true);
      } else {
        RotateOuterLinks(h, root, path, s);
        root := ChangeRoot(root, parent, h[gparent].parent);
        h := Rotate(h, side, gparent, parent, false, true);
      }
    }

    /** One round of `rbtree_insert` below a red parent. */
    method InsertRound(node: Id, parent: Id, ghost path: seq<Frame>, ghost s: Tree, ghost k: int)
      returns (again: bool, ghost path': seq<Frame>, ghost s': Tree, ghost k': int)
      requires Focus(h, root, path, s) && PathOk(path, k) && Balanced(s, k) && IsRed(s) && node == RootId(s) &&
        path != [] && parent == path[0].id && path[0].red
      modifies this`h, this`root
      ensures Focus(h, root, path', s') && PathOk(path', k') && Balanced(s', k') && IsRed(s') == again &&
        |path'| < |path|
      ensures InOrder(Plug(path', s')) == InOrder(Plug(path, s))
      ensures again ==> |path| > 1 && RootId(s') == path[1].id
    {
      hide Focus, Rep, RepPath, PathOk, Balanced, Plug, InOrder, Turning, Rotate, Distinct, Ids, PathIds, PathDistinct;
      PathStep(path, k);
      TwoUp(path, s, k);
      Here(h, root, path, s);
      Up(h, root, path, s);
      Here(h, root, path[1..], Fill(path[0], s));
      path', k' := path[2..], k + 1;
      var gparent := h[parent].parent;
      var side := if parent != h[gparent].right then Left else Right;
      SiblingApart(h, root, path[1..], Fill(path[0], s));
      var uncle := Kid(h[gparent], Other(side));
      if uncle != 0 && h[uncle].red {
        RecolourKeeps(path, s, k);
        RecolourLinks(h, root, path, s);
        h := RecolourWrites(h, uncle, parent, gparent);
        s' := Recolour(path[0], path[1], s);
        SameOrder(path[2..], s', Fill(path[1], Fill(path[0], s)));
        return true, path', s', k';
      }
      InsertRotatedKeeps(path, s, k);
      RedHasBlackChildren(s, k);
      InsertRotate(node, parent, gparent, side, path, s);
      s' := InsertRotated(path, s);
      SameOrder(path[2..], s', Fill(path[1], Fill(path[0], s)));
      return false, path', s', k';
    }

    /** `rbtree_insert`: a red node has been linked at the end of `path`. */
    method InsertColor(node: Id, ghost path: seq<Frame>, ghost s: Tree, ghost k: int)
      requires Inserting(h, root, path, s, k) && node == RootId(s)
      modifies this`h, this`root, this`tree
      ensures Valid() && InOrder(tree) == InOrder(Plug(path, s))
    {
      hide Focus, PathOk, Balanced, Plug, InOrder;
      ghost var p, t, b := path, s, k;
      var n, again := node, true;
      while again
        invariant Focus(h, root, p, t) && PathOk(p, b) && Balanced(t, b) &&
          InOrder(Plug(p, t)) == InOrder(Plug(path, s))
        invariant again ==> IsRed(t) && n == RootId(t)
        invariant !again ==> (p == [] ==> !IsRed(t)) && (p != [] && p[0].red ==> !IsRed(t))
        decreases again, |p|
      {
        Here(h, root, p, t);
        var parent := h[n].parent;
        if parent == 0 {
          Paint(h, root, p, t, false);
          PaintBlack(t, b);
          SameOrder(p, t, Painted(t, false));
          h := SetParentColor(h, n, 0, false);
          t, b, again := Painted(t, false), b + 1, false;
          EmptyPath(p, b);
        } else if !h[parent].red {
          again := false;
        } else {
          var gparent := h[parent].parent;
          UpTwice(h, root, p, t, b);
          again, p, t, b := InsertRound(n, parent, p, t, b);
          n := gparent;
        }
      }
      Finished(h, root, p, t, b);
      tree := Plug(p, t);
    }

    /** The rest of a round of `rbtree_erase_color`, with a black sibling. */
    method BlackSibling(parent: Id, sibling: Id, side: Side, ghost path: seq<Frame>, ghost t: Tree, ghost k: int)
      returns (again: bool, ghost t': Tree, ghost k': int)
      requires Short(h, root, path, t, k) && parent == path[0].id && side == path[0].side && path[0].sibling.Node? &&
        sibling == path[0].sibling.id && !path[0].sibling.red
      modifies this`h, this`root
      ensures Focus(h, root, path[1..], t') && InOrder(Plug(path[1..], t')) == InOrder(Plug(path, t))
      ensures again ==>
        !path[0].red && |path| > 1 && PathOk(path[1..], k' + 1) && Balanced(t', k') && !IsRed(t') && k' >= 0 &&
        t'.Node? && t'.id == parent
      ensures !again ==> Settled(path[1..], t', k')
    {
      hide Focus, PathOk, Balanced, Plug, InOrder, Turning, Rotate;
      ghost var f := path[0];
      SiblingApart(h, root, path, t);
      Nephews(h, root, path, t);
      PathStep(path, k + 1);
      PlugOne(path, t);
      ghost var n, z := ChildOn(f.sibling, side), ChildOn(f.sibling, Other(side));
      Children(f.sibling, side);
      MakeBalanced(side, n, sibling, false, z, k + 1);
      Here(h, root, path, t);
      var far := Kid(h[sibling], Other(side));
      if far == 0 || !h[far].red {
        var near := Kid(h[sibling], side);
        if near == 0 || !h[near].red {
          var parentRed := h[parent].red;
          ShiftUpKeeps(f, t, k);
          ShiftUpLinks(h, root, path, t);
          t', k' := ShiftUp(f, t), k + 1;
          SameOrder(path[1..], t', Fill(f, t));
          h := ShiftWrites(h, sibling, parent);
          again := !parentRed && h[parent].parent != 0;
          Here(h, root, path[1..], t');
          EmptyOrNot(path[1..], k');
          return;
        }
        NearRound(parent, sibling, near, side, path, t, k);
        t', k' := NearTree(f, t), if f.red then k + 1 else k + 2;
      } else {
        FarRound(parent, sibling, far, side, path, t, k);
        t', k' := FarTree(f, t), if f.red then k + 1 else k + 2;
      }
      again := false;
      SameOrder(path[1..], t', Fill(f, t));
    }

    method NearRound(parent: Id, sibling: Id, near: Id, side: Side, ghost path: seq<Frame>, ghost t: Tree, ghost k: int)
      requires Short(h, root, path, t, k) && parent == path[0].id && side == path[0].side && path[0].sibling.Node? &&
        sibling == path[0].sibling.id && !path[0].sibling.red
      requires IsRed(ChildOn(path[0].sibling, side)) && near == ChildOn(path[0].sibling, side).id
      modifies this`h, this`root
      ensures Focus(h, root, path[1..], NearTree(path[0], t)) &&
        InOrder(NearTree(path[0], t)) == InOrder(Fill(path[0], t))
      ensures Balanced(NearTree(path[0], t), if path[0].red then k + 1 else k + 2)
    {
      hide Focus, PathOk, Balanced, Plug, InOrder, Rotate;
      ghost var f := path[0];
      ghost var n, z := ChildOn(f.sibling, side), ChildOn(f.sibling, Other(side));
      ghost var a, b := ChildOn(n, side), ChildOn(n, Other(side));
      PathStep(path, k + 1);
      Children(f.sibling, side);
      Children(n, side);
      MakeBalanced(side, n, sibling, false, z, k + 1);
      MakeBalanced(side, a, near, true, b, k);
      RotateNearLinks(h, root, path, t, a, near, b, sibling, z);
      RotateNearKeeps(f, t, a, near, b, sibling, z, k);
      Here(h, root, path, t);
      root := ChangeRoot(root, near, h[parent].parent);
      h := Rotate(h, side, sibling, near, false, false);
      h := Rotate(h, Other(side), parent, near, false, false);
    }

    method FarRound(parent: Id, sibling: Id, far: Id, side: Side, ghost path: seq<Frame>, ghost t: Tree, ghost k: int)
      requires Short(h, root, path, t, k) && parent == path[0].id && side == path[0].side && path[0].sibling.Node? &&
        sibling == path[0].sibling.id && !path[0].sibling.red
      requires IsRed(ChildOn(path[0].sibling, Other(side))) && far == ChildOn(path[0].sibling, Other(side)).id
      modifies this`h, this`root
      ensures Focus(h, root, path[1..], FarTree(path[0], t)) &&
        InOrder(FarTree(path[0], t)) == InOrder(Fill(path[0], t))
      ensures Balanced(FarTree(path[0], t), if path[0].red then k + 1 else k + 2)
    {
      hide Focus, PathOk, Balanced, Plug, InOrder, FarWrites;
      ghost var f := path[0];
      ghost var n, z := ChildOn(f.sibling, side), ChildOn(f.sibling, Other(side));
      PathStep(path, k + 1);
      Children(f.sibling, side);
      MakeBalanced(side, n, sibling, false, z, k + 1);
      RotateFarLinks(h, root, path, t, n, sibling, z);
      RotateFarKeeps(f, t, n, sibling, z, k);
      Here(h, root, path, t);
      root := ChangeRoot(root, sibling, h[parent].parent);
      h := FarWrites(h, side, parent, sibling, far);
    }

    /** One round of `rbtree_erase_color`. */
    method EraseRound(node: Id, parent: Id, ghost path: seq<Frame>, ghost t: Tree, ghost k: int)
      returns (again: bool, ghost path': seq<Frame>, ghost t': Tree, ghost k': int)
      requires Short(h, root, path, t, k) && node == RootId(t) && parent == path[0].id
      modifies this`h, this`root
      ensures Focus(h, root, path', t') && InOrder(Plug(path', t')) == InOrder(Plug(path, t))
      ensures again ==> |path'| < |path| && Short(h, root, path', t', k') && t'.Node? && t'.id == parent
      ensures !again ==> Settled(path', t', k')
    {
      hide Focus, PathOk, Balanced, Plug, InOrder, Rotate;
      Here(h, root, path, t);
      PathStep(path, k + 1);
      NotLeaf(path[0].sibling, k + 1);
      SiblingApart(h, root, path, t);
      var side := if node != h[parent].right then Left else Right;
      var sibling := Kid(h[parent], Other(side));
      path' := path;
      if h[sibling].red {
        ghost var near, far := ChildOn(path[0].sibling, side), ChildOn(path[0].sibling, Other(side));
        Children(path[0].sibling, side);
        RotateSiblingKeeps(path, t, near, sibling, far, k);
        RotateSiblingLinks(h, root, path, t, near, sibling, far);
        Nephews(h, root, path, t);
        var nephew := Kid(h[sibling], side);
        root := ChangeRoot(root, sibling, h[parent].parent);
        h := Rotate(h, Other(side), parent, sibling, false, true);
        path' := RotateSibling(path[0], near, sibling, far) + path[1..];
        sibling := nephew;
      }
      again, t', k' := BlackSibling(parent, sibling, side, path', t, k);
      path' := path'[1..];
    }

    /** `rbtree_erase_color`: any shortage of one black node is repaired without a change of order. */
    method EraseColor(start: Id, ghost path: seq<Frame>, ghost t: Tree, ghost k: int)
      requires Short(h, root, path, t, k) && start == path[0].id && RootId(t) == 0
      modifies this`h, this`root, this`tree
      ensures Valid() && InOrder(tree) == InOrder(Plug(path, t))
    {
      hide Focus, PathOk, Balanced, Plug, InOrder;
      ghost var p, s, b := path, t, k;
      var node, parent, again := 0, start, true;
      while again
        invariant Focus(h, root, p, s) && InOrder(Plug(p, s)) == InOrder(Plug(path, t))
        invariant again ==> Short(h, root, p, s, b) && node == RootId(s) && parent == p[0].id
        invariant !again ==> Settled(p, s, b)
        decreases again, |p|
      {
        again, p, s, b := EraseRound(node, parent, p, s, b);
        if again {
          Here(h, root, p, s);
          node := parent;
          parent := h[node].parent;
        }
      }
      Finished(h, root, p, s, b);
      tree := Plug(p, s);
    }

    // ----- The fair scheduler -----

    /** The descent of `node_insert`: the place for a key. */
    method FindPlace(k: nat) returns (parent: Id, side: Side, ghost p: seq<Frame>, ghost b: int)
      requires Valid() && Ordered(InOrder(tree), key)
      ensures Focus(h, root, p, Leaf) && parent == Owner(p) && (p != [] ==> side == p[0].side) && Plug(p, Leaf) == tree
      ensures PathOk(p, b) && Balanced(Leaf, b) && Between(p, k, key)
    {
      hide Focus, PathOk, Balanced, Plug, InOrder, Before, After, Ordered, Rep, Distinct, FrameAt, ChildOn;
      ghost var s := tree;
      p, b := [], BlackHeight(tree);
      StartFocus(h, root, tree, b);
      var cur := root;
      parent, side := 0, Left;
      while cur != 0
        invariant Focus(h, root, p, s) && cur == RootId(s) && parent == Owner(p) && (p != [] ==> side == p[0].side) &&
          Plug(p, s) == tree
        invariant Descending(p, s, b) && Between(p, k, key)
        decreases s
      {
        Here(h, root, p, s);
        OrderAround(p, s);
        DescendOrder(p, s, k, key);
        parent := cur;
        side := if k <= key[cur] then Left else Right;
        DescendKeeps(h, root, p, s, b, side);
        cur := Kid(h[cur], side);
        FrameTail(s, side, p);
        p, b, s := [FrameAt(s, side)] + p, if s.red then b else b - 1, ChildOn(s, side);
      }
      LeafRoot(h, root, p, s);
    }

    /** `node_insert`: the new node goes before the nodes with the same key. */
    method NodeInsert(node: Id, k: nat)
      requires Valid() && Ordered(InOrder(tree), key) && node != 0 && node !in Ids(tree)
      modifies this
      ensures Valid() && Ordered(InOrder(tree), key) && key == old(key)[node := k] &&
        InsertedIn(old(InOrder(tree)), node, k, old(key), InOrder(tree))
    {
      hide Focus, PathOk, Balanced, Plug, InOrder, Before, After, Ordered, Rep, Distinct, Ids, InsertedIn, Parted;
      var parent, side;
      ghost var p, b;
      parent, side, p, b := FindPlace(k);
      PlugIds(p, Leaf);
      OrderIds(tree);
      LeafOrders(p, node, b);
      LinkNode(h, root, p, node, side);
      NewOrder(Before(p), After(p), node, k, key);
      h := LinkWrites(h, node, parent, side);
      root := ChangeRoot(root, node, parent);
      key := key[node := k];
      InsertColor(node, p, Node(Leaf, node, true, Leaf), b);
    }

    // ----- Removing -----

    /** The end of a removal: the hole is as it should be, or one black node short. */
    method Settle(rebalance: Id, ghost path: seq<Frame>, ghost t: Tree, ghost b: int, ghost lack: bool)
      requires Focus(h, root, path, t) && PathOk(path, b) && !IsRed(t) && Balanced(t, if lack then b - 1 else b) &&
        (lack ==> t == Leaf)
      requires rebalance == if lack then Owner(path) else 0
      modifies this`h, this`root, this`tree
      ensures Valid() && InOrder(tree) == InOrder(Plug(path, t))
    {
      hide Focus, PathOk, Plug, InOrder;
      Here(h, root, path, t);
      if rebalance != 0 {
        EraseColor(rebalance, path, t, b - 1);
      } else {
        EmptyOrNot(path, if lack then b - 1 else b);
        Finished(h, root, path, t, if lack then b - 1 else b);
        tree := Plug(path, t);
      }
    }

    /** A node without a child on side `s` leaves. Only a black leaf leaves a shortage behind. */
    method Unlink(node: Id, s: Side, ghost path: seq<Frame>, ghost xRed: bool, ghost c: Tree, ghost b: int)
        returns (rebalance: Id, ghost lack: bool)
      requires Focus(h, root, path, Make(s, Leaf, node, xRed, c)) && Balanced(Make(s, Leaf, node, xRed, c), b)
      modifies this`h, this`root
      ensures Focus(h, root, path, Painted(c, false)) && (lack <==> c == Leaf && !xRed) &&
        rebalance == if lack then Owner(path) else 0
      ensures Balanced(Painted(c, false), if lack then b - 1 else b) && !IsRed(Painted(c, false))
    {
      UnlinkKeeps(s, node, xRed, c, b);
      SpliceNode(h, root, path, s, node, xRed, c, false);
      hide Focus, Balanced;
      var child, parent, red := Kid(h[node], Other(s)), h[node].parent, h[node].red;
      ChildRoot(h, root, path, s, node, xRed, c);
      h := SpliceWrites(h, node, child, parent, false);
      root := ChangeRoot(root, child, parent);
      lack := c == Leaf && !xRed;
      rebalance := if child == 0 && !red then parent else 0;
    }

    /** `rbtree_erase_augmented` and `rbtree_erase_color` for a node with at most one child. */
    method EraseOuter(node: Id, s: Side, ghost path: seq<Frame>, ghost xRed: bool, ghost c: Tree, ghost b: int)
      requires Focus(h, root, path, Make(s, Leaf, node, xRed, c)) && Balanced(Make(s, Leaf, node, xRed, c), b) &&
        PathOk(path, b)
      modifies this`h, this`root, this`tree
      ensures Valid() && InOrder(tree) == Before(path) + InOrder(c) + After(path)
    {
      hide Focus, Balanced, PathOk, Make;
      var rebalance;
      ghost var lack;
      rebalance, lack := Unlink(node, s, path, xRed, c, b);
      PaintedOrder(c);
      OrderAround(path, Painted(c, false));
      Settle(rebalance, path, Painted(c, false), b, lack);
    }

    /** The descent to the successor of a node with two children. */
    method Successor(node: Id, ghost base: seq<Frame>, ghost r: Tree, ghost b: int)
      returns (succ: Id, ghost q: seq<Frame>, ghost uRed: bool, ghost c: Tree, ghost bu: int)
      requires Focus(h, root, base, r) && Descending(base, r, b) && r.Node? && node in h && h[node].right == r.id
      ensures Focus(h, root, q + base, Node(Leaf, succ, uRed, c)) && Descending(q + base, Node(Leaf, succ, uRed, c), bu)
      ensures Plug(q, Node(Leaf, succ, uRed, c)) == r && Before(q) == []
    {
      hide Focus, Descending, Plug, Before, After;
      ghost var u := r;
      q, bu := [], b;
      succ := h[node].right;
      assert [] + base == base;
      PlugNothing(r);
      Here(h, root, base, r);
      while h[succ].left != 0
        invariant Focus(h, root, q + base, u) && Descending(q + base, u, bu) && u.Node? && succ == u.id && succ in h &&
          h[succ].left == RootId(u.left)
        invariant Plug(q, u) == r && Before(q) == []
        decreases u
      {
        succ := h[succ].left;
        DescendKeeps(h, root, q + base, u, bu, Left);
        ghost var f := FrameAt(u, Left);
        assert [f] + (q + base) == ([f] + q) + base;
        LeftStep(f, q, u);
        Here(h, root, ([f] + q) + base, u.left);
        q, bu, u := [f] + q, if u.red then bu else bu - 1, u.left;
      }
      LeftLeaf(h, root, q + base, u);
      uRed, c := u.red, u.right;
    }

    /** `rbtree_erase_augmented` for a node with two children: its successor leaves its place and takes that of the
        node. */
    method EraseInner(node: Id, ghost path: seq<Frame>, ghost l: Tree, ghost xRed: bool, ghost r: Tree, ghost b: int)
      requires Focus(h, root, path, Node(l, node, xRed, r)) && Descending(path, Node(l, node, xRed, r), b) && r.Node?
      modifies this`h, this`root, this`tree
      ensures Valid() && InOrder(tree) == Before(path) + (InOrder(l) + InOrder(r)) + After(path)
    {
      hide Focus, Descending, Plug, Before, After, Balanced, PathOk, InOrder, Ids, PathIds;
      ghost var x, f := Node(l, node, xRed, r), Frame(Right, node, xRed, l);
      DescendKeeps(h, root, path, x, b, Right);
      Here(h, root, path, x);
      ghost var base := [f] + path;
      var succ;
      ghost var q, uRed, c, bu;
      succ, q, uRed, c, bu := Successor(node, base, r, if xRed then b else b - 1);
      ghost var u := Node(Leaf, succ, uRed, c);
      SuccApart(h, root, q, f, path, u);
      DescendingParts(q + base, u, bu);
      var rebalance;
      ghost var lack;
      rebalance, lack := Unlink(succ, Left, q + base, uRed, c, bu);
      ghost var c', f' := Painted(c, false), f.(id := succ);
      FocusNode(h, root, q, f, path, c');
      PaintedPlugIds(q, c);
      ReplaceNode(h, root, path, l, node, xRed, Plug(q, c'), succ);
      root := ChangeRoot(root, succ, h[node].parent);
      h := ReplaceWrites(h, node, succ);
      FocusHole(h, root, q, f', path, c');
      PathRenamed(q, f, f', path, bu);
      rebalance := if rebalance == node then succ else rebalance;
      OwnerRenamed(q, f, f', path);
      SuccOrder(q, f', path, l, r, u, c);
      Settle(rebalance, q + ([f'] + path), c', bu, lack);
    }

    /** `k_rbtree_erase`: the node is gone from the order, and nothing else has changed. */
    method Erase(node: Id)
      requires Valid() && node in Ids(tree)
      modifies this`h, this`root, this`tree
      ensures Valid() && ErasedFrom(old(InOrder(tree)), node, InOrder(tree))
    {
      hide Focus, Plug, Before, After, Balanced, PathOk, InOrder, Ids;
      ghost var b := BlackHeight(tree);
      StartFocus(h, root, tree, b);
      ghost var p, s, k;
      p, s, k := Locate(h, root, [], tree, b, node);
      Here(h, root, p, s);
      ErasedOrder(p, s);
      if h[node].left == 0 {
        LeftLeaf(h, root, p, s);
        EraseOuter(node, Left, p, s.red, s.right, k);
      } else if h[node].right == 0 {
        RightLeaf(h, root, p, s);
        EraseOuter(node, Right, p, s.red, s.left, k);
      } else {
        EraseInner(node, p, s.left, s.red, s.right, k);
      }
    }

    /** `cfs_node_del` */
    method NodeDel(node: Id)
      requires Valid() && Ordered(InOrder(tree), key) && node in Ids(tree)
      modifies this`h, this`root, this`tree
      ensures Valid() && Ordered(InOrder(tree), key) && ErasedFrom(old(InOrder(tree)), node, InOrder(tree))
    {
      hide RedBlack, Rep, Distinct, Ids;
      Erase(node);
    }

    /** The walk down the left links. */
    method Leftmost(start: Id, ghost t: Tree, ghost parent: Id) returns (n: Id)
      requires Rep(h, t, parent) && Distinct(t) && t.Node? && start == t.id
      ensures InOrder(t) != [] && n == InOrder(t)[0]
    {
      n := start;
      ghost var s, p := t, parent;
      while h[n].left != 0
        invariant s.Node? && n == s.id && Rep(h, s, p) && Distinct(s) && InOrder(t) != [] && InOrder(s) != [] &&
          InOrder(t)[0] == InOrder(s)[0]
        decreases s
      {
        n := h[n].left;
        s, p := s.left, s.id;
      }
      RootIn(s.left);
    }

    /** `k_rbtree_first` */
    method First() returns (n: Id)
      requires Valid()
      ensures n == if InOrder(tree) == [] then 0 else InOrder(tree)[0]
    {
      n := root;
      if n != 0 {
        n := Leftmost(n, tree, 0);
      }
    }

    /** `k_rbtree_next`: the node that follows in key order; none for the last node and for a node that
        is in no tree. */
    method Next(node: Id) returns (n: Id)
      requires Valid() && node in h && (node in Ids(tree) || h[node].parent == node)
      ensures node !in Ids(tree) ==> n == 0
      ensures node in Ids(tree) ==> Follows(InOrder(tree), node, n)
    {
      hide Focus, Plug, Before, After, Balanced, PathOk, InOrder, Ids, Distinct;
      if h[node].parent == node {
        NoNull(tree);
        NotOwnParent(h, tree, 0, node);
        return 0;
      }
      ghost var b := BlackHeight(tree);
      StartFocus(h, root, tree, b);
      ghost var p, s, k;
      p, s, k := Locate(h, root, [], tree, b, node);
      Here(h, root, p, s);
      RightChild(h, root, p, s);
      NextOrder(p, s);
      if h[node].right != 0 {
        n := Leftmost(h[node].right, s.right, node);
      } else {
        RightLeaf(h, root, p, s);
        n := Climb(node, p, s);
      }
    }

    /** The walk up the parent links, out of every subtree that hangs to the right. */
    method Climb(start: Id, ghost p: seq<Frame>, ghost s: Tree) returns (n: Id)
      requires Focus(h, root, p, s) && s.Node? && start == s.id
      ensures n == if After(p) == [] then 0 else After(p)[0]
    {
      hide Focus;
      var node := start;
      ghost var q, t := p, s;
      Here(h, root, q, t);
      n := h[node].parent;
      while n != 0 && node == h[n].right
        invariant Focus(h, root, q, t) && t.Node? && node == t.id && n == Owner(q) && (n != 0 ==> n in h) &&
          After(q) == After(p)
        decreases |q|
      {
        Here(h, root, q, t);
        SiblingApart(h, root, q, t);
        Up(h, root, q, t);
        node := n;
        q, t := q[1..], Fill(q[0], t);
        Here(h, root, q, t);
        n := h[node].parent;
      }
      Here(h, root, q, t);
    }

    /** `cfs_preferred_task_get`: a node whose key is least, or 0 if there is none. */
    method Preferred() returns (n: Id)
      requires Valid() && Ordered(InOrder(tree), key)
      ensures n == 0 <==> InOrder(tree) == []
      ensures n != 0 ==> n in InOrder(tree) && n in key && forall x :: x in InOrder(tree) ==>
        x in key && key[n] <= key[x]
    {
      NoNull(tree);
      n := First();
      if n != 0 {
        assert n in InOrder(tree);
      }
    }

    /** `cfs_node_min_get`: the least key, or 0 if there is none. */
    method NodeMinGet() returns (k: nat)
      requires Valid() && Ordered(InOrder(tree), key)
      ensures InOrder(tree) == [] ==> k == 0
      ensures InOrder(tree) != [] ==>
        (exists x :: x in InOrder(tree) && key[x] == k) && forall x :: x in InOrder(tree) ==> k <= key[x]
    {
      var n := Preferred();
      k := if n == 0 then 0 else key[n];
    }
  }

  lemma RedHasBlackChildren(s: Tree, k: int)
    requires Balanced(s, k) && IsRed(s)
    ensures !IsRed(s.left) && !IsRed(s.right)
  {
  }

  lemma EmptyPath(p: seq<Frame>, k: int)
    requires p == []
    ensures PathOk(p, k)
  {
  }

  lemma UpTwice(h: Links, root: Id, p: seq<Frame>, t: Tree, k: int)
    requires Focus(h, root, p, t) && PathOk(p, k) && p != [] && p[0].red
    ensures |p| > 1 && p[0].id in h && h[p[0].id].parent == p[1].id
  {
    PathStep(p, k);
    Here(h, root, p, t);
  }

  // ----- Descending -----

  ghost function BlackHeight(t: Tree): int
    requires RedBlack(t)
  {
    var h :| Balanced(t, h); h
  }

  ghost function FrameAt(s: Tree, side: Side): Frame
    requires s.Node?
  {
    Frame(side, s.id, s.red, ChildOn(s, Other(side)))
  }

  /** A place in a red-black tree. */
  ghost predicate Descending(p: seq<Frame>, s: Tree, b: int) {
    PathOk(p, b) && Balanced(s, b) && (IsRed(s) ==> p != [] && !p[0].red)
  }

  lemma StartFocus(h: Links, root: Id, t: Tree, b: int)
    requires Rep(h, t, 0) && root == RootId(t) && Distinct(t) && Balanced(t, b) && !IsRed(t)
    ensures Focus(h, root, [], t) && Plug([], t) == t && Descending([], t, b) && Before([]) == [] && After([]) == []
  {
  }

  lemma DescendKeeps(h: Links, root: Id, p: seq<Frame>, s: Tree, b: int, side: Side)
    requires Focus(h, root, p, s) && s.Node? && Descending(p, s, b)
    ensures var p', s' := [FrameAt(s, side)] + p, ChildOn(s, side);
            Focus(h, root, p', s') && Descending(p', s', if s.red then b else b - 1) && Plug(p', s') == Plug(p, s)
    ensures ChildOn(s, side) < s
  {
    var f, c, k := FrameAt(s, side), ChildOn(s, side), if s.red then b else b - 1;
    Children(s, side);
    hide Focus, PathOk, Balanced;
    Down(h, root, p, side, c, s.id, s.red, f.sibling);
    MakeBalanced(side, c, s.id, s.red, f.sibling, b);
    PathCons(f, p, k);
    PlugOne([f] + p, c);
    PathTail(f, p);
  }

  lemma LeafRoot(h: Links, root: Id, p: seq<Frame>, s: Tree)
    requires Focus(h, root, p, s) && RootId(s) == 0
    ensures s == Leaf
  {
    Here(h, root, p, s);
  }

  // ----- Keys -----

  /** The keys do not decrease along the tree. */
  ghost predicate Ordered(order: seq<Id>, key: map<Id, nat>) {
    && (forall i :: 0 <= i < |order| ==> order[i] in key)
    && (forall i, j :: 0 <= i < j < |order| ==> key[order[i]] <= key[order[j]])
  }

  /** What is before the place has smaller keys, what is behind it has none smaller. */
  ghost predicate Between(p: seq<Frame>, k: nat, key: map<Id, nat>) {
    Parted(Before(p), After(p), k, key)
  }

  ghost predicate Parted(a: seq<Id>, c: seq<Id>, k: nat, key: map<Id, nat>) {
    && (forall x :: x in a ==> x in key && key[x] < k)
    && (forall x :: x in c ==> x in key && k <= key[x])
  }

  /** The new node is behind all smaller keys and before all others, equal ones included. */
  ghost predicate InsertedIn(was: seq<Id>, node: Id, k: nat, key: map<Id, nat>, order: seq<Id>) {
    exists i :: 0 <= i <= |was| && order == was[..i] + [node] + was[i..] && Parted(was[..i], was[i..], k, key)
  }

  lemma DescendOrder(p: seq<Frame>, s: Tree, k: nat, key: map<Id, nat>)
    requires s.Node? && Between(p, k, key) && Ordered(Before(p) + InOrder(s) + After(p), key)
    ensures s.id in key && Between([FrameAt(s, if k <= key[s.id] then Left else Right)] + p, k, key)
  {
    NodeOrder(s);
    FrameOrder(p, s, Left);
    FrameOrder(p, s, Right);
    PartMore(Before(p), InOrder(s.left), s.id, InOrder(s.right), After(p), k, key);
    hide Ordered, Before, After, InOrder, FrameAt, Parted;
  }

  lemma PartMore(a: seq<Id>, l: seq<Id>, x: Id, r: seq<Id>, c: seq<Id>, k: nat, key: map<Id, nat>)
    requires Parted(a, c, k, key) && Ordered(a + (l + [x] + r) + c, key)
    ensures x in key && if k <= key[x] then Parted(a, [x] + r + c, k, key) else Parted(a + (l + [x]), c, k, key)
  {
    hide Ordered;
    Regroup(a, l, x, r, c);
    OrderedAround(a + l, x, r + c, key);
  }

  lemma NodeOrder(s: Tree)
    requires s.Node?
    ensures InOrder(s) == InOrder(s.left) + [s.id] + InOrder(s.right)
  {
  }

  lemma Regroup(a: seq<Id>, l: seq<Id>, x: Id, r: seq<Id>, c: seq<Id>)
    ensures a + (l + [x] + r) + c == (a + l) + [x] + (r + c)
  {
  }

  lemma FrameOrder(p: seq<Frame>, s: Tree, side: Side)
    requires s.Node?
    ensures Before([FrameAt(s, side)] + p) == if side.Left? then Before(p) else Before(p) + (InOrder(s.left) + [s.id])
    ensures After([FrameAt(s, side)] + p) == if side.Left? then [s.id] + InOrder(s.right) + After(p) else After(p)
  {
    var p' := [FrameAt(s, side)] + p;
    assert p'[1..] == p;
  }

  lemma FrameTail(s: Tree, side: Side, p: seq<Frame>)
    requires s.Node?
    ensures Owner([FrameAt(s, side)] + p) == s.id && ([FrameAt(s, side)] + p)[0].side == side &&
      (if side.Left? then s.left else s.right) == ChildOn(s, side)
  {
  }

  lemma LeafOrders(p: seq<Frame>, node: Id, b: int)
    requires Balanced(Leaf, b)
    ensures Balanced(Node(Leaf, node, true, Leaf), b) && InOrder(Plug(p, Leaf)) == Before(p) + After(p)
    ensures InOrder(Plug(p, Node(Leaf, node, true, Leaf))) == Before(p) + [node] + After(p)
  {
    OrderAround(p, Leaf);
    OrderAround(p, Node(Leaf, node, true, Leaf));
    assert Before(p) + [] + After(p) == Before(p) + After(p);
  }

  lemma OrderedAround(a: seq<Id>, x: Id, c: seq<Id>, key: map<Id, nat>)
    requires Ordered(a + [x] + c, key)
    ensures x in key && (forall y :: y in a ==> y in key && key[y] <= key[x]) &&
      (forall y :: y in c ==> y in key && key[x] <= key[y])
  {
    var o := a + [x] + c;
    assert o[|a|] == x;
    forall y | y in a
      ensures y in key && key[y] <= key[x]
    {
      var i :| 0 <= i < |a| && a[i] == y;
      assert o[i] == y;
    }
    forall y | y in c
      ensures y in key && key[x] <= key[y]
    {
      var i :| 0 <= i < |c| && c[i] == y;
      assert o[|a| + 1 + i] == y;
    }
  }

  lemma NewOrder(a: seq<Id>, c: seq<Id>, node: Id, k: nat, key: map<Id, nat>)
    requires Ordered(a + c, key) && node !in a + c && Parted(a, c, k, key)
    ensures Ordered(a + [node] + c, key[node := k]) && InsertedIn(a + c, node, k, key, a + [node] + c)
  {
    var o, o', key' := a + c, a + [node] + c, key[node := k];
    assert o[..|a|] == a && o[|a|..] == c;
    assert o' == o[..|a|] + [node] + o[|a|..];
    forall i | 0 <= i < |o'|
      ensures o'[i] in key' && (i < |a| ==> o'[i] == o[i] && key'[o'[i]] == key[o[i]] < k) &&
        (i > |a| ==> o'[i] == o[i - 1] && key'[o'[i]] == key[o[i - 1]] >= k)
    {
      if i < |a| {
        assert o[i] in a;
      } else if i > |a| {
        assert o[i - 1] in c;
      }
    }
  }

  lemma {:induction false} OrderIds(t: Tree)
    ensures forall x :: x in InOrder(t) <==> x in Ids(t)
  {
    if t.Node? {
      OrderIds(t.left);
      OrderIds(t.right);
    }
  }

  // ----- Removing -----

  lemma UnlinkKeeps(s: Side, node: Id, xRed: bool, c: Tree, b: int)
    requires Balanced(Make(s, Leaf, node, xRed, c), b)
    ensures Balanced(Painted(c, false), if c == Leaf && !xRed then b - 1 else b) && !IsRed(Painted(c, false)) &&
      (c.Node? ==> IsRed(c) && !xRed)
  {
    MakeBalanced(s, Leaf, node, xRed, c, b);
    if c.Node? {
      HeightNat(c, b - if xRed then 0 else 1);
      PaintBlack(c, b - if xRed then 0 else 1);
    }
  }

  lemma ChildRoot(h: Links, root: Id, path: seq<Frame>, s: Side, node: Id, xRed: bool, c: Tree)
    requires Focus(h, root, path, Make(s, Leaf, node, xRed, c))
    ensures RootId(c) == 0 <==> c == Leaf
  {
    MakeIds(s, Leaf, node, xRed, c);
    RootIn(c);
  }

  lemma PaintedOrder(c: Tree)
    ensures InOrder(Painted(c, false)) == InOrder(c)
  {
  }

  /** Every node of the tree can be brought into focus. */
  lemma {:induction false} Locate(h: Links, root: Id, p: seq<Frame>, s: Tree, b: int, node: Id)
      returns (p': seq<Frame>, s': Tree, b': int)
    requires Focus(h, root, p, s) && Descending(p, s, b) && node in Ids(s)
    ensures Focus(h, root, p', s') && Descending(p', s', b') && s'.Node? && s'.id == node && Plug(p', s') == Plug(p, s)
    decreases s
  {
    if s.id == node {
      return p, s, b;
    }
    var side := if node in Ids(s.left) then Left else Right;
    hide Focus, Descending, Plug;
    DescendKeeps(h, root, p, s, b, side);
    p', s', b' := Locate(h, root, [FrameAt(s, side)] + p, ChildOn(s, side), if s.red then b else b - 1, node);
  }

  ghost predicate ErasedFrom(was: seq<Id>, node: Id, order: seq<Id>) {
    exists i :: 0 <= i < |was| && was[i] == node && order == was[..i] + was[i + 1..]
  }

  lemma ErasedOrder(p: seq<Frame>, s: Tree)
    requires s.Node?
    ensures ErasedFrom(InOrder(Plug(p, s)), s.id, Before(p) + (InOrder(s.left) + InOrder(s.right)) + After(p))
    ensures s.left == Leaf ==> InOrder(s.left) + InOrder(s.right) == InOrder(s.right)
    ensures s.right == Leaf ==> InOrder(s.left) + InOrder(s.right) == InOrder(s.left)
  {
    OrderAround(p, s);
    NodeOrder(s);
    CutOut(Before(p), InOrder(s.left), s.id, InOrder(s.right), After(p));
    hide Plug, Before, After, ErasedFrom;
  }

  lemma CutOut(a: seq<Id>, l: seq<Id>, x: Id, r: seq<Id>, c: seq<Id>)
    ensures ErasedFrom(a + (l + [x] + r) + c, x, a + (l + r) + c)
  {
    var was, i := a + (l + [x] + r) + c, |a + l|;
    Regroup(a, l, x, r, c);
    assert was[i] == x;
    assert was[..i] == a + l;
    assert was[i + 1..] == r + c;
    assert (a + l) + (r + c) == a + (l + r) + c;
  }

  lemma PlugNothing(r: Tree)
    ensures Plug([], r) == r && Before([]) == []
  {
  }

  lemma LeftStep(f: Frame, q: seq<Frame>, u: Tree)
    requires u.Node? && f == FrameAt(u, Left)
    ensures Plug([f] + q, u.left) == Plug(q, u) && Before([f] + q) == Before(q)
  {
    assert ([f] + q)[1..] == q;
  }

  lemma LeftLeaf(h: Links, root: Id, p: seq<Frame>, u: Tree)
    requires Focus(h, root, p, u) && u.Node? && u.id in h && h[u.id].left == 0
    ensures u == Node(Leaf, u.id, u.red, u.right) == Make(Left, Leaf, u.id, u.red, u.right)
  {
    Here(h, root, p, u);
    RootIn(u.left);
  }

  lemma RightLeaf(h: Links, root: Id, p: seq<Frame>, u: Tree)
    requires Focus(h, root, p, u) && u.Node? && u.id in h && h[u.id].right == 0
    ensures u == Make(Right, Leaf, u.id, u.red, u.left) && u.right == Leaf
  {
    Here(h, root, p, u);
    RootIn(u.right);
  }

  lemma DescendingParts(p: seq<Frame>, s: Tree, b: int)
    requires Descending(p, s, b)
    ensures PathOk(p, b) && Balanced(s, b)
  {
  }

  /** The successor is none of the nodes that stay. */
  lemma SuccApart(h: Links, root: Id, q: seq<Frame>, f: Frame, path: seq<Frame>, u: Tree)
    requires Focus(h, root, q + ([f] + path), u) && u.Node?
    ensures u.id != 0 && u.id !in Ids(u.left) && u.id !in Ids(u.right) && u.id !in PathIds(q) &&
      u.id !in PathIds(path) && u.id != f.id && u.id !in Ids(f.sibling)
    ensures f.id !in PathIds(q)
  {
    PathIdsSplit(q, [f] + path);
    assert ([f] + path)[1..] == path;
    assert u.id in Ids(u);
  }

  lemma {:induction false} PathIdsSplit(q: seq<Frame>, rest: seq<Frame>)
    ensures PathIds(q + rest) == PathIds(q) + PathIds(rest)
    ensures PathDistinct(q + rest) ==> PathIds(q) !! PathIds(rest)
    decreases |q|
  {
    if q == [] {
      assert q + rest == rest;
    } else {
      assert (q + rest)[1..] == q[1..] + rest && (q + rest)[0] == q[0];
      PathIdsSplit(q[1..], rest);
    }
  }

  lemma PaintedPlugIds(q: seq<Frame>, c: Tree)
    ensures Ids(Plug(q, Painted(c, false))) == Ids(c) + PathIds(q)
  {
    PlugIds(q, Painted(c, false));
    PaintedIds(c, false);
  }

  lemma FocusNode(h: Links, root: Id, q: seq<Frame>, f: Frame, path: seq<Frame>, t: Tree)
    requires Focus(h, root, q + ([f] + path), t) && f.side == Right
    ensures Focus(h, root, path, Node(f.sibling, f.id, f.red, Plug(q, t)))
  {
    UpMany(h, root, q, [f] + path, t);
    Up(h, root, [f] + path, Plug(q, t));
    PathTail(f, path);
  }

  lemma FocusHole(h: Links, root: Id, q: seq<Frame>, f: Frame, path: seq<Frame>, t: Tree)
    requires Focus(h, root, path, Node(f.sibling, f.id, f.red, Plug(q, t))) && f.side == Right
    ensures Focus(h, root, q + ([f] + path), t)
  {
    Down(h, root, path, Right, Plug(q, t), f.id, f.red, f.sibling);
    assert Frame(Right, f.id, f.red, f.sibling) == f;
    DownMany(h, root, q, [f] + path, t);
  }

  lemma {:induction false} PathRenamed(q: seq<Frame>, f: Frame, f': Frame, path: seq<Frame>, k: int)
    requires PathOk(q + ([f] + path), k) && f' == f.(id := f'.id)
    ensures PathOk(q + ([f'] + path), k)
    decreases |q|
  {
    var p, p' := q + ([f] + path), q + ([f'] + path);
    if q == [] {
      assert p == [f] + path && p' == [f'] + path && p[1..] == path && p'[1..] == path;
    } else {
      assert p[1..] == q[1..] + ([f] + path) && p'[1..] == q[1..] + ([f'] + path);
      PathRenamed(q[1..], f, f', path, k + if q[0].red then 0 else 1);
      assert |q| == 1 ==> p[1] == f && p'[1] == f';
    }
  }

  lemma OwnerRenamed(q: seq<Frame>, f: Frame, f': Frame, path: seq<Frame>)
    requires f.id !in PathIds(q)
    ensures Owner(q + ([f'] + path)) == if Owner(q + ([f] + path)) == f.id then f'.id else Owner(q + ([f] + path))
  {
    if q != [] {
      assert q[0].id in PathIds(q);
    }
  }

  lemma SuccOrder(q: seq<Frame>, f': Frame, path: seq<Frame>, l: Tree, r: Tree, u: Tree, c: Tree)
    requires u.Node? && u == Node(Leaf, f'.id, u.red, c) && Plug(q, u) == r && Before(q) == [] && f'.sibling == l &&
      f'.side == Right
    ensures InOrder(Plug(q + ([f'] + path), Painted(c, false))) ==
      Before(path) + (InOrder(l) + InOrder(r)) + After(path)
  {
    var c' := Painted(c, false);
    var low := Node(l, f'.id, f'.red, Plug(q, c'));
    assert Plug(q + ([f'] + path), c') == Plug(path, low) by {
      PlugSplit(q, [f'] + path, c');
      PlugOne([f'] + path, Plug(q, c'));
      PathTail(f', path);
    }
    OrderAround(path, low);
    OrderAround(q, c');
    OrderAround(q, u);
    PaintedOrder(c);
    NodeOrder(low);
    NodeOrder(u);
    assert InOrder(u.left) == [];
    hide *;
    Shift(InOrder(l), f'.id, InOrder(c), After(q));
  }

  lemma Shift(l: seq<Id>, x: Id, c: seq<Id>, a: seq<Id>)
    ensures l + [x] + ([] + c + a) == l + ([] + ([] + [x] + c) + a)
  {
  }

  lemma {:induction false} PlugSplit(q: seq<Frame>, rest: seq<Frame>, t: Tree)
    ensures Plug(q + rest, t) == Plug(rest, Plug(q, t))
    decreases |q|
  {
    if q == [] {
      assert q + rest == rest;
    } else {
      assert (q + rest)[1..] == q[1..] + rest;
      PlugSplit(q[1..], rest, Fill(q[0], t));
    }
  }

  lemma {:induction false} NoNull(t: Tree)
    requires Distinct(t)
    ensures 0 !in InOrder(t) && 0 !in Ids(t)
  {
    if t.Node? {
      NoNull(t.left);
      NoNull(t.right);
    }
  }

  ghost predicate Follows(order: seq<Id>, node: Id, n: Id) {
    exists i :: 0 <= i < |order| && order[i] == node && n == if i + 1 < |order| then order[i + 1] else 0
  }

  lemma NextOrder(p: seq<Frame>, s: Tree)
    requires s.Node?
    ensures InOrder(s.right) != [] ==> Follows(InOrder(Plug(p, s)), s.id, InOrder(s.right)[0])
    ensures InOrder(s.right) == [] ==> Follows(InOrder(Plug(p, s)), s.id, if After(p) == [] then 0 else After(p)[0])
    ensures s.right == Leaf ==> InOrder(s.right) == []
  {
    OrderAround(p, s);
    NodeOrder(s);
    Regroup(Before(p), InOrder(s.left), s.id, InOrder(s.right), After(p));
    hide Plug, Before, After, Follows;
    FollowsAt(Before(p) + InOrder(s.left), s.id, InOrder(s.right) + After(p));
  }

  lemma FollowsAt(a: seq<Id>, x: Id, c: seq<Id>)
    ensures Follows(a + [x] + c, x, if c == [] then 0 else c[0])
  {
    var order := a + [x] + c;
    assert order[|a|] == x;
    assert c != [] ==> order[|a| + 1] == c[0];
  }

  lemma RightChild(h: Links, root: Id, p: seq<Frame>, s: Tree)
    requires Focus(h, root, p, s) && s.Node?
    ensures Rep(h, s.right, s.id) && Distinct(s.right) && (RootId(s.right) == 0 <==> s.right == Leaf)
  {
    RootIn(s.right);
  }

  lemma {:induction false} NotOwnParent(h: Links, t: Tree, p: Id, node: Id)
    requires Rep(h, t, p) && Distinct(t) && p !in Ids(t) && node in h && h[node].parent == node
    ensures node !in Ids(t)
  {
    if t.Node? {
      NotOwnParent(h, t.left, t.id, node);
      NotOwnParent(h, t.right, t.id, node);
    }
  }
}
