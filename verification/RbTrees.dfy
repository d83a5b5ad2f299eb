/** Red-black trees as values: a tree with a hole (a path from the hole to the root), and what each rebalancing step
    does to order, black heights and colours. */
module RbTrees {
  /** Nodes are numbered; 0 is the null pointer. */
  type Id = nat

  datatype Tree = Leaf | Node(left: Tree, id: Id, red: bool, right: Tree)

  datatype Side = Left | Right

  function Other(s: Side): Side {
    if s.Left? then Right else Left
  }

  /** The two branches of the source are mirror images; `near` is the child on side `s`. */
  function Make(s: Side, near: Tree, id: Id, red: bool, far: Tree): Tree {
    if s.Left? then Node(near, id, red, far) else Node(far, id, red, near)
  }

  /** One step of the path from a hole to the root: the hole is on side `side` of node `id`. */
  datatype Frame = Frame(side: Side, id: Id, red: bool, sibling: Tree)

  function Fill(f: Frame, t: Tree): Tree {
    Make(f.side, t, f.id, f.red, f.sibling)
  }

  /** The whole tree, with `t` in the hole. */
  function Plug(path: seq<Frame>, t: Tree): Tree
    decreases |path|
  {
    if path == [] then t else Plug(path[1..], Fill(path[0], t))
  }

  function RootId(t: Tree): Id {
    if t.Leaf? then 0 else t.id
  }

  predicate IsRed(t: Tree) {
    t.Node? && t.red
  }

  function Painted(t: Tree, red: bool): Tree {
    if t.Leaf? then t else t.(red := red)
  }

  // ----- Order -----

  function InOrder(t: Tree): seq<Id> {
    if t.Leaf? then [] else InOrder(t.left) + [t.id] + InOrder(t.right)
  }

  ghost function Before(path: seq<Frame>): seq<Id>
    decreases |path|
  {
    if path == [] then []
    else Before(path[1..]) + if path[0].side.Left? then [] else InOrder(path[0].sibling) + [path[0].id]
  }

  ghost function After(path: seq<Frame>): seq<Id>
    decreases |path|
  {
    if path == [] then []
    else (if path[0].side.Left? then [path[0].id] + InOrder(path[0].sibling) else []) + After(path[1..])
  }

  lemma {:induction false} OrderAround(path: seq<Frame>, t: Tree)
    ensures InOrder(Plug(path, t)) == Before(path) + InOrder(t) + After(path)
    decreases |path|
  {
    if path != [] {
      OrderAround(path[1..], Fill(path[0], t));
    }
  }

  /** What is in the hole may change as long as its order does not. */
  lemma SameOrder(path: seq<Frame>, t: Tree, t': Tree)
    requires InOrder(t) == InOrder(t')
    ensures InOrder(Plug(path, t)) == InOrder(Plug(path, t'))
  {
    OrderAround(path, t);
    OrderAround(path, t');
  }

  // ----- Balance -----

  /** Every path down from the root of `t` meets `h` black nodes. */
  ghost predicate Height(t: Tree, h: int) {
    if t.Leaf? then h == 0
      else Height(t.left, h - if t.red then 0 else 1) && Height(t.right, h - if t.red then 0 else 1)
  }

  ghost predicate NoRedRed(t: Tree) {
    t.Leaf? || (NoRedRed(t.left) && NoRedRed(t.right) && !(t.red && (IsRed(t.left) || IsRed(t.right))))
  }

  ghost predicate Balanced(t: Tree, h: int) {
    Height(t, h) && NoRedRed(t)
  }

  ghost predicate RedBlack(t: Tree) {
    !IsRed(t) && exists h :: Balanced(t, h)
  }

  /** The path fits around a tree of black height `h`. */
  ghost predicate PathOk(path: seq<Frame>, h: int)
    decreases |path|
  {
    path == [] || (
      && Balanced(path[0].sibling, h)
      && !(path[0].red && IsRed(path[0].sibling))
      && (path[0].red ==> |path| > 1 && !path[1].red)
      && PathOk(path[1..], h + if path[0].red then 0 else 1))
  }

  lemma {:induction false} PlugBalanced(path: seq<Frame>, t: Tree, h: int)
    requires PathOk(path, h) && Balanced(t, h) && (path == [] ==> !IsRed(t)) &&
      (path != [] && path[0].red ==> !IsRed(t))
    ensures RedBlack(Plug(path, t))
    decreases |path|
  {
    if path != [] {
      PlugBalanced(path[1..], Fill(path[0], t), h + if path[0].red then 0 else 1);
    }
  }

  lemma {:induction false} HeightNat(t: Tree, h: int)
    requires Height(t, h)
    ensures h >= 0 && (h == 0 ==> t.Leaf? || IsRed(t))
  {
    if t.Node? {
      HeightNat(t.left, h - if t.red then 0 else 1);
    }
  }

  lemma MakeBalanced(s: Side, near: Tree, id: Id, red: bool, far: Tree, h: int)
    ensures var k := h - if red then 0 else 1;
            Balanced(Make(s, near, id, red, far), h) <==>
              Balanced(near, k) && Balanced(far, k) && !(red && (IsRed(near) || IsRed(far)))
  {
  }

  lemma MakeOrder(s: Side, near: Tree, id: Id, red: bool, far: Tree)
    ensures InOrder(Make(s, near, id, red, far)) == if s.Left? then InOrder(near) + [id] + InOrder(far)
      else InOrder(far) + [id] + InOrder(near)
  {
  }

  /** A rotation does not change the order. */
  lemma TurnOrder(s: Side, a: Tree, x: Id, b: Tree, y: Id, c: Tree, r1: bool, r2: bool, r3: bool, r4: bool)
    ensures InOrder(Make(s, Make(s, a, x, r1, b), y, r2, c)) == InOrder(Make(s, a, x, r3, Make(s, b, y, r4, c)))
  {
    hide InOrder;
    MakeOrder(s, a, x, r1, b);
    MakeOrder(s, Make(s, a, x, r1, b), y, r2, c);
    MakeOrder(s, b, y, r4, c);
    MakeOrder(s, a, x, r3, Make(s, b, y, r4, c));
    hide Make;
    Regrouped(InOrder(a), x, InOrder(b), y, InOrder(c));
    Regrouped(InOrder(c), y, InOrder(b), x, InOrder(a));
  }

  lemma Regrouped(a: seq<Id>, x: Id, b: seq<Id>, y: Id, c: seq<Id>)
    ensures (a + [x] + b) + [y] + c == a + [x] + (b + [y] + c)
  {
  }

  /** Nor do two of them. */
  lemma TwoTurnsOrder(s: Side, a: Tree, x: Id, b: Tree, y: Id, c: Tree, z: Id, d: Tree, r1: bool, r2: bool, r3: bool,
      q1: bool, q2: bool, q3: bool)
    ensures InOrder(Make(s, Make(s, a, x, r1, b), y, r2, Make(s, c, z, r3, d))) ==
            InOrder(Make(s, a, x, q1, Make(s, Make(s, b, y, q2, c), z, q3, d)))
  {
    var low, high := Make(s, b, y, q2, c), Make(s, c, z, r3, d);
    TurnOrder(s, a, x, b, y, high, r1, r2, q1, true);
    TurnOrder(s, b, y, c, z, d, q2, q3, true, r3);
    MakeSame(s, a, x, q1, Make(s, b, y, true, high), Make(s, low, z, q3, d));
  }

  lemma MakeSame(s: Side, a: Tree, x: Id, red: bool, b: Tree, b': Tree)
    requires InOrder(b) == InOrder(b')
    ensures InOrder(Make(s, a, x, red, b)) == InOrder(Make(s, a, x, red, b'))
  {
  }

  lemma PaintBlack(t: Tree, h: int)
    requires Balanced(t, h) && IsRed(t)
    ensures Balanced(Painted(t, false), h + 1) && InOrder(Painted(t, false)) == InOrder(t)
  {
  }

  lemma PaintRed(t: Tree, h: int)
    requires Balanced(t, h) && t.Node? && !IsRed(t) && !IsRed(t.left) && !IsRed(t.right)
    ensures Balanced(Painted(t, true), h - 1) && InOrder(Painted(t, true)) == InOrder(t)
  {
  }

  lemma PathStep(path: seq<Frame>, h: int)
    requires PathOk(path, h) && path != []
    ensures Balanced(path[0].sibling, h) && !(path[0].red && IsRed(path[0].sibling)) &&
      PathOk(path[1..], h + if path[0].red then 0 else 1)
    ensures path[0].red ==> |path| > 1 && !path[1].red
  {
  }

  lemma PathCons(f: Frame, path: seq<Frame>, h: int)
    requires Balanced(f.sibling, h) && !(f.red && IsRed(f.sibling)) && PathOk(path, h + if f.red then 0 else 1) &&
      (f.red ==> path != [] && !path[0].red)
    ensures PathOk([f] + path, h)
  {
    assert ([f] + path)[1..] == path;
  }

  // ----- Inserting -----

  /** A red node under a red parent whose sibling is red as well: the grandparent turns red, its children black. */
  function Recolour(parent: Frame, gparent: Frame, t: Tree): Tree {
    Make(gparent.side, Make(parent.side, t, parent.id, false, parent.sibling), gparent.id, true,
      Painted(gparent.sibling, false))
  }

  lemma TwoUp(path: seq<Frame>, t: Tree, h: int)
    requires |path| > 1 && PathOk(path, h) && path[0].red
    ensures Plug(path, t) == Plug(path[2..], Fill(path[1], Fill(path[0], t))) && PathOk(path[2..], h + 1) &&
      !path[1].red
    ensures Balanced(path[0].sibling, h) && !IsRed(path[0].sibling) && Balanced(path[1].sibling, h)
  {
    assert path[1..][1..] == path[2..];
    PathStep(path, h);
    PathStep(path[1..], h);
  }

  lemma RecolourKeeps(path: seq<Frame>, t: Tree, h: int)
    requires |path| > 1 && PathOk(path, h) && Balanced(t, h) && IsRed(t) && path[0].red && IsRed(path[1].sibling)
    ensures Balanced(Recolour(path[0], path[1], t), h + 1)
    ensures InOrder(Recolour(path[0], path[1], t)) == InOrder(Fill(path[1], Fill(path[0], t)))
  {
    hide Balanced, InOrder, PathOk, Make, Fill;
    hide Painted;
    var p, g := path[0], path[1];
    TwoUp(path, t, h);
    PaintBlack(g.sibling, h);
    RecolourLocal(p, g, t, h);
  }

  lemma RecolourLocal(p: Frame, g: Frame, t: Tree, h: int)
    requires Balanced(t, h) && IsRed(t) && IsRed(g.sibling) && Balanced(p.sibling, h) &&
      Balanced(Painted(g.sibling, false), h + 1)
    requires InOrder(Painted(g.sibling, false)) == InOrder(g.sibling)
    ensures Balanced(Recolour(p, g, t), h + 1)
    ensures InOrder(Recolour(p, g, t)) == InOrder(Fill(g, Fill(p, t)))
  {
    hide Balanced, InOrder;
    var low := Make(p.side, t, p.id, false, p.sibling);
    MakeBalanced(p.side, t, p.id, false, p.sibling, h + 1);
    MakeBalanced(g.side, low, g.id, true, Painted(g.sibling, false), h + 1);
    MakeOrder(p.side, t, p.id, false, p.sibling);
    MakeOrder(p.side, t, p.id, p.red, p.sibling);
    MakeOrder(g.side, low, g.id, true, Painted(g.sibling, false));
    MakeOrder(g.side, Fill(p, t), g.id, g.red, g.sibling);
  }

  /** The rotations when the other child of the grandparent is black: node `n` with children `a` and `b`, where `a` is
      on the side of the parent; `c` is the far child of the parent, `d` the other child of the grandparent. */
  function RotateOuter(s: Side, t: Tree, parent: Id, c: Tree, gparent: Id, d: Tree): Tree {
    Make(s, t, parent, false, Make(s, c, gparent, true, d))
  }

  function RotateInner(s: Side, c: Tree, parent: Id, a: Tree, id: Id, b: Tree, gparent: Id, d: Tree): Tree {
    Make(s, Make(s, c, parent, true, a), id, false, Make(s, b, gparent, true, d))
  }

  lemma RotateOuterKeeps(s: Side, t: Tree, parent: Id, c: Tree, gparent: Id, d: Tree, h: int)
    requires Balanced(t, h) && Balanced(c, h) && Balanced(d, h) && !IsRed(c) && !IsRed(d)
    ensures Balanced(RotateOuter(s, t, parent, c, gparent, d), h + 1)
    ensures InOrder(RotateOuter(s, t, parent, c, gparent, d)) ==
      InOrder(Make(s, Make(s, t, parent, true, c), gparent, false, d))
  {
    hide Balanced, InOrder;
    MakeBalanced(s, c, gparent, true, d, h);
    MakeBalanced(s, t, parent, false, Make(s, c, gparent, true, d), h + 1);
    TurnOrder(s, t, parent, c, gparent, d, true, false, false, true);
  }

  lemma RotateInnerKeeps(s: Side, c: Tree, parent: Id, a: Tree, id: Id, b: Tree, gparent: Id, d: Tree, h: int)
    requires Balanced(a, h) && Balanced(b, h) && Balanced(c, h) && Balanced(d, h) && !IsRed(a) && !IsRed(b) &&
      !IsRed(c) && !IsRed(d)
    ensures Balanced(RotateInner(s, c, parent, a, id, b, gparent, d), h + 1)
    ensures InOrder(RotateInner(s, c, parent, a, id, b, gparent, d)) ==
            InOrder(Make(s, Make(s, c, parent, true, Make(s, a, id, true, b)), gparent, false, d))
  {
    hide Balanced, InOrder;
    var n, p, g := Make(s, a, id, true, b), Make(s, c, parent, true, a), Make(s, b, gparent, true, d);
    MakeBalanced(s, c, parent, true, a, h);
    MakeBalanced(s, b, gparent, true, d, h);
    MakeBalanced(s, p, id, false, g, h + 1);
    TurnOrder(s, c, parent, n, gparent, d, true, false, true, true);
    TwoTurnsOrder(s, c, parent, a, id, b, gparent, d, true, false, true, true, true, true);
  }

  // ----- Erasing -----

  /** The hole is one black node short. Its red sibling takes the place of the parent, which turns red. */
  function RotateSibling(f: Frame, near: Tree, sib: Id, far: Tree): seq<Frame> {
    [Frame(f.side, f.id, true, near), Frame(f.side, sib, f.red, far)]
  }

  lemma RotateSiblingKeeps(path: seq<Frame>, t: Tree, near: Tree, sib: Id, far: Tree, h: int)
    requires path != [] && h >= 0 && PathOk(path, h + 1) && path[0].sibling == Make(path[0].side, near, sib, true, far)
    ensures !path[0].red && PathOk(RotateSibling(path[0], near, sib, far) + path[1..], h + 1) && near.Node? &&
      !IsRed(near)
    ensures InOrder(Plug(RotateSibling(path[0], near, sib, far) + path[1..], t)) == InOrder(Plug(path, t))
  {
    var f, rest := path[0], path[1..];
    PathStep(path, h + 1);
    hide Balanced, PathOk, InOrder;
    MakeBalanced(f.side, near, sib, true, far, h + 1);
    NotLeaf(near, h + 1);
    var inner, outer := Frame(f.side, f.id, true, near), Frame(f.side, sib, f.red, far);
    PathCons(outer, rest, h + 1);
    PathCons(inner, [outer] + rest, h + 1);
    assert [inner] + ([outer] + rest) == RotateSibling(f, near, sib, far) + rest;
    PlugTwo(inner, outer, rest, t);
    TurnOrder(f.side, t, f.id, near, sib, far, true, f.red, f.red, true);
    SameOrder(rest, Fill(outer, Fill(inner, t)), Fill(f, t));
  }

  lemma NotLeaf(t: Tree, h: int)
    requires Balanced(t, h) && h > 0
    ensures t.Node?
  {
  }

  lemma PlugTwo(inner: Frame, outer: Frame, rest: seq<Frame>, t: Tree)
    ensures Plug([inner, outer] + rest, t) == Plug(rest, Fill(outer, Fill(inner, t)))
  {
    var path := [inner, outer] + rest;
    assert path[1..] == [outer] + rest && path[1..][1..] == rest;
  }

  /** Neither child of the sibling is red: the sibling turns red, and the parent is black afterwards. */
  function ShiftUp(f: Frame, t: Tree): Tree {
    Make(f.side, t, f.id, false, Painted(f.sibling, true))
  }

  lemma ShiftUpKeeps(f: Frame, t: Tree, h: int)
    requires Balanced(t, h) && Balanced(f.sibling, h + 1) && f.sibling.Node? && !IsRed(f.sibling) &&
      !IsRed(f.sibling.left) && !IsRed(f.sibling.right)
    ensures Balanced(ShiftUp(f, t), h + 1) && InOrder(ShiftUp(f, t)) == InOrder(Fill(f, t))
  {
    PaintRed(f.sibling, h + 1);
    hide Balanced, InOrder, Painted;
    MakeBalanced(f.side, t, f.id, false, Painted(f.sibling, true), h + 1);
    MakeOrder(f.side, t, f.id, false, Painted(f.sibling, true));
    MakeOrder(f.side, t, f.id, f.red, f.sibling);
  }

  /** The far child of the sibling is red: the sibling takes the place and the colour of the parent. */
  function RotateFar(f: Frame, t: Tree, near: Tree, sib: Id, far: Tree): Tree {
    Make(f.side, Make(f.side, t, f.id, false, near), sib, f.red, Painted(far, false))
  }

  lemma RotateFarKeeps(f: Frame, t: Tree, near: Tree, sib: Id, far: Tree, h: int)
    requires Balanced(t, h) && Balanced(near, h) && Balanced(far, h) && IsRed(far)
    ensures Balanced(RotateFar(f, t, near, sib, far), if f.red then h + 1 else h + 2)
    ensures InOrder(RotateFar(f, t, near, sib, far)) ==
      InOrder(Make(f.side, t, f.id, f.red, Make(f.side, near, sib, false, far)))
  {
    PaintBlack(far, h);
    var low, k := Make(f.side, t, f.id, false, near), if f.red then h + 1 else h + 2;
    RotateFarOrder(f, t, near, sib, far, Painted(far, false));
    hide Balanced, InOrder;
    MakeBalanced(f.side, t, f.id, false, near, h + 1);
    MakeBalanced(f.side, low, sib, f.red, Painted(far, false), k);
  }

  lemma RotateFarOrder(f: Frame, t: Tree, near: Tree, sib: Id, far: Tree, far': Tree)
    requires InOrder(far') == InOrder(far)
    ensures InOrder(Make(f.side, Make(f.side, t, f.id, false, near), sib, f.red, far')) ==
            InOrder(Make(f.side, t, f.id, f.red, Make(f.side, near, sib, false, far)))
  {
    hide InOrder, Make;
    MakeSame(f.side, near, sib, false, far', far);
    MakeSame(f.side, t, f.id, f.red, Make(f.side, near, sib, false, far'), Make(f.side, near, sib, false, far));
    TurnOrder(f.side, t, f.id, near, sib, far', false, f.red, f.red, false);
  }

  /** The near child `id` of the sibling is red and the far one is not: `id` takes the place of the sibling, and then
      that of the parent. */
  function RotateNear(f: Frame, t: Tree, a: Tree, id: Id, b: Tree, sib: Id, far: Tree): Tree {
    Make(f.side, Make(f.side, t, f.id, false, a), id, f.red, Make(f.side, b, sib, false, far))
  }

  lemma RotateNearKeeps(f: Frame, t: Tree, a: Tree, id: Id, b: Tree, sib: Id, far: Tree, h: int)
    requires Balanced(t, h) && Balanced(Make(f.side, Make(f.side, a, id, true, b), sib, false, far), h + 1)
    ensures Balanced(RotateNear(f, t, a, id, b, sib, far), if f.red then h + 1 else h + 2)
    ensures InOrder(RotateNear(f, t, a, id, b, sib, far)) ==
            InOrder(Make(f.side, t, f.id, f.red, Make(f.side, Make(f.side, a, id, true, b), sib, false, far)))
  {
    hide Balanced, InOrder;
    var n, low, high := Make(f.side, a, id, true, b), Make(f.side, t, f.id, false, a), Make(f.side, b, sib, false, far);
    MakeBalanced(f.side, n, sib, false, far, h + 1);
    MakeBalanced(f.side, a, id, true, b, h);
    MakeBalanced(f.side, t, f.id, false, a, h + 1);
    MakeBalanced(f.side, b, sib, false, far, h + 1);
    MakeBalanced(f.side, low, id, f.red, high, if f.red then h + 1 else h + 2);
    TwoTurnsOrder(f.side, t, f.id, a, id, b, sib, far, false, f.red, false, f.red, true, false);
  }

  // ----- Depth -----

  function Depth(t: Tree): nat {
    if t.Leaf? then 0 else 1 + if Depth(t.left) < Depth(t.right) then Depth(t.right) else Depth(t.left)
  }

  function Pow2(k: nat): (r: nat)
    ensures r > 0
  {
    if k == 0 then 1 else 2 * Pow2(k - 1)
  }

  /** Black heights bound the depth from above and the number of nodes from below. */
  lemma {:induction false} BlackHeightBounds(t: Tree, h: nat)
    requires Balanced(t, h)
    ensures Depth(t) <= 2 * h + (if IsRed(t) then 1 else 0) && Pow2(h) <= |InOrder(t)| + 1
  {
    if t.Node? {
      var k := if t.red then h else h - 1;
      HeightNat(t.left, k);
      BlackHeightBounds(t.left, k);
      BlackHeightBounds(t.right, k);
    }
  }

  /** The depth of a red-black tree is logarithmic in the number of nodes. */
  lemma DepthIsLogarithmic(t: Tree)
    requires RedBlack(t)
    ensures Pow2((Depth(t) + 1) / 2) <= |InOrder(t)| + 1
  {
    var k :| Balanced(t, k);
    HeightNat(t, k);
    BlackHeightBounds(t, k);
    Pow2Grows((Depth(t) + 1) / 2, k);
  }

  lemma {:induction false} Pow2Grows(a: nat, b: nat)
    requires a <= b
    ensures Pow2(a) <= Pow2(b)
  {
    if a < b {
      Pow2Grows(a, b - 1);
    }
  }}
