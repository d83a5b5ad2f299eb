/** The blocks of the heap: their headers as a map from the address of a block, and the four edits that allocation,
    release and reallocation are made of. */
module HeapBlocks {
  type Addr = nat

  /** `MMLIST_HEAD_SIZE`, `MM_MIN_SIZE`, `MM_ALIGN_SIZE` and `MM_MAX_SIZE` of a 32-bit build without heap debugging. */
  const HEAD: nat := 8
  const MIN_SIZE: nat := 32
  const ALIGN: nat := 8
  const MAX_SIZE: nat := 0x1000_0000

  /** `k_mm_list_t`: `size` is the payload size, `free` and `prevFree` are the flag bits kept with it. */
  datatype Header = Header(size: nat, free: bool, prevFree: bool, prev: Addr)

  /** The first and the last block of each region: `ends` maps the last to the first. */
  datatype Regions = Regions(ends: map<Addr, Addr>, firsts: set<Addr>)

  function Next(hdr: map<Addr, Header>, b: Addr): (n: Addr)
    requires b in hdr
  {
    b + HEAD + hdr[b].size
  }

  // ----- The invariant -----

  ghost predicate EndsOk(hdr: map<Addr, Header>, g: Regions) {
    && (forall e :: e in g.ends ==> e in hdr && hdr[e].size == 0 && !hdr[e].free)
    && (forall e :: e in g.ends ==> g.ends[e] in g.firsts && g.ends[e] < e && e + HEAD <= g.ends[e] + MAX_SIZE)
    && (forall e, e' :: e in g.ends && e' in g.ends && e < e' ==> e + HEAD <= g.ends[e'])
    && (forall f :: f in g.firsts ==> f in hdr && f !in g.ends && !hdr[f].free && !hdr[f].prevFree)
  }

  /** From every block but the last of a region, the next one is found by its size, and leads back. */
  ghost predicate Linked(hdr: map<Addr, Header>, g: Regions) {
    forall b {:trigger LinkedAt(hdr, g, b)} :: b in hdr && b !in g.ends ==> LinkedAt(hdr, g, b)
  }

  ghost predicate LinkedAt(hdr: map<Addr, Header>, g: Regions, b: Addr) {
    b in hdr && Next(hdr, b) in hdr && hdr[Next(hdr, b)].prev == b && Next(hdr, b) !in g.firsts
  }

  ghost predicate BackLinked(hdr: map<Addr, Header>, g: Regions) {
    forall b {:trigger BackAt(hdr, g, b)} :: b in hdr && b !in g.firsts ==> BackAt(hdr, g, b)
  }

  ghost predicate BackAt(hdr: map<Addr, Header>, g: Regions, b: Addr) {
    b in hdr && hdr[b].prev in hdr && hdr[b].prev !in g.ends && Next(hdr, hdr[b].prev) == b
  }

  /** No two blocks overlap. */
  ghost predicate Apart(hdr: map<Addr, Header>) {
    forall a, b :: a in hdr && b in hdr && a < b ==> Next(hdr, a) <= b
  }

  ghost predicate Sized(hdr: map<Addr, Header>, g: Regions) {
    forall b {:trigger SizedAt(hdr, g, b)} :: b in hdr ==> SizedAt(hdr, g, b)
  }

  ghost predicate SizedAt(hdr: map<Addr, Header>, g: Regions, b: Addr) {
    b in hdr && b % ALIGN == 0 && hdr[b].size % ALIGN == 0 &&
      (b !in g.firsts && b !in g.ends ==> hdr[b].size >= MIN_SIZE)
  }

  ghost predicate Within(g: Regions, e: Addr, b: Addr) {
    e in g.ends && g.ends[e] <= b <= e
  }

  ghost predicate Inside(hdr: map<Addr, Header>, g: Regions) {
    forall b {:trigger InsideAt(g, b)} :: b in hdr ==> InsideAt(g, b)
  }

  ghost predicate InsideAt(g: Regions, b: Addr) {
    exists e :: Within(g, e, b)
  }

  ghost predicate Chain(hdr: map<Addr, Header>, g: Regions) {
    EndsOk(hdr, g) && Linked(hdr, g) && BackLinked(hdr, g) && Apart(hdr) && Sized(hdr, g) && Inside(hdr, g)
  }

  /** A block knows whether the one before it is free, and no two neighbours are both free. */
  ghost predicate Flags(hdr: map<Addr, Header>, g: Regions) {
    forall b {:trigger FlagsAt(hdr, b)} :: b in hdr && b !in g.ends ==> FlagsAt(hdr, b)
  }

  ghost predicate FlagsAt(hdr: map<Addr, Header>, b: Addr) {
    && b in hdr && Next(hdr, b) in hdr
    && hdr[Next(hdr, b)].prevFree == hdr[b].free && !(hdr[b].free && hdr[Next(hdr, b)].free)
  }

  ghost predicate Blocks(hdr: map<Addr, Header>, g: Regions) {
    Chain(hdr, g) && Flags(hdr, g)
  }

  /** A block a caller may hold. */
  ghost predicate Live(hdr: map<Addr, Header>, g: Regions, b: Addr) {
    b in hdr && !hdr[b].free && b !in g.ends && b !in g.firsts
  }

  lemma NextFacts(hdr: map<Addr, Header>, g: Regions, b: Addr)
    requires Blocks(hdr, g) && b in hdr && b !in g.ends
    ensures LinkedAt(hdr, g, b) && FlagsAt(hdr, b) && SizedAt(hdr, g, b) && Next(hdr, b) in hdr && b < Next(hdr, b)
    ensures hdr[b].size + 2 * HEAD <= MAX_SIZE
    ensures hdr[Next(hdr, b)].free ==> Next(hdr, b) !in g.ends
  {
    assert LinkedAt(hdr, g, b) && FlagsAt(hdr, b) && SizedAt(hdr, g, b);
    assert InsideAt(g, b);
    var e :| Within(g, e, b);
    assert b < e && e in hdr;
    assert Next(hdr, b) <= e;
  }

  lemma PrevFacts(hdr: map<Addr, Header>, g: Regions, b: Addr)
    requires Blocks(hdr, g) && b in hdr && b !in g.firsts
    ensures BackAt(hdr, g, b) && FlagsAt(hdr, hdr[b].prev) && (hdr[b].prevFree ==> hdr[b].prev !in g.firsts)
  {
    assert BackAt(hdr, g, b);
    assert FlagsAt(hdr, hdr[b].prev);
  }

  lemma EndSizes(hdr: map<Addr, Header>, g: Regions)
    requires Chain(hdr, g)
    ensures forall e :: e in g.ends && e in hdr ==> hdr[e].size == 0 && !hdr[e].free
    ensures forall f :: f in g.firsts && f in hdr ==> !hdr[f].free && !hdr[f].prevFree && f !in g.ends
  {
    hide Linked, BackLinked, Apart, Sized, Inside;
  }

  /** Block `b` is the one that holds the byte at `x`. */
  ghost predicate Holds(hdr: map<Addr, Header>, b: Addr, x: Addr) {
    b in hdr && b <= x < Next(hdr, b)
  }

  /** The blocks tile each region: every byte of it belongs to exactly one block. */
  lemma Tiling(hdr: map<Addr, Header>, g: Regions, e: Addr, x: Addr) returns (b: Addr)
    requires Blocks(hdr, g) && e in g.ends && g.ends[e] <= x < e + HEAD
    ensures Holds(hdr, b, x) && forall c: Addr :: Holds(hdr, c, x) ==> c == b
  {
    b := HolderFrom(hdr, g, e, x, g.ends[e]);
  }

  lemma {:induction false} HolderFrom(hdr: map<Addr, Header>, g: Regions, e: Addr, x: Addr, a: Addr) returns (b: Addr)
    requires Blocks(hdr, g) && e in g.ends && a in hdr && g.ends[e] <= a <= e && a <= x < e + HEAD
    ensures Holds(hdr, b, x)
    decreases e - a
  {
    b := a;
    if x >= Next(hdr, a) {
      NextFacts(hdr, g, a);
      assert Next(hdr, a) <= e;
      b := HolderFrom(hdr, g, e, x, Next(hdr, a));
    }
  }

  /** A block lies within its region. */
  lemma BlockInRegion(hdr: map<Addr, Header>, g: Regions, b: Addr) returns (e: Addr)
    requires Blocks(hdr, g) && b in hdr
    ensures Within(g, e, b) && Next(hdr, b) <= e + HEAD
  {
    assert InsideAt(g, b);
    e :| Within(g, e, b);
    assert b < e ==> Next(hdr, b) <= e;
  }

  // ----- The edits -----

  /** A free block is taken. */
  function Occupy(hdr: map<Addr, Header>, b: Addr): map<Addr, Header>
    requires b in hdr && Next(hdr, b) in hdr
  {
    var n := Next(hdr, b);
    hdr[b := hdr[b].(free := false)][n := hdr[n].(prevFree := false)]
  }

  lemma OccupyKeeps(hdr: map<Addr, Header>, g: Regions, b: Addr)
    requires Blocks(hdr, g) && b in hdr && hdr[b].free && b !in g.ends
    ensures Next(hdr, b) in hdr && Blocks(Occupy(hdr, b), g)
  {
    NextFacts(hdr, g, b);
    EndSizes(hdr, g);
    var h, n := Occupy(hdr, b), Next(hdr, b);
    Reflagged(hdr, h, g);
    forall x | x in h && x !in g.ends
      ensures FlagsAt(h, x)
    {
      assert FlagsAt(hdr, x) && LinkedAt(hdr, g, x);
    }
  }

  /** A taken block between taken neighbours becomes free. */
  function Vacate(hdr: map<Addr, Header>, b: Addr): map<Addr, Header>
    requires b in hdr && Next(hdr, b) in hdr
  {
    var n := Next(hdr, b);
    hdr[b := hdr[b].(free := true)][n := hdr[n].(prevFree := true)]
  }

  lemma VacateKeeps(hdr: map<Addr, Header>, g: Regions, b: Addr)
    requires Blocks(hdr, g) && Live(hdr, g, b) && !hdr[b].prevFree && (Next(hdr, b) in hdr ==> !hdr[Next(hdr, b)].free)
    ensures Next(hdr, b) in hdr && Blocks(Vacate(hdr, b), g)
  {
    NextFacts(hdr, g, b);
    EndSizes(hdr, g);
    var h, n := Vacate(hdr, b), Next(hdr, b);
    Reflagged(hdr, h, g);
    forall x | x in h && x !in g.ends
      ensures FlagsAt(h, x)
    {
      assert FlagsAt(hdr, x) && LinkedAt(hdr, g, x);
    }
  }

  /** Flag bits do not matter to where blocks are. */
  lemma Reflagged(hdr: map<Addr, Header>, hdr': map<Addr, Header>, g: Regions)
    requires Chain(hdr, g) && hdr'.Keys == hdr.Keys && forall b :: b in hdr ==>
      hdr'[b].size == hdr[b].size && hdr'[b].prev == hdr[b].prev
    requires forall f :: f in g.firsts && f in hdr' ==> !hdr'[f].free && !hdr'[f].prevFree
    requires forall e :: e in g.ends && e in hdr' ==> hdr'[e].size == 0 && !hdr'[e].free
    ensures Chain(hdr', g)
  {
    hide EndsOk, Linked, BackLinked, Apart, Sized, Inside;
    SameEnds(hdr, hdr', g);
    SameLinks(hdr, hdr', g);
    SameSizes(hdr, hdr', g);
    SameInside(hdr, hdr', g);
  }

  lemma SameEnds(hdr: map<Addr, Header>, hdr': map<Addr, Header>, g: Regions)
    requires EndsOk(hdr, g) && (forall b :: b in hdr ==> b in hdr') &&
      (forall e :: e in g.ends && e in hdr' ==> hdr'[e].size == 0 && !hdr'[e].free)
    requires forall f :: f in g.firsts && f in hdr' ==> !hdr'[f].free && !hdr'[f].prevFree
    ensures EndsOk(hdr', g)
  {
  }

  lemma SameLinks(hdr: map<Addr, Header>, hdr': map<Addr, Header>, g: Regions)
    requires Linked(hdr, g) && BackLinked(hdr, g) && Apart(hdr)
    requires hdr'.Keys == hdr.Keys && forall b :: b in hdr ==>
      hdr'[b].size == hdr[b].size && hdr'[b].prev == hdr[b].prev
    ensures Linked(hdr', g) && BackLinked(hdr', g) && Apart(hdr')
  {
    forall b | b in hdr'
      ensures b !in g.ends ==> LinkedAt(hdr', g, b)
      ensures b !in g.firsts ==> BackAt(hdr', g, b)
    {
      assert b !in g.ends ==> LinkedAt(hdr, g, b);
      assert b !in g.firsts ==> BackAt(hdr, g, b);
    }
    forall x, y | x in hdr' && y in hdr' && x < y
      ensures Next(hdr', x) <= y
    {
      assert Next(hdr, x) <= y;
    }
  }

  lemma SameInside(hdr: map<Addr, Header>, hdr': map<Addr, Header>, g: Regions)
    requires Inside(hdr, g) && forall b :: b in hdr' ==> b in hdr
    ensures Inside(hdr', g)
  {
    hide InsideAt;
    forall b | b in hdr'
      ensures InsideAt(g, b)
    {
      assert InsideAt(g, b);
    }
  }

  lemma SameSizes(hdr: map<Addr, Header>, hdr': map<Addr, Header>, g: Regions)
    requires Sized(hdr, g) && hdr'.Keys == hdr.Keys && forall b :: b in hdr ==> hdr'[b].size == hdr[b].size
    ensures Sized(hdr', g)
  {
    forall b | b in hdr'
      ensures SizedAt(hdr', g, b)
    {
      assert SizedAt(hdr, g, b);
    }
  }

  /** A taken block and the next one become one taken block. */
  function Join(hdr: map<Addr, Header>, b: Addr): map<Addr, Header>
    requires b in hdr && Next(hdr, b) in hdr && Next(hdr, Next(hdr, b)) in hdr
  {
    var n := Next(hdr, b);
    var nn := Next(hdr, n);
    (hdr - {n})[b := hdr[b].(size := hdr[b].size + HEAD + hdr[n].size)][nn := hdr[nn].(prev := b, prevFree := false)]
  }

  lemma JoinKeeps(hdr: map<Addr, Header>, g: Regions, b: Addr)
    requires Blocks(hdr, g) && Live(hdr, g, b) && Next(hdr, b) in hdr && Next(hdr, b) !in g.ends
    ensures Next(hdr, Next(hdr, b)) in hdr && Blocks(Join(hdr, b), g) && Live(Join(hdr, b), g, b)
    ensures Next(Join(hdr, b), b) == Next(hdr, Next(hdr, b))
  {
    NextFacts(hdr, g, b);
    NextFacts(hdr, g, Next(hdr, b));
    JoinApart(hdr, g, b);
    JoinLinked(hdr, g, b);
    JoinRest(hdr, g, b);
  }

  lemma JoinApart(hdr: map<Addr, Header>, g: Regions, b: Addr)
    requires Apart(hdr) && b in hdr && Next(hdr, b) in hdr && Next(hdr, Next(hdr, b)) in hdr
    ensures Apart(Join(hdr, b))
  {
    var n := Next(hdr, b);
    forall x, y | x in Join(hdr, b) && y in Join(hdr, b) && x < y
      ensures Next(Join(hdr, b), x) <= y
    {
      assert Next(hdr, x) <= y;
      if x == b {
        assert n < y;
      }
    }
  }

  lemma JoinLinked(hdr: map<Addr, Header>, g: Regions, b: Addr)
    requires Linked(hdr, g) && BackLinked(hdr, g) && EndsOk(hdr, g) && b in hdr && b !in g.ends &&
      Next(hdr, b) in hdr && Next(hdr, b) !in g.ends
    ensures Next(hdr, Next(hdr, b)) in hdr && Linked(Join(hdr, b), g) && BackLinked(Join(hdr, b), g)
  {
    var n := Next(hdr, b);
    assert LinkedAt(hdr, g, b) && LinkedAt(hdr, g, n);
    var h := Join(hdr, b);
    forall x | x in h
      ensures x !in g.ends ==> LinkedAt(h, g, x)
      ensures x !in g.firsts ==> BackAt(h, g, x)
    {
      assert x !in g.ends ==> LinkedAt(hdr, g, x);
      assert x !in g.firsts ==> BackAt(hdr, g, x);
    }
  }

  lemma JoinRest(hdr: map<Addr, Header>, g: Regions, b: Addr)
    requires Blocks(hdr, g) && Live(hdr, g, b) && Next(hdr, b) in hdr && Next(hdr, b) !in g.ends &&
      Next(hdr, Next(hdr, b)) in hdr
    requires Next(hdr, b) !in g.firsts && Linked(Join(hdr, b), g)
    ensures var h := Join(hdr, b); EndsOk(h, g) && Sized(h, g) && Inside(h, g) && Flags(h, g)
  {
    hide EndsOk, Sized, Inside, BackLinked, Apart, SizedAt;
    var n, h := Next(hdr, b), Join(hdr, b);
    JoinSized(hdr, g, b);
    JoinEnds(hdr, g, b);
    SameInside(hdr, h, g);
    assert LinkedAt(hdr, g, n) && LinkedAt(hdr, g, b);
    assert FlagsAt(hdr, n) && FlagsAt(hdr, b);
    forall x | x in h && x !in g.ends
      ensures FlagsAt(h, x)
    {
      assert LinkedAt(hdr, g, x) && FlagsAt(hdr, x) && LinkedAt(h, g, x);
    }
  }

  lemma JoinEnds(hdr: map<Addr, Header>, g: Regions, b: Addr)
    requires EndsOk(hdr, g) && Live(hdr, g, b) && Next(hdr, b) in hdr && Next(hdr, Next(hdr, b)) in hdr
    requires Next(hdr, b) !in g.ends && Next(hdr, b) !in g.firsts
    ensures EndsOk(Join(hdr, b), g)
  {
  }

  lemma JoinSized(hdr: map<Addr, Header>, g: Regions, b: Addr)
    requires Sized(hdr, g) && Live(hdr, g, b) && Next(hdr, b) in hdr && Next(hdr, Next(hdr, b)) in hdr
    ensures Sized(Join(hdr, b), g)
  {
    var n, h := Next(hdr, b), Join(hdr, b);
    assert SizedAt(hdr, g, n) && SizedAt(hdr, g, b);
    forall x | x in h
      ensures SizedAt(h, g, x)
    {
      assert SizedAt(hdr, g, x);
    }
  }

  /** A taken block is cut after `k` bytes; the rest becomes a free block. */
  function Carve(hdr: map<Addr, Header>, b: Addr, k: nat): map<Addr, Header>
    requires b in hdr && Next(hdr, b) in hdr && k + HEAD <= hdr[b].size
  {
    var n := Next(hdr, b);
    var c := b + HEAD + k;
    hdr[b := hdr[b].(size := k)][c := Header(hdr[b].size - k - HEAD, true, false, b)][n :=
      hdr[n].(prev := c, prevFree := true)]
  }

  lemma CarveKeeps(hdr: map<Addr, Header>, g: Regions, b: Addr, k: nat)
    requires Blocks(hdr, g) && Live(hdr, g, b) && Next(hdr, b) in hdr && !hdr[Next(hdr, b)].free
    requires k % ALIGN == 0 && MIN_SIZE <= k && k + HEAD + MIN_SIZE <= hdr[b].size
    ensures Blocks(Carve(hdr, b, k), g) && Live(Carve(hdr, b, k), g, b)
    ensures var c := b + HEAD + k; c !in hdr && c !in g.ends && c !in g.firsts && c in Carve(hdr, b, k)
  {
    NextFacts(hdr, g, b);
    var c := b + HEAD + k;
    CarveFresh(hdr, b, c);
    CarveApart(hdr, g, b, k);
    CarveLinked(hdr, g, b, k);
    CarveRest(hdr, g, b, k);
  }

  lemma CarveFresh(hdr: map<Addr, Header>, b: Addr, c: Addr)
    requires Apart(hdr) && b in hdr && b < c < Next(hdr, b)
    ensures c !in hdr
  {
  }

  lemma CarveApart(hdr: map<Addr, Header>, g: Regions, b: Addr, k: nat)
    requires Apart(hdr) && b in hdr && Next(hdr, b) in hdr && k + HEAD <= hdr[b].size
    ensures Apart(Carve(hdr, b, k))
  {
    var h, c := Carve(hdr, b, k), b + HEAD + k;
    forall x, y | x in h && y in h && x < y
      ensures Next(h, x) <= y
    {
      if x != c && y != c {
        assert Next(hdr, x) <= y;
      } else if x == c {
        assert Next(hdr, b) <= y;
      } else if x != b {
        assert x in hdr && (x < b || b < x);
      }
    }
  }

  lemma CarveLinked(hdr: map<Addr, Header>, g: Regions, b: Addr, k: nat)
    requires Blocks(hdr, g) && Live(hdr, g, b) && Next(hdr, b) in hdr && k + HEAD <= hdr[b].size && b + HEAD + k !in hdr
    requires Next(hdr, b) !in g.firsts
    ensures Linked(Carve(hdr, b, k), g) && BackLinked(Carve(hdr, b, k), g)
  {
    hide Sized, Inside, Flags;
    var h, c := Carve(hdr, b, k), b + HEAD + k;
    assert LinkedAt(hdr, g, b);
    forall x | x in h
      ensures x !in g.ends ==> LinkedAt(h, g, x)
      ensures x !in g.firsts ==> BackAt(h, g, x)
    {
      if x in hdr {
        assert x !in g.ends ==> LinkedAt(hdr, g, x);
        assert x !in g.firsts ==> BackAt(hdr, g, x);
      }
    }
  }

  lemma CarveRest(hdr: map<Addr, Header>, g: Regions, b: Addr, k: nat)
    requires Blocks(hdr, g) && Live(hdr, g, b) && Next(hdr, b) in hdr && !hdr[Next(hdr, b)].free &&
      Next(hdr, b) !in g.firsts
    requires k % ALIGN == 0 && MIN_SIZE <= k && k + HEAD + MIN_SIZE <= hdr[b].size && b + HEAD + k !in hdr
    requires Linked(Carve(hdr, b, k), g)
    ensures var h := Carve(hdr, b, k); EndsOk(h, g) && Sized(h, g) && Inside(h, g) && Flags(h, g)
  {
    var h, c := Carve(hdr, b, k), b + HEAD + k;
    hide EndsOk, Linked, BackLinked, Apart, Sized, Inside, Flags;
    CarveInside(hdr, g, b, k);
    CarveSized(hdr, g, b, k);
    CarveEnds(hdr, g, b, k);
    CarveFlags(hdr, g, b, k);
  }

  lemma CarveFlags(hdr: map<Addr, Header>, g: Regions, b: Addr, k: nat)
    requires Linked(hdr, g) && Flags(hdr, g) && Live(hdr, g, b) && Next(hdr, b) in hdr && !hdr[Next(hdr, b)].free
    requires k + HEAD <= hdr[b].size && b + HEAD + k !in hdr && Linked(Carve(hdr, b, k), g)
    ensures Flags(Carve(hdr, b, k), g)
  {
    var h := Carve(hdr, b, k);
    assert LinkedAt(hdr, g, b) && FlagsAt(hdr, b);
    forall x | x in h && x !in g.ends
      ensures FlagsAt(h, x)
    {
      if x in hdr {
        assert LinkedAt(hdr, g, x) && FlagsAt(hdr, x);
      }
      assert LinkedAt(h, g, x);
    }
  }

  lemma CarveEnds(hdr: map<Addr, Header>, g: Regions, b: Addr, k: nat)
    requires EndsOk(hdr, g) && Live(hdr, g, b) && Next(hdr, b) in hdr && Next(hdr, b) !in g.firsts &&
      k + HEAD <= hdr[b].size && b + HEAD + k !in hdr
    ensures EndsOk(Carve(hdr, b, k), g)
  {
  }

  lemma CarveInside(hdr: map<Addr, Header>, g: Regions, b: Addr, k: nat)
    requires EndsOk(hdr, g) && Apart(hdr) && Inside(hdr, g) && b in hdr && b !in g.ends && Next(hdr, b) in hdr &&
      k + HEAD <= hdr[b].size
    ensures Inside(Carve(hdr, b, k), g)
  {
    var c := b + HEAD + k;
    assert InsideAt(g, b);
    var e :| Within(g, e, b);
    assert Next(hdr, b) <= e;
    assert Within(g, e, c);
    forall x | x in Carve(hdr, b, k)
      ensures InsideAt(g, x)
    {
      assert x in hdr ==> InsideAt(g, x);
    }
  }

  lemma CarveSized(hdr: map<Addr, Header>, g: Regions, b: Addr, k: nat)
    requires Sized(hdr, g) && b in hdr && Next(hdr, b) in hdr && k % ALIGN == 0 && MIN_SIZE <= k &&
      k + HEAD + MIN_SIZE <= hdr[b].size && b + HEAD + k !in hdr
    ensures Sized(Carve(hdr, b, k), g)
  {
    var h, c := Carve(hdr, b, k), b + HEAD + k;
    assert SizedAt(hdr, g, b);
    forall x | x in h
      ensures SizedAt(h, g, x)
    {
      assert x in hdr ==> SizedAt(hdr, g, x);
    }
  }
}
