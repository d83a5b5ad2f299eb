/** The heap allocator: first fit within a size level, boundary tags, and immediate merging of free neighbours. */
module Heaps {
  import opened Lists
  import opened HeapBlocks
  import opened HeapLists
  import KernelTypes

  type Byte = KernelTypes.Byte

  /** `size_t` is 32 bits wide. */
  const SIZE_RANGE: nat := 0x1_0000_0000

  /** The size of `k_mm_region_info_t`, and the smallest region: three headers, that, and one smallest block. */
  const INFO_SIZE: nat := 8
  const REGION_MIN: nat := INFO_SIZE + 3 * HEAD + MIN_SIZE

  /** The size of `free_ptr_t` */
  const LINKS: nat := 8

  /** The rounding of requests: up to a multiple of 8, in 32-bit arithmetic, and at least the smallest block. */
  function RoundUp(size: nat): (r: nat)
    ensures r % ALIGN == 0 && r >= MIN_SIZE
  {
    var up := (size + (ALIGN - 1)) % SIZE_RANGE / ALIGN * ALIGN;
    if up < MIN_SIZE then MIN_SIZE else up
  }

  /** A request is covered by its rounded size exactly if adding 7 does not wrap around. */
  lemma RoundUpCovers(size: nat)
    requires size < SIZE_RANGE
    ensures RoundUp(size) >= size <==> size <= SIZE_RANGE - ALIGN
    ensures size > SIZE_RANGE - ALIGN ==> RoundUp(size) == MIN_SIZE
    ensures size <= SIZE_RANGE - ALIGN && size >= MIN_SIZE ==> RoundUp(size) < size + ALIGN
  {
  }

  /** The aligned part of an area of memory, in 32-bit arithmetic. */
  function FitStart(start: Addr): (addr: Addr)
    ensures addr % ALIGN == 0
  {
    (start + (ALIGN - 1)) % SIZE_RANGE / ALIGN * ALIGN
  }

  function FitLength(start: Addr, size: nat): (len: nat)
    ensures len % ALIGN == 0
  {
    (size - (FitStart(start) - start)) % SIZE_RANGE / ALIGN * ALIGN
  }

  /** It is empty, or inside the area, exactly if the area reaches the next aligned address. */
  lemma FitInside(start: Addr, size: nat)
    requires start < SIZE_RANGE && size < SIZE_RANGE && start + size <= SIZE_RANGE
    ensures var addr, len := FitStart(start), FitLength(start, size);
            len == 0 || (start <= addr && addr + len <= start + size) <==> size >= (ALIGN - start % ALIGN) % ALIGN
  {
    var gap := (ALIGN - start % ALIGN) % ALIGN;
    if start + (ALIGN - 1) < SIZE_RANGE {
      assert FitStart(start) == start + gap;
      if size < gap {
        assert (size - gap) % SIZE_RANGE == SIZE_RANGE + size - gap;
      }
    } else {
      assert FitStart(start) == 0 && start + gap == SIZE_RANGE;
    }
  }

  /** Memory after the headers of the blocks `heads`, and links at the start of the free blocks `links`, were written.
      What is written there is kept in the header map and the lists; `mem` holds the bytes that belong to callers. */
  function Written(mem: map<nat, Byte>, heads: set<Addr>, links: seq<Addr>): (r: map<nat, Byte>) {
    map x | x in mem && !(exists c :: c in heads && c <= x < c + HEAD) &&
      !(exists c :: c in links && c + HEAD <= x < c + HEAD + LINKS) :: mem[x]
  }

  /** The sizes of the blocks callers hold. */
  ghost function LiveSizes(hdr: map<Addr, Header>, g: Regions): map<Addr, nat> {
    map b | b in hdr && Live(hdr, g, b) :: hdr[b].size
  }

  /** The bytes of the blocks `keep` are what they were. */
  ghost predicate Kept(keep: map<Addr, nat>, mem: map<nat, Byte>, mem': map<nat, Byte>) {
    forall b, x :: b in keep && b + HEAD <= x < b + HEAD + keep[b] ==>
      (x in mem' <==> x in mem) && (x in mem ==> mem'[x] == mem[x])
  }

  /** The blocks `keep` are there, with at least these sizes. */
  ghost predicate Covers(hdr: map<Addr, Header>, keep: map<Addr, nat>) {
    forall b :: b in keep ==> b in hdr && !hdr[b].free && keep[b] <= hdr[b].size
  }

  /** A header is apart from all payloads, and so is the payload of a free block. */
  lemma HeaderApart(hdr: map<Addr, Header>, keep: map<Addr, nat>, c: Addr)
    requires Apart(hdr) && Covers(hdr, keep) && c in hdr
    ensures forall b :: b in keep ==> c + HEAD <= b + HEAD || b + HEAD + keep[b] <= c
  {
    forall b | b in keep
      ensures c + HEAD <= b + HEAD || b + HEAD + keep[b] <= c
    {
      assert b < c ==> Next(hdr, b) <= c;
    }
  }

  lemma PayloadApart(hdr: map<Addr, Header>, keep: map<Addr, nat>, c: Addr, hi: nat)
    requires Apart(hdr) && Covers(hdr, keep) && c in hdr && hdr[c].free && hi <= c + HEAD + hdr[c].size
    ensures forall b :: b in keep ==> hi <= b + HEAD || b + HEAD + keep[b] <= c
  {
    forall b | b in keep
      ensures hi <= b + HEAD || b + HEAD + keep[b] <= c
    {
      assert b < c ==> Next(hdr, b) <= c;
      assert c < b ==> Next(hdr, c) <= b;
    }
  }

  lemma KeptWritten(hdr: map<Addr, Header>, keep: map<Addr, nat>, mem0: map<nat, Byte>, mem: map<nat, Byte>,
      heads: set<Addr>, links: seq<Addr>)
    requires Apart(hdr) && Covers(hdr, keep) && Kept(keep, mem0, mem)
    requires forall c :: c in heads ==> c in hdr
    requires forall c :: c in links ==> c in hdr && hdr[c].free && hdr[c].size >= LINKS
    ensures Kept(keep, mem0, Written(mem, heads, links))
  {
    hide Apart, Covers;
    var mem' := Written(mem, heads, links);
    forall b, x | b in keep && b + HEAD <= x < b + HEAD + keep[b]
      ensures (x in mem' <==> x in mem) && (x in mem ==> mem'[x] == mem[x])
    {
      forall c | c in heads
        ensures !(c <= x < c + HEAD)
      {
        HeaderApart(hdr, keep, c);
      }
      forall c | c in links
        ensures !(c + HEAD <= x < c + HEAD + LINKS)
      {
        PayloadApart(hdr, keep, c, c + HEAD + LINKS);
      }
    }
  }

  /** The counter of free bytes is exact, or short by one header (it starts out without the header of the first free
      block). */
  ghost predicate StatOk(freeSize: nat, total: nat) {
    freeSize == total || freeSize + HEAD == total
  }

  /** `addsize` and `removesize`, the part for the free bytes. */
  function AddSize(freeSize: nat, size: nat): nat {
    if freeSize > size then freeSize - size else 0
  }

  lemma AddSizeOk(freeSize: nat, size: nat, total: nat)
    requires StatOk(freeSize, total + size) && (total == 0 || total > HEAD)
    ensures StatOk(AddSize(freeSize, size), total)
  {
  }

  lemma {:induction false} TotalGap(hdr: map<Addr, Header>, lists: seq<seq<Addr>>)
    requires forall l, b :: 0 <= l < |lists| && b in lists[l] ==> b in hdr && hdr[b].size >= MIN_SIZE
    ensures Total(hdr, lists) == 0 || Total(hdr, lists) > HEAD
  {
    if lists != [] {
      if lists[0] != [] {
        assert lists[0][0] in lists[0];
      }
      TotalGap(hdr, lists[1..]);
    }
  }

  lemma ListedSizes(hdr: map<Addr, Header>, g: Regions, lists: seq<seq<Addr>>, bits: seq<bool>)
    requires Blocks(hdr, g) && Listed(hdr, lists, bits)
    ensures forall l, b :: 0 <= l < |lists| && b in lists[l] ==>
      b in hdr && hdr[b].free && hdr[b].size >= MIN_SIZE && b !in g.ends && b !in g.firsts
    ensures forall b :: b in hdr && hdr[b].free ==>
      MIN_SIZE <= hdr[b].size < MAX_SIZE && b !in g.ends && b !in g.firsts && Next(hdr, b) in hdr
  {
    hide NoDup, Linked, BackLinked, Apart, Inside, Flags, Sized, SizeToLevel;
    forall b | b in hdr && hdr[b].free
      ensures hdr[b].size >= MIN_SIZE && hdr[b].size < MAX_SIZE && b !in g.ends && b !in g.firsts && Next(hdr, b) in hdr
    {
      NextFacts(hdr, g, b);
    }
  }

  ghost predicate Joined(hdr: map<Addr, Header>, hdr': map<Addr, Header>, g: Regions, b: Addr) {
    && b in hdr && Next(hdr, b) in hdr && Next(hdr, Next(hdr, b)) in hdr && hdr' == Join(hdr, b) && Live(hdr', g, b)
    && Next(hdr', b) == Next(hdr, Next(hdr, b))
  }

  ghost predicate Carved(hdr: map<Addr, Header>, hdr': map<Addr, Header>, g: Regions, b: Addr, k: nat) {
    && b in hdr && Next(hdr, b) in hdr && k + HEAD <= hdr[b].size && hdr' == Carve(hdr, b, k) && Live(hdr', g, b)
    && b + HEAD + k !in hdr && b + HEAD + k !in g.ends && b + HEAD + k !in g.firsts
  }

  function Min(a: nat, b: nat): nat {
    if a < b then a else b
  }

  /** Block `b` can have `want` bytes without moving. */
  ghost predicate FitsHere(hdr: map<Addr, Header>, b: Addr, want: nat) {
    && b in hdr
    && (want <= hdr[b].size ||
       (Next(hdr, b) in hdr && hdr[Next(hdr, b)].free && want <= hdr[b].size + HEAD + hdr[Next(hdr, b)].size))
  }

  /** The caller of block `b` now has the block at `ptr` instead, of at least `want` bytes; all other callers have
      what they had. */
  ghost predicate Resized(hdr: map<Addr, Header>, hdr': map<Addr, Header>, g: Regions, b: Addr, ptr: nat, want: nat) {
    && ptr >= HEAD && Live(hdr', g, ptr - HEAD) && want <= hdr'[ptr - HEAD].size
    && LiveSizes(hdr', g) == (LiveSizes(hdr, g) - {b})[ptr - HEAD := hdr'[ptr - HEAD].size]
  }

  /** A byte of a block, or -1 if nothing has been stored there. */
  function ByteAt(mem: map<nat, Byte>, base: nat, i: nat): (r: int) {
    if base + i in mem then mem[base + i] as int else -1
  }

  /** The `n` bytes at `to` are those that were at `from`. */
  ghost predicate Copied(mem: map<nat, Byte>, from: nat, mem': map<nat, Byte>, to: nat, n: nat) {
    forall i :: 0 <= i < n ==> ByteAt(mem', to, i) == ByteAt(mem, from, i)
  }

  /** `memcpy` */
  function CopyBytes(mem: map<nat, Byte>, from: nat, to: nat, n: nat): (r: map<nat, Byte>) {
    if n == 0 then mem
    else
      var m, x := CopyBytes(mem, from, to, n - 1), from + n - 1;
      if x in mem then m[to + n - 1 := mem[x]] else m - {to + n - 1}
  }

  lemma {:induction false} CopyBytesAt(mem: map<nat, Byte>, from: nat, to: nat, n: nat, x: nat)
    ensures var r := CopyBytes(mem, from, to, n);
            if to <= x < to + n then ByteAt(r, x, 0) == ByteAt(mem, from, x - to)
              else ByteAt(r, x, 0) == ByteAt(mem, x, 0)
  {
    if n > 0 {
      CopyBytesAt(mem, from, to, n - 1, x);
    }
  }

  lemma KeptAt(keep: map<Addr, nat>, mem: map<nat, Byte>, mem': map<nat, Byte>, b: Addr, i: nat)
    requires Kept(keep, mem, mem') && b in keep && i < keep[b]
    ensures ByteAt(mem', b + HEAD, i) == ByteAt(mem, b + HEAD, i)
  {
    assert b + HEAD <= b + HEAD + i < b + HEAD + keep[b];
  }

  /** The copy goes to a block of its own, so it arrives, and touches nobody else. */
  lemma CopyKeeps(hdr: map<Addr, Header>, g: Regions, live: map<Addr, nat>, b: Addr, c: Addr, n: nat,
      mem0: map<nat, Byte>, mem: map<nat, Byte>)
    requires Blocks(hdr, g) && c in hdr && c !in live && Covers(hdr, live) && b in live && n <= live[b] &&
      n <= hdr[c].size && Kept(live, mem0, mem)
    ensures Kept(live, mem0, CopyBytes(mem, b + HEAD, c + HEAD, n)) &&
      Copied(mem0, b + HEAD, CopyBytes(mem, b + HEAD, c + HEAD, n), c + HEAD, n)
  {
    hide Blocks, CopyBytes;
    BlocksApart(hdr, g);
    var mem' := CopyBytes(mem, b + HEAD, c + HEAD, n);
    forall x, y | x in live && x + HEAD <= y < x + HEAD + live[x]
      ensures (y in mem' <==> y in mem0) && (y in mem0 ==> mem'[y] == mem0[y])
    {
      assert x < c ==> Next(hdr, x) <= c;
      assert c < x ==> Next(hdr, c) <= x;
      CopyBytesAt(mem, b + HEAD, c + HEAD, n, y);
    }
    hide Kept;
    var from, to := b + HEAD, c + HEAD;
    forall i | 0 <= i < n
      ensures ByteAt(mem', to, i) == ByteAt(mem0, from, i)
    {
      CopyBytesAt(mem, b + HEAD, c + HEAD, n, c + HEAD + i);
      KeptAt(live, mem0, mem, b, i);
    }
  }

  lemma StillCopied(live: map<Addr, nat>, live': map<Addr, nat>, b: Addr, ptr: nat, n: nat, mem0: map<nat, Byte>,
      mem: map<nat, Byte>, mem': map<nat, Byte>)
    requires Kept(live, mem0, mem) && Copied(mem0, b + HEAD, mem, ptr, n) && Kept(live', mem, mem') && ptr >= HEAD
    requires ptr - HEAD in live' && n <= live'[ptr - HEAD] && forall x :: x in live && x != b ==>
      x in live' && live'[x] == live[x]
    ensures Copied(mem0, b + HEAD, mem', ptr, n) && Kept(live - {b}, mem0, mem')
  {
    forall i | 0 <= i < n
      ensures ByteAt(mem', ptr, i) == ByteAt(mem0, b + HEAD, i)
    {
      KeptAt(live', mem, mem', ptr - HEAD, i);
    }
  }

  lemma KeptParts(live: map<Addr, nat>, b: Addr, n: nat, mem: map<nat, Byte>, mem': map<nat, Byte>)
    requires Kept(live[b := n], mem, mem')
    ensures Copied(mem, b + HEAD, mem', b + HEAD, n) && Kept(live - {b}, mem, mem')
  {
    var at := b + HEAD;
    forall i | 0 <= i < n
      ensures ByteAt(mem', at, i) == ByteAt(mem, at, i)
    {
      KeptAt(live[b := n], mem, mem', b, i);
    }
    forall x, y | x in live - {b} && x + HEAD <= y < x + HEAD + live[x]
      ensures (y in mem' <==> y in mem) && (y in mem ==> mem'[y] == mem[y])
    {
      assert x in live[b := n] && live[b := n][x] == live[x];
    }
  }

  // ----- What callers hold after each edit -----

  lemma LiveOccupy(hdr: map<Addr, Header>, g: Regions, b: Addr)
    requires b in hdr && hdr[b].free && b !in g.ends && b !in g.firsts && Next(hdr, b) in hdr
    ensures LiveSizes(Occupy(hdr, b), g) == LiveSizes(hdr, g)[b := hdr[b].size]
  {
  }

  lemma LiveVacate(hdr: map<Addr, Header>, g: Regions, b: Addr)
    requires b in hdr && Next(hdr, b) in hdr
    ensures LiveSizes(Vacate(hdr, b), g) == LiveSizes(hdr, g) - {b}
  {
  }

  lemma LiveJoin(hdr: map<Addr, Header>, hdr': map<Addr, Header>, g: Regions, b: Addr)
    requires Joined(hdr, hdr', g, b) && Live(hdr, g, b)
    ensures LiveSizes(hdr', g) == (LiveSizes(hdr, g) - {Next(hdr, b)})[b := hdr'[b].size]
  {
  }

  lemma LiveCarve(hdr: map<Addr, Header>, hdr': map<Addr, Header>, g: Regions, b: Addr, k: nat)
    requires Carved(hdr, hdr', g, b, k) && Live(hdr, g, b)
    ensures LiveSizes(hdr', g) == LiveSizes(hdr, g)[b := k]
  {
  }

  // ----- What the operations do to headers and lists -----

  /** Block headers and free lists; the bitmap says which lists are in use. */
  datatype Arena = Arena(hdr: map<Addr, Header>, lists: seq<seq<Addr>>)

  ghost function Unlist(lists: seq<seq<Addr>>, size: nat, b: Addr): seq<seq<Addr>> {
    if 0 <= SizeToLevel(size) < |lists| then ListsLess(lists, SizeToLevel(size), b) else lists
  }

  ghost function Enlist(lists: seq<seq<Addr>>, size: nat, b: Addr): seq<seq<Addr>> {
    if 0 <= SizeToLevel(size) < |lists| then ListsMore(lists, SizeToLevel(size), b) else lists
  }

  ghost function TakenFrom(a: Arena, b: Addr): Arena {
    if b in a.hdr && Next(a.hdr, b) in a.hdr then Arena(Occupy(a.hdr, b), Unlist(a.lists, a.hdr[b].size, b)) else a
  }

  ghost function PutBack(a: Arena, b: Addr): Arena {
    if b in a.hdr && Next(a.hdr, b) in a.hdr then Arena(Vacate(a.hdr, b), Enlist(a.lists, a.hdr[b].size, b)) else a
  }

  /** `b` takes over the block behind it, which leaves its list if it was free. */
  ghost function Merged(a: Arena, b: Addr): Arena {
    if b in a.hdr && Next(a.hdr, b) in a.hdr && Next(a.hdr, Next(a.hdr, b)) in a.hdr then
      var n := Next(a.hdr, b);
      Arena(Join(a.hdr, b), if a.hdr[n].free then Unlist(a.lists, a.hdr[n].size, n) else a.lists)
    else
      a
  }

  /** If the rest of `b` behind `want` bytes is large enough to be a block, it becomes a free one. */
  ghost function Cut(a: Arena, b: Addr, want: nat): Arena {
    if b in a.hdr && Next(a.hdr, b) in a.hdr && want + HEAD + MIN_SIZE <= a.hdr[b].size then
      Arena(Carve(a.hdr, b, want), Enlist(a.lists, a.hdr[b].size - want - HEAD, b + HEAD + want))
    else
      a
  }

  ghost function Given(a: Arena, b: Addr, want: nat): Arena {
    Cut(TakenFrom(a, b), b, want)
  }

  ghost function Grown(a: Arena, b: Addr): Arena {
    if b in a.hdr && Next(a.hdr, b) in a.hdr && a.hdr[Next(a.hdr, b)].free then Merged(a, b) else a
  }

  /** The used block `b` is free: joined with the free blocks behind and before it. */
  ghost function Freed(a: Arena, b: Addr): Arena {
    var a1 := Grown(a, b);
    if b in a1.hdr && a1.hdr[b].prevFree then
      PutBack(Merged(TakenFrom(a1, a1.hdr[b].prev), a1.hdr[b].prev), a1.hdr[b].prev)
    else
      PutBack(a1, b)
  }

  /** A block changes size where it is. */
  ghost function Fitted(a: Arena, b: Addr, want: nat): Arena {
    Cut(Grown(a, b), b, want)
  }

  /** A block stays where it is if it can have `want` bytes there; otherwise a new block takes its place. */
  ghost predicate Reallocated(a: Arena, a': Arena, b: Addr, r: nat, want: nat) {
    && r >= HEAD && Snug(a'.hdr, r - HEAD, want)
    && if FitsHere(a.hdr, b, want) then r == b + HEAD && a' == Fitted(a, b, want)
       else Chosen(a.hdr, a.lists, want, r - HEAD) && a' == Freed(Given(a, r - HEAD, want), b)
  }

  /** A block has what was asked for, and not enough more for another block. */
  ghost predicate Snug(hdr: map<Addr, Header>, b: Addr, want: nat) {
    b in hdr && want <= hdr[b].size < want + HEAD + MIN_SIZE
  }

  lemma NotCut(a: Arena, b: Addr, want: nat)
    requires b in a.hdr && a.hdr[b].size < want + HEAD + MIN_SIZE
    ensures Cut(a, b, want) == a
  {
  }

  class Heap {
    var hdr: map<Addr, Header>
    var freelist: seq<seq<Addr>>
    var bitmap: seq<bool>
    var freeSize: nat
    var mem: map<nat, Byte>
    ghost var g: Regions

    ghost predicate Sound()
      reads this`hdr, this`freelist, this`bitmap, this`g
    {
      Blocks(hdr, g) && Listed(hdr, freelist, bitmap)
    }

    /** The blocks tile the regions, tags and lists agree, and the free bytes are counted. */
    ghost predicate Valid()
      reads this`hdr, this`freelist, this`bitmap, this`g, this`freeSize
    {
      Sound() && StatOk(freeSize, Total(hdr, freelist))
    }

    ghost function A(): Arena
      reads this`hdr, this`freelist
    {
      Arena(hdr, freelist)
    }

    /** A heap without regions. */
    constructor ()
      ensures Valid() && hdr == map[] && g.ends == map[] && Total(hdr, freelist) == 0
    {
      hdr, mem := map[], map[];
      freelist, bitmap := seq(LEVELS, l => []), seq(LEVELS, l => false);
      freeSize, g := 0, Regions(map[], {});
      new;
      TotalNone(freelist);
    }

    /** `k_mm_freelist_delete`, and the block is marked as used. */
    method TakeBlock(b: Addr, ghost keep: map<Addr, nat>, ghost mem0: map<nat, Byte>)
      requires Sound() && b in hdr && hdr[b].free && Covers(hdr, keep) && Kept(keep, mem0, mem)
      modifies this`hdr, this`freelist, this`bitmap, this`mem
      ensures Sound() && Next(old(hdr), b) in old(hdr) && hdr == Occupy(old(hdr), b) && Covers(hdr, keep) &&
        Kept(keep, mem0, mem)
      ensures Total(old(hdr), old(freelist)) == Total(hdr, freelist) + HEAD + hdr[b].size
      ensures A() == TakenFrom(old(A()), b)
    {
      hide Blocks, Listed, SizeToLevel, Written, Kept, Total, ListsLess, BitsLess;
      ListedMembers(hdr, freelist, bitmap);
      ListedSizes(hdr, g, freelist, bitmap);
      OccupyKeeps(hdr, g, b);
      BlocksApart(hdr, g);
      var n, l := Next(hdr, b), SizeToLevel(hdr[b].size);
      var h := Occupy(hdr, b);
      ListedLess(hdr, h, freelist, bitmap, b);
      KeptWritten(hdr, keep, mem0, mem, {b, n}, freelist[l]);
      Store(h, ListsLess(freelist, l, b), BitsLess(freelist, bitmap, l, b), Written(mem, {b, n}, freelist[l]));
    }

    /** The block is marked as free, and `k_mm_freelist_insert`. */
    method PutBlock(b: Addr, ghost keep: map<Addr, nat>, ghost mem0: map<nat, Byte>)
      requires Sound() && Live(hdr, g, b) && !hdr[b].prevFree && (Next(hdr, b) in hdr ==> !hdr[Next(hdr, b)].free)
      requires Covers(hdr, keep) && b !in keep && Kept(keep, mem0, mem)
      modifies this`hdr, this`freelist, this`bitmap, this`mem
      ensures Sound() && Next(old(hdr), b) in old(hdr) && hdr == Vacate(old(hdr), b) && Covers(hdr, keep) &&
        Kept(keep, mem0, mem)
      ensures Total(hdr, freelist) == Total(old(hdr), old(freelist)) + HEAD + hdr[b].size
      ensures A() == PutBack(old(A()), b)
    {
      hide Blocks, NoDup, Remove, SizeToLevel, Written, Kept, Total, ListsMore;
      NextFacts(hdr, g, b);
      VacateKeeps(hdr, g, b);
      var n, l := Next(hdr, b), SizeToLevel(hdr[b].size);
      var h := Vacate(hdr, b);
      BlocksApart(h, g);
      ListedMore(hdr, h, freelist, bitmap, b);
      var lists, bits := ListsMore(freelist, l, b), bitmap[l := true];
      ListedSizes(h, g, lists, bits);
      KeptWritten(h, keep, mem0, mem, {b, n}, lists[l]);
      hide Listed;
      mem := Written(mem, {b, n}, lists[l]);
      hdr, freelist, bitmap := h, lists, bits;
    }

    /** A used block takes over the free block behind it. */
    method JoinFree(b: Addr, ghost keep: map<Addr, nat>, ghost mem0: map<nat, Byte>)
      requires Sound() && Live(hdr, g, b) && Next(hdr, b) in hdr && hdr[Next(hdr, b)].free && Covers(hdr, keep) &&
        Kept(keep, mem0, mem)
      modifies this`hdr, this`freelist, this`bitmap, this`mem
      ensures Sound() && Joined(old(hdr), hdr, g, b) && Covers(hdr, keep) && Kept(keep, mem0, mem)
      ensures Total(old(hdr), old(freelist)) == Total(hdr, freelist) + HEAD + old(hdr)[Next(old(hdr), b)].size
      ensures A() == Merged(old(A()), b)
    {
      hide Blocks, Listed, SizeToLevel, Written, Kept, Total, ListsLess, BitsLess;
      ListedMembers(hdr, freelist, bitmap);
      ListedSizes(hdr, g, freelist, bitmap);
      var n := Next(hdr, b);
      NextFacts(hdr, g, b);
      NextFacts(hdr, g, n);
      JoinKeeps(hdr, g, b);
      BlocksApart(hdr, g);
      var nn, l, h := Next(hdr, n), SizeToLevel(hdr[n].size), Join(hdr, b);
      ListedLess(hdr, h, freelist, bitmap, n);
      KeptWritten(hdr, keep, mem0, mem, {b, nn}, freelist[l]);
      Store(h, ListsLess(freelist, l, n), BitsLess(freelist, bitmap, l, n), Written(mem, {b, nn}, freelist[l]));
    }

    /** A used block takes over the used block behind it. */
    method JoinUsed(b: Addr, ghost keep: map<Addr, nat>, ghost mem0: map<nat, Byte>)
      requires Sound() && Live(hdr, g, b) && Next(hdr, b) in hdr && Live(hdr, g, Next(hdr, b))
      requires Covers(hdr, keep) && Next(hdr, b) !in keep && Kept(keep, mem0, mem)
      modifies this`hdr, this`mem
      ensures Sound() && Joined(old(hdr), hdr, g, b) && Covers(hdr, keep) && Kept(keep, mem0, mem)
      ensures Total(old(hdr), freelist) == Total(hdr, freelist)
      ensures A() == Merged(old(A()), b)
    {
      hide Blocks, NoDup, Written, Kept, Total;
      var n := Next(hdr, b);
      NextFacts(hdr, g, n);
      JoinKeeps(hdr, g, b);
      BlocksApart(hdr, g);
      var nn, h := Next(hdr, n), Join(hdr, b);
      ListedSame(hdr, h, freelist, bitmap, n);
      KeptWritten(hdr, keep, mem0, mem, {b, nn}, []);
      hide Listed;
      mem := Written(mem, {b, nn}, []);
      hdr := h;
    }

    /** A used block gives its rest back as a free block. */
    method CarveBlock(b: Addr, k: nat, ghost keep: map<Addr, nat>, ghost mem0: map<nat, Byte>)
      requires Sound() && Live(hdr, g, b) && Next(hdr, b) in hdr && !hdr[Next(hdr, b)].free
      requires k % ALIGN == 0 && MIN_SIZE <= k && k + HEAD + MIN_SIZE <= hdr[b].size
      requires Covers(hdr, keep) && (b in keep ==> keep[b] <= k) && Kept(keep, mem0, mem)
      modifies this`hdr, this`freelist, this`bitmap, this`mem
      ensures Sound() && Carved(old(hdr), hdr, g, b, k) && Covers(hdr, keep) && Kept(keep, mem0, mem)
      ensures Total(hdr, freelist) == Total(old(hdr), old(freelist)) + old(hdr[b].size) - k
      ensures A() == Cut(old(A()), b, k)
    {
      hide Blocks, Listed, SizeToLevel, Carve, Written, Kept, Covers, Total;
      CarveLists(hdr, g, freelist, bitmap, b, k);
      CarveRoom(hdr, g, b, k, keep);
      var n, c := Next(hdr, b), b + HEAD + k;
      var l, h := SizeToLevel(hdr[b].size - k - HEAD), Carve(hdr, b, k);
      var lists, bits := ListsMore(freelist, l, c), bitmap[l := true];
      KeptWritten(h, keep, mem0, mem, {b, c, n}, lists[l]);
      Store(h, lists, bits, Written(mem, {b, c, n}, lists[l]));
    }

    method Store(h: map<Addr, Header>, lists: seq<seq<Addr>>, bits: seq<bool>, bytes: map<nat, Byte>)
      modifies this`hdr, this`freelist, this`bitmap, this`mem
      ensures hdr == h && freelist == lists && bitmap == bits && mem == bytes
    {
      hdr, freelist, bitmap, mem := h, lists, bits, bytes;
    }

    /** The end of `k_mm_alloc`: the block is taken, and cut if the rest is large enough to be a block. */
    method Give(b: Addr, want: nat)
      requires Valid() && b in hdr && hdr[b].free && hdr[b].size >= want && want >= MIN_SIZE && want % ALIGN == 0
      modifies this
      ensures Valid() && g == old(g) && Live(hdr, g, b) && want <= hdr[b].size
      ensures LiveSizes(hdr, g) == old(LiveSizes(hdr, g))[b := hdr[b].size] &&
        Kept(old(LiveSizes(hdr, g)), old(mem), mem)
      ensures Total(old(hdr), old(freelist)) == Total(hdr, freelist) + HEAD + hdr[b].size
      ensures A() == Given(old(A()), b, want) && Snug(hdr, b, want)
      ensures freeSize == AddSize(old(freeSize), HEAD + hdr[b].size)
    {
      hide Blocks, Listed, Total, Kept, LiveSizes, TakenFrom, Cut;
      ghost var live, mem0 := LiveSizes(hdr, g), mem;
      LiveCovered(hdr, g);
      KeptSelf(live, mem);
      ListedSizes(hdr, g, freelist, bitmap);
      LiveOccupy(hdr, g, b);
      NextFacts(hdr, g, b);
      TakeBlock(b, live, mem0);
      if hdr[b].size >= want + HEAD + MIN_SIZE {
        ghost var h := hdr;
        CarveBlock(b, want, live, mem0);
        LiveCarve(h, hdr, g, b, want);
      } else {
        NotCut(A(), b, want);
      }
      CountTaken(b);
    }

    method CountTaken(b: Addr)
      requires Sound() && b in hdr && StatOk(freeSize, Total(hdr, freelist) + HEAD + hdr[b].size)
      modifies this`freeSize
      ensures Valid()
      ensures freeSize == AddSize(old(freeSize), HEAD + hdr[b].size)
    {
      hide Blocks, Listed, Total;
      ListedSizes(hdr, g, freelist, bitmap);
      TotalGap(hdr, freelist);
      AddSizeOk(freeSize, HEAD + hdr[b].size, Total(hdr, freelist));
      freeSize := AddSize(freeSize, HEAD + hdr[b].size);
    }

    /** `k_mm_alloc`: it fails exactly if no free block is large enough; else the caller gets a block of its own, and
        the blocks of others keep their bytes. */
    method Alloc(size: nat) returns (ptr: nat)
      requires Valid()
      modifies this
      ensures Valid() && g == old(g)
      ensures ptr == 0 <==>
        size == 0 || forall b :: b in old(hdr) && old(hdr)[b].free ==> old(hdr)[b].size < RoundUp(size)
      ensures ptr == 0 ==> hdr == old(hdr) && freelist == old(freelist) && mem == old(mem)
      ensures ptr != 0 ==> ptr >= HEAD && Live(hdr, g, ptr - HEAD) && hdr[ptr - HEAD].size >= RoundUp(size)
      ensures ptr != 0 ==>
        ptr - HEAD !in old(LiveSizes(hdr, g)) &&
        LiveSizes(hdr, g) == old(LiveSizes(hdr, g))[ptr - HEAD := hdr[ptr - HEAD].size]
      ensures ptr != 0 ==> Kept(old(LiveSizes(hdr, g)), old(mem), mem)
      ensures ptr != 0 ==>
        Chosen(old(hdr), old(freelist), RoundUp(size), ptr - HEAD) &&
        A() == Given(old(A()), ptr - HEAD, RoundUp(size)) &&
        Snug(hdr, ptr - HEAD, RoundUp(size))
      ensures ptr != 0 ==> Total(old(hdr), old(freelist)) == Total(hdr, freelist) + HEAD + hdr[ptr - HEAD].size
      ensures freeSize == if ptr == 0 then old(freeSize) else AddSize(old(freeSize), HEAD + hdr[ptr - HEAD].size)
    {
      hide Blocks, Listed, Total, Kept, Chosen, Given;
      if size == 0 {
        return 0;
      }
      var want := RoundUp(size);
      ListedSizes(hdr, g, freelist, bitmap);
      var r := Search(hdr, freelist, bitmap, want);
      if r == NotFound {
        return 0;
      }
      Give(r.b, want);
      return r.b + HEAD;
    }

    /** The block behind a used block, if free, becomes part of it. */
    method MergeNext(b: Addr, ghost keep: map<Addr, nat>, ghost mem0: map<nat, Byte>)
      requires Sound() && Live(hdr, g, b) && Covers(hdr, keep) && Kept(keep, mem0, mem)
      modifies this`hdr, this`freelist, this`bitmap, this`mem
      ensures Sound() && Live(hdr, g, b) && Next(hdr, b) in hdr && !hdr[Next(hdr, b)].free && Covers(hdr, keep) &&
        Kept(keep, mem0, mem)
      ensures LiveSizes(hdr, g) == old(LiveSizes(hdr, g))[b := hdr[b].size]
      ensures Total(hdr, freelist) + hdr[b].size == Total(old(hdr), old(freelist)) + old(hdr[b].size)
      ensures Next(old(hdr), b) in old(hdr)
      ensures hdr[b].size == old(hdr[b].size) + if old(hdr)[Next(old(hdr), b)].free then
        HEAD + old(hdr)[Next(old(hdr), b)].size else 0
      ensures A() == Grown(old(A()), b)
    {
      hide Blocks, Listed, Total, Kept, LiveSizes, Merged;
      NextFacts(hdr, g, b);
      LiveHere(hdr, g, b);
      var n := Next(hdr, b);
      if hdr[n].free {
        ghost var h := hdr;
        NextFacts(h, g, n);
        JoinFree(b, keep, mem0);
        LiveJoin(h, hdr, g, b);
        LiveWithout(h, g, n);
      }
    }

    /** The block before a used block, if free, takes it over. */
    method MergePrev(b: Addr, ghost keep: map<Addr, nat>, ghost mem0: map<nat, Byte>) returns (c: Addr)
      requires Sound() && Live(hdr, g, b) && Next(hdr, b) in hdr && !hdr[Next(hdr, b)].free
      requires Covers(hdr, keep) && b !in keep && Kept(keep, mem0, mem)
      modifies this`hdr, this`freelist, this`bitmap, this`mem
      ensures Sound() && Live(hdr, g, c) && Next(hdr, c) in hdr && !hdr[Next(hdr, c)].free && !hdr[c].prevFree
      ensures Covers(hdr, keep) && c !in keep && Kept(keep, mem0, mem)
      ensures LiveSizes(hdr, g) - {c} == old(LiveSizes(hdr, g)) - {b}
      ensures Total(hdr, freelist) + hdr[c].size == Total(old(hdr), old(freelist)) + old(hdr[b].size)
      ensures c == (if old(hdr[b].prevFree) then old(hdr[b].prev) else b)
      ensures A() == if old(hdr[b].prevFree) then Merged(TakenFrom(old(A()), c), c) else old(A())
    {
      hide Blocks, Listed, Total, Kept, LiveSizes, Merged, TakenFrom;
      c := b;
      PrevFacts(hdr, g, b);
      if hdr[b].prevFree {
        c := hdr[b].prev;
        ghost var h := hdr;
        PrevFacts(h, g, c);
        NextFacts(h, g, b);
        LiveOccupy(h, g, c);
        LiveWithout(h, g, c);
        TakeBlock(c, keep, mem0);
        ghost var h1 := hdr;
        JoinUsed(c, keep, mem0);
        LiveJoin(h1, hdr, g, c);
      }
    }

    /** `k_mm_free` */
    method Free(ptr: nat)
      requires Valid() && (ptr != 0 ==> ptr >= HEAD && Live(hdr, g, ptr - HEAD))
      modifies this
      ensures Valid() && g == old(g)
      ensures ptr == 0 ==> hdr == old(hdr) && freelist == old(freelist) && mem == old(mem)
      ensures ptr != 0 ==>
        LiveSizes(hdr, g) == old(LiveSizes(hdr, g)) - {ptr - HEAD} && Kept(LiveSizes(hdr, g), old(mem), mem)
      ensures ptr != 0 ==> Total(hdr, freelist) == Total(old(hdr), old(freelist)) + HEAD + old(hdr[ptr - HEAD].size)
      ensures ptr != 0 ==> A() == Freed(old(A()), ptr - HEAD)
      ensures freeSize == if ptr == 0 then old(freeSize) else old(freeSize) + HEAD + old(hdr[ptr - HEAD].size)
    {
      if ptr == 0 {
        return;
      }
      Release(ptr - HEAD);
    }

    method Release(b: Addr)
      requires Valid() && Live(hdr, g, b)
      modifies this
      ensures Valid() && g == old(g) && LiveSizes(hdr, g) == old(LiveSizes(hdr, g)) - {b} &&
        Kept(LiveSizes(hdr, g), old(mem), mem)
      ensures Total(hdr, freelist) == Total(old(hdr), old(freelist)) + HEAD + old(hdr[b].size)
      ensures A() == Freed(old(A()), b)
      ensures freeSize == old(freeSize) + HEAD + old(hdr[b].size)
    {
      hide Blocks, Listed, Total, Kept, LiveSizes, Grown, Merged, TakenFrom, PutBack;
      ghost var keep, mem0 := LiveSizes(hdr, g) - {b}, mem;
      LiveCovered(hdr, g);
      KeptSelf(keep, mem0);
      freeSize := freeSize + HEAD + hdr[b].size;
      MergeNext(b, keep, mem0);
      var c := MergePrev(b, keep, mem0);
      LiveVacate(hdr, g, c);
      PutBlock(c, keep, mem0);
    }

    /** A block changes size where it is: it takes over the free block behind it and gives back what it
        does not need. */
    method Resize(b: Addr, want: nat)
      requires Valid() && Live(hdr, g, b) && want >= MIN_SIZE && want % ALIGN == 0 && FitsHere(hdr, b, want)
      modifies this
      ensures Valid() && g == old(g) && Live(hdr, g, b) && want <= hdr[b].size &&
        LiveSizes(hdr, g) == old(LiveSizes(hdr, g))[b := hdr[b].size]
      ensures Kept(old(LiveSizes(hdr, g))[b := Min(old(hdr[b].size), want)], old(mem), mem)
      ensures want <= old(hdr[b].size) && old(Next(hdr, b) in hdr && hdr[Next(hdr, b)].free) ==>
                hdr[b].size == want && Next(hdr, b) in hdr && hdr[Next(hdr, b)].free
      ensures A() == Fitted(old(A()), b, want) && Snug(hdr, b, want)
      ensures Total(hdr, freelist) + hdr[b].size == Total(old(hdr), old(freelist)) + old(hdr[b].size)
      ensures freeSize == AddSize(old(freeSize) + HEAD + old(hdr[b].size), HEAD + hdr[b].size)
    {
      hide Blocks, Listed, Total, Kept, LiveSizes, Grown, Cut;
      ghost var keep, mem0 := LiveSizes(hdr, g)[b := Min(hdr[b].size, want)], mem;
      NextFacts(hdr, g, b);
      ListedSizes(hdr, g, freelist, bitmap);
      LiveCovered(hdr, g);
      KeptSelf(keep, mem0);
      var oldSize := hdr[b].size;
      MergeNext(b, keep, mem0);
      if hdr[b].size >= want + HEAD + MIN_SIZE {
        ghost var h := hdr;
        CarveBlock(b, want, keep, mem0);
        LiveCarve(h, hdr, g, b, want);
      } else {
        NotCut(A(), b, want);
      }
      Recount(b, oldSize);
    }

    /** `stats_removesize` of the old size and `stats_addsize` of the new one. */
    method Recount(b: Addr, oldSize: nat)
      requires Sound() && b in hdr && Total(hdr, freelist) + hdr[b].size >= oldSize
      requires StatOk(freeSize, Total(hdr, freelist) + hdr[b].size - oldSize)
      modifies this`freeSize
      ensures Valid()
      ensures freeSize == AddSize(old(freeSize) + HEAD + oldSize, HEAD + hdr[b].size)
    {
      hide Blocks, Listed, Total;
      ListedSizes(hdr, g, freelist, bitmap);
      TotalGap(hdr, freelist);
      AddSizeOk(freeSize + HEAD + oldSize, HEAD + hdr[b].size, Total(hdr, freelist));
      freeSize := AddSize(freeSize + HEAD + oldSize, HEAD + hdr[b].size);
    }

    /** A new block, a copy of the bytes, and the old block is released. */
    method Move(b: Addr, want: nat) returns (ptr: nat)
      requires Valid() && Live(hdr, g, b) && MIN_SIZE <= want < SIZE_RANGE && want % ALIGN == 0 && hdr[b].size < want
      modifies this
      ensures Valid() && g == old(g)
      ensures ptr == 0 <==> forall c :: c in old(hdr) && old(hdr)[c].free ==> old(hdr)[c].size < want
      ensures ptr == 0 ==> hdr == old(hdr) && freelist == old(freelist) && mem == old(mem)
      ensures ptr != 0 ==>
        Resized(old(hdr), hdr, g, b, ptr, want) && Copied(old(mem), b + HEAD, mem, ptr, old(hdr[b].size))
      ensures ptr != 0 ==> Kept(old(LiveSizes(hdr, g)) - {b}, old(mem), mem)
      ensures ptr != 0 ==>
        Chosen(old(hdr), old(freelist), want, ptr - HEAD) && A() == Freed(Given(old(A()), ptr - HEAD, want), b) &&
        Snug(hdr, ptr - HEAD, want)
      ensures ptr != 0 ==>
        Total(hdr, freelist) + hdr[ptr - HEAD].size == Total(old(hdr), old(freelist)) + old(hdr[b].size)
    {
      hide Blocks, Listed, Total, LiveSizes, Kept, Copied, CopyBytes, RoundUp, Chosen, Given, Freed;
      RoundUpIdempotent(want);
      ghost var live, mem0, h := LiveSizes(hdr, g), mem, hdr;
      var size := hdr[b].size;
      LiveHere(hdr, g, b);
      ptr := Alloc(want);
      if ptr == 0 {
        return;
      }
      ghost var mem1, h1 := mem, hdr;
      LiveAgain(h1, g, b);
      LiveCovered(h1, g);
      mem := CopyBytes(mem, b + HEAD, ptr, size);
      ghost var mem2 := mem;
      CopyKeeps(h1, g, live, b, ptr - HEAD, size, mem0, mem1);
      Release(b);
      StillCopied(live, LiveSizes(hdr, g), b, ptr, size, mem0, mem2, mem);
      LiveAgain(hdr, g, ptr - HEAD);
    }

    /** `k_mm_realloc` */
    method Realloc(ptr: nat, newSize: nat) returns (r: nat)
      requires Valid() && newSize < SIZE_RANGE && (ptr != 0 ==> ptr >= HEAD && Live(hdr, g, ptr - HEAD))
      modifies this
      ensures Valid() && g == old(g)
      ensures newSize == 0 ==>
        r == 0 && LiveSizes(hdr, g) == old(LiveSizes(hdr, g)) - (if ptr == 0 then {} else {ptr - HEAD}) &&
        A() == if ptr == 0 then old(A()) else Freed(old(A()), ptr - HEAD)
      ensures newSize > 0 && r == 0 ==> A() == old(A()) && mem == old(mem)
      ensures ptr != 0 && r != 0 ==> Reallocated(old(A()), A(), ptr - HEAD, r, RoundUp(newSize))
      ensures ptr != 0 && r != 0 ==>
        Total(hdr, freelist) + hdr[r - HEAD].size == Total(old(hdr), old(freelist)) + old(hdr[ptr - HEAD].size)
      ensures ptr == 0 && r != 0 ==>
        r >= HEAD && Chosen(old(hdr), old(freelist), RoundUp(newSize), r - HEAD) &&
        A() == Given(old(A()), r - HEAD, RoundUp(newSize)) &&
        Snug(hdr, r - HEAD, RoundUp(newSize))
      ensures ptr == 0 && r != 0 ==> Total(old(hdr), old(freelist)) == Total(hdr, freelist) + HEAD + hdr[r - HEAD].size
      ensures newSize > 0 ==> (r == 0 <==> (ptr == 0 || !FitsHere(old(hdr), ptr - HEAD, RoundUp(newSize)))
                                           && forall c :: c in old(hdr) && old(hdr)[c].free ==>
                                              old(hdr)[c].size < RoundUp(newSize))
      ensures ptr != 0 && r != 0 ==> Resized(old(hdr), hdr, g, ptr - HEAD, r, RoundUp(newSize))
      ensures ptr != 0 && r != 0 ==> Copied(old(mem), ptr, mem, r, Min(old(hdr[ptr - HEAD].size), RoundUp(newSize)))
      ensures ptr != 0 && r != 0 ==> Kept(old(LiveSizes(hdr, g)) - {ptr - HEAD}, old(mem), mem)
    {
      hide Blocks, Listed, Total, LiveSizes, RoundUp, Kept, Copied, Chosen, Given, Freed, Fitted;
      if ptr == 0 {
        EmptyLive(LiveSizes(hdr, g));
        if newSize > 0 {
          r := Alloc(newSize);
        } else {
          r := 0;
        }
        return;
      }
      if newSize == 0 {
        Free(ptr);
        return 0;
      }
      var want := RoundUp(newSize);
      RoundUpBound(newSize);
      var b := ptr - HEAD;
      NextFacts(hdr, g, b);
      if want <= hdr[b].size || (hdr[Next(hdr, b)].free && want <= hdr[b].size + HEAD + hdr[Next(hdr, b)].size) {
        ghost var live, size := LiveSizes(hdr, g), hdr[b].size;
        Resize(b, want);
        ResizedHere(live, b, hdr[b].size);
        KeptParts(live, b, Min(size, want), old(mem), mem);
        return ptr;
      }
      r := Move(b, want);
    }

    /** The headers of a new region: its first block, one used block for all of the space, and the last block. */
    static function RegionBlocks(addr: Addr, len: nat): (r: map<Addr, Header>)
      requires len >= REGION_MIN
    {
      var mid, last := addr + HEAD + INFO_SIZE, addr + len - HEAD;
      map[addr := Header(INFO_SIZE, false, false, 0), mid := Header(last - mid - HEAD, false, false, addr),
        last := Header(0, false, false, mid)]
    }

    /** `krhino_add_mm_region` */
    method AddRegion(start: Addr, size: nat) returns (ok: bool)
      requires Valid() && start < SIZE_RANGE && size < SIZE_RANGE
      requires FitLength(start, size) >= REGION_MIN ==> FitLength(start, size) <= MAX_SIZE
      requires FitLength(start, size) >= REGION_MIN ==>
                 forall e :: e in g.ends ==>
                 e + HEAD <= FitStart(start) || FitStart(start) + FitLength(start, size) <= g.ends[e]
      modifies this
      ensures Valid() && (ok <==> FitLength(start, size) >= REGION_MIN)
      ensures !ok ==> unchanged(this)
      ensures ok ==> var addr, len := FitStart(start), FitLength(start, size);
                     && addr + len - HEAD in g.ends && g.ends[addr + len - HEAD] == addr
                     && LiveSizes(hdr, g) == old(LiveSizes(hdr, g)) && Kept(old(LiveSizes(hdr, g)), old(mem), mem)
                     && Total(hdr, freelist) == Total(old(hdr), old(freelist)) + len - 3 * HEAD
                     && A() == Freed(Arena(old(hdr) + RegionBlocks(addr, len), old(freelist)), addr + HEAD + INFO_SIZE)
    {
      hide Blocks, Listed, Total, Kept, LiveSizes, Freed;
      var addr, len := FitStart(start), FitLength(start, size);
      if len < REGION_MIN {
        return false;
      }
      PlaceRegion(addr, len);
      return true;
    }

    /** The part of `krhino_add_mm_region` and of `krhino_init_mm_head` that lays out a region. */
    method PlaceRegion(addr: Addr, len: nat)
      requires Valid() && addr % ALIGN == 0 && len % ALIGN == 0 && REGION_MIN <= len <= MAX_SIZE
      requires forall e :: e in g.ends ==> e + HEAD <= addr || addr + len <= g.ends[e]
      modifies this
      ensures Valid() && addr + len - HEAD in g.ends && g.ends[addr + len - HEAD] == addr
      ensures LiveSizes(hdr, g) == old(LiveSizes(hdr, g)) && Kept(old(LiveSizes(hdr, g)), old(mem), mem)
      ensures Total(hdr, freelist) == Total(old(hdr), old(freelist)) + len - 3 * HEAD
      ensures A() == Freed(Arena(old(hdr) + RegionBlocks(addr, len), old(freelist)), addr + HEAD + INFO_SIZE)
    {
      hide Blocks, Listed, Total, Kept, LiveSizes, Freed;
      ghost var live, mem0 := LiveSizes(hdr, g), mem;
      var mid, last := addr + HEAD + INFO_SIZE, addr + len - HEAD;
      ghost var g' := Regions(g.ends[last := addr], g.firsts + {addr});
      RegionIsNew(hdr, g, addr, len);
      RegionKeeps(hdr, g, addr, len);
      RegionLists(hdr, g, freelist, bitmap, addr, len);
      RegionLive(hdr, g, addr, len);
      KeptSelf(live, mem0);
      hdr, g := hdr + RegionBlocks(addr, len), g';
      LiveCovered(hdr, g);
      KeptRegion(hdr, g, live, mem0, addr, mid, last);
      mem := Written(mem, {addr, mid, last}, []);
      ghost var mem1 := mem;
      Release(mid);
      KeptTwice(live, mem0, mem1, mem);
    }

    /** The rest of `krhino_init_mm_head`: the counter starts without the header of the first free block. */
    method InitHead(addr: Addr, len: nat)
      requires Valid() && hdr == map[] && g.ends == map[] && Total(hdr, freelist) == 0
      requires addr % ALIGN == 0 && len % ALIGN == 0 && REGION_MIN <= len <= MAX_SIZE
      modifies this
      ensures Valid() && freeSize + HEAD == Total(hdr, freelist) == len - 3 * HEAD && LiveSizes(hdr, g) == map[]
    {
      hide Blocks, Listed, Total, Kept;
      PlaceRegion(addr, len);
      freeSize := len - 4 * HEAD;
    }
  }

  lemma RegionIsNew(hdr: map<Addr, Header>, g: Regions, addr: Addr, len: nat)
    requires Blocks(hdr, g) && forall e :: e in g.ends ==> e + HEAD <= addr || addr + len <= g.ends[e]
    ensures forall b :: b in hdr ==> Next(hdr, b) <= addr || addr + len <= b
  {
    hide Blocks;
    forall b | b in hdr
      ensures Next(hdr, b) <= addr || addr + len <= b
    {
      var e := BlockInRegion(hdr, g, b);
    }
  }

  lemma RegionKeeps(hdr: map<Addr, Header>, g: Regions, addr: Addr, len: nat)
    requires Blocks(hdr, g) && addr % ALIGN == 0 && len % ALIGN == 0 && REGION_MIN <= len <= MAX_SIZE
    requires forall b :: b in hdr ==> Next(hdr, b) <= addr || addr + len <= b
    requires forall e :: e in g.ends ==> e + HEAD <= addr || addr + len <= g.ends[e]
    ensures Blocks(hdr + Heap.RegionBlocks(addr, len), Regions(g.ends[addr + len - HEAD := addr], g.firsts + {addr}))
  {
    hide Apart, Sized, Linked, BackLinked, EndsOk, Inside, Flags;
    RegionChain(hdr, g, addr, len);
    RegionFlags(hdr, g, addr, len);
  }

  lemma RegionFlags(hdr: map<Addr, Header>, g: Regions, addr: Addr, len: nat)
    requires Blocks(hdr, g) && REGION_MIN <= len <= MAX_SIZE && forall b :: b in hdr ==>
      Next(hdr, b) <= addr || addr + len <= b
    ensures Flags(hdr + Heap.RegionBlocks(addr, len), Regions(g.ends[addr + len - HEAD := addr], g.firsts + {addr}))
  {
    hide Apart, Sized, BackLinked, EndsOk, Inside;
    var h, g' := hdr + Heap.RegionBlocks(addr, len), Regions(g.ends[addr + len - HEAD := addr], g.firsts + {addr});
    forall b | b in h && b !in g'.ends
      ensures FlagsAt(h, b)
    {
      assert b in hdr ==> LinkedAt(hdr, g, b) && FlagsAt(hdr, b);
    }
  }

  lemma RegionChain(hdr: map<Addr, Header>, g: Regions, addr: Addr, len: nat)
    requires Chain(hdr, g) && addr % ALIGN == 0 && len % ALIGN == 0 && REGION_MIN <= len <= MAX_SIZE
    requires forall b :: b in hdr ==> Next(hdr, b) <= addr || addr + len <= b
    requires forall e :: e in g.ends ==> e + HEAD <= addr || addr + len <= g.ends[e]
    ensures Chain(hdr + Heap.RegionBlocks(addr, len), Regions(g.ends[addr + len - HEAD := addr], g.firsts + {addr}))
  {
    hide Inside, Sized, Linked, BackLinked, EndsOk;
    var h, g' := hdr + Heap.RegionBlocks(addr, len), Regions(g.ends[addr + len - HEAD := addr], g.firsts + {addr});
    RegionLinks(hdr, g, addr, len);
    RegionEnds(hdr, g, addr, len);
    RegionSizes(hdr, g, addr, len);
    assert Apart(h);
  }

  lemma RegionLinks(hdr: map<Addr, Header>, g: Regions, addr: Addr, len: nat)
    requires Chain(hdr, g) && REGION_MIN <= len <= MAX_SIZE && forall b :: b in hdr ==>
      Next(hdr, b) <= addr || addr + len <= b
    requires forall e :: e in g.ends ==> e + HEAD <= addr || addr + len <= g.ends[e]
    ensures var h, g' := hdr + Heap.RegionBlocks(addr, len),
      Regions(g.ends[addr + len - HEAD := addr], g.firsts + {addr});
            Linked(h, g') && BackLinked(h, g')
  {
    hide Apart, Sized, Inside;
    var h, g' := hdr + Heap.RegionBlocks(addr, len), Regions(g.ends[addr + len - HEAD := addr], g.firsts + {addr});
    forall b | b in h
      ensures b !in g'.ends ==> LinkedAt(h, g', b)
      ensures b !in g'.firsts ==> BackAt(h, g', b)
    {
      if b in hdr {
        assert b !in g.ends ==> LinkedAt(hdr, g, b);
        assert b !in g.firsts ==> BackAt(hdr, g, b);
      }
    }
  }

  lemma RegionEnds(hdr: map<Addr, Header>, g: Regions, addr: Addr, len: nat)
    requires Chain(hdr, g) && REGION_MIN <= len <= MAX_SIZE && forall b :: b in hdr ==>
      Next(hdr, b) <= addr || addr + len <= b
    requires forall e :: e in g.ends ==> e + HEAD <= addr || addr + len <= g.ends[e]
    ensures EndsOk(hdr + Heap.RegionBlocks(addr, len), Regions(g.ends[addr + len - HEAD := addr], g.firsts + {addr}))
  {
    hide Linked, BackLinked, Apart, Sized, Inside;
  }

  lemma RegionSizes(hdr: map<Addr, Header>, g: Regions, addr: Addr, len: nat)
    requires Chain(hdr, g) && addr % ALIGN == 0 && len % ALIGN == 0 && REGION_MIN <= len <= MAX_SIZE
    requires forall b :: b in hdr ==> Next(hdr, b) <= addr || addr + len <= b
    ensures var h, g' := hdr + Heap.RegionBlocks(addr, len),
      Regions(g.ends[addr + len - HEAD := addr], g.firsts + {addr});
            Sized(h, g') && Inside(h, g')
  {
    hide Linked, BackLinked, Apart;
    var last := addr + len - HEAD;
    var h, g' := hdr + Heap.RegionBlocks(addr, len), Regions(g.ends[last := addr], g.firsts + {addr});
    forall b | b in h
      ensures SizedAt(h, g', b) && InsideAt(g', b)
    {
      if b in hdr {
        assert SizedAt(hdr, g, b) && InsideAt(g, b);
        var e :| Within(g, e, b);
        assert e in hdr ==> e != last;
        assert Within(g', e, b);
      } else {
        assert Within(g', last, b);
      }
    }
  }

  lemma RegionLists(hdr: map<Addr, Header>, g: Regions, lists: seq<seq<Addr>>, bits: seq<bool>, addr: Addr, len: nat)
    requires Listed(hdr, lists, bits) && REGION_MIN <= len && forall b :: b in hdr ==>
      Next(hdr, b) <= addr || addr + len <= b
    ensures Listed(hdr + Heap.RegionBlocks(addr, len), lists, bits) &&
      Total(hdr + Heap.RegionBlocks(addr, len), lists) == Total(hdr, lists)
  {
    hide NoDup, SizeToLevel;
    TotalSame(hdr, hdr + Heap.RegionBlocks(addr, len), lists);
  }

  lemma RegionLive(hdr: map<Addr, Header>, g: Regions, addr: Addr, len: nat)
    requires REGION_MIN <= len && forall b :: b in hdr ==> Next(hdr, b) <= addr || addr + len <= b
    requires Blocks(hdr, g)
    ensures var h, g', mid := hdr + Heap.RegionBlocks(addr, len),
      Regions(g.ends[addr + len - HEAD := addr], g.firsts + {addr}), addr + HEAD + INFO_SIZE;
            LiveSizes(h, g') - {mid} == LiveSizes(hdr, g) && Live(h, g', mid) && mid !in LiveSizes(hdr, g)
  {
    hide Linked, BackLinked, Apart, Sized, Inside, Flags;
  }

  lemma KeptRegion(hdr: map<Addr, Header>, g: Regions, live: map<Addr, nat>, mem: map<nat, Byte>, addr: Addr, mid: Addr,
      last: Addr)
    requires Blocks(hdr, g) && Covers(hdr, live) && Kept(live, mem, mem) && addr in hdr && mid in hdr && last in hdr
    ensures Kept(live, mem, Written(mem, {addr, mid, last}, []))
  {
    hide Blocks, Kept, Written;
    BlocksApart(hdr, g);
    KeptWritten(hdr, live, mem, mem, {addr, mid, last}, []);
  }

  lemma KeptTwice(live: map<Addr, nat>, mem0: map<nat, Byte>, mem1: map<nat, Byte>, mem2: map<nat, Byte>)
    requires Kept(live, mem0, mem1) && Kept(live, mem1, mem2)
    ensures Kept(live, mem0, mem2)
  {
  }

  lemma LiveAgain(hdr: map<Addr, Header>, g: Regions, b: Addr)
    requires b in LiveSizes(hdr, g)
    ensures Live(hdr, g, b) && hdr[b].size == LiveSizes(hdr, g)[b]
  {
  }

  lemma EmptyLive(live: map<Addr, nat>)
    ensures live - {} == live
  {
  }

  lemma ResizedHere(live: map<Addr, nat>, b: Addr, size: nat)
    ensures (live - {b})[b := size] == live[b := size]
  {
  }

  lemma RoundUpIdempotent(want: nat)
    requires MIN_SIZE <= want < SIZE_RANGE && want % ALIGN == 0
    ensures RoundUp(want) == want
  {
  }

  lemma RoundUpBound(size: nat)
    ensures RoundUp(size) < SIZE_RANGE
  {
  }

  lemma LiveHere(hdr: map<Addr, Header>, g: Regions, b: Addr)
    requires Live(hdr, g, b)
    ensures LiveSizes(hdr, g) == LiveSizes(hdr, g)[b := hdr[b].size]
  {
  }

  lemma LiveWithout(hdr: map<Addr, Header>, g: Regions, n: Addr)
    requires n in hdr && hdr[n].free
    ensures LiveSizes(hdr, g) - {n} == LiveSizes(hdr, g)
  {
  }

  lemma LiveCovered(hdr: map<Addr, Header>, g: Regions)
    ensures Covers(hdr, LiveSizes(hdr, g))
  {
  }

  lemma KeptSelf(keep: map<Addr, nat>, mem: map<nat, Byte>)
    ensures Kept(keep, mem, mem)
  {
  }

  /** The rest of a used block goes onto the list of its level. */
  lemma CarveLists(hdr: map<Addr, Header>, g: Regions, lists: seq<seq<Addr>>, bits: seq<bool>, b: Addr, k: nat)
    requires Blocks(hdr, g) && Listed(hdr, lists, bits) && Live(hdr, g, b) && Next(hdr, b) in hdr &&
      !hdr[Next(hdr, b)].free
    requires k % ALIGN == 0 && MIN_SIZE <= k && k + HEAD + MIN_SIZE <= hdr[b].size
    ensures var l := SizeToLevel(hdr[b].size - k - HEAD); 0 <= l < LEVELS == |lists| == |bits|
    ensures var l, c, h := SizeToLevel(hdr[b].size - k - HEAD), b + HEAD + k, Carve(hdr, b, k);
            && Blocks(h, g) && Listed(h, ListsMore(lists, l, c), bits[l := true])
            && Total(h, ListsMore(lists, l, c)) == Total(hdr, lists) + hdr[b].size - k
            && forall x :: x in ListsMore(lists, l, c)[l] ==> x in h && h[x].free && h[x].size >= LINKS
  {
    hide Blocks, Listed, SizeToLevel, Total;
    NextFacts(hdr, g, b);
    CarveKeeps(hdr, g, b, k);
    var c, h := b + HEAD + k, Carve(hdr, b, k);
    var l := SizeToLevel(hdr[b].size - k - HEAD);
    ListedMembers(hdr, lists, bits);
    ListedMore(hdr, h, lists, bits, c);
    ListedSizes(h, g, ListsMore(lists, l, c), bits[l := true]);
  }

  lemma CarveRoom(hdr: map<Addr, Header>, g: Regions, b: Addr, k: nat, keep: map<Addr, nat>)
    requires Blocks(hdr, g) && Live(hdr, g, b) && Next(hdr, b) in hdr && !hdr[Next(hdr, b)].free && Covers(hdr, keep) &&
      (b in keep ==> keep[b] <= k)
    requires k % ALIGN == 0 && MIN_SIZE <= k && k + HEAD + MIN_SIZE <= hdr[b].size
    ensures var h := Carve(hdr, b, k);
      Apart(h) && Carved(hdr, h, g, b, k) && Covers(h, keep) && b in h && b + HEAD + k in h && Next(hdr, b) in h
  {
    hide Blocks;
    NextFacts(hdr, g, b);
    CarveKeeps(hdr, g, b, k);
    BlocksApart(Carve(hdr, b, k), g);
  }

  lemma BlocksApart(hdr: map<Addr, Header>, g: Regions)
    requires Blocks(hdr, g)
    ensures Apart(hdr)
  {
  }

  lemma {:induction false} TotalNone(lists: seq<seq<Addr>>)
    requires forall l :: 0 <= l < |lists| ==> lists[l] == []
    ensures Total(map[], lists) == 0
  {
    if lists != [] {
      TotalNone(lists[1..]);
    }
  }

  // ----- Whole runs -----

  datatype Request = Malloc(size: nat) | FreeBlock(ptr: nat) | ReallocBlock(ptr: nat, size: nat)

  /** `held` are the pointers to the blocks callers hold. */
  ghost predicate HeldBy(h: Heap, held: set<nat>)
    reads h
  {
    forall p: nat :: p in held <==> p >= HEAD && p - HEAD in LiveSizes(h.hdr, h.g)
  }

  /** What one request does to the blocks, with its answer. Callers pass back only pointers they hold, and sizes are
      32-bit; other requests are ignored. */
  ghost predicate Served(r: Request, a: Arena, a': Arena, g: Regions, p: nat) {
    match r
    case Malloc(size) =>
      && (p == 0 <==> size == 0 || NoneFits(a.hdr, RoundUp(size)))
      && if p == 0 then a' == a else Handed(a, a', g, p, RoundUp(size))
    case FreeBlock(ptr) => p == 0 && if InUse(a.hdr, g, ptr) then Returned(a, a', g, ptr - HEAD) else a' == a
    case ReallocBlock(ptr, size) =>
      if !InUse(a.hdr, g, ptr) || size >= SIZE_RANGE then p == 0 && a' == a
      else if size == 0 then p == 0 && Returned(a, a', g, ptr - HEAD)
      else
        && (p == 0 <==> !FitsHere(a.hdr, ptr - HEAD, RoundUp(size)) && NoneFits(a.hdr, RoundUp(size)))
        && if p == 0 then a' == a
           else Resized(a.hdr, a'.hdr, g, ptr - HEAD, p, RoundUp(size)) &&
                Reallocated(a, a', ptr - HEAD, p, RoundUp(size))
  }

  ghost predicate NoneFits(hdr: map<Addr, Header>, want: nat) {
    forall b :: b in hdr && hdr[b].free ==> hdr[b].size < want
  }

  /** The block is free, and all others in use are as they were. */
  ghost predicate Returned(a: Arena, a': Arena, g: Regions, b: Addr) {
    LiveSizes(a'.hdr, g) == LiveSizes(a.hdr, g) - {b} && a' == Freed(a, b)
  }

  ghost predicate InUse(hdr: map<Addr, Header>, g: Regions, ptr: nat) {
    ptr >= HEAD && Live(hdr, g, ptr - HEAD)
  }

  /** A block that was not in use is now, and all others are as they were. */
  ghost predicate Handed(a: Arena, a': Arena, g: Regions, p: nat, want: nat) {
    && InUse(a'.hdr, g, p) && Snug(a'.hdr, p - HEAD, want) && Chosen(a.hdr, a.lists, want, p - HEAD)
    && a' == Given(a, p - HEAD, want) && p - HEAD !in LiveSizes(a.hdr, g)
    && LiveSizes(a'.hdr, g) == LiveSizes(a.hdr, g)[p - HEAD := a'.hdr[p - HEAD].size]
  }

  method Serve(h: Heap, r: Request, held: set<nat>) returns (p: nat, held': set<nat>)
    requires h.Valid() && HeldBy(h, held)
    modifies h
    ensures h.Valid() && HeldBy(h, held') && h.g == old(h.g) && Served(r, old(h.A()), h.A(), h.g, p)
  {
    hide Blocks, Listed, Total, Kept, Copied, Chosen, Given, Freed, Fitted;
    p, held' := 0, held;
    match r
    case Malloc(size) =>
      p := h.Alloc(size);
      held' := if p == 0 then held else held + {p};
    case FreeBlock(ptr) =>
      if ptr in held {
        h.Free(ptr);
        held' := held - {ptr};
      }
    case ReallocBlock(ptr, size) =>
      if ptr in held && size < SIZE_RANGE {
        p := h.Realloc(ptr, size);
        held' := if p != 0 then held - {ptr} + {p} else if size == 0 then held - {ptr} else held;
      }
  }

  /** The blocks in use do not overlap. */
  ghost predicate Disjoint(sizes: map<Addr, nat>) {
    forall b, c :: b in sizes && c in sizes && b < c ==> b + HEAD + sizes[b] <= c
  }

  lemma LiveDisjoint(hdr: map<Addr, Header>, g: Regions)
    requires Blocks(hdr, g)
    ensures Disjoint(LiveSizes(hdr, g))
  {
    BlocksApart(hdr, g);
  }

  /** Whatever callers ask for, in whatever order: each request gets exactly the answer it should, and at no time do
      blocks in use overlap. `past` holds the block headers before each request and at the end. */
  method Session(addr: Addr, len: nat, requests: seq<Request>)
      returns (h: Heap, answers: seq<nat>, ghost past: seq<Arena>)
    requires addr % ALIGN == 0 && len % ALIGN == 0 && REGION_MIN <= len <= MAX_SIZE
    ensures fresh(h) && h.Valid() && |past| == |requests| + 1 && |answers| == |requests| && past[|requests|] == h.A()
    ensures LiveSizes(past[0].hdr, h.g) == map[] && Total(past[0].hdr, past[0].lists) == len - 3 * HEAD
    ensures forall i :: 0 <= i < |requests| ==> Served(requests[i], past[i], past[i + 1], h.g, answers[i])
    ensures forall i :: 0 <= i <= |requests| ==> Blocks(past[i].hdr, h.g) && Disjoint(LiveSizes(past[i].hdr, h.g))
  {
    hide Blocks, Listed, Total, Kept, Served, Disjoint, LiveSizes;
    h := new Heap();
    h.InitHead(addr, len);
    var held := {};
    answers, past := [], [h.A()];
    NoneHeld(h);
    LiveDisjoint(h.hdr, h.g);
    for i := 0 to |requests|
      invariant fresh(h) && h.Valid() && HeldBy(h, held) && |past| == i + 1 && |answers| == i && past[i] == h.A() &&
        LiveSizes(past[0].hdr, h.g) == map[] && Total(past[0].hdr, past[0].lists) == len - 3 * HEAD
      invariant forall j :: 0 <= j < i ==> Served(requests[j], past[j], past[j + 1], h.g, answers[j])
      invariant forall j :: 0 <= j <= i ==> Blocks(past[j].hdr, h.g) && Disjoint(LiveSizes(past[j].hdr, h.g))
    {
      var p;
      p, held := Serve(h, requests[i], held);
      LiveDisjoint(h.hdr, h.g);
      answers, past := answers + [p], past + [h.A()];
    }
  }

  lemma NoneHeld(h: Heap)
    requires LiveSizes(h.hdr, h.g) == map[]
    ensures HeldBy(h, {})
  {
  }
}
