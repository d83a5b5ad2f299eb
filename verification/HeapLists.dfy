/** The free lists of the heap, one per size level, and the bitmap of the levels in use. */
module HeapLists {
  import opened Lists
  import opened HeapBlocks

  /** `MM_MIN_BIT`, `MM_MAX_BIT` and `MM_BIT_LEVEL` */
  const MIN_BIT: nat := 6
  const MAX_BIT: nat := 28
  const LEVELS: nat := MAX_BIT - MIN_BIT + 2

  /** The number of bits of `n` up to the highest one: 32 minus the leading zeros of a 32-bit word. */
  function BitLength(n: nat): (r: nat) {
    if n == 0 then 0 else 1 + BitLength(n / 2)
  }

  /** `size_to_level` */
  function SizeToLevel(size: nat): (r: int) {
    if size >= 0x8000_0000 then -1
    else if BitLength(size) < MIN_BIT then 0
    else if BitLength(size) > MAX_BIT then -1
    else BitLength(size) - MIN_BIT
  }

  function Power2(k: nat): (r: nat)
    ensures r > 0
  {
    if k == 0 then 1 else 2 * Power2(k - 1)
  }

  lemma {:induction false} BitLengthMeaning(n: nat, k: nat)
    ensures BitLength(n) <= k <==> n < Power2(k)
  {
    if n > 0 && k > 0 {
      BitLengthMeaning(n / 2, k - 1);
    }
  }

  lemma Powers()
    ensures Power2(MIN_BIT - 1) == 32 && Power2(MIN_BIT) == 64 && Power2(MAX_BIT) == MAX_SIZE
  {
    assert Power2(8) == 256;
    assert Power2(16) == 0x1_0000;
    assert Power2(24) == 0x100_0000;
  }

  /** Level N above 0 holds the sizes from 2^(N+5) up to 2^(N+6), one bit below what the comment in the source says;
      level 0 holds everything smaller, and sizes of 2^28 and more have no level. */
  lemma LevelMeaning(size: nat)
    ensures SizeToLevel(size) == -1 <==> size >= MAX_SIZE
    ensures SizeToLevel(size) == 0 <==> size < Power2(MIN_BIT)
    ensures SizeToLevel(size) > 0 ==>
      Power2(SizeToLevel(size) + MIN_BIT - 1) <= size < Power2(SizeToLevel(size) + MIN_BIT)
    ensures -1 <= SizeToLevel(size) < LEVELS - 1
  {
    Powers();
    BitLengthMeaning(size, MAX_BIT);
    BitLengthMeaning(size, MIN_BIT);
    BitLengthMeaning(size, MIN_BIT - 1);
    if SizeToLevel(size) > 0 {
      BitLengthMeaning(size, SizeToLevel(size) + MIN_BIT);
      BitLengthMeaning(size, SizeToLevel(size) + MIN_BIT - 1);
    }
  }

  lemma {:induction false} BitLengthGrows(a: nat, b: nat)
    requires a <= b
    ensures BitLength(a) <= BitLength(b)
  {
    if a > 0 {
      BitLengthGrows(a / 2, b / 2);
    }
  }

  /** A larger level means a larger block. */
  lemma LevelGrows(a: nat, b: nat)
    requires a <= b < MAX_SIZE
    ensures 0 <= SizeToLevel(a) <= SizeToLevel(b) < LEVELS
  {
    BitLengthGrows(a, b);
    LevelMeaning(a);
    LevelMeaning(b);
  }

  // ----- Lists -----

  /** Each free block is in exactly the list of its level, and a bit is set if and only if its list is not empty. */
  ghost predicate Listed(hdr: map<Addr, Header>, lists: seq<seq<Addr>>, bits: seq<bool>) {
    && |lists| == |bits| == LEVELS
    && (forall l :: 0 <= l < LEVELS ==> NoDup(lists[l]) && (bits[l] <==> lists[l] != []))
    && (forall l, b :: 0 <= l < LEVELS && b in lists[l] ==> b in hdr && hdr[b].free && SizeToLevel(hdr[b].size) == l)
    && (forall b :: b in hdr && hdr[b].free ==>
       0 <= SizeToLevel(hdr[b].size) < LEVELS && b in lists[SizeToLevel(hdr[b].size)])
  }

  /** The same blocks are free, with the same sizes. */
  ghost predicate SameFree(hdr: map<Addr, Header>, hdr': map<Addr, Header>, x: Addr) {
    forall b :: b != x ==>
      (b in hdr && hdr[b].free <==> b in hdr' && hdr'[b].free) &&
      (b in hdr && hdr[b].free ==> hdr'[b].size == hdr[b].size)
  }

  lemma ListedSame(hdr: map<Addr, Header>, hdr': map<Addr, Header>, lists: seq<seq<Addr>>, bits: seq<bool>, x: Addr)
    requires Listed(hdr, lists, bits) && SameFree(hdr, hdr', x) && (x in hdr ==> !hdr[x].free) &&
      (x in hdr' ==> !hdr'[x].free)
    ensures Listed(hdr', lists, bits) && Total(hdr', lists) == Total(hdr, lists)
  {
    hide NoDup;
    TotalSame(hdr, hdr', lists);
  }

  function ListsLess(lists: seq<seq<Addr>>, l: nat, x: Addr): seq<seq<Addr>>
    requires l < |lists|
  {
    lists[l := Remove(lists[l], x)]
  }

  function BitsLess(lists: seq<seq<Addr>>, bits: seq<bool>, l: nat, x: Addr): seq<bool>
    requires l < |lists| && l < |bits|
  {
    bits[l := Remove(lists[l], x) != []]
  }

  function ListsMore(lists: seq<seq<Addr>>, l: nat, x: Addr): seq<seq<Addr>>
    requires l < |lists|
  {
    lists[l := [x] + lists[l]]
  }

  /** `k_mm_freelist_delete` */
  lemma ListedLess(hdr: map<Addr, Header>, hdr': map<Addr, Header>, lists: seq<seq<Addr>>, bits: seq<bool>, x: Addr)
    requires Listed(hdr, lists, bits) && SameFree(hdr, hdr', x) && x in hdr && hdr[x].free &&
      (x in hdr' ==> !hdr'[x].free)
    ensures 0 <= SizeToLevel(hdr[x].size) < LEVELS
    ensures Listed(hdr', ListsLess(lists, SizeToLevel(hdr[x].size), x),
      BitsLess(lists, bits, SizeToLevel(hdr[x].size), x))
    ensures Total(hdr, lists) == Total(hdr', ListsLess(lists, SizeToLevel(hdr[x].size), x)) + HEAD + hdr[x].size
  {
    hide NoDup, Remove, Total;
    var l := SizeToLevel(hdr[x].size);
    var q := Remove(lists[l], x);
    RemoveMembers(lists[l], x);
    TotalUpdated(hdr, lists, l, q);
    ListTotalLess(hdr, lists[l], x);
    TotalSame(hdr, hdr', lists[l := q]);
  }

  /** `k_mm_freelist_insert` */
  lemma ListedMore(hdr: map<Addr, Header>, hdr': map<Addr, Header>, lists: seq<seq<Addr>>, bits: seq<bool>, x: Addr)
    requires Listed(hdr, lists, bits) && SameFree(hdr, hdr', x) && x in hdr' && hdr'[x].free &&
      (x in hdr ==> !hdr[x].free) && hdr'[x].size < MAX_SIZE
    ensures 0 <= SizeToLevel(hdr'[x].size) < LEVELS
    ensures Listed(hdr', ListsMore(lists, SizeToLevel(hdr'[x].size), x), bits[SizeToLevel(hdr'[x].size) := true])
    ensures Total(hdr', ListsMore(lists, SizeToLevel(hdr'[x].size), x)) == Total(hdr, lists) + HEAD + hdr'[x].size
  {
    hide Total, SizeToLevel, Listed;
    LevelMeaning(hdr'[x].size);
    var l := SizeToLevel(hdr'[x].size);
    MoreIsListed(hdr, hdr', lists, bits, x, l);
    ListedMembers(hdr, lists, bits);
    TotalSame(hdr, hdr', lists);
    var q := [x] + lists[l];
    TotalUpdated(hdr', lists, l, q);
    assert q[1..] == lists[l];
  }

  lemma ListedMembers(hdr: map<Addr, Header>, lists: seq<seq<Addr>>, bits: seq<bool>)
    requires Listed(hdr, lists, bits)
    ensures |lists| == |bits| == LEVELS && forall l, b :: 0 <= l < LEVELS && b in lists[l] ==> b in hdr && hdr[b].free
  {
    hide NoDup, SizeToLevel;
  }

  lemma MoreIsListed(hdr: map<Addr, Header>, hdr': map<Addr, Header>, lists: seq<seq<Addr>>, bits: seq<bool>, x: Addr,
      l: nat)
    requires Listed(hdr, lists, bits) && SameFree(hdr, hdr', x) && x in hdr' && hdr'[x].free &&
      (x in hdr ==> !hdr[x].free)
    requires l == SizeToLevel(hdr'[x].size) < LEVELS
    ensures Listed(hdr', ListsMore(lists, l, x), bits[l := true])
  {
    hide SizeToLevel;
    NoDupAppend(lists[l], x);
    hide NoDup;
  }

  // ----- The free bytes, headers included -----

  ghost function ListTotal(hdr: map<Addr, Header>, q: seq<Addr>): nat {
    if q == [] then 0 else (if q[0] in hdr then HEAD + hdr[q[0]].size else 0) + ListTotal(hdr, q[1..])
  }

  ghost function Total(hdr: map<Addr, Header>, lists: seq<seq<Addr>>): nat {
    if lists == [] then 0 else ListTotal(hdr, lists[0]) + Total(hdr, lists[1..])
  }

  lemma {:induction false} ListTotalSame(hdr: map<Addr, Header>, hdr': map<Addr, Header>, q: seq<Addr>)
    requires forall b :: b in q ==> b in hdr && b in hdr' && hdr'[b].size == hdr[b].size
    ensures ListTotal(hdr', q) == ListTotal(hdr, q)
  {
    if q != [] {
      assert q[0] in q;
      ListTotalSame(hdr, hdr', q[1..]);
    }
  }

  lemma {:induction false} TotalSame(hdr: map<Addr, Header>, hdr': map<Addr, Header>, lists: seq<seq<Addr>>)
    requires forall l, b :: 0 <= l < |lists| && b in lists[l] ==> b in hdr && b in hdr' && hdr'[b].size == hdr[b].size
    ensures Total(hdr', lists) == Total(hdr, lists)
  {
    if lists != [] {
      ListTotalSame(hdr, hdr', lists[0]);
      TotalSame(hdr, hdr', lists[1..]);
    }
  }

  lemma {:induction false} TotalUpdated(hdr: map<Addr, Header>, lists: seq<seq<Addr>>, l: nat, q: seq<Addr>)
    requires l < |lists|
    ensures Total(hdr, lists[l := q]) + ListTotal(hdr, lists[l]) == Total(hdr, lists) + ListTotal(hdr, q)
  {
    if l > 0 {
      TotalUpdated(hdr, lists[1..], l - 1, q);
      assert lists[l := q][1..] == lists[1..][l - 1 := q];
    } else {
      assert lists[l := q][1..] == lists[1..];
    }
  }

  lemma {:induction false} ListTotalLess(hdr: map<Addr, Header>, q: seq<Addr>, x: Addr)
    requires x in q && x in hdr
    ensures ListTotal(hdr, q) == ListTotal(hdr, Remove(q, x)) + HEAD + hdr[x].size
  {
    if q[0] != x {
      ListTotalLess(hdr, q[1..], x);
      assert Remove(q, x)[1..] == Remove(q[1..], x);
    }
  }

  // ----- Searching -----

  /** `find_up_level`: the first list in use above a level. */
  method FindUpLevel(bits: seq<bool>, level: nat) returns (l: nat)
    requires |bits| == LEVELS && level < LEVELS
    ensures level < l <= LEVELS && (l < LEVELS ==> bits[l]) && forall j :: level < j < l ==> !bits[j]
  {
    l := level + 1;
    while l < LEVELS && !bits[l]
      invariant level < l <= LEVELS && forall j :: level < j < l ==> !bits[j]
    {
      l := l + 1;
    }
  }

  /** The first block of a list that is large enough. */
  method FirstFit(hdr: map<Addr, Header>, q: seq<Addr>, size: nat) returns (k: nat)
    requires forall b :: b in q ==> b in hdr
    ensures k <= |q| && (k < |q| ==> hdr[q[k]].size >= size) && forall j :: 0 <= j < k ==> hdr[q[j]].size < size
  {
    k := 0;
    while k < |q| && hdr[q[k]].size < size
      invariant k <= |q| && forall j :: 0 <= j < k ==> hdr[q[j]].size < size
    {
      k := k + 1;
    }
  }

  /** The first block of a list that is large enough. */
  ghost predicate FirstFitting(hdr: map<Addr, Header>, q: seq<Addr>, size: nat, b: Addr) {
    exists k :: FitsAt(hdr, q, size, k) && q[k] == b
  }

  ghost predicate FitsAt(hdr: map<Addr, Header>, q: seq<Addr>, size: nat, k: int) {
    && 0 <= k < |q| && q[k] in hdr && hdr[q[k]].size >= size
    && forall j :: 0 <= j < k ==> q[j] in hdr && hdr[q[j]].size < size
  }

  /** The first block of the first list in use above a level. */
  ghost predicate FirstAbove(lists: seq<seq<Addr>>, level: nat, b: Addr) {
    exists l :: InUseAbove(lists, level, l) && lists[l][0] == b
  }

  ghost predicate InUseAbove(lists: seq<seq<Addr>>, level: nat, l: int) {
    level < l < |lists| && lists[l] != [] && forall j :: level < j < l ==> lists[j] == []
  }

  /** Which block is handed out: the first that is large enough among those of the same level, or else the first of a
      higher level. */
  ghost predicate Chosen(hdr: map<Addr, Header>, lists: seq<seq<Addr>>, size: nat, b: Addr) {
    && 0 <= SizeToLevel(size) < |lists|
    && (|| FirstFitting(hdr, lists[SizeToLevel(size)], size, b)
        || ((forall c :: c in lists[SizeToLevel(size)] ==> c in hdr && hdr[c].size < size) &&
            FirstAbove(lists, SizeToLevel(size), b)))
  }

  datatype Found = NotFound | At(b: Addr)

  /** The search of `k_mm_alloc` refines a search over all free blocks. */
  method Search(hdr: map<Addr, Header>, lists: seq<seq<Addr>>, bits: seq<bool>, size: nat) returns (r: Found)
    requires Listed(hdr, lists, bits) && forall b :: b in hdr && hdr[b].free ==> hdr[b].size < MAX_SIZE
    ensures r == NotFound <==> forall b :: b in hdr && hdr[b].free ==> hdr[b].size < size
    ensures r.At? ==> r.b in hdr && hdr[r.b].free && hdr[r.b].size >= size && Chosen(hdr, lists, size, r.b)
  {
    hide NoDup, SizeToLevel;
    LevelMeaning(size);
    var level := SizeToLevel(size);
    if level == -1 {
      return NotFound;
    }
    var k := FirstFit(hdr, lists[level], size);
    if k < |lists[level]| {
      assert lists[level][k] in lists[level];
      assert FitsAt(hdr, lists[level], size, k);
      return At(lists[level][k]);
    }
    var l := FindUpLevel(bits, level);
    forall b | b in hdr && hdr[b].free && hdr[b].size >= size
      ensures l < LEVELS
    {
      LevelGrows(size, hdr[b].size);
    }
    if l == LEVELS {
      return NotFound;
    }
    var b := lists[l][0];
    assert b in lists[l];
    assert InUseAbove(lists, level, l);
    if hdr[b].size < size {
      LevelGrows(hdr[b].size, size);
    }
    return At(b);
  }

  /** `krhino_mm_max_free_size_get`: the largest block of the highest level in use. */
  method MaxFreeSize(hdr: map<Addr, Header>, lists: seq<seq<Addr>>, bits: seq<bool>) returns (max: nat)
    requires Listed(hdr, lists, bits) && forall b :: b in hdr && hdr[b].free ==> hdr[b].size < MAX_SIZE
    ensures forall b :: b in hdr && hdr[b].free ==> hdr[b].size <= max
    ensures (forall b :: b in hdr ==> !hdr[b].free) ==> max == 0
    ensures (exists b :: b in hdr && hdr[b].free) ==> exists b :: b in hdr && hdr[b].free && hdr[b].size == max
  {
    hide NoDup, SizeToLevel;
    var top: nat := LEVELS;
    while top > 0 && !bits[top - 1]
      invariant top <= LEVELS && forall j :: top <= j < LEVELS ==> !bits[j]
    {
      top := top - 1;
    }
    max := 0;
    if top == 0 {
      return;
    }
    var q := lists[top - 1];
    max := LargestOf(hdr, q);
    forall b | b in hdr && hdr[b].free
      ensures hdr[b].size <= max
    {
      if hdr[b].size > max {
        LevelGrows(hdr[q[0]].size, hdr[b].size);
      }
    }
    var b :| b in q && hdr[b].size == max;
    assert b in hdr && hdr[b].free;
  }

  method LargestOf(hdr: map<Addr, Header>, q: seq<Addr>) returns (max: nat)
    requires q != [] && forall b :: b in q ==> b in hdr
    ensures forall b :: b in q ==> hdr[b].size <= max
    ensures exists b :: b in q && hdr[b].size == max
  {
    max := 0;
    ghost var at := q[0];
    for i := 0 to |q|
      invariant forall b :: b in q[..i] ==> hdr[b].size <= max
      invariant at in q && (i > 0 ==> hdr[at].size == max) && (i == 0 ==> max == 0)
    {
      assert q[..i + 1] == q[..i] + [q[i]];
      if max < hdr[q[i]].size || i == 0 {
        at := q[i];
      }
      if max < hdr[q[i]].size {
        max := hdr[q[i]].size;
      }
    }
    assert q[..|q|] == q;
  }
}
