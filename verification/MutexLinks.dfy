/** The mutex lists as the source links them: a head in every task, a successor in every mutex. The links of a mutex
    that was released, and the head of a task that was deleted, are not reset; this module says what can be found
    along them. */
module MutexLinks {
  import opened KernelTypes
  import opened Lists
  import opened KernelState

  type Links = map<Obj, Option<Obj>>
  type Heads = map<Task, Option<Obj>>

  /** From `h` the links lead through exactly `ms`. */
  ghost predicate Chain(h: Option<Obj>, next: Links, ms: seq<Obj>)
    decreases |ms|
  {
    if ms == [] then h.None? else h == Some(ms[0]) && ms[0] in next && Chain(next[ms[0]], next, ms[1..])
  }

  lemma {:induction false} ChainUnique(h: Option<Obj>, next: Links, a: seq<Obj>, b: seq<Obj>)
    requires Chain(h, next, a) && Chain(h, next, b)
    ensures a == b
    decreases |a|
  {
    if a != [] {
      ChainUnique(next[a[0]], next, a[1..], b[1..]);
      assert a == [a[0]] + a[1..] && b == [b[0]] + b[1..];
    }
  }

  lemma {:induction false} ChainFrom(h: Option<Obj>, next: Links, ms: seq<Obj>, i: nat)
    requires Chain(h, next, ms) && i < |ms|
    ensures ms[i] in next && Chain(Some(ms[i]), next, ms[i..]) && Chain(next[ms[i]], next, ms[i + 1..])
    decreases i
  {
    if i > 0 {
      ChainFrom(next[ms[0]], next, ms[1..], i - 1);
      assert ms[1..][i - 1..] == ms[i..] && ms[1..][i..] == ms[i + 1..];
    } else {
      assert ms[0..] == ms;
    }
  }

  /** What ends has no loop. */
  lemma {:induction false} ChainNoDup(h: Option<Obj>, next: Links, ms: seq<Obj>)
    requires Chain(h, next, ms)
    ensures NoDup(ms)
    decreases |ms|
  {
    if ms != [] {
      ChainNoDup(next[ms[0]], next, ms[1..]);
      if i :| 0 < i < |ms| && ms[i] == ms[0] {
        ChainFrom(h, next, ms, i);
        ChainUnique(h, next, ms, ms[i..]);
        assert false;
      }
      forall i, j | 0 <= i < j < |ms|
        ensures ms[i] != ms[j]
      {
        if i > 0 {
          assert ms[1..][i - 1] == ms[i] && ms[1..][j - 1] == ms[j];
        }
      }
    }
  }

  lemma {:induction false} ChainFrame(h: Option<Obj>, next: Links, next': Links, ms: seq<Obj>)
    requires Chain(h, next, ms) && forall m :: m in ms && m in next ==> m in next' && next'[m] == next[m]
    ensures Chain(h, next', ms)
    decreases |ms|
  {
    if ms != [] {
      assert ms[0] in ms;
      ChainFrame(next[ms[0]], next, next', ms[1..]);
    }
  }

  lemma ChainPush(h: Option<Obj>, next: Links, ms: seq<Obj>, m: Obj)
    requires Chain(h, next, ms) && m !in ms
    ensures Chain(Some(m), next[m := h], [m] + ms)
  {
    ChainFrame(h, next, next[m := h], ms);
    assert ([m] + ms)[1..] == ms;
  }

  /** The links lead from `h` through `ms`, wherever they go from there. */
  ghost predicate Leads(h: Option<Obj>, next: Links, ms: seq<Obj>)
    decreases |ms|
  {
    ms == [] || (h == Some(ms[0]) && ms[0] in next && Leads(next[ms[0]], next, ms[1..]))
  }

  lemma {:induction false} ChainLeads(h: Option<Obj>, next: Links, a: seq<Obj>, b: seq<Obj>)
    requires Chain(h, next, a + b)
    ensures Leads(h, next, a)
    decreases |a|
  {
    if a != [] {
      assert (a + b)[1..] == a[1..] + b;
      ChainLeads(next[a[0]], next, a[1..], b);
    }
  }

  /** The link of the last mutex may change. */
  lemma {:induction false} LeadsFrame(h: Option<Obj>, next: Links, next': Links, ms: seq<Obj>)
    requires Leads(h, next, ms) && next.Keys <= next'.Keys && forall i :: 0 <= i < |ms| - 1 ==>
      ms[i] in next && next'[ms[i]] == next[ms[i]]
    ensures Leads(h, next', ms)
    decreases |ms|
  {
    if |ms| > 1 {
      forall i | 0 <= i < |ms[1..]| - 1
        ensures ms[1..][i] in next && next'[ms[1..][i]] == next[ms[1..][i]]
      {
        assert ms[1..][i] == ms[i + 1];
      }
      LeadsFrame(next[ms[0]], next, next', ms[1..]);
    } else if |ms| == 1 {
      assert ms[1..] == [];
    }
  }

  lemma {:induction false} LedInto(h: Option<Obj>, next: Links, ms: seq<Obj>, all: seq<Obj>)
    requires Leads(h, next, ms) && Chain(h, next, all)
    ensures forall m :: m in ms ==> m in all
    decreases |ms|
  {
    if ms != [] {
      LedInto(next[ms[0]], next, ms[1..], all[1..]);
      forall m | m in ms
        ensures m in all
      {
        assert m == ms[0] || m in ms[1..];
      }
    }
  }

  // ----- Live tasks -----

  predicate OwnedNow(objs: map<Obj, Object>, owner: map<Obj, Task>, m: Obj) {
    m in objs && objs[m].Mutex? && m in owner
  }

  /** The links of `t` are its list, and it owns what is on it. */
  ghost predicate LinkAt(t: Task, held: map<Task, seq<Obj>>, head: Heads, next: Links, objs: map<Obj, Object>,
      owner: map<Obj, Task>)
    requires t in held
  {
    t in head && Chain(head[t], next, held[t]) && forall m :: m in held[t] ==> OwnedNow(objs, owner, m) && owner[m] == t
  }

  ghost predicate LinksOk(held: map<Task, seq<Obj>>, head: Heads, next: Links, dead: set<Task>, objs: map<Obj, Object>,
      owner: map<Obj, Task>) {
    held.Keys == head.Keys && forall t :: t in held && t !in dead ==> LinkAt(t, held, head, next, objs, owner)
  }

  /** `m` is on no list. */
  ghost predicate Absent(held: map<Task, seq<Obj>>, dead: set<Task>, m: Obj) {
    forall t :: t in held && t !in dead ==> m !in held[t]
  }

  lemma AbsentIf(held: map<Task, seq<Obj>>, head: Heads, next: Links, dead: set<Task>, objs: map<Obj, Object>,
      owner: map<Obj, Task>, m: Obj)
    requires LinksOk(held, head, next, dead, objs, owner)
    requires OwnedNow(objs, owner, m) && owner[m] in held && owner[m] !in dead ==> m !in held[owner[m]]
    ensures Absent(held, dead, m)
  {
    forall t | t in held && t !in dead
      ensures m !in held[t]
    {
      assert LinkAt(t, held, head, next, objs, owner);
    }
  }

  /** `t` gets a mutex that is on no list. */
  lemma LinksPushed(held: map<Task, seq<Obj>>, head: Heads, next: Links, dead: set<Task>, objs: map<Obj, Object>,
      owner: map<Obj, Task>, t: Task, m: Obj)
    requires LinksOk(held, head, next, dead, objs, owner) && Absent(held, dead, m) && t in held && t !in dead &&
      m in objs && objs[m].Mutex?
    ensures t in head &&
      LinksOk(held[t := [m] + held[t]], head[t := Some(m)], next[m := head[t]], dead, objs, owner[m := t])
  {
    var held', head', next', owner' := held[t := [m] + held[t]], head[t := Some(m)], next[m := head[t]], owner[m := t];
    forall u | u in held' && u !in dead
      ensures LinkAt(u, held', head', next', objs, owner')
    {
      assert LinkAt(u, held, head, next, objs, owner);
      if u == t {
        ChainPush(head[t], next, held[t], m);
      } else {
        ChainFrame(head[u], next, next', held[u]);
      }
    }
  }

  /** Something happens to a mutex that is on no list. */
  lemma LinksAside(held: map<Task, seq<Obj>>, head: Heads, next: Links, next': Links, dead: set<Task>,
      objs: map<Obj, Object>, owner: map<Obj, Task>,
                   objs': map<Obj, Object>, owner': map<Obj, Task>, m: Obj)
    requires LinksOk(held, head, next, dead, objs, owner) && Absent(held, dead, m)
    requires forall x :: x != m && OwnedNow(objs, owner, x) ==> OwnedNow(objs', owner', x) && owner'[x] == owner[x]
    requires forall x :: x in next && x != m ==> x in next' && next'[x] == next[x]
    ensures LinksOk(held, head, next', dead, objs', owner')
  {
    forall u | u in held && u !in dead
      ensures LinkAt(u, held, head, next', objs', owner')
    {
      assert LinkAt(u, held, head, next, objs, owner);
      ChainFrame(head[u], next, next', held[u]);
    }
  }

  lemma LinksBorn(held: map<Task, seq<Obj>>, head: Heads, next: Links, dead: set<Task>, objs: map<Obj, Object>,
      owner: map<Obj, Task>, t: Task)
    requires LinksOk(held, head, next, dead, objs, owner)
    ensures LinksOk(held[t := []], head[t := None], next, dead - {t}, objs, owner)
  {
    var held', head' := held[t := []], head[t := None];
    forall u | u in held' && u !in dead - {t}
      ensures LinkAt(u, held', head', next, objs, owner)
    {
      if u != t {
        assert LinkAt(u, held, head, next, objs, owner);
      }
    }
  }

  lemma LinksDied(held: map<Task, seq<Obj>>, head: Heads, next: Links, dead: set<Task>, objs: map<Obj, Object>,
      owner: map<Obj, Task>, t: Task)
    requires LinksOk(held, head, next, dead, objs, owner)
    ensures LinksOk(held, head, next, dead + {t}, objs, owner)
  {
  }

  /** Only the heads of `ts` and the links of `ms` may have changed. */
  ghost predicate LinksBut(ts: set<Task>, ms: seq<Obj>, head0: Heads, next0: Links, head: Heads, next: Links) {
    && head.Keys == head0.Keys && (forall t :: t in head0 && t !in ts ==> head[t] == head0[t])
    && next.Keys == next0.Keys && (forall m :: m in next0 && m !in ms ==> next[m] == next0[m])
  }

  lemma LinksButMore(t: Task, n: Task, ms: seq<Obj>, m: Obj, head0: Heads, next0: Links, head1: Heads, next1: Links,
      head: Heads, next: Links)
    requires LinksBut({t}, ms, head0, next0, head1, next1) && LinksBut({n}, [m], head1, next1, head, next) && m in ms
    ensures LinksBut({t, n}, ms, head0, next0, head, next)
  {
  }

  lemma LinkPassed(n: Task, m: Obj, head0: Heads, next0: Links, head: Heads, next: Links)
    requires n in head0 && m in next0 && head == head0[n := Some(m)] && next == next0[m := head0[n]]
    ensures LinksBut({n}, [m], head0, next0, head, next)
  {
  }

  /** The part of `mutex_pri_look` that takes a mutex off: the pointer to it, in the task or in another mutex, is set
      to its successor. Its own link stays. */
  method UnlinkFrom(h: Option<Obj>, next: Links, rel: Obj, ghost ms: seq<Obj>) returns (h': Option<Obj>, next': Links)
    requires Chain(h, next, ms)
    ensures Chain(h', next', Remove(ms, rel)) && next'.Keys == next.Keys
    ensures forall m :: m in next && (m !in ms || m == rel) ==> next'[m] == next[m]
    ensures h == Some(rel) ==> h' == next[rel] && next' == next
  {
    ChainNoDup(h, next, ms);
    h', next' := h, next;
    var prev: Option<Obj>, cur := None, h;
    ghost var i := 0;
    assert ms[0..] == ms;
    while cur.Some?
      invariant 0 <= i <= |ms| && Chain(cur, next, ms[i..])
      invariant if i == 0 then prev.None? else prev == Some(ms[i - 1])
      invariant h' == h && next' == next && rel !in ms[..i]
      decreases |ms| - i
    {
      assert ms[i..][0] == ms[i] && ms[i..][1..] == ms[i + 1..];
      if cur.value == rel {
        RemoveAt(ms, i);
        if prev.None? {
          h' := next[rel];
          assert Remove(ms, rel) == ms[1..];
        } else {
          ChainFrom(h, next, ms, i - 1);
          next' := next[prev.value := next[rel]];
          Bridged(h, next, ms, i);
        }
        return;
      }
      prev := cur;
      cur := next[cur.value];
      i := i + 1;
    }
    assert ms[..i] == ms;
    RemoveAbsent(ms, rel);
  }

  lemma {:induction false} Bridged(h: Option<Obj>, next: Links, ms: seq<Obj>, i: nat)
    requires Chain(h, next, ms) && NoDup(ms) && 0 < i < |ms| && ms[i - 1] in next && ms[i] in next
    ensures Chain(h, next[ms[i - 1] := next[ms[i]]], ms[..i] + ms[i + 1..])
    decreases i
  {
    var next', r := next[ms[i - 1] := next[ms[i]]], ms[..i] + ms[i + 1..];
    ChainFrom(h, next, ms, i);
    if i == 1 {
      assert r[1..] == ms[2..];
      ChainFrame(next[ms[1]], next, next', ms[2..]);
    } else {
      ChainFrom(h, next, ms, 0);
      Bridged(next[ms[0]], next, ms[1..], i - 1);
      assert r[1..] == ms[1..][..i - 1] + ms[1..][i..];
      assert r[0] == ms[0] && ms[0] != ms[i - 1];
    }
  }

  lemma LinksUnlinked(held: map<Task, seq<Obj>>, head: Heads, next: Links, dead: set<Task>, objs: map<Obj, Object>,
      owner: map<Obj, Task>, t: Task, m: Obj, h': Option<Obj>, next': Links)
    requires LinksOk(held, head, next, dead, objs, owner) && t in held && t !in dead && t in head
    requires Chain(h', next', Remove(held[t], m)) && next'.Keys == next.Keys &&
      (forall m' :: m' in next && (m' !in held[t] || m' == m) ==> next'[m'] == next[m'])
    ensures LinksOk(held[t := Remove(held[t], m)], head[t := h'], next', dead, objs, owner)
  {
    var held', head' := held[t := Remove(held[t], m)], head[t := h'];
    assert LinkAt(t, held, head, next, objs, owner);
    ChainNoDup(head[t], next, held[t]);
    RemoveMembers(held[t], m);
    hide Remove;
    forall u | u in held' && u !in dead
      ensures LinkAt(u, held', head', next', objs, owner)
    {
      assert LinkAt(u, held, head, next, objs, owner);
      if u != t {
        InLinks(head[u], next, held[u]);
        ChainFrame(head[u], next, next', held[u]);
      }
    }
  }

  lemma {:induction false} InLinks(h: Option<Obj>, next: Links, ms: seq<Obj>)
    requires Chain(h, next, ms)
    ensures forall m :: m in ms ==> m in next
    decreases |ms|
  {
    if ms != [] {
      InLinks(next[ms[0]], next, ms[1..]);
    }
  }

  // ----- Stale links -----

  /** Where the link of `m` leads: a released mutex still points to one that was owned at that time, so that one is
      still owned, or was released later. `rank` is the time of the last release. */
  ghost predicate StaleAt(objs: map<Obj, Object>, owner: map<Obj, Task>, next: Links, rank: map<Obj, nat>, m: Obj)
    requires m in next
  {
    next[m].Some? ==>
      var n := next[m].value;
      n in next &&
        (OwnedNow(objs, owner, m) || (m in rank && (OwnedNow(objs, owner, n) || (n in rank && rank[m] < rank[n]))))
  }

  ghost predicate StaleOk(objs: map<Obj, Object>, owner: map<Obj, Task>, next: Links, head: Heads, rank: map<Obj, nat>,
      clock: nat) {
    && (forall m :: m in objs && objs[m].Mutex? ==> m in next)
    && (forall m :: m in next ==> m in objs && (objs[m].Mutex? || objs[m].Gone?) && StaleAt(objs, owner, next, rank, m))
    && (forall t :: t in head && head[t].Some? ==> head[t].value in next)
    && (forall m :: m in rank ==> rank[m] < clock)
  }

  /** `t` gets `m`, from nobody or from another task. */
  lemma StalePushed(objs: map<Obj, Object>, owner: map<Obj, Task>, next: Links, head: Heads, rank: map<Obj, nat>,
      clock: nat, t: Task, m: Obj)
    requires StaleOk(objs, owner, next, head, rank, clock) && m in objs && objs[m].Mutex? && t in head
    ensures StaleOk(objs, owner[m := t], next[m := head[t]], head[t := Some(m)], rank, clock)
  {
    var owner', next' := owner[m := t], next[m := head[t]];
    forall x | x in next'
      ensures StaleAt(objs, owner', next', rank, x)
    {
      if x != m {
        assert StaleAt(objs, owner, next, rank, x);
      }
    }
  }

  lemma StaleUnlinked(objs: map<Obj, Object>, owner: map<Obj, Task>, next: Links, head: Heads, rank: map<Obj, nat>,
      clock: nat,
                      t: Task, ms: seq<Obj>, h': Option<Obj>, next': Links, ms': seq<Obj>)
    requires StaleOk(objs, owner, next, head, rank, clock) && next'.Keys == next.Keys && Chain(h', next', ms')
    requires (forall m :: m in ms ==> OwnedNow(objs, owner, m)) && (forall m :: m in ms' ==> m in ms)
    requires forall m :: m in next && m !in ms ==> next'[m] == next[m]
    requires forall m :: m in ms && m in next && m !in ms' ==> next'[m] == next[m]
    ensures StaleOk(objs, owner, next', head[t := h'], rank, clock)
  {
    InLinks(h', next', ms');
    forall x | x in next'
      ensures StaleAt(objs, owner, next', rank, x)
    {
      assert StaleAt(objs, owner, next, rank, x);
      if x in ms' {
        SuccessorIn(h', next', ms', x);
      }
    }
    if h'.Some? {
      assert h'.value in ms';
    }
  }

  lemma SuccessorIn(h: Option<Obj>, next: Links, ms: seq<Obj>, m: Obj)
    requires Chain(h, next, ms) && m in ms
    ensures m in next && (next[m].Some? ==> next[m].value in ms && next[m].value != m)
  {
    ChainNoDup(h, next, ms);
    var i :| 0 <= i < |ms| && ms[i] == m;
    ChainFrom(h, next, ms, i);
    if next[m].Some? {
      assert ms[i + 1..][0] == ms[i + 1];
    }
  }

  /** `m` is released while its successor is still owned. */
  lemma StaleReleased(objs: map<Obj, Object>, owner: map<Obj, Task>, objs': map<Obj, Object>, owner': map<Obj, Task>,
                      next: Links, head: Heads, rank: map<Obj, nat>, clock: nat, m: Obj)
    requires StaleOk(objs, owner, next, head, rank, clock) && m in next && !OwnedNow(objs', owner', m)
    requires forall x :: x != m ==> (OwnedNow(objs', owner', x) <==> OwnedNow(objs, owner, x))
    requires objs'.Keys == objs.Keys && (forall x :: x in objs && x != m ==> objs'[x] == objs[x]) && m in objs &&
      (objs'[m].Mutex? || objs'[m].Gone?)
    requires next[m].Some? ==> next[m].value != m && OwnedNow(objs, owner, next[m].value)
    ensures StaleOk(objs', owner', next, head, rank[m := clock], clock + 1)
  {
    forall x | x in next
      ensures StaleAt(objs', owner', next, rank[m := clock], x)
    {
      assert StaleAt(objs, owner, next, rank, x);
    }
  }

  /** Ownership and kinds are as before, as far as mutexes go. */
  lemma StaleAside(objs: map<Obj, Object>, owner: map<Obj, Task>, objs': map<Obj, Object>, owner': map<Obj, Task>,
                   next: Links, head: Heads, rank: map<Obj, nat>, clock: nat)
    requires StaleOk(objs, owner, next, head, rank, clock)
    requires forall x :: OwnedNow(objs', owner', x) <==> OwnedNow(objs, owner, x)
    requires forall x :: x in objs' && objs'[x].Mutex? ==> x in next
    requires forall x :: x in next ==> x in objs' && (objs'[x].Mutex? || objs'[x].Gone?)
    ensures StaleOk(objs', owner', next, head, rank, clock)
  {
    forall x | x in next
      ensures StaleAt(objs', owner', next, rank, x)
    {
      assert StaleAt(objs, owner, next, rank, x);
    }
  }

  lemma StaleGone(objs: map<Obj, Object>, owner: map<Obj, Task>, next: Links, head: Heads, rank: map<Obj, nat>,
      clock: nat, m: Obj)
    requires StaleOk(objs, owner, next, head, rank, clock) && m !in owner && m in objs && objs[m].Mutex?
    ensures StaleOk(objs[m := Gone], owner, next, head, rank, clock)
  {
    hide StaleAt;
    StaleAside(objs, owner, objs[m := Gone], owner, next, head, rank, clock);
  }

  lemma NotLinked(objs: map<Obj, Object>, owner: map<Obj, Task>, next: Links, head: Heads, rank: map<Obj, nat>,
      clock: nat, o: Obj)
    requires StaleOk(objs, owner, next, head, rank, clock) && o in objs && !objs[o].Mutex? && !objs[o].Gone?
    ensures o !in next
  {
  }

  /** An object that is no mutex. */
  lemma StaleOther(objs: map<Obj, Object>, owner: map<Obj, Task>, objs': map<Obj, Object>, owner': map<Obj, Task>,
                   next: Links, head: Heads, rank: map<Obj, nat>, clock: nat, o: Obj)
    requires StaleOk(objs, owner, next, head, rank, clock) && o !in next && (o in objs ==> !objs[o].Mutex?) &&
      o in objs' && objs' == objs[o := objs'[o]]
    requires !objs'[o].Mutex? && owner' - {o} == owner - {o}
    ensures StaleOk(objs', owner', next, head, rank, clock)
  {
    hide StaleAt;
    forall x
      ensures OwnedNow(objs', owner', x) <==> OwnedNow(objs, owner, x)
    {
      assert x != o ==> (x in owner' <==> x in owner' - {o}) && (x in owner <==> x in owner - {o});
    }
    StaleAside(objs, owner, objs', owner', next, head, rank, clock);
  }

  lemma LinkOf(held: map<Task, seq<Obj>>, head: Heads, next: Links, dead: set<Task>, objs: map<Obj, Object>,
      owner: map<Obj, Task>, t: Task)
    requires LinksOk(held, head, next, dead, objs, owner) && t in held && t !in dead
    ensures t in head && Chain(head[t], next, held[t]) && forall m :: m in held[t] ==>
      OwnedNow(objs, owner, m) && owner[m] == t
  {
    assert LinkAt(t, held, head, next, objs, owner);
  }

  lemma StaleForget(objs: map<Obj, Object>, owner: map<Obj, Task>, next: Links, head: Heads, rank: map<Obj, nat>,
      clock: nat, m: Obj)
    requires StaleOk(objs, owner, next, head, rank, clock) && !OwnedNow(objs, owner, m)
    ensures StaleOk(objs, owner - {m}, next, head, rank, clock)
  {
    hide StaleAt;
    StaleAside(objs, owner, objs, owner - {m}, next, head, rank, clock);
  }

  lemma StaleBorn(objs: map<Obj, Object>, owner: map<Obj, Task>, next: Links, head: Heads, rank: map<Obj, nat>,
      clock: nat, t: Task)
    requires StaleOk(objs, owner, next, head, rank, clock)
    ensures StaleOk(objs, owner, next, head[t := None], rank, clock)
  {
    hide StaleAt;
  }

  lemma StaleNew(objs: map<Obj, Object>, owner: map<Obj, Task>, next: Links, head: Heads, rank: map<Obj, nat>,
      clock: nat, m: Obj)
    requires StaleOk(objs, owner, next, head, rank, clock) && (m in objs ==> objs[m].Gone?)
    ensures StaleOk(objs[m := Mutex], owner - {m}, next[m := None], head, rank, clock)
  {
    var objs', owner', next' := objs[m := Mutex], owner - {m}, next[m := None];
    forall x | x in next'
      ensures StaleAt(objs', owner', next', rank, x)
    {
      if x != m {
        assert StaleAt(objs, owner, next, rank, x);
      }
    }
  }

  /** From every head the links come to an end. */
  lemma {:induction false} StaleChain(h: Option<Obj>, objs: map<Obj, Object>, owner: map<Obj, Task>, next: Links,
      head: Heads, rank: map<Obj, nat>, clock: nat,
                                      held: map<Task, seq<Obj>>) returns (ms: seq<Obj>)
    requires StaleOk(objs, owner, next, head, rank, clock) && (h.Some? ==> h.value in next)
    requires forall m :: OwnedNow(objs, owner, m) ==>
      owner[m] in held && owner[m] in head && Chain(head[owner[m]], next, held[owner[m]]) && m in held[owner[m]]
    ensures Chain(h, next, ms) && forall m :: m in ms ==> m in next
    decreases if h.Some? &&
      !OwnedNow(objs, owner, h.value) then 1 + clock - (if h.value in rank then rank[h.value] else 0) else 0
  {
    if h.None? {
      return [];
    }
    var m := h.value;
    assert StaleAt(objs, owner, next, rank, m);
    if OwnedNow(objs, owner, m) {
      var list := held[owner[m]];
      var i :| 0 <= i < |list| && list[i] == m;
      ChainFrom(head[owner[m]], next, list, i);
      ms := list[i..];
      InLinks(h, next, ms);
    } else if next[m].None? {
      ms := [m];
      assert [m][1..] == [];
    } else {
      var rest := StaleChain(next[m], objs, owner, next, head, rank, clock, held);
      ms := [m] + rest;
      assert ms[1..] == rest;
    }
  }

  // ----- What a second deletion leaves -----

  /** `held` is what the links of the live tasks lead through, and fits the owners. */
  ghost predicate Ownership(state: map<Task, TaskState>, objs: map<Obj, Object>, owner: map<Obj, Task>,
      held: map<Task, seq<Obj>>,
                            waiters: map<Obj, seq<Task>>, head: Heads, next: Links)
  {
    && held.Keys == state.Keys && OwnOk(state, objs, owner, held, waiters)
    && forall t :: t in state && Live(state[t]) ==> t in head && Chain(head[t], next, held[t])
  }

  /** The links of the live task `x` lead through `ms` to a mutex that `x` does not own. */
  ghost predicate Scar(state: map<Task, TaskState>, objs: map<Obj, Object>, owner: map<Obj, Task>, head: Heads,
      next: Links, x: Task, ms: seq<Obj>) {
    && ms != [] && x in state && Live(state[x]) && x in head && Leads(head[x], next, ms)
    && !(OwnedNow(objs, owner, ms[|ms| - 1]) && owner[ms[|ms| - 1]] == x)
  }

  lemma ScarBreaks(state: map<Task, TaskState>, objs: map<Obj, Object>, owner: map<Obj, Task>,
      held: map<Task, seq<Obj>>,
                   waiters: map<Obj, seq<Task>>, head: Heads, next: Links, x: Task, ms: seq<Obj>)
    requires Scar(state, objs, owner, head, next, x, ms)
    ensures !Ownership(state, objs, owner, held, waiters, head, next)
  {
    if Ownership(state, objs, owner, held, waiters, head, next) {
      LedInto(head[x], next, ms, held[x]);
    }
  }

  /** Another mutex is passed on to `n`. */
  lemma ScarStays(state: map<Task, TaskState>, objs: map<Obj, Object>, owner: map<Obj, Task>, head: Heads, next: Links,
      x: Task, ms: seq<Obj>,
                  m: Obj, n: Task, state': map<Task, TaskState>, link: Option<Obj>)
    requires Scar(state, objs, owner, head, next, x, ms) && m !in ms && n != x && x in state' && state'[x] == state[x]
    ensures Scar(state', objs, owner[m := n], head[n := Some(m)], next[m := link], x, ms)
    ensures Scar(state, objs, owner - {m}, head, next, x, ms)
  {
    LedIn(head[x], next, ms);
    LeadsFrame(head[x], next, next[m := link], ms);
  }

  lemma {:induction false} LedIn(h: Option<Obj>, next: Links, ms: seq<Obj>)
    requires Leads(h, next, ms)
    ensures forall m :: m in ms ==> m in next
    decreases |ms|
  {
    if ms != [] {
      LedIn(next[ms[0]], next, ms[1..]);
    }
  }

  lemma ScarIn(state: map<Task, TaskState>, objs: map<Obj, Object>, owner: map<Obj, Task>, head: Heads, next: Links,
      x: Task, ms: seq<Obj>)
    requires Scar(state, objs, owner, head, next, x, ms)
    ensures x in state
  {
  }

  /** `n` is given `m`, which is no mutex. */
  lemma HeirScar(state: map<Task, TaskState>, objs: map<Obj, Object>, owner: map<Obj, Task>, head: Heads, next: Links,
      n: Task, m: Obj, s: TaskState)
    requires n in head && Live(s) && m in objs && !objs[m].Mutex?
    ensures Scar(state[n := s], objs, owner[m := n], head[n := Some(m)], next[m := head[n]], n, [m])
  {
    assert [m][1..] == [];
  }

  lemma AfterIt(h: Option<Obj>, next: Links, list: seq<Obj>, i: nat)
    requires Chain(h, next, list) && i < |list|
    ensures forall v :: v in list[i + 1..] ==> v in list && v !in list[..i + 1]
  {
    ChainNoDup(h, next, list);
    hide Chain;
  }

  lemma ChainEnd(next: Links, ms: seq<Obj>)
    requires Chain(None, next, ms)
    ensures ms == []
  {
  }

  /** The owner `x` of `m`, which is in place `i` of its list, is passed over. */
  lemma ScarCut(state: map<Task, TaskState>, objs: map<Obj, Object>, owner: map<Obj, Task>, head: Heads, next: Links,
      x: Task, list: seq<Obj>, i: nat,
                n: Task, state': map<Task, TaskState>, link: Option<Obj>)
    requires x in state && Live(state[x]) && x in head && Chain(head[x], next, list) && i < |list| && n != x &&
      x in state' && state'[x] == state[x]
    ensures var m, ms := list[i], list[..i + 1];
            && Scar(state', objs, owner[m := n], head[n := Some(m)], next[m := link], x, ms)
            && Scar(state, objs, owner - {m}, head, next, x, ms)
  {
    var m, ms := list[i], list[..i + 1];
    assert list == ms + list[i + 1..];
    ChainLeads(head[x], next, ms, list[i + 1..]);
    ChainNoDup(head[x], next, list);
    LedIn(head[x], next, ms);
    LeadsFrame(head[x], next, next[m := link], ms);
  }
}
